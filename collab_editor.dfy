/**
 * The collaborative editor's own logic around the shared document: the
 * colour a collaborator is drawn in, the connection-status indicator, the
 * list of connected collaborators read from awareness states, seeding an
 * empty document with a language template, and the collaborator chips.
 * The replicated document itself belongs to an external library; here it is
 * only the text the local replica holds.
 */
module CollabEditor {
  import opened Wrappers
  import opened JsString

  /** `SupportedLanguage`. */
  datatype Language = JavaScript | Python | Cpp | Java

  /** `collaboratorColors`. */
  const Palette: seq<string> := [
    "#f87171", "#fb923c", "#fbbf24", "#a3e635", "#34d399",
    "#22d3ee", "#60a5fa", "#a78bfa", "#f472b6", "#38bdf8"]

  const TwoTo31: int := 0x8000_0000
  const TwoTo32: int := 0x1_0000_0000

  /** ECMA-262 ToInt32 of an integral value: the signed 32-bit integer congruent to `x` modulo 2^32. */
  function ToInt32(x: int): (r: int)
    ensures -TwoTo31 <= r < TwoTo31
    ensures (x - r) % TwoTo32 == 0
  {
    var m := x % TwoTo32;
    if m >= TwoTo31 then m - TwoTo32 else m
  }

  /** `a` and `b` are congruent modulo 2^32. */
  predicate Congruent(a: int, b: int) {
    (a - b) % TwoTo32 == 0
  }

  lemma CongruentMultiple(a: int, b: int)
    requires Congruent(a, b)
    ensures a - b == TwoTo32 * ((a - b) / TwoTo32)
  {
  }

  lemma CongruentScale(a: int, b: int, k: int)
    requires Congruent(a, b)
    ensures Congruent(k * a, k * b)
  {
    var q := (a - b) / TwoTo32;
    CongruentMultiple(a, b);
    assert k * a - k * b == TwoTo32 * (k * q);
  }

  lemma CongruentAdd(a: int, b: int, c: int, d: int)
    requires Congruent(a, b) && Congruent(c, d)
    ensures Congruent(a + c, b + d)
  {
    var q1 := (a - b) / TwoTo32;
    var q2 := (c - d) / TwoTo32;
    CongruentMultiple(a, b);
    CongruentMultiple(c, d);
    assert (a + c) - (b + d) == TwoTo32 * (q1 + q2);
  }

  lemma MultipleCongruent(a: int, b: int, k: int)
    requires a - b == TwoTo32 * k
    ensures Congruent(a, b)
  {
  }

  /** Truncating, scaling by 32 and truncating again stays congruent to 32 times the input. */
  lemma ShiftCongruent(h: int, t: int, r: int)
    requires Congruent(h, t) && Congruent(32 * t, r)
    ensures Congruent(r, 32 * h)
  {
    var q1 := (h - t) / TwoTo32;
    var q2 := (32 * t - r) / TwoTo32;
    CongruentMultiple(h, t);
    CongruentMultiple(32 * t, r);
    assert r - 32 * h == TwoTo32 * (-q2 - 32 * q1);
    MultipleCongruent(r, 32 * h, -q2 - 32 * q1);
  }

  /** `h << 5`: ToInt32 of the operand, shifted, read back as a signed 32-bit integer. */
  function ShiftLeft5(h: int): (r: int)
    ensures -TwoTo31 <= r < TwoTo31
    ensures Congruent(r, 32 * h)
  {
    var t := ToInt32(h);
    var r := ToInt32(t * 32);
    ShiftCongruent(h, t, r);
    r
  }

  /** The polynomial hash with multiplier 31 over code units: the reference the shift-based loop computes. */
  function PolyHash(units: seq<CodeUnit>): int
    decreases |units|
  {
    if units == [] then 0 else 31 * PolyHash(units[..|units| - 1]) + units[|units| - 1]
  }

  /**
   * The hash of `getColorForName`, over the name's UTF-16 code units, first to
   * last. `(hash << 5) - hash` is 31 times the hash modulo 2^32, so the result
   * is the polynomial hash modulo 2^32.
   */
  function NameHash(units: seq<CodeUnit>): (r: int)
    ensures units == [] ==> r == 0
    ensures Congruent(r, PolyHash(units))
    decreases |units|
  {
    if units == [] then 0
    else
      var prefix := units[..|units| - 1];
      var u := units[|units| - 1];
      var h := NameHash(prefix);
      var r := u + (ShiftLeft5(h) - h);
      CongruentAdd(ShiftLeft5(h), 32 * h, -h, -h);
      assert Congruent(r, u + 31 * h) by {
        CongruentAdd(ShiftLeft5(h) - h, 31 * h, u, u);
        assert (ShiftLeft5(h) - h + u) - (31 * h + u) == r - (u + 31 * h);
      }
      CongruentScale(h, PolyHash(prefix), 31);
      CongruentAdd(r - (u + 31 * h), 0, u + 31 * h, u + 31 * PolyHash(prefix));
      r
  }

  /** `Math.abs(hash) % collaboratorColors.length`. */
  function PaletteIndex(hash: int): (i: nat)
    ensures i < |Palette|
  {
    (if hash < 0 then -hash else hash) % |Palette|
  }

  /**
   * `getColorForName`: the hash loop over the name's code units, then the
   * palette entry it selects.
   */
  method ColorForName(name: string) returns (color: string)
    ensures color in Palette
    ensures color == Palette[PaletteIndex(NameHash(Utf16(name)))]
  {
    var units := Utf16(name);
    var hash := 0;
    var i := 0;
    while i < |units|
      invariant 0 <= i <= |units|
      invariant hash == NameHash(units[..i])
    {
      assert units[..i + 1][..i] == units[..i];
      hash := units[i] + (ShiftLeft5(hash) - hash);
      i := i + 1;
    }
    assert units[..i] == units;
    color := Palette[PaletteIndex(hash)];
  }

  /** The empty name hashes to 0 and is drawn in the first palette colour. */
  lemma EmptyNameIsRed()
    ensures Palette[PaletteIndex(NameHash(Utf16("")))] == "#f87171"
  {
  }

  /**
   * Each code unit moves the hash by less than 2^32, so for names shorter than
   * 2^21 units every intermediate value stays below 2^53 and the source's
   * double-precision arithmetic is exact, as the unbounded integers here are.
   */
  lemma {:induction false} NameHashBound(units: seq<CodeUnit>)
    ensures -|units| * TwoTo32 <= NameHash(units) <= |units| * TwoTo32
    decreases |units|
  {
    if units != [] {
      var prefix := units[..|units| - 1];
      NameHashBound(prefix);
      var h := NameHash(prefix);
      assert -TwoTo31 <= ShiftLeft5(h) < TwoTo31;
      assert NameHash(units) == units[|units| - 1] + (ShiftLeft5(h) - h);
      assert (|units| - 1) * TwoTo32 + TwoTo32 == |units| * TwoTo32;
    }
  }

  /** The user record each collaborator publishes in its awareness state. */
  datatype AwarenessUser = AwarenessUser(name: string, color: string, colorLight: string)

  /** The translucent variant of a colour: the colour followed by alpha "33". */
  function ColorLight(color: string): (r: string)
    ensures |r| == |color| + 2 && r[..|color|] == color && r[|color|..] == "33"
  {
    color + "33"
  }

  datatype ConnectionStatus = Connecting | Connected | Disconnected

  /** The provider's `status` event. */
  function StatusFromEvent(status: string): (r: ConnectionStatus)
    ensures r == Connected <==> status == "connected"
    ensures r == Disconnected <==> status == "disconnected"
    ensures r == Connecting <==> status != "connected" && status != "disconnected"
  {
    if status == "connected" then Connected
    else if status == "disconnected" then Disconnected
    else Connecting
  }

  /** The part of an awareness state read here: an optional `user` with an optional `name`. */
  datatype UserField = UserField(name: Option<string>)
  datatype AwarenessState = AwarenessState(user: Option<UserField>)

  /** `userData.user?.name` is truthy: there is a user whose name is a non-empty string. */
  predicate HasName(st: AwarenessState): (r: bool)
    ensures st.user.None? ==> !r
    ensures st.user.Some? && st.user.value.name.None? ==> !r
    ensures st.user.Some? && st.user.value.name == Some("") ==> !r
    ensures st.user.Some? && st.user.value.name.Some? && st.user.value.name.value != "" ==> r
  {
    st.user.Some? && st.user.value.name.Some? && st.user.value.name.value != ""
  }

  function NameOf(st: AwarenessState): string
    requires HasName(st)
  {
    st.user.value.name.value
  }

  /** The awareness state as the local user's `setLocalStateField("user", …)` leaves it. */
  function LocalAwareness(participantName: string): (st: AwarenessState)
    ensures participantName != "" ==> HasName(st) && NameOf(st) == participantName
    ensures participantName == "" ==> !HasName(st)
  {
    AwarenessState(Some(UserField(Some(participantName))))
  }

  /** The names of the states that carry one, in state order. */
  function NamedPeers(states: seq<AwarenessState>): (r: seq<string>)
    ensures |r| <= |states|
    ensures forall i :: 0 <= i < |r| ==> r[i] != ""
    decreases |states|
  {
    if states == [] then []
    else
      var last := states[|states| - 1];
      NamedPeers(states[..|states| - 1]) + (if HasName(last) then [NameOf(last)] else [])
  }

  /** A name is listed exactly when some awareness state carries it. */
  lemma {:induction false} NamedPeersMembership(states: seq<AwarenessState>, x: string)
    ensures x in NamedPeers(states) <==>
      exists i :: 0 <= i < |states| && HasName(states[i]) && NameOf(states[i]) == x
    decreases |states|
  {
    if states != [] {
      var prefix := states[..|states| - 1];
      var last := states[|states| - 1];
      NamedPeersMembership(prefix, x);
      if x in NamedPeers(states) {
        if x in NamedPeers(prefix) {
          var i :| 0 <= i < |prefix| && HasName(prefix[i]) && NameOf(prefix[i]) == x;
          assert states[i] == prefix[i];
        } else {
          assert HasName(last) && NameOf(last) == x;
        }
      }
      if exists i :: 0 <= i < |states| && HasName(states[i]) && NameOf(states[i]) == x {
        var i :| 0 <= i < |states| && HasName(states[i]) && NameOf(states[i]) == x;
        if i < |prefix| {
          assert prefix[i] == states[i];
        }
      }
    }
  }

  /** The lines joined as a text: each line followed by a newline. */
  function JoinLines(lines: seq<string>): (r: string)
    ensures |r| >= |lines|
    ensures lines != [] ==>
      r[|r| - 1] == '\n' && |r| > |lines[0]| && r[..|lines[0]| + 1] == lines[0] + "\n"
  {
    if lines == [] then ""
    else
      var rest := JoinLines(lines[1..]);
      assert (lines[0] + "\n" + rest)[..|lines[0]| + 1] == lines[0] + "\n";
      lines[0] + "\n" + rest
  }

  /** The comment line each template opens with, naming its language. */
  function TemplateHeader(lang: Language): string {
    match lang
    case JavaScript => "// JavaScript Code"
    case Python => "# Python Code"
    case Cpp => "// C++ Code"
    case Java => "// Java Code"
  }

  /** The lines that follow the header. */
  function TemplateBody(lang: Language): (r: seq<string>)
    ensures r != []
  {
    match lang
    case JavaScript =>
      ["// Start coding here...", "", "function main() {",
       "  console.log(\"Hello, World!\");", "}", "", "main();"]
    case Python =>
      ["# Start coding here...", "", "def main():",
       "    print(\"Hello, World!\")", "", "if __name__ == \"__main__\":", "    main()"]
    case Cpp =>
      ["// Start coding here...", "", "#include <iostream>", "",
       "int main() {", "    std::cout << \"Hello, World!\" << std::endl;", "    return 0;", "}"]
    case Java =>
      ["// Start coding here...", "", "public class Main {",
       "    public static void main(String[] args) {",
       "        System.out.println(\"Hello, World!\");", "    }", "}"]
  }

  /**
   * `getDefaultCode`: the template an empty document is seeded with; never
   * empty, opening with a comment that names the language, ending in a newline.
   */
  function DefaultCode(lang: Language): (r: string)
    ensures r != [] && r[|r| - 1] == '\n'
    ensures |r| > |TemplateHeader(lang)|
    ensures r[..|TemplateHeader(lang)| + 1] == TemplateHeader(lang) + "\n"
  {
    JoinLines([TemplateHeader(lang)] + TemplateBody(lang))
  }

  /** A position at which the headers of two different languages differ. */
  function HeaderSplit(a: Language, b: Language): nat {
    if a == Python || b == Python then 0 else if a == Cpp || b == Cpp then 3 else 7
  }

  lemma HeadersDiffer(a: Language, b: Language)
    requires a != b
    ensures HeaderSplit(a, b) < |TemplateHeader(a)| && HeaderSplit(a, b) < |TemplateHeader(b)|
    ensures TemplateHeader(a)[HeaderSplit(a, b)] != TemplateHeader(b)[HeaderSplit(a, b)]
  {
  }

  lemma PrefixAt(x: string, p: string, k: nat)
    requires |p| <= |x| && x[..|p|] == p && k < |p|
    ensures x[k] == p[k]
  {
    assert x[..|p|][k] == x[k];
  }

  lemma DefaultCodeAt(lang: Language, k: nat)
    requires k < |TemplateHeader(lang)|
    ensures k < |DefaultCode(lang)| && DefaultCode(lang)[k] == TemplateHeader(lang)[k]
  {
    PrefixAt(DefaultCode(lang), TemplateHeader(lang) + "\n", k);
  }

  /** Each language is seeded with its own template. */
  lemma DefaultCodeInjective(a: Language, b: Language)
    requires a != b
    ensures DefaultCode(a) != DefaultCode(b)
  {
    var k := HeaderSplit(a, b);
    HeadersDiffer(a, b);
    DefaultCodeAt(a, k);
    DefaultCodeAt(b, k);
  }

  function Min(a: int, b: int): int {
    if a < b then a else b
  }

  lemma EllipsisUnits()
    ensures Utf16("...") == [0x2E, 0x2E, 0x2E]
  {
    assert "..."[1..] == "..";
    assert ".."[1..] == ".";
    assert "."[1..] == "";
  }

  /**
   * The text of one collaborator chip, in UTF-16 code units: the local name
   * marked " (You)", any other name cut to its first ten units plus "...".
   */
  function ChipLabel(peer: string, self: string): (r: seq<CodeUnit>)
    ensures peer == self ==> r == Utf16(peer) + Utf16(" (You)")
    ensures peer != self ==> |r| <= 13
    ensures peer != self ==>
      |r| >= Min(|Utf16(peer)|, 10) && r[..Min(|Utf16(peer)|, 10)] == Utf16(peer)[..Min(|Utf16(peer)|, 10)]
    ensures peer != self && |Utf16(peer)| <= 10 ==> r == Utf16(peer)
    ensures peer != self && |Utf16(peer)| > 10 ==> |r| == 13 && r[10..] == Utf16("...")
  {
    var units := Utf16(peer);
    EllipsisUnits();
    if peer == self then units + Utf16(" (You)")
    else if |units| > 10 then units[..10] + Utf16("...")
    else units
  }

  /** The chips shown: one per collaborator, for the first five only. */
  function VisibleChips(peers: seq<string>, self: string): (r: seq<seq<CodeUnit>>)
    ensures |r| == Min(|peers|, 5)
    ensures forall i :: 0 <= i < |r| ==> r[i] == ChipLabel(peers[i], self)
  {
    seq(Min(|peers|, 5), i requires 0 <= i < Min(|peers|, 5) => ChipLabel(peers[i], self))
  }

  /** The "+N more" note, present only beyond five collaborators. */
  function MoreLabel(peers: seq<string>): (r: Option<string>)
    ensures r.Some? <==> |peers| > 5
  {
    if |peers| > 5 then Some("+" + Decimal(|peers| - 5) + " more") else None
  }

  /**
   * The chips and the "+N more" note together account for every collaborator:
   * the number of chips plus the number the note shows is the list's length.
   */
  lemma ChipsAccountForEveryPeer(peers: seq<string>, self: string)
    ensures MoreLabel(peers).None? ==> |VisibleChips(peers, self)| == |peers|
    ensures MoreLabel(peers).Some? ==>
      var l := MoreLabel(peers).value;
      |l| > 6 && l[..1] == "+" && l[|l| - 5..] == " more" && IsDigits(l[1..|l| - 5])
      && |VisibleChips(peers, self)| + DigitsValue(l[1..|l| - 5]) == |peers|
  {
    if |peers| > 5 {
      var d := Decimal(|peers| - 5);
      var l := MoreLabel(peers).value;
      assert l == "+" + d + " more";
      assert l[1..|l| - 5] == d;
      DecimalRoundTrip(|peers| - 5);
    }
  }

  /** One participant's editor session around its replica of the shared text. */
  class EditorSession {
    const language: Language
    const participantName: string
    var status: ConnectionStatus
    var connectedPeers: seq<string>
    var peerCount: nat
    /** The local user record published in awareness. */
    var localUser: AwarenessUser
    /** The shared text as the local replica holds it. */
    var text: string

    /**
     * Setting up the session: status "connecting", the user's colour published
     * in the local awareness state, then the initial `updatePeers`. The local
     * state is the first awareness entry (the awareness registers it when it is
     * created); `others` are the states of the clients already known.
     */
    constructor (language: Language, participantName: string, replicaText: string, others: seq<AwarenessState>)
      ensures this.language == language && this.participantName == participantName
      ensures status == Connecting && text == replicaText
      ensures localUser.name == participantName && localUser.color in Palette
      ensures localUser.color == Palette[PaletteIndex(NameHash(Utf16(participantName)))]
      ensures localUser.colorLight == ColorLight(localUser.color)
      ensures connectedPeers == NamedPeers([LocalAwareness(participantName)] + others)
      ensures peerCount == |connectedPeers|
      ensures participantName != "" ==> participantName in connectedPeers
    {
      this.language := language;
      this.participantName := participantName;
      status := Connecting;
      connectedPeers := [];
      peerCount := 0;
      text := replicaText;
      var color := ColorForName(participantName);
      localUser := AwarenessUser(participantName, color, color + "33");
      new;
      var states := [LocalAwareness(participantName)] + others;
      UpdatePeers(states);
      if participantName != "" {
        NamedPeersMembership(states, participantName);
        assert HasName(states[0]) && NameOf(states[0]) == participantName;
      }
    }

    /** The provider's `status` event. */
    method OnStatus(event: string)
      modifies this`status
      ensures status == StatusFromEvent(event)
    {
      if event == "connected" {
        status := Connected;
      } else if event == "disconnected" {
        status := Disconnected;
      } else {
        status := Connecting;
      }
    }

    /** The provider's `sync` event: a completed sync shows as connected; otherwise nothing changes. */
    method OnSync(synced: bool)
      modifies this`status
      ensures status == if synced then Connected else old(status)
    {
      if synced {
        status := Connected;
      }
    }

    /** `updatePeers`: collect the named awareness states, in order, and count them. */
    method UpdatePeers(states: seq<AwarenessState>)
      modifies this`connectedPeers, this`peerCount
      ensures connectedPeers == NamedPeers(states)
      ensures peerCount == |connectedPeers|
    {
      var peers: seq<string> := [];
      var i := 0;
      while i < |states|
        invariant 0 <= i <= |states|
        invariant peers == NamedPeers(states[..i])
      {
        assert states[..i + 1][..i] == states[..i];
        if HasName(states[i]) {
          peers := peers + [NameOf(states[i])];
        }
        i := i + 1;
      }
      assert states[..i] == states;
      connectedPeers := peers;
      peerCount := |peers|;
    }

    /** The seeding timeout: an empty document receives the template at position 0. */
    method SeedIfEmpty()
      modifies this`text
      ensures old(text) == "" ==> text == DefaultCode(language)
      ensures old(text) != "" ==> text == old(text)
    {
      if text == "" {
        text := DefaultCode(language) + text;
      }
    }

    /** `getCode`: the document once the view exists, "" before. */
    method GetCode(viewReady: bool) returns (code: string)
      ensures code == if viewReady then text else ""
    {
      code := if viewReady then text else "";
    }
  }
}
