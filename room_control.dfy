/**
 * The room's control plane: which sidebar is open, whether the shared code
 * editor is full screen and who started it, kept in step across participants
 * by broadcasting small code-editor messages over the meeting's data channel.
 *
 * The pure layer (ControlState and its transition functions) is the
 * specification; RoomController is the component itself, a class whose
 * handlers update the fields in place and append what they publish to an
 * outbox, each proved against the matching transition.
 */
module RoomControl {
  import opened Wrappers

  /** The sidebar shown next to the video grid. */
  datatype Sidebar = NoSidebar | ChatSidebar | ParticipantsSidebar | AiSidebar | CodeSidebar

  /** What the control bar can toggle: every sidebar but "none". */
  type ToggleTarget = s: Sidebar | s != NoSidebar witness ChatSidebar

  /** The `type` tag of a message; any other tag a decoder may meet is `OtherKind`. */
  datatype MessageKind = EditorOpen | EditorClose | EditorFullScreen | OtherKind(tag: string)

  /** A code-editor message as sent and as decoded; `isFullScreen` may be absent. */
  datatype CodeEditorMessage = CodeEditorMessage(kind: MessageKind, participantName: string, isFullScreen: Option<bool>)

  /**
   * An inbound data packet after decoding: not JSON at all, the JSON literal
   * `null`, or an object read as a message.
   */
  datatype Payload = Undecodable | JsonNull | Decoded(message: CodeEditorMessage)

  /** Whether a room context exists, and the local participant's identity. */
  datatype Env = Env(hasRoom: bool, identity: Option<string>)

  /**
   * The three React state fields, the re-entrancy guard, and the number of
   * 100 ms guard-reset timers scheduled and not yet fired.
   */
  datatype ControlState = ControlState(
    sidebar: Sidebar,
    fullScreen: bool,
    startedBy: Option<string>,
    guard: bool,
    pendingResets: nat)

  const Initial: ControlState := ControlState(NoSidebar, false, None, false, 0)

  /** What a handler has done: the new state and what it published, in order. */
  datatype Step = Step(state: ControlState, emitted: seq<CodeEditorMessage>)

  /** `localParticipant?.identity || "Someone"`: an absent or empty identity becomes "Someone". */
  function LocalName(env: Env): (r: string)
    ensures r != ""
    ensures env.identity.Some? && env.identity.value != "" ==> r == env.identity.value
    ensures env.identity.None? || env.identity.value == "" ==> r == "Someone"
  {
    match env.identity
    case Some(id) => if id != "" then id else "Someone"
    case None => "Someone"
  }

  /** What `broadcastCodeEditorState` publishes: nothing without a room or while the guard is set. */
  function Broadcast(s: ControlState, env: Env, m: CodeEditorMessage): (r: seq<CodeEditorMessage>)
    ensures r == [] <==> !env.hasRoom || s.guard
    ensures r != [] ==> r == [m]
  {
    if !env.hasRoom || s.guard then [] else [m]
  }

  /**
   * `handleDataReceived`. Without a room no listener is registered. A packet
   * that does not parse changes nothing. Anything that parses sets the guard;
   * only a packet whose `type` can be read goes on to schedule the reset
   * timer, so the JSON literal `null` sets the guard and schedules nothing.
   */
  function Receive(s: ControlState, env: Env, p: Payload): (t: ControlState)
    ensures !env.hasRoom || p.Undecodable? ==> t == s
    ensures env.hasRoom && p.JsonNull? ==> t == s.(guard := true)
    ensures env.hasRoom && p.Decoded? ==> t.guard && t.pendingResets == s.pendingResets + 1
    ensures env.hasRoom && p.Decoded? && p.message.kind.EditorOpen? ==>
      t.sidebar == CodeSidebar && t.startedBy == Some(p.message.participantName)
      && t.fullScreen == (p.message.isFullScreen == Some(true))
    ensures env.hasRoom && p.Decoded? && p.message.kind.EditorClose? ==>
      t.sidebar == NoSidebar && t.startedBy == None && t.fullScreen == s.fullScreen
    ensures env.hasRoom && p.Decoded? && p.message.kind.EditorFullScreen? ==>
      t.sidebar == s.sidebar && t.startedBy == s.startedBy
      && t.fullScreen == (p.message.isFullScreen == Some(true))
    ensures env.hasRoom && p.Decoded? && p.message.kind.OtherKind? ==>
      t.sidebar == s.sidebar && t.startedBy == s.startedBy && t.fullScreen == s.fullScreen
  {
    if !env.hasRoom then s
    else
      match p
      case Undecodable => s
      case JsonNull => s.(guard := true)
      case Decoded(m) =>
        var flagged := s.(guard := true, pendingResets := s.pendingResets + 1);
        match m.kind
        case EditorOpen =>
          flagged.(startedBy := Some(m.participantName), sidebar := CodeSidebar,
                   fullScreen := m.isFullScreen.GetOr(false))
        case EditorClose => flagged.(sidebar := NoSidebar, startedBy := None)
        case EditorFullScreen => flagged.(fullScreen := m.isFullScreen.GetOr(false))
        case OtherKind(_) => flagged
  }

  /** One scheduled guard reset firing: the guard clears; with none scheduled nothing happens. */
  function TimerFires(s: ControlState): (t: ControlState)
    ensures s.pendingResets == 0 ==> t == s
    ensures s.pendingResets > 0 ==> !t.guard && t.pendingResets == s.pendingResets - 1
    ensures t.sidebar == s.sidebar && t.fullScreen == s.fullScreen && t.startedBy == s.startedBy
  {
    if s.pendingResets == 0 then s else s.(guard := false, pendingResets := s.pendingResets - 1)
  }

  /** `toggleSidebar(target)`. */
  function ToggleSidebarStep(s: ControlState, env: Env, target: ToggleTarget): (r: Step)
    ensures r.state.guard == s.guard && r.state.pendingResets == s.pendingResets
    ensures target == CodeSidebar && s.sidebar != CodeSidebar ==>
      r.state.sidebar == CodeSidebar && !r.state.fullScreen && r.state.startedBy == Some(LocalName(env))
      && r.emitted == Broadcast(s, env, CodeEditorMessage(EditorOpen, LocalName(env), Some(false)))
    ensures target == CodeSidebar && s.sidebar == CodeSidebar ==>
      r.state.sidebar == NoSidebar && r.state.startedBy == None && r.state.fullScreen == s.fullScreen
      && r.emitted == Broadcast(s, env, CodeEditorMessage(EditorClose, LocalName(env), None))
    ensures target != CodeSidebar ==>
      r.emitted == [] && r.state.fullScreen == s.fullScreen && r.state.startedBy == s.startedBy
      && (r.state.sidebar == NoSidebar <==> s.sidebar == target)
      && (r.state.sidebar != NoSidebar ==> r.state.sidebar == target)
  {
    if target == CodeSidebar then
      if s.sidebar != CodeSidebar then
        Step(s.(fullScreen := false, startedBy := Some(LocalName(env)), sidebar := CodeSidebar),
             Broadcast(s, env, CodeEditorMessage(EditorOpen, LocalName(env), Some(false))))
      else
        Step(s.(sidebar := NoSidebar, startedBy := None),
             Broadcast(s, env, CodeEditorMessage(EditorClose, LocalName(env), None)))
    else
      Step(s.(sidebar := if s.sidebar == target then NoSidebar else target), [])
  }

  /** `toggleCodeEditorFullScreen`: flips the flag and publishes the new value, whatever the sidebar. */
  function ToggleFullScreenStep(s: ControlState, env: Env): (r: Step)
    ensures r.state == s.(fullScreen := !s.fullScreen)
    ensures r.emitted == Broadcast(s, env, CodeEditorMessage(EditorFullScreen, LocalName(env), Some(!s.fullScreen)))
  {
    Step(s.(fullScreen := !s.fullScreen),
         Broadcast(s, env, CodeEditorMessage(EditorFullScreen, LocalName(env), Some(!s.fullScreen))))
  }

  /** `closeCodeEditor`: closes the sidebar, forgets the starter, leaves full screen alone. */
  function CloseEditorStep(s: ControlState, env: Env): (r: Step)
    ensures r.state == s.(sidebar := NoSidebar, startedBy := None)
    ensures r.emitted == Broadcast(s, env, CodeEditorMessage(EditorClose, LocalName(env), None))
  {
    Step(s.(sidebar := NoSidebar, startedBy := None),
         Broadcast(s, env, CodeEditorMessage(EditorClose, LocalName(env), None)))
  }

  /** Only the chat, participants and assistant panels render a close button of their own. */
  predicate HasCloseButton(s: ControlState) {
    s.sidebar == ChatSidebar || s.sidebar == ParticipantsSidebar || s.sidebar == AiSidebar
  }

  /** The close button of the chat, participants or assistant panel: local only. */
  function DismissStep(s: ControlState): (r: Step)
    requires HasCloseButton(s)
    ensures r.state == s.(sidebar := NoSidebar) && r.emitted == []
  {
    Step(s.(sidebar := NoSidebar), [])
  }

  /** The video grid is rendered unless the code editor is open full screen. */
  predicate VideoGridVisible(s: ControlState): (r: bool)
    ensures s.sidebar != CodeSidebar ==> r
    ensures s.sidebar == CodeSidebar ==> (r <==> !s.fullScreen)
  {
    !(s.sidebar == CodeSidebar && s.fullScreen)
  }

  /** A panel is rendered whenever some sidebar is active. */
  predicate PanelShown(s: ControlState) {
    s.sidebar != NoSidebar
  }

  datatype Width = FullWidth | Pixels(px: nat)

  /** The animated width of the panel. */
  function SidebarWidth(s: ControlState): (w: Width)
    ensures w == FullWidth <==> !VideoGridVisible(s)
    ensures w == Pixels(600) <==> s.sidebar == CodeSidebar && !s.fullScreen
    ensures w == Pixels(400) <==> s.sidebar != CodeSidebar
  {
    if s.sidebar == CodeSidebar && s.fullScreen then FullWidth
    else if s.sidebar == CodeSidebar then Pixels(600)
    else Pixels(400)
  }

  /**
   * The commands a local participant can issue. `Dismiss` is a panel's own
   * close button; where no such button is rendered it does nothing.
   */
  datatype Command = ToggleSidebar(target: ToggleTarget) | ToggleFullScreen | CloseEditor | Dismiss

  function Apply(s: ControlState, env: Env, cmd: Command): Step {
    match cmd
    case ToggleSidebar(target) => ToggleSidebarStep(s, env, target)
    case ToggleFullScreen => ToggleFullScreenStep(s, env)
    case CloseEditor => CloseEditorStep(s, env)
    case Dismiss => if HasCloseButton(s) then DismissStep(s) else Step(s, [])
  }

  /** Everything that can happen to one participant's control plane. */
  datatype Event = Inbound(payload: Payload) | Local(cmd: Command) | TimerFired

  function StepEvent(s: ControlState, env: Env, e: Event): Step {
    match e
    case Inbound(p) => Step(Receive(s, env, p), [])
    case Local(cmd) => Apply(s, env, cmd)
    case TimerFired => Step(TimerFires(s), [])
  }

  /** A run of events from `s`: the final state and everything published, in order. */
  function Run(s: ControlState, env: Env, evs: seq<Event>): Step
    decreases |evs|
  {
    if evs == [] then Step(s, [])
    else
      var first := StepEvent(s, env, evs[0]);
      var rest := Run(first.state, env, evs[1..]);
      Step(rest.state, first.emitted + rest.emitted)
  }

  /**
   * Command muting: once the guard is set, no command publishes anything
   * until a reset timer fires, whatever arrives or is clicked in between.
   */
  lemma {:induction false} GuardSilencesCommands(s: ControlState, env: Env, evs: seq<Event>)
    requires s.guard
    requires forall i :: 0 <= i < |evs| ==> !evs[i].TimerFired?
    ensures Run(s, env, evs).emitted == []
    ensures Run(s, env, evs).state.guard
    decreases |evs|
  {
    if evs != [] {
      var first := StepEvent(s, env, evs[0]);
      assert first.emitted == [] && first.state.guard;
      GuardSilencesCommands(first.state, env, evs[1..]);
    }
  }

  /**
   * Receiving never publishes: `handleDataReceived` only sets state, so a
   * run of inbound packets and timer firings sends nothing, whatever the guard.
   */
  lemma {:induction false} ReceiptNeverPublishes(s: ControlState, env: Env, evs: seq<Event>)
    requires forall i :: 0 <= i < |evs| ==> !evs[i].Local?
    ensures Run(s, env, evs).emitted == []
    decreases |evs|
  {
    if evs != [] {
      var first := StepEvent(s, env, evs[0]);
      assert first.emitted == [];
      ReceiptNeverPublishes(first.state, env, evs[1..]);
    }
  }

  /**
   * What the guard does do: after a decoded packet, this participant's own
   * code-editor commands change its view but are not published until a
   * reset timer fires.
   */
  lemma ReceiptMutesOwnCommands(s: ControlState, env: Env, m: CodeEditorMessage, evs: seq<Event>)
    requires env.hasRoom
    requires forall i :: 0 <= i < |evs| ==> !evs[i].TimerFired?
    ensures Run(s, env, [Inbound(Decoded(m))] + evs).emitted == []
  {
    var t := Receive(s, env, Decoded(m));
    GuardSilencesCommands(t, env, evs);
    assert ([Inbound(Decoded(m))] + evs)[1..] == evs;
  }

  /** The code editor is neither shown nor attributed to anyone. */
  predicate EditorClosed(s: ControlState) {
    s.sidebar != CodeSidebar && s.startedBy == None
  }

  /** Events that cannot open the code editor: no inbound open, no local code toggle. */
  predicate CannotOpen(e: Event) {
    match e
    case Inbound(p) => !(p.Decoded? && p.message.kind.EditorOpen?)
    case Local(cmd) => cmd != ToggleSidebar(CodeSidebar)
    case TimerFired => true
  }

  /**
   * Last applied wins: once a close has been applied, however many full-screen
   * messages, duplicate closes, unknown packets, timers or non-code commands
   * follow, the editor stays closed.
   */
  lemma {:induction false} ClosedStaysClosed(s: ControlState, env: Env, evs: seq<Event>)
    requires EditorClosed(s)
    requires forall i :: 0 <= i < |evs| ==> CannotOpen(evs[i])
    ensures EditorClosed(Run(s, env, evs).state)
    decreases |evs|
  {
    if evs != [] {
      var first := StepEvent(s, env, evs[0]);
      assert CannotOpen(evs[0]);
      assert EditorClosed(first.state);
      ClosedStaysClosed(first.state, env, evs[1..]);
    }
  }

  /**
   * The open / full screen / close sequence, from any state and with any
   * number of duplicates after the close, ends with the editor closed.
   */
  lemma OpenFullScreenCloseEndsClosed(s: ControlState, env: Env, p1: string, tail: seq<Event>)
    requires env.hasRoom
    requires forall i :: 0 <= i < |tail| ==> CannotOpen(tail[i])
    ensures EditorClosed(Run(s, env,
      [Inbound(Decoded(CodeEditorMessage(EditorOpen, p1, Some(false)))),
       Inbound(Decoded(CodeEditorMessage(EditorFullScreen, p1, Some(true)))),
       Inbound(Decoded(CodeEditorMessage(EditorClose, p1, None)))] + tail).state)
  {
    var e1 := Inbound(Decoded(CodeEditorMessage(EditorOpen, p1, Some(false))));
    var e2 := Inbound(Decoded(CodeEditorMessage(EditorFullScreen, p1, Some(true))));
    var e3 := Inbound(Decoded(CodeEditorMessage(EditorClose, p1, None)));
    var evs := [e1, e2, e3] + tail;
    var s1 := Receive(s, env, e1.payload);
    var s2 := Receive(s1, env, e2.payload);
    var s3 := Receive(s2, env, e3.payload);
    assert evs[1..] == [e2, e3] + tail;
    assert evs[1..][1..] == [e3] + tail;
    assert evs[1..][1..][1..] == tail;
    assert Run(s, env, evs).state == Run(s1, env, evs[1..]).state;
    assert Run(s1, env, evs[1..]).state == Run(s2, env, evs[1..][1..]).state;
    assert Run(s2, env, evs[1..][1..]).state == Run(s3, env, tail).state;
    ClosedStaysClosed(s3, env, tail);
  }

  /** Two participants see the same code-editor view. */
  predicate Agree(a: ControlState, b: ControlState) {
    a.sidebar == b.sidebar && a.fullScreen == b.fullScreen && a.startedBy == b.startedBy
  }

  /** Delivering published messages, in order, to another participant. */
  function Deliver(b: ControlState, env: Env, ms: seq<CodeEditorMessage>): ControlState
    decreases |ms|
  {
    if ms == [] then b else Deliver(Receive(b, env, Decoded(ms[0])), env, ms[1..])
  }

  /** The commands that publish what they do. */
  predicate Broadcasting(cmd: Command) {
    cmd == ToggleSidebar(CodeSidebar) || cmd == ToggleFullScreen || cmd == CloseEditor
  }

  /**
   * Two participants that agree stay in agreement when one issues a code-editor
   * command with its guard clear and the other receives what it published.
   */
  lemma DeliveryKeepsAgreement(a: ControlState, b: ControlState, envA: Env, envB: Env, cmd: Command)
    requires Agree(a, b) && !a.guard && envA.hasRoom && envB.hasRoom
    requires Broadcasting(cmd)
    ensures |Apply(a, envA, cmd).emitted| == 1
    ensures Agree(Apply(a, envA, cmd).state, Deliver(b, envB, Apply(a, envA, cmd).emitted))
  {
    var r := Apply(a, envA, cmd);
    assert r.emitted[1..] == [];
  }

  /**
   * The guard breaks that agreement: a command issued while this participant's
   * guard is set changes its own view and publishes nothing, so a peer that
   * agreed before no longer does.
   */
  lemma GuardedCommandDiverges(a: ControlState, b: ControlState, envA: Env, cmd: Command)
    requires Agree(a, b) && a.guard && envA.hasRoom
    requires cmd == ToggleFullScreen || cmd == ToggleSidebar(CodeSidebar)
    ensures Apply(a, envA, cmd).emitted == []
    ensures !Agree(Apply(a, envA, cmd).state, b)
  {
  }

  /**
   * Two participants that both open the editor from a closed view, each
   * receiving the other's open afterwards, end with different starters: each
   * shows the other as the one who started it.
   */
  lemma SimultaneousOpenDisagrees(a: ControlState, b: ControlState, envA: Env, envB: Env)
    requires Agree(a, b) && a.sidebar != CodeSidebar && !a.guard && !b.guard
    requires envA.hasRoom && envB.hasRoom && LocalName(envA) != LocalName(envB)
    ensures var a1 := ToggleSidebarStep(a, envA, CodeSidebar);
            var b1 := ToggleSidebarStep(b, envB, CodeSidebar);
            var a2 := Deliver(a1.state, envA, b1.emitted);
            var b2 := Deliver(b1.state, envB, a1.emitted);
            a2.startedBy == Some(LocalName(envB)) && b2.startedBy == Some(LocalName(envA))
            && !Agree(a2, b2)
  {
    var a1 := ToggleSidebarStep(a, envA, CodeSidebar);
    var b1 := ToggleSidebarStep(b, envB, CodeSidebar);
    assert a1.emitted == [CodeEditorMessage(EditorOpen, LocalName(envA), Some(false))];
    assert b1.emitted == [CodeEditorMessage(EditorOpen, LocalName(envB), Some(false))];
  }

  /** Lexicographic order on names, character by character. */
  predicate NameAtMost(x: string, y: string)
    decreases |x|
  {
    x == [] || (y != [] && (x[0] < y[0] || (x[0] == y[0] && NameAtMost(x[1..], y[1..]))))
  }

  lemma {:induction false} NameAtMostReflexive(x: string)
    ensures NameAtMost(x, x)
    decreases |x|
  {
    if x != [] {
      NameAtMostReflexive(x[1..]);
    }
  }

  lemma {:induction false} NameOrderTotal(x: string, y: string)
    ensures NameAtMost(x, y) || NameAtMost(y, x)
    decreases |x|
  {
    if x != [] && y != [] && x[0] == y[0] {
      NameOrderTotal(x[1..], y[1..]);
    }
  }

  lemma {:induction false} NameOrderAntisymmetric(x: string, y: string)
    requires NameAtMost(x, y) && NameAtMost(y, x)
    ensures x == y
    decreases |x|
  {
    if x != [] {
      assert y != [] && x[0] == y[0];
      NameOrderAntisymmetric(x[1..], y[1..]);
      assert x == [x[0]] + x[1..] && y == [y[0]] + y[1..];
    }
  }

  /** The name that sorts first: the tie-break two openers can both compute. */
  function FirstName(x: string, y: string): (r: string)
    ensures r == x || r == y
    ensures NameAtMost(r, x) && NameAtMost(r, y)
  {
    NameAtMostReflexive(x);
    NameAtMostReflexive(y);
    NameOrderTotal(x, y);
    if NameAtMost(x, y) then x else y
  }

  /** The tie-break does not depend on who applies it. */
  lemma FirstNameSymmetric(x: string, y: string)
    ensures FirstName(x, y) == FirstName(y, x)
  {
    if NameAtMost(x, y) && NameAtMost(y, x) {
      NameOrderAntisymmetric(x, y);
    }
  }

  lemma {:induction false} NameOrderTransitive(x: string, y: string, z: string)
    requires NameAtMost(x, y) && NameAtMost(y, z)
    ensures NameAtMost(x, z)
    decreases |x|
  {
    if x != [] {
      assert y != [] && z != [];
      if x[0] == y[0] && y[0] == z[0] {
        NameOrderTransitive(x[1..], y[1..], z[1..]);
      }
    }
  }

  /** Folding the tie-break over three names does not depend on the order of the last two. */
  lemma FirstNameOfThree(x: string, a: string, b: string)
    ensures FirstName(FirstName(x, a), b) == FirstName(FirstName(x, b), a)
  {
    var xa := FirstName(x, a);
    var xb := FirstName(x, b);
    var p := FirstName(xa, b);
    var q := FirstName(xb, a);
    NameOrderTransitive(p, xa, x);
    NameOrderTransitive(p, xa, a);
    NameOrderTransitive(q, xb, x);
    NameOrderTransitive(q, xb, b);
    assert NameAtMost(p, q) by {
      assert q == x || q == a || q == b;
    }
    assert NameAtMost(q, p) by {
      assert p == x || p == a || p == b;
    }
    NameOrderAntisymmetric(p, q);
  }

  /*
   * The behaviour the design promises, as corrected definitions: commands are
   * published whatever the guard, and the starter shown is the first-sorting
   * name among everyone who opened the editor since it was last closed, so
   * that an open, applied locally or received, settles on the same starter.
   */

  /** The starter after an open by `name`: the tie-break with the starter already shown, if any. */
  function StarterAfterOpen(startedBy: Option<string>, name: string): (r: string)
    ensures startedBy.None? ==> r == name
    ensures startedBy.Some? ==> r == FirstName(startedBy.value, name)
  {
    match startedBy
    case None => name
    case Some(current) => FirstName(current, name)
  }

  /**
   * A local command as intended: published whatever the guard, and a local
   * open keeps the tie-break starter; otherwise the same new state as `Apply`.
   */
  function IntendedApply(s: ControlState, env: Env, cmd: Command): (r: Step)
    ensures cmd == ToggleSidebar(CodeSidebar) && s.sidebar != CodeSidebar ==>
      r.state == Apply(s, env, cmd).state.(startedBy := Some(StarterAfterOpen(s.startedBy, LocalName(env))))
    ensures !(cmd == ToggleSidebar(CodeSidebar) && s.sidebar != CodeSidebar) ==>
      r.state == Apply(s, env, cmd).state
    ensures env.hasRoom && Broadcasting(cmd) ==> |r.emitted| == 1
    ensures !env.hasRoom || !Broadcasting(cmd) ==> r.emitted == []
  {
    var emitted := Apply(s.(guard := false), env, cmd).emitted;
    if cmd == ToggleSidebar(CodeSidebar) && s.sidebar != CodeSidebar then
      Step(Apply(s, env, cmd).state.(startedBy := Some(StarterAfterOpen(s.startedBy, LocalName(env)))), emitted)
    else
      Step(Apply(s, env, cmd).state, emitted)
  }

  /** Receipt as intended: as `Receive`, except that an open keeps the tie-break starter. */
  function IntendedReceive(s: ControlState, env: Env, p: Payload): (t: ControlState)
    ensures !(env.hasRoom && p.Decoded? && p.message.kind.EditorOpen?) ==> t == Receive(s, env, p)
    ensures env.hasRoom && p.Decoded? && p.message.kind.EditorOpen? ==>
      t.sidebar == CodeSidebar && t.guard
      && t.fullScreen == (p.message.isFullScreen == Some(true))
      && t.startedBy == Some(StarterAfterOpen(s.startedBy, p.message.participantName))
  {
    if env.hasRoom && p.Decoded? && p.message.kind.EditorOpen? then
      Receive(s, env, p).(startedBy := Some(StarterAfterOpen(s.startedBy, p.message.participantName)))
    else Receive(s, env, p)
  }

  function IntendedDeliver(b: ControlState, env: Env, ms: seq<CodeEditorMessage>): ControlState
    decreases |ms|
  {
    if ms == [] then b else IntendedDeliver(IntendedReceive(b, env, Decoded(ms[0])), env, ms[1..])
  }

  /**
   * With the corrected definitions any open, from a sender and a receiver that
   * show the same starter, leaves both showing the same starter, whatever
   * else either has open and whatever the sender's guard.
   */
  lemma IntendedOpenKeepsStarter(a: ControlState, b: ControlState, envA: Env, envB: Env)
    requires a.startedBy == b.startedBy && a.sidebar != CodeSidebar
    requires envA.hasRoom && envB.hasRoom
    ensures var r := IntendedApply(a, envA, ToggleSidebar(CodeSidebar));
            IntendedDeliver(b, envB, r.emitted).startedBy == r.state.startedBy
  {
    var r := IntendedApply(a, envA, ToggleSidebar(CodeSidebar));
    assert r.emitted == [CodeEditorMessage(EditorOpen, LocalName(envA), Some(false))];
  }

  /** With the corrected definitions a single sender keeps its peer in step whatever its guard. */
  lemma IntendedDeliveryKeepsAgreement(a: ControlState, b: ControlState, envA: Env, envB: Env, cmd: Command)
    requires Agree(a, b) && envA.hasRoom && envB.hasRoom
    requires Broadcasting(cmd)
    ensures Agree(IntendedApply(a, envA, cmd).state, IntendedDeliver(b, envB, IntendedApply(a, envA, cmd).emitted))
  {
    var r := IntendedApply(a, envA, cmd);
    var m := r.emitted[0];
    assert r.emitted == [m];
    if cmd == ToggleSidebar(CodeSidebar) && a.sidebar != CodeSidebar {
      IntendedOpenKeepsStarter(a, b, envA, envB);
    } else {
      var clear := a.(guard := false);
      DeliveryKeepsAgreement(clear, b, envA, envB, cmd);
      assert !m.kind.EditorOpen?;
      assert Agree(Apply(clear, envA, cmd).state, r.state);
    }
  }

  /**
   * With the corrected definitions two participants that agree and open the
   * editor at once end agreeing on one starter; from a closed editor it is
   * the first-sorting of their two names.
   */
  lemma IntendedSimultaneousOpenAgrees(a: ControlState, b: ControlState, envA: Env, envB: Env)
    requires Agree(a, b) && a.sidebar != CodeSidebar
    requires envA.hasRoom && envB.hasRoom
    ensures var a1 := IntendedApply(a, envA, ToggleSidebar(CodeSidebar));
            var b1 := IntendedApply(b, envB, ToggleSidebar(CodeSidebar));
            var a2 := IntendedDeliver(a1.state, envA, b1.emitted);
            var b2 := IntendedDeliver(b1.state, envB, a1.emitted);
            Agree(a2, b2) && a2.sidebar == CodeSidebar
            && (a.startedBy.None? ==> a2.startedBy == Some(FirstName(LocalName(envA), LocalName(envB))))
  {
    var nA := LocalName(envA);
    var nB := LocalName(envB);
    var a1 := IntendedApply(a, envA, ToggleSidebar(CodeSidebar));
    var b1 := IntendedApply(b, envB, ToggleSidebar(CodeSidebar));
    assert a1.emitted == [CodeEditorMessage(EditorOpen, nA, Some(false))];
    assert b1.emitted == [CodeEditorMessage(EditorOpen, nB, Some(false))];
    match a.startedBy {
      case None =>
        FirstNameSymmetric(nA, nB);
      case Some(x) =>
        FirstNameOfThree(x, nA, nB);
    }
  }

  /**
   * Applying the same message twice leaves the same view as applying it once
   * (only the guard's reset count differs).
   */
  lemma ReceiveIdempotent(s: ControlState, env: Env, p: Payload)
    ensures Agree(Receive(Receive(s, env, p), env, p), Receive(s, env, p))
  {
  }

  /** Every set guard has a reset timer scheduled. */
  predicate Resettable(s: ControlState) {
    s.guard ==> s.pendingResets > 0
  }

  /**
   * Without JSON `null` packets every set guard stays resettable, from any
   * resettable state and through any events.
   */
  lemma {:induction false} ResettableWithoutNull(s: ControlState, env: Env, evs: seq<Event>)
    requires Resettable(s)
    requires forall i :: 0 <= i < |evs| ==> evs[i] != Inbound(JsonNull)
    ensures Resettable(Run(s, env, evs).state)
    decreases |evs|
  {
    if evs != [] {
      var first := StepEvent(s, env, evs[0]);
      assert Resettable(first.state);
      ResettableWithoutNull(first.state, env, evs[1..]);
    }
  }

  function TimerBurst(n: nat): (r: seq<Event>)
    ensures |r| == n && forall i :: 0 <= i < n ==> r[i] == TimerFired
  {
    seq(n, _ => TimerFired)
  }

  /** From a resettable state, letting every scheduled timer fire clears the guard. */
  lemma {:induction false} PendingTimersClearGuard(s: ControlState, env: Env)
    requires Resettable(s)
    ensures !Run(s, env, TimerBurst(s.pendingResets)).state.guard
    decreases s.pendingResets
  {
    if s.pendingResets > 0 {
      var t := TimerFires(s);
      assert TimerBurst(s.pendingResets)[1..] == TimerBurst(t.pendingResets);
      PendingTimersClearGuard(t, env);
    }
  }

  /**
   * The JSON literal `null` as a packet sets the guard but schedules no reset:
   * from a state with no timer pending, nothing clears it and this participant's
   * commands publish nothing until another message is decoded.
   */
  lemma JsonNullStrandsGuard(s: ControlState, env: Env, evs: seq<Event>)
    requires env.hasRoom && s.pendingResets == 0
    requires forall i :: 0 <= i < |evs| ==> !evs[i].Inbound?
    ensures Run(s, env, [Inbound(JsonNull)] + evs).emitted == []
    ensures Run(s, env, [Inbound(JsonNull)] + evs).state.guard
  {
    var t := Receive(s, env, JsonNull);
    StrandedStaysSilent(t, env, evs);
    assert ([Inbound(JsonNull)] + evs)[1..] == evs;
  }

  lemma {:induction false} StrandedStaysSilent(s: ControlState, env: Env, evs: seq<Event>)
    requires s.guard && s.pendingResets == 0
    requires forall i :: 0 <= i < |evs| ==> !evs[i].Inbound?
    ensures Run(s, env, evs).emitted == [] && Run(s, env, evs).state.guard
    ensures Run(s, env, evs).state.pendingResets == 0
    decreases |evs|
  {
    if evs != [] {
      var first := StepEvent(s, env, evs[0]);
      assert first.emitted == [] && first.state.guard && first.state.pendingResets == 0;
      StrandedStaysSilent(first.state, env, evs[1..]);
    }
  }

  /** The control-plane part of the room component, updated in place. */
  class RoomController {
    var sidebar: Sidebar
    var fullScreen: bool
    var startedBy: Option<string>
    var guard: bool
    var pendingResets: nat
    /** Every message published on the data channel so far, in order. */
    var outbox: seq<CodeEditorMessage>
    const env: Env

    function State(): ControlState
      reads this
    {
      ControlState(sidebar, fullScreen, startedBy, guard, pendingResets)
    }

    constructor (env: Env)
      ensures State() == Initial && outbox == [] && this.env == env
    {
      sidebar := NoSidebar;
      fullScreen := false;
      startedBy := None;
      guard := false;
      pendingResets := 0;
      outbox := [];
      this.env := env;
    }

    /** `broadcastCodeEditorState`: publish `m` unless there is no room or the guard is set. */
    method BroadcastCodeEditorState(m: CodeEditorMessage)
      modifies this`outbox
      ensures outbox == old(outbox) + Broadcast(State(), env, m)
    {
      if !env.hasRoom || guard {
        return;
      }
      outbox := outbox + [m];
    }

    /** `handleDataReceived`. */
    method HandleDataReceived(p: Payload)
      modifies this
      ensures State() == Receive(old(State()), env, p)
      ensures outbox == old(outbox)
    {
      if !env.hasRoom {
        return;
      }
      match p {
        case Undecodable =>
        case JsonNull =>
          guard := true;
        case Decoded(m) =>
          guard := true;
          match m.kind {
            case EditorOpen =>
              startedBy := Some(m.participantName);
              sidebar := CodeSidebar;
              fullScreen := m.isFullScreen.GetOr(false);
            case EditorClose =>
              sidebar := NoSidebar;
              startedBy := None;
            case EditorFullScreen =>
              fullScreen := m.isFullScreen.GetOr(false);
            case OtherKind(_) =>
          }
          pendingResets := pendingResets + 1;
      }
    }

    /** One scheduled 100 ms reset firing. */
    method ResetTimerFires()
      modifies this
      ensures State() == TimerFires(old(State()))
      ensures outbox == old(outbox)
    {
      if pendingResets > 0 {
        guard := false;
        pendingResets := pendingResets - 1;
      }
    }

    /** `toggleSidebar(target)`. */
    method ToggleSidebar(target: ToggleTarget)
      modifies this
      ensures State() == ToggleSidebarStep(old(State()), env, target).state
      ensures outbox == old(outbox) + ToggleSidebarStep(old(State()), env, target).emitted
    {
      if target == CodeSidebar {
        if sidebar != CodeSidebar {
          fullScreen := false;
          startedBy := Some(LocalName(env));
          sidebar := CodeSidebar;
          BroadcastCodeEditorState(CodeEditorMessage(EditorOpen, LocalName(env), Some(false)));
        } else {
          sidebar := NoSidebar;
          startedBy := None;
          BroadcastCodeEditorState(CodeEditorMessage(EditorClose, LocalName(env), None));
        }
      } else {
        sidebar := if sidebar == target then NoSidebar else target;
      }
    }

    /** `toggleCodeEditorFullScreen`. */
    method ToggleCodeEditorFullScreen()
      modifies this
      ensures State() == ToggleFullScreenStep(old(State()), env).state
      ensures outbox == old(outbox) + ToggleFullScreenStep(old(State()), env).emitted
    {
      var newFullScreen := !fullScreen;
      fullScreen := newFullScreen;
      BroadcastCodeEditorState(CodeEditorMessage(EditorFullScreen, LocalName(env), Some(newFullScreen)));
    }

    /** `closeCodeEditor`. */
    method CloseCodeEditor()
      modifies this
      ensures State() == CloseEditorStep(old(State()), env).state
      ensures outbox == old(outbox) + CloseEditorStep(old(State()), env).emitted
    {
      sidebar := NoSidebar;
      startedBy := None;
      BroadcastCodeEditorState(CodeEditorMessage(EditorClose, LocalName(env), None));
    }

    /** The close button of the chat, participants or assistant panel. */
    method DismissSidebar()
      requires HasCloseButton(State())
      modifies this
      ensures State() == DismissStep(old(State())).state
      ensures outbox == old(outbox)
    {
      sidebar := NoSidebar;
    }
  }
}
