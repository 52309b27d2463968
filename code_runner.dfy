/**
 * The code-runner terminal: the language table, the log lines a run appends
 * for each kind of execution result, clearing the log, where the code comes
 * from, and the colour a log line is drawn in. The HTTP request is not
 * modelled; its result arrives as an `ExecOutcome` value.
 */
module CodeRunner {
  import opened Wrappers
  import opened JsString
  import opened CollabEditor

  /** One row of the language picker. */
  datatype LanguageOption = LanguageOption(id: Language, name: string, extension: string, icon: string)

  const Languages: seq<LanguageOption> := [
    LanguageOption(JavaScript, "JavaScript", "js", "🟨"),
    LanguageOption(Python, "Python", "py", "🐍"),
    LanguageOption(Cpp, "C++", "cpp", "⚡"),
    LanguageOption(Java, "Java", "java", "☕")
  ]

  /** `languages.find(l => l.id === id)`: the first row with that id, if any. */
  function FindLanguage(table: seq<LanguageOption>, id: Language): (r: Option<LanguageOption>)
    ensures r.None? <==> forall i :: 0 <= i < |table| ==> table[i].id != id
    ensures r.Some? ==> r.value in table && r.value.id == id
    decreases |table|
  {
    if table == [] then None
    else if table[0].id == id then Some(table[0])
    else FindLanguage(table[1..], id)
  }

  /** The row found is the first one with the id: every earlier row has another id. */
  lemma {:induction false} FindLanguageFirst(table: seq<LanguageOption>, id: Language)
    requires FindLanguage(table, id).Some?
    ensures exists k :: 0 <= k < |table| && table[k] == FindLanguage(table, id).value
                        && forall j :: 0 <= j < k ==> table[j].id != id
    decreases |table|
  {
    if table[0].id != id {
      var rest := table[1..];
      FindLanguageFirst(rest, id);
      var k :| 0 <= k < |rest| && rest[k] == FindLanguage(rest, id).value
               && forall j :: 0 <= j < k ==> rest[j].id != id;
      assert table[k + 1] == rest[k];
      forall j | 0 <= j < k + 1
        ensures table[j].id != id
      {
        if j > 0 {
          assert table[j] == rest[j - 1];
        }
      }
    } else {
      assert table[0] == FindLanguage(table, id).value;
    }
  }

  /** The table's ids are pairwise distinct and cover every language, so the lookup never fails. */
  lemma LanguageTableComplete(lang: Language)
    ensures forall i, j :: 0 <= i < j < |Languages| ==> Languages[i].id != Languages[j].id
    ensures FindLanguage(Languages, lang).Some?
  {
    match lang
    case JavaScript => assert Languages[0].id == lang;
    case Python => assert Languages[1].id == lang;
    case Cpp => assert Languages[2].id == lang;
    case Java => assert Languages[3].id == lang;
  }

  /** The display name of the selected language (the table lookup, which always succeeds). */
  function LanguageName(lang: Language): (r: string)
    ensures exists i :: 0 <= i < |Languages| && Languages[i].id == lang && Languages[i].name == r
  {
    LanguageTableComplete(lang);
    FindLanguage(Languages, lang).value.name
  }

  /** The markers log lines start with; the terminal colours a line by its marker. */
  const CrossMark: string := "❌"
  const CheckMark: string := "✅"
  const PlayMark: string := "▶️"
  const WarningSign: string := "⚠️"
  const Bulb: string := "💡"
  const Desktop: string := "🖥️"

  const ReadyLine: string := Desktop + " Terminal ready. Click 'Run' to execute your code."
  const ClearedLine: string := Desktop + " Terminal cleared."
  const NoCodeLine: string := WarningSign + " No code to run."
  const HintLine: string := Bulb + " Make sure the Python server is running and accessible."
  /** `"─".repeat(40)`. */
  const Separator: string := "────────────────────────────────────────"

  /** The banner: the play mark, then the selected language's display name at a fixed offset. */
  function RunningLine(lang: Language): (r: string)
    ensures |r| == |PlayMark| + 9 + |LanguageName(lang)| + 8
    ensures r[..|PlayMark|] == PlayMark
    ensures r[|PlayMark| + 9..|PlayMark| + 9 + |LanguageName(lang)|] == LanguageName(lang)
  {
    var name := LanguageName(lang);
    var r := PlayMark + " Running " + name + " code...";
    assert r == PlayMark + (" Running " + name + " code...");
    assert r == (PlayMark + " Running ") + name + " code...";
    r
  }

  /** The record the execution server answers with; "" stands for a missing or empty field. */
  datatype ExecResponse = ExecResponse(success: bool, output: string, error: string, executionTime: string)

  /** How the request ended: an answer, or an exception (its text) from the transport or the JSON decoding. */
  datatype ExecOutcome = Answered(response: ExecResponse) | TransportFailure(description: string)

  /** The completion line: the reported time when there is one, "N/A" otherwise. */
  function CompletedLine(executionTime: string): (r: string)
    ensures |r| > |CheckMark| && r[..|CheckMark|] == CheckMark
    ensures executionTime == "" ==> r == CheckMark + " Execution completed (N/A)"
    ensures executionTime != "" ==>
      |r| == |CheckMark| + 22 + |executionTime| + 1
      && r[|CheckMark| + 22..|CheckMark| + 22 + |executionTime|] == executionTime
  {
    var shown := if executionTime != "" then executionTime else "N/A";
    var r := CheckMark + " Execution completed (" + shown + ")";
    assert r == CheckMark + (" Execution completed (" + shown + ")");
    assert r == (CheckMark + " Execution completed (") + shown + ")";
    r
  }

  /** The lines a finished run appends after its "Running" banner. */
  function OutcomeLines(o: ExecOutcome): (r: seq<string>)
    ensures o.Answered? && o.response.success ==>
      2 <= |r| <= 4
      && r[|r| - 2] == Separator
      && r[|r| - 1] == CompletedLine(o.response.executionTime)
      && |r| == 2 + (if o.response.output != "" then 1 else 0) + (if o.response.error != "" then 1 else 0)
      && (o.response.output != "" ==> r[0] == o.response.output)
      && (o.response.error != "" ==> r[|r| - 3] == CrossMark + " Error:\n" + o.response.error)
    ensures o.Answered? && !o.response.success ==>
      r == [CrossMark + " Execution failed: " + (if o.response.error != "" then o.response.error else "Unknown error")]
    ensures o.TransportFailure? ==>
      r == [CrossMark + " Failed to connect to code execution server: " + o.description, HintLine]
  {
    match o
    case Answered(resp) =>
      if resp.success then
        (if resp.output != "" then [resp.output] else [])
        + (if resp.error != "" then [CrossMark + " Error:\n" + resp.error] else [])
        + [Separator, CompletedLine(resp.executionTime)]
      else
        [CrossMark + " Execution failed: " + (if resp.error != "" then resp.error else "Unknown error")]
    case TransportFailure(d) =>
      [CrossMark + " Failed to connect to code execution server: " + d, HintLine]
  }

  datatype Colour = Red | Emerald | Blue | Amber | Purple | Gray

  predicate StartsWith(line: string, prefix: string) {
    |prefix| <= |line| && line[..|prefix|] == prefix
  }

  /** The terminal's colour rule: the first matching prefix wins, gray when none matches. */
  function LineColour(line: string): (c: Colour)
    ensures c == Gray <==>
      !StartsWith(line, CrossMark) && !StartsWith(line, CheckMark) && !StartsWith(line, PlayMark)
      && !StartsWith(line, WarningSign) && !StartsWith(line, Bulb)
    ensures StartsWith(line, CrossMark) ==> c == Red
    ensures c == Emerald <==> !StartsWith(line, CrossMark) && StartsWith(line, CheckMark)
    ensures c == Blue <==>
      !StartsWith(line, CrossMark) && !StartsWith(line, CheckMark) && StartsWith(line, PlayMark)
    ensures c == Amber <==>
      !StartsWith(line, CrossMark) && !StartsWith(line, CheckMark) && !StartsWith(line, PlayMark)
      && StartsWith(line, WarningSign)
    ensures c == Purple <==>
      !StartsWith(line, CrossMark) && !StartsWith(line, CheckMark) && !StartsWith(line, PlayMark)
      && !StartsWith(line, WarningSign) && StartsWith(line, Bulb)
  {
    if StartsWith(line, CrossMark) then Red
    else if StartsWith(line, CheckMark) then Emerald
    else if StartsWith(line, PlayMark) then Blue
    else if StartsWith(line, WarningSign) then Amber
    else if StartsWith(line, Bulb) then Purple
    else Gray
  }

  lemma PrefixOfConcat(p: string, s: string)
    ensures StartsWith(p + s, p)
  {
    assert (p + s)[..|p|] == p;
  }

  /** A line whose first character differs from the prefix's does not start with it. */
  lemma HeadMismatch(line: string, prefix: string)
    requires |line| >= 1 && |prefix| >= 1 && line[0] != prefix[0]
    ensures !StartsWith(line, prefix)
  {
  }

  /** Any line that starts with the play mark is drawn blue. */
  lemma PlayLineIsBlue(rest: string)
    ensures LineColour(PlayMark + rest) == Blue
  {
    var line := PlayMark + rest;
    PrefixOfConcat(PlayMark, rest);
    assert line[0] == '▶';
    HeadMismatch(line, CrossMark);
    HeadMismatch(line, CheckMark);
  }

  /** The banner of a run is drawn blue. */
  lemma BannerIsBlue(lang: Language)
    ensures LineColour(RunningLine(lang)) == Blue
  {
    var rest := " Running " + LanguageName(lang) + " code...";
    assert RunningLine(lang) == PlayMark + rest;
    PlayLineIsBlue(rest);
  }

  /** The completion line is drawn green, whatever the reported time. */
  lemma CompletionIsGreen(executionTime: string)
    ensures LineColour(CompletedLine(executionTime)) == Emerald
  {
    var t := if executionTime != "" then executionTime else "N/A";
    var rest := " Execution completed (" + t + ")";
    var line := CompletedLine(executionTime);
    assert line == CheckMark + rest;
    PrefixOfConcat(CheckMark, rest);
    assert line[0] == '✅';
    HeadMismatch(line, CrossMark);
  }

  /** A successful run's error report is drawn red. */
  lemma ErrorReportIsRed(error: string)
    ensures LineColour(CrossMark + " Error:\n" + error) == Red
  {
    assert CrossMark + " Error:\n" + error == CrossMark + (" Error:\n" + error);
    PrefixOfConcat(CrossMark, " Error:\n" + error);
  }

  /** A failed run's one line is drawn red. */
  lemma FailedRunIsRed(resp: ExecResponse)
    requires !resp.success
    ensures LineColour(OutcomeLines(Answered(resp))[0]) == Red
  {
    var e := if resp.error != "" then resp.error else "Unknown error";
    assert OutcomeLines(Answered(resp))[0] == CrossMark + (" Execution failed: " + e);
    PrefixOfConcat(CrossMark, " Execution failed: " + e);
  }

  /** A transport failure logs a red report followed by the purple hint. */
  lemma TransportFailureColoured(d: string)
    ensures LineColour(OutcomeLines(TransportFailure(d))[0]) == Red
    ensures LineColour(OutcomeLines(TransportFailure(d))[1]) == Purple
  {
    assert OutcomeLines(TransportFailure(d))[0]
        == CrossMark + (" Failed to connect to code execution server: " + d);
    PrefixOfConcat(CrossMark, " Failed to connect to code execution server: " + d);
    HintIsPurple();
  }

  /** The connection hint is drawn purple. */
  lemma HintIsPurple()
    ensures LineColour(HintLine) == Purple
  {
    PrefixOfConcat(Bulb, " Make sure the Python server is running and accessible.");
    assert HintLine[0] == '💡';
    HeadMismatch(HintLine, CrossMark);
    HeadMismatch(HintLine, CheckMark);
    HeadMismatch(HintLine, PlayMark);
    HeadMismatch(HintLine, WarningSign);
  }

  /** The empty-code warning is amber; the separator and the blank spacer are gray. */
  lemma FixedLinesColoured()
    ensures LineColour(NoCodeLine) == Amber
    ensures LineColour(Separator) == Gray && LineColour("") == Gray
  {
    PrefixOfConcat(WarningSign, " No code to run.");
    assert NoCodeLine[0] == '⚠';
    HeadMismatch(NoCodeLine, CrossMark);
    HeadMismatch(NoCodeLine, CheckMark);
    HeadMismatch(NoCodeLine, PlayMark);
    assert Separator[0] == '─';
    HeadMismatch(Separator, CrossMark);
    HeadMismatch(Separator, CheckMark);
    HeadMismatch(Separator, PlayMark);
    HeadMismatch(Separator, WarningSign);
    HeadMismatch(Separator, Bulb);
  }

  /** The code-runner panel: selected language, run flag, terminal log, last edited code. */
  class RunnerPanel {
    var selected: Language
    var isRunning: bool
    var terminal: seq<string>
    /** The last text passed to the editor's change callback. */
    var codeRef: string

    constructor ()
      ensures selected == JavaScript && !isRunning && terminal == [ReadyLine] && codeRef == ""
    {
      selected := JavaScript;
      isRunning := false;
      terminal := [ReadyLine];
      codeRef := "";
    }

    /** `handleCodeChange`. */
    method HandleCodeChange(code: string)
      modifies this`codeRef
      ensures codeRef == code
    {
      codeRef := code;
    }

    /** Picking a row of the language menu. */
    method SelectLanguage(lang: Language)
      modifies this`selected
      ensures selected == lang
    {
      selected := lang;
    }

    /** `getCode`: the editor's own text when it offers one, otherwise the last edited code. */
    method GetCode(editorCode: Option<string>) returns (code: string)
      ensures editorCode.Some? ==> code == editorCode.value
      ensures editorCode.None? ==> code == codeRef
    {
      if editorCode.Some? {
        code := editorCode.value;
      } else {
        code := codeRef;
      }
    }

    /**
     * The part of `runCode` before the request: blank code only logs a warning;
     * otherwise the run flag is raised and a spacer, the banner and a separator are logged.
     */
    method BeginRun(editorCode: Option<string>) returns (started: bool, code: string)
      modifies this`isRunning, this`terminal
      ensures code == (if editorCode.Some? then editorCode.value else codeRef)
      ensures started <==> !Blank(code)
      ensures !started ==> terminal == old(terminal) + [NoCodeLine] && isRunning == old(isRunning)
      ensures started ==> terminal == old(terminal) + ["", RunningLine(selected), Separator] && isRunning
    {
      code := GetCode(editorCode);
      if TrimsToEmpty(code) {
        terminal := terminal + [NoCodeLine];
        return false, code;
      }
      var banner := RunningLine(selected);
      isRunning := true;
      terminal := terminal + ["", banner, Separator];
      started := true;
    }

    /** The part of `runCode` after the request: log the outcome and lower the run flag. */
    method CompleteRun(outcome: ExecOutcome)
      modifies this`isRunning, this`terminal
      ensures terminal == old(terminal) + OutcomeLines(outcome)
      ensures !isRunning
    {
      match outcome {
        case Answered(resp) =>
          if resp.success {
            if resp.output != "" {
              terminal := terminal + [resp.output];
            }
            if resp.error != "" {
              terminal := terminal + [CrossMark + " Error:\n" + resp.error];
            }
            terminal := terminal + [Separator, CompletedLine(resp.executionTime)];
          } else {
            terminal := terminal + [CrossMark + " Execution failed: " + (if resp.error != "" then resp.error else "Unknown error")];
          }
        case TransportFailure(d) =>
          terminal := terminal + [CrossMark + " Failed to connect to code execution server: " + d, HintLine];
      }
      isRunning := false;
    }

    /** `runCode`, with the request's outcome as an input. */
    method RunCode(editorCode: Option<string>, outcome: ExecOutcome)
      modifies this`isRunning, this`terminal
      ensures Blank(if editorCode.Some? then editorCode.value else codeRef) ==>
        terminal == old(terminal) + [NoCodeLine] && isRunning == old(isRunning)
      ensures !Blank(if editorCode.Some? then editorCode.value else codeRef) ==>
        terminal == old(terminal) + ["", RunningLine(selected), Separator] + OutcomeLines(outcome)
        && !isRunning
    {
      var started, _ := BeginRun(editorCode);
      if started {
        CompleteRun(outcome);
      }
    }

    /** `clearTerminal`. */
    method ClearTerminal()
      modifies this`terminal
      ensures terminal == [ClearedLine]
    {
      terminal := [ClearedLine];
    }
  }
}
