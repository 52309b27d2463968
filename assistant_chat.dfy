/**
 * The assistant panel: the reducer over what the assistant's socket delivers
 * (replies, transcriptions, detected questions, typing and status updates,
 * errors, a clear), sending typed text, the Enter-key rule, and the
 * meeting-listening flag. Message ids come from the clock and are taken as a
 * `stamp` parameter; the socket's readiness is a parameter of each sender.
 */
module AssistantChat {
  import opened Wrappers
  import opened JsString

  datatype Role = User | Assistant | Meeting

  /** One chat entry; `stamp` is the clock reading its id is made from. */
  datatype Message = Message(stamp: nat, role: Role, content: string, isTranscription: bool, speaker: Option<string>)

  /** A parsed server message, by its `type` tag. */
  datatype ServerEvent =
    | Reply(role: Role, content: string)
    | Transcription(content: string)
    | MeetingTranscription(content: string, speaker: Option<string>)
    | QuestionDetected(question: string)
    | Typing(typing: bool)
    | Status(status: string)
    | ServerError(content: string)
    | Cleared
    | UnknownType(tag: string)

  /** What arrives on the socket: something that does not parse, or a server message. */
  datatype Inbound = Unparseable | Parsed(event: ServerEvent)

  /** What the panel sends on the socket. */
  datatype ClientMessage = Text(content: string) | StartListening | StopListening

  /** The state the socket handler acts on. */
  datatype ChatState = ChatState(messages: seq<Message>, isTyping: bool, isProcessing: bool)

  const QuestionPrefix: string := "❓ "
  const ErrorPrefix: string := "⚠️ "
  const ListeningNotice: string := "🎧 Now listening to the meeting. I'll detect questions and provide answers automatically!"

  /** `data.speaker || "Participant"`. */
  function SpeakerOrDefault(speaker: Option<string>): (r: string)
    ensures r != ""
    ensures speaker.Some? && speaker.value != "" ==> r == speaker.value
    ensures speaker.None? || speaker.value == "" ==> r == "Participant"
  {
    match speaker
    case Some(s) => if s != "" then s else "Participant"
    case None => "Participant"
  }

  /** The entry a server message adds to the list, if any. */
  function Appended(e: ServerEvent, stamp: nat): (r: seq<Message>)
    ensures |r| <= 1
    ensures r != [] <==> e.Reply? || e.Transcription? || e.MeetingTranscription? || e.QuestionDetected? || e.ServerError?
    ensures r != [] ==> r[0].stamp == stamp
    ensures e.Reply? ==> r == [Message(stamp, e.role, e.content, false, None)]
    ensures e.Transcription? ==> r == [Message(stamp, User, e.content, true, None)]
    ensures e.MeetingTranscription? ==>
      r == [Message(stamp, Meeting, e.content, true, Some(SpeakerOrDefault(e.speaker)))]
    ensures e.QuestionDetected? ==>
      r == [Message(stamp, Meeting, QuestionPrefix + e.question, true, Some("Question Detected"))]
    ensures e.ServerError? ==> r == [Message(stamp, Assistant, ErrorPrefix + e.content, false, None)]
  {
    match e
    case Reply(role, content) => [Message(stamp, role, content, false, None)]
    case Transcription(content) => [Message(stamp, User, content, true, None)]
    case MeetingTranscription(content, speaker) =>
      [Message(stamp, Meeting, content, true, Some(SpeakerOrDefault(speaker)))]
    case QuestionDetected(q) => [Message(stamp, Meeting, QuestionPrefix + q, true, Some("Question Detected"))]
    case ServerError(content) => [Message(stamp, Assistant, ErrorPrefix + content, false, None)]
    case _ => []
  }

  /**
   * `ws.onmessage`. A reply or an error adds its entry and ends both the typing
   * and the processing indicators; `cleared` empties the list; `typing` sets the
   * typing indicator; the status "transcribing" starts processing and any other
   * status changes nothing; an unknown tag or an unparseable frame changes nothing.
   */
  function OnServerMessage(s: ChatState, input: Inbound, stamp: nat): (t: ChatState)
    ensures input.Unparseable? ==> t == s
    ensures input.Parsed? && !input.event.Cleared? ==>
      t.messages == s.messages + Appended(input.event, stamp)
    ensures input.Parsed? && input.event.Cleared? ==> t == s.(messages := [])
    ensures input.Parsed? && (input.event.Reply? || input.event.ServerError?) ==>
      !t.isTyping && !t.isProcessing
    ensures input.Parsed? && input.event.Typing? ==>
      t.isTyping == input.event.typing && t.isProcessing == s.isProcessing
    ensures input.Parsed? && input.event.Status? ==>
      t.isTyping == s.isTyping && t.isProcessing == (s.isProcessing || input.event.status == "transcribing")
    ensures input.Parsed? && (input.event.Transcription? || input.event.MeetingTranscription?
                              || input.event.QuestionDetected? || input.event.UnknownType?) ==>
      t.isTyping == s.isTyping && t.isProcessing == s.isProcessing
    ensures input.Parsed? && input.event.UnknownType? ==> t == s
  {
    match input
    case Unparseable => s
    case Parsed(e) =>
      match e
      case Reply(_, _) => ChatState(s.messages + Appended(e, stamp), false, false)
      case ServerError(_) => ChatState(s.messages + Appended(e, stamp), false, false)
      case Typing(b) => s.(isTyping := b)
      case Status(st) => if st == "transcribing" then s.(isProcessing := true) else s
      case Cleared => s.(messages := [])
      case _ => s.(messages := s.messages + Appended(e, stamp))
  }

  /** A frame together with the clock reading when it was handled. */
  datatype Timed = Timed(input: Inbound, stamp: nat)

  function HandleAll(s: ChatState, frames: seq<Timed>): ChatState
    decreases |frames|
  {
    if frames == [] then s
    else HandleAll(OnServerMessage(s, frames[0].input, frames[0].stamp), frames[1..])
  }

  /** The entries a run of frames adds, in order, ignoring clears. */
  function AllAppended(frames: seq<Timed>): seq<Message>
    decreases |frames|
  {
    if frames == [] then []
    else
      (if frames[0].input.Parsed? then Appended(frames[0].input.event, frames[0].stamp) else [])
      + AllAppended(frames[1..])
  }

  predicate IsClear(f: Timed) {
    f.input.Parsed? && f.input.event.Cleared?
  }

  /** Without a clear, the list only grows: each frame's entry is appended in arrival order. */
  lemma {:induction false} HistoryIsAppendOnly(s: ChatState, frames: seq<Timed>)
    requires forall i :: 0 <= i < |frames| ==> !IsClear(frames[i])
    ensures HandleAll(s, frames).messages == s.messages + AllAppended(frames)
    decreases |frames|
  {
    if frames != [] {
      var t := OnServerMessage(s, frames[0].input, frames[0].stamp);
      var added := if frames[0].input.Parsed? then Appended(frames[0].input.event, frames[0].stamp) else [];
      assert t.messages == s.messages + added by {
        assert !IsClear(frames[0]);
      }
      HistoryIsAppendOnly(t, frames[1..]);
      assert AllAppended(frames) == added + AllAppended(frames[1..]);
      assert s.messages + added + AllAppended(frames[1..]) == s.messages + (added + AllAppended(frames[1..]));
    }
  }

  /** After a clear, the list holds exactly what arrived since, whatever came before. */
  lemma ClearForgetsHistory(s: ChatState, before: seq<Timed>, clear: Timed, after: seq<Timed>)
    requires IsClear(clear)
    requires forall i :: 0 <= i < |after| ==> !IsClear(after[i])
    ensures HandleAll(s, before + [clear] + after).messages == AllAppended(after)
  {
    var mid := HandleAll(s, before);
    HandleAllSplit(s, before, [clear] + after);
    assert before + [clear] + after == before + ([clear] + after);
    var cleared := OnServerMessage(mid, clear.input, clear.stamp);
    assert ([clear] + after)[1..] == after;
    HistoryIsAppendOnly(cleared, after);
  }

  lemma {:induction false} HandleAllSplit(s: ChatState, a: seq<Timed>, b: seq<Timed>)
    ensures HandleAll(s, a + b) == HandleAll(HandleAll(s, a), b)
    decreases |a|
  {
    if a == [] {
      assert a + b == b;
    } else {
      assert (a + b)[1..] == a[1..] + b;
      HandleAllSplit(OnServerMessage(s, a[0].input, a[0].stamp), a[1..], b);
    }
  }

  /** The assistant panel, updated in place. */
  class ChatPanel {
    var messages: seq<Message>
    var inputText: string
    var isTyping: bool
    var isProcessing: bool
    var isListening: bool
    /** Everything sent on the socket so far, in order. */
    var sent: seq<ClientMessage>

    function State(): ChatState
      reads this
    {
      ChatState(messages, isTyping, isProcessing)
    }

    constructor ()
      ensures messages == [] && inputText == "" && sent == []
      ensures !isTyping && !isProcessing && !isListening
    {
      messages := [];
      inputText := "";
      isTyping := false;
      isProcessing := false;
      isListening := false;
      sent := [];
    }

    /** `ws.onmessage`. */
    method OnMessage(input: Inbound, stamp: nat)
      modifies this
      ensures State() == OnServerMessage(old(State()), input, stamp)
      ensures inputText == old(inputText) && isListening == old(isListening) && sent == old(sent)
    {
      match input {
        case Unparseable =>
        case Parsed(e) =>
          match e {
            case Reply(role, content) =>
              messages := messages + [Message(stamp, role, content, false, None)];
            case Transcription(content) =>
              messages := messages + [Message(stamp, User, content, true, None)];
            case MeetingTranscription(content, speaker) =>
              messages := messages + [Message(stamp, Meeting, content, true, Some(SpeakerOrDefault(speaker)))];
            case QuestionDetected(q) =>
              messages := messages + [Message(stamp, Meeting, QuestionPrefix + q, true, Some("Question Detected"))];
            case Typing(b) =>
              isTyping := b;
            case Status(st) =>
              if st == "transcribing" {
                isProcessing := true;
              }
            case ServerError(content) =>
              messages := messages + [Message(stamp, Assistant, ErrorPrefix + content, false, None)];
              isProcessing := false;
            case Cleared =>
              messages := [];
            case UnknownType(_) =>
          }
          if e.Reply? || e.ServerError? {
            isTyping := false;
            isProcessing := false;
          }
      }
    }

    /** The input box's change handler. */
    method SetInput(text: string)
      modifies this`inputText
      ensures inputText == text
    {
      inputText := text;
    }

    /**
     * `sendMessage`: with a non-blank input and an open socket, add the input,
     * untrimmed, as a user entry, send it, and empty the box; otherwise nothing.
     */
    method SendMessage(socketOpen: bool, stamp: nat)
      modifies this`messages, this`sent, this`inputText
      ensures Blank(old(inputText)) || !socketOpen ==>
        messages == old(messages) && sent == old(sent) && inputText == old(inputText)
      ensures !Blank(old(inputText)) && socketOpen ==>
        messages == old(messages) + [Message(stamp, User, old(inputText), false, None)]
        && sent == old(sent) + [Text(old(inputText))]
        && inputText == ""
    {
      if TrimsToEmpty(inputText) || !socketOpen {
        return;
      }
      messages := messages + [Message(stamp, User, inputText, false, None)];
      sent := sent + [Text(inputText)];
      inputText := "";
    }

    /** `handleKeyPress`: Enter without Shift sends; every other key does nothing. */
    method KeyPress(key: string, shift: bool, socketOpen: bool, stamp: nat)
      modifies this`messages, this`sent, this`inputText
      ensures key != "Enter" || shift ==>
        messages == old(messages) && sent == old(sent) && inputText == old(inputText)
      ensures key == "Enter" && !shift && !Blank(old(inputText)) && socketOpen ==>
        messages == old(messages) + [Message(stamp, User, old(inputText), false, None)]
        && sent == old(sent) + [Text(old(inputText))]
        && inputText == ""
      ensures key == "Enter" && !shift && (Blank(old(inputText)) || !socketOpen) ==>
        messages == old(messages) && sent == old(sent) && inputText == old(inputText)
    {
      if key == "Enter" && !shift {
        SendMessage(socketOpen, stamp);
      }
    }

    /** `startMeetingListening`: listening on, the server told when the socket is open, one notice added. */
    method StartMeetingListening(socketOpen: bool, stamp: nat)
      modifies this`isListening, this`sent, this`messages
      ensures isListening
      ensures sent == old(sent) + (if socketOpen then [StartListening] else [])
      ensures messages == old(messages) + [Message(stamp, Assistant, ListeningNotice, false, None)]
    {
      isListening := true;
      if socketOpen {
        sent := sent + [StartListening];
      }
      messages := messages + [Message(stamp, Assistant, ListeningNotice, false, None)];
    }

    /** `cleanupMeetingListening`: listening off (stopping the recorder is not modelled). */
    method CleanupMeetingListening()
      modifies this`isListening
      ensures !isListening
    {
      isListening := false;
    }

    /** `stopMeetingListening`: clean up, then tell the server when the socket is open. */
    method StopMeetingListening(socketOpen: bool)
      modifies this`isListening, this`sent
      ensures !isListening
      ensures sent == old(sent) + (if socketOpen then [StopListening] else [])
    {
      CleanupMeetingListening();
      if socketOpen {
        sent := sent + [StopListening];
      }
    }

    /** `toggleMeetingListening`. */
    method ToggleMeetingListening(socketOpen: bool, stamp: nat)
      modifies this`isListening, this`sent, this`messages
      ensures isListening == !old(isListening)
      ensures old(isListening) ==>
        messages == old(messages)
        && sent == old(sent) + (if socketOpen then [StopListening] else [])
      ensures !old(isListening) ==>
        messages == old(messages) + [Message(stamp, Assistant, ListeningNotice, false, None)]
        && sent == old(sent) + (if socketOpen then [StartListening] else [])
    {
      if isListening {
        StopMeetingListening(socketOpen);
      } else {
        StartMeetingListening(socketOpen, stamp);
      }
    }
  }
}
