# Meeting-room client: control plane, collaborative editor, assistant, code runner, landing form

This project is a Dafny model of the client-side logic of a video-meeting web app. In the app, participants share a room. They can open a collaborative code editor that every participant sees, talk to an AI assistant panel, run code in a terminal panel, and create or join rooms from a landing page. The model covers the behaviour that decides state, not the rendering:

- **Room control plane** (`room_control.dfy`, module `RoomControl`)
  - Which sidebar is open, whether the code editor is full screen, and who started it.
  - These are kept in step between participants by `code_editor_open`, `code_editor_close` and `code_editor_fullscreen` data messages. The model proves they stay in step while one participant acts at a time with its guard clear, and shows two ways they drift apart (see "## Findings").
  - Receiving a message never publishes anything. The re-entrancy guard set on receipt instead mutes this participant's own code-editor commands: until the 100 ms reset after a decoded packet fires, or, after a JSON `null` packet that arrives when no reset is pending, until another packet arrives, they change the local view and are not published. The 100 ms timer that clears the guard is an explicit event here.
  - The pure transition functions are the specification. `RoomController` is the component: a class whose handlers update its fields and append what they publish to an `outbox`. Each handler is proved against its transition.
- **Collaborative editor** (`collab_editor.dfy`, module `CollabEditor`)
  - The name-hash colour of a collaborator (JavaScript `<<` semantics, UTF-16 code units).
  - The connection status driven by provider `status` and `sync` events.
  - The peer list taken from awareness states.
  - The per-language starter template, and seeding an empty document with it.
  - The collaborator chips ("(You)", truncation to 10 code units plus "...", "+N more").
  - `EditorSession` is the component, with its status, peer list and document text as fields.
- **AI assistant panel** (`assistant_chat.dfy`, module `AssistantChat`)
  - The reducer over socket frames: replies, transcriptions, meeting transcriptions, detected questions, typing, status, errors and clears.
  - Sending typed text and the Enter-key rule.
  - The meeting-listening flag and its socket notifications.
  - `ChatPanel` is the component. `sent` records what went out on the socket.
- **Code runner** (`code_runner.dfy`, module `CodeRunner`)
  - The language table and its lookup.
  - The terminal lines a run appends for blank code, a successful result, a failed result or a transport exception.
  - Clearing the terminal.
  - Where the code to run comes from.
  - The colour each terminal line is drawn in.
- **Landing form** (`landing.dfy`, module `Landing`)
  - The create and join handlers: the name is checked before the meeting code.
  - The route they navigate to.
  - When the Join button is enabled.

Shared helpers:

- `js_string.dfy` (module `JsString`) spells out the JavaScript semantics the model depends on:
  - UTF-16 encoding, for `length` and `charCodeAt`;
  - the white-space set of `String.prototype.trim`, so `!s.trim()` is exactly "every character is white space";
  - the decimal rendering of a count.
- `wrappers.dfy` holds an `Option` type.

The inputs the code gets from the outside world are parameters:

| Input | Modelled as |
|---|---|
| Clock readings (message ids) | `stamp` |
| Random room id | `roomId` |
| Socket readiness | `socketOpen` |
| Whether a LiveKit room exists, and the local identity | `Env` |
| The HTTP execution result | `ExecOutcome` |
| `encodeURIComponent` | an opaque function `encode` |
| What the replicated document holds when a view or seed timer reads it | the `text` field |

## Model

| member | source | states |
|---|---|---|
| `JsString.Utf16` | frontend/project/app/components/room/CollaborativeEditor.tsx:44-45 | A string has between one and two UTF-16 code units per character, exactly one per character when every character is in the Basic Multilingual Plane. This is the `length` and `charCodeAt` the hash and chip truncation use. |
| `JsString.TrimEmptyIffBlank` | frontend/project/app/components/room/AISidebar.tsx:337 | `s.trim()` is empty exactly when every character of `s` is ECMAScript white space or a line terminator, so `!s.trim()` means "blank". |
| `JsString.TrimsToEmpty` | frontend/project/app/components/landing/HeroSection.tsx:14 | `!s.trim()` holds exactly when `s` is blank. |
| `JsString.DecimalRoundTrip` | frontend/project/app/components/room/CollaborativeEditor.tsx:382 | Reading back the decimal rendering of a count gives the count. |
| `RoomControl.LocalName` | frontend/project/app/components/room/VideoConferenceComponent.tsx:101 | The name put in broadcasts is the local identity when it is a non-empty string, and "Someone" otherwise. |
| `RoomControl.Broadcast` | frontend/project/app/components/room/VideoConferenceComponent.tsx:47-56 | A broadcast publishes exactly the given message, once, when a room exists and the guard is clear. Otherwise it publishes nothing. |
| `RoomControl.Receive` | frontend/project/app/components/room/VideoConferenceComponent.tsx:62-86 | See the cases below. |
| `RoomControl.TimerFires` | frontend/project/app/components/room/VideoConferenceComponent.tsx:80-83 | A pending reset timer clears the guard and is consumed. With no timer pending nothing happens. The visible state never changes. |
| `RoomControl.ToggleSidebarStep` | frontend/project/app/components/room/VideoConferenceComponent.tsx:96-120 | See the cases below. |
| `RoomControl.ToggleFullScreenStep` | frontend/project/app/components/room/VideoConferenceComponent.tsx:122-130 | Only the full-screen flag flips. The broadcast carries the new value. |
| `RoomControl.CloseEditorStep` | frontend/project/app/components/room/VideoConferenceComponent.tsx:132-139 | The sidebar becomes none and the starter is cleared. A close message is broadcast. |
| `RoomControl.DismissStep` | frontend/project/app/components/room/VideoConferenceComponent.tsx:167-185 | Closing the chat, participants or assistant panel sets the sidebar to none and publishes nothing. Only those three panels render a close button, so the step requires one of them to be shown, and `Apply` ignores a dismiss elsewhere. |
| `RoomControl.VideoGridVisible` | frontend/project/app/components/room/VideoConferenceComponent.tsx:145 | The video grid is shown whenever a sidebar other than the code editor is active, and with the code editor exactly when it is not full screen. |
| `RoomControl.SidebarWidth` | frontend/project/app/components/room/VideoConferenceComponent.tsx:145-161 | The panel is full width exactly when the video grid is hidden (code editor open and full screen). It is 600 px exactly for the code editor not in full screen, and 400 px exactly for other sidebars. |
| `RoomControl.GuardSilencesCommands` | frontend/project/app/components/room/VideoConferenceComponent.tsx:44-56 | While the guard is set and no reset timer fires, no sequence of inbound packets or local commands publishes anything, and the guard stays set. |
| `RoomControl.ReceiptNeverPublishes` | frontend/project/app/components/room/VideoConferenceComponent.tsx:62-86 | Any run of inbound packets and timer firings publishes nothing, whatever the guard: receipt only sets state. |
| `RoomControl.ReceiptMutesOwnCommands` | frontend/project/app/components/room/VideoConferenceComponent.tsx:47-83 | After a decoded packet, nothing this participant does is published until a reset timer fires. |
| `RoomControl.ClosedStaysClosed` | frontend/project/app/components/room/VideoConferenceComponent.tsx:62-86 | See the note below. |
| `RoomControl.OpenFullScreenCloseEndsClosed` | frontend/project/app/components/room/VideoConferenceComponent.tsx:69-78 | The messages open, full screen and close, received in that order, leave the editor closed with no starter, whatever follows that cannot open it. |
| `RoomControl.DeliveryKeepsAgreement` | frontend/project/app/components/room/VideoConferenceComponent.tsx:62-139 | See the note below. |
| `RoomControl.GuardedCommandDiverges` | frontend/project/app/components/room/VideoConferenceComponent.tsx:47-48 | See "## Findings": a full-screen toggle or code-editor toggle issued while the guard is set publishes nothing and leaves a previously agreeing peer out of step. |
| `RoomControl.SimultaneousOpenDisagrees` | frontend/project/app/components/room/VideoConferenceComponent.tsx:69-72 | See "## Findings": two participants with different names that open the editor at once and then receive each other's open each show the other as the starter, so they disagree. |
| `RoomControl.FirstName` | frontend/project/app/components/room/VideoConferenceComponent.tsx:69-72 | The tie-break of the corrected open is one of the two names and sorts no later than either. |
| `RoomControl.FirstNameSymmetric` | frontend/project/app/components/room/VideoConferenceComponent.tsx:69-72 | Both participants compute the same tie-break, whichever order they see the names in. |
| `RoomControl.FirstNameOfThree` | frontend/project/app/components/room/VideoConferenceComponent.tsx:69-72 | Folding the tie-break over a shown starter and two openers gives the same name in either order of the openers. |
| `RoomControl.StarterAfterOpen` | frontend/project/app/components/room/VideoConferenceComponent.tsx:69-72 | Corrected starter after an open: the opener when none is shown, otherwise the tie-break of the shown starter and the opener. |
| `RoomControl.IntendedApply` | frontend/project/app/components/room/VideoConferenceComponent.tsx:47-56 | Corrected command: exactly one message published for each code-editor command whenever a room exists, whatever the guard. The new state is `Apply`'s, except that a local open shows `StarterAfterOpen` of the shown starter and the local name. |
| `RoomControl.IntendedReceive` | frontend/project/app/components/room/VideoConferenceComponent.tsx:69-72 | Corrected receipt: as `Receive`, except that a received open shows `StarterAfterOpen` of the shown starter and the sender's name, the same rule a local open uses. |
| `RoomControl.IntendedOpenKeepsStarter` | frontend/project/app/components/room/VideoConferenceComponent.tsx:62-106 | With the corrected definitions an open by one participant, received by a peer showing the same starter, leaves both showing the same starter, whatever other panel either has open and whatever the sender's guard. |
| `RoomControl.IntendedDeliveryKeepsAgreement` | frontend/project/app/components/room/VideoConferenceComponent.tsx:47-139 | With the corrected definitions a single sender keeps an agreeing peer in step whatever its guard. |
| `RoomControl.IntendedSimultaneousOpenAgrees` | frontend/project/app/components/room/VideoConferenceComponent.tsx:62-120 | With the corrected definitions two agreeing participants that open at once end agreeing, whatever starter was shown before. From no starter, it is the first-sorting of their two names. |
| `RoomControl.ReceiveIdempotent` | frontend/project/app/components/room/VideoConferenceComponent.tsx:69-78 | Receiving the same packet twice leaves the visible state as receiving it once. |
| `RoomControl.ResettableWithoutNull` | frontend/project/app/components/room/VideoConferenceComponent.tsx:62-86 | Unless a JSON `null` packet arrives, whenever the guard is set some reset timer is still pending. |
| `RoomControl.PendingTimersClearGuard` | frontend/project/app/components/room/VideoConferenceComponent.tsx:80-83 | From a state where every set guard has a pending timer, letting all pending timers fire clears the guard. |
| `RoomControl.JsonNullStrandsGuard` | frontend/project/app/components/room/VideoConferenceComponent.tsx:65-69 | See the note below. |
| `RoomControl.StrandedStaysSilent` | frontend/project/app/components/room/VideoConferenceComponent.tsx:44-56 | A set guard with no pending timer stays set, and the participant publishes nothing, until another packet arrives. |
| `RoomControl.RoomController.constructor` | frontend/project/app/components/room/VideoConferenceComponent.tsx:39-44 | Starts with no sidebar, not full screen, no starter, the guard clear and nothing published. |
| `RoomControl.RoomController.BroadcastCodeEditorState` | frontend/project/app/components/room/VideoConferenceComponent.tsx:47-56 | Appends to the outbox exactly what `Broadcast` publishes from the current state. |
| `RoomControl.RoomController.HandleDataReceived` | frontend/project/app/components/room/VideoConferenceComponent.tsx:62-86 | The fields become `Receive` of the old state and nothing is published. |
| `RoomControl.RoomController.ResetTimerFires` | frontend/project/app/components/room/VideoConferenceComponent.tsx:81-83 | The fields become `TimerFires` of the old state. |
| `RoomControl.RoomController.ToggleSidebar` | frontend/project/app/components/room/VideoConferenceComponent.tsx:96-120 | The fields and the outbox change as `ToggleSidebarStep` says. |
| `RoomControl.RoomController.ToggleCodeEditorFullScreen` | frontend/project/app/components/room/VideoConferenceComponent.tsx:122-130 | The fields and the outbox change as `ToggleFullScreenStep` says. |
| `RoomControl.RoomController.CloseCodeEditor` | frontend/project/app/components/room/VideoConferenceComponent.tsx:132-139 | The fields and the outbox change as `CloseEditorStep` says. |
| `RoomControl.RoomController.DismissSidebar` | frontend/project/app/components/room/VideoConferenceComponent.tsx:167-185 | Called only while a panel with a close button is shown. The sidebar becomes none and nothing else changes. |
| `CollabEditor.ToInt32` | frontend/project/app/components/room/CollaborativeEditor.tsx:45 | ToInt32 of `<<` (section 7.1.6 of ECMA-262): the result is a signed 32-bit value congruent to the input modulo 2^32. |
| `CollabEditor.PaletteIndex` | frontend/project/app/components/room/CollaborativeEditor.tsx:47 | `Math.abs(hash) % 10` is always a valid palette index. |
| `CollabEditor.ShiftLeft5` | frontend/project/app/components/room/CollaborativeEditor.tsx:45 | `hash << 5` is a signed 32-bit value congruent to 32 times the hash modulo 2^32. |
| `CollabEditor.NameHash` | frontend/project/app/components/room/CollaborativeEditor.tsx:42-46 | The hash of no code units is 0. Every hash is congruent modulo 2^32 to the polynomial hash with multiplier 31 (`PolyHash`), since `(hash << 5) - hash` is 31 times the hash modulo 2^32. |
| `CollabEditor.ColorForName` | frontend/project/app/components/room/CollaborativeEditor.tsx:41-49 | The loop computes the hash recurrence over the name's UTF-16 code units. The colour is always one of the ten palette entries, namely the one the hash selects. |
| `CollabEditor.EmptyNameIsRed` | frontend/project/app/components/room/CollaborativeEditor.tsx:28-47 | The empty name hashes to 0 and gets the first palette colour, "#f87171". |
| `CollabEditor.NameHashBound` | frontend/project/app/components/room/CollaborativeEditor.tsx:43-46 | The hash grows at most 2^32 per code unit. Below 2^21 code units it therefore stays within the doubles' exact-integer range, so integer arithmetic models it exactly. |
| `CollabEditor.ColorLight` | frontend/project/app/components/room/CollaborativeEditor.tsx:157-162 | The light colour is exactly the colour followed by "33". |
| `CollabEditor.StatusFromEvent` | frontend/project/app/components/room/CollaborativeEditor.tsx:167-176 | "connected" maps to connected and "disconnected" to disconnected (both directions). Every other status maps to connecting. |
| `CollabEditor.HasName` | frontend/project/app/components/room/CollaborativeEditor.tsx:192 | `userData.user?.name` is truthy exactly when there is a user and its name is present and non-empty. A missing user, a missing name or an empty name all fail. |
| `CollabEditor.NamedPeers` | frontend/project/app/components/room/CollaborativeEditor.tsx:187-199 | The peer list is no longer than the awareness states and holds only non-empty names. |
| `CollabEditor.NamedPeersMembership` | frontend/project/app/components/room/CollaborativeEditor.tsx:187-195 | A name is in the peer list exactly when some awareness state carries that user name. |
| `CollabEditor.DefaultCode` | frontend/project/app/components/room/CollaborativeEditor.tsx:66-108 | Every template is non-empty, ends in a newline and begins with its language's header comment line. |
| `CollabEditor.DefaultCodeInjective` | frontend/project/app/components/room/CollaborativeEditor.tsx:66-108 | Different languages get different templates. |
| `CollabEditor.ChipLabel` | frontend/project/app/components/room/CollaborativeEditor.tsx:377 | See the cases below. |
| `CollabEditor.VisibleChips` | frontend/project/app/components/room/CollaborativeEditor.tsx:366-379 | The first min(n, 5) peers get chips, in order, each labelled by `ChipLabel`. |
| `CollabEditor.MoreLabel` | frontend/project/app/components/room/CollaborativeEditor.tsx:380-384 | A "+N more" label appears exactly when there are more than five peers. |
| `CollabEditor.ChipsAccountForEveryPeer` | frontend/project/app/components/room/CollaborativeEditor.tsx:362-384 | Every peer is counted exactly once: either it has a chip, or it is in the number that "+N more" spells, and that number reads back as the count of hidden peers. |
| `CollabEditor.EditorSession.constructor` | frontend/project/app/components/room/CollaborativeEditor.tsx:125-290 | Status starts as connecting. The local awareness user carries the participant's name, its hash colour and that colour plus "33". The initial `updatePeers` leaves the peer list as `NamedPeers` of the local state followed by the known states, so a non-empty local name is always listed. |
| `CollabEditor.EditorSession.OnStatus` | frontend/project/app/components/room/CollaborativeEditor.tsx:167-176 | The status becomes `StatusFromEvent` of the event. |
| `CollabEditor.EditorSession.OnSync` | frontend/project/app/components/room/CollaborativeEditor.tsx:179-184 | `sync(true)` sets connected. `sync(false)` leaves the status unchanged. |
| `CollabEditor.EditorSession.UpdatePeers` | frontend/project/app/components/room/CollaborativeEditor.tsx:187-199 | The peer list becomes `NamedPeers` of the states, and the peer count becomes its length. |
| `CollabEditor.EditorSession.SeedIfEmpty` | frontend/project/app/components/room/CollaborativeEditor.tsx:208-213 | An empty document becomes the language's template. A non-empty one is left unchanged. |
| `CollabEditor.EditorSession.GetCode` | frontend/project/app/components/room/CollaborativeEditor.tsx:316-321 | Returns the document text once the view exists, and "" before. |
| `AssistantChat.SpeakerOrDefault` | frontend/project/app/components/room/AISidebar.tsx:115 | A meeting transcription's speaker is the given one when non-empty, otherwise "Participant". |
| `AssistantChat.Appended` | frontend/project/app/components/room/AISidebar.tsx:83-157 | Replies, transcriptions, meeting transcriptions, detected questions and errors each add exactly one entry, with the role, content prefix, transcription flag and speaker each kind calls for. Every other kind adds none. |
| `AssistantChat.OnServerMessage` | frontend/project/app/components/room/AISidebar.tsx:78-171 | See the cases below. |
| `AssistantChat.HistoryIsAppendOnly` | frontend/project/app/components/room/AISidebar.tsx:82-162 | Without a clear, the message list after any run of frames is the old list followed by each frame's entry, in arrival order. |
| `AssistantChat.ClearForgetsHistory` | frontend/project/app/components/room/AISidebar.tsx:159-161 | After a clear, the list holds exactly the entries of the frames since, whatever came before. |
| `AssistantChat.ChatPanel.constructor` | frontend/project/app/components/room/AISidebar.tsx:21-27 | Starts with no messages, an empty input and every flag false. |
| `AssistantChat.ChatPanel.OnMessage` | frontend/project/app/components/room/AISidebar.tsx:78-171 | The list and flags become `OnServerMessage` of the old ones. The input, the listening flag and the socket are untouched. |
| `AssistantChat.ChatPanel.SetInput` | frontend/project/app/components/room/AISidebar.tsx:601 | The input box holds the typed text. |
| `AssistantChat.ChatPanel.SendMessage` | frontend/project/app/components/room/AISidebar.tsx:336-358 | A blank input or a closed socket changes nothing. Otherwise exactly one user entry with the untrimmed input is added, that text is sent, and the input is emptied. |
| `AssistantChat.ChatPanel.KeyPress` | frontend/project/app/components/room/AISidebar.tsx:361-366 | Enter without Shift sends as `SendMessage` does. Shift+Enter and other keys change nothing. |
| `AssistantChat.ChatPanel.StartMeetingListening` | frontend/project/app/components/room/AISidebar.tsx:304-322 | Listening is on. `start_listening` is sent when the socket is open. One fixed assistant notice is added. |
| `AssistantChat.ChatPanel.CleanupMeetingListening` | frontend/project/app/components/room/AISidebar.tsx:48-59 | Listening is off. |
| `AssistantChat.ChatPanel.StopMeetingListening` | frontend/project/app/components/room/AISidebar.tsx:324-333 | Listening is off, and `stop_listening` is sent when the socket is open. |
| `AssistantChat.ChatPanel.ToggleMeetingListening` | frontend/project/app/components/room/AISidebar.tsx:296-302 | Listening flips. Turning it on adds the notice. Each direction sends its notification when the socket is open. |
| `CodeRunner.FindLanguage` | frontend/project/app/components/room/CodeEditorSidebar.tsx:154 | The lookup fails exactly when no row has the id. A row found is in the table and has the id. |
| `CodeRunner.FindLanguageFirst` | frontend/project/app/components/room/CodeEditorSidebar.tsx:95 | The row found is the first with the id: every earlier row has another id. |
| `CodeRunner.LanguageTableComplete` | frontend/project/app/components/room/CodeEditorSidebar.tsx:43-48 | The four ids are pairwise distinct and cover every supported language, so the lookup of the selected language always succeeds. |
| `CodeRunner.RunningLine` | frontend/project/app/components/room/CodeEditorSidebar.tsx:95 | The banner starts with the play mark and carries the selected language's display name right after " Running ", followed by " code...". |
| `CodeRunner.CompletedLine` | frontend/project/app/components/room/CodeEditorSidebar.tsx:124 | The completion line starts with the check mark. It carries the reported time when there is one, and "N/A" otherwise. |
| `CodeRunner.LanguageName` | frontend/project/app/components/room/CodeEditorSidebar.tsx:95 | The banner's name is the name of the table row for the selected language. |
| `CodeRunner.OutcomeLines` | frontend/project/app/components/room/CodeEditorSidebar.tsx:114-137 | See the cases below. |
| `CodeRunner.LineColour` | frontend/project/app/components/room/CodeEditorSidebar.tsx:332-342 | The first matching marker decides: red for the cross mark; otherwise emerald for the check mark; otherwise blue for the play mark; otherwise amber for the warning sign; otherwise purple for the bulb; gray exactly when none matches. Each colour is stated in both directions. |
| `CodeRunner.PlayLineIsBlue` | frontend/project/app/components/room/CodeEditorSidebar.tsx:332-337 | Every line that starts with the play mark is drawn blue, because neither earlier marker can match it. |
| `CodeRunner.BannerIsBlue` | frontend/project/app/components/room/CodeEditorSidebar.tsx:336 | The "Running" banner is drawn blue for every language. |
| `CodeRunner.CompletionIsGreen` | frontend/project/app/components/room/CodeEditorSidebar.tsx:334 | The completion line is drawn green whatever the reported time. |
| `CodeRunner.ErrorReportIsRed` | frontend/project/app/components/room/CodeEditorSidebar.tsx:332 | A successful run's error report is drawn red. |
| `CodeRunner.FailedRunIsRed` | frontend/project/app/components/room/CodeEditorSidebar.tsx:126-131 | A failed run's only line is drawn red. |
| `CodeRunner.TransportFailureColoured` | frontend/project/app/components/room/CodeEditorSidebar.tsx:132-137 | A transport failure logs a red report and then a purple hint. |
| `CodeRunner.HintIsPurple` | frontend/project/app/components/room/CodeEditorSidebar.tsx:340 | The server hint is drawn purple. |
| `CodeRunner.FixedLinesColoured` | frontend/project/app/components/room/CodeEditorSidebar.tsx:338 | The empty-code warning is amber. The separator and the blank spacer line are gray. |
| `CodeRunner.RunnerPanel.constructor` | frontend/project/app/components/room/CodeEditorSidebar.tsx:60-70 | JavaScript is selected, nothing is running, the terminal holds the one "ready" line, and no code has been typed. |
| `CodeRunner.RunnerPanel.HandleCodeChange` | frontend/project/app/components/room/CodeEditorSidebar.tsx:72-74 | The last edited code is the text passed in. |
| `CodeRunner.RunnerPanel.SelectLanguage` | frontend/project/app/components/room/CodeEditorSidebar.tsx:222 | The selected language becomes the picked one. |
| `CodeRunner.RunnerPanel.GetCode` | frontend/project/app/components/room/CodeEditorSidebar.tsx:76-82 | Returns the editor's own text when it offers one, and otherwise the last edited code. |
| `CodeRunner.RunnerPanel.BeginRun` | frontend/project/app/components/room/CodeEditorSidebar.tsx:84-97 | Blank code appends only the warning and does not start a run. Otherwise the run flag is raised, and a blank line, the banner naming the selected language and a 40-character separator are appended. |
| `CodeRunner.RunnerPanel.CompleteRun` | frontend/project/app/components/room/CodeEditorSidebar.tsx:99-140 | Appends exactly `OutcomeLines` of the outcome, and the run flag is lowered in every case. |
| `CodeRunner.RunnerPanel.RunCode` | frontend/project/app/components/room/CodeEditorSidebar.tsx:84-141 | See the cases below. |
| `CodeRunner.RunnerPanel.ClearTerminal` | frontend/project/app/components/room/CodeEditorSidebar.tsx:143-145 | The terminal holds exactly the one "Terminal cleared." line. |
| `Landing.HandleCreate` | frontend/project/app/components/landing/HeroSection.tsx:13-20 | Create alerts exactly when the name is blank, with "Please enter your name". Otherwise it goes to "/room/" + id + "?name=" + encode(name). |
| `Landing.HandleJoin` | frontend/project/app/components/landing/HeroSection.tsx:22-32 | See the cases below. |
| `Landing.JoinEnabled` | frontend/project/app/components/landing/HeroSection.tsx:98 | The Join button is enabled exactly when the code is not blank. |
| `Landing.JoinButtonAgreesWithHandler` | frontend/project/app/components/landing/HeroSection.tsx:97-98 | A click on an enabled button navigates exactly when the name is filled in. With a disabled button the handler only alerts. |
| `Landing.NameCheckShared` | frontend/project/app/components/landing/HeroSection.tsx:13-26 | Create and join raise the name alert for exactly the same names. |
| `Landing.RouteDeterminesRoom` | frontend/project/app/components/landing/HeroSection.tsx:31 | For the same user, equal route strings mean equal room ids. |
| `Landing.RoomRoute` | frontend/project/app/components/landing/HeroSection.tsx:19 | A route is "/room/", then the room id as given, then "?name=" and the encoded name, with the length of the three parts together. |
| `Landing.JoinKeepsCodeVerbatim` | frontend/project/app/components/landing/HeroSection.tsx:31 | A valid join navigates to a route that carries the meeting code untrimmed, right after "/room/". |

Cases and notes for the rows that say "see below":

- `RoomControl.Receive`:
  - Without a room, or for an undecodable packet, nothing changes.
  - A JSON `null` packet sets only the guard.
  - A decoded message sets the guard and schedules one reset.
  - An open sets the code sidebar, the starter and full screen (`isFullScreen`, default false).
  - A close sets the sidebar to none and clears the starter. It keeps full screen.
  - A full-screen message changes only full screen.
  - Any other type changes nothing visible.
- `RoomControl.ToggleSidebarStep`:
  - Opening the code editor sets full screen off and the starter to the local name, then broadcasts an open with `isFullScreen` false.
  - Toggling an open code editor closes it, clears the starter and broadcasts a close.
  - Toggling another sidebar closes it if it is active and shows it otherwise. It publishes nothing.
- `RoomControl.ClosedStaysClosed` (last applied wins): once the editor is closed, no run of full-screen messages, duplicate closes, unknown packets, timers or non-code commands reopens it.
- `RoomControl.DeliveryKeepsAgreement`:
  - Two participants that agree on sidebar, full screen and starter still agree after one issues a code-editor command with its guard clear and the other receives what was published.
  - Only one participant acts; concurrent commands are not covered (see `SimultaneousOpenDisagrees`).
  - Exactly one message is published.
- `RoomControl.JsonNullStrandsGuard`:
  - A JSON `null` packet sets the guard but schedules no reset.
  - The handler throws when it reads the message's type, after setting the guard and before scheduling the timer.
  - From then on, until another packet arrives, nothing is published.
- `CollabEditor.ChipLabel`:
  - The local participant's chip is the name plus " (You)".
  - Another name of at most 10 UTF-16 code units is shown whole.
  - A longer name becomes its first 10 code units plus "...": 13 units, which begin with the name's first units.
- `AssistantChat.OnServerMessage`:
  - A frame that does not parse, or an unknown type, changes nothing.
  - A clear empties the list and keeps the flags.
  - A reply or an error adds its entry and ends both typing and processing.
  - `typing` sets the typing flag.
  - The status "transcribing" starts processing. Any other status changes nothing.
  - Transcriptions and detected questions add their entry and keep the flags.
- `CodeRunner.OutcomeLines`:
  - A successful answer appends, in order: the output if non-empty, then "❌ Error:\n" + error if non-empty, then the separator, then "✅ Execution completed (time or N/A)". So it has 2 to 4 lines.
  - A failed answer appends exactly "❌ Execution failed: " + (error, or "Unknown error").
  - A transport exception appends the connection report, then the server hint.
- `CodeRunner.RunnerPanel.RunCode`:
  - Blank code appends only the warning and leaves the run flag as it was.
  - Otherwise the banner lines and then `OutcomeLines` of the result are appended, and the run ends lowered.
- `Landing.HandleJoin`:
  - The name is checked first: a blank name alerts about the name even when the code is blank too.
  - A blank code then alerts "Please enter a meeting code".
  - It navigates exactly when both are filled in, to "/room/" + code as typed + "?name=" + encode(name).

## Left out

- CRDT merge, awareness transport and the editor's view are library code (yjs, y-websocket, y-codemirror.next, CodeMirror). The document is a text field read by the seed timer and by `getCode`. Language extensions, themes and key maps are opaque values and are not modelled.
- `getDefaultCode`'s `default` branch cannot be reached for a value of the four-language type, so the template function has no such case.
- WebSocket lifecycle: connecting, reconnecting after 3 s and closing are I/O and are not modelled. Socket readiness is a parameter of each sender.
- Audio capture and playback are browser I/O and are not modelled: the microphone recorder, the meeting-audio capture, base64 conversion, `AudioContext` playback, and the stop/track teardown inside `cleanupMeetingListening`.
- The `fetch` to the execution server and the clipboard write are I/O. The execution result is the input `ExecOutcome`, where "" stands for a missing or empty `output`, `error` or `execution_time` field.
- `Math.random` room ids and `Date.now` message ids are parameters (`roomId`, `stamp`). `encodeURIComponent` is the opaque parameter `encode`.
- The 100 ms reset timer is the explicit `TimerFired` event. Time itself is not modelled.
- Values of the wrong JSON type are not modelled. This covers a non-boolean `isFullScreen`, `typing` status or `success`, a role outside user/assistant/meeting, and non-string content. The model types those fields.
- React batching and stale closures are not modelled: every handler is taken to act on the current state.
- Rendering, CSS classes, animations, the language dropdown's open flag, the terminal's expanded flag and the copied indicator are not modelled. The LiveKit control-bar wrappers and the static landing sections are also out.
- `CodeRunner.RunnerPanel.GetCode` takes the editor's own text as an optional input. In the app the sidebar's `editorRef` is attached to a wrapping `div` that the editor never decorates with `getCode`, so that input is always absent there and the last edited code is used.
- `Landing.RouteDeterminesRoom` is about the route string only. The meeting code goes into the route unencoded, so a code containing `/`, `?` or `#` is split by the router's URL parsing ("abc?x" and "abc?y" both reach room "abc"). URL parsing is not modelled.
- The awareness library registers the local client's state when it is created, so `EditorSession`'s constructor lists the local state first. That ordering comes from library code and is taken as given.
- `CollabEditor.ColorForName` computes with unbounded integers. JavaScript computes `name.charCodeAt(i) + ((hash << 5) - hash)` in doubles, which agree with integers only while the hash stays below 2^53. `CollabEditor.NameHashBound` shows this holds for names shorter than 2^21 code units, and the model does not cover longer names.

## Findings

| source | as written | input that shows it | evidently intended | confidence | as-written member | corrected member |
|---|---|---|---|---|---|---|
| frontend/project/app/components/room/VideoConferenceComponent.tsx:47-48 | `broadcastCodeEditorState` returns without publishing while the guard is set. Receipt never publishes, so the guard suppresses no echo, only the participant's own commands. | A participant receives any code-editor message and toggles full screen within 100 ms, or at any time after a JSON `null` packet. Its view changes and its peers never hear of it. | Every local code-editor command is published, so peers stay in step. | high (follows from the code; not executed) | `RoomControl.GuardedCommandDiverges` | `RoomControl.IntendedDeliveryKeepsAgreement` |
| frontend/project/app/components/room/VideoConferenceComponent.tsx:69-72 | An open applies whatever the local view is, so the last open received wins the starter. | "Ada" and "Lin" open the editor at the same time, then each receives the other's open. Ada's view shows Lin as starter and Lin's shows Ada. | All participants show the same starter. | medium (the tie-break is one possible fix; not executed) | `RoomControl.SimultaneousOpenDisagrees` | `RoomControl.IntendedSimultaneousOpenAgrees` |

The corrected members are built on `RoomControl.IntendedApply` and `RoomControl.IntendedReceive`, which apply one rule to local and received opens: the starter is the first-sorting name among everyone who opened the editor since it was last closed. `RoomControl.IntendedOpenKeepsStarter` shows the rule keeps single opens in step too. `RoomController` models the component as written, and the corrected definitions form a separate specification layer beside it.
