# Live classroom poll — client state machines in Dafny

This project models the client side of a live classroom poll. A teacher asks
timed multiple-choice questions, students answer, and everyone sees live
tallies, poll history, the participant list and a chat. The repository holds
two independent clients that react to the same socket events:

- the Redux client (`src/App.js` with the `poll`, `chat` and `user` slices and
  the `CreatePollForm` and `StudentDashboard` components);
- the single-component client `app/page.tsx`.

The server that enforces a single active poll, one vote per student, kicking
and timer expiry is a separate program from this client code and is not
modelled. Inbound socket events are a datatype
(`Domain.ServerEvent`) fed to step functions and methods. Outbound `emit`s are
returned values (`Domain.ClientRequest`, `Domain.PollDraft`).

Modules, one per source concern:

- `Domain` (domain.dfy): poll, participant and chat records, events, requests,
  and the id helpers (`findIndex`, distinct ids).
- `Text` (text.dfy): JavaScript `trim`, `toString` and `padStart(2, "0")` on
  naturals, with readers that invert them.
- `Display` (display.dfy): `getPercentage` and `formatTime`. Both clients and
  the student dashboard define them identically.
- `PollForm` (pollform.dfy): the poll editor. The app/page.tsx updaters are
  pure functions on a `Form` record. `CreatePollForm` is a class whose
  handlers update its four fields in place.
- `PollSlice`, `ChatSlice`, `UserSlice`: each reducer is a pure function on
  the slice record (the specification). A store class updates its fields in
  place, and each method's postcondition is `State() == Reduce(old(State()), action)`.
- `ReduxApp` (reduxapp.dfy): `AppContent`. Each socket listener is a fixed
  sequence of dispatches, and the screen is chosen by priority. There are
  lemmas over runs of events.
- `StudentDashboard` (studentdashboard.dfy): the remaining-time formula, the
  interval loop that recomputes it, the view choice, the submit guard and
  the result bars.
- `PageClient` (pageclient.dfy): app/page.tsx. `PageState` holds every
  `useState` field. There are listeners, the one-second countdown effect, UI
  handlers with their emitted requests, run-level invariants, and the class
  `IntervuePollSystem` whose methods update the fields in place. Each of its
  UI handlers is proved to leave the state, and emit the request, that
  `OnUi` gives for the matching action.

Where the two clients disagree, each is modelled as written.
Lemmas state the differences (`PageClient.ParticipantJoinedDiverges`,
`PageClient.StudentScreensCompared`,
`ReduxApp.RepeatedPollEndedGrowsHistory` versus
`PageClient.PollEndedIdempotent`).

## Model

| member | source | states |
|---|---|---|
| `Domain.IndexOfParticipant` | src/store/slices/pollSlice.js:40 | `findIndex` by id: -1 exactly when no entry has the id, otherwise the first index whose entry has it |
| `Text.Trim` | app/page.tsx:205 | `trim()` is the slice of the input between its leading and its trailing whitespace: what is cut off on either side is blank, the result is empty exactly when the input is blank, and otherwise it starts and ends with a non-whitespace character |
| `Text.TrimIdempotent` | app/page.tsx:205-207 | trimming a trimmed string changes nothing, so the name that is sent passes its own guard |
| `Text.Decimal` | app/page.tsx:293 | `toString()` of a natural number is a non-empty string of digits with no leading zero |
| `Text.DecimalLength` | app/page.tsx:293 | a number has one digit exactly when it is below 10, and at most two exactly when it is below 100 |
| `Text.PadStart2` | app/page.tsx:293 | `padStart(2, "0")` gives length max(2, n), keeps the string as its suffix, adds only zeros, and keeps it all digits |
| `Text.ParseDecimalOfDecimal` | app/page.tsx:293 | reading back the decimal rendering of n gives n |
| `Text.PaddedDecimalRoundTrip` | app/page.tsx:293 | zero padding never changes the number shown |
| `Display.Percentage` | app/page.tsx:286-288 | zero total or zero votes gives 0; the result is never negative; it is at most 100 when votes ≤ total, and exactly 100 when votes = total > 0 |
| `Display.PercentageMonotone` | app/page.tsx:286-288 | more votes never show a smaller percentage |
| `Display.Clock` | app/page.tsx:293 | `mm:ss` text: both fields zero-padded digits around a colon; exactly 5 characters exactly when minutes < 100 |
| `Display.FormatTime` | app/page.tsx:290-294 | the text is `Clock` of the whole minutes and the remaining seconds, so digits, a colon and two digits; it has exactly 5 characters exactly when seconds < 6000 |
| `Display.FormatTimeRoundTrip` | app/page.tsx:290-294 | minutes·60 + seconds read back from the text equals the input, and the seconds field is below 60 |
| `Display.ClockRoundTrip` | app/page.tsx:293 | the two fields of the clock text read back as the minutes and seconds rendered |
| `PollForm.InitialFormWellFormed` | src/components/CreatePollForm.js:6-9 | the initial form (question "", options ["",""], flags [false,false], timer 60) has one flag per option and a timer from the select box |
| `PollForm.AddedOption` | app/page.tsx:217-223 | appends "" to the options and false to the flags; question and timer kept; equal lengths preserved |
| `PollForm.UpdatedOption` | app/page.tsx:225-230 | only the option at `index` changes, to `value`; length and every other entry kept; an out-of-range index changes nothing |
| `PollForm.UpdatedCorrectAnswer` | app/page.tsx:232-237 | only the flag at `index` changes; length and every other flag kept; an out-of-range index changes nothing |
| `PollForm.CanSubmit` | app/page.tsx:240 | the submit guard fails when the question is blank or some option is blank, and holds only when every option trims to a non-empty string |
| `PollForm.CanSubmitIsTrimGuard` | app/page.tsx:240 | the guard `question.trim() && options.every(opt => opt.trim())` holds exactly when neither the question nor any option is blank |
| `PollForm.NonBlankOptions` | app/page.tsx:244 | `filter(opt => opt.trim())` keeps only non-blank options, a sub-multiset of the input |
| `PollForm.FilterKeepsAll` | app/page.tsx:240-244 | when every option is non-blank, the filter returns the options unchanged |
| `PollForm.FilterMembership` | app/page.tsx:244 | a string is in the filtered list exactly when it is a non-blank option |
| `PollForm.Submit` | app/page.tsx:239-247 | a payload exists exactly when the guard holds; it carries the id, the trimmed question, the form's options and flags (equal lengths) and the timer |
| `PollForm.CreatePollForm.constructor` | src/components/CreatePollForm.js:6-9 | the editor starts as the initial form |
| `PollForm.CreatePollForm.SetQuestion` | src/components/CreatePollForm.js:63 | only the question changes |
| `PollForm.CreatePollForm.SetTimer` | src/components/CreatePollForm.js:54-59 | only the timer changes, to a value from {30, 60, 90, 120} |
| `PollForm.CreatePollForm.AddOption` | src/components/CreatePollForm.js:11-14 | "" and false appended; equal lengths kept |
| `PollForm.CreatePollForm.UpdateOption` | src/components/CreatePollForm.js:16-20 | copy-and-assign of one index agrees with the map-based updater: only that option changes |
| `PollForm.CreatePollForm.UpdateCorrectAnswer` | src/components/CreatePollForm.js:22-26 | only that flag changes; length kept |
| `PollForm.CreatePollForm.HandleSubmit` | src/components/CreatePollForm.js:28-38 | emits exactly when the guard holds; the payload is `Submit` of the form: the given id, the trimmed question, the form's options and flags unchanged (as many flags as options) and the timer; the form is not modified |
| `PollSlice.ReplaceFirstById` | src/store/slices/pollSlice.js:39-44 | only the first entry with the id is replaced; length and the other entries are kept; an unknown id leaves the list unchanged |
| `PollSlice.PollReduce` | src/store/slices/pollSlice.js:15-53 | each setter writes its payload to its own field, and no other action changes that field; `endPoll` grows the history by one in front; `addParticipant` appends the payload after the old entries; `updateParticipant` is `ReplaceFirstById` |
| `PollSlice.UpdatePollResultsOnlyTally` | src/store/slices/pollSlice.js:18-23 | no-op without a current poll; otherwise only `responses` and `totalResponses` of the current poll change |
| `PollSlice.EndPollMovesToHistory` | src/store/slices/pollSlice.js:24-29 | with a current poll, the current poll is closed in place (`isActive` false) and that closed poll is put at the head of the history, nothing else changing; without one nothing changes |
| `PollSlice.AddParticipantCanDuplicate` | src/store/slices/pollSlice.js:36-38 | adding a participant whose id is already listed breaks id distinctness (no de-duplication) |
| `PollSlice.UpdateParticipantKeepsDistinct` | src/store/slices/pollSlice.js:39-44 | replacing by id keeps ids distinct |
| `PollSlice.PollStore.constructor` | src/store/slices/pollSlice.js:3-9 | the slice starts with no poll, empty lists, not loading, no error |
| `PollSlice.PollStore.SetCurrentPoll` | src/store/slices/pollSlice.js:15-17 | the in-place write equals the reducer |
| `PollSlice.PollStore.UpdatePollResults` | src/store/slices/pollSlice.js:18-23 | the two field writes on the current poll equal the reducer |
| `PollSlice.PollStore.EndPoll` | src/store/slices/pollSlice.js:24-29 | `isActive = false` then `unshift` equal the reducer |
| `PollSlice.PollStore.SetPollHistory` | src/store/slices/pollSlice.js:30-32 | the in-place write equals the reducer |
| `PollSlice.PollStore.SetParticipants` | src/store/slices/pollSlice.js:33-35 | the in-place write equals the reducer |
| `PollSlice.PollStore.AddParticipant` | src/store/slices/pollSlice.js:36-38 | `push` equals the reducer |
| `PollSlice.PollStore.UpdateParticipant` | src/store/slices/pollSlice.js:39-44 | `findIndex` then an indexed write equals the reducer |
| `PollSlice.PollStore.SetLoading` | src/store/slices/pollSlice.js:45-47 | the in-place write equals the reducer |
| `PollSlice.PollStore.SetError` | src/store/slices/pollSlice.js:48-50 | the in-place write equals the reducer |
| `PollSlice.PollStore.ClearError` | src/store/slices/pollSlice.js:51-53 | the in-place write equals the reducer |
| `ChatSlice.ChatReduce` | src/store/slices/chatSlice.js:13-28 | `addMessage` appends at the end and adds exactly one to the unread count; `markAsRead` zeroes the count and keeps the messages; `setMessages` and `clearMessages` replace or empty the list and keep the count; only `markAsRead` lowers it; only `setTyping` changes `isTyping` |
| `ChatSlice.UnreadCountsAddedMessages` | src/store/slices/chatSlice.js:16-19 | without `markAsRead`, the count after any run is the count before plus the number of messages added |
| `ChatSlice.UnreadSinceLastRead` | src/store/slices/chatSlice.js:26-28 | after `markAsRead` the count is the number of messages added since |
| `ChatSlice.ChatStore.constructor` | src/store/slices/chatSlice.js:3-7 | no messages, not typing, count 0 |
| `ChatSlice.ChatStore.SetMessages` | src/store/slices/chatSlice.js:13-15 | the in-place write equals the reducer |
| `ChatSlice.ChatStore.AddMessage` | src/store/slices/chatSlice.js:16-19 | `push` and `unreadCount += 1` equal the reducer |
| `ChatSlice.ChatStore.ClearMessages` | src/store/slices/chatSlice.js:20-22 | the in-place write equals the reducer |
| `ChatSlice.ChatStore.SetTyping` | src/store/slices/chatSlice.js:23-25 | the in-place write equals the reducer |
| `ChatSlice.ChatStore.MarkAsRead` | src/store/slices/chatSlice.js:26-28 | the in-place write equals the reducer |
| `UserSlice.UserReduce` | src/store/slices/userSlice.js:16-36 | each setter writes its payload to its own field, and no other action except `resetUser` changes that field; `resetUser` gives the initial record from any state |
| `UserSlice.UserActionIdempotent` | src/store/slices/userSlice.js:31-36 | every action, `resetUser` and `setKickedOut(true)` included, applied twice equals applied once |
| `UserSlice.UserStore.constructor` | src/store/slices/userSlice.js:3-10 | role null, name "", all flags false, no selected answer |
| `UserSlice.UserStore.SetUserRole` | src/store/slices/userSlice.js:16-18 | the in-place write equals the reducer |
| `UserSlice.UserStore.SetUserName` | src/store/slices/userSlice.js:19-21 | the in-place write equals the reducer |
| `UserSlice.UserStore.SetAuthenticated` | src/store/slices/userSlice.js:22-24 | the in-place write equals the reducer |
| `UserSlice.UserStore.SetHasAnswered` | src/store/slices/userSlice.js:25-27 | the in-place write equals the reducer |
| `UserSlice.UserStore.SetSelectedAnswer` | src/store/slices/userSlice.js:28-30 | the in-place write equals the reducer |
| `UserSlice.UserStore.SetKickedOut` | src/store/slices/userSlice.js:31-33 | the in-place write equals the reducer |
| `UserSlice.UserStore.ResetUser` | src/store/slices/userSlice.js:34-36 | replacing the record equals the reducer |
| `ReduxApp.Handle` | src/App.js:35-86 | `poll-created` makes the poll current and clears `hasAnswered` and nothing else; `poll-updated` changes only the tally of the current poll and is a no-op without one; `poll-ended` moves the previous poll, inactive, to the head of history and makes the event's poll current, and nothing else; `answer-submitted` sets `hasAnswered` and the current poll and nothing else; `participant-joined` appends the participant and nothing else; `new-message` appends one message and adds one unread and nothing else; `kicked-out` sets `isKickedOut` and nothing else; `teacher-joined` writes the current poll, participants, history and messages and nothing else; `student-joined` writes the current poll, messages and `hasAnswered` and nothing else; `participant-updated` replaces the first entry with the id and nothing else; no event changes role or authentication |
| `ReduxApp.ScreenFor` | src/App.js:133-160 | kicked out exactly when `isKickedOut`; otherwise welcome exactly without a role, setup exactly with a role but not authenticated, and the dashboard of the role once authenticated |
| `ReduxApp.ScreenAfterEvents` | src/App.js:133-160 | after any run of events, the screen is the kicked-out screen if the user was or has been kicked, whatever the role or authentication; otherwise the screen is unchanged |
| `ReduxApp.RepeatedPollEndedGrowsHistory` | src/App.js:70-73 | the same `poll-ended` delivered n times grows the history by n (n−1 without a prior current poll) |
| `ReduxApp.UnreadCountsNewMessages` | src/App.js:80-82 | the unread count grows by exactly the number of `new-message` events |
| `ReduxApp.MessagesBetweenJoins` | src/App.js:80-82 | between joins, the message list grows by exactly the `new-message` payloads, in arrival order |
| `ReduxApp.ParticipantJoinedCanDuplicate` | src/App.js:48-50 | a repeated `participant-joined` produces a duplicate id |
| `ReduxApp.StudentSetup` | src/App.js:106-110 | the name is set as given and the user is authenticated; role, answer state, kick state, poll and chat are unchanged |
| `ReduxApp.TeacherSetup` | src/App.js:112-115 | the user is authenticated; name, role, answer state, kick state, poll and chat are unchanged |
| `ReduxApp.SetupEffects` | src/App.js:106-115 | student setup sets the name (untrimmed) and authentication only; teacher setup sets authentication only |
| `ReduxApp.SetupLeadsToDashboard` | src/App.js:137-157 | after setup, a user with a role who is not kicked out sees the teacher or the student dashboard according to the role |
| `ReduxApp.Store.Dispatch` | src/App.js:29 | dispatching runs the reducer of the action's slice on that slice's fields |
| `ReduxApp.Store.OnServerEvent` | src/App.js:35-86 | each listener's dispatch sequence leaves the store in `Handle(old state, event)` |
| `ReduxApp.Store.HandleRoleSelection` | src/App.js:102-104 | only the role is set |
| `ReduxApp.Store.HandleStudentSetup` | src/App.js:106-110 | two dispatches, then `join-as-student` with the name as given |
| `ReduxApp.Store.HandleTeacherSetup` | src/App.js:112-115 | one dispatch, then `join-as-teacher` |
| `ReduxApp.Store.CurrentScreen` | src/App.js:133-160 | the screen is `ScreenFor` of the user slice: kicked out first, then no role → welcome, not authenticated → setup, then the dashboard for the role |
| `StudentDashboard.RemainingSeconds` | src/components/StudentDashboard.js:15-18 | the remaining time is never negative; it is 0 exactly when less than one second is left, and otherwise r·1000 ≤ end − now < (r+1)·1000, that is, the floor of the seconds left |
| `StudentDashboard.RemainingAtMostTimer` | src/components/StudentDashboard.js:15-18 | from creation on, at most `timer` seconds remain |
| `StudentDashboard.RemainingAtCreation` | src/components/StudentDashboard.js:15-18 | at the creation instant exactly `timer` seconds remain |
| `StudentDashboard.RemainingNonIncreasing` | src/components/StudentDashboard.js:21-24 | later instants never show more remaining time |
| `StudentDashboard.RunCountdown` | src/components/StudentDashboard.js:13-33 | without an active poll nothing runs; otherwise `timeLeft` is recomputed at mount and at each tick, every tick but the last saw time left, and the interval is cleared at the first zero, so no tick runs after the first one at or after the poll's end |
| `StudentDashboard.ViewFor` | src/components/StudentDashboard.js:56-111 | no poll → waiting; an active poll not answered → answer view; every other case → results |
| `StudentDashboard.HandleSubmitAnswer` | src/components/StudentDashboard.js:39-43 | forwards exactly when an answer is selected, and forwards that answer |
| `StudentDashboard.SubmitButtonForwardsSelection` | src/components/StudentDashboard.js:39-43 | the submit button (line 100) is enabled exactly with a selection and `timeLeft` ≠ 0; a click on it forwards that selection; with no selection nothing is forwarded |
| `StudentDashboard.VotesFor` | src/components/StudentDashboard.js:123 | an option with no entry in `responses` has 0 votes |
| `StudentDashboard.ResultPercentages` | src/components/StudentDashboard.js:122-124 | one percentage per option, each within [0, 100] when votes ≤ total; all 0 with no responses or with no entry |
| `PageClient.JoinParticipant` | app/page.tsx:112-119 | an id already listed leaves the list unchanged, otherwise the participant is appended; distinct ids stay distinct |
| `PageClient.ReplaceAllById` | app/page.tsx:121-123 | every entry with the id is replaced and the others are kept; ids and length are unchanged |
| `PageClient.ReplaceAgreesWithRedux` | app/page.tsx:121-123 | with distinct ids, page.tsx's replace-all equals the slice's replace-first |
| `PageClient.RecordEnded` | app/page.tsx:143-150 | the poll is prepended only if no history entry has its id; distinct history ids stay distinct |
| `PageClient.StudentJoinedScreen` | app/page.tsx:102-109 | active and not answered → answer view; a poll that is not active → results; otherwise waiting |
| `PageClient.StudentScreensCompared` | app/page.tsx:102-109 | the two student clients agree except for an answered active poll: page.tsx waits, the Redux dashboard shows results |
| `PageClient.ReceiveAsWritten` | app/page.tsx:81-173 | the listeners never touch role, name, editor or chat input; `timeLeft` changes only on `poll-created`; lists change only on their own events; `kicked-out` changes only the view |
| `PageClient.ListenerEffects` | app/page.tsx:81-173 | what each listener writes: snapshots replace the lists, `poll-created` resets the answer and restarts the countdown, `poll-updated` replaces the current poll only, an acknowledged answer means waiting, and a message is appended |
| `PageClient.TimerEffectAsWritten` | app/page.tsx:190-197 | for a student with an active poll, a positive `timeLeft` drops by one and a zero one switches to results; otherwise nothing changes |
| `PageClient.KickedOutLeftAsWritten` | app/page.tsx:125-173 | as written, a `poll-created` after `kicked-out` restores the answer view |
| `PageClient.KickedOutLeftByTimerAsWritten` | app/page.tsx:189-197 | as written, the countdown moves a kicked-out student to the results view |
| `PageClient.MidPollJoinSkipsAnswerAsWritten` | app/page.tsx:96-110 | as written, a student joining a running poll gets `timeLeft` 0 and is moved to the results before answering |
| `PageClient.Receive` | app/page.tsx:81-173 | the listeners as written: every field but `timeLeft` and the view equals what they produce, and so does the view unless the client is already kicked out, where it stays final; a student joining an active poll gets that poll's remaining time as `timeLeft` |
| `PageClient.TimerEffect` | app/page.tsx:190-197 | the countdown as written, except that it leaves a kicked-out client alone |
| `PageClient.MidPollJoinCanAnswer` | app/page.tsx:96-110 | corrected: a student joining a poll with time left gets the answer view and keeps it after a tick |
| `PageClient.CountdownReachesResults` | app/page.tsx:190-197 | from `timeLeft` n with an active poll, n+1 ticks reach the results with `timeLeft` 0 and nothing else changed |
| `PageClient.StudentSetupStep` | app/page.tsx:204-210 | emits `join-as-student` with the trimmed name exactly when the name is not blank, and then shows waiting; otherwise nothing changes |
| `PageClient.StartQuestionStep` | app/page.tsx:239-258 | emits `create-poll` exactly when the guard holds, and then resets the editor to the initial form and shows the live poll; otherwise nothing changes |
| `PageClient.SubmitAnswerRequest` | app/page.tsx:260-264 | emits the selected index exactly when there is a selection and a current poll |
| `PageClient.SendMessageStep` | app/page.tsx:278-284 | sends the trimmed, non-blank input and clears it; a blank input changes nothing |
| `PageClient.OnUi` | app/page.tsx:199-284 | the emitting handlers' requests and new states: the guarded join, question and chat steps; `join-as-teacher`, `submit-answer` and `kick-student` emitted with the state unchanged apart from the teacher's view; the option editors' new states; every other handler emits nothing |
| `PageClient.HandlerEffects` | app/page.tsx:199-284 | each handler that emits nothing writes only the fields its setters name: the role, the setup view (only once a role is chosen), the name, the editor's question or timer, the picked answer, the chat input, the chat panel, the tab, the dashboard view; "new question" shows the editor and clears the poll, the answer state and the tab |
| `PageClient.HandlersFrame` | app/page.tsx:199-284 | UI handlers emit only from the six emitting handlers, never touch server-fed lists or the countdown, only "new question" drops the current poll, and the editor stays well formed |
| `PageClient.ReceiveKeepsConsistent` | app/page.tsx:112-150 | each listener keeps participant ids and history ids distinct |
| `PageClient.RunKeepsConsistent` | app/page.tsx:112-150 | over any run of events, ticks and UI actions, participant and history ids stay distinct, provided the teacher snapshots have distinct ids |
| `PageClient.KickedOutIsFinal` | app/page.tsx:171-173 | corrected: once kicked out, no event or tick leaves the kicked-out view |
| `PageClient.PollEndedIdempotent` | app/page.tsx:143-150 | a repeated `poll-ended` changes nothing, and history grows by at most one |
| `PageClient.ParticipantJoinedDiverges` | app/page.tsx:112-119 | on a repeated `participant-joined`, page.tsx keeps its list while the Redux slice duplicates the id |
| `PageClient.IntervuePollSystem.constructor` | app/page.tsx:59-77 | every `useState` starts at its initial value |
| `PageClient.IntervuePollSystem.OnTeacherJoined` | app/page.tsx:81-94 | the field writes equal the `teacher-joined` listener |
| `PageClient.IntervuePollSystem.OnStudentJoined` | app/page.tsx:96-110 | the field writes equal the `student-joined` listener |
| `PageClient.IntervuePollSystem.OnPollCreated` | app/page.tsx:125-137 | the field writes equal the `poll-created` listener |
| `PageClient.IntervuePollSystem.OnPollEnded` | app/page.tsx:143-158 | the field writes equal the `poll-ended` listener |
| `PageClient.IntervuePollSystem.OnAnswerSubmitted` | app/page.tsx:160-164 | the field writes equal the `answer-submitted` listener |
| `PageClient.IntervuePollSystem.Listen` | app/page.tsx:80-173 | every listener as written |
| `PageClient.IntervuePollSystem.OnServerEvent` | app/page.tsx:80-187 | the listener with the two corrections of `Receive` |
| `PageClient.IntervuePollSystem.TimerFires` | app/page.tsx:190-197 | one run of the (corrected) countdown effect |
| `PageClient.IntervuePollSystem.SelectRole` | app/page.tsx:448 | only the role is set |
| `PageClient.IntervuePollSystem.HandleRoleSelection` | app/page.tsx:199-202 | with the role already chosen, only the setup view is shown |
| `PageClient.IntervuePollSystem.SetStudentName` | app/page.tsx:507 | only the name input changes |
| `PageClient.IntervuePollSystem.HandleStudentSetup` | app/page.tsx:204-210 | equals `StudentSetupStep` |
| `PageClient.IntervuePollSystem.HandleTeacherSetup` | app/page.tsx:212-215 | emits `join-as-teacher` and shows the dashboard |
| `PageClient.IntervuePollSystem.SetQuestionText` | app/page.tsx:840 | only the editor's question changes |
| `PageClient.IntervuePollSystem.SetTimer` | app/page.tsx:824 | only the editor's timer changes |
| `PageClient.IntervuePollSystem.AddOption` | app/page.tsx:217-223 | the editor becomes `AddedOption` of the old one |
| `PageClient.IntervuePollSystem.UpdateOption` | app/page.tsx:225-230 | the editor becomes `UpdatedOption` of the old one |
| `PageClient.IntervuePollSystem.UpdateCorrectAnswer` | app/page.tsx:232-237 | the editor becomes `UpdatedCorrectAnswer` of the old one |
| `PageClient.IntervuePollSystem.StartQuestion` | app/page.tsx:239-258 | emits as `StartQuestionStep`; on emit the editor is reset and the live poll shown, otherwise nothing changes |
| `PageClient.IntervuePollSystem.ShowLivePoll` | app/page.tsx:250-256 | editor reset to the initial form and the live view shown |
| `PageClient.IntervuePollSystem.SelectAnswer` | app/page.tsx:1125 | only the selected answer changes |
| `PageClient.IntervuePollSystem.SubmitSelectedAnswer` | app/page.tsx:260-264 | emits `submit-answer` with the selection exactly when there is one and a current poll |
| `PageClient.IntervuePollSystem.KickOutParticipant` | app/page.tsx:266-268 | emits `kick-student` with the id |
| `PageClient.IntervuePollSystem.CreateNewQuestion` | app/page.tsx:270-276 | shows the editor, drops the current poll and the answer, and resets the tab |
| `PageClient.IntervuePollSystem.SetChatInput` | app/page.tsx:341 | only the chat input changes |
| `PageClient.IntervuePollSystem.SendChatMessage` | app/page.tsx:278-284 | equals `SendMessageStep` |
| `PageClient.IntervuePollSystem.SetShowChat` | app/page.tsx:779 | only the chat panel flag changes |
| `PageClient.IntervuePollSystem.SetActiveTab` | app/page.tsx:556 | only the tab changes |
| `PageClient.IntervuePollSystem.ReturnToDashboard` | app/page.tsx:804 | only the view changes, to the dashboard |

## Left out

- The socket.io transport (`io(...)`, every `on`/`off`/`emit`). Inbound events are `ServerEvent` values and emits are returned `ClientRequest` values.
- The server (single active poll, vote de-duplication, kicking, timer expiry). It is a separate program from this client code.
- JSX rendering and styling, the UI widget library, and the welcome, setup and kicked-out screens. The store wiring (`src/store/store.js`) is modelled only as `ReduxApp.Store` holding the three slices.
- src/components/PollHistory.js and src/components/LivePoll.js repeat `getPercentage`, which is `Display.Percentage`. The `canCreateNewPoll` predicate of src/components/TeacherDashboard.js is render-only and is not modelled.
- Wall-clock time: `Date.now()`, `setTimeout` and `setInterval` firing, and the parsing of `createdAt` by `new Date(...)`. Instants are integer milliseconds given as parameters, and the interval's firing instants are a given sequence.
- Poll ids from `Date.now().toString()` are an opaque `id` parameter with no uniqueness assumed.
- `console.log` calls, and React's re-registration of listeners when `userRole` changes. The listeners see the current `userRole`.
- Display.Percentage: `Math.round((votes / total) * 100)` is modelled as exact rounding half up. Floating point can round a .5 tie down (29/200 shows 14), so only the properties that hold either way are claimed: 0 for a zero total or zero votes, the range [0, 100], 100 at votes = total, and monotonicity.
- Display.FormatTime: defined on natural numbers only. `timeLeft` starts at 0, is set from a poll's `timer` and only counts down while positive, so it is non-negative as long as the server sends a non-negative `timer`; that is assumed of the server's payload, not proved, and JavaScript's negative `%` is therefore not modelled.
- PollForm.CreatePollForm.UpdateOption: requires an in-range index. The index comes from the rendered option rows. An out-of-range write, which would extend a JavaScript array, is not modelled. The same holds for `PollForm.CreatePollForm.UpdateCorrectAnswer`.
- PollForm.CreatePollForm.SetTimer: requires a value from {30, 60, 90, 120}, the only ones the select box offers.
- Snapshot fallbacks (`data.participants || []` and so on) assume that the payload carries every field.
- Roles: only "teacher" and "student" can be chosen, so the final `Loading...` branch of src/App.js:160 cannot be reached and is not modelled.
- Message payloads: `send-message` carries `{ message }`, modelled as the text alone. Timestamps and message ids are opaque strings.

## Findings

| source | as written | input that shows it | evidently intended | confidence | as-written member | corrected member |
|---|---|---|---|---|---|---|
| app/page.tsx:96-110 | `student-joined` shows the answer view but leaves `timeLeft` at its old value (0 at start); the countdown effect then switches to results at once | a fresh student joins while a 60-second poll is active and unanswered | `timeLeft` set from the poll's remaining time, as src/components/StudentDashboard.js:15-19 does | medium, not executed | `PageClient.MidPollJoinSkipsAnswerAsWritten` | `PageClient.MidPollJoinCanAnswer` |
| app/page.tsx:171-197 | the kicked-out view is an ordinary `appState` that later writes overwrite | a student kicked while answering an active poll: once `timeLeft` reaches 0, the countdown sets the results view | the kicked-out screen is final, as with the sticky `isKickedOut` of src/App.js:133-135 | low, not executed | `PageClient.KickedOutLeftByTimerAsWritten` | `PageClient.KickedOutIsFinal` |
