/** The single-component client of app/page.tsx (`IntervuePollSystem`): its
    `useState` fields, the socket listeners that overwrite them, the
    one-second countdown effect, and the handlers behind its buttons and
    inputs. Each handler is a pure step on the whole state (the
    specification); the class at the end holds the fields and updates them
    in place. */
module PageClient {
  import opened Domain
  import opened Text
  import opened PollForm
  import StudentDashboard
  import PollSlice
  import ReduxApp

  /** The `appState` strings of the component. */
  datatype AppState =
    | Welcome | Setup | TeacherDashboard | CreateQuestion | LivePoll
    | Waiting | StudentAnswer | Results | KickedOutView

  /** The teacher dashboard's tabs: "live", "results" and "history". */
  datatype Tab = LiveTab | ResultsTab | HistoryTab

  datatype PageState = PageState(
    userRole: Option<Role>,
    appState: AppState,
    studentName: string,
    currentQuestion: Option<Poll>,
    pollHistory: seq<Poll>,
    participants: seq<Participant>,
    selectedAnswer: Option<nat>,
    hasAnswered: bool,
    timeLeft: int,
    chatMessages: seq<ChatMessage>,
    chatInput: string,
    showChat: bool,
    activeTab: Tab,
    newQuestion: Form)

  /** The initial value of every `useState`. */
  const InitialPage: PageState :=
    PageState(None, Welcome, "", None, [], [], None, false, 0, [], "", false, LiveTab, InitialForm)

  predicate PollIsActive(s: PageState) {
    s.currentQuestion.Some? && s.currentQuestion.value.isActive
  }

  /** `participant-joined`: appended unless an entry with that id is already
      listed, in which case the list is kept as it is. */
  function JoinParticipant(ps: seq<Participant>, p: Participant): (r: seq<Participant>)
    ensures HasParticipantId(ps, p.id) ==> r == ps
    ensures !HasParticipantId(ps, p.id) ==> r == ps + [p]
    ensures HasParticipantId(r, p.id)
    ensures DistinctParticipantIds(ps) ==> DistinctParticipantIds(r)
  {
    if HasParticipantId(ps, p.id) then ps
    else
      assert (ps + [p])[|ps|].id == p.id;
      ps + [p]
  }

  /** `participant-updated`: `prev.map(p => p.id === updated.id ? updated : p)`,
      so every entry with that id is replaced. */
  function ReplaceAllById(ps: seq<Participant>, p: Participant): (r: seq<Participant>)
    ensures |r| == |ps|
    ensures forall i :: 0 <= i < |ps| ==> r[i].id == ps[i].id
    ensures forall i :: 0 <= i < |ps| && ps[i].id != p.id ==> r[i] == ps[i]
    ensures forall i :: 0 <= i < |ps| && ps[i].id == p.id ==> r[i] == p
  {
    seq(|ps|, i requires 0 <= i < |ps| => if ps[i].id == p.id then p else ps[i])
  }

  /** With distinct ids, page.tsx's replace-all and the Redux slice's
      replace-first give the same list. */
  lemma {:induction false} ReplaceAgreesWithRedux(ps: seq<Participant>, p: Participant)
    requires DistinctParticipantIds(ps)
    ensures ReplaceAllById(ps, p) == PollSlice.ReplaceFirstById(ps, p)
  {
    var a := ReplaceAllById(ps, p);
    var b := PollSlice.ReplaceFirstById(ps, p);
    if HasParticipantId(ps, p.id) {
      var k := IndexOfParticipant(ps, p.id);
      forall i | 0 <= i < |ps|
        ensures a[i] == b[i]
      {
        if i != k {
          assert ps[i].id != ps[k].id;
        }
      }
    }
  }

  /** `poll-ended`: the poll is put at the head of the history unless a poll
      with its id is recorded already. */
  function RecordEnded(history: seq<Poll>, p: Poll): (r: seq<Poll>)
    ensures HasPollId(history, p.id) ==> r == history
    ensures !HasPollId(history, p.id) ==> r == [p] + history
    ensures HasPollId(r, p.id)
    ensures DistinctPollIds(history) ==> DistinctPollIds(r)
  {
    if HasPollId(history, p.id) then history
    else
      var r := [p] + history;
      assert r[0] == p;
      assert forall i :: 0 <= i < |history| ==> r[i + 1] == history[i];
      assert forall j :: 0 < j < |r| ==> r[j].id != p.id;
      r
  }

  /** `student-joined`: answer an active poll not yet answered, show the
      results of a closed one, and otherwise wait. */
  function StudentJoinedScreen(poll: Option<Poll>, answered: bool): (v: AppState)
    ensures v == StudentAnswer <==> poll.Some? && poll.value.isActive && !answered
    ensures v == Results <==> poll.Some? && !poll.value.isActive
    ensures v == Waiting <==> poll.None? || (poll.value.isActive && answered)
  {
    if poll.Some? && poll.value.isActive && !answered then StudentAnswer
    else if poll.Some? && !poll.value.isActive then Results
    else Waiting
  }

  /** The two student clients agree on every case but one: a student who has
      answered an active poll waits here, while the Redux dashboard already
      shows the results. */
  lemma StudentScreensCompared(poll: Option<Poll>, answered: bool)
    ensures StudentJoinedScreen(poll, answered) == StudentAnswer
            <==> StudentDashboard.ViewFor(poll, answered) == StudentDashboard.AnswerView
    ensures poll.None? ==> StudentDashboard.ViewFor(poll, answered) == StudentDashboard.WaitingView
    ensures StudentJoinedScreen(poll, answered) == Results
            ==> StudentDashboard.ViewFor(poll, answered) == StudentDashboard.ResultsView
    ensures poll.Some? && poll.value.isActive && answered ==>
              StudentJoinedScreen(poll, answered) == Waiting
              && StudentDashboard.ViewFor(poll, answered) == StudentDashboard.ResultsView
  {
  }

  /** The ten socket listeners exactly as app/page.tsx registers them. */
  function ReceiveAsWritten(s: PageState, e: ServerEvent): (r: PageState)
    ensures r.userRole == s.userRole && r.studentName == s.studentName && r.newQuestion == s.newQuestion
    ensures r.chatInput == s.chatInput && r.showChat == s.showChat
    ensures r.timeLeft != s.timeLeft ==> e.PollCreated? && r.timeLeft == e.created.timer
    ensures r.participants != s.participants ==> e.TeacherJoined? || e.ParticipantJoined? || e.ParticipantUpdated?
    ensures r.pollHistory != s.pollHistory ==> e.TeacherJoined? || e.PollEnded?
    ensures e.KickedOut? ==> r == s.(appState := KickedOutView)
  {
    match e
    case TeacherJoined(poll, ps, msgs, history) =>
      s.(currentQuestion := poll, participants := ps, chatMessages := msgs, pollHistory := history,
         appState := if poll.Some? && poll.value.isActive then LivePoll else TeacherDashboard)
    case StudentJoined(poll, msgs, answered) =>
      s.(currentQuestion := poll, chatMessages := msgs, hasAnswered := answered,
         appState := StudentJoinedScreen(poll, answered))
    case ParticipantJoined(p) => s.(participants := JoinParticipant(s.participants, p))
    case ParticipantUpdated(p) => s.(participants := ReplaceAllById(s.participants, p))
    case PollCreated(p) =>
      s.(currentQuestion := Some(p), hasAnswered := false, selectedAnswer := None, timeLeft := p.timer,
         appState := if s.userRole == Some(Student) then StudentAnswer else LivePoll)
    case PollUpdated(p) => s.(currentQuestion := Some(p))
    case PollEnded(p) =>
      var t := s.(currentQuestion := Some(p), pollHistory := RecordEnded(s.pollHistory, p));
      if s.userRole == Some(Teacher) then t.(appState := TeacherDashboard, activeTab := ResultsTab)
      else t.(appState := Results)
    case AnswerSubmitted(poll) => s.(hasAnswered := true, currentQuestion := poll, appState := Waiting)
    case NewMessage(m) => s.(chatMessages := s.chatMessages + [m])
    case KickedOut => s.(appState := KickedOutView)
  }

  /** What each listener writes: the snapshot a teacher is given replaces the
      lists, a student's snapshot picks the view, a new poll resets the
      answer and restarts the countdown, an answer acknowledged means
      waiting, and a message is appended. */
  lemma ListenerEffects(s: PageState, e: ServerEvent)
    ensures var r := ReceiveAsWritten(s, e);
            && (e.NewMessage? ==> r.chatMessages == s.chatMessages + [e.message])
            && (e.PollCreated? ==>
                  r.currentQuestion == Some(e.created) && !r.hasAnswered && r.selectedAnswer.None?
                  && r.timeLeft == e.created.timer
                  && (r.appState == StudentAnswer <==> s.userRole == Some(Student))
                  && (r.appState != StudentAnswer ==> r.appState == LivePoll))
            && (e.PollUpdated? ==> r == s.(currentQuestion := Some(e.tallied)))
            && (e.AnswerSubmitted? ==> r.hasAnswered && r.appState == Waiting && r.currentQuestion == e.answeredPoll)
            && (e.TeacherJoined? ==>
                  r.participants == e.snapshotParticipants && r.pollHistory == e.snapshotHistory
                  && r.chatMessages == e.snapshotMessages && r.currentQuestion == e.snapshotPoll
                  && (r.appState == LivePoll <==> e.snapshotPoll.Some? && e.snapshotPoll.value.isActive)
                  && (r.appState != LivePoll ==> r.appState == TeacherDashboard))
            && (e.StudentJoined? ==>
                  r.currentQuestion == e.studentPoll && r.hasAnswered == e.alreadyAnswered
                  && r.appState == StudentJoinedScreen(e.studentPoll, e.alreadyAnswered))
            && (e.PollEnded? ==>
                  r.currentQuestion == Some(e.ended) && r.pollHistory == RecordEnded(s.pollHistory, e.ended)
                  && (s.userRole == Some(Teacher) ==> r.appState == TeacherDashboard && r.activeTab == ResultsTab)
                  && (s.userRole != Some(Teacher) ==> r.appState == Results))
  {
  }

  /** The countdown effect exactly as written: for a student with an active
      poll, a positive `timeLeft` goes down by one when the one-second
      timeout fires, and a zero `timeLeft` switches to the results view. */
  function TimerEffectAsWritten(s: PageState): (r: PageState)
    ensures s.userRole != Some(Student) || !PollIsActive(s) ==> r == s
    ensures s.userRole == Some(Student) && PollIsActive(s) && s.timeLeft > 0 ==> r == s.(timeLeft := s.timeLeft - 1)
    ensures s.userRole == Some(Student) && PollIsActive(s) && s.timeLeft == 0 ==> r == s.(appState := Results)
    ensures s.timeLeft < 0 ==> r == s
  {
    if s.userRole == Some(Student) && s.timeLeft > 0 && PollIsActive(s) then s.(timeLeft := s.timeLeft - 1)
    else if s.userRole == Some(Student) && s.timeLeft == 0 && PollIsActive(s) then s.(appState := Results)
    else s
  }

  /** As written, the kicked-out view is not final: a `poll-created`
      broadcast, should it still reach the kicked connection, puts the
      answer view back. */
  lemma KickedOutLeftAsWritten(p: Poll)
    ensures var s := InitialPage.(userRole := Some(Student), appState := KickedOutView);
            ReceiveAsWritten(s, PollCreated(p)).appState == StudentAnswer
  {
  }

  /** As written, the countdown leaves the kicked-out view on its own, with
      no further server event: a student kicked while answering an active
      poll is shown the results once `timeLeft` reaches 0. */
  lemma KickedOutLeftByTimerAsWritten(p: Poll)
    requires p.isActive
    ensures var s := InitialPage.(userRole := Some(Student), appState := KickedOutView, currentQuestion := Some(p));
            TimerEffectAsWritten(s).appState == Results
  {
  }

  /** As written, a student who joins while a poll is running is shown the
      answer view with `timeLeft` still at its initial 0 (only
      `poll-created` sets it), so the countdown moves straight to the
      results before any answer can be given, however much time is left. */
  lemma MidPollJoinSkipsAnswerAsWritten(p: Poll, msgs: seq<ChatMessage>)
    requires p.isActive && p.timer == 60
    ensures var s := InitialPage.(userRole := Some(Student), appState := Waiting);
            var joined := ReceiveAsWritten(s, StudentJoined(Some(p), msgs, false));
            joined.appState == StudentAnswer && !joined.hasAnswered && joined.timeLeft == 0
            && TimerEffectAsWritten(joined).appState == Results
  {
  }

  /** The listeners as the model uses them, with two corrections: the
      kicked-out view is final (as the Redux client's sticky `isKickedOut`
      makes it), and `student-joined` with an active poll sets `timeLeft` to the time
      that poll has left at instant `now` (in milliseconds), as the Redux
      dashboard computes it from `createdAt`. */
  function Receive(s: PageState, e: ServerEvent, now: int): (r: PageState)
    ensures s.appState == KickedOutView ==> r.appState == KickedOutView
    ensures s.appState != KickedOutView && !e.StudentJoined? ==> r == ReceiveAsWritten(s, e)
    ensures e.StudentJoined? && e.studentPoll.Some? && e.studentPoll.value.isActive ==>
              r.timeLeft == StudentDashboard.RemainingSeconds(e.studentPoll.value.createdAt, e.studentPoll.value.timer, now)
    ensures !(e.StudentJoined? && e.studentPoll.Some? && e.studentPoll.value.isActive) ==>
              r.timeLeft == ReceiveAsWritten(s, e).timeLeft
    ensures r.participants == ReceiveAsWritten(s, e).participants
    ensures r.pollHistory == ReceiveAsWritten(s, e).pollHistory
    ensures r == ReceiveAsWritten(s, e).(timeLeft := r.timeLeft, appState := r.appState)
    ensures s.appState != KickedOutView ==> r.appState == ReceiveAsWritten(s, e).appState
  {
    var r0 := ReceiveAsWritten(s, e);
    var r1 := if e.StudentJoined? && e.studentPoll.Some? && e.studentPoll.value.isActive then
                r0.(timeLeft := StudentDashboard.RemainingSeconds(e.studentPoll.value.createdAt, e.studentPoll.value.timer, now))
              else r0;
    if s.appState == KickedOutView then r1.(appState := KickedOutView) else r1
  }

  /** The countdown as the model uses it: as written, except that it leaves a
      kicked-out client alone. */
  function TimerEffect(s: PageState): (r: PageState)
    ensures s.appState == KickedOutView ==> r == s
    ensures s.appState != KickedOutView ==> r == TimerEffectAsWritten(s)
  {
    if s.appState == KickedOutView then s else TimerEffectAsWritten(s)
  }

  /** Corrected: a student joining a poll that has time left can answer it. */
  lemma MidPollJoinCanAnswer(s: PageState, p: Poll, msgs: seq<ChatMessage>, now: int)
    requires s.userRole == Some(Student) && s.appState != KickedOutView && p.isActive
    requires StudentDashboard.RemainingSeconds(p.createdAt, p.timer, now) > 0
    ensures var joined := Receive(s, StudentJoined(Some(p), msgs, false), now);
            joined.appState == StudentAnswer && TimerEffect(joined).appState == StudentAnswer
  {
  }

  /** `n` runs of the countdown effect. */
  function Ticks(s: PageState, n: nat): PageState
    decreases n
  {
    if n == 0 then s else Ticks(TimerEffect(s), n - 1)
  }

  /** A student facing an active poll with `timeLeft == n` reaches the
      results after `n + 1` runs of the effect, with only `timeLeft` (now 0)
      and the view changed. */
  lemma {:induction false} CountdownReachesResults(s: PageState, n: nat)
    requires s.userRole == Some(Student) && PollIsActive(s) && s.appState != KickedOutView && s.timeLeft == n
    ensures Ticks(s, n + 1) == s.(timeLeft := 0, appState := Results)
    decreases n
  {
    if n > 0 {
      var t := TimerEffect(s);
      assert t == s.(timeLeft := n - 1);
      CountdownReachesResults(t, n - 1);
    }
  }

  /** One input to the client: a server event received at instant `now`, a
      run of the countdown effect, or a user action. */
  datatype Step = Event(event: ServerEvent, now: int) | Tick | Ui(action: UiAction)

  /** The buttons, inputs and selects of the page. */
  datatype UiAction =
    | ChooseRole(role: Role)
    | ConfirmRole  // Continue: confirms the role already chosen, disabled while there is none
    | EditName(text: string)
    | ConfirmStudent
    | ConfirmTeacher
    | EditQuestion(questionText: string)
    | ChooseTimer(seconds: int)
    | AddOptionRow
    | EditOption(optionIndex: int, value: string)
    | MarkCorrect(answerIndex: int, isCorrect: bool)
    | AskQuestion(pollId: string)
    | PickAnswer(picked: nat)
    | ConfirmAnswer
    | KickParticipant(participantId: string)
    | StartNewQuestion
    | EditChat(chatText: string)
    | SendChat
    | ShowChat(open: bool)
    | ChooseTab(tab: Tab)
    | BackToDashboard

  /** The new state after a user action, and the request it emits, if any. */
  datatype Outcome = Outcome(state: PageState, emitted: Option<ClientRequest>)

  /** `handleStudentSetup`: joins under the trimmed name, if it is not blank. */
  function StudentSetupStep(s: PageState): (r: Outcome)
    ensures r.emitted.Some? <==> !IsBlank(s.studentName)
    ensures r.emitted.Some? ==> r.emitted.value == JoinAsStudent(Trim(s.studentName)) && r.state == s.(appState := Waiting)
    ensures r.emitted.Some? ==> !IsBlank(r.emitted.value.name)
    ensures r.emitted.None? ==> r.state == s
  {
    var name := Trim(s.studentName);
    if name != [] then
      TrimIdempotent(s.studentName);
      Outcome(s.(appState := Waiting), Some(JoinAsStudent(name)))
    else Outcome(s, None)
  }

  /** `startQuestion`: when the editor's guard holds, emits `create-poll`,
      resets the editor to its initial form and shows the live poll. */
  function StartQuestionStep(s: PageState, id: string): (r: Outcome)
    ensures r.emitted.Some? <==> CanSubmit(s.newQuestion)
    ensures r.emitted.Some? ==>
              r.emitted.value == CreatePoll(Submit(s.newQuestion, id).value)
              && r.state == s.(newQuestion := InitialForm, appState := LivePoll)
    ensures r.emitted.None? ==> r.state == s
  {
    var draft := Submit(s.newQuestion, id);
    if draft.Some? then Outcome(s.(newQuestion := InitialForm, appState := LivePoll), Some(CreatePoll(draft.value)))
    else Outcome(s, None)
  }

  /** `submitAnswer`: emits the selected index when there is a selection and
      a current poll; the state is left to the server's reply. */
  function SubmitAnswerRequest(s: PageState): (r: Option<ClientRequest>)
    ensures r.Some? <==> s.selectedAnswer.Some? && s.currentQuestion.Some?
    ensures r.Some? ==> r.value.SubmitAnswer? && r.value.optionIndex == s.selectedAnswer.value
  {
    if s.selectedAnswer.Some? && s.currentQuestion.Some? then Some(SubmitAnswer(s.selectedAnswer.value)) else None
  }

  /** `sendMessage`: sends the trimmed input, if it is not blank, and clears it. */
  function SendMessageStep(s: PageState): (r: Outcome)
    ensures r.emitted.Some? <==> !IsBlank(s.chatInput)
    ensures r.emitted.Some? ==> r.emitted.value == SendMessage(Trim(s.chatInput)) && r.state == s.(chatInput := "")
    ensures r.emitted.Some? ==> !IsBlank(r.emitted.value.text)
    ensures r.emitted.None? ==> r.state == s
  {
    var text := Trim(s.chatInput);
    if text != [] then
      TrimIdempotent(s.chatInput);
      Outcome(s.(chatInput := ""), Some(SendMessage(text)))
    else Outcome(s, None)
  }

  /** The handlers. A handler whose guard fails changes nothing and emits
      nothing; no handler touches the lists the server sends or the
      countdown, and only "create a new question" drops the current poll. */
  function OnUi(s: PageState, a: UiAction): (r: Outcome)
    ensures a.ConfirmStudent? ==> r == StudentSetupStep(s)
    ensures a.AskQuestion? ==> r == StartQuestionStep(s, a.pollId)
    ensures a.SendChat? ==> r == SendMessageStep(s)
    ensures a.ConfirmTeacher? ==> r.emitted == Some(JoinAsTeacher) && r.state == s.(appState := TeacherDashboard)
    ensures a.ConfirmAnswer? ==> r.emitted == SubmitAnswerRequest(s) && r.state == s
    ensures a.KickParticipant? ==> r.emitted == Some(KickStudent(a.participantId)) && r.state == s
    ensures !(a.ConfirmStudent? || a.ConfirmTeacher? || a.AskQuestion? || a.ConfirmAnswer? || a.KickParticipant? || a.SendChat?)
            ==> r.emitted.None?
    ensures a.AddOptionRow? ==> r.state == s.(newQuestion := AddedOption(s.newQuestion))
    ensures a.EditOption? ==> r.state == s.(newQuestion := UpdatedOption(s.newQuestion, a.optionIndex, a.value))
    ensures a.MarkCorrect? ==> r.state == s.(newQuestion := UpdatedCorrectAnswer(s.newQuestion, a.answerIndex, a.isCorrect))
  {
    match a
    case ChooseRole(role) => Outcome(s.(userRole := Some(role)), None)
    case ConfirmRole => if s.userRole.Some? then Outcome(s.(appState := Setup), None) else Outcome(s, None)
    case EditName(text) => Outcome(s.(studentName := text), None)
    case ConfirmStudent => StudentSetupStep(s)
    case ConfirmTeacher => Outcome(s.(appState := TeacherDashboard), Some(JoinAsTeacher))
    case EditQuestion(text) => Outcome(s.(newQuestion := s.newQuestion.(question := text)), None)
    case ChooseTimer(seconds) => Outcome(s.(newQuestion := s.newQuestion.(timer := seconds)), None)
    case AddOptionRow => Outcome(s.(newQuestion := AddedOption(s.newQuestion)), None)
    case EditOption(index, value) => Outcome(s.(newQuestion := UpdatedOption(s.newQuestion, index, value)), None)
    case MarkCorrect(index, isCorrect) =>
      Outcome(s.(newQuestion := UpdatedCorrectAnswer(s.newQuestion, index, isCorrect)), None)
    case AskQuestion(id) => StartQuestionStep(s, id)
    case PickAnswer(index) => Outcome(s.(selectedAnswer := Some(index)), None)
    case ConfirmAnswer => Outcome(s, SubmitAnswerRequest(s))
    case KickParticipant(id) => Outcome(s, Some(KickStudent(id)))
    case StartNewQuestion =>
      Outcome(s.(appState := CreateQuestion, currentQuestion := None, hasAnswered := false,
                 selectedAnswer := None, activeTab := LiveTab), None)
    case EditChat(text) => Outcome(s.(chatInput := text), None)
    case SendChat => SendMessageStep(s)
    case ShowChat(open) => Outcome(s.(showChat := open), None)
    case ChooseTab(tab) => Outcome(s.(activeTab := tab), None)
    case BackToDashboard => Outcome(s.(appState := TeacherDashboard), None)
  }

  /** What each handler that emits nothing does: it writes the fields its
      setters name and leaves every other field as it was. */
  lemma HandlerEffects(s: PageState, a: UiAction)
    ensures a.ChooseRole? ==> OnUi(s, a).state == s.(userRole := Some(a.role))
    ensures a.ConfirmRole? && s.userRole.Some? ==> OnUi(s, a).state == s.(appState := Setup)
    ensures a.ConfirmRole? && s.userRole.None? ==> OnUi(s, a).state == s
    ensures a.EditName? ==> OnUi(s, a).state == s.(studentName := a.text)
    ensures a.EditQuestion? ==> OnUi(s, a).state == s.(newQuestion := s.newQuestion.(question := a.questionText))
    ensures a.ChooseTimer? ==> OnUi(s, a).state == s.(newQuestion := s.newQuestion.(timer := a.seconds))
    ensures a.PickAnswer? ==> OnUi(s, a).state == s.(selectedAnswer := Some(a.picked))
    ensures a.StartNewQuestion? ==>
              OnUi(s, a).state == s.(appState := CreateQuestion, currentQuestion := None, hasAnswered := false,
                                     selectedAnswer := None, activeTab := LiveTab)
    ensures a.EditChat? ==> OnUi(s, a).state == s.(chatInput := a.chatText)
    ensures a.ShowChat? ==> OnUi(s, a).state == s.(showChat := a.open)
    ensures a.ChooseTab? ==> OnUi(s, a).state == s.(activeTab := a.tab)
    ensures a.BackToDashboard? ==> OnUi(s, a).state == s.(appState := TeacherDashboard)
  {
  }

  /** What the handlers leave alone: only the two guarded join and chat
      handlers, asking a question, submitting, kicking and the teacher's join
      emit; none touches the lists the server sends or the countdown; only
      "create a new question" drops the current poll; the editor stays well
      formed unless the timer is set to a value the select box does not
      offer. */
  lemma HandlersFrame(s: PageState, a: UiAction)
    ensures var r := OnUi(s, a);
            && (r.emitted.Some? ==>
                  a.ConfirmStudent? || a.ConfirmTeacher? || a.AskQuestion? || a.ConfirmAnswer? || a.KickParticipant? || a.SendChat?)
            && (r.state.userRole != s.userRole ==> a.ChooseRole?)
            && r.state.pollHistory == s.pollHistory && r.state.participants == s.participants
            && r.state.chatMessages == s.chatMessages && r.state.timeLeft == s.timeLeft
            && (r.state.currentQuestion != s.currentQuestion ==> a.StartNewQuestion? && r.state.currentQuestion.None?)
            && (WellFormed(s.newQuestion) && !(a.ChooseTimer? && a.seconds !in TimerChoices) ==> WellFormed(r.state.newQuestion))
  {
    if a.AskQuestion? {
      InitialFormWellFormed();
    }
  }

  /** The state after a sequence of steps. */
  function PageRun(s: PageState, steps: seq<Step>): PageState
    decreases |steps|
  {
    if steps == [] then s
    else
      var next := match steps[0]
        case Event(e, now) => Receive(s, e, now)
        case Tick => TimerEffect(s)
        case Ui(a) => OnUi(s, a).state;
      PageRun(next, steps[1..])
  }

  /** No two participants share an id and no two recorded polls share an id. */
  predicate Consistent(s: PageState) {
    DistinctParticipantIds(s.participants) && DistinctPollIds(s.pollHistory)
  }

  /** A snapshot a teacher receives from the server lists distinct ids. */
  predicate TrustedSnapshots(steps: seq<Step>) {
    forall i :: 0 <= i < |steps| && steps[i].Event? && steps[i].event.TeacherJoined? ==>
      DistinctParticipantIds(steps[i].event.snapshotParticipants) && DistinctPollIds(steps[i].event.snapshotHistory)
  }

  lemma ReceiveKeepsConsistent(s: PageState, e: ServerEvent, now: int)
    requires Consistent(s)
    requires e.TeacherJoined? ==> DistinctParticipantIds(e.snapshotParticipants) && DistinctPollIds(e.snapshotHistory)
    ensures Consistent(Receive(s, e, now))
  {
    if e.ParticipantUpdated? {
      var r := ReplaceAllById(s.participants, e.updated);
      assert forall i :: 0 <= i < |r| ==> r[i].id == s.participants[i].id;
    }
  }

  /** The client's own deduplication keeps participant and history ids
      distinct over any run, as long as the snapshots it is given are. */
  lemma {:induction false} RunKeepsConsistent(s: PageState, steps: seq<Step>)
    requires Consistent(s) && TrustedSnapshots(steps)
    ensures Consistent(PageRun(s, steps))
    decreases |steps|
  {
    if steps != [] {
      var next := match steps[0]
        case Event(e, now) => Receive(s, e, now)
        case Tick => TimerEffect(s)
        case Ui(a) => OnUi(s, a).state;
      if steps[0].Event? {
        ReceiveKeepsConsistent(s, steps[0].event, steps[0].now);
      }
      if steps[0].Ui? {
        HandlersFrame(s, steps[0].action);
      }
      assert TrustedSnapshots(steps[1..]) by {
        forall i | 0 <= i < |steps[1..]|
          ensures steps[1..][i] == steps[i + 1]
        {
        }
      }
      RunKeepsConsistent(next, steps[1..]);
    }
  }

  /** Corrected: once kicked out, no server event and no run of the
      countdown leaves the kicked-out view. */
  lemma {:induction false} KickedOutIsFinal(s: PageState, steps: seq<Step>)
    requires s.appState == KickedOutView
    requires forall i :: 0 <= i < |steps| ==> !steps[i].Ui?
    ensures PageRun(s, steps).appState == KickedOutView
    decreases |steps|
  {
    if steps != [] {
      var next := match steps[0]
        case Event(e, now) => Receive(s, e, now)
        case Tick => TimerEffect(s)
        case Ui(a) => OnUi(s, a).state;
      assert !steps[0].Ui?;
      assert next.appState == KickedOutView;
      assert forall i :: 0 <= i < |steps[1..]| ==> steps[1..][i] == steps[i + 1];
      KickedOutIsFinal(next, steps[1..]);
    }
  }

  /** `poll-ended` is idempotent and adds at most one poll to the history. */
  lemma PollEndedIdempotent(s: PageState, p: Poll, now: int)
    ensures var r := Receive(s, PollEnded(p), now);
            Receive(r, PollEnded(p), now) == r
            && (r.pollHistory == s.pollHistory || r.pollHistory == [p] + s.pollHistory)
            && HasPollId(r.pollHistory, p.id)
  {
  }

  /** The two clients differ on a repeated `participant-joined`: page.tsx
      keeps its list, the Redux slice appends a second entry with that id. */
  lemma ParticipantJoinedDiverges(s: PageState, t: ReduxApp.RootState, p: Participant, now: int)
    requires HasParticipantId(s.participants, p.id) && t.poll.participants == s.participants
    ensures Receive(s, ParticipantJoined(p), now).participants == s.participants
    ensures !DistinctParticipantIds(ReduxApp.Handle(t, ParticipantJoined(p)).poll.participants)
  {
    ReduxApp.ParticipantJoinedCanDuplicate(t, p);
  }

  /** The component's state, updated in place by its listeners and handlers. */
  class IntervuePollSystem {
    var userRole: Option<Role>
    var appState: AppState
    var studentName: string
    var currentQuestion: Option<Poll>
    var pollHistory: seq<Poll>
    var participants: seq<Participant>
    var selectedAnswer: Option<nat>
    var hasAnswered: bool
    var timeLeft: int
    var chatMessages: seq<ChatMessage>
    var chatInput: string
    var showChat: bool
    var activeTab: Tab
    var newQuestion: Form

    function State(): PageState
      reads this
    {
      PageState(userRole, appState, studentName, currentQuestion, pollHistory, participants, selectedAnswer,
                hasAnswered, timeLeft, chatMessages, chatInput, showChat, activeTab, newQuestion)
    }

    constructor ()
      ensures State() == InitialPage
    {
      userRole, appState, studentName, currentQuestion := None, Welcome, "", None;
      pollHistory, participants, selectedAnswer, hasAnswered := [], [], None, false;
      timeLeft, chatMessages, chatInput, showChat := 0, [], "", false;
      activeTab, newQuestion := LiveTab, InitialForm;
    }

    /** `teacher-joined`. */
    method OnTeacherJoined(poll: Option<Poll>, ps: seq<Participant>, msgs: seq<ChatMessage>, history: seq<Poll>)
      modifies this
      ensures State() == ReceiveAsWritten(old(State()), TeacherJoined(poll, ps, msgs, history))
    {
      currentQuestion := poll;
      participants := ps;
      chatMessages := msgs;
      pollHistory := history;
      if poll.Some? && poll.value.isActive {
        appState := LivePoll;
      } else {
        appState := TeacherDashboard;
      }
    }

    /** `student-joined`. */
    method OnStudentJoined(poll: Option<Poll>, msgs: seq<ChatMessage>, answered: bool)
      modifies this
      ensures State() == ReceiveAsWritten(old(State()), StudentJoined(poll, msgs, answered))
    {
      currentQuestion := poll;
      chatMessages := msgs;
      hasAnswered := answered;
      appState := StudentJoinedScreen(poll, answered);
    }

    /** `poll-created`. */
    method OnPollCreated(p: Poll)
      modifies this
      ensures State() == ReceiveAsWritten(old(State()), PollCreated(p))
    {
      currentQuestion := Some(p);
      hasAnswered := false;
      selectedAnswer := None;
      timeLeft := p.timer;
      if userRole == Some(Student) {
        appState := StudentAnswer;
      } else {
        appState := LivePoll;
      }
    }

    /** `poll-ended`. */
    method OnPollEnded(p: Poll)
      modifies this
      ensures State() == ReceiveAsWritten(old(State()), PollEnded(p))
    {
      currentQuestion := Some(p);
      pollHistory := RecordEnded(pollHistory, p);
      if userRole == Some(Teacher) {
        appState := TeacherDashboard;
        activeTab := ResultsTab;
      } else {
        appState := Results;
      }
    }

    /** `answer-submitted`. */
    method OnAnswerSubmitted(poll: Option<Poll>)
      modifies this
      ensures State() == ReceiveAsWritten(old(State()), AnswerSubmitted(poll))
    {
      hasAnswered := true;
      currentQuestion := poll;
      appState := Waiting;
    }

    /** Every listener as app/page.tsx writes it; the one-line listeners
        are written out here. */
    method Listen(e: ServerEvent)
      modifies this
      ensures State() == ReceiveAsWritten(old(State()), e)
    {
      match e {
        case TeacherJoined(poll, ps, msgs, history) => OnTeacherJoined(poll, ps, msgs, history);
        case StudentJoined(poll, msgs, answered) => OnStudentJoined(poll, msgs, answered);
        case ParticipantJoined(p) => participants := JoinParticipant(participants, p);
        case ParticipantUpdated(p) => participants := ReplaceAllById(participants, p);
        case PollCreated(p) => OnPollCreated(p);
        case PollUpdated(p) => currentQuestion := Some(p);
        case PollEnded(p) => OnPollEnded(p);
        case AnswerSubmitted(poll) => OnAnswerSubmitted(poll);
        case NewMessage(m) => chatMessages := chatMessages + [m];
        case KickedOut => appState := KickedOutView;
      }
    }

    /** The listener for `e`, received at instant `now`, with the two
        corrections of Receive. */
    method OnServerEvent(e: ServerEvent, now: int)
      modifies this
      ensures State() == Receive(old(State()), e, now)
    {
      var kicked := appState == KickedOutView;
      Listen(e);
      if e.StudentJoined? && e.studentPoll.Some? && e.studentPoll.value.isActive {
        timeLeft := StudentDashboard.RemainingSeconds(e.studentPoll.value.createdAt, e.studentPoll.value.timer, now);
      }
      if kicked {
        appState := KickedOutView;
      }
    }

    /** One run of the countdown effect. */
    method TimerFires()
      modifies this
      ensures State() == TimerEffect(old(State()))
    {
      if appState != KickedOutView && userRole == Some(Student) && currentQuestion.Some? && currentQuestion.value.isActive {
        if timeLeft > 0 {
          timeLeft := timeLeft - 1;
        } else if timeLeft == 0 {
          appState := Results;
        }
      }
    }

    /** A role card on the welcome screen. */
    method SelectRole(role: Role)
      modifies this
      ensures State() == old(State()).(userRole := Some(role))
      ensures State() == OnUi(old(State()), ChooseRole(role)).state
    {
      userRole := Some(role);
    }

    /** `handleRoleSelection`, called by the Continue button with the role
        already chosen; the button is disabled while there is none. */
    method HandleRoleSelection()
      requires userRole.Some?
      modifies this
      ensures State() == old(State()).(appState := Setup)
      ensures State() == OnUi(old(State()), ConfirmRole).state
    {
      appState := Setup;
    }

    method SetStudentName(text: string)
      modifies this
      ensures State() == old(State()).(studentName := text)
      ensures State() == OnUi(old(State()), EditName(text)).state
    {
      studentName := text;
    }

    method HandleStudentSetup() returns (emitted: Option<ClientRequest>)
      modifies this
      ensures State() == StudentSetupStep(old(State())).state && emitted == StudentSetupStep(old(State())).emitted
      ensures State() == OnUi(old(State()), ConfirmStudent).state
      ensures emitted == OnUi(old(State()), ConfirmStudent).emitted
    {
      var name := Trim(studentName);
      emitted := None;
      if name != [] {
        emitted := Some(JoinAsStudent(name));
        appState := Waiting;
      }
    }

    method HandleTeacherSetup() returns (emitted: Option<ClientRequest>)
      modifies this
      ensures State() == old(State()).(appState := TeacherDashboard) && emitted == Some(JoinAsTeacher)
      ensures State() == OnUi(old(State()), ConfirmTeacher).state
      ensures emitted == OnUi(old(State()), ConfirmTeacher).emitted
    {
      emitted := Some(JoinAsTeacher);
      appState := TeacherDashboard;
    }

    method SetQuestionText(text: string)
      modifies this
      ensures State() == old(State()).(newQuestion := old(newQuestion).(question := text))
      ensures State() == OnUi(old(State()), EditQuestion(text)).state
    {
      newQuestion := newQuestion.(question := text);
    }

    method SetTimer(seconds: int)
      modifies this
      ensures State() == old(State()).(newQuestion := old(newQuestion).(timer := seconds))
      ensures State() == OnUi(old(State()), ChooseTimer(seconds)).state
    {
      newQuestion := newQuestion.(timer := seconds);
    }

    method AddOption()
      modifies this
      ensures State() == old(State()).(newQuestion := AddedOption(old(newQuestion)))
      ensures State() == OnUi(old(State()), AddOptionRow).state
    {
      newQuestion := AddedOption(newQuestion);
    }

    method UpdateOption(index: int, value: string)
      modifies this
      ensures State() == old(State()).(newQuestion := UpdatedOption(old(newQuestion), index, value))
      ensures State() == OnUi(old(State()), EditOption(index, value)).state
    {
      newQuestion := UpdatedOption(newQuestion, index, value);
    }

    method UpdateCorrectAnswer(index: int, isCorrect: bool)
      modifies this
      ensures State() == old(State()).(newQuestion := UpdatedCorrectAnswer(old(newQuestion), index, isCorrect))
      ensures State() == OnUi(old(State()), MarkCorrect(index, isCorrect)).state
    {
      newQuestion := UpdatedCorrectAnswer(newQuestion, index, isCorrect);
    }

    /** `startQuestion`; `id` stands for `Date.now().toString()`. */
    method StartQuestion(id: string) returns (emitted: Option<ClientRequest>)
      modifies this
      ensures emitted == StartQuestionStep(old(State()), id).emitted
      ensures emitted.Some? ==> State() == old(State()).(newQuestion := InitialForm, appState := LivePoll)
      ensures emitted.None? ==> State() == old(State())
      ensures State() == OnUi(old(State()), AskQuestion(id)).state
      ensures emitted == OnUi(old(State()), AskQuestion(id)).emitted
    {
      var draft := Submit(newQuestion, id);
      emitted := None;
      if draft.Some? {
        emitted := Some(CreatePoll(draft.value));
        ShowLivePoll();
      }
    }

    /** The editor reset and the switch to the live view that follow a
        `create-poll` request. */
    method ShowLivePoll()
      modifies this
      ensures State() == old(State()).(newQuestion := InitialForm, appState := LivePoll)
    {
      newQuestion := InitialForm;
      appState := LivePoll;
    }

    method SelectAnswer(index: nat)
      modifies this
      ensures State() == old(State()).(selectedAnswer := Some(index))
      ensures State() == OnUi(old(State()), PickAnswer(index)).state
    {
      selectedAnswer := Some(index);
    }

    /** `submitAnswer` only emits; the state changes when the server answers. */
    method SubmitSelectedAnswer() returns (emitted: Option<ClientRequest>)
      ensures emitted.Some? <==> selectedAnswer.Some? && currentQuestion.Some?
      ensures emitted.Some? ==> emitted.value == SubmitAnswer(selectedAnswer.value)
      ensures emitted == OnUi(State(), ConfirmAnswer).emitted
    {
      emitted := None;
      if selectedAnswer.Some? && currentQuestion.Some? {
        emitted := Some(SubmitAnswer(selectedAnswer.value));
      }
    }

    method KickOutParticipant(participantId: string) returns (emitted: Option<ClientRequest>)
      ensures emitted == Some(KickStudent(participantId))
      ensures emitted == OnUi(State(), KickParticipant(participantId)).emitted
    {
      emitted := Some(KickStudent(participantId));
    }

    method CreateNewQuestion()
      modifies this
      ensures State() == old(State()).(appState := CreateQuestion, currentQuestion := None, hasAnswered := false,
                                   selectedAnswer := None, activeTab := LiveTab)
      ensures State() == OnUi(old(State()), StartNewQuestion).state
    {
      appState := CreateQuestion;
      currentQuestion := None;
      hasAnswered := false;
      selectedAnswer := None;
      activeTab := LiveTab;
    }

    method SetChatInput(text: string)
      modifies this
      ensures State() == old(State()).(chatInput := text)
      ensures State() == OnUi(old(State()), EditChat(text)).state
    {
      chatInput := text;
    }

    method SendChatMessage() returns (emitted: Option<ClientRequest>)
      modifies this
      ensures State() == SendMessageStep(old(State())).state && emitted == SendMessageStep(old(State())).emitted
      ensures State() == OnUi(old(State()), SendChat).state
      ensures emitted == OnUi(old(State()), SendChat).emitted
    {
      var text := Trim(chatInput);
      emitted := None;
      if text != [] {
        emitted := Some(SendMessage(text));
        chatInput := "";
      }
    }

    method SetShowChat(open: bool)
      modifies this
      ensures State() == old(State()).(showChat := open)
      ensures State() == OnUi(old(State()), ShowChat(open)).state
    {
      showChat := open;
    }

    method SetActiveTab(tab: Tab)
      modifies this
      ensures State() == old(State()).(activeTab := tab)
      ensures State() == OnUi(old(State()), ChooseTab(tab)).state
    {
      activeTab := tab;
    }

    /** The back buttons of the editor and the live view. */
    method ReturnToDashboard()
      modifies this
      ensures State() == old(State()).(appState := TeacherDashboard)
      ensures State() == OnUi(old(State()), BackToDashboard).state
    {
      appState := TeacherDashboard;
    }
  }
}
