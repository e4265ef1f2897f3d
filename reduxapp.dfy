/** src/App.js: the Redux client. Every socket event is handled by a fixed
    sequence of dispatches to the three slices, the setup screens dispatch
    their own, and the screen shown is a priority choice over the user
    slice. */
module ReduxApp {
  import opened Domain
  import opened PollSlice
  import opened UserSlice
  import opened ChatSlice

  /** The root state of the store: one record per slice. */
  datatype RootState = RootState(poll: PollState, user: UserState, chat: ChatState)

  const InitialRootState: RootState := RootState(InitialPollState, InitialUserState, InitialChatState)

  /** A dispatched action, tagged with the slice that handles it. */
  datatype Action = PollA(pollAction: PollAction) | UserA(userAction: UserAction) | ChatA(chatAction: ChatAction)

  function Apply(s: RootState, a: Action): RootState {
    match a
    case PollA(x) => s.(poll := PollReduce(s.poll, x))
    case UserA(x) => s.(user := UserReduce(s.user, x))
    case ChatA(x) => s.(chat := ChatReduce(s.chat, x))
  }

  /** The store after one socket event: each listener's dispatches, applied
      in the order it makes them. */
  function Handle(s: RootState, e: ServerEvent): (r: RootState)
    ensures e.PollCreated? ==> r.poll.currentPoll == Some(e.created) && !r.user.hasAnswered
                               && r.poll.pollHistory == s.poll.pollHistory
    ensures e.PollUpdated? && s.poll.currentPoll.None? ==> r == s
    ensures e.PollUpdated? && s.poll.currentPoll.Some? ==>
              r.poll.currentPoll == Some(s.poll.currentPoll.value.(responses := e.tallied.responses,
                                                                   totalResponses := e.tallied.totalResponses))
              && r.poll.(currentPoll := s.poll.currentPoll) == s.poll && r.user == s.user && r.chat == s.chat
    ensures e.PollEnded? ==>
              r.poll.currentPoll == Some(e.ended)
              && r.poll.pollHistory == (if s.poll.currentPoll.Some?
                                        then [s.poll.currentPoll.value.(isActive := false)] + s.poll.pollHistory
                                        else s.poll.pollHistory)
    ensures e.AnswerSubmitted? ==> r.user.hasAnswered && r.poll.currentPoll == e.answeredPoll
    ensures e.NewMessage? ==>
              r == s.(chat := s.chat.(messages := s.chat.messages + [e.message], unreadCount := s.chat.unreadCount + 1))
    ensures e.KickedOut? ==> r == s.(user := s.user.(isKickedOut := true))
    ensures e.TeacherJoined? ==>
              r == s.(poll := s.poll.(currentPoll := e.snapshotPoll, participants := e.snapshotParticipants,
                                      pollHistory := e.snapshotHistory),
                      chat := s.chat.(messages := e.snapshotMessages))
    ensures e.StudentJoined? ==>
              r == s.(poll := s.poll.(currentPoll := e.studentPoll),
                      chat := s.chat.(messages := e.studentMessages),
                      user := s.user.(hasAnswered := e.alreadyAnswered))
    ensures e.ParticipantUpdated? ==>
              r == s.(poll := s.poll.(participants := ReplaceFirstById(s.poll.participants, e.updated)))
    ensures e.ParticipantJoined? ==> r.poll.participants == s.poll.participants + [e.joined]
    ensures e.PollCreated? ==>
              r == s.(poll := s.poll.(currentPoll := Some(e.created)), user := s.user.(hasAnswered := false))
    ensures e.PollEnded? ==>
              r == s.(poll := s.poll.(currentPoll := Some(e.ended),
                                      pollHistory := if s.poll.currentPoll.Some?
                                                     then [s.poll.currentPoll.value.(isActive := false)] + s.poll.pollHistory
                                                     else s.poll.pollHistory))
    ensures e.AnswerSubmitted? ==>
              r == s.(poll := s.poll.(currentPoll := e.answeredPoll), user := s.user.(hasAnswered := true))
    ensures e.ParticipantJoined? ==> r == s.(poll := s.poll.(participants := s.poll.participants + [e.joined]))
    ensures r.user.role == s.user.role && r.user.isAuthenticated == s.user.isAuthenticated
    ensures s.user.isKickedOut ==> r.user.isKickedOut
    ensures r.user.isKickedOut <==> s.user.isKickedOut || e.KickedOut?
    ensures !e.NewMessage? ==> r.chat.unreadCount == s.chat.unreadCount
    ensures !e.NewMessage? && !IsJoin(e) ==> r.chat.messages == s.chat.messages
  {
    match e
    case TeacherJoined(p, ps, ms, h) =>
      Apply(Apply(Apply(Apply(s, PollA(SetCurrentPoll(p))), PollA(SetParticipants(ps))), ChatA(SetMessages(ms))),
            PollA(SetPollHistory(h)))
    case StudentJoined(p, ms, answered) =>
      Apply(Apply(Apply(s, PollA(SetCurrentPoll(p))), ChatA(SetMessages(ms))), UserA(SetHasAnswered(answered)))
    case ParticipantJoined(p) => Apply(s, PollA(AddParticipant(p)))
    case ParticipantUpdated(p) => Apply(s, PollA(UpdateParticipant(p)))
    case PollCreated(p) => Apply(Apply(s, PollA(SetCurrentPoll(Some(p)))), UserA(SetHasAnswered(false)))
    case PollUpdated(p) => Apply(s, PollA(UpdatePollResults(p.responses, p.totalResponses)))
    case PollEnded(p) => Apply(Apply(s, PollA(EndPoll)), PollA(SetCurrentPoll(Some(p))))
    case AnswerSubmitted(p) => Apply(Apply(s, UserA(SetHasAnswered(true))), PollA(SetCurrentPoll(p)))
    case NewMessage(m) => Apply(s, ChatA(AddMessage(m)))
    case KickedOut => Apply(s, UserA(SetKickedOut(true)))
  }

  /** The store after a sequence of socket events. */
  function Run(s: RootState, events: seq<ServerEvent>): RootState
    decreases |events|
  {
    if events == [] then s else Run(Handle(s, events[0]), events[1..])
  }

  /** The five screens AppContent can render. */
  datatype Screen = KickedOutScreen | WelcomeScreen | SetupScreen | TeacherDashboardScreen | StudentDashboardScreen

  /** Kicked out first, then no role, then not authenticated, then by role.
      The role is only ever "teacher" or "student", so the final "Loading..."
      fallback cannot be reached. */
  function ScreenFor(u: UserState): (r: Screen)
    ensures r == KickedOutScreen <==> u.isKickedOut
    ensures r == WelcomeScreen <==> !u.isKickedOut && u.role.None?
    ensures r == SetupScreen <==> !u.isKickedOut && u.role.Some? && !u.isAuthenticated
    ensures r == TeacherDashboardScreen <==> !u.isKickedOut && u.role == Some(Teacher) && u.isAuthenticated
    ensures r == StudentDashboardScreen <==> !u.isKickedOut && u.role == Some(Student) && u.isAuthenticated
  {
    if u.isKickedOut then KickedOutScreen
    else if u.role.None? then WelcomeScreen
    else if !u.isAuthenticated then SetupScreen
    else if u.role.value == Teacher then TeacherDashboardScreen
    else
      assert u.role.value.Student?;
      StudentDashboardScreen
  }

  predicate HasKickedOut(events: seq<ServerEvent>) {
    exists i :: 0 <= i < |events| && events[i].KickedOut?
  }

  /** Socket events never change the role or authentication, so the only
      screen change they can cause is to the kicked-out screen, and from there
      there is no way back. */
  lemma {:induction false} ScreenAfterEvents(s: RootState, events: seq<ServerEvent>)
    ensures ScreenFor(Run(s, events).user) ==
              if s.user.isKickedOut || HasKickedOut(events) then KickedOutScreen else ScreenFor(s.user)
    decreases |events|
  {
    if events != [] {
      var t := Handle(s, events[0]);
      ScreenAfterEvents(t, events[1..]);
      assert HasKickedOut(events) <==> events[0].KickedOut? || HasKickedOut(events[1..]) by {
        if HasKickedOut(events[1..]) {
          var i :| 0 <= i < |events[1..]| && events[1..][i].KickedOut?;
          assert events[i + 1].KickedOut?;
        }
        if HasKickedOut(events) && !events[0].KickedOut? {
          var i :| 0 <= i < |events| && events[i].KickedOut?;
          assert events[1..][i - 1].KickedOut?;
        }
      }
    }
  }

  function Repeat(e: ServerEvent, n: nat): (r: seq<ServerEvent>)
    ensures |r| == n && forall i :: 0 <= i < n ==> r[i] == e
  {
    if n == 0 then [] else [e] + Repeat(e, n - 1)
  }

  /** `endPoll` has no duplicate check: the same `poll-ended` event delivered
      n times grows the history by n entries (n - 1 when there was no current
      poll before the first one). */
  lemma {:induction false} RepeatedPollEndedGrowsHistory(s: RootState, p: Poll, n: nat)
    ensures |Run(s, Repeat(PollEnded(p), n)).poll.pollHistory| ==
              |s.poll.pollHistory| + n - (if n > 0 && s.poll.currentPoll.None? then 1 else 0)
    ensures n > 0 ==> Run(s, Repeat(PollEnded(p), n)).poll.currentPoll == Some(p)
    decreases n
  {
    if n > 0 {
      var t := Handle(s, PollEnded(p));
      assert Repeat(PollEnded(p), n)[1..] == Repeat(PollEnded(p), n - 1);
      RepeatedPollEndedGrowsHistory(t, p, n - 1);
    }
  }

  /** The messages carried by the `new-message` events of a sequence. */
  function NewMessages(events: seq<ServerEvent>): seq<ChatMessage> {
    if events == [] then []
    else (if events[0].NewMessage? then [events[0].message] else []) + NewMessages(events[1..])
  }

  predicate IsJoin(e: ServerEvent) {
    e.TeacherJoined? || e.StudentJoined?
  }

  /** No listener marks messages as read: the unread count goes up by one per
      `new-message` event and by nothing else. */
  lemma {:induction false} UnreadCountsNewMessages(s: RootState, events: seq<ServerEvent>)
    ensures Run(s, events).chat.unreadCount == s.chat.unreadCount + |NewMessages(events)|
    decreases |events|
  {
    if events != [] {
      var t := Handle(s, events[0]);
      UnreadCountsNewMessages(t, events[1..]);
      assert |NewMessages(events)| == (if events[0].NewMessage? then 1 else 0) + |NewMessages(events[1..])|;
    }
  }

  /** The messages a single event adds to the chat. */
  function MessagesOf(e: ServerEvent): seq<ChatMessage> {
    if e.NewMessage? then [e.message] else []
  }

  /** One event other than a join appends its own message, if any. */
  lemma MessagesStep(s: RootState, e: ServerEvent)
    requires !IsJoin(e)
    ensures Handle(s, e).chat.messages == s.chat.messages + MessagesOf(e)
  {
  }

  /** Between two joins, the message list grows by exactly the messages of
      the `new-message` events, in arrival order. */
  lemma {:induction false} MessagesBetweenJoins(s: RootState, events: seq<ServerEvent>)
    requires forall i :: 0 <= i < |events| ==> !IsJoin(events[i])
    ensures Run(s, events).chat.messages == s.chat.messages + NewMessages(events)
    decreases |events|
  {
    if events != [] {
      var e, rest := events[0], events[1..];
      assert !IsJoin(e);
      assert forall i :: 0 <= i < |rest| ==> rest[i] == events[i + 1];
      var t := Handle(s, e);
      MessagesStep(s, e);
      MessagesBetweenJoins(t, rest);
      assert Run(s, events) == Run(t, rest);
      assert NewMessages(events) == MessagesOf(e) + NewMessages(rest);
      assert s.chat.messages + MessagesOf(e) + NewMessages(rest) == s.chat.messages + (MessagesOf(e) + NewMessages(rest));
    }
  }

  /** `participant-joined` appends without a duplicate check. */
  lemma ParticipantJoinedCanDuplicate(s: RootState, p: Participant)
    requires HasParticipantId(s.poll.participants, p.id)
    ensures !DistinctParticipantIds(Handle(s, ParticipantJoined(p)).poll.participants)
  {
    AddParticipantCanDuplicate(s.poll, p);
  }

  /** The store after `handleStudentSetup(name)`: `setUserName(name)`, then
      `setAuthenticated(true)`. */
  function StudentSetup(s: RootState, name: string): (r: RootState)
    ensures r.user.name == name && r.user.isAuthenticated
    ensures r.poll == s.poll && r.chat == s.chat
    ensures r.user.role == s.user.role && r.user.hasAnswered == s.user.hasAnswered
            && r.user.selectedAnswer == s.user.selectedAnswer && r.user.isKickedOut == s.user.isKickedOut
  {
    Apply(Apply(s, UserA(SetUserName(name))), UserA(SetAuthenticated(true)))
  }

  /** The store after `handleTeacherSetup()`: `setAuthenticated(true)`. */
  function TeacherSetup(s: RootState): (r: RootState)
    ensures r.user.isAuthenticated && r.user.name == s.user.name
    ensures r.poll == s.poll && r.chat == s.chat
    ensures r.user.role == s.user.role && r.user.hasAnswered == s.user.hasAnswered
            && r.user.selectedAnswer == s.user.selectedAnswer && r.user.isKickedOut == s.user.isKickedOut
  {
    Apply(s, UserA(SetAuthenticated(true)))
  }

  /** Student setup records the name as given (it is not trimmed) and
      authenticates; teacher setup only authenticates. Neither touches
      anything else. */
  lemma SetupEffects(s: RootState, name: string)
    ensures StudentSetup(s, name) == s.(user := s.user.(name := name, isAuthenticated := true))
    ensures TeacherSetup(s) == s.(user := s.user.(isAuthenticated := true))
  {
  }

  /** After setup, a user who has picked a role sees their dashboard. */
  lemma SetupLeadsToDashboard(s: RootState, name: string)
    requires s.user.role.Some? && !s.user.isKickedOut
    ensures ScreenFor(StudentSetup(s, name).user) ==
              (if s.user.role.value == Teacher then TeacherDashboardScreen else StudentDashboardScreen)
    ensures ScreenFor(TeacherSetup(s).user) ==
              (if s.user.role.value == Teacher then TeacherDashboardScreen else StudentDashboardScreen)
  {
    SetupEffects(s, name);
  }

  /** The Redux store: the three slices, each an object updated in place. */
  class Store {
    const poll: PollStore
    const user: UserStore
    const chat: ChatStore

    function State(): RootState
      reads this, poll, user, chat
    {
      RootState(poll.State(), user.State(), chat.State())
    }

    constructor ()
      ensures State() == InitialRootState
    {
      poll := new PollStore();
      user := new UserStore();
      chat := new ChatStore();
    }

    /** `dispatch(action)`: the slice the action belongs to runs its reducer. */
    method Dispatch(a: Action)
      modifies poll, user, chat
      ensures State() == Apply(old(State()), a)
    {
      match a
      case PollA(x) => {
        match x {
        case SetCurrentPoll(p) => poll.SetCurrentPoll(p);
        case UpdatePollResults(responses, total) => poll.UpdatePollResults(responses, total);
        case EndPoll => poll.EndPoll();
        case SetPollHistory(h) => poll.SetPollHistory(h);
        case SetParticipants(ps) => poll.SetParticipants(ps);
        case AddParticipant(p) => poll.AddParticipant(p);
        case UpdateParticipant(p) => poll.UpdateParticipant(p);
        case SetLoading(b) => poll.SetLoading(b);
        case SetError(e) => poll.SetError(e);
        case ClearError => poll.ClearError();
        }
      }
      case UserA(x) => {
        match x {
        case SetUserRole(r) => user.SetUserRole(r);
        case SetUserName(n) => user.SetUserName(n);
        case SetAuthenticated(b) => user.SetAuthenticated(b);
        case SetHasAnswered(b) => user.SetHasAnswered(b);
        case SetSelectedAnswer(i) => user.SetSelectedAnswer(i);
        case SetKickedOut(b) => user.SetKickedOut(b);
        case ResetUser => user.ResetUser();
        }
      }
      case ChatA(x) => {
        match x {
        case SetMessages(ms) => chat.SetMessages(ms);
        case AddMessage(m) => chat.AddMessage(m);
        case ClearMessages => chat.ClearMessages();
        case SetTyping(b) => chat.SetTyping(b);
        case MarkAsRead => chat.MarkAsRead();
        }
      }
    }

    /** The socket listeners registered by AppContent's effect. */
    method OnServerEvent(e: ServerEvent)
      modifies poll, user, chat
      ensures State() == Handle(old(State()), e)
    {
      match e
      case TeacherJoined(p, ps, ms, h) =>
        Dispatch(PollA(SetCurrentPoll(p)));
        Dispatch(PollA(SetParticipants(ps)));
        Dispatch(ChatA(SetMessages(ms)));
        Dispatch(PollA(SetPollHistory(h)));
      case StudentJoined(p, ms, answered) =>
        Dispatch(PollA(SetCurrentPoll(p)));
        Dispatch(ChatA(SetMessages(ms)));
        Dispatch(UserA(SetHasAnswered(answered)));
      case ParticipantJoined(p) =>
        Dispatch(PollA(AddParticipant(p)));
      case ParticipantUpdated(p) =>
        Dispatch(PollA(UpdateParticipant(p)));
      case PollCreated(p) =>
        Dispatch(PollA(SetCurrentPoll(Some(p))));
        Dispatch(UserA(SetHasAnswered(false)));
      case PollUpdated(p) =>
        Dispatch(PollA(UpdatePollResults(p.responses, p.totalResponses)));
      case PollEnded(p) =>
        Dispatch(PollA(EndPoll));
        Dispatch(PollA(SetCurrentPoll(Some(p))));
      case AnswerSubmitted(p) =>
        Dispatch(UserA(SetHasAnswered(true)));
        Dispatch(PollA(SetCurrentPoll(p)));
      case NewMessage(m) =>
        Dispatch(ChatA(AddMessage(m)));
      case KickedOut =>
        Dispatch(UserA(SetKickedOut(true)));
    }

    /** `handleRoleSelection(selectedRole)`. */
    method HandleRoleSelection(role: Role)
      modifies poll, user, chat
      ensures State() == Apply(old(State()), UserA(SetUserRole(Some(role))))
    {
      Dispatch(UserA(SetUserRole(Some(role))));
    }

    /** `handleStudentSetup(name)`: two dispatches, then `join-as-student`. */
    method HandleStudentSetup(name: string) returns (emitted: ClientRequest)
      modifies poll, user, chat
      ensures State() == StudentSetup(old(State()), name)
      ensures emitted == JoinAsStudent(name)
    {
      Dispatch(UserA(SetUserName(name)));
      Dispatch(UserA(SetAuthenticated(true)));
      emitted := JoinAsStudent(name);
    }

    /** `handleTeacherSetup()`: one dispatch, then `join-as-teacher`. */
    method HandleTeacherSetup() returns (emitted: ClientRequest)
      modifies poll, user, chat
      ensures State() == TeacherSetup(old(State()))
      ensures emitted == JoinAsTeacher
    {
      Dispatch(UserA(SetAuthenticated(true)));
      emitted := JoinAsTeacher;
    }

    /** What AppContent renders. */
    method CurrentScreen() returns (screen: Screen)
      ensures screen == ScreenFor(user.State())
    {
      screen := ScreenFor(user.State());
    }
  }
}
