/** The `user` slice of the Redux store (src/store/slices/userSlice.js): who
    the user is, and where they stand in the current poll. */
module UserSlice {
  import opened Domain

  datatype UserState = UserState(
    role: Option<Role>,
    name: string,
    isAuthenticated: bool,
    hasAnswered: bool,
    selectedAnswer: Option<nat>,
    isKickedOut: bool)

  /** Role null, empty name, every flag false, no answer selected. */
  const InitialUserState: UserState := UserState(None, "", false, false, None, false)

  datatype UserAction =
    | SetUserRole(role: Option<Role>)
    | SetUserName(name: string)
    | SetAuthenticated(authenticated: bool)
    | SetHasAnswered(answered: bool)
    | SetSelectedAnswer(answer: Option<nat>)
    | SetKickedOut(kicked: bool)
    | ResetUser

  /** The slice reducer: a setter writes its payload to its own field and
      leaves the five others alone; `resetUser` returns the initial record. */
  function UserReduce(s: UserState, a: UserAction): (r: UserState)
    ensures a.ResetUser? ==> r == InitialUserState
    ensures r.role != s.role ==> a.SetUserRole? || a.ResetUser?
    ensures r.name != s.name ==> a.SetUserName? || a.ResetUser?
    ensures r.isAuthenticated != s.isAuthenticated ==> a.SetAuthenticated? || a.ResetUser?
    ensures r.hasAnswered != s.hasAnswered ==> a.SetHasAnswered? || a.ResetUser?
    ensures r.selectedAnswer != s.selectedAnswer ==> a.SetSelectedAnswer? || a.ResetUser?
    ensures r.isKickedOut != s.isKickedOut ==> a.SetKickedOut? || a.ResetUser?
    ensures a.SetUserRole? ==> r.role == a.role
    ensures a.SetUserName? ==> r.name == a.name
    ensures a.SetAuthenticated? ==> r.isAuthenticated == a.authenticated
    ensures a.SetHasAnswered? ==> r.hasAnswered == a.answered
    ensures a.SetSelectedAnswer? ==> r.selectedAnswer == a.answer
    ensures a.SetKickedOut? ==> r.isKickedOut == a.kicked
  {
    match a
    case SetUserRole(x) => s.(role := x)
    case SetUserName(x) => s.(name := x)
    case SetAuthenticated(x) => s.(isAuthenticated := x)
    case SetHasAnswered(x) => s.(hasAnswered := x)
    case SetSelectedAnswer(x) => s.(selectedAnswer := x)
    case SetKickedOut(x) => s.(isKickedOut := x)
    case ResetUser => InitialUserState
  }

  /** Every user action is idempotent: applying it twice is applying it once
      (in particular `resetUser` and `setKickedOut(true)`). */
  lemma UserActionIdempotent(s: UserState, a: UserAction)
    ensures UserReduce(UserReduce(s, a), a) == UserReduce(s, a)
  {
  }

  /** The slice as the store holds it, updated in place by each reducer. */
  class UserStore {
    var role: Option<Role>
    var name: string
    var isAuthenticated: bool
    var hasAnswered: bool
    var selectedAnswer: Option<nat>
    var isKickedOut: bool

    function State(): UserState
      reads this
    {
      UserState(role, name, isAuthenticated, hasAnswered, selectedAnswer, isKickedOut)
    }

    constructor ()
      ensures State() == InitialUserState
    {
      role, name, isAuthenticated, hasAnswered, selectedAnswer, isKickedOut := None, "", false, false, None, false;
    }

    method SetUserRole(x: Option<Role>)
      modifies this
      ensures State() == UserReduce(old(State()), UserAction.SetUserRole(x))
    {
      role := x;
    }

    method SetUserName(x: string)
      modifies this
      ensures State() == UserReduce(old(State()), UserAction.SetUserName(x))
    {
      name := x;
    }

    method SetAuthenticated(x: bool)
      modifies this
      ensures State() == UserReduce(old(State()), UserAction.SetAuthenticated(x))
    {
      isAuthenticated := x;
    }

    method SetHasAnswered(x: bool)
      modifies this
      ensures State() == UserReduce(old(State()), UserAction.SetHasAnswered(x))
    {
      hasAnswered := x;
    }

    method SetSelectedAnswer(x: Option<nat>)
      modifies this
      ensures State() == UserReduce(old(State()), UserAction.SetSelectedAnswer(x))
    {
      selectedAnswer := x;
    }

    method SetKickedOut(x: bool)
      modifies this
      ensures State() == UserReduce(old(State()), UserAction.SetKickedOut(x))
    {
      isKickedOut := x;
    }

    /** `return initialState`: the whole record is replaced. */
    method ResetUser()
      modifies this
      ensures State() == UserReduce(old(State()), UserAction.ResetUser)
    {
      role, name, isAuthenticated, hasAnswered, selectedAnswer, isKickedOut := None, "", false, false, None, false;
    }
  }
}
