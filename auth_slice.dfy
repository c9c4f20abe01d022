/** The `auth` slice of the store (src/redux/reducers/userReducer.ts): the
    signed-in user, the session token, the request-in-progress flag and the
    last error, with the `"token"` entry of `localStorage` that the reducers
    write and remove. */
module AuthSlice {
  import opened Wrappers

  datatype User = User(id: string, name: string, email: string, phone: string, dob: Option<string>)

  datatype AuthState = AuthState(user: Option<User>, token: Option<string>, loading: bool, error: Option<string>)

  /** The two thunks whose lifecycle the slice follows. */
  datatype Flow = SignupFlow | LoginFlow

  datatype AuthAction =
    | Logout
    | ClearError
    | Pending(flow: Flow)
    | Fulfilled(flow: Flow, user: Option<User>, token: Option<string>)
    | Rejected(flow: Flow, message: Option<string>)  // `payload?.error?.message`

  const InitialState := AuthState(None, None, false, None)

  function FallbackMessage(flow: Flow): string
  {
    match flow
    case SignupFlow => "Signup failed"
    case LoginFlow => "Login failed"
  }

  /** The slice's reducer, as a function of the state and the action. */
  function Reduce(s: AuthState, a: AuthAction): (r: AuthState)
    ensures a.Logout? ==> r.user.None? && r.token.None? && r.loading == s.loading && r.error == s.error
    ensures a.ClearError? ==> r == s.(error := None)
    ensures a.Pending? ==> r.loading && r.error.None? && r.user == s.user && r.token == s.token
    ensures a.Fulfilled? ==> !r.loading && r.user == a.user && r.token == a.token && r.error == s.error
    ensures a.Rejected? ==> !r.loading && r.user == s.user && r.token == s.token && r.error.Some?
    ensures a.Rejected? && Truthy(a.message) ==> r.error == a.message
    ensures a.Rejected? && !Truthy(a.message) ==> r.error == Some(FallbackMessage(a.flow))
  {
    match a
    case Logout => s.(user := None, token := None)
    case ClearError => s.(error := None)
    case Pending(_) => s.(loading := true, error := None)
    case Fulfilled(_, user, token) => s.(loading := false, user := user, token := token)
    case Rejected(flow, message) => s.(loading := false, error := Some(OrElse(message, FallbackMessage(flow))))
  }

  /** The `"token"` entry of `localStorage` after the action. */
  function StoredToken(stored: Option<string>, a: AuthAction): (r: Option<string>)
    ensures a.Logout? ==> r.None?
    ensures a.Fulfilled? && Truthy(a.token) ==> r == a.token
    ensures !a.Logout? && !(a.Fulfilled? && Truthy(a.token)) ==> r == stored
  {
    match a
    case Logout => None
    case Fulfilled(_, _, token) => if Truthy(token) then token else stored
    case _ => stored
  }

  /** `ProtectedRoute`'s test `!!user || !!token`. */
  function IsAuthenticated(s: AuthState): (signedIn: bool)
    ensures signedIn <==> s.user.Some? || (s.token.Some? && s.token.value != "")
  {
    s.user.Some? || Truthy(s.token)
  }

  /** After a logout the protected routes send the user to the login page. */
  lemma LogoutSignsOut(s: AuthState)
    ensures !IsAuthenticated(Reduce(s, Logout))
  {
  }

  /** `clearError` is idempotent and touches nothing but the error. */
  lemma ClearErrorIdempotent(s: AuthState)
    ensures Reduce(Reduce(s, ClearError), ClearError) == Reduce(s, ClearError)
  {
  }

  /** The state after a run of actions. */
  function ReduceAll(s: AuthState, actions: seq<AuthAction>): AuthState
    decreases |actions|
  {
    if actions == [] then s else ReduceAll(Reduce(s, actions[0]), actions[1..])
  }

  /** The lifecycle actions of the run, the ones that move `loading`. */
  function FlowActions(actions: seq<AuthAction>): seq<AuthAction>
  {
    if actions == [] then []
    else (if actions[0].Pending? || actions[0].Fulfilled? || actions[0].Rejected? then [actions[0]] else [])
         + FlowActions(actions[1..])
  }

  /** From the initial state, `loading` is set exactly when the last request
      event was a `pending` one: the spinner shows while a request is out. */
  lemma {:induction false} LoadingTracksLastRequest(s: AuthState, actions: seq<AuthAction>)
    ensures var f := FlowActions(actions);
      ReduceAll(s, actions).loading == if f == [] then s.loading else f[|f| - 1].Pending?
    decreases |actions|
  {
    if actions != [] {
      LoadingTracksLastRequest(Reduce(s, actions[0]), actions[1..]);
    }
  }

  class AuthStore {
    var user: Option<User>
    var token: Option<string>
    var loading: bool
    var error: Option<string>
    var storedToken: Option<string>  // `localStorage.getItem("token")`

    function State(): AuthState
      reads this
    {
      AuthState(user, token, loading, error)
    }

    /** `initialState`; the stored token survives page loads, so it is given. */
    constructor (stored: Option<string>)
      ensures State() == InitialState && storedToken == stored
    {
      user, token, loading, error := None, None, false, None;
      storedToken := stored;
    }

    /** The slice's case reducers, assigning the draft state in place. */
    method Dispatch(a: AuthAction)
      modifies this
      ensures State() == Reduce(old(State()), a)
      ensures storedToken == StoredToken(old(storedToken), a)
    {
      match a
      case Logout =>
        user := None;
        token := None;
        storedToken := None;
      case ClearError =>
        error := None;
      case Pending(_) =>
        loading := true;
        error := None;
      case Fulfilled(_, u, t) =>
        loading := false;
        user := u;
        token := t;
        if Truthy(t) {
          storedToken := t;
        }
      case Rejected(flow, message) =>
        loading := false;
        error := Some(OrElse(message, FallbackMessage(flow)));
    }
  }
}
