/** The `auth` slice of the Redux store: whether someone is signed in, the session token and
    the user, with the four reducers that change them in place. */
module AuthSlice {
  import opened Maybe
  import LoginContext

  type User = LoginContext.User

  datatype AuthState = AuthState(isAuthenticated: bool, token: Option<string>, user: Option<User>)

  const InitialState := AuthState(false, None, None)

  datatype Action = SetUser(payload: User) | ClearUser | SetToken(token: string) | ClearToken

  /** The flag says exactly whether a user is held. */
  predicate Consistent(s: AuthState) {
    s.isAuthenticated <==> s.user.Some?
  }

  /** What the reducer makes of state `s` under `a`. */
  function Reduce(s: AuthState, a: Action): (r: AuthState)
    ensures a.SetUser? ==> r.user == Some(a.payload) && r.isAuthenticated && r.token == s.token
    ensures a.ClearUser? ==> r == InitialState
    ensures a.SetToken? ==> r == s.(token := Some(a.token))
    ensures a.ClearToken? ==> r == s.(token := None)
  {
    match a
    case SetUser(p) => s.(user := Some(p), isAuthenticated := true)
    case ClearUser => s.(user := None, isAuthenticated := false, token := None)
    case SetToken(t) => s.(token := Some(t))
    case ClearToken => s.(token := None)
  }

  /** The state after dispatching `actions` in order. */
  function Run(s: AuthState, actions: seq<Action>): AuthState
    decreases |actions|
  {
    if actions == [] then s else Run(Reduce(s, actions[0]), actions[1..])
  }

  /** Every reducer keeps the flag and the user in step. */
  lemma ReduceKeepsConsistent(s: AuthState, a: Action)
    requires Consistent(s)
    ensures Consistent(Reduce(s, a))
  {
  }

  /** From the initial state, any sequence of actions keeps the flag and the user in step. */
  lemma {:induction false} RunKeepsConsistent(s: AuthState, actions: seq<Action>)
    requires Consistent(s)
    ensures Consistent(Run(s, actions))
    decreases |actions|
  {
    if actions != [] {
      ReduceKeepsConsistent(s, actions[0]);
      RunKeepsConsistent(Reduce(s, actions[0]), actions[1..]);
    }
  }

  lemma ReachableIsConsistent(actions: seq<Action>)
    ensures Consistent(Run(InitialState, actions))
  {
    RunKeepsConsistent(InitialState, actions);
  }

  /** Dispatching an action twice is the same as dispatching it once. */
  lemma ReduceIdempotent(s: AuthState, a: Action)
    ensures Reduce(Reduce(s, a), a) == Reduce(s, a)
  {
  }

  /** The state after a sequence ending in `clearUser` is the initial state, whatever came
      before. */
  lemma {:induction false} ClearUserResets(s: AuthState, actions: seq<Action>)
    ensures Run(s, actions + [ClearUser]) == InitialState
    decreases |actions|
  {
    if actions == [] {
      assert actions + [ClearUser] == [ClearUser];
    } else {
      assert (actions + [ClearUser])[1..] == actions[1..] + [ClearUser];
      ClearUserResets(Reduce(s, actions[0]), actions[1..]);
    }
  }

  class AuthStore {
    var isAuthenticated: bool
    var token: Option<string>
    var user: Option<User>

    function State(): AuthState
      reads this
    {
      AuthState(isAuthenticated, token, user)
    }

    /** `initialState` */
    constructor ()
      ensures State() == InitialState
    {
      isAuthenticated := false;
      token := None;
      user := None;
    }

    /** `setUser(payload)` */
    method SetUser(payload: User)
      modifies this
      ensures user == Some(payload) && isAuthenticated && token == old(token)
      ensures State() == Reduce(old(State()), Action.SetUser(payload))
    {
      user := Some(payload);
      isAuthenticated := true;
    }

    /** `clearUser()` */
    method ClearUser()
      modifies this
      ensures user.None? && !isAuthenticated && token.None?
      ensures State() == Reduce(old(State()), Action.ClearUser)
    {
      user := None;
      isAuthenticated := false;
      token := None;
    }

    /** `setToken(payload)` */
    method SetToken(payload: string)
      modifies this
      ensures token == Some(payload) && user == old(user) && isAuthenticated == old(isAuthenticated)
      ensures State() == Reduce(old(State()), Action.SetToken(payload))
    {
      token := Some(payload);
    }

    /** `clearToken()` */
    method ClearToken()
      modifies this
      ensures token.None? && user == old(user) && isAuthenticated == old(isAuthenticated)
      ensures State() == Reduce(old(State()), Action.ClearToken)
    {
      token := None;
    }

    /** The store's `dispatch`, one action at a time. */
    method Dispatch(a: Action)
      modifies this
      ensures State() == Reduce(old(State()), a)
    {
      match a
      case SetUser(p) => SetUser(p);
      case ClearUser => ClearUser();
      case SetToken(t) => SetToken(t);
      case ClearToken => ClearToken();
    }

    /** Dispatching a sequence of actions, in order. */
    method DispatchAll(actions: seq<Action>)
      modifies this
      ensures State() == Run(old(State()), actions)
    {
      var i := 0;
      while i < |actions|
        invariant 0 <= i <= |actions|
        invariant Run(old(State()), actions) == Run(State(), actions[i..])
      {
        assert actions[i..][1..] == actions[i + 1..];
        Dispatch(actions[i]);
        i := i + 1;
      }
    }
  }
}
