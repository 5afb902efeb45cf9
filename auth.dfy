/** The auth store: the signed-in user and the `authState` object, and how
    checking the session and signing out change them once the remote call
    has settled. */
module Auth {
  import opened Remote

  datatype User = User(id: string, email: Option<string>)

  datatype Session = Session(user: User, accessToken: string)

  /** The error the session lookup may resolve with. */
  datatype AuthError = AuthError(message: string)

  /** What the session lookup resolves with: a session or null, and an error
      or null, independently of each other. */
  datatype SessionResponse = SessionResponse(session: Option<Session>, error: Option<AuthError>)

  /** The `authState` object: `loading`, `error`, and by name any fields
      besides those two that another writer of the store has put in it
      (their values are opaque here). */
  datatype AuthState = AuthState(loading: bool, error: Option<AuthError>, others: map<string, string>)

  /** The user a session lookup yields: the session's user, or null when
      there is no session. */
  function SessionUser(session: Option<Session>): (u: Option<User>)
    ensures u.Some? <==> session.Some?
    ensures u.Some? ==> u.value == session.value.user
  {
    match session
    case Some(s) => Some(s.user)
    case None => None
  }

  /** `{ ...s, loading: false, error }`: the spread keeps every field and only
      `loading` and `error` are overwritten. */
  function AfterCheck(s: AuthState, error: Option<AuthError>): (t: AuthState)
    ensures !t.loading
    ensures t.error == error
    ensures t.others == s.others
  {
    s.(loading := false, error := error)
  }

  /** Both stores of the module together. */
  datatype State = State(user: Option<User>, authState: AuthState)

  /** The stores as the module creates them: no user, loading, no error. */
  const Initial: State := State(None, AuthState(true, None, map[]))

  /** One exported operation together with the outcome of its remote call. */
  datatype Call =
    | Check(resp: SessionResponse)
    | SignOut(signOutError: Option<AuthError>)

  /** The state after one operation settles. */
  function Step(s: State, c: Call): State
  {
    match c
    case Check(resp) => State(SessionUser(resp.session), AfterCheck(s.authState, resp.error))
    case SignOut(_) => s.(user := None)
  }

  /** The state after a sequence of operations, each settling before the next. */
  function Run(s: State, calls: seq<Call>): State
    decreases |calls|
  {
    if calls == [] then s else Step(Run(s, calls[..|calls| - 1]), calls[|calls| - 1])
  }

  /** `loading` stays as it was until a session check settles, and is false
      from then on. */
  lemma {:induction false} LoadingUntilChecked(s: State, calls: seq<Call>)
    ensures Run(s, calls).authState.loading <==>
      s.authState.loading && forall i :: 0 <= i < |calls| ==> !calls[i].Check?
    decreases |calls|
  {
    if calls != [] {
      LoadingUntilChecked(s, calls[..|calls| - 1]);
      assert forall i :: 0 <= i < |calls| - 1 ==> calls[..|calls| - 1][i] == calls[i];
    }
  }

  /** Without a session check, `authState` is exactly as it was: signing out
      never touches it. */
  lemma {:induction false} AuthStateOnlyChangedByCheck(s: State, calls: seq<Call>)
    requires forall i :: 0 <= i < |calls| ==> !calls[i].Check?
    ensures Run(s, calls).authState == s.authState
    decreases |calls|
  {
    if calls != [] {
      AuthStateOnlyChangedByCheck(s, calls[..|calls| - 1]);
    }
  }

  /** `authState.error` is the error returned by the last session check. */
  lemma {:induction false} ErrorOfLastCheck(s: State, calls: seq<Call>, k: nat)
    requires k < |calls| && calls[k].Check?
    requires forall i :: k < i < |calls| ==> !calls[i].Check?
    ensures Run(s, calls).authState.error == calls[k].resp.error
    decreases |calls|
  {
    if k < |calls| - 1 {
      ErrorOfLastCheck(s, calls[..|calls| - 1], k);
    }
  }

  /** Fields of `authState` other than `loading` and `error` survive every
      operation. */
  lemma {:induction false} OtherFieldsKept(s: State, calls: seq<Call>)
    ensures Run(s, calls).authState.others == s.authState.others
    decreases |calls|
  {
    if calls != [] {
      OtherFieldsKept(s, calls[..|calls| - 1]);
    }
  }

  /** The two stores, `user` and `authState`, as one object. */
  class AuthStore {
    var user: Option<User>
    var authState: AuthState

    function Current(): State
      reads this
    {
      State(user, authState)
    }

    /** No user yet, loading, no error. */
    constructor ()
      ensures user == None
      ensures authState.loading && authState.error == None && authState.others == map[]
      ensures Current() == Initial
    {
      user := None;
      authState := AuthState(true, None, map[]);
    }

    /** checkSession, once the session lookup settles with `resp`. The user
        follows the session alone, even when an error came back too. */
    method CheckSession(resp: SessionResponse)
      modifies this
      ensures resp.session.Some? ==> user == Some(resp.session.value.user)
      ensures resp.session.None? ==> user == None
      ensures !authState.loading && authState.error == resp.error
      ensures authState.others == old(authState.others)
      ensures Current() == Step(old(Current()), Check(resp))
    {
      if resp.session.Some? {
        user := Some(resp.session.value.user);
      } else {
        user := None;
      }
      authState := AfterCheck(authState, resp.error);
    }

    /** signOut, once the remote sign-out settles: whatever it returned, the
        user is cleared and `authState` is left alone. */
    method SignOut(signOutError: Option<AuthError>)
      modifies this
      ensures user == None
      ensures authState == old(authState)
      ensures Current() == Step(old(Current()), Call.SignOut(signOutError))
    {
      user := None;
    }
  }
}
