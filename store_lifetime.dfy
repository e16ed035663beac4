/**
 * The store over its whole life in one page: any sequence of calls to its
 * four actions, starting from a fresh store over whatever `localStorage`
 * already holds.
 */
module StoreLifetime {
  import opened Wrappers
  import opened WebStorage
  import opened UserStore

  datatype Action =
    | Login(userId: string, username: Option<string>, token: Option<string>)
    | Logout
    | RestoreSession
    | UpdateUsername(name: string)

  function Step(st: State, a: Action): State
  {
    match a
    case Login(u, n, t) => AfterLogin(st, u, n, t)
    case Logout => AfterLogout(st)
    case RestoreSession => AfterRestore(st)
    case UpdateUsername(name) => AfterUpdateUsername(st, name)
  }

  function Run(st: State, actions: seq<Action>): State
    decreases |actions|
  {
    if actions == [] then st else Run(Step(st, actions[0]), actions[1..])
  }

  /** Whatever the store does, every storage key other than its three keeps its entry. */
  lemma {:induction false} RunTouchesOnlySessionKeys(st: State, actions: seq<Action>)
    ensures AgreeOutside(st.storage, Run(st, actions).storage, SessionKeys)
    decreases |actions|
  {
    if actions != [] {
      var next := Step(st, actions[0]);
      assert AgreeOutside(st.storage, next.storage, SessionKeys);
      RunTouchesOnlySessionKeys(next, actions[1..]);
    }
  }

  /** Every action keeps durable storage in step with an authenticated session. */
  lemma {:induction false} RunKeepsPersisted(st: State, actions: seq<Action>)
    requires Persisted(st)
    ensures Persisted(Run(st, actions))
    decreases |actions|
  {
    if actions != [] {
      RunKeepsPersisted(Step(st, actions[0]), actions[1..]);
    }
  }

  /**
   * At any point of a page's life where the store is authenticated, a
   * reload (a fresh store restoring from the same storage) succeeds and
   * brings back the same user id and token.
   */
  lemma ReloadKeepsIdentity(storage: Storage, actions: seq<Action>)
    ensures var st := Run(State(NoSession, storage), actions);
      Authenticated(st.session) ==>
        var reloaded := AfterRestore(State(NoSession, st.storage));
        Authenticated(reloaded.session) &&
        reloaded.session.userId == st.session.userId &&
        reloaded.session.sessionToken == st.session.sessionToken
  {
    RunKeepsPersisted(State(NoSession, storage), actions);
  }
}
