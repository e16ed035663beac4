/**
 * The user session store: three nullable strings (`userId`, `username`,
 * `sessionToken`), the derived `isAuthenticated` getter, and four actions
 * that mirror the session into `localStorage` under three fixed keys.
 *
 * The actions are first given as functions on values (`AfterLogin`,
 * `AfterLogout`, `AfterRestore`, `AfterUpdateUsername`) whose contracts
 * state what each action promises; the class `Store` then performs them
 * step by step on its fields and on a shared `LocalStorage` object, and
 * each method is proved to reach exactly the state its function describes.
 */
module UserStore {
  import opened Wrappers
  import opened WebStorage

  const UserIdKey: string := "userId"
  const UsernameKey: string := "username"
  const SessionTokenKey: string := "sessionToken"

  /** The only storage keys the store ever reads or writes. */
  const SessionKeys: set<string> := {UserIdKey, UsernameKey, SessionTokenKey}

  /** JavaScript truthiness of a string that may be null: null and "" are both false. */
  predicate Truthy(v: Option<string>)
  {
    v.Some? && v.value != ""
  }

  /** JavaScript `v || fallback` for a possibly-null string `v` and a string `fallback`. */
  function OrElse(v: Option<string>, fallback: string): string
  {
    if Truthy(v) then v.value else fallback
  }

  datatype Session = Session(userId: Option<string>, username: Option<string>, sessionToken: Option<string>)

  /** The state of a store just created: every field null. */
  const NoSession: Session := Session(None, None, None)

  /** The `isAuthenticated` getter, on a session value. */
  predicate Authenticated(s: Session)
    ensures Authenticated(s) ==> s.userId.Some? && s.sessionToken.Some?
  {
    Truthy(s.userId) && Truthy(s.sessionToken)
  }

  /** The session held in memory together with the contents of `localStorage`. */
  datatype State = State(session: Session, storage: Storage)

  /**
   * While the session is authenticated, durable storage holds the same user
   * id and token, so that a reload can bring the same identity back.
   */
  predicate Persisted(st: State)
  {
    Authenticated(st.session) ==>
      Lookup(st.storage, UserIdKey) == st.session.userId &&
      Lookup(st.storage, SessionTokenKey) == st.session.sessionToken
  }

  lemma AuthenticatedExactly(s: Session, name: Option<string>)
    ensures Authenticated(s) <==>
      s.userId.Some? && s.userId.value != "" && s.sessionToken.Some? && s.sessionToken.value != ""
    ensures Authenticated(s.(username := name)) == Authenticated(s)
    ensures !Authenticated(NoSession)
  {
  }

  /** `login(userId, username, token)`. */
  function AfterLogin(st: State, userId: string, username: Option<string>, token: Option<string>): (r: State)
    ensures r.session.userId == Some(userId) && r.session.username == username
    ensures r.session.sessionToken == Some(if Truthy(token) then token.value else userId)
    ensures Lookup(r.storage, UserIdKey) == Some(userId)
    ensures Lookup(r.storage, UsernameKey) == Some(if Truthy(username) then username.value else "")
    ensures Lookup(r.storage, SessionTokenKey) == r.session.sessionToken
    ensures r.storage.Keys == st.storage.Keys + SessionKeys
    ensures AgreeOutside(st.storage, r.storage, SessionKeys)
    ensures Authenticated(r.session) <==> userId != ""
    ensures Persisted(r)
  {
    var newToken := OrElse(token, userId);
    State(Session(Some(userId), username, Some(newToken)),
          st.storage[UserIdKey := userId][UsernameKey := OrElse(username, "")][SessionTokenKey := newToken])
  }

  /** `logout()`. */
  function AfterLogout(st: State): (r: State)
    ensures r.session == NoSession && !Authenticated(r.session)
    ensures r.storage.Keys == st.storage.Keys - SessionKeys
    ensures AgreeOutside(st.storage, r.storage, SessionKeys)
    ensures Persisted(r)
  {
    State(NoSession, st.storage - SessionKeys)
  }

  /**
   * The session `restoreSession()` reads back from `storage`, or None when
   * it declines to restore.
   */
  function RestoredSession(storage: Storage): (r: Option<Session>)
    ensures r.Some? <==>
      UserIdKey in storage && storage[UserIdKey] != "" &&
      SessionTokenKey in storage && storage[SessionTokenKey] != ""
    ensures r.Some? ==>
      Authenticated(r.value) &&
      r.value.userId == Some(storage[UserIdKey]) &&
      r.value.sessionToken == Some(storage[SessionTokenKey]) &&
      (r.value.username.None? <==> UsernameKey !in storage) &&
      (UsernameKey in storage ==> r.value.username == Some(storage[UsernameKey]))
  {
    var storedUserId := Lookup(storage, UserIdKey);
    var storedUsername := Lookup(storage, UsernameKey);
    var storedToken := Lookup(storage, SessionTokenKey);
    if Truthy(storedUserId) && Truthy(storedToken) then
      Some(Session(storedUserId, storedUsername, storedToken))
    else
      None
  }

  /** `restoreSession()`, as a change of state. */
  function AfterRestore(st: State): (r: State)
    ensures r.storage == st.storage
    ensures RestoredSession(st.storage).None? ==> r == st
    ensures RestoredSession(st.storage).Some? ==>
      r.session == RestoredSession(st.storage).value && Authenticated(r.session) && Persisted(r)
    ensures Persisted(st) ==> Persisted(r)
  {
    match RestoredSession(st.storage)
    case Some(s) => st.(session := s)
    case None => st
  }

  /** `updateUsername(name)`. */
  function AfterUpdateUsername(st: State, name: string): (r: State)
    ensures r.session == st.session.(username := Some(name))
    ensures Lookup(r.storage, UsernameKey) == Some(name)
    ensures AgreeOutside(st.storage, r.storage, {UsernameKey})
    ensures Authenticated(r.session) == Authenticated(st.session)
    ensures Persisted(st) ==> Persisted(r)
  {
    State(st.session.(username := Some(name)), st.storage[UsernameKey := name])
  }

  /**
   * Round trip: after a login with a non-empty user id, a store that
   * starts empty and restores from the same storage gets the session back,
   * except that a missing username comes back as the empty string.
   */
  lemma RestoreAfterLogin(st: State, userId: string, username: Option<string>, token: Option<string>)
    requires userId != ""
    ensures var stored := AfterLogin(st, userId, username, token).storage;
      var expected := Session(Some(userId), Some(OrElse(username, "")), Some(OrElse(token, userId)));
      RestoredSession(stored) == Some(expected) &&
      AfterRestore(State(NoSession, stored)) == State(expected, stored)
  {
  }

  /** Restoring twice has the effect of restoring once. */
  lemma RestoreIdempotent(st: State)
    ensures AfterRestore(AfterRestore(st)) == AfterRestore(st)
  {
  }

  class Store {
    var userId: Option<string>
    var username: Option<string>
    var sessionToken: Option<string>
    const storage: LocalStorage

    function Current(): Session
      reads this
    {
      Session(userId, username, sessionToken)
    }

    function Snapshot(): State
      reads this, storage
    {
      State(Current(), storage.items)
    }

    /** A fresh store over the page's `localStorage`. */
    constructor (storage: LocalStorage)
      ensures this.storage == storage
      ensures Current() == NoSession && !IsAuthenticated()
      ensures unchanged(storage)
    {
      this.storage := storage;
      userId, username, sessionToken := None, None, None;
    }

    /** `!!userId && !!sessionToken`. */
    predicate IsAuthenticated()
      reads this
      ensures IsAuthenticated() <==> Authenticated(Current())
      ensures IsAuthenticated() ==> userId.Some? && sessionToken.Some?
    {
      Truthy(userId) && Truthy(sessionToken)
    }

    method Login(userIdValue: string, usernameValue: Option<string>, token: Option<string>)
      modifies this, storage
      ensures Snapshot() == AfterLogin(old(Snapshot()), userIdValue, usernameValue, token)
    {
      userId := Some(userIdValue);
      username := usernameValue;
      sessionToken := Some(OrElse(token, userIdValue));

      storage.SetItem(UserIdKey, userIdValue);
      storage.SetItem(UsernameKey, OrElse(usernameValue, ""));
      storage.SetItem(SessionTokenKey, sessionToken.value);
    }

    method Logout()
      modifies this, storage
      ensures Snapshot() == AfterLogout(old(Snapshot()))
    {
      userId := None;
      username := None;
      sessionToken := None;

      storage.RemoveItem(UserIdKey);
      storage.RemoveItem(UsernameKey);
      storage.RemoveItem(SessionTokenKey);
      assert storage.items == old(storage.items) - SessionKeys;
    }

    method RestoreSession() returns (restored: bool)
      modifies this
      ensures restored <==> RestoredSession(storage.items).Some?
      ensures Snapshot() == AfterRestore(old(Snapshot()))
    {
      var storedUserId := storage.GetItem(UserIdKey);
      var storedUsername := storage.GetItem(UsernameKey);
      var storedToken := storage.GetItem(SessionTokenKey);

      if Truthy(storedUserId) && Truthy(storedToken) {
        userId := storedUserId;
        username := storedUsername;
        sessionToken := storedToken;
        return true;
      }
      return false;
    }

    method UpdateUsername(newUsername: string)
      modifies this, storage
      ensures Snapshot() == AfterUpdateUsername(old(Snapshot()), newUsername)
    {
      username := Some(newUsername);
      storage.SetItem(UsernameKey, newUsername);
    }
  }

  /**
   * The round trip on objects: log in through one store, then (as after a
   * page reload) create a second store on the same `localStorage` and
   * restore from it.
   */
  method ReloadAfterLogin(ls: LocalStorage, userId: string, username: Option<string>, token: Option<string>)
    returns (reloaded: Store, restored: bool)
    requires userId != ""
    modifies ls
    ensures restored && reloaded.IsAuthenticated()
    ensures reloaded.Current() == Session(Some(userId), Some(OrElse(username, "")), Some(OrElse(token, userId)))
  {
    var first := new Store(ls);
    ghost var before := first.Snapshot();
    first.Login(userId, username, token);
    reloaded := new Store(ls);
    restored := reloaded.RestoreSession();
    RestoreAfterLogin(before, userId, username, token);
  }
}
