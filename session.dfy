/**
 * The session's life across the three components that share the
 * `authObject` storage key: the login page writes it, the hook reads it back,
 * the sidebar drops it when it is about to expire or on sign-out.
 */
module Session {
  import opened Js
  import opened LocalStorage
  import Login
  import Aside

  /** What the hook reports right after a login at time `now`. */
  lemma LoggedInView(items: map<string, Stored>, response: Value, now: int)
    ensures var data := Get(response, "data");
      Project(LoadData(items[StorageKey := Serialized(Login.SessionFor(response, now))])) ==
        AuthView(Bool(true), Get(data, "token"), Get(data, "role"), Get(data, "userId"),
                 Get(data, "name"), Get(data, "email"), Int(now + 3600000))
  {
    var data := Get(response, "data");
    var s := Login.SessionFor(response, now);
    assert Get(s, "token") == Get(data, "token");
    assert Get(s, "role") == Get(data, "role");
    assert Get(s, "userId") == Get(data, "userId");
    assert Get(s, "name") == Get(data, "name");
    assert Get(s, "email") == Get(data, "email");
  }

  /**
   * A session written at `now` (a clock reading, so never negative) is
   * dropped by the sidebar exactly when it checks later than ten seconds
   * before the hour is up.
   */
  lemma SessionExpiresBeforeTheHour(items: map<string, Stored>, response: Value, now: int, t: int)
    requires now >= 0
    ensures Aside.Expiring(Project(LoadData(items[StorageKey := Serialized(Login.SessionFor(response, now))])), t)
      <==> t > now + 3590000
  {
    LoggedInView(items, response, now);
  }

  /** After sign-out or expiry, the hook reports every field falsy. */
  lemma SignedOutAfterRemoval(items: map<string, Stored>)
    ensures SignedOut(Project(LoadData(items - {StorageKey})))
  {
    NoSessionProjectsFalsy(items - {StorageKey});
  }

  /**
   * One pass through the lifecycle: log in at `now`, load the session,
   * let the sidebar check it at `t`, and load again.
   */
  method LoginCheckReload(storage: Storage, response: Value, now: int, t: int)
    returns (route: Option<string>, before: AuthView, after: AuthView)
    requires now >= 0
    modifies storage
    ensures before.isAuthenticated == Bool(true) && before.expiresAt == Int(now + 3600000)
    ensures t > now + 3590000 <==> route == Some("/")
    ensures t > now + 3590000 ==> SignedOut(after)
    ensures t <= now + 3590000 ==> after == before
  {
    var page := new Login.LoginPage();
    var _ := page.OnSuccess(storage, response, now);
    var hook := new AuthHook();
    LoggedInView(old(storage.items), response, now);
    SessionExpiresBeforeTheHour(old(storage.items), response, now, t);
    hook.Load(storage);
    before := hook.View();
    route := Aside.ExpiryEffect(storage, before, t);
    SignedOutAfterRemoval(old(storage.items)[StorageKey := Serialized(Login.SessionFor(response, now))]);
    hook.Load(storage);
    after := hook.View();
  }
}
