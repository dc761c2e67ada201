/**
 * The browser's `localStorage` as the dashboard uses it, and the
 * `useIsAuthenticated` hook (utils/hooks/localstorage.ts) that reads the
 * signed-in session back from it.
 */
module LocalStorage {
  import opened Js

  /** The one key the session lives under. */
  const StorageKey: string := "authObject"

  /**
   * A stored item. The dashboard only ever stores `JSON.stringify` of a
   * session object; an empty string is kept apart because `if (storedData)`
   * treats it as absent.
   */
  datatype Stored = Blank | Serialized(obj: Value)

  /** The `localStorage` of the page: items by key, updated in place. */
  class Storage {
    var items: map<string, Stored>

    constructor (initial: map<string, Stored>)
      ensures items == initial
    {
      items := initial;
    }

    /** `localStorage.setItem(key, JSON.stringify(obj))` */
    method SetItem(key: string, obj: Value)
      modifies this
      ensures items == old(items)[key := Serialized(obj)]
    {
      items := items[key := Serialized(obj)];
    }

    /** `localStorage.removeItem(key)`: removing a missing key is a no-op. */
    method RemoveItem(key: string)
      modifies this
      ensures items == old(items) - {key}
    {
      items := items - {key};
    }
  }

  /**
   * `loadData()`: null when nothing (or the empty string) is stored under
   * the key, otherwise the parsed session object.
   */
  function LoadData(items: map<string, Stored>): (data: Value)
    ensures StorageKey !in items || items[StorageKey].Blank? ==> data == Null
    ensures StorageKey in items && items[StorageKey].Serialized? ==> data == items[StorageKey].obj
  {
    if StorageKey in items && items[StorageKey].Serialized? then items[StorageKey].obj else Null
  }

  /** `a && b` */
  function And(a: Value, b: Value): (r: Value)
    ensures !Truthy(a) ==> r == a
    ensures Truthy(a) ==> r == b
  {
    if Truthy(a) then b else a
  }

  /** What the hook returns besides `isLoading`. */
  datatype AuthView = AuthView(
    isAuthenticated: Value,
    token: Value,
    role: Value,
    userId: Value,
    name: Value,
    email: Value,
    expiresAt: Value)

  /** `authObject && authObject?.<field>` for each projected field. */
  function Project(authObject: Value): (v: AuthView)
    ensures !Truthy(authObject) ==> SignedOut(v) && v.isAuthenticated == authObject
    ensures authObject.Obj? ==>
      && v.isAuthenticated == Get(authObject, "authenticated")
      && v.token == Get(authObject, "token")
      && v.role == Get(authObject, "role")
      && v.userId == Get(authObject, "userId")
      && v.name == Get(authObject, "name")
      && v.email == Get(authObject, "email")
      && v.expiresAt == Get(authObject, "expiresAt")
  {
    AuthView(
      And(authObject, Get(authObject, "authenticated")),
      And(authObject, Get(authObject, "token")),
      And(authObject, Get(authObject, "role")),
      And(authObject, Get(authObject, "userId")),
      And(authObject, Get(authObject, "name")),
      And(authObject, Get(authObject, "email")),
      And(authObject, Get(authObject, "expiresAt")))
  }

  /** Every projected field is falsy. */
  predicate SignedOut(v: AuthView) {
    !Truthy(v.isAuthenticated) && !Truthy(v.token) && !Truthy(v.role) && !Truthy(v.userId) &&
    !Truthy(v.name) && !Truthy(v.email) && !Truthy(v.expiresAt)
  }

  /** With nothing stored, the hook reports every field falsy. */
  lemma NoSessionProjectsFalsy(items: map<string, Stored>)
    requires StorageKey !in items || items[StorageKey].Blank?
    ensures SignedOut(Project(LoadData(items)))
    ensures Project(LoadData(items)).isAuthenticated == Null
  {
  }

  /** With a stored session object, each field is the same-named field of that object. */
  lemma StoredSessionProjectsFields(items: map<string, Stored>)
    requires StorageKey in items && items[StorageKey].Serialized? && items[StorageKey].obj.Obj?
    ensures var o := items[StorageKey].obj; var v := Project(LoadData(items));
      v.isAuthenticated == Get(o, "authenticated") && v.token == Get(o, "token") &&
      v.role == Get(o, "role") && v.userId == Get(o, "userId") && v.name == Get(o, "name") &&
      v.email == Get(o, "email") && v.expiresAt == Get(o, "expiresAt")
  {
  }

  /** The hook's state. */
  class AuthHook {
    var authObject: Value
    var isLoading: bool

    /** `useState(null)`, `useState(true)` */
    constructor ()
      ensures authObject == Null && isLoading
    {
      authObject := Null;
      isLoading := true;
    }

    /** The mount effect: load, then set the session and clear the loading flag. */
    method Load(storage: Storage)
      modifies this
      ensures authObject == LoadData(storage.items) && !isLoading
    {
      isLoading := true;
      var data := LoadData(storage.items);
      authObject := data;
      isLoading := false;
    }

    /** The hook's return value (without `isLoading`). */
    function View(): AuthView
      reads this
    {
      Project(authObject)
    }
  }

  /** Before the load completes, the hook reports loading and a signed-out view. */
  method MountHook() returns (loading: bool, view: AuthView)
    ensures loading && SignedOut(view)
  {
    var hook := new AuthHook();
    loading := hook.isLoading;
    view := hook.View();
  }
}
