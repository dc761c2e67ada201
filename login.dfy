/**
 * The login page (Pages/Login.jsx): its form schema and what a successful or
 * failed login does to storage, the toasts and the route.
 */
module Login {
  import opened Js
  import opened Validation
  import opened LocalStorage

  /** `email` must be a string in email format; `password` any string. */
  const LoginSchema: Schema := [
    FieldRule("email", EmailString),
    FieldRule("password", MinLen(0))
  ]

  lemma LoginValidIff(form: Form, isEmail: string -> bool)
    ensures Validate(LoginSchema, form, isEmail).Valid? <==>
      Field(form, "email").Str? && isEmail(Field(form, "email").s) && Field(form, "password").Str?
  {
    var s := LoginSchema;
    assert s[0] == FieldRule("email", EmailString);
    assert s[1] == FieldRule("password", MinLen(0));
  }

  /** A session lasts one hour. */
  const SessionLength: int := 60 * 60 * 1000

  /** The session object `onSuccess` builds from the response at time `now`. */
  function SessionFor(response: Value, now: int): (session: Value)
    ensures session.Obj?
    ensures Get(session, "authenticated") == Bool(true)
    ensures Get(session, "expiresAt") == Int(now + 3600000)
    ensures forall k :: k in ["token", "role", "userId", "name", "email"] ==>
      Get(session, k) == Get(Get(response, "data"), k)
  {
    var data := Get(response, "data");
    Obj(map["authenticated" := Bool(true)]
      ["token" := Get(data, "token")]
      ["role" := Get(data, "role")]
      ["userId" := Get(data, "userId")]
      ["name" := Get(data, "name")]
      ["email" := Get(data, "email")]
      ["expiresAt" := Int(now + SessionLength)])
  }

  /** Where the page navigates after a successful login: the same for every role. */
  function LandingRoute(role: Value): (route: string)
    ensures route == "dashboard"
  {
    if StrictEq(role, Str("ADMIN")) then "dashboard" else "dashboard"
  }

  class LoginPage {
    var showSuccessToast: bool
    var showErrorToast: bool

    constructor ()
      ensures !showSuccessToast && !showErrorToast
    {
      showSuccessToast := false;
      showErrorToast := false;
    }

    /** The mutation's `onSuccess` at time `now`: save the session, toast, navigate. */
    method OnSuccess(storage: Storage, response: Value, now: int) returns (route: string)
      modifies this, storage
      ensures storage.items == old(storage.items)[StorageKey := Serialized(SessionFor(response, now))]
      ensures showSuccessToast && showErrorToast == old(showErrorToast)
      ensures route == "dashboard"
    {
      storage.SetItem(StorageKey, SessionFor(response, now));
      showSuccessToast := true;
      route := LandingRoute(Get(Get(response, "data"), "role"));
    }

    /** The mutation's `onError`: only the error toast; storage is untouched. */
    method OnError()
      modifies this
      ensures showErrorToast && showSuccessToast == old(showSuccessToast)
    {
      showErrorToast := true;
    }
  }
}
