/**
 * The sidebar (Components/aside.jsx): the user's initials, the effect that
 * drops a session about to expire, and sign-out.
 */
module Aside {
  import opened Js
  import opened LocalStorage

  // ---------------------------------------------------------------------------
  // Initials

  /** `s.split(' ')`: the pieces between single spaces, empty pieces included. */
  function Split(s: string): (parts: seq<string>)
    ensures |parts| >= 1
    ensures forall i :: 0 <= i < |parts| ==> ' ' !in parts[i]
  {
    if s == [] then [""]
    else if s[0] == ' ' then [""] + Split(s[1..])
    else
      var rest := Split(s[1..]);
      [[s[0]] + rest[0]] + rest[1..]
  }

  /** `parts.join(' ')` */
  function Join(parts: seq<string>): string
    requires |parts| >= 1
  {
    if |parts| == 1 then parts[0] else parts[0] + " " + Join(parts[1..])
  }

  /** Joining the pieces back with spaces gives the original text. */
  lemma {:induction false} JoinSplit(s: string)
    ensures Join(Split(s)) == s
  {
    if s != [] {
      JoinSplit(s[1..]);
      var rest := Split(s[1..]);
      if s[0] == ' ' {
        assert Split(s)[1..] == rest;
      } else {
        assert Split(s)[1..] == rest[1..];
        if |rest| == 1 {
        } else {
          assert Join(rest) == rest[0] + " " + Join(rest[1..]);
        }
      }
    }
  }

  /** `part.charAt(0)`: the empty string for an empty piece. */
  function CharAt0(part: string): string {
    if part == [] then [] else [part[0]]
  }

  /** `parts.map(p => p.charAt(0)).join('')` */
  function FirstChars(parts: seq<string>): string {
    if parts == [] then [] else CharAt0(parts[0]) + FirstChars(parts[1..])
  }

  /**
   * The characters of `s` that begin a word: each non-space character that
   * is preceded by a space, or (when `atStart`) by the start of the text.
   */
  function WordStarts(s: string, atStart: bool): string {
    if s == [] then []
    else if s[0] == ' ' then WordStarts(s[1..], true)
    else (if atStart then [s[0]] else []) + WordStarts(s[1..], false)
  }

  lemma {:induction false} FirstCharsSplit(s: string)
    ensures FirstChars(Split(s)) == WordStarts(s, true)
    ensures FirstChars(Split(s)[1..]) == WordStarts(s, false)
  {
    if s != [] {
      FirstCharsSplit(s[1..]);
      var rest := Split(s[1..]);
      if s[0] == ' ' {
        assert Split(s)[1..] == rest;
      } else {
        assert Split(s)[1..] == rest[1..];
      }
    }
  }

  /**
   * `name?.split(' ').map(p => p.charAt(0)).join('')`: the first letter of
   * each word, in order; undefined without a name; calling `split` on a
   * value that is not a string throws.
   */
  function Initials(name: Value): (r: Outcome<Value>)
    ensures Nullish(name) ==> r == Ok(Undefined)
    ensures name.Str? ==> r == Ok(Str(WordStarts(name.s, true)))
    ensures !Nullish(name) && !name.Str? ==> r == Throws
  {
    match name
    case Undefined => Ok(Undefined)
    case Null => Ok(Undefined)
    case Str(s) =>
      FirstCharsSplit(s);
      Ok(Str(FirstChars(Split(s))))
    case _ => Throws
  }

  /** A word start is any non-space character whose predecessor is a space (or the start). */
  lemma {:induction false} WordStartsAt(s: string, atStart: bool, i: nat)
    requires i < |s| && s[i] != ' ' && (if i == 0 then atStart else s[i - 1] == ' ')
    ensures s[i] in WordStarts(s, atStart)
  {
    if i > 0 {
      WordStartsAt(s[1..], s[0] == ' ', i - 1);
    }
  }

  /** Every initial is a non-space character of the name. */
  lemma {:induction false} WordStartsFromName(s: string, atStart: bool)
    ensures forall c :: c in WordStarts(s, atStart) ==> c in s && c != ' '
  {
    if s != [] {
      WordStartsFromName(s[1..], true);
      WordStartsFromName(s[1..], false);
    }
  }

  // ---------------------------------------------------------------------------
  // Session expiry and sign-out

  /** A session is dropped once fewer than ten seconds of it remain. */
  const ExpiryMargin: int := 10000

  /**
   * The expiry effect's test at time `now`: authenticated, with an
   * `expiresAt`, and `expiresAt - Date.now() < 10000` (a NaN difference is
   * never below the margin).
   */
  predicate Expiring(view: AuthView, now: int)
    ensures Expiring(view, now) ==> Truthy(view.isAuthenticated) && Truthy(view.expiresAt)
    ensures forall t: int :: Truthy(view.isAuthenticated) && view.expiresAt == Int(t) && t != 0 ==>
      (Expiring(view, now) <==> t < now + ExpiryMargin)
  {
    Truthy(view.isAuthenticated) && Truthy(view.expiresAt) &&
    ToNumber(view.expiresAt).Fin? && ToNumber(view.expiresAt).n - now < ExpiryMargin
  }

  /** The effect on `[isAuthenticated, expiresAt]`; returns where it navigates, if anywhere. */
  method ExpiryEffect(storage: Storage, view: AuthView, now: int) returns (route: Option<string>)
    modifies storage
    ensures Expiring(view, now) ==> storage.items == old(storage.items) - {StorageKey} && route == Some("/")
    ensures !Expiring(view, now) ==> storage.items == old(storage.items) && route == None
  {
    route := None;
    if Truthy(view.isAuthenticated) && Truthy(view.expiresAt) {
      var remaining := ToNumber(view.expiresAt);
      if remaining.Fin? && remaining.n - now < ExpiryMargin {
        storage.RemoveItem(StorageKey);
        route := Some("/");
      }
    }
  }

  /** `signOutUser()`: always drops the session and goes to `/`. */
  method SignOutUser(storage: Storage) returns (route: string)
    modifies storage
    ensures storage.items == old(storage.items) - {StorageKey}
    ensures route == "/"
  {
    storage.RemoveItem(StorageKey);
    route := "/";
  }
}
