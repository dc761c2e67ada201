/**
 * The slice of JavaScript's value semantics that the dashboard's components
 * rely on: dynamically typed form and response values, truthiness, the
 * nullish-coalescing operator `??`, strict equality, optional property access
 * `?.`, template-literal rendering `${v}` and the `Number(v)` coercion.
 */
module Js {

  datatype Option<+T> = None | Some(value: T) {
    function GetOr(default: T): T {
      match this
      case Some(v) => v
      case None => default
    }
  }

  /** The result of an expression that may throw a `TypeError`. */
  datatype Outcome<+T> = Ok(value: T) | Throws

  /** A JS number: integers only (see README), or NaN. */
  datatype Num = NaN | Fin(n: int)

  /**
   * A JS value. Plain objects are maps from property names to values; a
   * property that is missing reads as `undefined`. A Date carries its time
   * and the text its `toString()` produces.
   */
  datatype Value =
    | Undefined
    | Null
    | Bool(b: bool)
    | Number(num: Num)
    | Str(s: string)
    | Date(time: int, text: string)
    | Obj(fields: map<string, Value>)

  function Int(n: int): Value { Number(Fin(n)) }

  /** JavaScript truthiness (`if (v)`, `v && ...`, `!v`). */
  predicate Truthy(v: Value) {
    match v
    case Undefined => false
    case Null => false
    case Bool(b) => b
    case Number(x) => x.Fin? && x.n != 0
    case Str(s) => s != ""
    case Date(_, _) => true
    case Obj(_) => true
  }

  predicate Nullish(v: Value) { v.Undefined? || v.Null? }

  /** `v ?? d` */
  function Coalesce(v: Value, d: Value): (r: Value)
    ensures Nullish(v) ==> r == d
    ensures !Nullish(v) ==> r == v
  {
    if Nullish(v) then d else v
  }

  /**
   * `a === b` on the values the components compare (ids): primitives compare
   * by value, NaN equals nothing; two object values are taken as distinct
   * references.
   */
  predicate StrictEq(a: Value, b: Value) {
    a == b && a != Number(NaN) && !a.Obj? && !a.Date?
  }

  /** `o?.k`: undefined on undefined/null, the property of an object, undefined otherwise. */
  function Get(o: Value, k: string): Value {
    match o
    case Obj(f) => if k in f then f[k] else Undefined
    case _ => Undefined
  }

  /** Property `k` of a plain object (as `o.k` or destructuring reads it). */
  function Field(o: map<string, Value>, k: string): Value {
    if k in o then o[k] else Undefined
  }

  /** `j` is the index of the first element whose `key` is strictly equal to `target`. */
  predicate FirstMatch(list: seq<Value>, key: string, target: Value, j: nat) {
    j < |list| && StrictEq(Get(list[j], key), target) &&
    forall i :: 0 <= i < j ==> !StrictEq(Get(list[i], key), target)
  }

  predicate NoMatch(list: seq<Value>, key: string, target: Value) {
    forall i :: 0 <= i < |list| ==> !StrictEq(Get(list[i], key), target)
  }

  /** No two records of the list carry the same id. */
  predicate UniqueIds(list: seq<Value>) {
    forall i, j :: 0 <= i < j < |list| && StrictEq(Get(list[i], "id"), Get(list[j], "id")) ==> false
  }

  /** In a list of distinct ids, the record carrying the target id is the first match. */
  lemma UniqueMatchIsFirst(list: seq<Value>, target: Value, j: nat)
    requires UniqueIds(list) && j < |list| && StrictEq(Get(list[j], "id"), target)
    ensures FirstMatch(list, "id", target, j)
  {
    forall i | 0 <= i < j ensures !StrictEq(Get(list[i], "id"), target) {
      assert target == Get(list[j], "id");
    }
  }

  /**
   * `list.find((o) => o.<key> === target)`, as the index of the first
   * element whose property `key` is strictly equal to `target`.
   */
  function FindBy(list: seq<Value>, key: string, target: Value): (r: Option<nat>)
    ensures r.Some? ==> r.value < |list| && StrictEq(Get(list[r.value], key), target)
    ensures r.Some? ==> forall j :: 0 <= j < r.value ==> !StrictEq(Get(list[j], key), target)
    ensures r.None? ==> forall j :: 0 <= j < |list| ==> !StrictEq(Get(list[j], key), target)
  {
    if list == [] then None
    else if StrictEq(Get(list[0], key), target) then Some(0)
    else match FindBy(list[1..], key, target)
      case None => None
      case Some(k) => Some(k + 1)
  }

  /** `list?.find(...)` on a list that may not be loaded: the element found, or undefined. */
  function Find(list: Option<seq<Value>>, key: string, target: Value): (r: Option<Value>)
    ensures r.Some? <==> list.Some? && exists j :: 0 <= j < |list.value| && StrictEq(Get(list.value[j], key), target)
    ensures r.None? <==> list.None? || NoMatch(list.value, key, target)
    ensures r.Some? ==> StrictEq(Get(r.value, key), target) && r.value in list.value
    ensures forall j: nat :: list.Some? && FirstMatch(list.value, key, target, j) ==> r == Some(list.value[j])
  {
    if list.None? then None
    else match FindBy(list.value, key, target)
      case None => None
      case Some(k) => Some(list.value[k])
  }

  // ---------------------------------------------------------------------------
  // Decimal digits

  predicate IsDigit(c: char) { '0' <= c <= '9' }

  predicate AllDigits(s: string) {
    forall i :: 0 <= i < |s| ==> IsDigit(s[i])
  }

  function DigitChar(d: nat): (c: char)
    requires d < 10
    ensures IsDigit(c)
  {
    ['0', '1', '2', '3', '4', '5', '6', '7', '8', '9'][d]
  }

  function DigitValue(c: char): (d: nat)
    requires IsDigit(c)
    ensures d < 10 && DigitChar(d) == c
  {
    (c as int - '0' as int)
  }

  /** The value of a string of decimal digits, most significant first. */
  function DigitsValue(s: string): nat
    requires AllDigits(s)
  {
    if s == [] then 0 else 10 * DigitsValue(s[..|s| - 1]) + DigitValue(s[|s| - 1])
  }

  /** Shortest decimal rendering of a natural number. */
  function NatToString(n: nat): (s: string)
    ensures |s| >= 1 && AllDigits(s)
  {
    if n < 10 then [DigitChar(n)] else NatToString(n / 10) + [DigitChar(n % 10)]
  }

  /** `${n}` for an integer number. */
  function IntToString(n: int): (s: string)
    ensures |s| >= 1
  {
    if n < 0 then "-" + NatToString(-n) else NatToString(n)
  }

  /**
   * `Number(s)` for a string: the empty string is 0, an optionally signed
   * run of decimal digits is its value, anything else is NaN.
   */
  function StringToNumber(s: string): Num {
    if s == "" then Fin(0)
    else if AllDigits(s) then Fin(DigitsValue(s))
    else if |s| > 1 && (s[0] == '-' || s[0] == '+') && AllDigits(s[1..]) then
      Fin(if s[0] == '-' then 0 - DigitsValue(s[1..]) as int else DigitsValue(s[1..]))
    else NaN
  }

  /** `Number(v)` */
  function ToNumber(v: Value): Num {
    match v
    case Undefined => NaN
    case Null => Fin(0)
    case Bool(b) => Fin(if b then 1 else 0)
    case Number(x) => x
    case Str(s) => StringToNumber(s)
    case Date(t, _) => Fin(t)
    case Obj(_) => NaN
  }

  /** `${v}` / `String(v)` */
  function Render(v: Value): string {
    match v
    case Undefined => "undefined"
    case Null => "null"
    case Bool(b) => if b then "true" else "false"
    case Number(x) => if x.NaN? then "NaN" else IntToString(x.n)
    case Str(s) => s
    case Date(_, text) => text
    case Obj(_) => "[object Object]"
  }

  // ---------------------------------------------------------------------------
  // Decimal round trip

  lemma {:induction false} DigitsValueOfNatToString(n: nat)
    ensures DigitsValue(NatToString(n)) == n
  {
    if n >= 10 {
      var s := NatToString(n);
      var p := NatToString(n / 10);
      assert s == p + [DigitChar(n % 10)];
      assert s[..|s| - 1] == p;
      DigitsValueOfNatToString(n / 10);
    }
  }

  /** A minus sign followed by the digits of a positive number reads back as its negation. */
  lemma NegativeReadsBack(m: nat)
    requires m > 0
    ensures StringToNumber("-" + NatToString(m)) == Fin(-(m as int))
  {
    var digits := NatToString(m);
    var s := "-" + digits;
    assert s[0] == '-' && s[1..] == digits;
    assert !AllDigits(s) by { assert !IsDigit(s[0]); }
    DigitsValueOfNatToString(m);
  }

  /** Reading back the decimal rendering of an integer gives that integer. */
  lemma StringToNumberOfIntToString(n: int)
    ensures StringToNumber(IntToString(n)) == Fin(n)
  {
    if n < 0 {
      NegativeReadsBack(-n);
    } else {
      DigitsValueOfNatToString(n);
    }
  }

  /** `Number(`${n}`) === n` for every integer n. */
  lemma NumberOfRenderedInt(n: int)
    ensures ToNumber(Str(Render(Int(n)))) == Fin(n)
  {
    StringToNumberOfIntToString(n);
  }
}
