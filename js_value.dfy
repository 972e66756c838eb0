/**
 * The part of JavaScript's value semantics that the panel client and the
 * button handler rely on: JSON values as they arrive from the panel, the
 * `undefined` of an absent property, truthiness, the `||` operator,
 * optional chaining (`a?.b?.c`) and `String(v)`.
 */
module JsValue {

  datatype Option<+T> = None | Some(value: T)

  /** A JSON value. Numbers are integers (see README, "Left out"). */
  datatype Json =
    | JNull
    | JBool(b: bool)
    | JNum(n: int)
    | JStr(s: string)
    | JArr(items: seq<Json>)
    | JObj(fields: map<string, Json>)

  /** A JavaScript value read out of JSON: `None` is `undefined`. */
  type Value = Option<Json>

  /** JavaScript truthiness: `undefined`, `null`, `false`, `0` and `""` are falsy. */
  predicate Truthy(v: Value) {
    match v
    case None => false
    case Some(JNull) => false
    case Some(JBool(b)) => b
    case Some(JNum(n)) => n != 0
    case Some(JStr(s)) => s != ""
    case Some(_) => true
  }

  /** `a || b`: the left operand when it is truthy, the right one otherwise. */
  function Or(a: Value, b: Value): (r: Value)
    ensures Truthy(r) <==> Truthy(a) || Truthy(b)
    ensures Truthy(a) ==> r == a
    ensures !Truthy(a) ==> r == b
  {
    if Truthy(a) then a else b
  }

  /** `v?.key`: the property of an object, `undefined` for anything else. */
  function Get(v: Value, key: string): Value {
    if v.Some? && v.value.JObj? && key in v.value.fields then Some(v.value.fields[key]) else None
  }

  /** `v?.k1?.k2?.…`: an optional chain along a path of property names. */
  function At(v: Value, path: seq<string>): Value
    decreases |path|
  {
    if path == [] then v else At(Get(v, path[0]), path[1..])
  }

  /** Path `i` is the first of `paths` whose value in `v` is truthy. */
  predicate FirstTruthyAt(v: Value, paths: seq<seq<string>>, i: nat)
    requires i < |paths|
  {
    Truthy(At(v, paths[i])) && forall j :: 0 <= j < i ==> !Truthy(At(v, paths[j]))
  }

  /**
   * `At(v, p0) || At(v, p1) || … || At(v, pn)`: the first truthy value
   * along the paths in order, or the value of the last path when none is.
   */
  function Resolve(v: Value, paths: seq<seq<string>>): Value
    requires |paths| > 0
  {
    if |paths| == 1 then At(v, paths[0]) else Or(At(v, paths[0]), Resolve(v, paths[1..]))
  }

  /**
   * The `||` chain is truthy when some path is; it yields the value of the
   * first truthy path, and the last path's value when none is truthy.
   */
  lemma {:induction false} ResolveFirstTruthy(v: Value, paths: seq<seq<string>>)
    requires |paths| > 0
    ensures Truthy(Resolve(v, paths)) <==> exists i :: 0 <= i < |paths| && Truthy(At(v, paths[i]))
    ensures forall i :: 0 <= i < |paths| && FirstTruthyAt(v, paths, i) ==> Resolve(v, paths) == At(v, paths[i])
    ensures (forall i :: 0 <= i < |paths| ==> !Truthy(At(v, paths[i]))) ==> Resolve(v, paths) == At(v, paths[|paths| - 1])
  {
    if |paths| > 1 {
      ResolveFirstTruthy(v, paths[1..]);
      assert forall i :: 1 <= i < |paths| ==> paths[1..][i - 1] == paths[i];
    }
  }

  /** `String(v)`. */
  function ToStr(v: Value): string {
    match v
    case None => "undefined"
    case Some(j) => JsonToStr(j)
  }

  function JsonToStr(j: Json): string
    decreases j, 1
  {
    match j
    case JNull => "null"
    case JBool(b) => if b then "true" else "false"
    case JNum(n) => IntToStr(n)
    case JStr(s) => s
    case JArr(items) => ItemsToStr(j, 0)
    case JObj(_) => "[object Object]"
  }

  /** `Array.prototype.join(",")` of the elements from index `i` on: a null element becomes "". */
  function ItemsToStr(j: Json, i: nat): string
    requires j.JArr?
    decreases j, 0, |j.items| - i
  {
    if i >= |j.items| then ""
    else
      var e := if j.items[i] == JNull then "" else JsonToStr(j.items[i]);
      if i + 1 == |j.items| then e else e + "," + ItemsToStr(j, i + 1)
  }

  /** The decimal digits of a natural number, without leading zeros. */
  function NatToStr(n: nat): (s: string)
    ensures |s| > 0 && (forall i :: 0 <= i < |s| ==> '0' <= s[i] <= '9')
    ensures |s| > 1 ==> s[0] != '0'
  {
    if n < 10 then [Digit(n)] else NatToStr(n / 10) + [Digit(n % 10)]
  }

  function Digit(d: nat): (c: char)
    requires d < 10
    ensures '0' <= c <= '9'
  {
    ('0' as int + d) as char
  }

  /** The number a string of decimal digits denotes, read most significant digit first. */
  function DecimalValue(s: string): nat
    requires forall i :: 0 <= i < |s| ==> '0' <= s[i] <= '9'
  {
    if s == [] then 0 else 10 * DecimalValue(s[..|s| - 1]) + (s[|s| - 1] as int - '0' as int)
  }

  /** The digits `NatToStr` writes denote `n`: the text is the decimal numeral of `n`. */
  lemma {:induction false} NatToStrValue(n: nat)
    ensures DecimalValue(NatToStr(n)) == n
  {
    var s := NatToStr(n);
    if n >= 10 {
      NatToStrValue(n / 10);
      assert s[..|s| - 1] == NatToStr(n / 10);
    }
  }

  /** Distinct numbers have distinct texts. */
  lemma NatToStrInjective(a: nat, b: nat)
    ensures NatToStr(a) == NatToStr(b) ==> a == b
  {
    NatToStrValue(a);
    NatToStrValue(b);
  }

  function IntToStr(n: int): string {
    if n < 0 then "-" + NatToStr(-n) else NatToStr(n)
  }

  /** Distinct integers have distinct texts: a minus sign is never a digit. */
  lemma IntToStrInjective(a: int, b: int)
    ensures IntToStr(a) == IntToStr(b) ==> a == b
  {
    if IntToStr(a) == IntToStr(b) {
      if a < 0 && b < 0 {
        assert NatToStr(-a) == IntToStr(a)[1..];
        NatToStrInjective(-a, -b);
      } else if a >= 0 && b >= 0 {
        NatToStrInjective(a, b);
      }
    }
  }

  /** Concatenation regroups freely; stated once so that proofs about request traces can cite it. */
  lemma AppendAssociates<T>(a: seq<T>, b: seq<T>, c: seq<T>)
    ensures a + (b + c) == (a + b) + c
  {
  }
}
