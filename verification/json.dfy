/** JSON values as the request body and the history file carry them, with the
    pieces of JavaScript's value semantics that the handlers depend on. */
module Json {
  import opened Wrappers

  /** A parsed JSON value. Numbers are finite reals; object key order is not kept. */
  datatype Json =
    | JNull
    | JBool(b: bool)
    | JNum(n: real)
    | JStr(s: string)
    | JArr(items: seq<Json>)
    | JObj(fields: map<string, Json>)

  /** JavaScript truthiness of a request field; `None` is `undefined`.
      `null`, `false`, `0`, `""` and `undefined` are falsy, every other JSON value is truthy. */
  predicate Truthy(v: Option<Json>) {
    match v
    case None => false
    case Some(JNull) => false
    case Some(JBool(b)) => b
    case Some(JNum(n)) => n != 0.0
    case Some(JStr(s)) => s != ""
    case Some(JArr(_)) => true
    case Some(JObj(_)) => true
  }

  /** `typeof v === 'object'`: true of `null`, arrays and objects. */
  predicate IsObjectType(v: Option<Json>) {
    v.Some? && (v.value.JNull? || v.value.JArr? || v.value.JObj?)
  }

  function DigitChar(d: nat): char
    requires d < 10
  {
    (48 + d) as char
  }

  /** The property key of array index `i`: its canonical decimal spelling. */
  function IndexKey(i: nat): (r: string)
    ensures 1 <= |r|
    ensures forall k :: 0 <= k < |r| ==> '0' <= r[k] <= '9'
    ensures |r| > 1 ==> r[0] != '0'
    ensures i < 10 <==> |r| == 1
  {
    if i < 10 then [DigitChar(i)] else IndexKey(i / 10) + [DigitChar(i % 10)]
  }

  /** The number a string of decimal digits denotes. */
  function DecimalValue(s: string): nat
    requires forall k :: 0 <= k < |s| ==> '0' <= s[k] <= '9'
  {
    if s == [] then 0
    else DecimalValue(s[..|s| - 1]) * 10 + ((s[|s| - 1] as int) - 48)
  }

  /** Reading an index key back as a decimal number gives the index. */
  lemma {:induction false} IndexKeyRoundTrip(i: nat)
    ensures DecimalValue(IndexKey(i)) == i
  {
    if i >= 10 {
      var r := IndexKey(i);
      assert r[..|r| - 1] == IndexKey(i / 10);
      IndexKeyRoundTrip(i / 10);
    }
  }

  /** Distinct indices have distinct keys. */
  lemma IndexKeyInjective()
    ensures forall i: nat, j: nat :: IndexKey(i) == IndexKey(j) ==> i == j
  {
    forall i: nat, j: nat
      ensures IndexKey(i) == IndexKey(j) ==> i == j
    {
      IndexKeyRoundTrip(i);
      IndexKeyRoundTrip(j);
    }
  }

  /** The own enumerable properties of an array, as object spread `{...a}` copies them. */
  function SpreadArray(a: seq<Json>): (r: map<string, Json>)
    ensures forall i :: 0 <= i < |a| ==> IndexKey(i) in r && r[IndexKey(i)] == a[i]
    ensures r.Keys == set i | 0 <= i < |a| :: IndexKey(i)
  {
    IndexKeyInjective();
    map i | 0 <= i < |a| :: IndexKey(i) := a[i]
  }
}
