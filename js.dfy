/** The JavaScript values the client handles and the handful of language
    operations its logic relies on: truthiness, `||` chains, property reads,
    object spread, `String(v)`, `x.toString()`, `Number(v)` and `===`.
    `undefined` is never a `Json`: a missing property or argument is `None`. */
module Js {
  import opened Wrappers
  import opened Text

  /** A JavaScript value. Numbers are integers (or NaN); objects are compared by
      value, not by reference. */
  datatype Json =
    | JNull
    | JBool(b: bool)
    | JNum(n: int)
    | JNaN
    | JStr(s: string)
    | JArr(xs: seq<Json>)
    | JObj(m: map<string, Json>)

  /** A plain object: its own enumerable properties. */
  type Obj = map<string, Json>

  /** A thrown error: its `message`, and the HTTP response when the error
      came from a request (`err.response`). */
  datatype JsError = JsError(message: string, response: Option<Response>)

  datatype Response = Response(status: int, data: Json)

  /** `Boolean(v)`, with `None` for `undefined`. */
  predicate Truthy(v: Option<Json>) {
    match v
    case None => false
    case Some(JNull) => false
    case Some(JBool(b)) => b
    case Some(JNum(n)) => n != 0
    case Some(JNaN) => false
    case Some(JStr(s)) => s != ""
    case Some(JArr(_)) => true
    case Some(JObj(_)) => true
  }

  /** `xs[0] || xs[1] || ... || last`: the first truthy operand, else `last`. */
  function FirstTruthy(xs: seq<Option<Json>>, last: Option<Json>): (r: Option<Json>)
    ensures (exists i | 0 <= i < |xs| :: Truthy(xs[i]) && r == xs[i] && forall k | 0 <= k < i :: !Truthy(xs[k]))
         || (r == last && forall k | 0 <= k < |xs| :: !Truthy(xs[k]))
  {
    if xs == [] then last
    else if Truthy(xs[0]) then xs[0]
    else
      var r := FirstTruthy(xs[1..], last);
      assert forall k | 1 <= k < |xs| :: xs[k] == xs[1..][k - 1];
      r
  }

  /** The first truthy operand is the value of the chain. */
  lemma FirstTruthyAt(xs: seq<Option<Json>>, last: Option<Json>, i: nat)
    requires i < |xs| && Truthy(xs[i]) && forall k | 0 <= k < i :: !Truthy(xs[k])
    ensures FirstTruthy(xs, last) == xs[i]
  {
  }

  /** `a || b || last`. */
  lemma FirstTruthyOfTwo(a: Option<Json>, b: Option<Json>, last: Option<Json>)
    ensures FirstTruthy([a, b], last) == if Truthy(a) then a else if Truthy(b) then b else last
  {
    if !Truthy(a) && Truthy(b) { FirstTruthyAt([a, b], last, 1); }
  }

  /** The string keys an array exposes for its elements: "0", "1", ... */
  lemma IndexKeysDistinct()
    ensures forall m: nat, n: nat {:trigger NatToString(m), NatToString(n)} ::
      NatToString(m) == NatToString(n) ==> m == n
  {
    forall m: nat, n: nat ensures NatToString(m) == NatToString(n) ==> m == n {
      NatToStringInjective(m, n);
    }
  }

  /** The own enumerable properties of an array: index keys to elements. */
  function IndexMap(xs: seq<Json>): (r: Obj)
    ensures forall i | 0 <= i < |xs| :: NatToString(i) in r && r[NatToString(i)] == xs[i]
    ensures forall k | k in r :: exists i | 0 <= i < |xs| :: k == NatToString(i)
  {
    IndexKeysDistinct();
    map i | 0 <= i < |xs| :: NatToString(i) := xs[i]
  }

  /** The characters of a string as one-character strings. */
  function Chars(s: string): (r: seq<Json>)
    ensures |r| == |s| && forall i | 0 <= i < |s| :: r[i] == JStr([s[i]])
  {
    seq(|s|, i requires 0 <= i < |s| => JStr([s[i]]))
  }

  /** `{...v}`: the own enumerable properties of `v`; spreading `null`,
      `undefined` or a boolean or number adds nothing. */
  function Spread(v: Option<Json>): Obj {
    match v
    case Some(JObj(m)) => m
    case Some(JArr(xs)) => IndexMap(xs)
    case Some(JStr(s)) => IndexMap(Chars(s))
    case _ => map[]
  }

  /** Spreading a plain object copies its entries. */
  lemma SpreadObject(m: Obj)
    ensures Spread(Some(JObj(m))) == m
  {
  }

  /** `m.k` for a plain object. */
  function Field(m: Obj, k: string): (r: Option<Json>)
    ensures r == Prop(JObj(m), k)
  {
    if k in m then Some(m[k]) else None
  }

  /** `m` with `k` set to `v`; a property whose value is `undefined` reads the
      same as an absent one, so it is left out. */
  function With(m: Obj, k: string, v: Option<Json>): (r: Obj)
    ensures Prop(JObj(r), k) == v
    ensures forall k2 | k2 != k :: Prop(JObj(r), k2) == Prop(JObj(m), k2)
  {
    match v
    case None => m - {k}
    case Some(x) => m[k := x]
  }

  /** `{...a, ...b}`: every property of `b`, and the properties of `a` that
      `b` does not have. */
  function Merge(a: Obj, b: Obj): (r: Obj)
    ensures r.Keys == a.Keys + b.Keys
    ensures forall k | k in b :: r[k] == b[k]
    ensures forall k | k in a && k !in b :: r[k] == a[k]
  {
    map k | k in a.Keys + b.Keys :: if k in b then b[k] else a[k]
  }

  /** `v[k]` for an object, array or string (`None` is `undefined`);
      reading a property of `null` or `undefined` throws, which callers
      check first with `IsNullish`. */
  function Prop(v: Json, k: string): Option<Json> {
    match v
    case JObj(m) => if k in m then Some(m[k]) else None
    case JArr(xs) =>
      if k == "length" then Some(JNum(|xs|))
      else (match ParseNat(k) case Some(i) => if i < |xs| then Some(xs[i]) else None case None => None)
    case JStr(s) =>
      if k == "length" then Some(JNum(Utf16Length(s)))
      else (match ParseNat(k) case Some(i) => if i < |s| then Some(JStr([s[i]])) else None case None => None)
    case _ => None
  }

  /** `v?.k`: `undefined` when `v` is `null` or `undefined`. */
  function OptProp(v: Option<Json>, k: string): Option<Json> {
    match v
    case None => None
    case Some(JNull) => None
    case Some(x) => Prop(x, k)
  }

  predicate IsNullish(v: Option<Json>) {
    v == None || v == Some(JNull)
  }

  /** `err.response?.data?.<k>`. */
  function ResponseField(e: JsError, k: string): Option<Json> {
    match e.response
    case None => None
    case Some(resp) => OptProp(Some(resp.data), k)
  }

  /** `err.response?.data?.message || err.message || fallback`, the text
      the client shows for a failed call. */
  function ErrorText(e: JsError, fallback: string): (r: string)
    ensures Truthy(ResponseField(e, "message")) ==> r == ToStr(ResponseField(e, "message"))
    ensures !Truthy(ResponseField(e, "message")) && e.message != "" ==> r == e.message
    ensures !Truthy(ResponseField(e, "message")) && e.message == "" ==> r == fallback
  {
    FirstTruthyOfTwo(ResponseField(e, "message"), Some(JStr(e.message)), Some(JStr(fallback)));
    ToStr(FirstTruthy([ResponseField(e, "message"), Some(JStr(e.message))], Some(JStr(fallback))))
  }

  /** `String(v)`, which is also what a template literal `${v}` produces. */
  function ToStr(v: Option<Json>): string {
    match v
    case None => "undefined"
    case Some(x) => ValueToStr(x)
  }

  function ValueToStr(v: Json): string
    decreases v, 1, 0
  {
    match v
    case JNull => "null"
    case JBool(b) => if b then "true" else "false"
    case JNum(n) => IntToString(n)
    case JNaN => "NaN"
    case JStr(s) => s
    case JArr(xs) => Join(xs, 0)
    case JObj(_) => "[object Object]"
  }

  /** `xs.slice(i).join(",")`: `null` elements become "". */
  function Join(xs: seq<Json>, i: nat): string
    requires i <= |xs|
    decreases JArr(xs), 0, |xs| - i
  {
    if i == |xs| then ""
    else
      var head := if xs[i] == JNull then "" else ValueToStr(xs[i]);
      if i + 1 == |xs| then head else head + "," + Join(xs, i + 1)
  }

  /** `v.toString()`: a TypeError for `null` and `undefined`, else `String(v)`. */
  function ToStringMethod(v: Option<Json>): (r: Result<string, JsError>)
    ensures r.Failure? <==> IsNullish(v)
    ensures r.Success? ==> r.value == ToStr(v)
  {
    if IsNullish(v) then Failure(JsError("Cannot read properties of " + ToStr(v) + " (reading 'toString')", None))
    else Success(ToStr(v))
  }

  /** `x === y`: NaN equals nothing; objects and arrays are compared by value. */
  predicate StrictEq(x: Option<Json>, y: Option<Json>) {
    x == y && x != Some(JNaN)
  }

  /** A decimal integer with an optional sign, as `Number` reads it. */
  function ParseSignedDecimal(t: string): Option<int> {
    if t == [] then None
    else
      var sign := if t[0] == '-' then -1 else 1;
      var digits := if t[0] == '-' || t[0] == '+' then t[1..] else t;
      if digits != [] && forall k | 0 <= k < |digits| :: IsDigit(digits[k])
      then Some(sign * ParseDigits(digits)) else None
  }

  /** `Number(v)`. A string is trimmed; a blank one is 0. Only decimal integer
      strings are read; every other string gives NaN. */
  function JsNumber(v: Option<Json>): (r: Json)
    ensures r.JNum? || r.JNaN?
  {
    match v
    case None => JNaN
    case Some(JNull) => JNum(0)
    case Some(JBool(b)) => JNum(if b then 1 else 0)
    case Some(JNum(n)) => JNum(n)
    case Some(JNaN) => JNaN
    case Some(JObj(_)) => JNaN
    case Some(x) =>
      var t := Trim(ToStr(Some(x)));
      if t == "" then JNum(0)
      else match ParseSignedDecimal(t)
           case Some(n) => JNum(n)
           case None => JNaN
  }

  /** Numbers survive `Number(String(n))`. */
  lemma NumberOfNumberString(n: int)
    ensures JsNumber(Some(JStr(IntToString(n)))) == JNum(n)
  {
    var s := IntToString(n);
    var m: nat := if n < 0 then -n else n;
    var d := NatToString(m);
    assert s[0] == '-' || IsDigit(s[0]) by { if n >= 0 { assert s == d; } }
    assert IsDigit(s[|s| - 1]) by { assert s[|s| - 1] == d[|d| - 1]; }
    TrimOfUnpadded(s);
    ParseSignedOfIntToString(n);
    assert ToStr(Some(JStr(s))) == s;
  }

  lemma ParseSignedOfIntToString(n: int)
    ensures ParseSignedDecimal(IntToString(n)) == Some(n)
  {
    var m: nat := if n < 0 then -n else n;
    ParseDigitsOfNat(m);
    var d := NatToString(m);
    assert IsDigit(d[0]);
    if n < 0 {
      assert IntToString(n)[1..] == d;
    }
  }

  lemma TrimOfUnpadded(s: string)
    requires s != [] && !IsSpace(s[0]) && !IsSpace(s[|s| - 1])
    ensures Trim(s) == s
  {
    var i, j := TrimBounds(s);
  }
  /** `v.k` on a value the code holds directly (no `?.`): reading a property of
      `null` or `undefined` throws a TypeError. */
  function Get(v: Option<Json>, k: string): (r: Result<Option<Json>, JsError>)
    ensures r.Failure? <==> IsNullish(v)
    ensures r.Success? ==> r.value == OptProp(v, k)
  {
    if IsNullish(v) then Failure(JsError("Cannot read properties of " + ToStr(v) + " (reading '" + k + "')", None))
    else Success(Prop(v.value, k))
  }

  /** `v.trim()`: defined on strings only; anything else throws. */
  function TrimOf(v: Option<Json>): (r: Result<string, JsError>)
    ensures r.Success? <==> v.Some? && v.value.JStr?
    ensures r.Success? ==> r.value == Trim(v.value.s)
  {
    match v
    case Some(JStr(s)) => Success(Trim(s))
    case _ =>
      if IsNullish(v) then Failure(JsError("Cannot read properties of " + ToStr(v) + " (reading 'trim')", None))
      else Failure(JsError("trim is not a function", None))
  }

  /** `err.response?.data?.message || err.response?.data?.error || err.message
      || fallback`, the text the editing pages alert after a failed call. */
  function DetailedErrorText(e: JsError, fallback: string): (r: string)
    ensures Truthy(ResponseField(e, "message")) ==> r == ToStr(ResponseField(e, "message"))
    ensures !Truthy(ResponseField(e, "message")) && Truthy(ResponseField(e, "error"))
      ==> r == ToStr(ResponseField(e, "error"))
    ensures !Truthy(ResponseField(e, "message")) && !Truthy(ResponseField(e, "error")) && e.message != ""
      ==> r == e.message
    ensures !Truthy(ResponseField(e, "message")) && !Truthy(ResponseField(e, "error")) && e.message == ""
      ==> r == fallback
  {
    FirstTruthyOfThree(ResponseField(e, "message"), ResponseField(e, "error"), Some(JStr(e.message)), Some(JStr(fallback)));
    ToStr(FirstTruthy([ResponseField(e, "message"), ResponseField(e, "error"), Some(JStr(e.message))], Some(JStr(fallback))))
  }

  /** `a || b || c || last`. */
  lemma FirstTruthyOfThree(a: Option<Json>, b: Option<Json>, c: Option<Json>, last: Option<Json>)
    ensures FirstTruthy([a, b, c], last) ==
      if Truthy(a) then a else if Truthy(b) then b else if Truthy(c) then c else last
  {
    if !Truthy(a) && Truthy(b) { FirstTruthyAt([a, b, c], last, 1); }
    if !Truthy(a) && !Truthy(b) && Truthy(c) { FirstTruthyAt([a, b, c], last, 2); }
  }
}
