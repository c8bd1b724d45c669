/**
 The slice of PHP value semantics the connectors depend on: decoded JSON values,
 truthiness (`if ($x)`, `!$x`), the null-coalescing lookup `$a[$k] ?? $d`,
 the string cast used by concatenation, and `strcmp`.
 */
module Php {

  /** Absent-or-present value; `None` stands for a missing key or a JSON null. */
  datatype Option<+T> = None | Some(value: T) {

    /** `$x ?? $default` once the lookup has been made */
    function GetOr(default: T): T {
      match this
      case Some(v) => v
      case None => default
    }
  }

  /** The outcome of a call that may throw: a caught exception becomes `Threw`. */
  datatype Attempt<+T> = Done(value: T) | Threw

  /** A decoded JSON value as PHP holds it. Floats are not modelled. */
  datatype Json =
    | Null
    | Bool(b: bool)
    | Num(n: int)
    | Str(s: string)
    | List(items: seq<Json>)
    | Object(entries: map<string, Json>)

  /** What the host's `deliverPayload` gives back: `false` when the send is suppressed, the
      decoded reply body, or an exception. */
  datatype Reply = Suppressed | Responded(body: Json) | Raised

  /** `$response === false`: a suppressed send, or a reply body that decodes to `false`. */
  predicate IsFalse(reply: Reply) {
    reply.Suppressed? || reply == Responded(Bool(false))
  }

  /** PHP's truthiness of a string: only "" and "0" are falsy. */
  predicate TruthyString(s: string) {
    s != "" && s != "0"
  }

  /** PHP's truthiness of a decoded value. */
  predicate Truthy(j: Json) {
    match j
    case Null => false
    case Bool(b) => b
    case Num(n) => n != 0
    case Str(s) => TruthyString(s)
    case List(items) => |items| > 0
    case Object(entries) => |entries| > 0
  }

  /** `isset($m[$k])`: the key is present and not null. */
  function Get(m: map<string, Json>, key: string): (r: Option<Json>)
    ensures r.Some? <==> key in m && m[key] != Null
    ensures r.Some? ==> r.value == m[key]
  {
    if key in m && m[key] != Null then Some(m[key]) else None
  }

  /** `$j[$key]` under `??`: only an object has string keys (the keys used here are never numeric). */
  function At(j: Json, key: string): (r: Option<Json>)
    ensures r.Some? ==> j.Object? && key in j.entries && r.value == j.entries[key] && r.value != Null
    ensures j.Object? && key in j.entries && j.entries[key] != Null ==> r.Some?
  {
    match j
    case Object(entries) => Get(entries, key)
    case _ => None
  }

  /** `$j[$key] ?? $default` */
  function Coalesce(j: Json, key: string, default: Json): Json {
    At(j, key).GetOr(default)
  }

  function DigitChar(d: nat): (c: char)
    requires d < 10
    ensures '0' <= c <= '9'
  {
    "0123456789"[d]
  }

  /** Decimal text of a natural number, most significant digit first. */
  function NatToString(n: nat): (r: string)
    ensures |r| > 0
    ensures forall i :: 0 <= i < |r| ==> '0' <= r[i] <= '9'
    decreases n
  {
    if n < 10 then [DigitChar(n)] else NatToString(n / 10) + [DigitChar(n % 10)]
  }

  /** `(string)$j`, which is also what `.` concatenation applies to its operands. */
  function ToPhpString(j: Json): string {
    match j
    case Null => ""
    case Bool(b) => if b then "1" else ""
    case Num(n) => if n < 0 then "-" + NatToString(-n) else NatToString(n)
    case Str(s) => s
    case List(_) => "Array"
    case Object(_) => "Array"
  }

  /** `strcmp($a, $b) < 0`: lexicographic by character, a proper prefix first.
      Comparing code points orders strings as comparing their UTF-8 bytes does. */
  predicate StrBefore(a: string, b: string)
    decreases |a|
  {
    |b| > 0 && (|a| == 0 || a[0] < b[0] || (a[0] == b[0] && StrBefore(a[1..], b[1..])))
  }

  /** The sign of `strcmp($a, $b)`, which is all `usort` looks at. */
  function Strcmp(a: string, b: string): (r: int)
    ensures r < 0 <==> StrBefore(a, b)
    ensures r == 0 <==> a == b
    ensures r > 0 <==> StrBefore(b, a)
  {
    StrBeforeTrichotomy(a, b);
    StrBeforeIrreflexive(a);
    if StrBefore(a, b) then -1
    else if a == b then 0
    else 1
  }

  lemma {:induction false} StrBeforeIrreflexive(a: string)
    ensures !StrBefore(a, a)
    decreases |a|
  {
    if |a| > 0 {
      StrBeforeIrreflexive(a[1..]);
    }
  }

  lemma {:induction false} StrBeforeTrichotomy(a: string, b: string)
    ensures StrBefore(a, b) || a == b || StrBefore(b, a)
    ensures !(StrBefore(a, b) && StrBefore(b, a))
    decreases |a|
  {
    if |a| > 0 && |b| > 0 {
      StrBeforeTrichotomy(a[1..], b[1..]);
      if a[0] == b[0] && a[1..] == b[1..] {
        assert a == [a[0]] + a[1..] && b == [b[0]] + b[1..];
      }
    }
  }

  lemma {:induction false} StrBeforeTransitive(a: string, b: string, c: string)
    requires StrBefore(a, b) && StrBefore(b, c)
    ensures StrBefore(a, c)
    decreases |a|
  {
    if |a| > 0 && a[0] == b[0] && b[0] == c[0] {
      StrBeforeTransitive(a[1..], b[1..], c[1..]);
    }
  }

  /** `strcmp` is antisymmetric in sign and transitive: the order `usort` needs. */
  lemma StrcmpIsTotalOrder(a: string, b: string, c: string)
    ensures Strcmp(a, b) == -Strcmp(b, a)
    ensures Strcmp(a, b) <= 0 && Strcmp(b, c) <= 0 ==> Strcmp(a, c) <= 0
  {
    if StrBefore(a, b) && StrBefore(b, c) {
      StrBeforeTransitive(a, b, c);
    }
  }

  /** `ArrayHelper::remove($m, $key)`: the value under the key (null when absent) and the map without it. */
  function Remove(m: map<string, Json>, key: string): (r: (Json, map<string, Json>))
    ensures r.0 == (if key in m then m[key] else Null)
    ensures r.1.Keys == m.Keys - {key}
    ensures forall k :: k in r.1 ==> r.1[k] == m[k]
  {
    (if key in m then m[key] else Null, m - {key})
  }
}
