/** JavaScript semantics shared by the backend and frontend models: optional
    request fields and their truthiness, HTTP error results, ASCII case mapping,
    `String.prototype.includes`, and `Number.prototype.toFixed(2)` on reals. */
module Js {

  datatype Option<T> = None | Some(value: T)

  /** The `_id` of a user document, as the auth middleware puts it on
      `req.userId`. */
  type UserId = nat

  /** An HTTP error response: status code and the `error` text of its JSON body. */
  datatype ApiError = ApiError(status: nat, message: string)

  datatype Result<T> = Ok(value: T) | Err(error: ApiError)

  /** A scalar value as it arrives in a JSON body or object literal.
      `Undefined` is a key that is absent. */
  datatype Value = Undefined | Null | Bool(b: bool) | Str(s: string) | Num(n: real)

  /** A plain JavaScript object: property name to value. Object spread
      `{...a, ...b}` is map union `a + b` (the right operand wins). */
  type Obj = map<string, Value>

  /** `!!field` for a string body field: absent and "" are falsy. */
  predicate TruthyStr(o: Option<string>) {
    o.Some? && o.value != ""
  }

  /** `!!field` for a numeric body field: absent and 0 are falsy. */
  predicate TruthyNum(o: Option<real>) {
    o.Some? && o.value != 0.0
  }

  predicate IsAsciiUpper(c: char) { 'A' <= c <= 'Z' }
  predicate IsAsciiLower(c: char) { 'a' <= c <= 'z' }

  function UpperChar(c: char): (d: char)
    ensures !IsAsciiLower(d)
    ensures IsAsciiLower(c) || d == c
  {
    if IsAsciiLower(c) then (c as int - 32) as char else c
  }

  function LowerChar(c: char): (d: char)
    ensures !IsAsciiUpper(d)
    ensures IsAsciiUpper(c) || d == c
  {
    if IsAsciiUpper(c) then (c as int + 32) as char else c
  }

  /** `s.toUpperCase()` restricted to ASCII letters. */
  function ToUpper(s: string): (r: string)
    ensures |r| == |s|
    ensures forall i :: 0 <= i < |s| ==> r[i] == UpperChar(s[i])
  {
    seq(|s|, i requires 0 <= i < |s| => UpperChar(s[i]))
  }

  /** `s.toLowerCase()` restricted to ASCII letters. */
  function ToLower(s: string): (r: string)
    ensures |r| == |s|
    ensures forall i :: 0 <= i < |s| ==> r[i] == LowerChar(s[i])
  {
    seq(|s|, i requires 0 <= i < |s| => LowerChar(s[i]))
  }

  /** Upper-casing twice is upper-casing once, so a key that is already upper
      case is found by a lookup that upper-cases its argument. */
  lemma ToUpperIdempotent(s: string)
    ensures ToUpper(ToUpper(s)) == ToUpper(s)
  {
  }

  /** `t` occurs in `s` at position `i`. */
  ghost predicate OccursAt(s: string, t: string, i: int) {
    0 <= i && i + |t| <= |s| && s[i..i + |t|] == t
  }

  /** `s.includes(t)`. */
  function Contains(s: string, t: string): (b: bool)
    ensures b <==> exists i :: OccursAt(s, t, i)
    decreases |s|
  {
    if t <= s then
      assert OccursAt(s, t, 0);
      true
    else if |s| == 0 then
      false
    else
      var b := Contains(s[1..], t);
      assert forall i :: OccursAt(s[1..], t, i) ==> OccursAt(s, t, i + 1);
      assert forall i :: 1 <= i && OccursAt(s, t, i) ==> OccursAt(s[1..], t, i - 1);
      assert !OccursAt(s, t, 0);
      b
  }

  /** Every string includes the empty string. */
  lemma ContainsEmpty(s: string)
    ensures Contains(s, "")
  {
    assert OccursAt(s, "", 0);
  }

  /** `parseFloat(x.toFixed(2))` on an exact real: round to the nearest
      hundredth, halves away from zero (toFixed rounds the magnitude and
      restores the sign). */
  function Round2(x: real): (r: real)
    ensures -1.0 / 200.0 <= r - x <= 1.0 / 200.0
    ensures x >= 1.0 / 200.0 ==> r > 0.0
    ensures x >= 0.0 ==> r >= 0.0
  {
    if x >= 0.0 then
      ((x * 100.0 + 0.5).Floor as real) / 100.0
    else
      -(((-x * 100.0 + 0.5).Floor as real) / 100.0)
  }

  /** A collection without its element `i`: what `deleteOne` leaves. */
  function RemoveAt<T>(s: seq<T>, i: nat): (r: seq<T>)
    requires i < |s|
    ensures |r| == |s| - 1
    ensures forall j :: 0 <= j < i ==> r[j] == s[j]
    ensures forall j :: i <= j < |r| ==> r[j] == s[j + 1]
  {
    s[..i] + s[i + 1..]
  }

  /** What is left after removing element `i` is every element at another
      position. */
  lemma RemoveAtElements<T>(s: seq<T>, i: nat, x: T)
    requires i < |s|
    ensures x in RemoveAt(s, i) <==> exists j :: 0 <= j < |s| && j != i && s[j] == x
  {
    var r := RemoveAt(s, i);
    if x in r {
      var k :| 0 <= k < |r| && r[k] == x;
      if k < i { assert s[k] == x; } else { assert s[k + 1] == x; }
    }
    if exists j :: 0 <= j < |s| && j != i && s[j] == x {
      var j :| 0 <= j < |s| && j != i && s[j] == x;
      if j < i { assert r[j] == x; } else { assert r[j - 1] == x; }
    }
  }

  /** `Math.max(a, b)`. */
  function Max(a: real, b: real): (m: real)
    ensures m >= a && m >= b && (m == a || m == b)
  {
    if a >= b then a else b
  }

  function Min(a: int, b: int): (m: int)
    ensures m <= a && m <= b && (m == a || m == b)
  {
    if a <= b then a else b
  }
}
