/**
 * Values and JavaScript conventions shared by every view and store of the
 * front end: optional values (null/undefined), the outcome of a backend
 * call, how an async thunk settles, the four-state loading status of the
 * stores, JavaScript truthiness of strings (`a || b`), the whitespace set
 * of `String.prototype.trim` and of the regular-expression class `\s`, and
 * the decimal text of an integer (`${n}`, `String(n)`).
 */
module Js {

  datatype Option<+T> = None | Some(value: T)

  /** What a failed request carries, as read with optional chaining:
      `error?.response?.status`, `error?.response?.data?.message` and
      `error?.message`. */
  datatype ApiError = ApiError(status: Option<int>, backendMessage: Option<string>, message: Option<string>)

  /** The result of awaiting one backend call: a value, or the thrown error. */
  datatype Outcome<+T> = Ok(value: T) | Err(error: ApiError)

  /** How an async thunk settles: fulfilled with its return value, or
      rejected with the value given to `rejectWithValue` (absent when the
      thunk threw instead). */
  datatype Settled<+T> = Fulfilled(payload: T) | Rejected(reason: Option<string>)

  /** The `status` field shared by every store: 'idle' | 'loading' | 'succeeded' | 'failed'. */
  datatype Status = Idle | Loading | Succeeded | Failed

  /** A response body that may or may not be a JSON array (`Array.isArray`). */
  datatype ListBody<+T> = Array(elements: seq<T>) | NotArray

  /** A response body read without `Array.isArray`: null, a JSON array, or
      some other object. */
  datatype JsonBody<+T> = NullBody | ArrayBody(elements: seq<T>) | ObjectBody

  /** A string is truthy in JavaScript iff it is present and non-empty. */
  predicate Truthy(x: Option<string>)
  {
    x.Some? && x.value != ""
  }

  /** `x || fallback` on an optional string. */
  function Or(x: Option<string>, fallback: string): (r: string)
    ensures Truthy(x) ==> r == x.value
    ensures !Truthy(x) ==> r == fallback
    ensures fallback != "" ==> r != ""
  {
    if Truthy(x) then x.value else fallback
  }

  /** `err?.response?.data?.message || err?.message || fallback`. */
  function ErrorText(e: ApiError, fallback: string): (r: string)
    ensures Truthy(e.backendMessage) ==> r == e.backendMessage.value
    ensures !Truthy(e.backendMessage) && Truthy(e.message) ==> r == e.message.value
    ensures !Truthy(e.backendMessage) && !Truthy(e.message) ==> r == fallback
  {
    Or(e.backendMessage, Or(e.message, fallback))
  }

  /** `Array.isArray(data) ? data : []`. */
  function ArrayOrEmpty<T>(body: ListBody<T>): (r: seq<T>)
    ensures body.Array? ==> r == body.elements
    ensures body.NotArray? ==> r == []
  {
    match body
    case Array(xs) => xs
    case NotArray => []
  }

  /** `s.slice(start, end)` for indices that are not negative: both ends are
      clamped to the length, and an end before the start gives nothing. */
  function Slice<T>(s: seq<T>, start: nat, end: nat): (r: seq<T>)
    ensures |r| <= |s|
    ensures start <= end <= |s| ==> r == s[start..end]
    ensures end <= start || |s| <= start ==> r == []
  {
    var a := if start < |s| then start else |s|;
    var b := if end < |s| then end else |s|;
    if b <= a then [] else s[a..b]
  }

  /** `xs.find(p)`, as the index of the first element satisfying `p`. */
  function Find<T>(xs: seq<T>, p: T -> bool): (r: Option<nat>)
    ensures r.Some? ==> r.value < |xs| && p(xs[r.value])
    ensures r.Some? ==> forall j :: 0 <= j < r.value ==> !p(xs[j])
    ensures r.None? <==> forall j :: 0 <= j < |xs| ==> !p(xs[j])
    decreases |xs|
  {
    if xs == [] then None
    else if p(xs[0]) then Some(0)
    else
      match Find(xs[1..], p)
      case None => None
      case Some(k) => Some(k + 1)
  }

  /** `xs.map(f)`. */
  method ArrayMap<A, B>(xs: seq<A>, f: A -> B) returns (ys: seq<B>)
    ensures |ys| == |xs|
    ensures forall j :: 0 <= j < |xs| ==> ys[j] == f(xs[j])
  {
    ys := [];
    var i := 0;
    while i < |xs|
      invariant 0 <= i <= |xs|
      invariant |ys| == i
      invariant forall j :: 0 <= j < i ==> ys[j] == f(xs[j])
    {
      ys := ys + [f(xs[i])];
      i := i + 1;
    }
  }

  /** `xs.some(p)`: whether some element satisfies `p`, looking no further
      than the first that does. */
  method ArraySome<T>(xs: seq<T>, p: T -> bool) returns (b: bool)
    ensures b <==> exists j :: 0 <= j < |xs| && p(xs[j])
  {
    var i := 0;
    while i < |xs|
      invariant 0 <= i <= |xs|
      invariant forall j :: 0 <= j < i ==> !p(xs[j])
    {
      if p(xs[i]) {
        return true;
      }
      i := i + 1;
    }
    return false;
  }

  /** The characters JavaScript treats as white space or line terminators:
      those removed by `trim()` and matched by `\s`. */
  predicate IsSpace(c: char)
  {
    c == '\t' || c == '\n' || c == '\U{B}' || c == '\U{C}' || c == '\r' || c == ' '
    || c == '\U{A0}' || c == '\U{1680}' || ('\U{2000}' <= c <= '\U{200A}')
    || c == '\U{2028}' || c == '\U{2029}' || c == '\U{202F}' || c == '\U{205F}'
    || c == '\U{3000}' || c == '\U{FEFF}'
  }

  predicate AllSpace(s: string)
  {
    forall i :: 0 <= i < |s| ==> IsSpace(s[i])
  }

  /** How many white-space characters open `s`. */
  function LeadingSpace(s: string): (k: nat)
    ensures k <= |s|
    ensures forall i :: 0 <= i < k ==> IsSpace(s[i])
    ensures k < |s| ==> !IsSpace(s[k])
    decreases |s|
  {
    if s != [] && IsSpace(s[0]) then
      var k := LeadingSpace(s[1..]);
      assert forall i :: 1 <= i < k + 1 ==> s[i] == s[1..][i - 1];
      k + 1
    else 0
  }

  /** Where the white space that closes `s` begins. */
  function TrailingSpace(s: string): (k: nat)
    ensures k <= |s|
    ensures forall i :: k <= i < |s| ==> IsSpace(s[i])
    ensures k > 0 ==> !IsSpace(s[k - 1])
    decreases |s|
  {
    if s != [] && IsSpace(s[|s| - 1]) then TrailingSpace(s[..|s| - 1]) else |s|
  }

  /** `String.prototype.trim`: the text between the leading and the trailing
      white space. */
  function Trim(s: string): string
  {
    var a := LeadingSpace(s);
    var b := TrailingSpace(s);
    if a < b then s[a..b] else []
  }

  /** Trimming leaves nothing exactly when the string is all white space;
      otherwise it keeps a middle segment of the string that neither starts
      nor ends with white space. */
  lemma TrimEmptyIffAllSpace(s: string)
    ensures Trim(s) == [] <==> AllSpace(s)
    ensures Trim(s) == [] || (!IsSpace(Trim(s)[0]) && !IsSpace(Trim(s)[|Trim(s)| - 1]))
    ensures exists i, j :: 0 <= i <= j <= |s| && Trim(s) == s[i..j]
  {
    var a := LeadingSpace(s);
    var b := TrailingSpace(s);
    if a < b {
      assert !IsSpace(s[a]);
      assert Trim(s) == s[a..b];
    } else {
      forall k | 0 <= k < |s| ensures IsSpace(s[k]) {
        if k >= a {
          assert k >= b;
        }
      }
      assert Trim(s) == s[0..0];
    }
  }

  /** Text that neither starts nor ends with white space is left alone. */
  lemma TrimUnpadded(s: string)
    requires s == [] || (!IsSpace(s[0]) && !IsSpace(s[|s| - 1]))
    ensures Trim(s) == s
  {
    if s != [] {
      assert LeadingSpace(s) == 0;
      assert TrailingSpace(s) == |s|;
    }
  }

  /** Upper-casing of one character, for the ASCII letters. */
  function UpperChar(c: char): (u: char)
    ensures 'a' <= c <= 'z' ==> 'A' <= u <= 'Z' && u as int == c as int - 32
    ensures !('a' <= c <= 'z') ==> u == c
  {
    if 'a' <= c <= 'z' then (c as int - 32) as char else c
  }

  /** `s.toUpperCase()`, for the ASCII letters. */
  function Upper(s: string): (r: string)
    ensures |r| == |s| && forall i :: 0 <= i < |s| ==> r[i] == UpperChar(s[i])
  {
    seq(|s|, i requires 0 <= i < |s| => UpperChar(s[i]))
  }

  /** The decimal digit of value `d`. */
  function DigitChar(d: nat): (c: char)
    requires d < 10
    ensures '0' <= c <= '9' && c as int - '0' as int == d
  {
    ('0' as int + d) as char
  }

  /** The decimal text of a natural number, without leading zeros. */
  function NatText(n: nat): (r: string)
    ensures r != []
    ensures forall i :: 0 <= i < |r| ==> '0' <= r[i] <= '9'
    decreases n
  {
    if n < 10 then [DigitChar(n)] else NatText(n / 10) + [DigitChar(n % 10)]
  }

  /** `${n}` for an integer: a minus sign before the digits of |n| when n < 0. */
  function IntText(n: int): (r: string)
    ensures r != []
    ensures n < 0 <==> r[0] == '-'
  {
    if n < 0 then "-" + NatText(-n) else NatText(n)
  }
}
