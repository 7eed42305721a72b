/**
 * The Python values both scripts inspect: the result of decoding a JSON body
 * (`None`, booleans, integers, strings, lists, dicts), plus `Unencodable`, a
 * value `json.dumps` refuses. Also the handful of built-ins the scripts apply
 * to them: `dict.get`, truthiness, `int()`, `str.strip`, `str.lower` and `in`
 * on strings.
 */
module PyValues {
  import opened Wrappers

  datatype Value =
    | Null
    | Bool(b: bool)
    | Int(i: int)
    | Str(s: string)
    | List(elems: seq<Value>)
    | Dict(fields: seq<Field>)
    | Unencodable(tag: string)

  /** One key/value pair of a dict; a dict keeps its insertion order. */
  datatype Field = Field(key: string, value: Value)

  /** `d.get(k)`: the value stored under `k`, or `None`. */
  function Get(d: seq<Field>, k: string): (r: Option<Value>)
    ensures r.Some? <==> exists i :: 0 <= i < |d| && d[i].key == k
    ensures r.Some? ==> Field(k, r.value) in d
  {
    if d == [] then None
    else if d[0].key == k then Some(d[0].value)
    else Get(d[1..], k)
  }

  /** `d.get(k, dflt)`. */
  function GetOr(d: seq<Field>, k: string, dflt: Value): Value
  {
    match Get(d, k)
    case Some(v) => v
    case None => dflt
  }

  /** Python truthiness (`bool(v)`); other objects are truthy by default. */
  predicate Truthy(v: Value)
  {
    match v
    case Null => false
    case Bool(b) => b
    case Int(i) => i != 0
    case Str(s) => s != ""
    case List(elems) => elems != []
    case Dict(fields) => fields != []
    case Unencodable(_) => true
  }

  /** `json.dumps(v)` succeeds: no unencodable value anywhere inside `v`. */
  predicate Encodable(v: Value)
  {
    match v
    case List(elems) => forall i :: 0 <= i < |elems| ==> Encodable(elems[i])
    case Dict(fields) => forall i :: 0 <= i < |fields| ==> Encodable(fields[i].value)
    case Unencodable(_) => false
    case _ => true
  }

  /** Characters `str.strip()` removes (the ASCII ones). */
  predicate IsSpace(c: char)
  {
    c == ' ' || c == '\t' || c == '\n' || c == '\r' || c == '\U{B}' || c == '\U{C}'
    || ('\U{1C}' <= c <= '\U{1F}')
  }

  /** `s.lstrip()`: a suffix of `s`, with only white space cut off. */
  function StripStart(s: string): (r: string)
    ensures r == [] || !IsSpace(r[0])
    ensures |r| <= |s| && r == s[|s| - |r|..]
    ensures forall k :: 0 <= k < |s| - |r| ==> IsSpace(s[k])
  {
    if s != [] && IsSpace(s[0]) then
      assert s == [s[0]] + s[1..];
      StripStart(s[1..])
    else s
  }

  /** `s.rstrip()`: a prefix of `s`, with only white space cut off. */
  function StripEnd(s: string): (r: string)
    ensures r == [] || !IsSpace(r[|r| - 1])
    ensures r <= s && (s != [] && !IsSpace(s[0]) ==> r != [])
    ensures forall k :: |r| <= k < |s| ==> IsSpace(s[k])
  {
    if s != [] && IsSpace(s[|s| - 1]) then
      assert s == s[..|s| - 1] + [s[|s| - 1]];
      StripEnd(s[..|s| - 1])
    else s
  }

  /** `s.strip()`: neither starts nor ends with white space, and holds no
      character that `s` does not; `StripIsTrim` says which piece of `s` it
      is. */
  function Strip(s: string): (r: string)
    ensures forall x :: x in r ==> x in s
    ensures r == [] || (!IsSpace(r[0]) && !IsSpace(r[|r| - 1]))
  {
    StripEnd(StripStart(s))
  }

  /** `s.strip()` is the piece of `s` left once the white space at both
      ends is cut off. */
  lemma StripIsTrim(s: string)
    ensures exists i, j :: && 0 <= i <= j <= |s| && Strip(s) == s[i..j]
                           && (forall k :: 0 <= k < i ==> IsSpace(s[k]))
                           && (forall k :: j <= k < |s| ==> IsSpace(s[k]))
  {
    TrimOfTrim(s, StripStart(s), Strip(s));
  }

  /** Cutting white space off the end of a string that was cut from the
      front of `s` leaves a piece of `s` with only white space around it. */
  lemma TrimOfTrim(s: string, t: string, r: string)
    requires |t| <= |s| && t == s[|s| - |t|..] && (forall k :: 0 <= k < |s| - |t| ==> IsSpace(s[k]))
    requires r <= t && (forall k :: |r| <= k < |t| ==> IsSpace(t[k]))
    ensures exists i, j :: && 0 <= i <= j <= |s| && r == s[i..j]
                           && (forall k :: 0 <= k < i ==> IsSpace(s[k]))
                           && (forall k :: j <= k < |s| ==> IsSpace(s[k]))
  {
    var i, j := |s| - |t|, |s| - |t| + |r|;
    assert r == s[i..j] by {
      forall k | 0 <= k < |r|
        ensures r[k] == s[i + k]
      {
        assert r[k] == t[k];
      }
    }
    forall k | j <= k < |s|
      ensures IsSpace(s[k])
    {
      assert s[k] == t[k - i];
    }
  }

  /** A string with no white space at either end is its own `strip()`. */
  lemma StripUnpadded(s: string)
    requires s == [] || (!IsSpace(s[0]) && !IsSpace(s[|s| - 1]))
    ensures Strip(s) == s
  {
  }

  /** `s.replace(c, "")` for a one-character `c`. */
  function RemoveChar(s: string, c: char): (r: string)
    ensures c !in r
    ensures forall x :: x != c && x in s ==> x in r
    ensures forall x :: x in r ==> x in s
  {
    if s == [] then []
    else (if s[0] == c then [] else [s[0]]) + RemoveChar(s[1..], c)
  }

  lemma {:induction false} RemoveCharAppend(a: string, b: string, c: char)
    ensures RemoveChar(a + b, c) == RemoveChar(a, c) + RemoveChar(b, c)
  {
    if a == [] {
      assert a + b == b;
    } else {
      assert (a + b)[1..] == a[1..] + b;
      RemoveCharAppend(a[1..], b, c);
    }
  }

  /** Removing a character that does not occur changes nothing. */
  lemma {:induction false} RemoveCharAbsent(s: string, c: char)
    requires c !in s
    ensures RemoveChar(s, c) == s
  {
    if s != [] {
      RemoveCharAbsent(s[1..], c);
    }
  }

  lemma {:induction false} RemoveCharOfRepeats(s: string, c: char)
    requires forall i :: 0 <= i < |s| ==> s[i] == c
    ensures RemoveChar(s, c) == []
  {
    if s != [] {
      RemoveCharOfRepeats(s[1..], c);
    }
  }

  /** The lower-case form of an ASCII capital; other characters unchanged. */
  function LowerChar(c: char): char
  {
    if 'A' <= c <= 'Z' then (c as int + 32) as char else c
  }

  /** `s.lower()` on ASCII letters. */
  function Lower(s: string): (r: string)
    ensures |r| == |s|
    ensures forall i :: 0 <= i < |s| ==> r[i] == LowerChar(s[i])
  {
    if s == [] then [] else [LowerChar(s[0])] + Lower(s[1..])
  }

  /** `t in s` for strings: `t` occurs in `s` as a contiguous piece. */
  predicate Contains(s: string, t: string)
  {
    exists i :: 0 <= i <= |s| && t <= s[i..]
  }

  predicate IsDigit(c: char)
  {
    '0' <= c <= '9'
  }

  /** The number a string of decimal digits denotes. */
  function DigitsValue(s: string): (n: nat)
    requires forall i :: 0 <= i < |s| ==> IsDigit(s[i])
  {
    if s == [] then 0
    else
      assert IsDigit(s[|s| - 1]);
      10 * DigitsValue(s[..|s| - 1]) + (s[|s| - 1] as int - '0' as int)
  }

  /** `int(s)` for a string: optional surrounding white space and sign, then
      one or more decimal digits; anything else raises `ValueError` (`None`). */
  function ParseInt(s: string): Option<int>
  {
    var t := Strip(s);
    if t == [] then None
    else if t[0] == '+' || t[0] == '-' then
      var digits := t[1..];
      if digits != [] && forall i :: 0 <= i < |digits| ==> IsDigit(digits[i]) then
        var n: int := DigitsValue(digits);
        Some(if t[0] == '-' then -n else n)
      else None
    else if forall i :: 0 <= i < |t| ==> IsDigit(t[i]) then Some(DigitsValue(t))
    else None
  }

  /** `int(v)`, with `None` standing for the `TypeError`/`ValueError` it raises. */
  function PyInt(v: Value): (r: Option<int>)
    ensures v.Int? ==> r == Some(v.i)
    ensures v.Bool? ==> r == Some(if v.b then 1 else 0)
    ensures v.Null? || v.List? || v.Dict? ==> r.None?
  {
    match v
    case Int(i) => Some(i)
    case Bool(b) => Some(if b then 1 else 0)
    case Str(s) => ParseInt(s)
    case _ => None
  }
}
