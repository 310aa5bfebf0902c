/** Small value types and the JavaScript string/array operations the rest of the model relies on. */
module Common {

  datatype Option<T> = None | Some(value: T) {
    function GetOr(default: T): T {
      match this
      case Some(v) => v
      case None => default
    }
  }

  /** A result that is either a value or a thrown error's message. */
  datatype Result<T> = Ok(value: T) | Err(message: string)

  /** A value thrown by an awaited call: an Error instance with its message, or anything else. */
  datatype Thrown = ErrorThrown(message: string) | OtherThrown

  /** The message a client shows when something other than an Error was thrown. */
  const UnknownError := "An unknown error occurred"

  /** A non-empty `error` field: the only error values that count as set. */
  predicate HasError(error: Option<string>) {
    error.Some? && error.value != ""
  }

  /** `err instanceof Error ? err.message : fallback`. */
  function ErrorMessage(t: Thrown, fallback: string): (m: string)
    ensures t.ErrorThrown? ==> m == t.message
    ensures t.OtherThrown? ==> m == fallback
  {
    match t
    case ErrorThrown(msg) => msg
    case OtherThrown => fallback
  }

  function Min(a: int, b: int): int { if a <= b then a else b }

  function Max(a: int, b: int): int { if a >= b then a else b }

  /** True when `s` holds no element twice. */
  predicate NoDuplicates<T(==)>(s: seq<T>) {
    forall i, j :: 0 <= i < j < |s| ==> s[i] != s[j]
  }

  /** `r` occurs in `s` starting at offset `k`. */
  predicate Within(r: string, s: string, k: nat) {
    k + |r| <= |s| && r == s[k..k + |r|]
  }

  lemma WithinTrans(a: string, b: string, c: string, i: nat, j: nat)
    requires Within(a, b, i) && Within(b, c, j)
    ensures Within(a, c, i + j)
  {
    assert b == c[j..j + |b|];
    assert a == b[i..i + |a|];
    forall t | 0 <= t < |a|
      ensures a[t] == c[j + i + t]
    {
      assert a[t] == b[i + t] == c[j + i + t];
    }
  }

  predicate StartsWith(s: string, p: string) { |p| <= |s| && s[..|p|] == p }

  predicate EndsWith(s: string, p: string) { |p| <= |s| && s[|s| - |p|..] == p }

  /** The characters String.prototype.trim removes: white space and line terminators. */
  predicate IsSpace(c: char) {
    || c == ' ' || c == '\t' || c == '\n' || c == '\r' || c == '\U{B}' || c == '\U{C}'
    || c == '\U{A0}' || c == '\U{FEFF}' || c == '\U{1680}' || ('\U{2000}' <= c <= '\U{200A}')
    || c == '\U{2028}' || c == '\U{2029}' || c == '\U{202F}' || c == '\U{205F}' || c == '\U{3000}'
  }

  /** Drops leading white space: the result is a suffix of `s` and everything dropped is space. */
  function TrimStart(s: string): (r: string)
    ensures |r| <= |s| && r == s[|s| - |r|..]
    ensures r == [] || !IsSpace(r[0])
    ensures forall i :: 0 <= i < |s| - |r| ==> IsSpace(s[i])
    decreases |s|
  {
    if |s| > 0 && IsSpace(s[0]) then TrimStart(s[1..]) else s
  }

  /** Drops trailing white space: the result is a prefix of `s` and everything dropped is space. */
  function TrimEnd(s: string): (r: string)
    ensures |r| <= |s| && r == s[..|r|]
    ensures r == [] || !IsSpace(r[|r| - 1])
    ensures forall i :: |r| <= i < |s| ==> IsSpace(s[i])
    decreases |s|
  {
    if |s| > 0 && IsSpace(s[|s| - 1]) then TrimEnd(s[..|s| - 1]) else s
  }

  /** Number of leading spaces `Trim` removes. */
  function TrimOffset(s: string): (k: nat)
    ensures k <= |s|
  {
    |s| - |TrimStart(s)|
  }

  /** String.prototype.trim: the slice of `s` between its leading and trailing white space. */
  function Trim(s: string): (r: string)
    ensures Within(r, s, TrimOffset(s))
    ensures r == [] || (!IsSpace(r[0]) && !IsSpace(r[|r| - 1]))
  {
    var t := TrimStart(s);
    var r := TrimEnd(t);
    TrimParts(s, t, r);
    r
  }

  /** Trim removes nothing but white space, before and after the text it keeps. */
  lemma TrimRemovesOnlySpace(s: string)
    ensures forall i :: 0 <= i < TrimOffset(s) ==> IsSpace(s[i])
    ensures forall i :: TrimOffset(s) + |Trim(s)| <= i < |s| ==> IsSpace(s[i])
  {
    var t := TrimStart(s);
    TrimParts(s, t, TrimEnd(t));
  }

  /** The trimmed text sits in `s` right after the leading spaces, followed only by spaces. */
  lemma TrimParts(s: string, t: string, r: string)
    requires |t| <= |s| && t == s[|s| - |t|..]
    requires |r| <= |t| && r == t[..|r|]
    requires forall i :: |r| <= i < |t| ==> IsSpace(t[i])
    ensures Within(r, s, |s| - |t|)
    ensures r == [] || r[0] == t[0]
    ensures forall i :: |s| - |t| + |r| <= i < |s| ==> IsSpace(s[i])
  {
    var k := |s| - |t|;
    assert r == s[k..k + |r|] by {
      assert t == s[k..];
      assert r == t[..|r|];
    }
    forall i | k + |r| <= i < |s|
      ensures IsSpace(s[i])
    {
      assert IsSpace(t[i - k]);
      assert s[i] == t[i - k];
    }
  }

  /** Trimming twice is trimming once. */
  lemma TrimIdempotent(s: string)
    ensures Trim(Trim(s)) == Trim(s)
  {
    var r := Trim(s);
    assert TrimOffset(r) == 0 by {
      if r != [] {
        assert !IsSpace(r[0]);
        assert TrimStart(r) == r;
      }
    }
    if r != [] {
      assert TrimStart(r) == r;
      assert TrimEnd(r) == r;
    }
  }

  /** Array.prototype.slice(-n) for n > 0: the last `n` elements, or all of them when there are fewer. */
  function TakeLast<T>(s: seq<T>, n: nat): (r: seq<T>)
    ensures |r| == Min(|s|, n)
    ensures r == s[|s| - |r|..]
  {
    if |s| <= n then s else s[|s| - n..]
  }

  /** Keeping the last `n` of a sequence that ends with `x` keeps `x` last, whenever `n` > 0. */
  lemma TakeLastKeepsLast<T>(s: seq<T>, x: T, n: nat)
    requires n > 0
    ensures var r := TakeLast(s + [x], n); 0 < |r| <= n && r[|r| - 1] == x
  {
  }

  /** Array.prototype.join(sep). */
  function Join(parts: seq<string>, sep: string): (r: string)
    ensures |parts| == 0 ==> r == []
    ensures |parts| > 0 ==> StartsWith(r, parts[0]) && EndsWith(r, parts[|parts| - 1])
  {
    if |parts| == 0 then []
    else if |parts| == 1 then parts[0]
    else parts[0] + sep + Join(parts[1..], sep)
  }

  /** Where part `i` starts in `Join(parts, sep)`. */
  function JoinOffset(parts: seq<string>, sep: string, i: nat): nat
    requires i < |parts|
  {
    if i == 0 then 0 else |parts[0]| + |sep| + JoinOffset(parts[1..], sep, i - 1)
  }

  /** Every part occurs in the joined text, at its offset. */
  lemma {:induction false} JoinContains(parts: seq<string>, sep: string, i: nat)
    requires i < |parts|
    ensures Within(parts[i], Join(parts, sep), JoinOffset(parts, sep, i))
  {
    if |parts| == 1 {
      assert parts[0][0..|parts[0]|] == parts[0];
    } else {
      var rest := Join(parts[1..], sep);
      var front := parts[0] + sep;
      assert Join(parts, sep) == front + rest;
      if i == 0 {
        assert (front + rest)[0..|parts[0]|] == parts[0];
      } else {
        JoinContains(parts[1..], sep, i - 1);
        assert parts[1..][i - 1] == parts[i];
        ShiftWithin(parts[i], rest, front, JoinOffset(parts[1..], sep, i - 1));
      }
    }
  }

  /** A piece of `s` at `k` is a piece of `pre + s` at `|pre| + k`. */
  lemma ShiftWithin(x: string, s: string, pre: string, k: nat)
    requires Within(x, s, k)
    ensures Within(x, pre + s, |pre| + k)
  {
    assert (pre + s)[|pre| + k..|pre| + k + |x|] == s[k..k + |x|];
  }

  /** The character of a decimal digit. */
  function DigitChar(d: nat): (c: char)
    requires d < 10
    ensures '0' <= c <= '9'
    ensures c as int - '0' as int == d
  {
    ('0' as int + d) as char
  }

  /** A non-empty run of decimal digits. */
  predicate Digits(s: string) {
    |s| > 0 && forall i :: 0 <= i < |s| ==> '0' <= s[i] <= '9'
  }

  /** The number a run of decimal digits denotes, most significant digit first. */
  function DigitsValue(s: string): nat
    requires forall i :: 0 <= i < |s| ==> '0' <= s[i] <= '9'
  {
    if |s| == 0 then 0 else 10 * DigitsValue(s[..|s| - 1]) + (s[|s| - 1] as int - '0' as int)
  }

  /** Decimal integer text: digits, optionally after one '-'. */
  predicate IntText(s: string) {
    Digits(s) || (|s| > 1 && s[0] == '-' && Digits(s[1..]))
  }

  /** The integer that decimal integer text denotes. */
  function IntValue(s: string): int
    requires IntText(s)
  {
    if s[0] == '-' then -(DigitsValue(s[1..]) as int) else DigitsValue(s)
  }

  /** Decimal rendering of a natural number, as a template literal prints it: no leading zero. */
  function NatToString(n: nat): (r: string)
    ensures Digits(r)
    ensures DigitsValue(r) == n
    ensures |r| > 1 ==> r[0] != '0'
  {
    if n < 10 then [DigitChar(n)]
    else
      var r := NatToString(n / 10) + [DigitChar(n % 10)];
      assert r[..|r| - 1] == NatToString(n / 10);
      r
  }

  /** Decimal rendering of an integer, with a leading '-' when it is negative. */
  function IntToString(n: int): (r: string)
    ensures IntText(r)
    ensures IntValue(r) == n
    ensures n < 0 <==> r[0] == '-'
  {
    if n < 0 then
      var r := "-" + NatToString(-n);
      assert r[1..] == NatToString(-n);
      r
    else NatToString(n)
  }
}
