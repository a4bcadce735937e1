/** Helpers every component shares: nullable values, ASCII decimal rendering
    and parsing (int.ToString and int.TryParse on the inputs this system
    produces), splitting a ticket number on its separators, and the LINQ
    operators the queries use (Where, Take, FirstOrDefault, OrderByDescending). */
module Common {

  /** A C# nullable value. */
  datatype Option<+T> = None | Some(value: T) {
    /** The C# `x ?? d` operator. */
    function GetOr(default: T): T {
      match this
      case Some(v) => v
      case None => default
    }
  }

  /** The result of a C# `bool TryX(..., out int v)` call: v is 0 on failure. */
  datatype TryInt = TryInt(success: bool, value: int)

  /** A JSON value as a client receives it; the payloads here carry only whole numbers. */
  datatype JsonValue = JString(str: string) | JNumber(num: int) | JBool(b: bool) | JNull

  /** int.MaxValue */
  const Int32Max: int := 0x7FFF_FFFF

  function Min(a: int, b: int): int { if a <= b then a else b }

  // ---------------------------------------------------------------------
  // Decimal digits

  predicate IsDigit(c: char) { '0' <= c <= '9' }

  predicate AllDigits(s: string) { forall i :: 0 <= i < |s| ==> IsDigit(s[i]) }

  predicate HasDigit(s: string) { exists i :: 0 <= i < |s| && IsDigit(s[i]) }

  function DigitChar(d: nat): (c: char)
    requires d < 10
    ensures IsDigit(c) && c as int - '0' as int == d
  {
    (d + '0' as int) as char
  }

  /** The decimal text of a non-negative number, without leading zeros. */
  function NatToString(n: nat): (s: string)
    ensures |s| > 0 && AllDigits(s)
    ensures s[0] == '0' ==> n == 0
    decreases n
  {
    if n < 10 then [DigitChar(n)] else NatToString(n / 10) + [DigitChar(n % 10)]
  }

  /** int.ToString(): a minus sign before the digits of a negative number. */
  function IntToString(n: int): (s: string)
    ensures |s| > 0
    ensures n >= 0 ==> AllDigits(s)
    ensures n < 0 ==> s[0] == '-'
  {
    if n < 0 then "-" + NatToString(-n) else NatToString(n)
  }

  /** The value of a string of decimal digits (the empty string has value 0). */
  function ParseDigits(s: string): nat
    requires AllDigits(s)
    decreases |s|
  {
    if s == [] then 0 else ParseDigits(s[..|s| - 1]) * 10 + (s[|s| - 1] as int - '0' as int)
  }

  /** int.TryParse on a string of ASCII digits: fails on the empty string, on any
      other character and on a value above int.MaxValue. */
  function TryParseInt(s: string): (r: Option<int>)
    ensures r.Some? ==> 0 <= r.value <= Int32Max && |s| > 0 && AllDigits(s)
    ensures |s| > 0 && AllDigits(s) && ParseDigits(s) <= Int32Max ==> r == Some(ParseDigits(s))
  {
    if |s| > 0 && AllDigits(s) && ParseDigits(s) <= Int32Max then Some(ParseDigits(s)) else None
  }

  /** Parsing the decimal text of a number gives the number back. */
  lemma {:induction false} ParseNatToString(n: nat)
    ensures ParseDigits(NatToString(n)) == n
    decreases n
  {
    if n >= 10 {
      var s := NatToString(n);
      assert s[..|s| - 1] == NatToString(n / 10);
      ParseNatToString(n / 10);
    }
  }

  /** int.TryParse(n.ToString()) == n for every non-negative int. */
  lemma TryParseIntToString(n: int)
    requires 0 <= n <= Int32Max
    ensures TryParseInt(IntToString(n)) == Some(n)
  {
    ParseNatToString(n);
  }

  /** Distinct numbers have distinct decimal texts. */
  lemma IntToStringInjective(a: int, b: int)
    ensures IntToString(a) == IntToString(b) ==> a == b
  {
    if IntToString(a) == IntToString(b) {
      // the sign is the first character, so both are negative or neither is
      var s := IntToString(a);
      if s[0] == '-' {
        assert a < 0 && b < 0;
        assert NatToString(-a) == s[1..] == NatToString(-b);
        ParseNatToString(-a);
        ParseNatToString(-b);
      } else {
        assert a >= 0 && b >= 0;
        ParseNatToString(a);
        ParseNatToString(b);
      }
    }
  }

  /** The digit characters of a string, in order (new string(s.Where(char.IsDigit))). */
  function DigitsOf(s: string): (d: string)
    ensures AllDigits(d) && |d| <= |s|
    ensures |d| > 0 <==> HasDigit(s)
    ensures AllDigits(s) ==> d == s
    decreases |s|
  {
    if s == [] then []
    else
      var rest := DigitsOf(s[1..]);
      assert |rest| > 0 ==> HasDigit(s) by {
        if |rest| > 0 {
          var i :| 0 <= i < |s[1..]| && IsDigit(s[1..][i]);
          assert IsDigit(s[i + 1]);
        }
      }
      assert HasDigit(s) && !IsDigit(s[0]) ==> HasDigit(s[1..]) by {
        if HasDigit(s) && !IsDigit(s[0]) {
          var i :| 0 <= i < |s| && IsDigit(s[i]);
          assert s[1..][i - 1] == s[i];
        }
      }
      if IsDigit(s[0]) then [s[0]] + rest else rest
  }

  /** The digits of a text are its characters' digits in order: a digit keeps
      itself, any other character contributes nothing, and concatenation is kept. */
  lemma {:induction false} DigitsOfConcat(p: string, q: string)
    ensures DigitsOf(p + q) == DigitsOf(p) + DigitsOf(q)
    ensures |p| == 1 ==> DigitsOf(p) == (if IsDigit(p[0]) then p else [])
    decreases |p|
  {
    if p != [] {
      assert (p + q)[1..] == p[1..] + q;
      DigitsOfConcat(p[1..], q);
    } else {
      assert p + q == q;
    }
  }

  // ---------------------------------------------------------------------
  // Whitespace (char.IsWhiteSpace) and string.IsNullOrWhiteSpace

  predicate IsWhiteSpace(c: char) {
    var k := c as int;
    (9 <= k <= 13) || k == 0x20 || k == 0x85 || k == 0xA0 || k == 0x1680
    || (0x2000 <= k <= 0x200A) || k == 0x2028 || k == 0x2029 || k == 0x202F
    || k == 0x205F || k == 0x3000
  }

  predicate IsNullOrWhiteSpace(s: Option<string>) {
    s.None? || forall i :: 0 <= i < |s.value| ==> IsWhiteSpace(s.value[i])
  }

  // ---------------------------------------------------------------------
  // Case-insensitive comparison (StringComparison.OrdinalIgnoreCase, ASCII letters)

  function ToUpperAscii(c: char): char {
    if 'a' <= c <= 'z' then (c as int - 32) as char else c
  }

  function ToLowerAscii(c: char): char {
    if 'A' <= c <= 'Z' then (c as int + 32) as char else c
  }

  function ToLowerInvariant(s: string): (r: string)
    ensures |r| == |s|
    ensures forall i :: 0 <= i < |s| ==> r[i] == ToLowerAscii(s[i])
    decreases |s|
  {
    if s == [] then [] else [ToLowerAscii(s[0])] + ToLowerInvariant(s[1..])
  }

  /** string.Equals(a, b, OrdinalIgnoreCase); null equals only null. */
  predicate EqualsIgnoreCase(a: Option<string>, b: string) {
    a.Some? && |a.value| == |b|
    && forall i :: 0 <= i < |b| ==> ToUpperAscii(a.value[i]) == ToUpperAscii(b[i])
  }

  // ---------------------------------------------------------------------
  // string.Split('-', '_')

  predicate IsSeparator(c: char) { c == '-' || c == '_' }

  predicate NoSeparator(s: string) { forall i :: 0 <= i < |s| ==> !IsSeparator(s[i]) }

  /** The pieces between separators, empty pieces kept, as string.Split('-', '_') returns them. */
  function SplitTicketNumber(s: string): (parts: seq<string>)
    ensures |parts| >= 1
    ensures forall i :: 0 <= i < |parts| ==> NoSeparator(parts[i])
    ensures forall i, j :: 0 <= i < |parts| && 0 <= j < |parts[i]| ==> parts[i][j] in s
    decreases |s|
  {
    if s == [] then [""]
    else
      var rest := SplitTicketNumber(s[1..]);
      if IsSeparator(s[0]) then [""] + rest
      else
        var head := [s[0]] + rest[0];
        assert NoSeparator(head) by {
          assert forall j :: 1 <= j < |head| ==> head[j] == rest[0][j - 1];
        }
        [head] + rest[1..]
  }

  /** A piece without separators followed by a separator splits off as the first part. */
  lemma {:induction false} SplitAfterPiece(p: string, c: char, q: string)
    requires NoSeparator(p) && IsSeparator(c)
    ensures SplitTicketNumber(p + [c] + q) == [p] + SplitTicketNumber(q)
    decreases |p|
  {
    if p == [] {
      assert p + [c] + q == [c] + q;
      assert ([c] + q)[1..] == q;
    } else {
      var s := p + [c] + q;
      assert s[1..] == p[1..] + [c] + q;
      SplitAfterPiece(p[1..], c, q);
      assert [s[0]] + p[1..] == p;
    }
  }

  /** A string without separators is a single part. */
  lemma {:induction false} SplitWithoutSeparator(q: string)
    requires NoSeparator(q)
    ensures SplitTicketNumber(q) == [q]
    decreases |q|
  {
    if q != [] {
      SplitWithoutSeparator(q[1..]);
      assert [q[0]] + q[1..] == q;
    }
  }

  // ---------------------------------------------------------------------
  // LINQ operators

  /** Enumerable.Where: the elements satisfying p, in their original order. */
  function Filter<T>(s: seq<T>, p: T -> bool): (r: seq<T>)
    ensures |r| <= |s|
    ensures forall x :: x in r ==> x in s && p(x)
    ensures forall x :: x in s && p(x) ==> x in r
    decreases |s|
  {
    if s == [] then []
    else
      var rest := Filter(s[1..], p);
      assert forall x :: x in s && x != s[0] ==> x in s[1..];
      if p(s[0]) then [s[0]] + rest else rest
  }

  /** Enumerable.Take: the first n elements, none when n <= 0. */
  function Take<T>(s: seq<T>, n: int): (r: seq<T>)
    ensures r <= s
    ensures |r| == if n <= 0 then 0 else Min(n, |s|)
  {
    if n <= 0 then [] else if n < |s| then s[..n] else s
  }

  /** The first n of an ascending list: still ascending, and every element left
      out comes after all that were taken, which are then exactly n. */
  lemma TakeAscending<T>(s: seq<T>, n: int, key: T -> int)
    requires AscendingBy(s, key)
    ensures AscendingBy(Take(s, n), key)
    ensures forall x :: x in s && x !in Take(s, n) ==>
      (n <= 0 || |Take(s, n)| == n) && forall y :: y in Take(s, n) ==> key(y) < key(x)
  {
    var r := Take(s, n);
    forall x | x in s && x !in r ensures (n <= 0 || |r| == n) && forall y :: y in r ==> key(y) < key(x) {
      var k :| 0 <= k < |s| && s[k] == x;
      assert k >= |r|;
      assert |r| < |s|;
      forall y | y in r ensures key(y) < key(x) {
        var m :| 0 <= m < |r| && r[m] == y;
        assert s[m] == y;
      }
    }
    forall i, j | 0 <= i < j < |r| ensures key(r[i]) < key(r[j]) {
      assert r[i] == s[i] && r[j] == s[j];
    }
  }

  /** The head of an ascending list has the least key; the tail ascends and holds
      everything but the head. */
  lemma AscendingTail<T>(s: seq<T>, key: T -> int)
    requires AscendingBy(s, key) && s != []
    ensures AscendingBy(s[1..], key)
    ensures forall t :: t in s[1..] ==> key(s[0]) < key(t)
    ensures forall t :: t in s <==> t == s[0] || t in s[1..]
  {
    var tail := s[1..];
    forall i, j | 0 <= i < j < |tail| ensures key(tail[i]) < key(tail[j]) {
      assert tail[i] == s[i + 1] && tail[j] == s[j + 1];
    }
    forall t | t in tail ensures key(s[0]) < key(t) {
      var k :| 0 <= k < |tail| && tail[k] == t;
      assert s[k + 1] == t;
    }
    assert s == [s[0]] + tail;
  }

  /** Two ascending lists with the same elements are the same list. */
  lemma {:induction false} AscendingUnique<T>(a: seq<T>, b: seq<T>, key: T -> int)
    requires AscendingBy(a, key) && AscendingBy(b, key)
    requires forall t :: t in a <==> t in b
    ensures a == b
    decreases |a|
  {
    if a != [] { assert a[0] in a; }
    if b != [] { assert b[0] in b; }
    if a != [] && b != [] {
      AscendingTail(a, key);
      AscendingTail(b, key);
      assert a[0] == b[0];
      forall t ensures t in a[1..] <==> t in b[1..] {
        if t in a[1..] { assert t != a[0]; }
        if t in b[1..] { assert t != b[0]; }
      }
      AscendingUnique(a[1..], b[1..], key);
      assert a == [a[0]] + a[1..] && b == [b[0]] + b[1..];
    }
  }

  /** Strictly ascending by the given key. */
  ghost predicate AscendingBy<T>(s: seq<T>, key: T -> int) {
    forall i, j :: 0 <= i < j < |s| ==> key(s[i]) < key(s[j])
  }

  /** Where keeps a list's ascending order. */
  lemma {:induction false} FilterAscending<T>(s: seq<T>, p: T -> bool, key: T -> int)
    requires AscendingBy(s, key)
    ensures AscendingBy(Filter(s, p), key)
    decreases |s|
  {
    if s != [] {
      var rest := Filter(s[1..], p);
      FilterAscending(s[1..], p, key);
      if p(s[0]) {
        var r := [s[0]] + rest;
        forall i, j | 0 <= i < j < |r| ensures key(r[i]) < key(r[j]) {
          if i == 0 {
            assert r[j] in s[1..];
            var k :| 0 <= k < |s[1..]| && s[1..][k] == r[j];
            assert s[k + 1] == r[j];
          } else {
            assert r[i] == rest[i - 1] && r[j] == rest[j - 1];
          }
        }
      }
    }
  }

  /** Select(f): f applied to each element, in order. */
  function MapSeq<T, U>(s: seq<T>, f: T -> U): (r: seq<U>)
    ensures |r| == |s| && forall i :: 0 <= i < |s| ==> r[i] == f(s[i])
  {
    seq(|s|, i requires 0 <= i < |s| => f(s[i]))
  }

  /** Filtering after a Select is filtering on the composed test before it. */
  lemma {:induction false} FilterMapSeq<T, U>(s: seq<T>, f: T -> U, p: U -> bool, q: T -> bool)
    requires forall x :: q(x) == p(f(x))
    ensures Filter(MapSeq(s, f), p) == MapSeq(Filter(s, q), f)
    decreases |s|
  {
    if s != [] {
      FilterMapSeq(s[1..], f, p, q);
      assert MapSeq(s, f)[1..] == MapSeq(s[1..], f);
      assert q(s[0]) == p(MapSeq(s, f)[0]);
      if q(s[0]) {
        assert MapSeq([s[0]] + Filter(s[1..], q), f) == [f(s[0])] + MapSeq(Filter(s[1..], q), f);
      }
    }
  }

  /** Take commutes with Select. */
  lemma TakeMapSeq<T, U>(s: seq<T>, f: T -> U, n: int)
    ensures Take(MapSeq(s, f), n) == MapSeq(Take(s, n), f)
  {
  }

  /** The index FirstOrDefault(p) stops at: the first element satisfying p. */
  function FirstIndex<T>(s: seq<T>, p: T -> bool): (r: Option<nat>)
    ensures r.None? <==> forall i :: 0 <= i < |s| ==> !p(s[i])
    ensures r.Some? ==> r.value < |s| && p(s[r.value])
    ensures r.Some? ==> forall i :: 0 <= i < r.value ==> !p(s[i])
    decreases |s|
  {
    if s == [] then None
    else if p(s[0]) then Some(0)
    else
      match FirstIndex(s[1..], p)
      case None => None
      case Some(k) => Some(k + 1)
  }

  /** The index where a stable OrderByDescending(key) puts its first element:
      the first element whose key is largest. */
  function FirstMaxIndex<T>(s: seq<T>, key: T -> int): (i: nat)
    requires |s| > 0
    ensures i < |s|
    ensures forall j :: 0 <= j < |s| ==> key(s[j]) <= key(s[i])
    ensures forall j :: 0 <= j < i ==> key(s[j]) < key(s[i])
    decreases |s|
  {
    if |s| == 1 then 0
    else
      var init := s[..|s| - 1];
      var k := FirstMaxIndex(init, key);
      assert forall j :: 0 <= j < |init| ==> init[j] == s[j];
      if key(s[|s| - 1]) > key(s[k]) then |s| - 1 else k
  }

  /** OrderByDescending(key).FirstOrDefault(). */
  function LatestBy<T>(s: seq<T>, key: T -> int): (r: Option<T>)
    ensures r.None? <==> s == []
    ensures r.Some? ==> r.value in s
    ensures r.Some? ==> forall x :: x in s ==> key(x) <= key(r.value)
  {
    if s == [] then None else Some(s[FirstMaxIndex(s, key)])
  }
}
