/** Strings, 64-bit integers and small result types shared by every component. */
module Text {

  datatype Option<+T> = None | Some(value: T)

  datatype Result<+T, +E> = Ok(value: T) | Err(error: E)

  // ---------------------------------------------------------------- int64

  const TWO63: int := 0x8000_0000_0000_0000
  const TWO64: int := 0x1_0000_0000_0000_0000
  const MIN64: int := -TWO63
  const MAX64: int := TWO63 - 1

  predicate IsInt64(x: int) {
    MIN64 <= x <= MAX64
  }

  /** Two's-complement reduction: what a Go int64 holds after an arithmetic result x. */
  function Wrap64(x: int): (r: int)
    ensures IsInt64(r)
    ensures IsInt64(x) ==> r == x
  {
    (x + TWO63) % TWO64 - TWO63
  }

  lemma WrapShift(x: int, k: int)
    ensures Wrap64(x + k * TWO64) == Wrap64(x)
  {
    var y := x + TWO63;
    assert (y + k * TWO64) % TWO64 == y % TWO64;
  }

  /** Reducing early or late makes no difference to a sum. */
  lemma WrapAdd(x: int, y: int)
    ensures Wrap64(Wrap64(x) + y) == Wrap64(x + y)
  {
    var q := (x + TWO63) / TWO64;
    assert Wrap64(x) == x - q * TWO64;
    WrapShift(x + y, -q);
  }

  lemma WrapSub(x: int, y: int)
    ensures Wrap64(Wrap64(x) - Wrap64(y)) == Wrap64(x - y)
  {
    WrapAdd(x, -Wrap64(y));
    var q := (y + TWO63) / TWO64;
    assert Wrap64(y) == y - q * TWO64;
    WrapShift(x - y, q);
  }

  // ------------------------------------------------------- decimal numerals

  predicate IsDigit(c: char) {
    '0' <= c <= '9'
  }

  predicate AllDigits(s: string) {
    forall i :: 0 <= i < |s| ==> IsDigit(s[i])
  }

  /** The shortest decimal numeral of n, as %d prints it. */
  function Digits(n: nat): (s: string)
    ensures |s| >= 1 && AllDigits(s)
  {
    var d := [('0' as int + n % 10) as char];
    if n < 10 then d else Digits(n / 10) + d
  }

  /** The number a run of digits denotes, most significant first. */
  function Value(s: string): nat
    requires AllDigits(s)
  {
    if s == "" then 0 else Value(s[..|s| - 1]) * 10 + (s[|s| - 1] as int - '0' as int)
  }

  lemma {:induction false} ValueOfDigits(n: nat)
    ensures Value(Digits(n)) == n
  {
    var s := Digits(n);
    var d := [('0' as int + n % 10) as char];
    if n < 10 {
      assert s[..|s| - 1] == "";
    } else {
      ValueOfDigits(n / 10);
      assert s[..|s| - 1] == Digits(n / 10);
    }
  }

  function Zeros(k: nat): (s: string)
    ensures |s| == k && forall i :: 0 <= i < k ==> s[i] == '0'
  {
    seq(k, _ => '0')
  }

  /** n printed with %0wd: zero-padded on the left to at least w characters. */
  function Padded(n: nat, w: nat): (s: string)
    ensures |s| >= w && |s| >= 1 && AllDigits(s)
  {
    var d := Digits(n);
    if |d| >= w then d else Zeros(w - |d|) + d
  }

  lemma {:induction false} ValueOfZeros(k: nat, s: string)
    requires AllDigits(s)
    ensures AllDigits(Zeros(k) + s)
    ensures Value(Zeros(k) + s) == Value(s)
    decreases |s|, k
  {
    var t := Zeros(k) + s;
    if s == "" {
      if k > 0 {
        assert t[..|t| - 1] == Zeros(k - 1) + "";
        ValueOfZeros(k - 1, "");
      }
    } else {
      assert t[..|t| - 1] == Zeros(k) + s[..|s| - 1];
      ValueOfZeros(k, s[..|s| - 1]);
    }
  }

  lemma ValueOfPadded(n: nat, w: nat)
    ensures Value(Padded(n, w)) == n
  {
    ValueOfDigits(n);
    if |Digits(n)| < w {
      ValueOfZeros(w - |Digits(n)|, Digits(n));
    }
  }

  lemma {:induction false} DigitsFit(n: nat, w: nat)
    requires w >= 1
    requires n < Pow10(w)
    ensures |Digits(n)| <= w
  {
    if n >= 10 {
      DigitsFit(n / 10, w - 1);
    }
  }

  function Pow10(k: nat): nat {
    if k == 0 then 1 else 10 * Pow10(k - 1)
  }

  // ------------------------------------------------------------ white space

  /** unicode.IsSpace. */
  predicate IsSpace(c: char) {
    || c in {'\t', '\n', '\U{0B}', '\U{0C}', '\r', ' ', '\U{85}', '\U{A0}', '\U{1680}'}
    || '\U{2000}' <= c <= '\U{200A}'
    || c in {'\U{2028}', '\U{2029}', '\U{202F}', '\U{205F}', '\U{3000}'}
  }

  function TrimLeft(s: string, cut: char -> bool): (r: string)
    ensures |r| <= |s| && (r == "" || !cut(r[0]))
    ensures s == "" || !cut(s[0]) ==> r == s
  {
    if s != "" && cut(s[0]) then TrimLeft(s[1..], cut) else s
  }

  function TrimRight(s: string, cut: char -> bool): (r: string)
    ensures |r| <= |s| && (r == "" || !cut(r[|r| - 1]))
    ensures s == "" || !cut(s[|s| - 1]) ==> r == s
  {
    if s != "" && cut(s[|s| - 1]) then TrimRight(s[..|s| - 1], cut) else s
  }

  function TrimSpace(s: string): (r: string)
    ensures s != "" && !IsSpace(s[0]) && !IsSpace(s[|s| - 1]) ==> r == s
  {
    TrimRight(TrimLeft(s, IsSpace), IsSpace)
  }

  lemma {:induction false} TrimLeftMeaning(s: string, cut: char -> bool) returns (i: nat)
    ensures i <= |s| && TrimLeft(s, cut) == s[i..] && forall k :: 0 <= k < i ==> cut(s[k])
  {
    if s != "" && cut(s[0]) {
      var j := TrimLeftMeaning(s[1..], cut);
      i := j + 1;
      assert s[1..][j..] == s[i..];
      assert forall k :: 0 < k < i ==> s[k] == s[1..][k - 1];
    } else {
      i := 0;
    }
  }

  lemma {:induction false} TrimRightMeaning(s: string, cut: char -> bool) returns (j: nat)
    ensures j <= |s| && TrimRight(s, cut) == s[..j] && forall k :: j <= k < |s| ==> cut(s[k])
  {
    if s != "" && cut(s[|s| - 1]) {
      j := TrimRightMeaning(s[..|s| - 1], cut);
      assert s[..|s| - 1][..j] == s[..j];
    } else {
      j := |s|;
      assert s[..j] == s;
    }
  }

  /** Spaces off both ends, and nothing else. */
  lemma TrimSpaceMeaning(s: string) returns (i: nat, j: nat)
    ensures i <= j <= |s| && TrimSpace(s) == s[i..j]
    ensures forall k :: 0 <= k < i || j <= k < |s| ==> IsSpace(s[k])
    ensures i < j ==> !IsSpace(s[i]) && !IsSpace(s[j - 1])
  {
    i := TrimLeftMeaning(s, IsSpace);
    var t := s[i..];
    var m := TrimRightMeaning(t, IsSpace);
    j := i + m;
    assert t[..m] == s[i..j];
    assert forall k :: j <= k < |s| ==> s[k] == t[k - i];
    if i < j {
      assert t != "" && TrimLeft(s, IsSpace) == t && t[0] == s[i];
      assert TrimRight(t, IsSpace)[m - 1] == s[j - 1];
    }
  }

  // --------------------------------------------------------- case and order

  function Lower(c: char): char {
    if 'A' <= c <= 'Z' then (c as int + 32) as char else c
  }

  function Folded(s: string): string {
    seq(|s|, i requires 0 <= i < |s| => Lower(s[i]))
  }

  /** strings.EqualFold, on the letters of ASCII. */
  predicate EqualFold(a: string, b: string) {
    Folded(a) == Folded(b)
  }

  /** The same text but for the case of letters. */
  lemma EqualFoldMeaning(a: string, b: string)
    ensures EqualFold(a, b) <==> |a| == |b| && forall i :: 0 <= i < |a| ==>
      || a[i] == b[i]
      || ('A' <= a[i] <= 'Z' && b[i] as int == a[i] as int + 32)
      || ('A' <= b[i] <= 'Z' && a[i] as int == b[i] as int + 32)
  {
    if EqualFold(a, b) {
      assert |Folded(a)| == |Folded(b)|;
      forall i | 0 <= i < |a| ensures Lower(a[i]) == Lower(b[i]) {
        assert Folded(a)[i] == Folded(b)[i];
      }
    }
  }

  /** Go's < on strings. */
  predicate Less(a: string, b: string)
    decreases |a|
  {
    if b == "" then false
    else if a == "" then true
    else a[0] < b[0] || (a[0] == b[0] && Less(a[1..], b[1..]))
  }

  lemma {:induction false} LessTrichotomy(a: string, b: string)
    ensures a == b ==> !Less(a, b)
    ensures Less(a, b) ==> !Less(b, a)
    ensures a != b ==> Less(a, b) || Less(b, a)
    decreases |a|
  {
    if a != "" && b != "" {
      LessTrichotomy(a[1..], b[1..]);
      assert a == [a[0]] + a[1..] && b == [b[0]] + b[1..];
    }
  }

  lemma {:induction false} LessTransitive(a: string, b: string, c: string)
    ensures Less(a, b) && Less(b, c) ==> Less(a, c)
    decreases |a|
  {
    if a != "" && b != "" && c != "" {
      LessTransitive(a[1..], b[1..], c[1..]);
    }
  }

  /** By the first character in which they differ, a shorter text before its continuations. */
  lemma {:induction false} LessMeaning(a: string, b: string)
    ensures Less(a, b) <==> exists k :: 0 <= k <= |a| && k < |b| && a[..k] == b[..k] && (k < |a| ==> a[k] < b[k])
    decreases |a|
  {
    if a == "" {
      if b != "" {
        assert a[..0] == b[..0];
      }
    } else if b != "" {
      LessMeaning(a[1..], b[1..]);
      if Less(a, b) {
        if a[0] < b[0] {
          assert a[..0] == b[..0];
        } else {
          var k :| 0 <= k <= |a[1..]| && k < |b[1..]| && a[1..][..k] == b[1..][..k]
            && (k < |a[1..]| ==> a[1..][k] < b[1..][k]);
          assert a[..k + 1] == [a[0]] + a[1..][..k] && b[..k + 1] == [b[0]] + b[1..][..k];
        }
      }
      if k :| 0 <= k <= |a| && k < |b| && a[..k] == b[..k] && (k < |a| ==> a[k] < b[k]) {
        if k > 0 {
          assert a[0] == a[..k][0] == b[..k][0] == b[0];
          assert a[1..][..k - 1] == a[..k][1..] && b[1..][..k - 1] == b[..k][1..];
        }
      }
    }
  }

  predicate AtMost(a: string, b: string) {
    !Less(b, a)
  }

  lemma AtMostTotal(a: string, b: string)
    ensures AtMost(a, b) || AtMost(b, a)
    ensures AtMost(a, b) && AtMost(b, a) ==> a == b
  {
    LessTrichotomy(a, b);
  }

  lemma AtMostTransitive(a: string, b: string, c: string)
    requires AtMost(a, b) && AtMost(b, c)
    ensures AtMost(a, c)
  {
    LessTrichotomy(a, b);
    LessTrichotomy(b, c);
    LessTrichotomy(a, c);
    if Less(c, a) {
      LessTransitive(c, a, b);
      LessTransitive(b, c, a);
    }
  }

  // ------------------------------------------------------------ len of Go

  /** The bytes a character takes in UTF-8. */
  function CharBytes(c: char): (n: nat)
    ensures 1 <= n <= 4
  {
    var v := c as int;
    if v < 0x80 then 1 else if v < 0x800 then 2 else if v < 0x1_0000 then 3 else 4
  }

  /** len(s) */
  function ByteLength(s: string): (n: nat)
    ensures |s| <= n <= 4 * |s|
  {
    if s == "" then 0 else ByteLength(s[..|s| - 1]) + CharBytes(s[|s| - 1])
  }

  lemma EmptyIsNoBytes()
    ensures ByteLength("") == 0
  {
  }
}
