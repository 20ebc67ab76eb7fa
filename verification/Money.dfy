/** internal/money and formatMinor of cmd/worldline: amounts as text and as int64 minor units. */
module Money {
  import opened Text

  /** strconv.ParseInt(s, 10, 64): an optional sign, at least one digit, and the range of int64. */
  function ParseInt(s: string): (r: Option<int>)
    ensures r.Some? ==> IsInt64(r.value)
  {
    var signed := s != "" && (s[0] == '-' || s[0] == '+');
    var body := if signed then s[1..] else s;
    if body == "" || !AllDigits(body) then None
    else
      var v := if signed && s[0] == '-' then -(Value(body) as int) else Value(body);
      if IsInt64(v) then Some(v) else None
  }

  /** Index of the first '.', or |s|. */
  function DotAt(s: string): (i: nat)
    ensures i <= |s|
    ensures forall j :: 0 <= j < i ==> s[j] != '.'
    ensures i < |s| ==> s[i] == '.'
  {
    if s == "" || s[0] == '.' then 0 else 1 + DotAt(s[1..])
  }

  function ParseFraction(frac: string): (r: Option<int>)
    ensures r.Some? ==> IsInt64(r.value)
  {
    var f := if |frac| == 0 then "00" else if |frac| == 1 then frac + "0" else frac;
    if |f| != 2 then None else ParseInt(f)
  }

  /** The sign has been taken off: whole[.frac] to minor units, w*100 + cents in int64 arithmetic. */
  function ParseUnsigned(s: string): (r: Option<int>)
    ensures r.Some? ==> IsInt64(r.value)
  {
    var i := DotAt(s);
    var whole := if i == 0 then "0" else s[..i];
    match ParseInt(whole)
    case None => None
    case Some(w) =>
      if i == |s| then Some(Wrap64(w * 100))
      else
        match ParseFraction(s[i + 1..])
        case None => None
        case Some(c) => Some(Wrap64(w * 100 + c))
  }

  /** money.Parse. Overflow is not detected: the arithmetic wraps. */
  function Parse(text: string): (r: Option<int>)
    ensures r.Some? ==> IsInt64(r.value)
  {
    var s := TrimSpace(text);
    if s != "" && s[0] == '-' then
      match ParseUnsigned(s[1..])
      case None => None
      case Some(v) => Some(Wrap64(-v))
    else ParseUnsigned(s)
  }

  // -------------------------------------------------------------- printing

  /** Go's / and % on int64 truncate toward zero. */
  function Quot(a: int, b: nat): int
    requires b > 0
  {
    if a >= 0 then a / b else -((-a) / b)
  }

  function Rem(a: int, b: nat): int
    requires b > 0
  {
    a - b * Quot(a, b)
  }

  /** %d */
  function Show(n: int): string {
    if n < 0 then "-" + Digits(-n) else Digits(n)
  }

  /** %02d: the sign counts towards the width. */
  function Show2(n: int): string {
    if n < 0 then "-" + Padded(-n, 1) else Padded(n, 2)
  }

  /** money.Format. The negation wraps, so the least int64 stays negative. */
  function Format(v: int): string
    requires IsInt64(v)
  {
    var neg := if v < 0 then "-" else "";
    var m := if v < 0 then Wrap64(-v) else v;
    neg + Show(Quot(m, 100)) + "." + Show2(Rem(m, 100))
  }

  /** formatMinor of cmd/worldline/cycle.go. */
  function FormatMinor(cents: int): string
    requires IsInt64(cents)
  {
    var (neg, c) := if cents < 0 then ("-", Wrap64(-cents)) else ("", cents);
    neg + Show(Quot(c, 100)) + "." + Show2(Rem(c, 100))
  }

  // ------------------------------------------------------------ properties

  lemma {:induction false} DotAtOf(a: string, b: string)
    requires forall j :: 0 <= j < |a| ==> a[j] != '.'
    ensures DotAt(a + "." + b) == |a|
  {
    var s := a + "." + b;
    if a != "" {
      assert s[1..] == a[1..] + "." + b;
      DotAtOf(a[1..], b);
    }
  }

  lemma ParseIntShow(n: int)
    requires IsInt64(n)
    ensures ParseInt(Show(n)) == Some(n)
  {
    if n < 0 {
      ValueOfDigits(-n);
      assert Show(n)[1..] == Digits(-n);
    } else {
      ValueOfDigits(n);
    }
  }

  lemma ParseIntShow2(n: int)
    requires -9 <= n <= 99
    ensures |Show2(n)| == 2 && ParseInt(Show2(n)) == Some(n)
  {
    if n < 0 {
      ValueOfPadded(-n, 1);
      assert Show2(n)[1..] == Padded(-n, 1);
    } else {
      assert n < Pow10(2) by { assert Pow10(1) == 10; }
      DigitsFit(n, 2);
      ValueOfPadded(n, 2);
    }
  }

  lemma ShowHasNoDot(n: int)
    ensures Show(n) != "" && forall j :: 0 <= j < |Show(n)| ==> Show(n)[j] != '.'
    ensures n >= 0 ==> Show(n)[0] != '-'
  {
  }

  lemma ParseFractionTwo(f: string)
    requires |f| == 2
    ensures ParseFraction(f) == ParseInt(f)
  {
    hide ParseInt;
  }

  /** A numeral and two more characters are read back as w*100 + c, in wrapped arithmetic. */
  lemma ParseUnsignedShown(w: int, c: int)
    requires IsInt64(w) && -9 <= c <= 99
    ensures ParseUnsigned(Show(w) + "." + Show2(c)) == Some(Wrap64(w * 100 + c))
  {
    hide ParseInt, ParseFraction, Show, Show2, DotAt, Wrap64;
    var s := Show(w) + "." + Show2(c);
    ShowHasNoDot(w);
    DotAtOf(Show(w), Show2(c));
    assert s[..|Show(w)|] == Show(w);
    assert s[|Show(w)| + 1..] == Show2(c);
    ParseIntShow(w);
    ParseIntShow2(c);
    ParseFractionTwo(Show2(c));
  }

  function Written(negative: bool, w: int, c: int): string {
    (if negative then "-" else "") + Show(w) + "." + Show2(c)
  }

  function Signed(negative: bool, v: int): int {
    Wrap64(if negative then -v else v)
  }

  /** No digit or sign is white space, so trimming leaves printed amounts alone. */
  lemma WrittenUntrimmed(negative: bool, w: int, c: int)
    requires -9 <= c <= 99
    ensures TrimSpace(Written(negative, w, c)) == Written(negative, w, c)
  {
    var t := Written(negative, w, c);
    ParseIntShow2(c);
    assert t[|t| - 1] == Show2(c)[1] && IsDigit(Show2(c)[1]);
    assert t[0] == '-' || IsDigit(t[0]);
  }

  lemma ParseMinus(s: string)
    requires s != "" && s[0] == '-' && TrimSpace(s) == s
    ensures Parse(s) == match ParseUnsigned(s[1..]) case None => None case Some(v) => Some(Wrap64(-v))
  {
  }

  lemma ParseNoMinus(s: string)
    requires s != "" && s[0] != '-' && TrimSpace(s) == s
    ensures Parse(s) == ParseUnsigned(s)
  {
  }

  lemma WrittenHead(negative: bool, w: int, c: int)
    ensures Written(negative, w, c) != ""
    ensures negative ==> Written(negative, w, c)[0] == '-' && Written(negative, w, c)[1..] == Show(w) + "." + Show2(c)
    ensures !negative ==> Written(negative, w, c) == Show(w) + "." + Show2(c)
    ensures !negative && w >= 0 ==> Written(negative, w, c)[0] != '-'
  {
    hide Show, Show2;
    ShowHasNoDot(w);
    var body := Show(w) + "." + Show2(c);
    if negative {
      assert Written(negative, w, c) == "-" + body;
    } else {
      assert Written(negative, w, c) == "" + body == body;
    }
  }

  /** What the parser makes of any printed pair of numerals. */
  lemma ParseWritten(negative: bool, w: int, c: int)
    requires IsInt64(w) && -9 <= c <= 99
    requires negative || w >= 0
    ensures Parse(Written(negative, w, c)) == Some(Signed(negative, w * 100 + c))
  {
    hide Parse, ParseUnsigned, TrimSpace, Written, Show, Show2;
    WrittenUntrimmed(negative, w, c);
    WrittenHead(negative, w, c);
    ParseUnsignedShown(w, c);
    if negative {
      ParseMinus(Written(negative, w, c));
      assert Wrap64(0) == 0;
      WrapSub(0, w * 100 + c);
    } else {
      ParseNoMinus(Written(negative, w, c));
    }
  }

  /** The two numerals Format prints, and the value they stand for. */
  lemma Parts(v: int) returns (m: int, w: int, c: int)
    requires IsInt64(v)
    ensures m == if v < 0 then Wrap64(-v) else v
    ensures w == Quot(m, 100) && c == Rem(m, 100)
    ensures IsInt64(w) && -9 <= c <= 99 && (v < 0 || w >= 0)
    ensures Signed(v < 0, w * 100 + c) == v
  {
    m := if v < 0 then Wrap64(-v) else v;
    w, c := Quot(m, 100), Rem(m, 100);
    assert v == MIN64 ==> m == MIN64;
  }

  lemma FormatIsWritten(v: int) returns (w: int, c: int)
    requires IsInt64(v)
    ensures Format(v) == FormatMinor(v) == Written(v < 0, w, c)
    ensures IsInt64(w) && -9 <= c <= 99 && (v < 0 || w >= 0)
    ensures Signed(v < 0, w * 100 + c) == v
  {
    hide Show, Show2, Quot, Rem, Wrap64, Signed;
    var m;
    m, w, c := Parts(v);
  }

  /** Every int64 survives printing and parsing, the least one included. */
  lemma RoundTrip(v: int)
    requires IsInt64(v)
    ensures Parse(Format(v)) == Some(v)
  {
    hide Parse, Format, FormatMinor, Written;
    var w, c := FormatIsWritten(v);
    ParseWritten(v < 0, w, c);
  }

  lemma FormatInjective(u: int, v: int)
    requires IsInt64(u) && IsInt64(v)
    ensures Format(u) == Format(v) <==> u == v
  {
    hide Parse, Format, FormatMinor, Written;
    RoundTrip(u);
    RoundTrip(v);
  }

  /** The acquirer's printer and the bank's parser agree on every amount. */
  lemma MinorRoundTrip(v: int)
    requires IsInt64(v)
    ensures FormatMinor(v) == Format(v)
    ensures Parse(FormatMinor(v)) == Some(v)
  {
    hide Parse, Format, FormatMinor, Written;
    RoundTrip(v);
    var w, c := FormatIsWritten(v);
  }

  /** Normalising an accepted amount (parse, then print, as the HTTP handlers do) keeps its value. */
  lemma Normalised(text: string)
    requires Parse(text).Some?
    ensures Parse(Format(Parse(text).value)) == Parse(text)
  {
    hide Parse, Format, FormatMinor, Written;
    RoundTrip(Parse(text).value);
  }

  /** Plain decimals are read exactly unless they overflow, and overflow is silent. */
  lemma ParsePlain(negative: bool, w: nat, c: nat)
    requires w <= MAX64 && c <= 99
    ensures Parse(Written(negative, w, c)) == Some(Wrap64(if negative then -(w * 100 + c) else w * 100 + c))
    ensures !negative ==> (Parse(Written(negative, w, c)) == Some(w * 100 + c) <==> w * 100 + c <= MAX64)
  {
    hide Parse, Written;
    ParseWritten(negative, w, c);
  }

  /** The parser is laxer than the printer: a signed fraction is accepted, and subtracts. */
  lemma SignedFractionAccepted(w: nat)
    requires w * 100 <= MAX64
    ensures Parse(Show(w) + ".-5") == Some(w * 100 - 5)
  {
    hide Parse, Wrap64, Show;
    assert Show2(-5) == "-5" by { assert Digits(5) == "5"; }
    assert Written(false, w, -5) == Show(w) + ".-5";
    ParseWritten(false, w, -5);
  }

  lemma FiveIsRead()
    ensures Parse("5.00") == Some(500)
  {
    assert Digits(5) == "5";
    assert Padded(0, 2) == "00" by { assert Digits(0) == "0"; assert Zeros(1) == "0"; }
    assert Written(false, 5, 0) == "5.00";
    ParsePlain(false, 5, 0);
  }
}
