/** Row-version tokens of internal/bankingcircle/subscription.go: an 8-byte big-endian counter in base64. */
module RowVersions {
  import opened Text

  // Base64 as section 4 of RFC 4648 has it.

  predicate IsByte(b: int) {
    0 <= b < 256
  }

  ghost predicate AreBytes(s: seq<int>) {
    forall i :: 0 <= i < |s| ==> IsByte(s[i])
  }

  // ----------------------------------------------------------------- base64

  function Symbol(v: int): char
    requires 0 <= v < 64
  {
    if v < 26 then ('A' as int + v) as char
    else if v < 52 then ('a' as int + v - 26) as char
    else if v < 62 then ('0' as int + v - 52) as char
    else if v == 62 then '+' else '/'
  }

  function SymbolValue(c: char): int {
    if 'A' <= c <= 'Z' then c as int - 'A' as int
    else if 'a' <= c <= 'z' then c as int - 'a' as int + 26
    else if '0' <= c <= '9' then c as int - '0' as int + 52
    else if c == '+' then 62 else 63
  }

  lemma SymbolRoundTrip(v: int)
    requires 0 <= v < 64
    ensures SymbolValue(Symbol(v)) == v && Symbol(v) != '='
  {
  }

  function Encode(s: seq<int>): string
    requires AreBytes(s)
  {
    if s == [] then ""
    else if |s| == 1 then [Symbol(s[0] / 4), Symbol(s[0] % 4 * 16), '=', '=']
    else if |s| == 2 then [Symbol(s[0] / 4), Symbol(s[0] % 4 * 16 + s[1] / 16), Symbol(s[1] % 16 * 4), '=']
    else [Symbol(s[0] / 4), Symbol(s[0] % 4 * 16 + s[1] / 16), Symbol(s[1] % 16 * 4 + s[2] / 64), Symbol(s[2] % 64)]
         + Encode(s[3..])
  }

  function Decode(t: string): seq<int> {
    if |t| < 4 then []
    else
      var (a, b, c, d) := (SymbolValue(t[0]), SymbolValue(t[1]), SymbolValue(t[2]), SymbolValue(t[3]));
      if t[2] == '=' then [a * 4 + b / 16]
      else if t[3] == '=' then [a * 4 + b / 16, b % 16 * 16 + c / 4]
      else [a * 4 + b / 16, b % 16 * 16 + c / 4, c % 4 * 64 + d] + Decode(t[4..])
  }

  /** Three bytes in four symbols. */
  function Quad(x: int, y: int, z: int): string
    requires IsByte(x) && IsByte(y) && IsByte(z)
  {
    [Symbol(x / 4), Symbol(x % 4 * 16 + y / 16), Symbol(y % 16 * 4 + z / 64), Symbol(z % 64)]
  }

  lemma EncodeMore(s: seq<int>)
    requires AreBytes(s) && |s| >= 3
    ensures Encode(s) == Quad(s[0], s[1], s[2]) + Encode(s[3..])
  {
    hide Symbol;
  }

  lemma DecodeMore(x: int, y: int, z: int, rest: string)
    requires IsByte(x) && IsByte(y) && IsByte(z)
    ensures Decode(Quad(x, y, z) + rest) == [x, y, z] + Decode(rest)
  {
    hide Symbol, SymbolValue;
    SymbolRoundTrip(x / 4);
    SymbolRoundTrip(x % 4 * 16 + y / 16);
    SymbolRoundTrip(y % 16 * 4 + z / 64);
    SymbolRoundTrip(z % 64);
    assert (Quad(x, y, z) + rest)[4..] == rest;
  }

  lemma DecodeOne(x: int)
    requires IsByte(x)
    ensures Decode(Encode([x])) == [x]
  {
    hide Symbol, SymbolValue;
    SymbolRoundTrip(x / 4);
    SymbolRoundTrip(x % 4 * 16);
    assert Encode([x]) == [Symbol(x / 4), Symbol(x % 4 * 16), '=', '='];
  }

  lemma DecodeTwo(x: int, y: int)
    requires IsByte(x) && IsByte(y)
    ensures Decode(Encode([x, y])) == [x, y]
  {
    hide Symbol, SymbolValue;
    SymbolRoundTrip(x / 4);
    SymbolRoundTrip(x % 4 * 16 + y / 16);
    SymbolRoundTrip(y % 16 * 4);
    assert Encode([x, y]) == [Symbol(x / 4), Symbol(x % 4 * 16 + y / 16), Symbol(y % 16 * 4), '='];
  }

  lemma DecodeNone()
    ensures Decode(Encode([])) == []
  {
  }

  lemma {:induction false} DecodeEncode(s: seq<int>)
    requires AreBytes(s)
    ensures Decode(Encode(s)) == s
  {
    hide Encode, Decode, Quad;
    if |s| == 0 {
      DecodeNone();
    } else if |s| == 1 {
      DecodeOne(s[0]);
      assert s == [s[0]];
    } else if |s| == 2 {
      DecodeTwo(s[0], s[1]);
      assert s == [s[0], s[1]];
    } else {
      EncodeMore(s);
      DecodeMore(s[0], s[1], s[2], Encode(s[3..]));
      DecodeEncode(s[3..]);
      assert s == [s[0], s[1], s[2]] + s[3..];
    }
  }

  // ---------------------------------------------------------- the counter

  /** binary.BigEndian, k bytes of n. */
  function BigEndian(n: nat, k: nat): (s: seq<int>)
    ensures |s| == k && AreBytes(s)
  {
    if k == 0 then [] else BigEndian(n / 256, k - 1) + [n % 256]
  }

  function FromBigEndian(s: seq<int>): int {
    if s == [] then 0 else FromBigEndian(s[..|s| - 1]) * 256 + s[|s| - 1]
  }

  function Pow256(k: nat): nat {
    if k == 0 then 1 else 256 * Pow256(k - 1)
  }

  lemma {:induction false} FromBigEndianRoundTrip(n: nat, k: nat)
    requires n < Pow256(k)
    ensures FromBigEndian(BigEndian(n, k)) == n
  {
    if k > 0 {
      FromBigEndianRoundTrip(n / 256, k - 1);
      assert BigEndian(n, k)[..k - 1] == BigEndian(n / 256, k - 1);
    }
  }

  lemma Pow256Of8()
    ensures Pow256(8) == TWO64
  {
    assert Pow256(4) == 0x1_0000_0000;
    assert Pow256(5) == 0x100_0000_0000;
    assert Pow256(6) == 0x1_0000_0000_0000;
    assert Pow256(7) == 0x100_0000_0000_0000;
  }

  /** The token of the k-th mint: the uint64 counter wraps. */
  function Token(k: nat): string {
    Encode(BigEndian(k % TWO64, 8))
  }

  /** Below 2^64 mints, a token names its mint. */
  lemma TokensDistinct(j: nat, k: nat)
    requires j < TWO64 && k < TWO64 && Token(j) == Token(k)
    ensures j == k
  {
    hide Encode, Decode, BigEndian, FromBigEndian;
    Pow256Of8();
    DecodeEncode(BigEndian(j, 8));
    DecodeEncode(BigEndian(k, 8));
    FromBigEndianRoundTrip(j, 8);
    FromBigEndianRoundTrip(k, 8);
  }

  /** And not beyond: the counter has come round. */
  lemma TokensRepeat(k: nat)
    ensures Token(k + TWO64) == Token(k)
  {
    assert (k + TWO64) % TWO64 == k % TWO64;
  }

  // --------------------------------------------------------------- If-Match

  function Unquoted(s: string): string {
    TrimRight(TrimLeft(s, IsQuote), IsQuote)
  }

  predicate IsQuote(c: char) {
    c == '"'
  }

  /** checkRowVersion: the If-Match condition of section 13.1.1 of RFC 9110, with no header refused. */
  predicate Matches(current: string, ifMatch: string) {
    TrimSpace(ifMatch) != "" && Unquoted(ifMatch) == current
  }

  /** No header, an empty or a blank one never satisfies the condition; any other does when, quotes off both its ends,
      it is the current token. */
  lemma MatchesMeaning(current: string, ifMatch: string)
    ensures TrimSpace(ifMatch) == "" ==> !Matches(current, ifMatch)
    ensures TrimSpace(ifMatch) != "" ==> (Matches(current, ifMatch) <==> Quotes(ifMatch, current))
  {
    hide TrimSpace;
    var i := TrimLeftMeaning(ifMatch, IsQuote);
    var t := ifMatch[i..];
    var m := TrimRightMeaning(t, IsQuote);
    var j := i + m;
    assert t[..m] == ifMatch[i..j] == Unquoted(ifMatch);
    assert forall k :: j <= k < |ifMatch| ==> ifMatch[k] == t[k - i];
    assert QuotesAround(ifMatch, i, j) && IsBare(ifMatch[i..j]) by {
      if m > 0 {
        assert ifMatch[i..j][0] == t[0] && ifMatch[i..j][m - 1] == t[m - 1];
      }
    }
    if Quotes(ifMatch, current) {
      var a, b :| 0 <= a <= b <= |ifMatch| && ifMatch[a..b] == current
                  && IsBare(current) && QuotesAround(ifMatch, a, b);
      BareUnique(ifMatch, i, j, a, b);
    }
  }

  /** s is bare, with nothing but quotes around it. */
  ghost predicate Quotes(s: string, bare: string) {
    exists i, j :: 0 <= i <= j <= |s| && s[i..j] == bare && IsBare(bare) && QuotesAround(s, i, j)
  }

  /** Empty, or without a quote at either end. */
  predicate IsBare(s: string) {
    s != "" ==> s[0] != '"' && s[|s| - 1] != '"'
  }

  /** Outside i to j there are only quotes. */
  predicate QuotesAround(s: string, i: nat, j: nat) {
    forall k :: 0 <= k < |s| && !(i <= k < j) ==> s[k] == '"'
  }

  /** What is left of a text without the quotes around it is one text. */
  lemma BareUnique(s: string, i: nat, j: nat, a: nat, b: nat)
    requires i <= j <= |s| && IsBare(s[i..j]) && QuotesAround(s, i, j)
    requires a <= b <= |s| && IsBare(s[a..b]) && QuotesAround(s, a, b)
    ensures s[i..j] == s[a..b]
  {
    if i < j {
      assert s[i..j][0] == s[i] && s[i..j][j - i - 1] == s[j - 1];
    }
    if a < b {
      assert s[a..b][0] == s[a] && s[a..b][b - a - 1] == s[b - 1];
    }
  }

  /** The alphabet of section 4 of RFC 4648: upper case, lower case, digits, plus and slash. */
  lemma Alphabet(v: int)
    requires 0 <= v < 63
    ensures Symbol(0) == 'A' && Symbol(25) == 'Z' && Symbol(26) == 'a' && Symbol(51) == 'z'
    ensures Symbol(52) == '0' && Symbol(61) == '9' && Symbol(62) == '+' && Symbol(63) == '/'
    ensures v !in {25, 51, 61, 62} ==> Symbol(v + 1) as int == Symbol(v) as int + 1
  {
  }

  lemma {:induction false} BigEndianOfSmall(n: nat, k: nat)
    requires n < 256 && k >= 1
    ensures BigEndian(n, k) == seq(k - 1, _ => 0) + [n]
  {
    if k > 1 {
      BigEndianOfSmall(0, k - 1);
    } else {
      assert BigEndian(0, 0) == [];
    }
  }

  lemma EncodeZeros(s: seq<int>)
    requires AreBytes(s) && AreBytes([0, 0, 0] + s)
    ensures Encode([0, 0, 0] + s) == "AAAA" + Encode(s)
  {
    assert ([0, 0, 0] + s)[3..] == s;
  }

  lemma SmallToken(n: nat)
    requires n < 256
    ensures Token(n) == "AAAAAAAA" + Encode([0, n])
  {
    hide Encode, BigEndian;
    BigEndianOfSmall(n, 8);
    assert BigEndian(n, 8) == [0, 0, 0] + ([0, 0, 0] + [0, n]);
    EncodeZeros([0, n]);
    EncodeZeros([0, 0, 0] + [0, n]);
  }

  /** The first two tokens of a store. */
  lemma FirstTokens()
    ensures Token(1) == "AAAAAAAAAAE=" && Token(2) == "AAAAAAAAAAI="
  {
    hide Token;
    SmallToken(1);
    SmallToken(2);
    assert Encode([0, 1]) == "AAE=" && Encode([0, 2]) == "AAI=";
  }

  // What a client echoes back.

  lemma {:induction false} EncodeIsPlain(s: seq<int>)
    requires AreBytes(s)
    ensures forall i :: 0 <= i < |Encode(s)| ==> !IsQuote(Encode(s)[i]) && !IsSpace(Encode(s)[i])
    ensures s != [] ==> |Encode(s)| >= 4
  {
    if |s| > 2 {
      EncodeIsPlain(s[3..]);
    }
  }

  /** A token sent back bare or in double quotes, as an ETag is, matches its own record. */
  lemma TokenMatches(k: nat)
    ensures Matches(Token(k), Token(k))
    ensures Matches(Token(k), "\"" + Token(k) + "\"")
  {
    hide Encode, BigEndian;
    EncodeIsPlain(BigEndian(k % TWO64, 8));
    var t := Token(k);
    assert TrimLeft("\"" + t + "\"", IsQuote) == t + "\"" by {
      assert ("\"" + t + "\"")[1..] == t + "\"";
      assert TrimLeft(t + "\"", IsQuote) == t + "\"";
    }
    assert TrimRight(t + "\"", IsQuote) == t by {
      assert (t + "\"")[..|t|] == t;
      assert TrimRight(t, IsQuote) == t;
    }
  }
}
