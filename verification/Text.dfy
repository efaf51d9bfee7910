/** Decimal and hexadecimal text, as the conversions of internal/maidenlaneeth/txn.go read and write it. */
module Text {
  import opened Wrappers

  type Byte = b: int | 0 <= b < 256

  // ---------- Decimal numbers ----------

  predicate IsDigit(c: char) {
    '0' <= c <= '9'
  }

  predicate AllDigits(s: string) {
    forall i :: 0 <= i < |s| ==> IsDigit(s[i])
  }

  function Digits(n: nat): string {
    if n < 10 then ['0' + n as char] else Digits(n / 10) + ['0' + (n % 10) as char]
  }

  /** How numbers are written. */
  function Dec(n: int): string {
    if n < 0 then "-" + Digits(-n) else Digits(n)
  }

  function Value(s: string): nat
    requires AllDigits(s)
  {
    if s == "" then 0 else 10 * Value(s[..|s|-1]) + (s[|s|-1] - '0') as nat
  }

  /** Digits without a sign, at least one: how unsigned numbers are read. */
  function ParseUnsigned(s: string): Option<int> {
    if s != "" && AllDigits(s) then Some(Value(s)) else None
  }

  /** A sign is optional: how signed and big numbers are read. */
  function ParseSigned(s: string): Option<int> {
    if s != "" && s[0] == '-' then
      (match ParseUnsigned(s[1..])
       case Some(n) => Some(-n)
       case None => None)
    else if s != "" && s[0] == '+' then ParseUnsigned(s[1..])
    else ParseUnsigned(s)
  }

  /** No superfluous zero in front. */
  predicate IsNumeral(s: string) {
    s != "" && AllDigits(s) && (|s| > 1 ==> s[0] != '0')
  }

  /** The form in which numbers are written. */
  predicate IsDecimal(s: string) {
    if s != "" && s[0] == '-' then IsNumeral(s[1..]) && s != "-0" else IsNumeral(s)
  }

  lemma {:induction false} DigitsHaveValue(n: nat)
    ensures IsNumeral(Digits(n)) && Value(Digits(n)) == n
    ensures n > 0 ==> Digits(n)[0] != '0'
  {
    if n >= 10 {
      DigitsHaveValue(n / 10);
      assert Digits(n)[..|Digits(n)|-1] == Digits(n / 10);
    }
  }

  lemma {:induction false} ValueHasDigits(s: string)
    requires IsNumeral(s)
    ensures Digits(Value(s)) == s
    ensures s[0] != '0' ==> Value(s) > 0
  {
    var last := s[|s|-1];
    if |s| > 1 {
      var front := s[..|s|-1];
      ValueHasDigits(front);
      assert front[0] == s[0];
      assert Value(s) / 10 == Value(front) && Value(s) % 10 == (last - '0') as nat;
      assert s == front + [last];
    } else {
      assert Value(s[..0]) == 0;
      assert s == [last];
    }
  }

  lemma NegativeDecParses(n: int)
    requires n < 0
    ensures ParseSigned(Dec(n)) == Some(n) && ParseUnsigned(Dec(n)) == None
  {
    DigitsHaveValue(-n);
    assert Dec(n)[1..] == Digits(-n);
    assert !IsDigit(Dec(n)[0]);
  }

  /** What is written is read back. */
  lemma DecParses(n: int)
    ensures ParseSigned(Dec(n)) == Some(n)
    ensures n >= 0 ==> ParseUnsigned(Dec(n)) == Some(n)
    ensures n < 0 ==> ParseUnsigned(Dec(n)) == None
  {
    if n < 0 {
      NegativeDecParses(n);
    } else {
      DigitsHaveValue(n);
      assert IsDigit(Digits(n)[0]);
    }
  }

  lemma DecimalIsWrittenBack(s: string)
    requires IsDecimal(s)
    ensures ParseSigned(s).Some? && Dec(ParseSigned(s).value) == s
  {
    if s[0] == '-' {
      ValueHasDigits(s[1..]);
      assert s == "-" + s[1..];
      assert s[1..][0] == s[1] && s[1] != '0' by {
        assert |s| == 2 ==> s == ['-', s[1]];
      }
    } else {
      assert IsDigit(s[0]);
      ValueHasDigits(s);
    }
  }

  lemma DecIsDecimal(n: int)
    ensures IsDecimal(Dec(n))
  {
    DigitsHaveValue(if n < 0 then -n else n);
    if n < 0 {
      assert Dec(n)[1..] == Digits(-n);
      assert |Dec(n)| == 2 ==> Dec(n)[1] == Digits(-n)[0];
    } else {
      assert IsDigit(Dec(n)[0]);
    }
  }

  /** Reading and writing gives the same text exactly for the form in which numbers are written. */
  lemma ParsedIsDecIff(s: string)
    requires ParseSigned(s).Some?
    ensures Dec(ParseSigned(s).value) == s <==> IsDecimal(s)
  {
    DecIsDecimal(ParseSigned(s).value);
    if IsDecimal(s) {
      DecimalIsWrittenBack(s);
    }
  }

  // ---------- Hexadecimal bytes ----------

  function HexDigit(k: int): char
    requires 0 <= k < 16
  {
    if k < 10 then '0' + k as char else 'a' + (k - 10) as char
  }

  function HexValue(c: char): Option<int> {
    if '0' <= c <= '9' then Some((c - '0') as int)
    else if 'a' <= c <= 'f' then Some((c - 'a') as int + 10)
    else if 'A' <= c <= 'F' then Some((c - 'A') as int + 10)
    else None
  }

  function EncodeHex(bytes: seq<Byte>): string {
    if bytes == [] then "" else [HexDigit(bytes[0] / 16), HexDigit(bytes[0] % 16)] + EncodeHex(bytes[1..])
  }

  /** Decoding stops at the first pair that is not hexadecimal and keeps what came before. */
  function DecodeHex(s: string): seq<Byte> {
    if |s| < 2 || HexValue(s[0]).None? || HexValue(s[1]).None? then []
    else [16 * HexValue(s[0]).value + HexValue(s[1]).value] + DecodeHex(s[2..])
  }

  predicate HasPrefix(s: string) {
    |s| >= 2 && s[0] == '0' && (s[1] == 'x' || s[1] == 'X')
  }

  function WithoutPrefix(s: string): string {
    if HasPrefix(s) then s[2..] else s
  }

  function FromHex(s: string): seq<Byte> {
    var digits := WithoutPrefix(s);
    DecodeHex(if |digits| % 2 == 1 then "0" + digits else digits)
  }

  /** No bytes are written as "0x0". */
  function ToHex(bytes: seq<Byte>): string {
    "0x" + if bytes == [] then "0" else EncodeHex(bytes)
  }

  predicate IsHexAddress(s: string) {
    var digits := WithoutPrefix(s);
    |digits| == 40 && forall i :: 0 <= i < 40 ==> HexValue(digits[i]).Some?
  }

  predicate IsLowerHexDigit(c: char) {
    '0' <= c <= '9' || 'a' <= c <= 'f'
  }

  predicate AllLowerHex(s: string) {
    forall i :: 0 <= i < |s| ==> IsLowerHexDigit(s[i])
  }

  /** The form in which bytes are written, if there are any. */
  predicate IsHexText(s: string) {
    |s| >= 4 && |s| % 2 == 0 && s[..2] == "0x" && AllLowerHex(s[2..])
  }

  lemma {:induction false} EncodedDecodes(bytes: seq<Byte>)
    ensures DecodeHex(EncodeHex(bytes)) == bytes
    ensures |EncodeHex(bytes)| == 2 * |bytes| && AllLowerHex(EncodeHex(bytes))
  {
    if bytes != [] {
      EncodedDecodes(bytes[1..]);
      assert EncodeHex(bytes)[2..] == EncodeHex(bytes[1..]);
    }
  }

  lemma HexDigitOfValue(c: char, d: char)
    requires IsLowerHexDigit(c) && IsLowerHexDigit(d)
    ensures HexValue(c).Some? && HexValue(d).Some?
    ensures var b := 16 * HexValue(c).value + HexValue(d).value;
            0 <= b < 256 && HexDigit(b / 16) == c && HexDigit(b % 16) == d
  {
    var b := 16 * HexValue(c).value + HexValue(d).value;
    assert b / 16 == HexValue(c).value && b % 16 == HexValue(d).value;
  }

  lemma DecodeHexOfPair(s: string)
    requires |s| >= 2 && IsLowerHexDigit(s[0]) && IsLowerHexDigit(s[1])
    ensures DecodeHex(s) != [] && DecodeHex(s)[1..] == DecodeHex(s[2..])
    ensures HexDigit(DecodeHex(s)[0] / 16) == s[0] && HexDigit(DecodeHex(s)[0] % 16) == s[1]
  {
    HexDigitOfValue(s[0], s[1]);
  }

  lemma {:induction false} DecodedEncodes(s: string)
    requires |s| % 2 == 0 && AllLowerHex(s)
    ensures EncodeHex(DecodeHex(s)) == s
  {
    if s != "" {
      DecodeHexOfPair(s);
      DecodedEncodes(s[2..]);
      assert s == [s[0], s[1]] + s[2..];
    }
  }

  /** Bytes that are written are read back, if there are any; no bytes are read back as one. */
  lemma HexParses(bytes: seq<Byte>)
    ensures FromHex(ToHex(bytes)) == (if bytes == [] then [0] else bytes)
    ensures bytes != [] ==> IsHexText(ToHex(bytes)) && |ToHex(bytes)| == 2 + 2 * |bytes|
  {
    EncodedDecodes(bytes);
    if bytes == [] {
      assert WithoutPrefix(ToHex(bytes)) == "0";
      assert "0" + "0" == "00";
      assert DecodeHex("00") == [0] + DecodeHex("00"[2..]);
    } else {
      assert WithoutPrefix(ToHex(bytes)) == EncodeHex(bytes);
      assert ToHex(bytes)[2..] == EncodeHex(bytes);
    }
  }

  /** Reading and writing gives the same text exactly for the form in which bytes are written. */
  lemma HexIsWrittenBackIff(s: string)
    ensures ToHex(FromHex(s)) == s <==> IsHexText(s)
    ensures IsHexText(s) ==> |s| == 2 + 2 * |FromHex(s)| && FromHex(s) != []
  {
    if IsHexText(s) {
      assert WithoutPrefix(s) == s[2..];
      DecodedEncodes(s[2..]);
      EncodedDecodes(FromHex(s));
      assert s == "0x" + s[2..];
    }
    if ToHex(FromHex(s)) == s {
      HexParses(FromHex(s));
      assert FromHex(s) != [];
    }
  }

  lemma HexTextIsAddressIff(s: string)
    requires IsHexText(s)
    ensures IsHexAddress(s) <==> |s| == 42
  {
    assert WithoutPrefix(s) == s[2..];
    forall i | 0 <= i < |s| - 2 ensures HexValue(s[2..][i]).Some? {
      assert IsLowerHexDigit(s[2..][i]);
    }
  }

  lemma {:induction false} DecodedLength(s: string)
    requires |s| % 2 == 0 && forall i :: 0 <= i < |s| ==> HexValue(s[i]).Some?
    ensures |DecodeHex(s)| == |s| / 2
  {
    if s != "" {
      DecodedLength(s[2..]);
    }
  }

  lemma AddressHas20Bytes(s: string)
    requires IsHexAddress(s)
    ensures |FromHex(s)| == 20
  {
    DecodedLength(WithoutPrefix(s));
  }

  // ---------- Text in other forms ----------

  function LowerChar(c: char): char {
    if 'A' <= c <= 'Z' then c + 32 as char else c
  }

  /** The text in lower case, as far as it is ASCII. */
  function Lower(s: string): (r: string)
    ensures |r| == |s|
  {
    seq(|s|, i requires 0 <= i < |s| => LowerChar(s[i]))
  }

  lemma {:induction false} LeadingZeroHasNoValue(s: string)
    requires AllDigits(s)
    ensures AllDigits("0" + s) && Value("0" + s) == Value(s)
  {
    var t := "0" + s;
    if s == "" {
      assert t[..0] == "" && Value(t[..0]) == 0;
    } else {
      LeadingZeroHasNoValue(s[..|s|-1]);
      assert t[..|t|-1] == "0" + s[..|s|-1];
    }
  }

  /** A zero in front or a plus sign changes nothing, a minus sign negates. */
  lemma SignsAndZeros(s: string)
    ensures ParseUnsigned(s).Some? ==> ParseUnsigned("0" + s) == ParseUnsigned(s)
    ensures ParseSigned("+" + s) == ParseUnsigned(s)
    ensures ParseSigned("-" + s) == if ParseUnsigned(s).Some? then Some(-ParseUnsigned(s).value) else None
    ensures ParseUnsigned("+" + s) == None && ParseUnsigned("-" + s) == None
  {
    if AllDigits(s) {
      LeadingZeroHasNoValue(s);
    }
    assert ("+" + s)[1..] == s && ("-" + s)[1..] == s;
    assert !IsDigit(("+" + s)[0]) && !IsDigit(("-" + s)[0]);
  }

  predicate IsHexDigit(c: char) {
    '0' <= c <= '9' || 'a' <= c <= 'f' || 'A' <= c <= 'F'
  }

  /** A byte is what a pair of digits says, upper or lower case. */
  predicate IsPair(b: Byte, c: char, d: char) {
    IsHexDigit(c) && IsHexDigit(d) && HexDigit(b / 16) == LowerChar(c) && HexDigit(b % 16) == LowerChar(d)
  }

  lemma PairIsByte(c: char, d: char)
    requires IsHexDigit(c) && IsHexDigit(d)
    ensures HexValue(c).Some? && HexValue(d).Some?
    ensures var b := 16 * HexValue(c).value + HexValue(d).value;
            0 <= b < 256 && IsPair(b, c, d)
  {
    HexDigitOfValue(LowerChar(c), LowerChar(d));
    assert HexValue(LowerChar(c)) == HexValue(c) && HexValue(LowerChar(d)) == HexValue(d);
  }

  /** The decoded bytes are those of the longest front of hexadecimal pairs. */
  lemma {:induction false} DecodedIsLongestFront(s: string)
    ensures var r := DecodeHex(s);
            && 2 * |r| <= |s|
            && (forall k :: 0 <= k < |r| ==> IsPair(r[k], s[2 * k], s[2 * k + 1]))
            && (|s| >= 2 * |r| + 2 ==> !IsHexDigit(s[2 * |r|]) || !IsHexDigit(s[2 * |r| + 1]))
  {
    if |s| >= 2 && IsHexDigit(s[0]) && IsHexDigit(s[1]) {
      DecodedIsLongestFront(s[2..]);
      PairIsByte(s[0], s[1]);
      var r, rest := DecodeHex(s), DecodeHex(s[2..]);
      forall k | 0 <= k < |r| ensures IsPair(r[k], s[2 * k], s[2 * k + 1]) {
        if k > 0 {
          assert IsPair(rest[k - 1], s[2..][2 * (k - 1)], s[2..][2 * (k - 1) + 1]);
        }
      }
    }
  }

  /** A prefix is optional and may be in either case, and a digit is put in front of an odd number of them. */
  lemma PrefixAndPadding(s: string)
    requires !HasPrefix(s)
    ensures FromHex("0x" + s) == FromHex("0X" + s) == FromHex(s)
    ensures FromHex(s) == if |s| % 2 == 0 then DecodeHex(s) else DecodeHex("0" + s)
  {
    DropsPrefix("0x", s);
    DropsPrefix("0X", s);
    SameDigits("0x" + s, s);
    SameDigits("0X" + s, s);
  }

  lemma DropsPrefix(prefix: string, s: string)
    requires prefix == "0x" || prefix == "0X"
    ensures WithoutPrefix(prefix + s) == s
  {
  }

  lemma SameDigits(s: string, t: string)
    requires WithoutPrefix(s) == WithoutPrefix(t)
    ensures FromHex(s) == FromHex(t)
  {
  }

  lemma {:induction false} DecodeIgnoresCase(s: string)
    ensures DecodeHex(Lower(s)) == DecodeHex(s)
  {
    if |s| >= 2 {
      DecodeIgnoresCase(s[2..]);
      assert Lower(s)[2..] == Lower(s[2..]);
    }
  }

  /** The case of hexadecimal text does not matter. */
  lemma HexIgnoresCase(s: string)
    ensures FromHex(Lower(s)) == FromHex(s)
  {
    var digits := WithoutPrefix(s);
    assert WithoutPrefix(Lower(s)) == Lower(digits);
    assert Lower("0" + digits) == "0" + Lower(digits);
    DecodeIgnoresCase(digits);
    DecodeIgnoresCase("0" + digits);
  }

  lemma HexWithPrefix(bytes: seq<Byte>)
    ensures FromHex("0x" + EncodeHex(bytes)) == bytes
  {
    EncodedDecodes(bytes);
    assert ("0x" + EncodeHex(bytes))[2..] == EncodeHex(bytes);
  }
}
