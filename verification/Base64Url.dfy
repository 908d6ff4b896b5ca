/** Base64url without padding (section 5 of RFC 4648), in the gateway's buffers and in the
    TypeScript helpers. */
module Base64Url {
  import opened Common

  type Byte = x: int | 0 <= x < 256 witness 0

  // ---------------------------------------------------------------- the alphabet

  function StdChar(k: nat): (c: char)
    requires k < 64
  {
    if k < 26 then 'A' + k as char
    else if k < 52 then 'a' + (k - 26) as char
    else if k < 62 then '0' + (k - 52) as char
    else if k == 62 then '+'
    else '/'
  }

  function ToUrl(c: char): char {
    if c == '+' then '-' else if c == '/' then '_' else c
  }

  function ToStd(c: char): char {
    if c == '-' then '+' else if c == '_' then '/' else c
  }

  /** The six bits of a character, the padding character counting as zero. */
  function Value(c: char): Option<nat> {
    if 'A' <= c <= 'Z' then Some((c - 'A') as nat)
    else if 'a' <= c <= 'z' then Some((c - 'a') as nat + 26)
    else if '0' <= c <= '9' then Some((c - '0') as nat + 52)
    else if c == '+' then Some(62)
    else if c == '/' then Some(63)
    else if c == '=' then Some(0)
    else None
  }

  predicate IsStd(c: char) { Value(c).Some? && c != '=' }

  lemma CharValue(k: nat)
    requires k < 64
    ensures Value(StdChar(k)) == Some(k) && IsStd(StdChar(k))
  {
  }

  lemma UrlOfStd(c: char)
    requires IsStd(c)
    ensures ToStd(ToUrl(c)) == c && ToUrl(c) !in {'=', '+', '/', '.', '\0'}
  {
  }

  // ---------------------------------------------------------------- six-bit groups

  function Word(a: Byte, b: Byte, c: Byte): nat { a * 0x1_0000 + b * 0x100 + c }

  /** The k-th group of six bits, most significant first. */
  function Six(v: nat, k: nat): (s: nat)
    requires k < 4
    ensures s < 64
  {
    if k == 0 then (v / 0x4_0000) % 64 else if k == 1 then (v / 0x1000) % 64 else if k == 2 then (v / 64) % 64 else v % 64
  }

  lemma FirstSix(a: Byte, b: Byte, c: Byte)
    ensures Six(Word(a, b, c), 0) == a / 4
    ensures Six(Word(a, b, c), 3) == c % 64
  {
    var a1, a0, c1, c0 := a / 4, a % 4, c / 64, c % 64;
    assert Word(a, b, c) == a1 * 0x4_0000 + (a0 * 0x1_0000 + b * 0x100 + c);
    assert Word(a, b, c) == (a * 0x400 + b * 4 + c1) * 64 + c0;
    Quotient262144(a1, a0 * 0x1_0000 + b * 0x100 + c);
    Quotient(a * 0x400 + b * 4 + c1, c0);
  }

  lemma SecondSix(a: Byte, b: Byte, c: Byte)
    ensures Six(Word(a, b, c), 1) == a % 4 * 16 + b / 16
  {
    var a1, a0, b1, b0 := a / 4, a % 4, b / 16, b % 16;
    var p, r := a1, a0 * 16 + b1;
    assert Word(a, b, c) == (p * 64 + r) * 0x1000 + (b0 * 0x100 + c);
    Quotient4096(p * 64 + r, b0 * 0x100 + c);
    Quotient(p, r);
  }

  lemma Quotient4096(q: nat, r: nat)
    requires r < 0x1000
    ensures (q * 0x1000 + r) / 0x1000 == q
  {
  }

  lemma Quotient262144(q: nat, r: nat)
    requires r < 0x4_0000
    ensures (q * 0x4_0000 + r) / 0x4_0000 == q
  {
  }

  lemma ThirdSix(a: Byte, b: Byte, c: Byte)
    ensures Six(Word(a, b, c), 2) == b % 16 * 4 + c / 64
  {
    var b1, b0, c1, c0 := b / 16, b % 16, c / 64, c % 64;
    var p, r := a * 16 + b1, b0 * 4 + c1;
    assert Word(a, b, c) == (p * 64 + r) * 64 + c0;
    Quotient(p * 64 + r, c0);
    Quotient(p, r);
  }

  lemma Quotient(q: nat, r: nat)
    requires r < 64
    ensures (q * 64 + r) / 64 == q && (q * 64 + r) % 64 == r
  {
  }

  /** Four groups of six bits put together, and the three bytes of a word. */
  function Combine(s0: nat, s1: nat, s2: nat, s3: nat): nat {
    s0 * 0x4_0000 + s1 * 0x1000 + s2 * 64 + s3
  }

  function BytesOf(v: nat): seq<Byte> {
    [v / 0x1_0000 % 256, v / 0x100 % 256, v % 256]
  }

  lemma Recombined(a: Byte, b: Byte, c: Byte)
    ensures
      var v := Word(a, b, c);
      BytesOf(Combine(Six(v, 0), Six(v, 1), Six(v, 2), Six(v, 3))) == [a, b, c]
  {
    FirstSix(a, b, c);
    SecondSix(a, b, c);
    ThirdSix(a, b, c);
    hide Six, BytesOf;
    var v := Word(a, b, c);
    var a1, a0, b1, b0, c1, c0 := a / 4, a % 4, b / 16, b % 16, c / 64, c % 64;
    assert a == a1 * 4 + a0 && b == b1 * 16 + b0 && c == c1 * 64 + c0;
    assert Combine(a1, a0 * 16 + b1, b0 * 4 + c1, c0) == v;
    WordBytes(a, b, c);
  }

  lemma WordBytes(a: Byte, b: Byte, c: Byte)
    ensures BytesOf(Word(a, b, c)) == [a, b, c]
  {
    Quotient256(a * 0x100 + b, c);
    Quotient256(a, b);
    Quotient65536(a, b * 0x100 + c);
  }

  lemma Quotient256(q: nat, r: nat)
    requires r < 256
    ensures (q * 256 + r) / 256 == q && (q * 256 + r) % 256 == r
  {
  }

  lemma Quotient65536(q: nat, r: nat)
    requires r < 0x1_0000
    ensures (q * 0x1_0000 + r) / 0x1_0000 == q
  {
  }

  // ---------------------------------------------------------------- texts

  function ByteAt(bytes: seq<Byte>, i: nat): Byte {
    if i < |bytes| then bytes[i] else 0
  }

  function Rest(bytes: seq<Byte>): seq<Byte> {
    if |bytes| >= 3 then bytes[3..] else []
  }

  /** Four characters for up to three bytes, padded. */
  function Block(bytes: seq<Byte>): (s: string)
    requires bytes != []
    ensures |s| == 4
  {
    var v := Word(bytes[0], ByteAt(bytes, 1), ByteAt(bytes, 2));
    [StdChar(Six(v, 0)), StdChar(Six(v, 1)),
     if |bytes| > 1 then StdChar(Six(v, 2)) else '=', if |bytes| > 2 then StdChar(Six(v, 3)) else '=']
  }

  /** Padded standard base64. */
  function Btoa(bytes: seq<Byte>): string
    decreases |bytes|
  {
    if bytes == [] then "" else Block(bytes) + Btoa(Rest(bytes))
  }

  lemma BtoaStep(bytes: seq<Byte>)
    requires bytes != []
    ensures Btoa(bytes) == Block(bytes) + Btoa(Rest(bytes))
  {
  }

  /** The first characters of a word, one for each six bits. */
  function Coded(v: nat, chars: nat): (s: string)
    requires chars <= 4
    ensures |s| == chars
  {
    seq(chars, i requires 0 <= i < chars => ToUrl(StdChar(Six(v, i))))
  }

  /** Unpadded base64url: one character for each six bits, the last ones filled with zeros. */
  function UrlText(bytes: seq<Byte>): string
    decreases |bytes|
  {
    if bytes == [] then ""
    else
      var v := Word(bytes[0], ByteAt(bytes, 1), ByteAt(bytes, 2));
      var chars := if |bytes| >= 3 then 4 else |bytes| + 1;
      Coded(v, chars) + UrlText(Rest(bytes))
  }

  lemma UrlTextStep(bytes: seq<Byte>)
    requires bytes != []
    ensures
      UrlText(bytes)
      == Coded(Word(bytes[0], ByteAt(bytes, 1), ByteAt(bytes, 2)), if |bytes| >= 3 then 4 else |bytes| + 1)
         + UrlText(Rest(bytes))
  {
  }

  function UrlLength(n: nat): nat { n / 3 * 4 + (if n % 3 == 0 then 0 else n % 3 + 1) }

  function Padded(n: nat): nat { (n + 2) / 3 * 4 }

  /** How the unpadded text sits in the padded one: the same characters, translated, up to the
      padding. */
  ghost predicate Unpads(u: string, s: string) {
    && |u| <= |s|
    && (forall k | 0 <= k < |u| :: IsStd(s[k]) && u[k] == ToUrl(s[k]))
    && (forall k | |u| <= k < |s| :: s[k] == '=')
  }

  lemma BlockUnpads(bytes: seq<Byte>)
    requires bytes != []
    ensures
      var v := Word(bytes[0], ByteAt(bytes, 1), ByteAt(bytes, 2));
      var chars := if |bytes| >= 3 then 4 else |bytes| + 1;
      Unpads(Coded(v, chars), Block(bytes))
  {
    hide Six, StdChar, IsStd;
    var v := Word(bytes[0], ByteAt(bytes, 1), ByteAt(bytes, 2));
    CharValue(Six(v, 0));
    CharValue(Six(v, 1));
    CharValue(Six(v, 2));
    CharValue(Six(v, 3));
  }

  lemma LengthsOfBlock(n: nat)
    ensures n == 0 ==> UrlLength(n) == 0 && Padded(n) == 0
    ensures 0 < n < 3 ==> UrlLength(n) == n + 1 && Padded(n) == 4 && UrlLength(0) == 0 && Padded(0) == 0
    ensures n >= 3 ==> UrlLength(n) == 4 + UrlLength(n - 3) && Padded(n) == 4 + Padded(n - 3)
  {
  }

  lemma {:induction false} TextLengths(bytes: seq<Byte>)
    ensures |UrlText(bytes)| == UrlLength(|bytes|) && |Btoa(bytes)| == Padded(|bytes|)
    decreases |bytes|
  {
    hide Coded, Block, Word;
    if bytes == [] {
      LengthsOfBlock(0);
    } else {
      LengthsOfBlock(|bytes|);
      hide UrlLength, Padded;
      TextLengths(Rest(bytes));
    }
  }

  lemma {:induction false} TextUnpads(bytes: seq<Byte>)
    ensures Unpads(UrlText(bytes), Btoa(bytes))
    ensures |UrlText(bytes)| == UrlLength(|bytes|) && |Btoa(bytes)| == Padded(|bytes|)
    decreases |bytes|
  {
    TextLengths(bytes);
    hide Coded, Block, IsStd, Word, ToUrl, UrlLength, Padded;
    if bytes != [] {
      BlockUnpads(bytes);
      TextUnpads(Rest(bytes));
      var v := Word(bytes[0], ByteAt(bytes, 1), ByteAt(bytes, 2));
      var chars := if |bytes| >= 3 then 4 else |bytes| + 1;
      UnpadsAppend(Coded(v, chars), Block(bytes),
                   UrlText(Rest(bytes)), Btoa(Rest(bytes)));
    }
  }

  lemma UnpadsAppend(u: string, s: string, u': string, s': string)
    requires Unpads(u, s) && Unpads(u', s') && (|u| == |s| || s' == "")
    ensures Unpads(u + u', s + s')
  {
    hide IsStd, ToUrl;
  }

  // ---------------------------------------------------------------- the helpers

  function Replaced(s: string, from: char, to: string): string {
    if s == "" then "" else (if s[0] == from then to else [s[0]]) + Replaced(s[1..], from, to)
  }

  /** The replacements of `base64Encode`. */
  function ReplacedAll(s: string): string {
    Replaced(Replaced(Replaced(s, '+', "-"), '/', "_"), '=', "")
  }

  /** `base64Encode`, on bytes. */
  function Base64Encode(bytes: seq<Byte>): string {
    ReplacedAll(Btoa(bytes))
  }

  lemma {:induction false} ReplacedAppend(a: string, b: string, from: char, to: string)
    ensures Replaced(a + b, from, to) == Replaced(a, from, to) + Replaced(b, from, to)
  {
    hide Replaced;
    if a == "" {
      assert a + b == b && "" + Replaced(b, from, to) == Replaced(b, from, to);
      ReplacedNothing(from, to);
    } else {
      ReplacedAppend(a[1..], b, from, to);
      assert (a + b)[1..] == a[1..] + b;
      ReplacedStep(a, from, to);
      ReplacedStep(a + b, from, to);
    }
  }

  lemma ReplacedNothing(from: char, to: string)
    ensures Replaced("", from, to) == ""
  {
  }

  lemma ReplacedStep(s: string, from: char, to: string)
    requires s != ""
    ensures Replaced(s, from, to) == (if s[0] == from then to else [s[0]]) + Replaced(s[1..], from, to)
  {
  }

  lemma ReplaceChar(c: char, from: char, to: string)
    ensures Replaced([c], from, to) == if c == from then to else [c]
  {
    assert [c][1..] == "";
  }

  lemma ReplacedCons(c: char, s: string)
    ensures ReplacedAll([c] + s) == (if c == '=' then "" else [ToUrl(c)]) + ReplacedAll(s)
  {
    hide Replaced;
    var c1 := if c == '+' then '-' else c;
    ReplacedAppend([c], s, '+', "-");
    ReplaceChar(c, '+', "-");
    var s1 := Replaced(s, '+', "-");
    ReplacedAppend([c1], s1, '/', "_");
    ReplaceChar(c1, '/', "_");
    ReplacedAppend([ToUrl(c)], Replaced(s1, '/', "_"), '=', "");
    ReplaceChar(ToUrl(c), '=', "");
  }

  lemma {:induction false} ReplacedUnpads(u: string, s: string)
    requires Unpads(u, s)
    ensures ReplacedAll(s) == u
    decreases |s|
  {
    if s != "" {
      assert s == [s[0]] + s[1..];
      ReplacedCons(s[0], s[1..]);
      ReplacedUnpads(if u == "" then "" else u[1..], s[1..]);
      if u != "" {
        assert u == [u[0]] + u[1..];
      }
    }
  }

  /** The helper writes the same text as the gateway. */
  lemma HelperAgrees(bytes: seq<Byte>)
    ensures Base64Encode(bytes) == UrlText(bytes)
  {
    TextUnpads(bytes);
    ReplacedUnpads(UrlText(bytes), Btoa(bytes));
  }

  // ---------------------------------------------------------------- decoding

  /** `EVP_DecodeBlock` on text without white space: four characters to three bytes. */
  function DecodeBlock(s: string): Option<seq<Byte>>
    requires |s| % 4 == 0
  {
    if s == "" then Some([])
    else if Value(s[0]).None? || Value(s[1]).None? || Value(s[2]).None? || Value(s[3]).None? then None
    else
      var rest := DecodeBlock(s[4..]);
      if rest.None? then None
      else
        Some(BytesOf(Combine(Value(s[0]).value, Value(s[1]).value, Value(s[2]).value, Value(s[3]).value)) + rest.value)
  }

  function Translated(s: string): string {
    seq(|s|, i requires 0 <= i < |s| => ToStd(s[i]))
  }

  function Padding(len: nat): nat { (4 - len % 4) % 4 }

  function Equals(n: nat): string { seq(n, _ => '=') }

  /** The text that the block decoder gets: translated, and padded to a multiple of four. */
  function PaddedText(s: string): (t: string)
    ensures |t| == |s| + Padding(|s|) && |t| % 4 == 0
  {
    Translated(s) + Equals(Padding(|s|))
  }

  /** `b64url_decode` with its two limits. */
  function Decode(s: string, outcap: nat): Option<seq<Byte>> {
    if |s| >= 1020 then None
    else
      var pad := Padding(|s|);
      var decoded := DecodeBlock(PaddedText(s));
      if decoded.None? then None
      else
        var actual := if |decoded.value| < pad then 0 else |decoded.value| - pad;
        if actual >= outcap then None else Some(decoded.value[..actual])
  }

  lemma TranslatedIsPadded(u: string, s: string)
    requires Unpads(u, s) && |s| == |u| + Padding(|u|)
    ensures Translated(u) + Equals(Padding(|u|)) == s
  {
    hide IsStd, ToUrl, ToStd;
    var t := Translated(u) + Equals(Padding(|u|));
    forall k | 0 <= k < |s| ensures t[k] == s[k] {
      if k < |u| {
        UrlOfStd(s[k]);
      }
    }
  }

  /** The characters of a block carry its word's groups of six bits. */
  lemma BlockValues(bytes: seq<Byte>, i: nat)
    requires bytes != [] && i < 4
    ensures Value(Block(bytes)[i]) == Some(Six(Word(bytes[0], ByteAt(bytes, 1), ByteAt(bytes, 2)), i))
  {
    hide Six, StdChar, Word, Value;
    CharValue(Six(Word(bytes[0], ByteAt(bytes, 1), ByteAt(bytes, 2)), i));
    PaddingIsZero(bytes);
  }

  /** One round of the decoder. */
  lemma DecodeStep(s: string)
    requires |s| >= 4 && |s| % 4 == 0 && DecodeBlock(s[4..]).Some?
    requires Value(s[0]).Some? && Value(s[1]).Some? && Value(s[2]).Some? && Value(s[3]).Some?
    ensures
      var v := Combine(Value(s[0]).value, Value(s[1]).value, Value(s[2]).value, Value(s[3]).value);
      DecodeBlock(s) == Some(BytesOf(v) + DecodeBlock(s[4..]).value)
  {
    hide Value, Combine, BytesOf;
  }

  lemma DecodeFour(s: string, rest: string)
    requires |s| == 4 && |rest| % 4 == 0 && DecodeBlock(rest).Some?
    requires Value(s[0]).Some? && Value(s[1]).Some? && Value(s[2]).Some? && Value(s[3]).Some?
    ensures |s + rest| % 4 == 0
    ensures
      var v := Combine(Value(s[0]).value, Value(s[1]).value, Value(s[2]).value, Value(s[3]).value);
      DecodeBlock(s + rest) == Some(BytesOf(v) + DecodeBlock(rest).value)
  {
    hide Value, Combine, BytesOf, DecodeBlock;
    var all := s + rest;
    assert |all| % 4 == 0 by { FourMore(|rest|); }
    assert all[4..] == rest;
    assert all[0] == s[0] && all[1] == s[1] && all[2] == s[2] && all[3] == s[3];
    DecodeStep(all);
  }

  lemma FourMore(n: nat)
    requires n % 4 == 0
    ensures (4 + n) % 4 == 0
  {
  }

  lemma BlockBytes(bytes: seq<Byte>)
    requires bytes != []
    ensures
      var s := Block(bytes);
      && (forall i | 0 <= i < 4 :: Value(s[i]).Some?)
      && BytesOf(Combine(Value(s[0]).value, Value(s[1]).value, Value(s[2]).value, Value(s[3]).value))
         == [bytes[0], ByteAt(bytes, 1), ByteAt(bytes, 2)]
  {
    hide Six, Word, Value, Block, Combine, BytesOf;
    BlockValues(bytes, 0);
    BlockValues(bytes, 1);
    BlockValues(bytes, 2);
    BlockValues(bytes, 3);
    Recombined(bytes[0], ByteAt(bytes, 1), ByteAt(bytes, 2));
  }

  lemma PaddingIsZero(bytes: seq<Byte>)
    requires bytes != []
    ensures Value('=') == Some(0)
    ensures |bytes| <= 1 ==> Six(Word(bytes[0], ByteAt(bytes, 1), ByteAt(bytes, 2)), 2) == 0
    ensures |bytes| <= 2 ==> Six(Word(bytes[0], ByteAt(bytes, 1), ByteAt(bytes, 2)), 3) == 0
  {
    ThirdSix(bytes[0], ByteAt(bytes, 1), ByteAt(bytes, 2));
    FirstSix(bytes[0], ByteAt(bytes, 1), ByteAt(bytes, 2));
  }

  function Zeros(n: nat): seq<Byte> { seq(n, _ => 0) }

  /** Decoding the padded text gives the bytes, followed by one zero for each padding sign. */
  lemma {:induction false} DecodeBtoa(bytes: seq<Byte>)
    ensures
      |Btoa(bytes)| % 4 == 0
      && DecodeBlock(Btoa(bytes)) == Some(bytes + Zeros(Padding(UrlLength(|bytes|))))
    decreases |bytes|
  {
    hide Block, DecodeBlock, Btoa, Padding, UrlLength, Value, Combine, BytesOf;
    if bytes == [] {
      DecodeNothing();
      assert bytes + Zeros(0) == [];
    } else {
      DecodeBtoa(Rest(bytes));
      BtoaStep(bytes);
      BlockBytes(bytes);
      DecodeFour(Block(bytes), Btoa(Rest(bytes)));
      ZerosOfRest(bytes);
    }
  }

  lemma PaddingOf(n: nat)
    ensures Padding(UrlLength(n)) == (3 - n % 3) % 3
  {
  }

  lemma ZerosOfRest(bytes: seq<Byte>)
    requires bytes != []
    ensures [bytes[0], ByteAt(bytes, 1), ByteAt(bytes, 2)] + (Rest(bytes) + Zeros(Padding(UrlLength(|Rest(bytes)|))))
         == bytes + Zeros(Padding(UrlLength(|bytes|)))
  {
    PaddingOf(|bytes|);
    PaddingOf(|Rest(bytes)|);
    hide Padding, UrlLength;
    var zeros := Zeros(Padding(UrlLength(|bytes|)));
    if |bytes| >= 3 {
      assert |zeros| == Padding(UrlLength(|Rest(bytes)|));
      assert bytes == [bytes[0], bytes[1], bytes[2]] + Rest(bytes);
    } else if |bytes| == 2 {
      assert zeros == [0];
    } else {
      assert zeros == [0, 0];
    }
  }

  lemma DecodeNothing()
    ensures Btoa([]) == "" && DecodeBlock("") == Some([]) && Padding(UrlLength(0)) == 0
  {
  }

  lemma Lengths(n: nat)
    ensures Padded(n) == UrlLength(n) + Padding(UrlLength(n))
  {
    PaddingOf(n);
    Thirds(n);
    hide Padding;
  }

  lemma Thirds(n: nat)
    ensures (n + 2) / 3 == n / 3 + (if n % 3 == 0 then 0 else 1)
  {
  }

  /** The round trip holds exactly within the two limits of the decoder. */
  lemma RoundTrip(bytes: seq<Byte>, outcap: nat)
    ensures Decode(UrlText(bytes), outcap) == Some(bytes) <==> UrlLength(|bytes|) < 1020 && |bytes| < outcap
  {
    hide DecodeBlock, Btoa, UrlText, Unpads, Padding, UrlLength;
    TextUnpads(bytes);
    Lengths(|bytes|);
    TranslatedIsPadded(UrlText(bytes), Btoa(bytes));
    DecodeBtoa(bytes);
    var pad := Padding(UrlLength(|bytes|));
    assert (bytes + Zeros(pad))[..|bytes|] == bytes;
  }

  // ---------------------------------------------------------------- the published alphabet

  const UPPER := "ABCDEFGHIJKLMNOPQRSTUVWXYZ"
  const LOWER := "abcdefghijklmnopqrstuvwxyz"
  const DIGITS := "0123456789"

  /** The alphabet of section 5 of RFC 4648. */
  const ALPHABET := UPPER + LOWER + DIGITS + "-_"

  lemma UpperIs(k: nat)
    requires k < 26
    ensures UPPER[k] == 'A' + k as char
  {
  }

  lemma LowerIs(k: nat)
    requires k < 26
    ensures LOWER[k] == 'a' + k as char
  {
  }

  lemma DigitIs(k: nat)
    requires k < 10
    ensures DIGITS[k] == '0' + k as char
  {
  }

  lemma AlphabetIs(k: nat)
    requires k < 64
    ensures |ALPHABET| == 64 && ToUrl(StdChar(k)) == ALPHABET[k]
  {
    if k < 26 {
      UpperIs(k);
    } else if k < 52 {
      LowerIs(k - 26);
    } else if k < 62 {
      DigitIs(k - 52);
    }
  }

  function Chars(a: Byte, b: Byte, c: Byte): (s: string)
    ensures |s| == 4
  {
    [ALPHABET[a / 4], ALPHABET[a % 4 * 16 + b / 16], ALPHABET[b % 16 * 4 + c / 64], ALPHABET[c % 64]]
  }

  lemma WordChars(a: Byte, b: Byte, c: Byte)
    ensures
      var v := Word(a, b, c);
      Chars(a, b, c) == [ToUrl(StdChar(Six(v, 0))), ToUrl(StdChar(Six(v, 1))), ToUrl(StdChar(Six(v, 2))), ToUrl(StdChar(Six(v, 3)))]
  {
    FirstSix(a, b, c);
    SecondSix(a, b, c);
    ThirdSix(a, b, c);
    hide Six, Word, StdChar, ToUrl;
    AlphabetIs(a / 4);
    AlphabetIs(a % 4 * 16 + b / 16);
    AlphabetIs(b % 16 * 4 + c / 64);
    AlphabetIs(c % 64);
  }

  lemma CodedChars(a: Byte, b: Byte, c: Byte, chars: nat)
    requires chars <= 4
    ensures Coded(Word(a, b, c), chars) == Chars(a, b, c)[..chars]
  {
    WordChars(a, b, c);
    hide Six, StdChar, ToUrl, Word, Chars;
  }

  /** Three bytes are four characters, each the alphabet's entry for six of their bits. */
  lemma ThreeBytesText(a: Byte, b: Byte, c: Byte, rest: seq<Byte>)
    ensures UrlText([a, b, c] + rest) == Chars(a, b, c) + UrlText(rest)
  {
    hide UrlText, Coded, Word, Chars;
    var bytes := [a, b, c] + rest;
    assert bytes[0] == a && ByteAt(bytes, 1) == b && ByteAt(bytes, 2) == c && Rest(bytes) == rest;
    UrlTextStep(bytes);
    CodedChars(a, b, c, 4);
    assert Chars(a, b, c)[..4] == Chars(a, b, c);
  }

  /** One byte is two characters, and two bytes are three, filled up with zeros. */
  lemma LastBytesText(a: Byte, b: Byte)
    ensures UrlText([a]) == Chars(a, 0, 0)[..2] && UrlText([a, b]) == Chars(a, b, 0)[..3]
  {
    assert UrlText([]) == "";
    hide UrlText, Coded, Word, Chars;
    assert ByteAt([a], 1) == 0 && ByteAt([a], 2) == 0 && Rest([a]) == [];
    assert ByteAt([a, b], 1) == b && ByteAt([a, b], 2) == 0 && Rest([a, b]) == [];
    UrlTextStep([a]);
    UrlTextStep([a, b]);
    CodedChars(a, 0, 0, 2);
    CodedChars(a, b, 0, 3);
  }

  // ---------------------------------------------------------------- the decoder's writes

  lemma FourLess(n: nat)
    requires n >= 4 && n % 4 == 0
    ensures (n - 4) % 4 == 0 && n / 4 * 3 == (n - 4) / 4 * 3 + 3
  {
  }

  lemma ThreeBytes(s: string)
    requires |s| % 4 == 0 && |s| >= 4 && |s[4..]| % 4 == 0 && DecodeBlock(s).Some?
    ensures DecodeBlock(s[4..]).Some? && |DecodeBlock(s).value| == |DecodeBlock(s[4..]).value| + 3
  {
    hide Value, Combine;
  }

  lemma PaddedBlocks(n: nat, outcap: nat)
    ensures (n + Padding(n)) % 4 == 0
    ensures (n + Padding(n)) / 4 * 3 <= outcap <==> n <= outcap / 3 * 4
  {
    var q, r := n / 4, n % 4;
    assert n == q * 4 + r;
    var c, d := outcap / 3, outcap % 3;
    assert outcap == c * 3 + d;
    BlocksOf(q, r);
  }

  lemma BlocksOf(q: nat, r: nat)
    requires r < 4
    ensures (q * 4 + r + Padding(q * 4 + r)) / 4 == if r == 0 then q else q + 1
    ensures (q * 4 + r + Padding(q * 4 + r)) % 4 == 0
  {
    assert (q * 4 + r) % 4 == r;
  }

  /** The groups of four that the block decoder turns into bytes before it comes to a bad character
      or to the end. */
  function GoodGroups(t: string): nat {
    if |t| < 4 || Value(t[0]).None? || Value(t[1]).None? || Value(t[2]).None? || Value(t[3]).None? then 0
    else 1 + GoodGroups(t[4..])
  }

  /** The bytes that decoding writes into its buffer, whatever it then answers. */
  function WrittenBytes(s: string): nat {
    if |s| >= 1020 then 0 else 3 * GoodGroups(PaddedText(s))
  }

  /** Each of the first `g` groups is whole and has no bad character. */
  ghost predicate GoodUpTo(t: string, g: nat) {
    4 * g <= |t| && forall i | 0 <= i < 4 * g :: Value(t[i]).Some?
  }

  lemma {:induction false} GroupsExact(t: string, g: nat)
    ensures g <= GoodGroups(t) <==> GoodUpTo(t, g)
    decreases |t|
  {
    hide Value;
    if g > 0 {
      if |t| >= 4 && Value(t[0]).Some? && Value(t[1]).Some? && Value(t[2]).Some? && Value(t[3]).Some? {
        GroupsExact(t[4..], g - 1);
        assert GoodUpTo(t, g) ==> GoodUpTo(t[4..], g - 1);
        if GoodUpTo(t[4..], g - 1) {
          forall i | 0 <= i < 4 * g ensures Value(t[i]).Some? {
            if i >= 4 {
              assert t[i] == t[4..][i - 4];
            }
          }
        }
      }
    }
  }

  /** A bad character, before the translation. */
  predicate IsBad(c: char) { Value(ToStd(c)).None? }

  /** Good are the characters of the alphabet and of the standard one, and the padding sign. */
  lemma GoodCharacters(c: char)
    ensures !IsBad(c) <==> c in ALPHABET || c in "+/="
  {
    if c in ALPHABET {
      var k :| 0 <= k < |ALPHABET| && ALPHABET[k] == c;
      AlphabetIs(k);
      CharValue(k);
      UrlOfStd(StdChar(k));
    }
    if !IsBad(c) && c !in "+/=" {
      var k := Value(ToStd(c)).value;
      AlphabetIs(k);
      assert ALPHABET[k] == c;
    }
  }

  lemma PaddedGood(s: string, g: nat)
    ensures GoodUpTo(PaddedText(s), g)
      <==> 4 * g <= |s| + Padding(|s|) && forall i | 0 <= i < 4 * g && i < |s| :: !IsBad(s[i])
  {
    hide Value, Padding;
    var t := PaddedText(s);
    forall i | 0 <= i < |t| ensures Value(t[i]).Some? <==> (i < |s| ==> !IsBad(s[i])) {
      if i < |s| {
        assert t[i] == ToStd(s[i]);
      } else {
        assert t[i] == '=';
        PadHasValue();
      }
    }
  }

  lemma PadHasValue()
    ensures Value('=').Some?
  {
  }

  /** Decoding writes group by group before the capacity is looked at. All writes land inside the
      buffer exactly when the text is too long to be decoded at all, is no longer than the whole
      groups in the buffer stand for, or has a bad character before the first group too many is
      complete. */
  lemma DecoderWritesFit(s: string, outcap: nat)
    ensures WrittenBytes(s) <= outcap
      <==> || |s| >= 1020 || |s| <= outcap / 3 * 4
           || exists i :: 0 <= i < outcap / 3 * 4 + 4 && i < |s| && IsBad(s[i])
  {
    hide GoodGroups, PaddedText, IsBad, GoodUpTo;
    var g := outcap / 3 + 1;
    GroupsExact(PaddedText(s), g);
    PaddedGood(s, g);
    PaddedBlocks(|s|, outcap);
    TooMany(|s|, outcap);
    hide Padding;
    assert WrittenBytes(s) <= outcap <==> |s| >= 1020 || GoodGroups(PaddedText(s)) < g;
  }

  lemma TooMany(n: nat, outcap: nat)
    ensures 4 * (outcap / 3 + 1) <= n + Padding(n) <==> n > outcap / 3 * 4
  {
    var q, r := n / 4, n % 4;
    assert n == q * 4 + r;
    BlocksOf(q, r);
  }

  /** A text that decodes is written out whole. */
  lemma {:induction false} DecodedIsWritten(t: string)
    requires |t| % 4 == 0 && DecodeBlock(t).Some?
    ensures |DecodeBlock(t).value| == 3 * GoodGroups(t)
    decreases |t|
  {
    hide Value, Combine, BytesOf;
    if t != "" {
      FourLess(|t|);
      ThreeBytes(t);
      DecodedIsWritten(t[4..]);
    }
  }

  /** 684 good characters are one group too many for 512 bytes. */
  lemma LongTextOverruns(s: string)
    requires |s| == 684 && forall i | 0 <= i < |s| :: s[i] == 'A'
    ensures WrittenBytes(s) > 512
  {
    forall i | 0 <= i < |s| ensures !IsBad(s[i]) {
    }
    hide IsBad, WrittenBytes;
    DecoderWritesFit(s, 512);
  }

  // ---------------------------------------------------------------- the gateway's buffers

  method PutBlock(out: array<char>, o: nat, bytes: seq<Byte>)
    requires o + 4 <= out.Length && bytes != []
    modifies out
    ensures out[..o + 4] == old(out[..o]) + Block(bytes)
  {
    hide Six, StdChar, Word;
    var v := Word(bytes[0], ByteAt(bytes, 1), ByteAt(bytes, 2));
    out[o] := StdChar(Six(v, 0));
    out[o + 1] := StdChar(Six(v, 1));
    out[o + 2] := if |bytes| > 1 then StdChar(Six(v, 2)) else '=';
    out[o + 3] := if |bytes| > 2 then StdChar(Six(v, 3)) else '=';
  }

  function Drop(bytes: seq<Byte>, i: nat): seq<Byte> {
    if i < |bytes| then bytes[i..] else []
  }

  lemma DropRest(bytes: seq<Byte>, i: nat)
    requires i < |bytes|
    ensures Rest(Drop(bytes, i)) == Drop(bytes, i + 3) && Drop(bytes, i) == bytes[i..]
  {
  }

  /** The first loop of `b64url_encode`: padded base64 into the buffer. */
  method EncodePadded(input: seq<Byte>, out: array<char>) returns (o: nat)
    requires Padded(|input|) < out.Length
    modifies out
    ensures o == Padded(|input|) && out[..o] == Btoa(input)
  {
    hide Block, Btoa, Unpads, Rest, UrlText;
    DecodeNothing();
    TextUnpads(input);
    o := 0;
    var i := 0;
    while i < |input|
      invariant o <= |Btoa(input)| && out[..o] + Btoa(Drop(input, i)) == Btoa(input)
    {
      ghost var done := out[..o];
      DropRest(input, i);
      BtoaStep(input[i..]);
      assert |done + Btoa(Drop(input, i))| == o + |Btoa(Drop(input, i))|;
      PutBlock(out, o, input[i..]);
      assert (done + Block(input[i..])) + Btoa(Drop(input, i + 3)) == done + (Block(input[i..]) + Btoa(Drop(input, i + 3)));
      o := o + 4;
      i := i + 3;
    }
    assert out[..o] + "" == out[..o];
  }

  /** The second loop: translation in place, cut at the first padding sign. */
  method TranslateInPlace(out: array<char>, o: nat, ghost u: string) returns (outlen: nat)
    requires o < out.Length && out[o] == '\0' && Unpads(u, out[..o])
    modifies out
    ensures outlen == |u| < out.Length && out[..outlen] == u && out[outlen] == '\0'
  {
    hide ToUrl;
    ghost var text := out[..o];
    outlen := 0;
    while outlen < o
      invariant outlen <= o && outlen <= |u| && out[o] == '\0'
      invariant out[..outlen] == u[..outlen] && out[outlen..o] == text[outlen..]
    {
      assert out[outlen] == text[outlen];
      if out[outlen] == '=' {
        out[outlen] := '\0';
        return;
      }
      out[outlen] := ToUrl(out[outlen]);
      outlen := outlen + 1;
    }
  }

  /** `b64url_encode`. */
  method B64UrlEncode(input: seq<Byte>, out: array<char>) returns (outlen: nat)
    requires Padded(|input|) < out.Length
    modifies out
    ensures outlen < out.Length && out[..outlen] == UrlText(input) && out[outlen] == '\0'
  {
    hide Unpads;
    var o := EncodePadded(input, out);
    out[o] := '\0';
    assert out[..o] == Btoa(input);
    TextUnpads(input);
    outlen := TranslateInPlace(out, o, UrlText(input));
  }
}
