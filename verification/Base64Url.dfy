/**
 * The base64url encoding of section 5 of RFC 4648, without padding: what Buffer writes under
 * the name 'base64url'. Reading accepts exactly what is written.
 */
module Base64Url {
  import opened Wrappers
  import opened Numerals

  type Byte = b: nat | b < 256

  type Sextet = d: nat | d < 64

  function Bytes(ds: seq<nat>): (bs: seq<Byte>)
    requires forall i | 0 <= i < |ds| :: ds[i] < 256
    ensures bs == ds
  {
    ds
  }

  function Sextets(ds: seq<nat>): (ss: seq<Sextet>)
    requires forall i | 0 <= i < |ds| :: ds[i] < 64
    ensures ss == ds
  {
    ds
  }

  // -------------------------------------------------------------- groups of three bytes

  /** Three bytes are four sextets; of two or one the last sextet is filled up with zero bits. */
  function Pack(bytes: seq<Byte>): (sextets: seq<Sextet>)
    decreases |bytes|
  {
    if |bytes| >= 3 then Sextets(Digits(Value(bytes[..3], 256), 64, 4)) + Pack(bytes[3..])
    else if |bytes| == 2 then Sextets(Digits(Value(bytes, 256) * 4, 64, 3))
    else if |bytes| == 1 then Sextets(Digits(Value(bytes, 256) * 16, 64, 2))
    else []
  }

  function Unpack(sextets: seq<Sextet>): (bytes: Option<seq<Byte>>)
    decreases |sextets|
  {
    if |sextets| >= 4 then Prepended(Bytes(Digits(Value(sextets[..4], 64), 256, 3)), Unpack(sextets[4..]))
    else if |sextets| == 3 then Filled(Value(sextets, 64), 4, 2)
    else if |sextets| == 2 then Filled(Value(sextets, 64), 16, 1)
    else if |sextets| == 1 then None
    else Some([])
  }

  function Prepended(first: seq<Byte>, rest: Option<seq<Byte>>): Option<seq<Byte>> {
    if rest.Some? then Some(first + rest.value) else None
  }

  /** The last bytes, unless the bits they were filled up with are not zero. */
  function Filled(v: nat, factor: nat, width: nat): Option<seq<Byte>>
    requires factor > 0
  {
    if v % factor == 0 then Some(Bytes(Digits(v / factor, 256, width))) else None
  }

  lemma Powers()
    ensures Power(256, 1) == 256 && Power(256, 2) == 65536 && Power(256, 3) == 16777216
    ensures Power(64, 2) == 4096 && Power(64, 3) == 262144 && Power(64, 4) == 16777216
  {
    PowersOf256();
    PowersOf64();
  }

  lemma PowersOf256()
    ensures Power(256, 1) == 256 && Power(256, 2) == 65536 && Power(256, 3) == 16777216
  {
    assert Power(256, 0) == 1;
    assert Power(256, 1) == Power(256, 0) * 256;
    assert Power(256, 2) == Power(256, 1) * 256;
  }

  lemma PowersOf64()
    ensures Power(64, 2) == 4096 && Power(64, 3) == 262144 && Power(64, 4) == 16777216
  {
    assert Power(64, 0) == 1;
    assert Power(64, 1) == Power(64, 0) * 64;
    assert Power(64, 2) == Power(64, 1) * 64;
    assert Power(64, 3) == Power(64, 2) * 64;
  }

  /** Regrouping digits from base a to base b and back, when nothing is lost. */
  lemma Regrouped(ds: seq<nat>, a: nat, b: nat, factor: nat, width: nat)
    requires 2 <= a && 2 <= b && factor > 0 && (forall i | 0 <= i < |ds| :: ds[i] < a)
    requires Power(a, |ds|) * factor == Power(b, width)
    ensures var es := Digits(Value(ds, a) * factor, b, width);
            Value(es, b) == Value(ds, a) * factor && Value(es, b) / factor == Value(ds, a) && Value(es, b) % factor == 0
            && Digits(Value(es, b) / factor, a, |ds|) == ds
  {
    DigitsOfValue(ds, a);
    AppendedBound(Value(ds, a), 0, factor, Power(a, |ds|));
    ValueOfDigits(Value(ds, a) * factor, b, width);
    QuotientAndRest(Value(ds, a), 0, factor);
  }

  lemma UnpackOfTwo(bytes: seq<Byte>)
    requires |bytes| == 2
    ensures Unpack(Pack(bytes)) == Some(bytes)
  {
    Powers();
    Regrouped(bytes, 256, 64, 4, 3);
  }

  lemma UnpackOfOne(bytes: seq<Byte>)
    requires |bytes| == 1
    ensures Unpack(Pack(bytes)) == Some(bytes)
  {
    Powers();
    Regrouped(bytes, 256, 64, 16, 2);
  }

  lemma UnpackBegins(first: seq<Sextet>, rest: seq<Sextet>)
    requires |first| == 4
    ensures Unpack(first + rest) == Prepended(Bytes(Digits(Value(first, 64), 256, 3)), Unpack(rest))
  {
    assert (first + rest)[..4] == first && (first + rest)[4..] == rest;
  }

  lemma PackBegins(bytes: seq<Byte>, first: seq<Sextet>)
    requires |bytes| >= 3 && first == Digits(Value(bytes[..3], 256), 64, 4)
    ensures Pack(bytes) == first + Pack(bytes[3..])
  {
  }

  /** Three bytes in front of others. */
  lemma UnpackOfThree(first: seq<Sextet>, rest: seq<Sextet>, three: seq<Byte>, others: seq<Byte>)
    requires |first| == 4 && Digits(Value(first, 64), 256, 3) == three && Unpack(rest) == Some(others)
    ensures Unpack(first + rest) == Some(three + others)
  {
    UnpackBegins(first, rest);
  }

  lemma FourSextets(bytes: seq<Byte>) returns (sextets: seq<Sextet>)
    requires |bytes| == 3
    ensures |sextets| == 4 && sextets == Digits(Value(bytes, 256), 64, 4)
    ensures Digits(Value(sextets, 64), 256, 3) == bytes
  {
    Powers();
    Regrouped(bytes, 256, 64, 1, 4);
    sextets := Sextets(Digits(Value(bytes, 256), 64, 4));
  }

  lemma {:induction false} UnpackOfPack(bytes: seq<Byte>)
    ensures Unpack(Pack(bytes)) == Some(bytes)
    decreases |bytes|
  {
    if |bytes| >= 3 {
      var first := FourSextets(bytes[..3]);
      PackBegins(bytes, first);
      UnpackOfPack(bytes[3..]);
      UnpackOfThree(first, Pack(bytes[3..]), bytes[..3], bytes[3..]);
      assert bytes[..3] + bytes[3..] == bytes;
    } else if |bytes| == 2 {
      UnpackOfTwo(bytes);
    } else if |bytes| == 1 {
      UnpackOfOne(bytes);
    }
  }

  lemma QuotientIsBelow(v: nat, factor: nat, bound: nat)
    requires factor > 0 && v % factor == 0 && v < bound * factor
    ensures v / factor < bound && v / factor * factor == v
  {
    if bound <= v / factor { Monotone(bound, v / factor, factor); }
  }

  /** The same way back. */
  lemma Reduced(ds: seq<nat>, a: nat, b: nat, factor: nat, width: nat)
    requires 2 <= a && 2 <= b && factor > 0 && (forall i | 0 <= i < |ds| :: ds[i] < a)
    requires Power(a, |ds|) == Power(b, width) * factor && Value(ds, a) % factor == 0
    ensures var es := Digits(Value(ds, a) / factor, b, width);
            Value(es, b) * factor == Value(ds, a) && Digits(Value(es, b) * factor, a, |ds|) == ds
  {
    DigitsOfValue(ds, a);
    var v := Value(ds, a);
    QuotientIsBelow(v, factor, Power(b, width));
    ValueOfDigits(v / factor, b, width);
  }

  lemma {:induction false} PackOfUnpack(sextets: seq<Sextet>)
    requires Unpack(sextets).Some?
    ensures Pack(Unpack(sextets).value) == sextets
    decreases |sextets|
  {
    Powers();
    if |sextets| >= 4 {
      var first := Bytes(Digits(Value(sextets[..4], 64), 256, 3));
      Reduced(sextets[..4], 64, 256, 1, 3);
      assert first == Digits(Value(sextets[..4], 64), 256, 3);
      PackOfUnpack(sextets[4..]);
      var bytes := Unpack(sextets).value;
      assert bytes[..3] == first && bytes[3..] == Unpack(sextets[4..]).value;
      assert sextets[..4] + sextets[4..] == sextets;
    } else if |sextets| == 3 {
      Reduced(sextets, 64, 256, 4, 2);
      assert Unpack(sextets).value == Digits(Value(sextets, 64) / 4, 256, 2);
    } else if |sextets| == 2 {
      Reduced(sextets, 64, 256, 16, 1);
      assert Unpack(sextets).value == Digits(Value(sextets, 64) / 16, 256, 1);
    }
  }

  // -------------------------------------------------------------- the bits

  lemma ValueOfOne(a: nat, base: nat)
    ensures Value([a], base) == a
  {
    assert [a][..0] == [];
  }

  lemma ValueOfTwo(a: nat, b: nat, base: nat)
    ensures Value([a, b], base) == a * base + b
  {
    ValueOfOne(a, base);
    assert [a, b][..1] == [a];
  }

  lemma ValueOfThree(a: nat, b: nat, c: nat, base: nat)
    ensures Value([a, b, c], base) == (a * base + b) * base + c
  {
    ValueOfTwo(a, b, base);
    assert [a, b, c][..2] == [a, b];
  }

  lemma ValueOfFour(a: nat, b: nat, c: nat, d: nat, base: nat)
    ensures Value([a, b, c, d], base) == ((a * base + b) * base + c) * base + d
  {
    ValueOfThree(a, b, c, base);
    assert [a, b, c, d][..3] == [a, b, c];
  }

  /** The first, second, third and fourth six bits of three bytes. */
  function SixBits(a: nat, b: nat, c: nat): (sextets: seq<nat>)
    requires a < 256 && b < 256 && c < 256
    ensures |sextets| == 4 && forall i | 0 <= i < 4 :: sextets[i] < 64
  {
    [a / 4, a % 4 * 16 + b / 16, b % 16 * 4 + c / 64, c % 64]
  }

  lemma SixBitsHaveTheValue(a: nat, b: nat, c: nat)
    requires a < 256 && b < 256 && c < 256
    ensures Value(SixBits(a, b, c), 64) == Value([a, b, c], 256)
    ensures Digits(Value([a, b, c], 256), 64, 4) == SixBits(a, b, c)
  {
    ValueOfThree(a, b, c, 256);
    ValueOfFour(a / 4, a % 4 * 16 + b / 16, b % 16 * 4 + c / 64, c % 64, 64);
    DigitsOfValue(SixBits(a, b, c), 64);
  }

  lemma DigitsAre(n: nat, sextets: seq<nat>, width: nat)
    requires |sextets| == width && n == Value(sextets, 64) && forall i | 0 <= i < width :: sextets[i] < 64
    ensures Digits(n, 64, width) == sextets
  {
    DigitsOfValue(sextets, 64);
  }

  lemma TwoBytesShifted(a: nat, b: nat)
    ensures (a * 256 + b) * 4 == (a / 4 * 64 + (a % 4 * 16 + b / 16)) * 64 + b % 16 * 4
  {
  }

  lemma OneByteShifted(a: nat)
    ensures a * 16 == a / 4 * 64 + a % 4 * 16
  {
  }

  lemma ThreeOfTwo(a: nat, b: nat)
    requires a < 256 && b < 256
    ensures Digits(Value([a, b], 256) * 4, 64, 3) == SixBits(a, b, 0)[..3]
  {
    var sextets := [a / 4, a % 4 * 16 + b / 16, b % 16 * 4];
    assert SixBits(a, b, 0)[..3] == sextets;
    ValueOfTwo(a, b, 256);
    ValueOfThree(a / 4, a % 4 * 16 + b / 16, b % 16 * 4, 64);
    TwoBytesShifted(a, b);
    DigitsAre(Value([a, b], 256) * 4, sextets, 3);
  }

  lemma TwoOfOne(a: nat)
    requires a < 256
    ensures Digits(Value([a], 256) * 16, 64, 2) == SixBits(a, 0, 0)[..2]
  {
    var sextets := [a / 4, a % 4 * 16];
    assert SixBits(a, 0, 0)[..2] == sextets;
    ValueOfOne(a, 256);
    ValueOfTwo(a / 4, a % 4 * 16, 64);
    OneByteShifted(a);
    DigitsAre(Value([a], 256) * 16, sextets, 2);
  }

  // Four times six bits, from the left, of every three bytes; two or three of them at the end.

  lemma OneIsPacked(a: Byte)
    ensures Pack([a]) == SixBits(a, 0, 0)[..2]
  {
    TwoOfOne(a);
  }

  lemma TwoArePacked(a: Byte, b: Byte)
    ensures Pack([a, b]) == SixBits(a, b, 0)[..3]
  {
    ThreeOfTwo(a, b);
  }

  lemma ThreeArePacked(a: Byte, b: Byte, c: Byte, rest: seq<Byte>)
    ensures Pack([a, b, c] + rest) == SixBits(a, b, c) + Pack(rest)
  {
    SixBitsHaveTheValue(a, b, c);
    assert ([a, b, c] + rest)[..3] == [a, b, c] && ([a, b, c] + rest)[3..] == rest;
  }

  // -------------------------------------------------------------- the alphabet

  function CharOf(d: Sextet): char {
    if d < 26 then 'A' + d as char
    else if d < 52 then 'a' + (d - 26) as char
    else if d < 62 then '0' + (d - 52) as char
    else if d == 62 then '-' else '_'
  }

  /** Table 2 of RFC 4648: A to Z, a to z, 0 to 9, minus and underline, each in the order of the characters. */
  lemma AlphabetExactly(d: Sextet)
    ensures d == 0 ==> CharOf(d) == 'A'
    ensures d == 26 ==> CharOf(d) == 'a'
    ensures d == 52 ==> CharOf(d) == '0'
    ensures d == 62 ==> CharOf(d) == '-'
    ensures d == 63 ==> CharOf(d) == '_'
    ensures d !in {0, 26, 52, 62, 63} ==> CharOf(d) as int == CharOf(d - 1) as int + 1
  {
  }

  function SextetOf(c: char): Option<Sextet> {
    if 'A' <= c <= 'Z' then Some((c - 'A') as nat)
    else if 'a' <= c <= 'z' then Some((c - 'a') as nat + 26)
    else if '0' <= c <= '9' then Some((c - '0') as nat + 52)
    else if c == '-' then Some(62)
    else if c == '_' then Some(63)
    else None
  }

  lemma SextetOfExactly(c: char, d: Sextet)
    ensures SextetOf(c) == Some(d) <==> c == CharOf(d)
  {
  }

  function Written(sextets: seq<Sextet>): (text: string)
    ensures |text| == |sextets| && forall i | 0 <= i < |text| :: text[i] == CharOf(sextets[i])
  {
    seq(|sextets|, i requires 0 <= i < |sextets| => CharOf(sextets[i]))
  }

  function Read(text: string): Option<seq<Sextet>> {
    if forall c | c in text :: SextetOf(c).Some?
    then Some(seq(|text|, i requires 0 <= i < |text| => SextetOf(text[i]).GetOr(0))) else None
  }

  lemma ReadExactly(text: string, sextets: seq<Sextet>)
    ensures Read(text) == Some(sextets) <==> text == Written(sextets)
  {
    if text == Written(sextets) {
      forall c | c in text ensures SextetOf(c).Some? {
        var i :| 0 <= i < |text| && text[i] == c;
        SextetOfExactly(c, sextets[i]);
      }
      forall i | 0 <= i < |text| ensures SextetOf(text[i]) == Some(sextets[i]) { SextetOfExactly(text[i], sextets[i]); }
      assert Read(text).value == sextets;
    } else if Read(text) == Some(sextets) {
      forall i | 0 <= i < |text| ensures text[i] == CharOf(sextets[i]) {
        assert text[i] in text;
        SextetOfExactly(text[i], sextets[i]);
      }
    }
  }

  // -------------------------------------------------------------- texts

  /** Every character is one byte. */
  predicate IsBytes(text: string) {
    forall c | c in text :: c as int < 256
  }

  function ByteOf(c: char): Byte {
    if c as int < 256 then c as int else 0
  }

  function CodesOf(text: string): (bytes: seq<Byte>)
    requires IsBytes(text)
    ensures |bytes| == |text| && forall i | 0 <= i < |text| :: bytes[i] == text[i] as int
  {
    assert forall i | 0 <= i < |text| :: text[i] in text;
    seq(|text|, i requires 0 <= i < |text| => ByteOf(text[i]))
  }

  function TextOf(bytes: seq<Byte>): (text: string)
    ensures |text| == |bytes| && IsBytes(text) && forall i | 0 <= i < |text| :: text[i] == bytes[i] as char
  {
    var text := seq(|bytes|, i requires 0 <= i < |bytes| => bytes[i] as char);
    assert forall c | c in text :: exists i :: 0 <= i < |bytes| && c == bytes[i] as char;
    text
  }

  function ToBase64Url(text: string): string
    requires IsBytes(text)
  {
    Written(Pack(CodesOf(text)))
  }

  function FromBase64Url(text: string): Option<string> {
    match Read(text)
    case None => None
    case Some(sextets) =>
      match Unpack(sextets)
      case None => None
      case Some(bytes) => Some(TextOf(bytes))
  }

  /** A text is read as `plain` exactly if it is what `plain` is written as. */
  lemma FromBase64UrlExactly(text: string, plain: string)
    ensures FromBase64Url(text) == Some(plain) <==> IsBytes(plain) && text == ToBase64Url(plain)
  {
    if IsBytes(plain) && text == ToBase64Url(plain) {
      var bytes := CodesOf(plain);
      ReadExactly(text, Pack(bytes));
      UnpackOfPack(bytes);
      assert TextOf(bytes) == plain;
    }
    if FromBase64Url(text) == Some(plain) {
      var sextets := Read(text).value;
      var bytes := Unpack(sextets).value;
      ReadExactly(text, sextets);
      PackOfUnpack(sextets);
      assert CodesOf(plain) == bytes;
    }
  }
}
