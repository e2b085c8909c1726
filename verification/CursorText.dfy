/**
 * The text of a cursor, spelled out: the JSON object with its two keys, the time as
 * YYYY-MM-DDTHH:mm:ss.sssZ, the UUID in its five groups, and the alphabet and bit groups of
 * base64url. CursorCodec reads back what it writes; this is what it writes.
 */
module CursorText {
  import opened Wrappers
  import opened Numerals
  import opened Templates
  import opened Base64Url
  import opened IsoDate
  import opened CursorCodec

  const HEX: string := "0123456789abcdef"

  // -------------------------------------------------------------- digits

  /** n with so many decimal digits. */
  function Decimal(n: nat, width: nat): string {
    if width == 0 then "" else Decimal(n / 10, width - 1) + ['0' + (n % 10) as char]
  }

  lemma DigitCharIsHex(d: nat)
    requires d < 16
    ensures DigitChar(d) == HEX[d]
  {
  }

  lemma {:induction false} NumeralIsDecimal(n: nat, width: nat)
    ensures Numeral(n, 10, width) == Decimal(n, width)
    decreases width
  {
    if width > 0 {
      NumeralIsDecimal(n / 10, width - 1);
      assert Numeral(n, 10, width) == Numeral(n / 10, 10, width - 1) + [DigitChar(n % 10)];
    }
  }

  // -------------------------------------------------------------- the texts

  function YearText(year: int): string {
    if 0 <= year <= 9999 then Decimal(year, 4)
    else if year < 0 then "-" + Decimal(-year, 6)
    else "+" + Decimal(year, 6)
  }

  /** toISOString: YYYY-MM-DDTHH:mm:ss.sssZ. */
  function IsoText(c: CivilTime): string {
    YearText(c.date.year) + ("-" + Decimal(c.date.month, 2) + ("-" + Decimal(c.date.day, 2) + TimeText(c)))
  }

  function HexText(ds: seq<nat>): (text: string)
    requires forall i | 0 <= i < |ds| :: ds[i] < 16
  {
    seq(|ds|, i requires 0 <= i < |ds| => HEX[ds[i]])
  }

  function UuidText(ds: seq<nat>): string
    requires |ds| == 32 && forall i | 0 <= i < |ds| :: ds[i] < 16
  {
    HexText(ds[..8]) + "-" + HexText(ds[8..12]) + "-" + HexText(ds[12..16]) + "-" + HexText(ds[16..20]) + "-"
      + HexText(ds[20..])
  }

  // -------------------------------------------------------------- what a template writes

  ghost predicate Writes(p: Template, vs: seq<nat>, text: string) {
    IsTemplate(p) && Fits(p, vs) && Format(p, vs) == text
  }

  lemma {:induction false} WritesTogether(p: Template, vs: seq<nat>, text: string, q: Template, us: seq<nat>,
      more: string)
    requires Writes(p, vs, text) && Writes(q, us, more)
    ensures Writes(p + q, vs + us, text + more)
    decreases |p|
  {
    if p == [] {
      assert p + q == q && vs + us == us && text + more == more;
    } else {
      PieceWrites(p, vs, text);
      var n := if p[0].Literal? then 0 else 1;
      var first := if p[0].Literal? then [p[0].c] else Numeral(vs[0], p[0].base, p[0].width);
      WritesTogether(p[1..], vs[n..], Format(p[1..], vs[n..]), q, us, more);
      assert (p + q)[0] == p[0] && (p + q)[1..] == p[1..] + q && (vs + us)[n..] == vs[n..] + us;
      PieceThenRest(p + q, vs + us, first, Format(p[1..], vs[n..]) + more);
      assert first + (Format(p[1..], vs[n..]) + more) == text + more;
    }
  }

  lemma PieceWrites(p: Template, vs: seq<nat>, text: string)
    requires Writes(p, vs, text) && p != []
    ensures IsPiece(p[0]) && IsTemplate(p[1..])
    ensures if p[0].Literal? then Fits(p[1..], vs) && text == [p[0].c] + Format(p[1..], vs)
            else vs != [] && vs[0] < Power(p[0].base, p[0].width) && Fits(p[1..], vs[1..])
                 && text == Numeral(vs[0], p[0].base, p[0].width) + Format(p[1..], vs[1..])
  {
  }

  lemma PieceThenRest(p: Template, vs: seq<nat>, first: string, rest: string)
    requires p != [] && IsPiece(p[0])
    requires if p[0].Literal? then first == [p[0].c] && Writes(p[1..], vs, rest)
             else vs != [] && vs[0] < Power(p[0].base, p[0].width)
                  && first == Numeral(vs[0], p[0].base, p[0].width) && Writes(p[1..], vs[1..], rest)
    ensures Writes(p, vs, first + rest)
  {
    assert p == [p[0]] + p[1..];
  }

  lemma LiteralWrites(c: char)
    ensures Writes([Literal(c)], [], [c])
  {
    assert Writes([], [], []);
    PieceThenRest([Literal(c)], [], [c], []);
  }

  lemma {:induction false} TextWrites(text: string)
    ensures Writes(Literals(text), [], text)
    decreases |text|
  {
    if text != [] {
      TextWrites(text[1..]);
      assert Literals(text)[1..] == Literals(text[1..]);
      PieceThenRest(Literals(text), [], [text[0]], text[1..]);
    }
  }

  lemma NumberWrites(n: nat, base: nat, width: nat)
    requires 2 <= base <= 16 && n < Power(base, width)
    ensures Writes([Number(base, width)], [n], Numeral(n, base, width))
  {
    assert Writes([], [], []);
    assert [n][1..] == [] && [Number(base, width)][1..] == [];
    PieceThenRest([Number(base, width)], [n], Numeral(n, base, width), []);
    assert Numeral(n, base, width) + [] == Numeral(n, base, width);
  }

  // -------------------------------------------------------------- the date

  lemma DecimalWrites(n: nat, width: nat)
    requires n < Power(10, width)
    ensures Writes([Number(10, width)], [n], Decimal(n, width))
  {
    NumberWrites(n, 10, width);
    NumeralIsDecimal(n, width);
  }

  lemma FieldWrites(c: char, n: nat, width: nat, q: Template, us: seq<nat>, more: string)
    requires n < Power(10, width) && Writes(q, us, more)
    ensures Writes(Field(c, width) + q, [n] + us, [c] + Decimal(n, width) + more)
  {
    LiteralWrites(c);
    DecimalWrites(n, width);
    WritesTogether([Literal(c)], [], [c], [Number(10, width)], [n], Decimal(n, width));
    assert [Literal(c)] + [Number(10, width)] == Field(c, width) && [] + [n] == [n];
    WritesTogether(Field(c, width), [n], [c] + Decimal(n, width), q, us, more);
  }

  function TimeText(c: CivilTime): string {
    "T" + Decimal(c.hour, 2) + (":" + Decimal(c.minute, 2) + (":" + Decimal(c.second, 2) + ("." + Decimal(c.milli, 3)
      + "Z")))
  }

  function TimeTemplate(): Template {
    Field('T', 2) + (Field(':', 2) + (Field(':', 2) + (Field('.', 3) + [Literal('Z')])))
  }

  lemma TimeWrites(c: CivilTime)
    requires IsCivilTime(c)
    ensures Writes(TimeTemplate(), [c.hour, c.minute, c.second, c.milli], TimeText(c))
  {
    PowersOfTen();
    LiteralWrites('Z');
    FieldWrites('.', c.milli, 3, [Literal('Z')], [], "Z");
    assert [c.milli] + [] == [c.milli];
    FieldWrites(':', c.second, 2, Field('.', 3) + [Literal('Z')], [c.milli], "." + Decimal(c.milli, 3) + "Z");
    FieldWrites(':', c.minute, 2, Field(':', 2) + (Field('.', 3) + [Literal('Z')]), [c.second] + [c.milli],
      ":" + Decimal(c.second, 2) + ("." + Decimal(c.milli, 3) + "Z"));
    FieldWrites('T', c.hour, 2, Field(':', 2) + (Field(':', 2) + (Field('.', 3) + [Literal('Z')])),
      [c.minute] + ([c.second] + [c.milli]),
      ":" + Decimal(c.minute, 2) + (":" + Decimal(c.second, 2) + ("." + Decimal(c.milli, 3) + "Z")));
    assert [c.hour] + ([c.minute] + ([c.second] + [c.milli])) == [c.hour, c.minute, c.second, c.milli];
  }

  lemma DateWrites(c: CivilTime)
    requires IsCivilTime(c)
    ensures Writes(DateTemplate(), DateValues(c),
              "-" + Decimal(c.date.month, 2) + ("-" + Decimal(c.date.day, 2) + TimeText(c)))
  {
    PowersOfTen();
    TimeWrites(c);
    MonthsAreShort(c.date);
    var time := [c.hour, c.minute, c.second, c.milli];
    FieldWrites('-', c.date.day, 2, TimeTemplate(), time, TimeText(c));
    FieldWrites('-', c.date.month, 2, Field('-', 2) + TimeTemplate(), [c.date.day] + time,
      "-" + Decimal(c.date.day, 2) + TimeText(c));
    assert [c.date.month] + ([c.date.day] + time) == DateValues(c);
  }

  lemma YearWrites(year: int)
    requires -1_000_000 < year < 1_000_000
    ensures Writes(YearTemplate(YearFormOf(year)), [YearDigits(year)], YearText(year))
  {
    PowersOfTen();
    if 0 <= year <= 9999 {
      DecimalWrites(year, 4);
    } else {
      var sign := if year < 0 then '-' else '+';
      LiteralWrites(sign);
      DecimalWrites(YearDigits(year), 6);
      WritesTogether([Literal(sign)], [], [sign], [Number(10, 6)], [YearDigits(year)], Decimal(YearDigits(year), 6));
      assert [Literal(sign)] + [Number(10, 6)] == YearTemplate(YearFormOf(year));
      assert [] + [YearDigits(year)] == [YearDigits(year)];
    }
  }

  // -------------------------------------------------------------- the UUID

  lemma {:induction false} HexWrites(ds: seq<nat>)
    requires forall i | 0 <= i < |ds| :: ds[i] < 16
    ensures Writes(HexDigits(|ds|), ds, HexText(ds))
    decreases |ds|
  {
    if ds == [] {
      assert HexDigits(0) == [] && HexText(ds) == [];
    } else {
      PowersOfTen();
      HexWrites(ds[1..]);
      NumberWrites(ds[0], 16, 1);
      OneHexDigit(ds[0]);
      WritesTogether([Number(16, 1)], [ds[0]], [HEX[ds[0]]], HexDigits(|ds| - 1), ds[1..], HexText(ds[1..]));
      assert [Number(16, 1)] + HexDigits(|ds| - 1) == HexDigits(|ds|) && [ds[0]] + ds[1..] == ds;
      assert [HEX[ds[0]]] + HexText(ds[1..]) == HexText(ds);
    }
  }

  lemma OneHexDigit(d: nat)
    requires d < 16
    ensures Numeral(d, 16, 1) == [HEX[d]]
  {
    assert Digits(d, 16, 1) == Digits(d / 16, 16, 0) + [d % 16];
    DigitCharIsHex(d);
  }

  lemma GroupWrites(p: Template, ds: seq<nat>, i: nat, k: nat, text: string)
    requires i <= k <= |ds| && Writes(p, ds[..i], text) && forall n | 0 <= n < |ds| :: ds[n] < 16
    ensures Writes(p + [Literal('-')] + HexDigits(k - i), ds[..k], text + "-" + HexText(ds[i..k]))
  {
    LiteralWrites('-');
    HexWrites(ds[i..k]);
    WritesTogether(p, ds[..i], text, [Literal('-')], [], "-");
    assert ds[..i] + [] == ds[..i] && ds[..i] + ds[i..k] == ds[..k];
    WritesTogether(p + [Literal('-')], ds[..i], text + "-", HexDigits(k - i), ds[i..k], HexText(ds[i..k]));
  }

  lemma UuidWrites(ds: seq<nat>)
    requires |ds| == 32 && forall i | 0 <= i < |ds| :: ds[i] < 16
    ensures Writes(UuidTemplate(), ds, UuidText(ds))
  {
    var p, text := HexDigits(8), HexText(ds[..8]);
    HexWrites(ds[..8]);
    GroupWrites(p, ds, 8, 12, text);
    p, text := p + [Literal('-')] + HexDigits(4), text + "-" + HexText(ds[8..12]);
    GroupWrites(p, ds, 12, 16, text);
    p, text := p + [Literal('-')] + HexDigits(4), text + "-" + HexText(ds[12..16]);
    GroupWrites(p, ds, 16, 20, text);
    p, text := p + [Literal('-')] + HexDigits(4), text + "-" + HexText(ds[16..20]);
    GroupWrites(p, ds, 20, 32, text);
    assert ds[..32] == ds && ds[20..32] == ds[20..];
  }

  // -------------------------------------------------------------- the object

  function JsonText(c: RawMetricsCursor): string {
    "{\"capturedAt\":\"" + IsoText(CivilTimeOf(c.capturedAt)) + "\",\"metricId\":\"" + UuidText(UuidDigits(c.metricId))
      + "\"}"
  }

  function Nested(c: CivilTime, id: string): string {
    HEAD + (YearText(c.date.year) + ("-" + Decimal(c.date.month, 2) + ("-" + Decimal(c.date.day, 2) + TimeText(c))
      + (MIDDLE + (id + TAIL))))
  }

  lemma JsonWrites(c: RawMetricsCursor)
    requires IsCursor(c)
    ensures Writes(JsonTemplate(FormOf(c)), CursorValues(c),
              Nested(CivilTimeOf(c.capturedAt), UuidText(UuidDigits(c.metricId))))
  {
    var civil, ds := CivilTimeOf(c.capturedAt), UuidDigits(c.metricId);
    var date := "-" + Decimal(civil.date.month, 2) + ("-" + Decimal(civil.date.day, 2) + TimeText(civil));
    YearsAreShort(c.capturedAt);
    TextWrites(TAIL);
    UuidWrites(ds);
    WritesTogether(UuidTemplate(), ds, UuidText(ds), Literals(TAIL), [], TAIL);
    assert ds + [] == ds;
    TextWrites(MIDDLE);
    WritesTogether(Literals(MIDDLE), [], MIDDLE, UuidTemplate() + Literals(TAIL), ds, UuidText(ds) + TAIL);
    assert [] + ds == ds;
    DateWrites(civil);
    WritesTogether(DateTemplate(), DateValues(civil), date, Literals(MIDDLE) + (UuidTemplate() + Literals(TAIL)), ds,
      MIDDLE + (UuidText(ds) + TAIL));
    YearWrites(civil.date.year);
    WritesTogether(YearTemplate(FormOf(c)), [YearDigits(civil.date.year)], YearText(civil.date.year), AfterYear(),
      DateValues(civil) + ds, date + (MIDDLE + (UuidText(ds) + TAIL)));
    TextWrites(HEAD);
    WritesTogether(Literals(HEAD), [], HEAD, YearTemplate(FormOf(c)) + AfterYear(),
      [YearDigits(civil.date.year)] + (DateValues(civil) + ds),
      YearText(civil.date.year) + (date + (MIDDLE + (UuidText(ds) + TAIL))));
    assert [] + ([YearDigits(civil.date.year)] + (DateValues(civil) + ds)) == CursorValues(c);
  }

  lemma Regrouped(a: string, b: string, c: string, d: string, e: string, f: string)
    ensures a + (b + (c + (d + (e + f)))) == a + (b + c) + d + e + f
  {
  }

  lemma NestedIsFlat(c: CivilTime, id: string)
    ensures Nested(c, id) == HEAD + IsoText(c) + MIDDLE + id + TAIL
  {
    var date := "-" + Decimal(c.date.month, 2) + ("-" + Decimal(c.date.day, 2) + TimeText(c));
    Regrouped(HEAD, YearText(c.date.year), date, MIDDLE, id, TAIL);
  }

  /** encodeCursor writes exactly this object. */
  lemma JsonIsWritten(c: RawMetricsCursor)
    requires IsCursor(c)
    ensures Json(c) == JsonText(c)
  {
    JsonWrites(c);
    NestedIsFlat(CivilTimeOf(c.capturedAt), UuidText(UuidDigits(c.metricId)));
  }

  // -------------------------------------------------------------- what can be written at all

  /** What the pattern asks of the text of an id: a version from 1 to 5, and the variant 8, 9, a or b. */
  predicate MatchesPattern(uuid: string) {
    |uuid| == 36 && uuid[14] in "12345" && uuid[19] in "89ab"
  }

  lemma UuidMarks(ds: seq<nat>)
    requires |ds| == 32 && forall i | 0 <= i < |ds| :: ds[i] < 16
    ensures |UuidText(ds)| == 36 && UuidText(ds)[14] == HEX[ds[12]] && UuidText(ds)[19] == HEX[ds[16]]
  {
  }

  lemma MarksAreDigits(d: nat)
    requires d < 16
    ensures HEX[d] in "12345" <==> 1 <= d <= 5
    ensures HEX[d] in "89ab" <==> 8 <= d <= 11
  {
  }

  lemma UuidExactly(id: nat)
    ensures IsUuid(id) <==> id < Power(16, 32) && MatchesPattern(UuidText(UuidDigits(id)))
  {
    var ds := UuidDigits(id);
    UuidMarks(ds);
    MarksAreDigits(ds[12]);
    MarksAreDigits(ds[16]);
  }

  /**
   * For every time a Date can hold and every id of 128 bits that matches the pattern:
   * encodeCursor writes the object in base64url, and decodeCursor reads it as the same cursor.
   */
  lemma CursorIsWrittenAndRead(c: RawMetricsCursor)
    requires -8_640_000_000_000_000 <= c.capturedAt <= 8_640_000_000_000_000
    requires c.metricId < Power(16, 32) && MatchesPattern(UuidText(UuidDigits(c.metricId)))
    ensures IsCursor(c) && IsBytes(JsonText(c)) && EncodeCursor(c) == ToBase64Url(JsonText(c))
    ensures DecodeCursor(EncodeCursor(c)) == Some(c)
  {
    UuidExactly(c.metricId);
    JsonIsBytes(c);
    JsonIsWritten(c);
    DecodeOfEncode(c);
  }
}
