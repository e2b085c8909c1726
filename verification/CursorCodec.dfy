/**
 * The text of a cursor, encodeCursor and decodeCursor of backend/src/analytics/analytics.service.ts:
 * base64url of a JSON object with the time of toISOString and the UUID of the last snapshot.
 */
module CursorCodec {
  import opened Wrappers
  import opened Numerals
  import opened Templates
  import opened Base64Url
  import opened IsoDate

  // A UUID is its 128-bit number, most significant digit first, which is how PostgreSQL compares it.
  datatype RawMetricsCursor = RawMetricsCursor(capturedAt: int, metricId: nat)

  // -------------------------------------------------------------- UUIDs

  const UUID_DIGITS: nat := 32

  function UuidDigits(id: nat): (ds: seq<nat>)
    ensures |ds| == UUID_DIGITS && forall i | 0 <= i < |ds| :: ds[i] < 16
  {
    Digits(id, 16, UUID_DIGITS)
  }

  /** What the pattern asks of the version and the variant digit. */
  predicate HasUuidMarks(ds: seq<nat>)
    requires |ds| == UUID_DIGITS
  {
    1 <= ds[12] <= 5 && 8 <= ds[16] <= 11
  }

  predicate IsUuid(id: nat) {
    id < Power(16, UUID_DIGITS) && HasUuidMarks(UuidDigits(id))
  }

  // -------------------------------------------------------------- the template

  // toISOString writes years 0 to 9999 with four digits, all others with a sign and six.
  datatype YearForm = FourDigits | SixDigits(negative: bool)

  function YearFormOf(year: int): YearForm {
    if 0 <= year <= 9999 then FourDigits else SixDigits(year < 0)
  }

  function YearTemplate(form: YearForm): Template {
    if form.FourDigits? then [Number(10, 4)]
    else [Literal(if form.negative then '-' else '+'), Number(10, 6)]
  }

  function Field(c: char, width: nat): Template {
    [Literal(c), Number(10, width)]
  }

  /** -MM-DDTHH:mm:ss.sssZ, the part of toISOString behind the year. */
  function DateTemplate(): Template {
    Field('-', 2)
        + (Field('-', 2) + (Field('T', 2) + (Field(':', 2) + (Field(':', 2) + (Field('.', 3) + [Literal('Z')])))))
  }

  function HexDigits(count: nat): (p: Template)
    ensures |p| == count && forall i | 0 <= i < count :: p[i] == Number(16, 1)
  {
    seq(count, _ => Number(16, 1))
  }

  /** Groups of 8, 4, 4, 4 and 12 hexadecimal digits. */
  function UuidTemplate(): Template {
    HexDigits(8) + [Literal('-')] + HexDigits(4) + [Literal('-')] + HexDigits(4) + [Literal('-')] + HexDigits(4)
        + [Literal('-')] + HexDigits(12)
  }

  const HEAD: string := "{\"capturedAt\":\""
  const MIDDLE: string := "\",\"metricId\":\""
  const TAIL: string := "\"}"

  /** The object as JSON.stringify writes it. */
  function JsonTemplate(form: YearForm): Template {
    Literals(HEAD) + (YearTemplate(form) + (DateTemplate() + (Literals(MIDDLE) + (UuidTemplate() + Literals(TAIL)))))
  }

  // -------------------------------------------------------------- the numbers in it

  function YearDigits(year: int): nat {
    if year < 0 then -year else year
  }

  function DateValues(c: CivilTime): seq<nat> {
    [c.date.month, c.date.day, c.hour, c.minute, c.second, c.milli]
  }

  function CursorValues(c: RawMetricsCursor): seq<nat> {
    var civil := CivilTimeOf(c.capturedAt);
    [YearDigits(civil.date.year)] + DateValues(civil) + UuidDigits(c.metricId)
  }

  function FormOf(c: RawMetricsCursor): YearForm {
    YearFormOf(CivilTimeOf(c.capturedAt).date.year)
  }

  predicate IsCursor(c: RawMetricsCursor) {
    IsTimeValue(c.capturedAt) && IsUuid(c.metricId)
  }

  function YearFrom(form: YearForm, digits: int): int {
    if form.SixDigits? && form.negative then -digits else digits
  }

  function CivilFrom(form: YearForm, vs: seq<nat>): CivilTime
    requires |vs| >= 7
  {
    CivilTime(CivilDay(YearFrom(form, vs[0]), vs[1], vs[2]), vs[3], vs[4], vs[5], vs[6])
  }

  /** The numbers read from a text of this form, if they are a date and a UUID. */
  function CursorFrom(form: YearForm, vs: seq<nat>): Option<RawMetricsCursor>
    requires |vs| == 7 + UUID_DIGITS
  {
    var civil := CivilFrom(form, vs);
    if YearFormOf(civil.date.year) == form && IsCivilTime(civil) && IsTimeValue(TimeOf(civil)) && HasUuidMarks(vs[7..])
    then Some(RawMetricsCursor(TimeOf(civil), Value(vs[7..], 16))) else None
  }

  // -------------------------------------------------------------- what fits the template

  function YearBound(form: YearForm): nat {
    if form.FourDigits? then 10_000 else 1_000_000
  }

  const DATE_BOUNDS: seq<nat> := [100, 100, 100, 100, 100, 1000]

  function Repeated(bound: nat, count: nat): (bounds: seq<nat>)
    ensures |bounds| == count && forall i | 0 <= i < count :: bounds[i] == bound
  {
    seq(count, _ => bound)
  }

  lemma PowersOfTen()
    ensures Power(10, 2) == 100 && Power(10, 3) == 1000 && Power(10, 4) == 10_000 && Power(10, 6) == 1_000_000
    ensures Power(16, 1) == 16
  {
    assert Power(10, 1) == Power(10, 0) * 10;
    assert Power(10, 2) == Power(10, 1) * 10;
    assert Power(10, 3) == Power(10, 2) * 10;
    assert Power(10, 4) == Power(10, 3) * 10;
    assert Power(10, 5) == Power(10, 4) * 10;
    assert Power(10, 6) == Power(10, 5) * 10;
    assert Power(16, 1) == Power(16, 0) * 16;
  }

  lemma YearBounds(form: YearForm)
    ensures Bounds(YearTemplate(form)) == [YearBound(form)]
  {
    PowersOfTen();
    OneNumberBounds(10, 4);
    OneNumberBounds(10, 6);
    if form.SixDigits? { assert YearTemplate(form)[1..] == [Number(10, 6)]; }
  }

  lemma OneNumberBounds(base: nat, width: nat)
    ensures Bounds([Number(base, width)]) == [Power(base, width)]
  {
    assert [Number(base, width)][1..] == [] && Bounds([]) == [];
  }

  lemma OneFieldBounds(c: char, width: nat, rest: Template)
    ensures Bounds(Field(c, width) + rest) == [Power(10, width)] + Bounds(rest)
  {
    var p := Field(c, width) + rest;
    assert p[1..] == [Number(10, width)] + rest && p[1..][1..] == rest;
  }

  lemma DateBounds()
    ensures Bounds(DateTemplate()) == DATE_BOUNDS
  {
    PowersOfTen();
    TimeBounds();
    var time := Field('T', 2) + (Field(':', 2) + (Field(':', 2) + (Field('.', 3) + [Literal('Z')])));
    OneFieldBounds('-', 2, time);
    OneFieldBounds('-', 2, Field('-', 2) + time);
    assert [100] + ([100] + [100, 100, 100, 1000]) == DATE_BOUNDS;
  }

  lemma TimeBounds()
    ensures Bounds(Field('T', 2) + (Field(':', 2) + (Field(':', 2) + (Field('.', 3) + [Literal('Z')]))))
             == [100, 100, 100, 1000]
  {
    PowersOfTen();
    var z := [Literal('Z')];
    assert z[1..] == [] && Bounds(z) == [];
    OneFieldBounds('.', 3, z);
    OneFieldBounds(':', 2, Field('.', 3) + z);
    OneFieldBounds(':', 2, Field(':', 2) + (Field('.', 3) + z));
    OneFieldBounds('T', 2, Field(':', 2) + (Field(':', 2) + (Field('.', 3) + z)));
    assert [100] + ([100] + ([100] + ([1000] + []))) == [100, 100, 100, 1000];
  }

  lemma {:induction false} HexBounds(count: nat)
    ensures Bounds(HexDigits(count)) == Repeated(16, count)
    decreases count
  {
    PowersOfTen();
    if count > 0 {
      HexBounds(count - 1);
      assert HexDigits(count)[1..] == HexDigits(count - 1);
    }
  }

  lemma GroupBounds(p: Template, count: nat, group: nat)
    requires Bounds(p) == Repeated(16, count)
    ensures Bounds(p + [Literal('-')] + HexDigits(group)) == Repeated(16, count + group)
  {
    var dash := [Literal('-')];
    assert dash[1..] == [] && Bounds(dash) == [];
    HexBounds(group);
    BoundsTogether(p, dash);
    BoundsTogether(p + dash, HexDigits(group));
  }

  lemma UuidBounds()
    ensures Bounds(UuidTemplate()) == Repeated(16, UUID_DIGITS)
  {
    var dash := [Literal('-')];
    HexBounds(8);
    GroupBounds(HexDigits(8), 8, 4);
    GroupBounds(HexDigits(8) + dash + HexDigits(4), 12, 4);
    GroupBounds(HexDigits(8) + dash + HexDigits(4) + dash + HexDigits(4), 16, 4);
    GroupBounds(HexDigits(8) + dash + HexDigits(4) + dash + HexDigits(4) + dash + HexDigits(4), 20, 12);
  }

  function JsonBounds(form: YearForm): seq<nat> {
    [YearBound(form)] + DATE_BOUNDS + Repeated(16, UUID_DIGITS)
  }

  function AfterYear(): Template {
    DateTemplate() + (Literals(MIDDLE) + (UuidTemplate() + Literals(TAIL)))
  }

  lemma AfterYearBounds()
    ensures Bounds(AfterYear()) == DATE_BOUNDS + Repeated(16, UUID_DIGITS)
  {
    DateBounds();
    UuidBounds();
    LiteralsHaveNoBounds(MIDDLE);
    LiteralsHaveNoBounds(TAIL);
    BoundsTogether(UuidTemplate(), Literals(TAIL));
    BoundsTogether(Literals(MIDDLE), UuidTemplate() + Literals(TAIL));
    BoundsTogether(DateTemplate(), Literals(MIDDLE) + (UuidTemplate() + Literals(TAIL)));
  }

  lemma JsonTemplateBounds(form: YearForm)
    ensures Bounds(JsonTemplate(form)) == JsonBounds(form)
  {
    AfterYearBounds();
    YearBounds(form);
    LiteralsHaveNoBounds(HEAD);
    BoundsTogether(YearTemplate(form), AfterYear());
    BoundsTogether(Literals(HEAD), YearTemplate(form) + AfterYear());
  }

  /** A template of ASCII literals and readable numbers. */
  predicate IsSound(p: Template) {
    IsTemplate(p) && IsAsciiTemplate(p)
  }

  lemma SoundTogether(p: Template, q: Template)
    requires IsSound(p) && IsSound(q)
    ensures IsSound(p + q)
  {
    forall piece | piece in p + q
      ensures IsPiece(piece) && (piece.Literal? ==> piece.c as int < 128)
    {
      assert piece in p || piece in q;
    }
  }

  lemma LiteralsAreSound(text: string)
    requires IsAscii(text)
    ensures IsSound(Literals(text))
  {
    forall piece | piece in Literals(text) ensures IsPiece(piece) && piece.c as int < 128 {
      var i :| 0 <= i < |text| && Literals(text)[i] == piece;
      assert text[i] in text;
    }
  }

  lemma TextsAreAscii()
    ensures IsAscii(HEAD) && IsAscii(MIDDLE) && IsAscii(TAIL)
  {
  }

  lemma DateIsSound()
    ensures IsSound(DateTemplate())
  {
    SoundTogether(Field('.', 3), [Literal('Z')]);
    SoundTogether(Field(':', 2), Field('.', 3) + [Literal('Z')]);
    SoundTogether(Field(':', 2), Field(':', 2) + (Field('.', 3) + [Literal('Z')]));
    var time := Field(':', 2) + (Field(':', 2) + (Field('.', 3) + [Literal('Z')]));
    SoundTogether(Field('T', 2), time);
    SoundTogether(Field('-', 2), Field('T', 2) + time);
    SoundTogether(Field('-', 2), Field('-', 2) + (Field('T', 2) + time));
  }

  lemma UuidIsSound()
    ensures IsSound(UuidTemplate())
  {
    forall piece | piece in UuidTemplate() ensures piece in {Literal('-'), Number(16, 1)} {}
  }

  lemma JsonTemplateIsOne(form: YearForm)
    ensures IsSound(JsonTemplate(form))
  {
    TextsAreAscii();
    DateIsSound();
    UuidIsSound();
    LiteralsAreSound(HEAD);
    LiteralsAreSound(MIDDLE);
    LiteralsAreSound(TAIL);
    SoundTogether(UuidTemplate(), Literals(TAIL));
    SoundTogether(Literals(MIDDLE), UuidTemplate() + Literals(TAIL));
    SoundTogether(DateTemplate(), Literals(MIDDLE) + (UuidTemplate() + Literals(TAIL)));
    SoundTogether(YearTemplate(form), AfterYear());
    SoundTogether(Literals(HEAD), YearTemplate(form) + AfterYear());
  }

  /** The numbers of a cursor fit, and the other way round numbers that fit are 39. */
  lemma CursorFits(c: RawMetricsCursor)
    requires IsCursor(c)
    ensures IsTemplate(JsonTemplate(FormOf(c))) && Fits(JsonTemplate(FormOf(c)), CursorValues(c))
  {
    var form, civil := FormOf(c), CivilTimeOf(c.capturedAt);
    JsonTemplateIsOne(form);
    JsonTemplateBounds(form);
    YearsAreShort(c.capturedAt);
    MonthsAreShort(civil.date);
    FitsExactly(JsonTemplate(form), CursorValues(c));
  }

  lemma MonthsAreShort(c: CivilDay)
    requires IsCivilDay(c)
    ensures c.day <= 31
  {
  }

  // -------------------------------------------------------------- encode and decode

  function Json(c: RawMetricsCursor): string
    requires IsCursor(c)
  {
    CursorFits(c);
    Format(JsonTemplate(FormOf(c)), CursorValues(c))
  }

  lemma JsonIsBytes(c: RawMetricsCursor)
    requires IsCursor(c)
    ensures IsBytes(Json(c))
  {
    CursorFits(c);
    JsonTemplateIsOne(FormOf(c));
    FormatIsAscii(JsonTemplate(FormOf(c)), CursorValues(c));
  }

  /** encodeCursor, for the dates and ids a snapshot can have. */
  function EncodeCursor(c: RawMetricsCursor): string
    requires IsCursor(c)
  {
    JsonIsBytes(c);
    ToBase64Url(Json(c))
  }

  /** How the year is written, from the character it begins with. */
  function FormOfJson(json: string): YearForm {
    if |json| > |HEAD| && json[|HEAD|] == '+' then SixDigits(false)
    else if |json| > |HEAD| && json[|HEAD|] == '-' then SixDigits(true)
    else FourDigits
  }

  function DecodeJson(json: string): Option<RawMetricsCursor> {
    var form := FormOfJson(json);
    match Parse(JsonTemplate(form), json)
    case None => None
    case Some(vs) => if |vs| == 7 + UUID_DIGITS then CursorFrom(form, vs) else None
  }

  /** decodeCursor; None is the BadRequestException. */
  function DecodeCursor(text: string): Option<RawMetricsCursor> {
    match FromBase64Url(text)
    case None => None
    case Some(json) => DecodeJson(json)
  }

  // -------------------------------------------------------------- numbers and cursors

  lemma DateIsWritten(c: RawMetricsCursor)
    ensures |CursorValues(c)| == 7 + UUID_DIGITS && CursorValues(c)[7..] == UuidDigits(c.metricId)
    ensures CivilFrom(FormOf(c), CursorValues(c)) == CivilTimeOf(c.capturedAt)
  {
    CivilIsWritten(CivilTimeOf(c.capturedAt), UuidDigits(c.metricId));
  }

  lemma CivilIsWritten(civil: CivilTime, ds: seq<nat>)
    ensures var vs := [YearDigits(civil.date.year)] + DateValues(civil) + ds;
            |vs| == 7 + |ds| && vs[7..] == ds && CivilFrom(YearFormOf(civil.date.year), vs) == civil
  {
  }

  /** The numbers of a cursor are read as that cursor. */
  lemma ValuesAreRead(c: RawMetricsCursor)
    requires IsCursor(c)
    ensures CursorFrom(FormOf(c), CursorValues(c)) == Some(c)
  {
    DateIsWritten(c);
    ValueOfDigits(c.metricId, 16, UUID_DIGITS);
  }

  /** Numbers that are read as a cursor are the numbers of that cursor. */
  lemma ReadAreValues(form: YearForm, vs: seq<nat>, c: RawMetricsCursor)
    requires IsWithin(vs, JsonBounds(form)) && CursorFrom(form, vs) == Some(c)
    ensures IsCursor(c) && FormOf(c) == form && CursorValues(c) == vs
  {
    CivilTimeIsUnique(CivilFrom(form, vs));
    UuidIsRead(form, vs, c);
    DateIsRead(form, vs, c);
    assert [vs[0]] + vs[1..7] + vs[7..] == vs;
  }

  lemma UuidIsRead(form: YearForm, vs: seq<nat>, c: RawMetricsCursor)
    requires IsWithin(vs, JsonBounds(form)) && CursorFrom(form, vs) == Some(c)
    ensures IsUuid(c.metricId) && UuidDigits(c.metricId) == vs[7..]
  {
    assert forall i | 7 <= i < |vs| :: vs[i] < JsonBounds(form)[i];
    DigitsOfValue(vs[7..], 16);
  }

  lemma DateIsRead(form: YearForm, vs: seq<nat>, c: RawMetricsCursor)
    requires |vs| == 7 + UUID_DIGITS && CursorFrom(form, vs) == Some(c)
    requires CivilTimeOf(c.capturedAt) == CivilFrom(form, vs)
    ensures FormOf(c) == form && DateValues(CivilTimeOf(c.capturedAt)) == vs[1..7]
    ensures YearDigits(CivilTimeOf(c.capturedAt).date.year) == vs[0]
  {
  }

  // -------------------------------------------------------------- the form of a text

  /** The character a year begins with tells its form. */
  lemma YearTellsForm(form: YearForm, vs: seq<nat>)
    requires IsTemplate(YearTemplate(form) + AfterYear()) && Fits(YearTemplate(form) + AfterYear(), vs)
    ensures var text := Format(YearTemplate(form) + AfterYear(), vs);
            text != [] && (text[0] == '+' <==> form == SixDigits(false))
                && (text[0] == '-' <==> form == SixDigits(true))
  {
    var p := YearTemplate(form) + AfterYear();
    if form.FourDigits? {
      assert p[0] == Number(10, 4);
      var digits := Numeral(vs[0], 10, 4);
      assert Format(p, vs)[0] == digits[0] == DigitChar(Digits(vs[0], 10, 4)[0]);
    } else {
      assert p[0] == Literal(if form.negative then '-' else '+');
    }
  }

  lemma JsonTellsForm(form: YearForm, vs: seq<nat>)
    requires IsTemplate(JsonTemplate(form)) && Fits(JsonTemplate(form), vs)
    ensures FormOfJson(Format(JsonTemplate(form), vs)) == form
  {
    FormatBegins(HEAD, YearTemplate(form) + AfterYear(), vs);
    YearTellsForm(form, vs);
  }

  // -------------------------------------------------------------- the round trip

  lemma JsonIsRead(c: RawMetricsCursor)
    requires IsCursor(c)
    ensures DecodeJson(Json(c)) == Some(c)
  {
    CursorFits(c);
    JsonTellsForm(FormOf(c), CursorValues(c));
    WrittenIsRead(JsonTemplate(FormOf(c)), CursorValues(c));
    ValuesAreRead(c);
  }

  /** decodeCursor(encodeCursor(c)) is c, for every date of the calendar and every UUID. */
  lemma DecodeOfEncode(c: RawMetricsCursor)
    requires IsCursor(c)
    ensures DecodeCursor(EncodeCursor(c)) == Some(c)
  {
    JsonIsBytes(c);
    FromBase64UrlExactly(EncodeCursor(c), Json(c));
    JsonIsRead(c);
  }

  /** json is the object of c, hexadecimal letters in either case. */
  predicate IsJsonOf(json: string, c: RawMetricsCursor) {
    IsCursor(c) && FormOfJson(json) == FormOf(c) && Folded(JsonTemplate(FormOf(c)), json) == Json(c)
  }

  lemma DecodesJsonExactly(json: string, c: RawMetricsCursor)
    ensures DecodeJson(json) == Some(c) <==> IsJsonOf(json, c)
  {
    var form := FormOfJson(json);
    JsonTemplateIsOne(form);
    JsonTemplateBounds(form);
    if DecodeJson(json) == Some(c) {
      var vs := Parse(JsonTemplate(form), json).value;
      ParsesExactly(JsonTemplate(form), json, vs);
      FitsExactly(JsonTemplate(form), vs);
      ReadAreValues(form, vs, c);
    }
    if IsJsonOf(json, c) {
      CursorFits(c);
      ParsesExactly(JsonTemplate(form), json, CursorValues(c));
      ValuesAreRead(c);
    }
  }

  /**
   * This model of decodeCursor accepts nothing else: a text is read as c exactly if c has a
   * date of the calendar and a UUID, and the text is the base64url of the object of c.
   */
  lemma DecodesExactly(text: string, c: RawMetricsCursor)
    ensures DecodeCursor(text) == Some(c) <==>
              exists json :: IsBytes(json) && text == ToBase64Url(json) && IsJsonOf(json, c)
  {
    if DecodeCursor(text) == Some(c) {
      var json := FromBase64Url(text).value;
      FromBase64UrlExactly(text, json);
      DecodesJsonExactly(json, c);
    }
    if json :| IsBytes(json) && text == ToBase64Url(json) && IsJsonOf(json, c) {
      FromBase64UrlExactly(text, json);
      DecodesJsonExactly(json, c);
    }
  }

  lemma PackIsNotEmpty(bytes: seq<Byte>)
    requires bytes != []
    ensures Pack(bytes) != []
  {
  }

  /** An encoded cursor is never the empty text, which stands for no cursor. */
  lemma EncodedIsNotEmpty(c: RawMetricsCursor)
    requires IsCursor(c)
    ensures EncodeCursor(c) != ""
  {
    CursorFits(c);
    FormatBegins(HEAD, YearTemplate(FormOf(c)) + AfterYear(), CursorValues(c));
    JsonIsBytes(c);
    PackIsNotEmpty(CodesOf(Json(c)));
  }
}
