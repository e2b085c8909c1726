/** Texts of a fixed form: literal characters and numbers of a fixed width, written and read. */
module Templates {
  import opened Wrappers
  import opened Numerals

  datatype Piece = Literal(c: char) | Number(base: nat, width: nat)

  type Template = seq<Piece>

  /** The literal pieces of a text. */
  function Literals(text: string): (p: Template)
    ensures |p| == |text| && forall i | 0 <= i < |p| :: p[i] == Literal(text[i])
  {
    seq(|text|, i requires 0 <= i < |text| => Literal(text[i]))
  }

  predicate IsPiece(piece: Piece) {
    piece.Number? ==> 2 <= piece.base <= 16
  }

  predicate IsTemplate(p: Template) {
    forall piece | piece in p :: IsPiece(piece)
  }

  /** One value that fits for each number of the template. */
  predicate Fits(p: Template, vs: seq<nat>)
    decreases |p|
  {
    if p == [] then vs == []
    else match p[0]
      case Literal(_) => Fits(p[1..], vs)
      case Number(base, width) => vs != [] && vs[0] < Power(base, width) && Fits(p[1..], vs[1..])
  }

  function Format(p: Template, vs: seq<nat>): string
    requires IsTemplate(p) && Fits(p, vs)
    decreases |p|
  {
    if p == [] then []
    else
      assert IsPiece(p[0]) && IsTemplate(p[1..]);
      match p[0]
      case Literal(c) => [c] + Format(p[1..], vs)
      case Number(base, width) => Numeral(vs[0], base, width) + Format(p[1..], vs[1..])
  }

  function Parse(p: Template, text: string): Option<seq<nat>>
    decreases |p|
  {
    if p == [] then (if text == [] then Some([]) else None)
    else match p[0]
      case Literal(c) => if text != [] && text[0] == c then Parse(p[1..], text[1..]) else None
      case Number(base, width) =>
        if |text| < width then None
        else Prefixed(ReadNumeral(text[..width], base), Parse(p[1..], text[width..]))
  }

  function Prefixed(v: Option<nat>, vs: Option<seq<nat>>): Option<seq<nat>> {
    if v.Some? && vs.Some? then Some([v.value] + vs.value) else None
  }

  /** The text with the letters of its numbers in lower case. */
  function Folded(p: Template, text: string): string
    decreases |p|
  {
    if p == [] then text
    else match p[0]
      case Literal(_) => if text == [] then [] else [text[0]] + Folded(p[1..], text[1..])
      case Number(_, width) => if |text| < width then text else LowerAll(text[..width]) + Folded(p[1..], text[width..])
  }

  // -------------------------------------------------------------- reading what was written

  lemma {:induction false} ParseIsFolded(p: Template, text: string)
    requires IsTemplate(p) && Parse(p, text).Some?
    ensures Fits(p, Parse(p, text).value) && Folded(p, text) == Format(p, Parse(p, text).value)
    decreases |p|
  {
    if p != [] {
      assert IsPiece(p[0]) && IsTemplate(p[1..]);
      match p[0] {
        case Literal(c) => ParseIsFolded(p[1..], text[1..]);
        case Number(base, width) =>
          ParseIsFolded(p[1..], text[width..]);
          ReadsExactly(text[..width], Parse(p, text).value[0], base);
          assert Parse(p, text).value[1..] == Parse(p[1..], text[width..]).value;
      }
    }
  }

  lemma {:induction false} FoldedIsParsed(p: Template, text: string, vs: seq<nat>)
    requires IsTemplate(p) && Fits(p, vs) && Folded(p, text) == Format(p, vs)
    ensures Parse(p, text) == Some(vs)
    decreases |p|
  {
    if p != [] {
      assert IsPiece(p[0]) && IsTemplate(p[1..]);
      match p[0] {
        case Literal(c) => LiteralIsParsed(p, text, vs);
        case Number(base, width) => NumberIsParsed(p, text, vs);
      }
    }
  }

  lemma LiteralIsParsed(p: Template, text: string, vs: seq<nat>)
    requires IsTemplate(p) && Fits(p, vs) && p != [] && p[0].Literal? && Folded(p, text) == Format(p, vs)
    ensures Parse(p, text) == Some(vs)
    decreases |p|, 0
  {
    assert IsTemplate(p[1..]);
    var rest := Format(p[1..], vs);
    assert Format(p, vs) == [p[0].c] + rest && Format(p, vs)[1..] == rest;
    assert text != [] && Folded(p, text)[1..] == Folded(p[1..], text[1..]);
    FoldedIsParsed(p[1..], text[1..], vs);
  }

  lemma NumberIsParsed(p: Template, text: string, vs: seq<nat>)
    requires IsTemplate(p) && Fits(p, vs) && p != [] && p[0].Number? && Folded(p, text) == Format(p, vs)
    ensures Parse(p, text) == Some(vs)
    decreases |p|, 0
  {
    var Number(base, width) := p[0];
    assert IsPiece(p[0]) && IsTemplate(p[1..]);
    var first, rest := Numeral(vs[0], base, width), Format(p[1..], vs[1..]);
    assert Format(p, vs) == first + rest && |first| == width;
    assert Format(p, vs)[..width] == first && Format(p, vs)[width..] == rest;
    assert |text| >= width;
    assert Folded(p, text)[..width] == LowerAll(text[..width])
        && Folded(p, text)[width..] == Folded(p[1..], text[width..]);
    ReadsExactly(text[..width], vs[0], base);
    FoldedIsParsed(p[1..], text[width..], vs[1..]);
    assert [vs[0]] + vs[1..] == vs;
  }

  /** A text is read as vs exactly if, its letters in numbers aside, it is what vs is written as. */
  lemma ParsesExactly(p: Template, text: string, vs: seq<nat>)
    requires IsTemplate(p)
    ensures Parse(p, text) == Some(vs) <==> Fits(p, vs) && Folded(p, text) == Format(p, vs)
  {
    if Parse(p, text) == Some(vs) {
      ParseIsFolded(p, text);
    } else if Fits(p, vs) && Folded(p, text) == Format(p, vs) {
      FoldedIsParsed(p, text, vs);
    }
  }

  /** What is written is in lower case already. */
  lemma {:induction false} FormatIsFolded(p: Template, vs: seq<nat>)
    requires IsTemplate(p) && Fits(p, vs)
    ensures Folded(p, Format(p, vs)) == Format(p, vs)
    decreases |p|
  {
    if p != [] {
      assert IsPiece(p[0]) && IsTemplate(p[1..]);
      match p[0] {
        case Literal(c) =>
          FormatIsFolded(p[1..], vs);
          assert Format(p, vs)[1..] == Format(p[1..], vs);
        case Number(base, width) =>
          FormatIsFolded(p[1..], vs[1..]);
          NumeralIsLower(vs[0], base, width);
          assert Format(p, vs)[..width] == Numeral(vs[0], base, width)
              && Format(p, vs)[width..] == Format(p[1..], vs[1..]);
      }
    }
  }

  lemma NumeralIsLower(n: nat, base: nat, width: nat)
    requires 2 <= base <= 16
    ensures LowerAll(Numeral(n, base, width)) == Numeral(n, base, width)
  {
    forall i | 0 <= i < width ensures Lower(Numeral(n, base, width)[i]) == Numeral(n, base, width)[i] {
      DigitCharIsDigit(Digits(n, base, width)[i], base);
    }
  }

  lemma WrittenIsRead(p: Template, vs: seq<nat>)
    requires IsTemplate(p) && Fits(p, vs)
    ensures Parse(p, Format(p, vs)) == Some(vs)
  {
    FormatIsFolded(p, vs);
    FoldedIsParsed(p, Format(p, vs), vs);
  }

  // -------------------------------------------------------------- putting templates together

  /** What each number of the template has to stay below. */
  function Bounds(p: Template): seq<nat>
    decreases |p|
  {
    if p == [] then []
    else match p[0]
      case Literal(_) => Bounds(p[1..])
      case Number(base, width) => [Power(base, width)] + Bounds(p[1..])
  }

  predicate IsWithin(vs: seq<nat>, bounds: seq<nat>) {
    |vs| == |bounds| && forall i | 0 <= i < |vs| :: vs[i] < bounds[i]
  }

  lemma {:induction false} FitsExactly(p: Template, vs: seq<nat>)
    ensures Fits(p, vs) <==> IsWithin(vs, Bounds(p))
    decreases |p|
  {
    if p != [] {
      if p[0].Literal? {
        FitsExactly(p[1..], vs);
      } else if vs != [] {
        FitsExactly(p[1..], vs[1..]);
        WithinSplits(vs, Power(p[0].base, p[0].width), Bounds(p[1..]));
      }
    }
  }

  lemma WithinSplits(vs: seq<nat>, bound: nat, bounds: seq<nat>)
    requires vs != []
    ensures IsWithin(vs, [bound] + bounds) <==> vs[0] < bound && IsWithin(vs[1..], bounds)
  {
    if IsWithin(vs, [bound] + bounds) {
      forall i | 0 <= i < |vs[1..]| ensures vs[1..][i] < bounds[i] { assert vs[i + 1] < ([bound] + bounds)[i + 1]; }
    }
    if vs[0] < bound && IsWithin(vs[1..], bounds) {
      forall i | 0 <= i < |vs|
        ensures vs[i] < ([bound] + bounds)[i]
      {
        if i > 0 { assert vs[1..][i - 1] < bounds[i - 1]; }
      }
    }
  }

  lemma {:induction false} BoundsTogether(p: Template, q: Template)
    ensures Bounds(p + q) == Bounds(p) + Bounds(q)
    decreases |p|
  {
    if p == [] {
      assert p + q == q;
    } else {
      assert (p + q)[1..] == p[1..] + q;
      BoundsTogether(p[1..], q);
    }
  }

  lemma {:induction false} LiteralsHaveNoBounds(text: string)
    ensures Bounds(Literals(text)) == []
    decreases |text|
  {
    if text != [] {
      LiteralsHaveNoBounds(text[1..]);
      assert Literals(text)[1..] == Literals(text[1..]);
    }
  }

  lemma FormatOfLiteral(p: Template, vs: seq<nat>)
    requires p != [] && p[0].Literal? && IsTemplate(p) && Fits(p, vs)
    ensures IsTemplate(p[1..]) && Fits(p[1..], vs) && Format(p, vs) == [p[0].c] + Format(p[1..], vs)
  {
  }

  lemma LiteralFirst(text: string, q: Template)
    requires text != []
    ensures var p := Literals(text) + q; p[0] == Literal(text[0]) && p[1..] == Literals(text[1..]) + q
  {
  }

  lemma HeadTail(text: string, tail: string)
    requires text != []
    ensures [text[0]] + (text[1..] + tail) == text + tail
  {
  }

  /** A literal beginning is there in what is written. */
  lemma {:induction false} FormatBegins(text: string, q: Template, vs: seq<nat>)
    requires IsTemplate(Literals(text) + q) && Fits(Literals(text) + q, vs)
    ensures IsTemplate(q) && Fits(q, vs) && Format(Literals(text) + q, vs) == text + Format(q, vs)
    decreases |text|
  {
    var p := Literals(text) + q;
    if text == [] {
      assert p == q;
    } else {
      LiteralFirst(text, q);
      FormatOfLiteral(p, vs);
      FormatBegins(text[1..], q, vs);
      HeadTail(text, Format(q, vs));
    }
  }

  /** Every character is an ASCII character. */
  predicate IsAscii(text: string) {
    forall c | c in text :: c as int < 128
  }

  predicate IsAsciiTemplate(p: Template) {
    forall piece | piece in p && piece.Literal? :: piece.c as int < 128
  }

  lemma {:induction false} FormatIsAscii(p: Template, vs: seq<nat>)
    requires IsTemplate(p) && Fits(p, vs) && IsAsciiTemplate(p)
    ensures IsAscii(Format(p, vs))
    decreases |p|
  {
    if p != [] {
      assert IsPiece(p[0]) && IsTemplate(p[1..]) && IsAsciiTemplate(p[1..]);
      if p[0].Literal? { FormatIsAscii(p[1..], vs); } else { FormatIsAscii(p[1..], vs[1..]); }
    }
  }
}
