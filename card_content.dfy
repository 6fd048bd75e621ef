/** The values on a Set card: the four three-valued attributes, the card
    content they make up, the card record, and the small total mappings
    over the attributes (declaration-order index, number of shapes, and
    the debug description). */
module CardContents {

  datatype ShapeColor = Red | Green | Purple
  datatype Shape = Diamond | Squiggle | Oval
  datatype Shading = Solid | Striped | Open
  datatype NumberOfShapes = One | Two | Three

  /** `allCases` of each enum: its cases in declaration order. */
  const AllColors: seq<ShapeColor> := [Red, Green, Purple]
  const AllShapes: seq<Shape> := [Diamond, Squiggle, Oval]
  const AllShadings: seq<Shading> := [Solid, Striped, Open]
  const AllNumbers: seq<NumberOfShapes> := [One, Two, Three]

  /** A card's face: four attributes, fixed once built. */
  datatype CardContent = CardContent(
    numberOfShapes: NumberOfShapes,
    shape: Shape,
    shading: Shading,
    color: ShapeColor)

  /** A card: an identity, its face, and the two selection flags. */
  datatype Card = Card(id: int, content: CardContent, isChosen: bool, isMatched: bool)

  /** The memberwise initialiser `Card(id:content:)`, with both flags at
      their declared default `false`. */
  function NewCard(id: int, content: CardContent): (r: Card)
    ensures r.id == id && r.content == content
    ensures !r.isChosen && !r.isMatched
  {
    Card(id, content, false, false)
  }

  // Position of each case in `allCases`.

  function ColorIndex(c: ShapeColor): (r: nat)
    ensures r < |AllColors| && AllColors[r] == c
  {
    match c
    case Red => 0
    case Green => 1
    case Purple => 2
  }

  function ShapeIndex(s: Shape): (r: nat)
    ensures r < |AllShapes| && AllShapes[r] == s
  {
    match s
    case Diamond => 0
    case Squiggle => 1
    case Oval => 2
  }

  function ShadingIndex(h: Shading): (r: nat)
    ensures r < |AllShadings| && AllShadings[r] == h
  {
    match h
    case Solid => 0
    case Striped => 1
    case Open => 2
  }

  function NumberIndex(n: NumberOfShapes): (r: nat)
    ensures r < |AllNumbers| && AllNumbers[r] == n
  {
    match n
    case One => 0
    case Two => 1
    case Three => 2
  }

  /** The content at position `i` of the deck built colour-outermost,
      then shape, then shading, then number: `i` read as four base-3
      digits. */
  function ContentAt(i: nat): (r: CardContent)
    requires i < 81
    ensures ColorIndex(r.color) == i / 27 && ShapeIndex(r.shape) == (i / 9) % 3
    ensures ShadingIndex(r.shading) == (i / 3) % 3 && NumberIndex(r.numberOfShapes) == i % 3
  {
    CaseIndices(i / 27, (i / 9) % 3, (i / 3) % 3, i % 3);
    CardContent(AllNumbers[i % 3], AllShapes[(i / 9) % 3], AllShadings[(i / 3) % 3], AllColors[i / 27])
  }

  /** The closed-form position of a content in that deck; it is the
      inverse of ContentAt on both sides. */
  function ContentIndex(c: CardContent): (r: nat)
    ensures r < 81 && ContentAt(r) == c
  {
    ContentAtDigits(ColorIndex(c.color), ShapeIndex(c.shape), ShadingIndex(c.shading), NumberIndex(c.numberOfShapes));
    27 * ColorIndex(c.color) + 9 * ShapeIndex(c.shape) + 3 * ShadingIndex(c.shading) + NumberIndex(c.numberOfShapes)
  }

  /** Reading the four digits back out of `27*ci + 9*si + 3*hi + ni`. */
  lemma ContentAtDigits(ci: nat, si: nat, hi: nat, ni: nat)
    requires ci < 3 && si < 3 && hi < 3 && ni < 3
    ensures 27 * ci + 9 * si + 3 * hi + ni < 81
    ensures ContentAt(27 * ci + 9 * si + 3 * hi + ni)
         == CardContent(AllNumbers[ni], AllShapes[si], AllShadings[hi], AllColors[ci])
  {
    var i := 27 * ci + 9 * si + 3 * hi + ni;
    assert i % 3 == ni && i / 3 == 9 * ci + 3 * si + hi;
    assert (i / 3) % 3 == hi && i / 9 == 3 * ci + si;
    assert (i / 9) % 3 == si && i / 27 == ci;
  }

  lemma ContentIndexOfContentAt(i: nat)
    requires i < 81
    ensures ContentIndex(ContentAt(i)) == i
  {
    var ci, si, hi, ni := i / 27, (i / 9) % 3, (i / 3) % 3, i % 3;
    BaseThreeDigits(i);
    CaseIndices(ci, si, hi, ni);
  }

  /** `i` below 81 is its own four base-3 digits. */
  lemma BaseThreeDigits(i: nat)
    requires i < 81
    ensures i / 27 < 3
    ensures i == 27 * (i / 27) + 9 * ((i / 9) % 3) + 3 * ((i / 3) % 3) + i % 3
  {
  }

  /** Taking the case at a position of `allCases` and then its index gives
      the position back. */
  lemma CaseIndices(ci: nat, si: nat, hi: nat, ni: nat)
    requires ci < 3 && si < 3 && hi < 3 && ni < 3
    ensures ColorIndex(AllColors[ci]) == ci && ShapeIndex(AllShapes[si]) == si
    ensures ShadingIndex(AllShadings[hi]) == hi && NumberIndex(AllNumbers[ni]) == ni
  {
  }

  /** `NumberOfShapes.numOfShapes`: one, two, three give 1, 2, 3. */
  function NumOfShapes(n: NumberOfShapes): (r: int)
    ensures 1 <= r <= 3
    ensures r == NumberIndex(n) + 1
  {
    match n
    case One => 1
    case Two => 2
    case Three => 3
  }

  function ColorGlyph(c: ShapeColor): char
  {
    match c
    case Green => '🟢'
    case Red => '🔴'
    case Purple => '🟣'
  }

  function ShapeGlyph(s: Shape): char
  {
    match s
    case Diamond => '♢'
    case Squiggle => '⎰'
    case Oval => '⚬'
  }

  function ShadingName(h: Shading): string
  {
    match h
    case Solid => "solid"
    case Striped => "striped"
    case Open => "open"
  }

  /** `CardContent.debugDescription`: "shape: <shape> <colour> <shading> "
      followed by the digit of the number of shapes. */
  function DebugDescription(c: CardContent): (r: string)
    ensures |r| > 7 && r[..7] == "shape: "
    ensures '0' <= r[|r| - 1] <= '9' && r[|r| - 1] as int - '0' as int == NumOfShapes(c.numberOfShapes)
  {
    var result := "shape: " + [ShapeGlyph(c.shape)] + " " + [ColorGlyph(c.color)] + " " + ShadingName(c.shading) + " ";
    match c.numberOfShapes
    case One => result + "1"
    case Two => result + "2"
    case Three => result + "3"
  }

  /** Different contents have different debug descriptions. */
  lemma DebugDescriptionInjective(a: CardContent, b: CardContent)
    requires DebugDescription(a) == DebugDescription(b)
    ensures a == b
  {
    var r := DebugDescription(a);
    assert r[7] == ShapeGlyph(a.shape) && r[9] == ColorGlyph(a.color);
    assert |r| == 13 + |ShadingName(a.shading)|;
    assert r[7] == ShapeGlyph(b.shape) && r[9] == ColorGlyph(b.color);
    assert |r| == 13 + |ShadingName(b.shading)|;
  }
}
