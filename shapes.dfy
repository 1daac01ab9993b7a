/** The shape enumeration, its textual tokens, and the acceptance conditions the
    console dialogue applies to what it reads. */
module Shapes {

  datatype Shape = Rectangle | Oval | Circle | Triangle | Square

  /** The position of a shape in the enumeration (RECTANGLE is 0, SQUARE is 4). */
  function Ordinal(s: Shape): nat {
    match s
    case Rectangle => 0
    case Oval => 1
    case Circle => 2
    case Triangle => 3
    case Square => 4
  }

  /** The printed name of a shape: one of its own tokens and a token of no other shape. */
  function ShapeName(s: Shape): (name: string)
    ensures name in TokensOf(s)
    ensures forall t :: t != s ==> name !in TokensOf(t)
  {
    match s
    case Rectangle => "RECTANGLE"
    case Oval => "OVAL"
    case Circle => "CIRCLE"
    case Triangle => "TRIANGLE"
    case Square => "SQUARE"
  }

  /** Every token read as shape `s`: the lower-case, upper-case and capitalised name,
      the short forms of RECTANGLE, and the shape's ordinal as a digit. */
  function TokensOf(s: Shape): seq<string> {
    match s
    case Rectangle => ["rectangle", "RECTANGLE", "Rectangle", "rect", "Rect", "0"]
    case Oval => ["oval", "OVAL", "Oval", "1"]
    case Circle => ["circle", "CIRCLE", "Circle", "2"]
    case Triangle => ["triangle", "TRIANGLE", "Triangle", "3"]
    case Square => ["square", "SQUARE", "Square", "4"]
  }

  /** Reads one token into `shape`: a recognised token sets it, any other token
      leaves it as it was. */
  method ReadShape(token: string, shape: Shape) returns (result: Shape)
    ensures result == Decode(token, shape)
  {
    result := shape;
    if token in ["rectangle", "RECTANGLE", "Rectangle", "rect", "Rect", "0"] {
      result := Rectangle;
    }
    if token in ["oval", "OVAL", "Oval", "1"] {
      result := Oval;
    }
    if token in ["circle", "CIRCLE", "Circle", "2"] {
      result := Circle;
    }
    if token in ["triangle", "TRIANGLE", "Triangle", "3"] {
      result := Triangle;
    }
    if token in ["square", "SQUARE", "Square", "4"] {
      result := Square;
    }
  }

  /** No token names two shapes. */
  lemma TokensDisjoint(s: Shape, t: Shape, token: string)
    requires token in TokensOf(s) && token in TokensOf(t)
    ensures s == t
  {
  }

  /** The ordinal digit of a shape is one of its tokens, so a shape typed as its
      position in the enumeration is read as that shape. */
  lemma DigitIsToken(s: Shape)
    ensures ["0", "1", "2", "3", "4"][Ordinal(s)] in TokensOf(s)
  {
  }

  /** Printing a shape and reading the printed name back gives the same shape, whatever
      the variable held before. */
  method PrintThenRead(s: Shape, before: Shape) returns (result: Shape)
    ensures result == s
  {
    result := ReadShape(ShapeName(s), before);
    DecodeMeaning(ShapeName(s), before);
  }

  /** The leg height is accepted unless it is below 25 cm or above 90 cm. */
  predicate LegHeightAccepted(height: real): (ok: bool)
    ensures ok <==> 25.0 <= height <= 90.0
  {
    !(height < 25.0 || height > 90.0)
  }

  /** A plot shape is accepted unless it is neither RECTANGLE nor OVAL. */
  predicate PlotShapeAccepted(s: Shape): (ok: bool)
    ensures ok <==> s == Rectangle || s == Oval
    ensures ok <==> Ordinal(s) <= 1
  {
    !(s != Rectangle && s != Oval)
  }

  /** A leg shape is accepted unless it is none of RECTANGLE, CIRCLE and SQUARE. */
  predicate LegShapeAccepted(s: Shape): (ok: bool)
    ensures ok <==> s == Rectangle || s == Circle || s == Square
    ensures !ok <==> s == Oval || s == Triangle
  {
    !(s != Rectangle && s != Circle && s != Square)
  }

  /** The re-prompt loop for the leg height over the numbers typed in: it stops at the
      first accepted one.  `used` is how many numbers were read; it equals |inputs|
      with nothing accepted when the input runs out. */
  method PromptLegHeight(inputs: seq<real>) returns (used: nat, height: real)
    requires |inputs| > 0
    ensures 1 <= used <= |inputs| && height == inputs[used - 1]
    ensures forall j :: 0 <= j < used - 1 ==> !LegHeightAccepted(inputs[j])
    ensures used < |inputs| ==> LegHeightAccepted(height)
  {
    height := inputs[0];
    used := 1;
    while (height < 25.0 || height > 90.0) && used < |inputs|
      invariant 1 <= used <= |inputs| && height == inputs[used - 1]
      invariant forall j :: 0 <= j < used - 1 ==> !LegHeightAccepted(inputs[j])
    {
      height := inputs[used];
      used := used + 1;
    }
  }

  /** The re-prompt loop for a shape over the tokens typed in.  Every token goes through
      `ReadShape`, so an unrecognised token keeps the previous value; the loop stops as
      soon as the value is accepted for the plot (`forPlot`) or for the legs. */
  method PromptShape(tokens: seq<string>, initial: Shape, forPlot: bool) returns (used: nat, shape: Shape)
    requires |tokens| > 0
    ensures 1 <= used <= |tokens|
    ensures shape == Replay(tokens[..used], initial)
    ensures forall j :: 1 <= j < used ==> !Accepted(Replay(tokens[..j], initial), forPlot)
    ensures used < |tokens| ==> Accepted(shape, forPlot)
  {
    shape := ReadShape(tokens[0], initial);
    used := 1;
    assert tokens[..1] == [tokens[0]];
    while !Accepted(shape, forPlot) && used < |tokens|
      invariant 1 <= used <= |tokens|
      invariant shape == Replay(tokens[..used], initial)
      invariant forall j :: 1 <= j < used ==> !Accepted(Replay(tokens[..j], initial), forPlot)
    {
      ReplayStep(tokens, used, initial);
      shape := ReadShape(tokens[used], shape);
      used := used + 1;
    }
  }

  function Accepted(s: Shape, forPlot: bool): bool {
    if forPlot then PlotShapeAccepted(s) else LegShapeAccepted(s)
  }

  /** The value of the shape variable after reading `tokens` one by one into it. */
  function Replay(tokens: seq<string>, initial: Shape): Shape {
    if tokens == [] then initial
    else
      var prior := Replay(tokens[..|tokens| - 1], initial);
      Decode(tokens[|tokens| - 1], prior)
  }

  lemma ReplayStep(tokens: seq<string>, n: nat, initial: Shape)
    requires n < |tokens|
    ensures Replay(tokens[..n + 1], initial) == Decode(tokens[n], Replay(tokens[..n], initial))
  {
    assert tokens[..n + 1][..n] == tokens[..n];
  }

  /** The value `ReadShape` leaves.  The chain of tests in `ReadShape` lets a later
      match win; since no token names two shapes the order does not matter. */
  function Decode(token: string, prior: Shape): Shape {
    if token in TokensOf(Square) then Square
    else if token in TokensOf(Triangle) then Triangle
    else if token in TokensOf(Circle) then Circle
    else if token in TokensOf(Oval) then Oval
    else if token in TokensOf(Rectangle) then Rectangle
    else prior
  }

  /** A token of shape t is read as t; any other token leaves the prior value. */
  lemma DecodeMeaning(token: string, prior: Shape)
    ensures forall t :: token in TokensOf(t) ==> Decode(token, prior) == t
    ensures (forall t :: token !in TokensOf(t)) ==> Decode(token, prior) == prior
  {
  }
}
