/**
 * The records a BILD file describes, and how one directive's argument tokens
 * become a colour or a record: every token goes through `float()`, coordinates
 * and radii are multiplied by the scale factor, colour channels by 255.
 */
module Records {
  import opened Wrappers
  import Tokens

  /** The three channels of a colour (a `QColor` reduced to plain numbers). */
  datatype Rgb = Rgb(r: real, g: real, b: real)

  /**
   * The records of the file. `color` is the cursor at the time the record was
   * read, which is `None` before the first `.color` line.
   */
  datatype Sphere = Sphere(color: Option<Rgb>, x: real, y: real, z: real, r: real)
  datatype Cylinder = Cylinder(color: Option<Rgb>, x1: real, y1: real, z1: real, x2: real, y2: real, z2: real, r: real)
  /** Never read from a file: only derived from an arrow's head. */
  datatype Cone = Cone(color: Option<Rgb>, x1: real, y1: real, z1: real, x2: real, y2: real, z2: real, r: real)
  datatype Arrow = Arrow(color: Option<Rgb>, x1: real, y1: real, z1: real, x2: real, y2: real, z2: real,
                         r1: real, r2: real, rho: real)

  /**
   * Why a parse aborts. `EmptyLine` and `MissingToken` are Python's IndexError,
   * `NotAFloat` its ValueError from `float()`, `WrongArity` the TypeError a record
   * constructor raises when it is given the wrong number of values.
   */
  datatype ParseError =
    | EmptyLine
    | NotAFloat(token: string)
    | WrongArity(record: string, given: nat)
    | MissingToken(index: nat)

  /** What the parser uses from outside: the colour-name table and `float()` on one token. */
  datatype Context = Context(colorTable: map<string, Rgb>, toFloat: string -> Option<real>)

  predicate AllFloats(tokens: seq<string>, toFloat: string -> Option<real>) {
    forall i :: 0 <= i < |tokens| ==> toFloat(tokens[i]).Some?
  }

  /** `tokens[i]` is the first token `float()` rejects. */
  predicate FirstNonFloat(tokens: seq<string>, toFloat: string -> Option<real>, i: int) {
    && 0 <= i < |tokens|
    && toFloat(tokens[i]).None?
    && forall j :: 0 <= j < i ==> toFloat(tokens[j]).Some?
  }

  /** `e` is the ValueError raised by the first token of `tokens` that is not a number. */
  ghost predicate RejectsFirstNonFloat(tokens: seq<string>, toFloat: string -> Option<real>, e: ParseError) {
    exists i :: 0 <= i < |tokens| && FirstNonFloat(tokens, toFloat, i) && e == NotAFloat(tokens[i])
  }

  lemma RejectsAfterNumber(tokens: seq<string>, toFloat: string -> Option<real>, e: ParseError)
    requires tokens != [] && toFloat(tokens[0]).Some?
    requires RejectsFirstNonFloat(tokens[1..], toFloat, e)
    ensures RejectsFirstNonFloat(tokens, toFloat, e)
  {
  }

  /**
   * `[float(x) * factor for x in tokens]`, evaluated left to right, so that the
   * first token that is not a number is the one reported.
   */
  function ScaledFloats(tokens: seq<string>, toFloat: string -> Option<real>, factor: real): (r: Result<seq<real>, ParseError>)
    ensures r.Ok? <==> AllFloats(tokens, toFloat)
    ensures r.Ok? ==> |r.value| == |tokens|
    ensures r.Ok? ==> forall i :: 0 <= i < |tokens| ==> r.value[i] == toFloat(tokens[i]).value * factor
    ensures r.Err? ==> RejectsFirstNonFloat(tokens, toFloat, r.error)
  {
    if tokens == [] then Ok([])
    else match toFloat(tokens[0])
      case None =>
        assert FirstNonFloat(tokens, toFloat, 0);
        Err(NotAFloat(tokens[0]))
      case Some(v) =>
        match ScaledFloats(tokens[1..], toFloat, factor)
        case Err(e) =>
          RejectsAfterNumber(tokens, toFloat, e);
          Err(e)
        case Ok(vs) =>
          Ok([v * factor] + vs)
  }

  /**
   * The colour a `.color` line's arguments denote: the colour-name table's entry
   * for the space-joined key when there is one, otherwise three numbers in
   * [0, 1] each multiplied by 255.
   */
  function ResolveColor(tokens: seq<string>, ctx: Context): (r: Result<Rgb, ParseError>)
    ensures Tokens.Join(tokens) in ctx.colorTable ==> r == Ok(ctx.colorTable[Tokens.Join(tokens)])
    ensures Tokens.Join(tokens) !in ctx.colorTable ==>
              (r.Ok? <==> |tokens| == 3 && AllFloats(tokens, ctx.toFloat))
    ensures Tokens.Join(tokens) !in ctx.colorTable && r.Ok? ==>
              r.value == Rgb(ctx.toFloat(tokens[0]).value * 255.0,
                             ctx.toFloat(tokens[1]).value * 255.0,
                             ctx.toFloat(tokens[2]).value * 255.0)
    ensures Tokens.Join(tokens) !in ctx.colorTable && !AllFloats(tokens, ctx.toFloat) ==>
              r.Err? && RejectsFirstNonFloat(tokens, ctx.toFloat, r.error)
    ensures Tokens.Join(tokens) !in ctx.colorTable && AllFloats(tokens, ctx.toFloat) && |tokens| != 3 ==>
              r == Err(WrongArity("QColor", |tokens|))
  {
    var key := Tokens.Join(tokens);
    if key in ctx.colorTable then Ok(ctx.colorTable[key])
    else match ScaledFloats(tokens, ctx.toFloat, 255.0)
      case Err(e) => Err(e)
      case Ok(v) => if |v| == 3 then Ok(Rgb(v[0], v[1], v[2])) else Err(WrongArity("QColor", |v|))
  }

  /** `Sphere(color, *(float(x) * scale for x in tokens))`. */
  function MakeSphere(color: Option<Rgb>, scale: real, tokens: seq<string>, toFloat: string -> Option<real>): (r: Result<Sphere, ParseError>)
    ensures r.Ok? <==> |tokens| == 4 && AllFloats(tokens, toFloat)
    ensures r.Ok? ==>
              r.value == Sphere(color, toFloat(tokens[0]).value * scale, toFloat(tokens[1]).value * scale,
                                toFloat(tokens[2]).value * scale, toFloat(tokens[3]).value * scale)
    ensures !AllFloats(tokens, toFloat) ==> r.Err? && RejectsFirstNonFloat(tokens, toFloat, r.error)
    ensures AllFloats(tokens, toFloat) && |tokens| != 4 ==> r == Err(WrongArity("Sphere", |tokens|))
  {
    match ScaledFloats(tokens, toFloat, scale)
    case Err(e) => Err(e)
    case Ok(v) => if |v| == 4 then Ok(Sphere(color, v[0], v[1], v[2], v[3])) else Err(WrongArity("Sphere", |v|))
  }

  /** `Cylinder(color, *(float(x) * scale for x in tokens))`. */
  function MakeCylinder(color: Option<Rgb>, scale: real, tokens: seq<string>, toFloat: string -> Option<real>): (r: Result<Cylinder, ParseError>)
    ensures r.Ok? <==> |tokens| == 7 && AllFloats(tokens, toFloat)
    ensures r.Ok? ==>
              r.value == Cylinder(color, toFloat(tokens[0]).value * scale, toFloat(tokens[1]).value * scale,
                                  toFloat(tokens[2]).value * scale, toFloat(tokens[3]).value * scale,
                                  toFloat(tokens[4]).value * scale, toFloat(tokens[5]).value * scale,
                                  toFloat(tokens[6]).value * scale)
    ensures !AllFloats(tokens, toFloat) ==> r.Err? && RejectsFirstNonFloat(tokens, toFloat, r.error)
    ensures AllFloats(tokens, toFloat) && |tokens| != 7 ==> r == Err(WrongArity("Cylinder", |tokens|))
  {
    match ScaledFloats(tokens, toFloat, scale)
    case Err(e) => Err(e)
    case Ok(v) =>
      if |v| == 7 then Ok(Cylinder(color, v[0], v[1], v[2], v[3], v[4], v[5], v[6]))
      else Err(WrongArity("Cylinder", |v|))
  }

  /**
   * `Arrow(color, *(float(x) * scale for x in tokens[:8]), float(tokens[8]))`:
   * the first eight numbers are scaled, the ninth (rho) is not, and `tokens[8]`
   * is read whether or not it exists, so the optional trailing fields of the
   * record never take their defaults here.
   */
  function MakeArrow(color: Option<Rgb>, scale: real, tokens: seq<string>, toFloat: string -> Option<real>): (r: Result<Arrow, ParseError>)
    ensures r.Ok? <==> |tokens| >= 9 && AllFloats(tokens[..9], toFloat)
    ensures r.Ok? ==>
              r.value == Arrow(color, toFloat(tokens[0]).value * scale, toFloat(tokens[1]).value * scale,
                               toFloat(tokens[2]).value * scale, toFloat(tokens[3]).value * scale,
                               toFloat(tokens[4]).value * scale, toFloat(tokens[5]).value * scale,
                               toFloat(tokens[6]).value * scale, toFloat(tokens[7]).value * scale,
                               toFloat(tokens[8]).value)
    ensures |tokens| < 9 ==> r.Err?
    ensures |tokens| < 9 && AllFloats(tokens, toFloat) ==> r == Err(MissingToken(8))
    ensures |tokens| >= 8 && !AllFloats(tokens[..8], toFloat) ==> RejectsFirstNonFloat(tokens[..8], toFloat, r.error)
    ensures |tokens| < 8 && !AllFloats(tokens, toFloat) ==> RejectsFirstNonFloat(tokens, toFloat, r.error)
    ensures |tokens| >= 9 && AllFloats(tokens[..8], toFloat) && toFloat(tokens[8]).None? ==> r == Err(NotAFloat(tokens[8]))
  {
    var head := if |tokens| < 8 then tokens else tokens[..8];
    match ScaledFloats(head, toFloat, scale)
    case Err(e) => Err(e)
    case Ok(v) =>
      if |tokens| < 9 then Err(MissingToken(8))
      else match toFloat(tokens[8])
        case None => Err(NotAFloat(tokens[8]))
        case Some(rho) => Ok(Arrow(color, v[0], v[1], v[2], v[3], v[4], v[5], v[6], v[7], rho))
  }

  /** Tokens after the ninth are never looked at. */
  lemma ArrowIgnoresExtraTokens(color: Option<Rgb>, scale: real, tokens: seq<string>, toFloat: string -> Option<real>)
    requires |tokens| >= 9
    ensures MakeArrow(color, scale, tokens, toFloat) == MakeArrow(color, scale, tokens[..9], toFloat)
  {
    assert tokens[..9][..8] == tokens[..8];
  }
}
