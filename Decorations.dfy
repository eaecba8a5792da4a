/**
 * The accumulator `OutputDecorations`: an interned colour table, the colour
 * cursor and the three record lists, changed one directive at a time.
 *
 * `Decor` is the value of the fields the `add*` methods change; the `With*`
 * functions say what each method does to that value, and the class methods are
 * proved to do exactly that to their fields.
 */
module Decorations {
  import opened Wrappers
  import opened Records
  import Tokens

  datatype Decor = Decor(colors: map<string, Rgb>, current: Option<Rgb>,
                         spheres: seq<Sphere>, cylinders: seq<Cylinder>, arrows: seq<Arrow>)

  /** A fresh accumulator: no colours, no cursor, no records. */
  const Empty := Decor(map[], None, [], [], [])

  /** Every entry of `small` is in `big`, with the same colour. */
  predicate Extends(big: map<string, Rgb>, small: map<string, Rgb>) {
    forall k :: k in small ==> k in big && big[k] == small[k]
  }

  /**
   * `addColor`: the key is the space-joined tokens. A key already in the table is
   * reused as it is; a new key is resolved and added. Either way the cursor then
   * holds the key's colour. The record lists never change.
   */
  function WithColor(d: Decor, tokens: seq<string>, ctx: Context): (r: Result<Decor, ParseError>)
    ensures var key := Tokens.Join(tokens);
            key in d.colors ==> r == Ok(d.(current := Some(d.colors[key])))
    ensures var key := Tokens.Join(tokens);
            key !in d.colors ==> (r.Ok? <==> ResolveColor(tokens, ctx).Ok?)
    ensures var key := Tokens.Join(tokens);
            key !in d.colors && r.Ok? ==>
              && r.value.colors == d.colors[key := ResolveColor(tokens, ctx).value]
              && |r.value.colors| == |d.colors| + 1
    ensures r.Ok? ==>
              && Extends(r.value.colors, d.colors)
              && Tokens.Join(tokens) in r.value.colors
              && r.value.current == Some(r.value.colors[Tokens.Join(tokens)])
              && r.value.spheres == d.spheres && r.value.cylinders == d.cylinders && r.value.arrows == d.arrows
    ensures r.Err? ==> Tokens.Join(tokens) !in d.colors && r.error == ResolveColor(tokens, ctx).error
  {
    var key := Tokens.Join(tokens);
    if key in d.colors then Ok(d.(current := Some(d.colors[key])))
    else match ResolveColor(tokens, ctx)
      case Err(e) => Err(e)
      case Ok(c) => Ok(d.(colors := d.colors[key := c], current := Some(c)))
  }

  /**
   * Interning: once a `.color` line's key has been resolved, the same tokens met
   * again, with that entry still in the table, select the same colour and leave
   * the table as it is, whatever was parsed in between.
   */
  lemma ColorInterned(d: Decor, e: Decor, tokens: seq<string>, ctx: Context)
    requires WithColor(d, tokens, ctx).Ok?
    requires Extends(e.colors, WithColor(d, tokens, ctx).value.colors)
    ensures WithColor(e, tokens, ctx) == Ok(e.(current := WithColor(d, tokens, ctx).value.current))
  {
  }

  /** `addSphere`: one sphere, built with the cursor's colour, appended; nothing else changes. */
  function WithSphere(d: Decor, scale: real, tokens: seq<string>, toFloat: string -> Option<real>): (r: Result<Decor, ParseError>)
    ensures r.Ok? <==> MakeSphere(d.current, scale, tokens, toFloat).Ok?
    ensures r.Ok? ==> r.value == d.(spheres := d.spheres + [MakeSphere(d.current, scale, tokens, toFloat).value])
    ensures r.Ok? ==> r.value.spheres[|d.spheres|].color == d.current
    ensures r.Err? ==> r.error == MakeSphere(d.current, scale, tokens, toFloat).error
  {
    match MakeSphere(d.current, scale, tokens, toFloat)
    case Err(e) => Err(e)
    case Ok(s) => Ok(d.(spheres := d.spheres + [s]))
  }

  /** `addCylinder`: one cylinder, built with the cursor's colour, appended; nothing else changes. */
  function WithCylinder(d: Decor, scale: real, tokens: seq<string>, toFloat: string -> Option<real>): (r: Result<Decor, ParseError>)
    ensures r.Ok? <==> MakeCylinder(d.current, scale, tokens, toFloat).Ok?
    ensures r.Ok? ==> r.value == d.(cylinders := d.cylinders + [MakeCylinder(d.current, scale, tokens, toFloat).value])
    ensures r.Ok? ==> r.value.cylinders[|d.cylinders|].color == d.current
    ensures r.Err? ==> r.error == MakeCylinder(d.current, scale, tokens, toFloat).error
  {
    match MakeCylinder(d.current, scale, tokens, toFloat)
    case Err(e) => Err(e)
    case Ok(c) => Ok(d.(cylinders := d.cylinders + [c]))
  }

  /** `addArrow`: one arrow, built with the cursor's colour, appended; nothing else changes. */
  function WithArrow(d: Decor, scale: real, tokens: seq<string>, toFloat: string -> Option<real>): (r: Result<Decor, ParseError>)
    ensures r.Ok? <==> MakeArrow(d.current, scale, tokens, toFloat).Ok?
    ensures r.Ok? ==> r.value == d.(arrows := d.arrows + [MakeArrow(d.current, scale, tokens, toFloat).value])
    ensures r.Ok? ==> r.value.arrows[|d.arrows|].color == d.current
    ensures r.Err? ==> r.error == MakeArrow(d.current, scale, tokens, toFloat).error
  {
    match MakeArrow(d.current, scale, tokens, toFloat)
    case Err(e) => Err(e)
    case Ok(a) => Ok(d.(arrows := d.arrows + [a]))
  }

  /**
   * A method that ran `r`: on success it returned no error and its fields now
   * hold `r`'s value; on failure it returned the error and changed nothing
   * (Python builds the record or colour before it stores anything).
   */
  predicate Performed(r: Result<Decor, ParseError>, before: Decor, err: Option<ParseError>, after: Decor) {
    match r
    case Ok(d) => err == None && after == d
    case Err(e) => err == Some(e) && after == before
  }

  /** The counts `debugSummary` reports. */
  datatype Summary = Summary(colors: nat, spheres: nat, cylinders: nat, arrows: nat,
                             unknownKeywords: map<string, nat>, otherLines: nat)

  class OutputDecorations {
    const scaleFactor: real
    /** Colour key (the space-joined tokens of a `.color` line) to its colour. */
    var colors: map<string, Rgb>
    var currentColor: Option<Rgb>
    var spheres: seq<Sphere>
    var cylinders: seq<Cylinder>
    var arrows: seq<Arrow>
    /** Filled in by the parser once the whole file has been read. */
    var unknownKeywordMap: map<string, nat>
    var otherLineList: seq<seq<string>>

    function State(): Decor
      reads this
    {
      Decor(colors, currentColor, spheres, cylinders, arrows)
    }

    constructor (scaleFactor: real)
      ensures this.scaleFactor == scaleFactor
      ensures State() == Empty
      ensures unknownKeywordMap == map[] && otherLineList == []
    {
      this.scaleFactor := scaleFactor;
      colors := map[];
      currentColor := None;
      spheres, cylinders, arrows := [], [], [];
      unknownKeywordMap := map[];
      otherLineList := [];
    }

    method AddColor(tokens: seq<string>, ctx: Context) returns (err: Option<ParseError>)
      modifies this`colors, this`currentColor
      ensures Performed(WithColor(old(State()), tokens, ctx), old(State()), err, State())
    {
      var colorKey := Tokens.Join(tokens);
      if colorKey !in colors {
        var c := ResolveColor(tokens, ctx);
        if c.Err? {
          return Some(c.error);
        }
        colors := colors[colorKey := c.value];
      }
      currentColor := Some(colors[colorKey]);
      err := None;
    }

    method AddSphere(tokens: seq<string>, ctx: Context) returns (err: Option<ParseError>)
      modifies this`spheres
      ensures Performed(WithSphere(old(State()), scaleFactor, tokens, ctx.toFloat), old(State()), err, State())
    {
      var s := MakeSphere(currentColor, scaleFactor, tokens, ctx.toFloat);
      if s.Err? {
        return Some(s.error);
      }
      spheres := spheres + [s.value];
      err := None;
    }

    method AddCylinder(tokens: seq<string>, ctx: Context) returns (err: Option<ParseError>)
      modifies this`cylinders
      ensures Performed(WithCylinder(old(State()), scaleFactor, tokens, ctx.toFloat), old(State()), err, State())
    {
      var c := MakeCylinder(currentColor, scaleFactor, tokens, ctx.toFloat);
      if c.Err? {
        return Some(c.error);
      }
      cylinders := cylinders + [c.value];
      err := None;
    }

    method AddArrow(tokens: seq<string>, ctx: Context) returns (err: Option<ParseError>)
      modifies this`arrows
      ensures Performed(WithArrow(old(State()), scaleFactor, tokens, ctx.toFloat), old(State()), err, State())
    {
      var a := MakeArrow(currentColor, scaleFactor, tokens, ctx.toFloat);
      if a.Err? {
        return Some(a.error);
      }
      arrows := arrows + [a.value];
      err := None;
    }

    /** `debugSummary` without its text formatting. */
    function DebugSummary(): Summary
      reads this
    {
      Summary(|colors|, |spheres|, |cylinders|, |arrows|, unknownKeywordMap, |otherLineList|)
    }
  }
}
