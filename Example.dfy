/**
 * A small document worked through the parse specification: colour by name, colour
 * by numbers, a sphere, a cylinder, an unknown directive and a plain line, at
 * scale 2.
 */
module BildExample {
  import opened Wrappers
  import opened Records
  import opened Decorations
  import opened BildParser
  import Tokens

  /** The document's lines as the words `split()` should give back. */
  const Words: seq<seq<string>> := [
    [".color", "red"],
    [".sphere", "0", "0", "0", "1"],
    [".color", "0.5", "0.5", "0.5"],
    [".cylinder", "0", "0", "0", "1", "1", "1", "0.2"],
    [".foo", "bar", "baz"],
    ["loose", "text", "here"]
  ]

  /** The document: each line is its words joined by single spaces. */
  const Lines: seq<string> := [
    Tokens.Join(Words[0]), Tokens.Join(Words[1]), Tokens.Join(Words[2]),
    Tokens.Join(Words[3]), Tokens.Join(Words[4]), Tokens.Join(Words[5])
  ]

  /** Printable ASCII other than the space. */
  predicate Printable(w: string) {
    |w| > 0 && forall i :: 0 <= i < |w| ==> '!' <= w[i] <= '~'
  }

  lemma PrintableIsWord(w: string)
    requires Printable(w)
    ensures Tokens.IsWord(w)
  {
  }

  /** Every line of the document splits back into its words. */
  lemma LineTokens(i: nat)
    requires i < |Lines|
    ensures Tokens.Split(Lines[i]) == Words[i]
  {
    var ws := Words[i];
    assert forall j :: 0 <= j < |ws| ==> Printable(ws[j]);
    forall j | 0 <= j < |ws|
      ensures Tokens.IsWord(ws[j])
    {
      PrintableIsWord(ws[j]);
    }
    Tokens.SplitJoin(ws);
  }

  /** The colour table knows "red" but not the grey key, and `float()` reads the numbers used. */
  predicate ExampleContext(ctx: Context, red: Rgb) {
    && "red" in ctx.colorTable && ctx.colorTable["red"] == red
    && "0.5 0.5 0.5" !in ctx.colorTable
    && ctx.toFloat("0") == Some(0.0) && ctx.toFloat("1") == Some(1.0)
    && ctx.toFloat("0.2") == Some(0.2) && ctx.toFloat("0.5") == Some(0.5)
  }

  const Grey := Rgb(127.5, 127.5, 127.5)

  function State1(red: Rgb): Parse { Parse(Decor(map["red" := red], Some(red), [], [], []), map[], []) }
  function State2(red: Rgb): Parse {
    var p := State1(red); p.(decor := p.decor.(spheres := [Sphere(Some(red), 0.0, 0.0, 0.0, 2.0)]))
  }
  function State3(red: Rgb): Parse {
    var p := State2(red); p.(decor := p.decor.(colors := map["red" := red, "0.5 0.5 0.5" := Grey], current := Some(Grey)))
  }
  function State4(red: Rgb): Parse {
    var p := State3(red); p.(decor := p.decor.(cylinders := [Cylinder(Some(Grey), 0.0, 0.0, 0.0, 2.0, 2.0, 2.0, 0.4)]))
  }
  function State5(red: Rgb): Parse { State4(red).(unknown := map[".foo" := 1]) }
  function State6(red: Rgb): Parse { State5(red).(others := [["loose", "text", "here"]]) }

  /** The keywords of the document dispatch as the source's `if` chain does. */
  lemma Dispatch()
    ensures PartOf(".color") == ColorPart && PartOf(".sphere") == SpherePart
    ensures PartOf(".cylinder") == CylinderPart && PartOf(".foo") == UnknownPart
    ensures PartOf("loose") == OtherPart
  {
  }

  /** Line 1: the colour is looked up by name and becomes current. */
  lemma ColorByName(ctx: Context, red: Rgb)
    requires ExampleContext(ctx, red)
    ensures Step(Initial, [".color", "red"], 2.0, ctx) == Ok(State1(red))
  {
  }

  /** Line 2: the sphere takes the current colour and its numbers are doubled. */
  lemma SphereLine(ctx: Context, red: Rgb)
    requires ExampleContext(ctx, red)
    ensures Step(State1(red), [".sphere", "0", "0", "0", "1"], 2.0, ctx) == Ok(State2(red))
  {
    Dispatch();
    var args := ["0", "0", "0", "1"];
    assert [".sphere", "0", "0", "0", "1"][1..] == args;
    assert AllFloats(args, ctx.toFloat);
    var sphere := Sphere(Some(red), 0.0, 0.0, 0.0, 2.0);
    assert MakeSphere(Some(red), 2.0, args, ctx.toFloat) == Ok(sphere);
    assert [] + [sphere] == [sphere];
    assert WithSphere(State1(red).decor, 2.0, args, ctx.toFloat) == Ok(State2(red).decor);
  }

  /** Line 3: an unknown numeric colour is scaled to 0..255 and interned. */
  lemma ColorByNumbers(ctx: Context, red: Rgb)
    requires ExampleContext(ctx, red)
    ensures Step(State2(red), [".color", "0.5", "0.5", "0.5"], 2.0, ctx) == Ok(State3(red))
  {
    Dispatch();
    assert Tokens.Join(["0.5", "0.5", "0.5"]) == "0.5 0.5 0.5";
    assert ResolveColor(["0.5", "0.5", "0.5"], ctx) == Ok(Grey);
  }

  /** The cylinder's numbers are all read and doubled. */
  lemma GreyCylinder(ctx: Context, red: Rgb)
    requires ExampleContext(ctx, red)
    ensures MakeCylinder(Some(Grey), 2.0, ["0", "0", "0", "1", "1", "1", "0.2"], ctx.toFloat)
            == Ok(Cylinder(Some(Grey), 0.0, 0.0, 0.0, 2.0, 2.0, 2.0, 0.4))
  {
  }

  /** Line 4: the cylinder takes the grey colour. */
  lemma CylinderLine(ctx: Context, red: Rgb)
    requires ExampleContext(ctx, red)
    ensures Step(State3(red), [".cylinder", "0", "0", "0", "1", "1", "1", "0.2"], 2.0, ctx) == Ok(State4(red))
  {
    Dispatch();
    GreyCylinder(ctx, red);
    var args := ["0", "0", "0", "1", "1", "1", "0.2"];
    assert [".cylinder", "0", "0", "0", "1", "1", "1", "0.2"][1..] == args;
    var cylinder := Cylinder(Some(Grey), 0.0, 0.0, 0.0, 2.0, 2.0, 2.0, 0.4);
    assert [] + [cylinder] == [cylinder];
    assert WithCylinder(State3(red).decor, 2.0, args, ctx.toFloat) == Ok(State4(red).decor);
  }

  /** Lines 5 and 6: an unknown directive is tallied and a plain line is kept. */
  lemma UnknownAndOtherLines(ctx: Context, red: Rgb)
    requires ExampleContext(ctx, red)
    ensures Step(State4(red), [".foo", "bar", "baz"], 2.0, ctx) == Ok(State5(red))
    ensures Step(State5(red), ["loose", "text", "here"], 2.0, ctx) == Ok(State6(red))
  {
    Dispatch();
    var plain := ["loose", "text", "here"];
    assert [] + [plain] == [plain];
  }

  /**
   * The document gives one sphere of the table's red at the origin with radius
   * 2, one grey (127.5 per channel) cylinder from the origin to (2, 2, 2) with
   * radius 0.4, two colours, one `.foo` and the plain line's three tokens.
   */
  lemma ExampleDocument(ctx: Context, red: Rgb)
    requires ExampleContext(ctx, red)
    ensures ParseLines(Lines, 2.0, ctx) == Ok(Parse(
              Decor(map["red" := red, "0.5 0.5 0.5" := Grey], Some(Grey),
                    [Sphere(Some(red), 0.0, 0.0, 0.0, 2.0)],
                    [Cylinder(Some(Grey), 0.0, 0.0, 0.0, 2.0, 2.0, 2.0, 0.4)],
                    []),
              map[".foo" := 1],
              [["loose", "text", "here"]]))
  {
    LineTokens(0); LineTokens(1); LineTokens(2); LineTokens(3); LineTokens(4); LineTokens(5);
    ColorByName(ctx, red);
    SphereLine(ctx, red);
    ColorByNumbers(ctx, red);
    CylinderLine(ctx, red);
    UnknownAndOtherLines(ctx, red);
    assert Lines[0..] == Lines;
    ParseFromAt(Initial, Lines, 0, 2.0, ctx);
    ParseFromAt(State1(red), Lines, 1, 2.0, ctx);
    ParseFromAt(State2(red), Lines, 2, 2.0, ctx);
    ParseFromAt(State3(red), Lines, 3, 2.0, ctx);
    ParseFromAt(State4(red), Lines, 4, 2.0, ctx);
    ParseFromAt(State5(red), Lines, 5, 2.0, ctx);
    assert Lines[6..] == [];
  }
}
