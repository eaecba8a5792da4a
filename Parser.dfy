/**
 * `parseBildFile`: split each line into tokens, dispatch on the first token,
 * tally unknown dot-keywords, keep every other line's tokens as they are.
 *
 * `Step` and `ParseFrom` say what the loop computes; `ParseBildFile` is the loop,
 * proved to compute it; the lemmas state what a finished parse contains.
 */
module BildParser {
  import opened Wrappers
  import opened Records
  import opened Decorations
  import Tokens
  import opened Tallies

  /** Everything the parse produces: the accumulator's fields and the two loop-local tallies. */
  datatype Parse = Parse(decor: Decor, unknown: map<string, nat>, others: seq<seq<string>>)

  const Initial := Parse(Empty, map[], [])

  /** Which part of the result a line with first token `keyword` goes to, in the order the source tests. */
  datatype Part = ArrowPart | ColorPart | CylinderPart | SpherePart | UnknownPart | OtherPart

  predicate StartsWithDot(t: string) {
    |t| > 0 && t[0] == '.'
  }

  function PartOf(keyword: string): Part {
    if keyword == ".arrow" then ArrowPart
    else if keyword == ".color" then ColorPart
    else if keyword == ".cylinder" then CylinderPart
    else if keyword == ".sphere" then SpherePart
    else if StartsWithDot(keyword) then UnknownPart
    else OtherPart
  }

  function WithDecor(p: Parse, r: Result<Decor, ParseError>): Result<Parse, ParseError> {
    match r
    case Ok(d) => Ok(p.(decor := d))
    case Err(e) => Err(e)
  }

  /** One pass of the loop body on an already split line. */
  function Step(p: Parse, tokens: seq<string>, scale: real, ctx: Context): Result<Parse, ParseError> {
    if |tokens| == 0 then Err(EmptyLine)
    else
      var args := tokens[1..];
      match PartOf(tokens[0])
      case ArrowPart => WithDecor(p, WithArrow(p.decor, scale, args, ctx.toFloat))
      case ColorPart => WithDecor(p, WithColor(p.decor, args, ctx))
      case CylinderPart => WithDecor(p, WithCylinder(p.decor, scale, args, ctx.toFloat))
      case SpherePart => WithDecor(p, WithSphere(p.decor, scale, args, ctx.toFloat))
      case UnknownPart => Ok(p.(unknown := Bump(p.unknown, tokens[0])))
      case OtherPart => Ok(p.(others := p.others + [tokens]))
  }

  /** The loop from state `p` over `lines`; the first error aborts the whole parse. */
  function ParseFrom(p: Parse, lines: seq<string>, scale: real, ctx: Context): Result<Parse, ParseError>
    decreases |lines|
  {
    if lines == [] then Ok(p)
    else match Step(p, Tokens.Split(lines[0]), scale, ctx)
      case Err(e) => Err(e)
      case Ok(q) => ParseFrom(q, lines[1..], scale, ctx)
  }

  function ParseLines(lines: seq<string>, scale: real, ctx: Context): Result<Parse, ParseError> {
    ParseFrom(Initial, lines, scale, ctx)
  }

  /** `p` and `q` agree on every part of the result except `part`. */
  predicate SameExcept(p: Parse, q: Parse, part: Part) {
    && (part != ColorPart ==> q.decor.colors == p.decor.colors && q.decor.current == p.decor.current)
    && (part != SpherePart ==> q.decor.spheres == p.decor.spheres)
    && (part != CylinderPart ==> q.decor.cylinders == p.decor.cylinders)
    && (part != ArrowPart ==> q.decor.arrows == p.decor.arrows)
    && (part != UnknownPart ==> q.unknown == p.unknown)
    && (part != OtherPart ==> q.others == p.others)
  }

  /**
   * Each line changes one part of the result: the colours and cursor, one record
   * list (by one record at its end), one unknown keyword's count (by one), or the
   * other-lines list (by the line's own tokens). A blank line is an error, and
   * unknown keywords and other lines never fail.
   */
  lemma StepChangesOnePart(p: Parse, tokens: seq<string>, scale: real, ctx: Context)
    ensures tokens == [] ==> Step(p, tokens, scale, ctx) == Err(EmptyLine)
    ensures tokens != [] && PartOf(tokens[0]) in {UnknownPart, OtherPart} ==> Step(p, tokens, scale, ctx).Ok?
    ensures Step(p, tokens, scale, ctx).Ok? ==>
              var q, part := Step(p, tokens, scale, ctx).value, PartOf(tokens[0]);
              && SameExcept(p, q, part)
              && (part == SpherePart ==> |q.decor.spheres| == |p.decor.spheres| + 1 && q.decor.spheres[..|p.decor.spheres|] == p.decor.spheres)
              && (part == CylinderPart ==> |q.decor.cylinders| == |p.decor.cylinders| + 1 && q.decor.cylinders[..|p.decor.cylinders|] == p.decor.cylinders)
              && (part == ArrowPart ==> |q.decor.arrows| == |p.decor.arrows| + 1 && q.decor.arrows[..|p.decor.arrows|] == p.decor.arrows)
              && (part == UnknownPart ==> q.unknown == Bump(p.unknown, tokens[0]))
              && (part == OtherPart ==> q.others == p.others + [tokens])
  {
  }

  // ----- Counting what a parse read -----

  /** The number of lines whose first token sends them to `part`. */
  function CountPart(lines: seq<string>, part: Part): nat {
    if lines == [] then 0
    else
      var ts := Tokens.Split(lines[0]);
      (if ts != [] && PartOf(ts[0]) == part then 1 else 0) + CountPart(lines[1..], part)
  }

  /** The number of lines whose first token is exactly `keyword`. */
  function CountKeyword(lines: seq<string>, keyword: string): nat {
    if lines == [] then 0
    else
      var ts := Tokens.Split(lines[0]);
      (if ts != [] && ts[0] == keyword then 1 else 0) + CountKeyword(lines[1..], keyword)
  }

  /** The token lists of the lines that start with no dot, in order. */
  function OtherLines(lines: seq<string>): seq<seq<string>> {
    if lines == [] then []
    else
      var ts := Tokens.Split(lines[0]);
      (if ts != [] && PartOf(ts[0]) == OtherPart then [ts] else []) + OtherLines(lines[1..])
  }

  /** The colour keys (space-joined arguments) of the `.color` lines. */
  function ColorKeys(lines: seq<string>): set<string> {
    if lines == [] then {}
    else
      var ts := Tokens.Split(lines[0]);
      (if ts != [] && PartOf(ts[0]) == ColorPart then {Tokens.Join(ts[1..])} else {}) + ColorKeys(lines[1..])
  }

  /** The first tokens of the unknown-keyword lines. */
  function UnknownKeys(lines: seq<string>): set<string> {
    if lines == [] then {}
    else
      var ts := Tokens.Split(lines[0]);
      (if ts != [] && PartOf(ts[0]) == UnknownPart then {ts[0]} else {}) + UnknownKeys(lines[1..])
  }

  /** The state after the first line, when that line parses. */
  function After(p: Parse, lines: seq<string>, scale: real, ctx: Context): Parse
    requires lines != [] && Step(p, Tokens.Split(lines[0]), scale, ctx).Ok?
  {
    Step(p, Tokens.Split(lines[0]), scale, ctx).value
  }

  /** A parse that succeeds read no blank line. */
  lemma {:induction false} ParseFromNoBlank(p: Parse, lines: seq<string>, scale: real, ctx: Context)
    requires ParseFrom(p, lines, scale, ctx).Ok?
    ensures forall i :: 0 <= i < |lines| ==> Tokens.Split(lines[i]) != []
    decreases |lines|
  {
    if lines != [] {
      ParseFromNoBlank(After(p, lines, scale, ctx), lines[1..], scale, ctx);
      forall i | 1 <= i < |lines| ensures Tokens.Split(lines[i]) != [] {
        assert lines[i] == lines[1..][i - 1];
      }
    }
  }

  /** One record per `.sphere`, `.cylinder` and `.arrow` line. */
  lemma {:induction false} ParseFromRecords(p: Parse, lines: seq<string>, scale: real, ctx: Context)
    requires ParseFrom(p, lines, scale, ctx).Ok?
    ensures var q := ParseFrom(p, lines, scale, ctx).value;
            && |q.decor.spheres| == |p.decor.spheres| + CountPart(lines, SpherePart)
            && |q.decor.cylinders| == |p.decor.cylinders| + CountPart(lines, CylinderPart)
            && |q.decor.arrows| == |p.decor.arrows| + CountPart(lines, ArrowPart)
    decreases |lines|
  {
    if lines != [] {
      StepChangesOnePart(p, Tokens.Split(lines[0]), scale, ctx);
      ParseFromRecords(After(p, lines, scale, ctx), lines[1..], scale, ctx);
    }
  }

  /**
   * Colour entries are never changed or dropped, at most one is added per
   * `.color` line, and the cursor is set once a `.color` line was read.
   */
  lemma {:induction false} ParseFromColors(p: Parse, lines: seq<string>, scale: real, ctx: Context)
    requires ParseFrom(p, lines, scale, ctx).Ok?
    ensures var q := ParseFrom(p, lines, scale, ctx).value;
            && Extends(q.decor.colors, p.decor.colors)
            && |q.decor.colors| <= |p.decor.colors| + CountPart(lines, ColorPart)
            && (CountPart(lines, ColorPart) == 0 ==> q.decor.current == p.decor.current)
            && (CountPart(lines, ColorPart) > 0 ==> q.decor.current.Some?)
    decreases |lines|
  {
    if lines != [] {
      var tokens := Tokens.Split(lines[0]);
      StepChangesOnePart(p, tokens, scale, ctx);
      var p' := After(p, lines, scale, ctx);
      ParseFromColors(p', lines[1..], scale, ctx);
      if PartOf(tokens[0]) == ColorPart {
        assert |p'.decor.colors| <= |p.decor.colors| + 1;
        assert p'.decor.current.Some?;
      }
    }
  }

  /** A `.color` line adds its key to the table's keys (if it was not there); other lines leave the keys alone. */
  lemma StepColorKeys(p: Parse, tokens: seq<string>, scale: real, ctx: Context)
    requires Step(p, tokens, scale, ctx).Ok?
    ensures Step(p, tokens, scale, ctx).value.decor.colors.Keys
            == p.decor.colors.Keys + (if tokens != [] && PartOf(tokens[0]) == ColorPart then {Tokens.Join(tokens[1..])} else {})
  {
    StepChangesOnePart(p, tokens, scale, ctx);
    if tokens != [] && PartOf(tokens[0]) == ColorPart {
      var key := Tokens.Join(tokens[1..]);
      var q := Step(p, tokens, scale, ctx).value;
      assert q.decor == WithColor(p.decor, tokens[1..], ctx).value;
      if key in p.decor.colors {
        assert q.decor.colors == p.decor.colors;
      } else {
        assert q.decor.colors == p.decor.colors[key := ResolveColor(tokens[1..], ctx).value];
      }
    }
  }

  /** The colour table's keys are the keys it started with plus those of the `.color` lines read. */
  lemma {:induction false} ParseFromColorKeys(p: Parse, lines: seq<string>, scale: real, ctx: Context)
    requires ParseFrom(p, lines, scale, ctx).Ok?
    ensures ParseFrom(p, lines, scale, ctx).value.decor.colors.Keys == p.decor.colors.Keys + ColorKeys(lines)
    decreases |lines|
  {
    if lines != [] {
      StepColorKeys(p, Tokens.Split(lines[0]), scale, ctx);
      ParseFromColorKeys(After(p, lines, scale, ctx), lines[1..], scale, ctx);
    }
  }

  /** The unknown-keyword map's keys are those it started with plus the unknown keywords read. */
  lemma {:induction false} ParseFromUnknownKeys(p: Parse, lines: seq<string>, scale: real, ctx: Context)
    requires ParseFrom(p, lines, scale, ctx).Ok?
    ensures ParseFrom(p, lines, scale, ctx).value.unknown.Keys == p.unknown.Keys + UnknownKeys(lines)
    decreases |lines|
  {
    if lines != [] {
      var tokens := Tokens.Split(lines[0]);
      StepChangesOnePart(p, tokens, scale, ctx);
      var p' := After(p, lines, scale, ctx);
      ParseFromUnknownKeys(p', lines[1..], scale, ctx);
      if tokens != [] && PartOf(tokens[0]) == UnknownPart {
        assert p'.unknown.Keys == p.unknown.Keys + {tokens[0]};
      }
    }
  }

  lemma SeqAssoc<T>(a: seq<T>, b: seq<T>, c: seq<T>)
    ensures a + (b + c) == (a + b) + c
  {
  }

  /** Lines with no leading dot are kept, tokens unchanged, in file order. */
  lemma {:induction false} ParseFromOthers(p: Parse, lines: seq<string>, scale: real, ctx: Context)
    requires ParseFrom(p, lines, scale, ctx).Ok?
    ensures ParseFrom(p, lines, scale, ctx).value.others == p.others + OtherLines(lines)
    decreases |lines|
  {
    if lines != [] {
      var ts := Tokens.Split(lines[0]);
      StepChangesOnePart(p, ts, scale, ctx);
      var p' := After(p, lines, scale, ctx);
      ParseFromOthers(p', lines[1..], scale, ctx);
      var kept := if ts != [] && PartOf(ts[0]) == OtherPart then [ts] else [];
      assert OtherLines(lines) == kept + OtherLines(lines[1..]);
      assert p'.others == p.others + kept;
      SeqAssoc(p.others, kept, OtherLines(lines[1..]));
    }
  }

  /** Each unknown-keyword line adds one to its keyword's count, and so one to the total. */
  lemma {:induction false} ParseFromUnknown(p: Parse, lines: seq<string>, scale: real, ctx: Context)
    requires ParseFrom(p, lines, scale, ctx).Ok?
    ensures var q := ParseFrom(p, lines, scale, ctx).value;
            SumValues(q.unknown) == SumValues(p.unknown) + CountPart(lines, UnknownPart)
    ensures var q := ParseFrom(p, lines, scale, ctx).value;
            forall k :: PartOf(k) == UnknownPart ==> Count(q.unknown, k) == Count(p.unknown, k) + CountKeyword(lines, k)
    decreases |lines|
  {
    if lines != [] {
      var tokens := Tokens.Split(lines[0]);
      StepChangesOnePart(p, tokens, scale, ctx);
      var p' := After(p, lines, scale, ctx);
      ParseFromUnknown(p', lines[1..], scale, ctx);
      if PartOf(tokens[0]) == UnknownPart {
        SumBump(p.unknown, tokens[0]);
      }
    }
  }

  /**
   * After a whole file: the list lengths are the numbers of `.sphere`,
   * `.cylinder` and `.arrow` lines, the unknown-keyword counts and other lines
   * together account for every remaining line, each unknown keyword is counted
   * once per line it starts, and the cursor is still unset exactly when no
   * `.color` line was read.
   */
  lemma ParseCounts(lines: seq<string>, scale: real, ctx: Context)
    requires ParseLines(lines, scale, ctx).Ok?
    ensures forall i :: 0 <= i < |lines| ==> Tokens.Split(lines[i]) != []
    ensures var q := ParseLines(lines, scale, ctx).value;
            && |q.decor.spheres| == CountPart(lines, SpherePart)
            && |q.decor.cylinders| == CountPart(lines, CylinderPart)
            && |q.decor.arrows| == CountPart(lines, ArrowPart)
            && |q.decor.colors| <= CountPart(lines, ColorPart)
            && (q.decor.current.None? <==> CountPart(lines, ColorPart) == 0)
            && q.others == OtherLines(lines)
            && SumValues(q.unknown) + |q.others| == CountPart(lines, UnknownPart) + CountPart(lines, OtherPart)
            && forall k :: PartOf(k) == UnknownPart ==> Count(q.unknown, k) == CountKeyword(lines, k)
  {
    ParseFromNoBlank(Initial, lines, scale, ctx);
    ParseFromRecords(Initial, lines, scale, ctx);
    ParseFromColors(Initial, lines, scale, ctx);
    ParseFromOthers(Initial, lines, scale, ctx);
    ParseFromUnknown(Initial, lines, scale, ctx);
    OtherLinesCount(lines);
    assert SumValues(map[]) == 0;
  }

  /** Every line of a blank-free file is of exactly one of the six kinds. */
  lemma {:induction false} EveryLineCounted(lines: seq<string>)
    requires forall i :: 0 <= i < |lines| ==> Tokens.Split(lines[i]) != []
    ensures CountPart(lines, ArrowPart) + CountPart(lines, ColorPart) + CountPart(lines, CylinderPart)
            + CountPart(lines, SpherePart) + CountPart(lines, UnknownPart) + CountPart(lines, OtherPart) == |lines|
  {
    if lines != [] {
      assert forall i :: 0 <= i < |lines[1..]| ==> lines[1..][i] == lines[i + 1];
      EveryLineCounted(lines[1..]);
    }
  }

  lemma {:induction false} OtherLinesCount(lines: seq<string>)
    ensures |OtherLines(lines)| == CountPart(lines, OtherPart)
  {
    if lines != [] {
      OtherLinesCount(lines[1..]);
    }
  }

  /** Unfolds the loop once at line `i`. */
  lemma ParseFromAt(p: Parse, lines: seq<string>, i: nat, scale: real, ctx: Context)
    requires i < |lines|
    ensures var r := Step(p, Tokens.Split(lines[i]), scale, ctx);
            ParseFrom(p, lines[i..], scale, ctx) == if r.Err? then Err(r.error) else ParseFrom(r.value, lines[i + 1..], scale, ctx)
  {
  }

  /** The loop body after the blank-line test: dispatch on the first token, as `Step` says. */
  method DispatchLine(results: OutputDecorations, tokens: seq<string>, ctx: Context,
                      unknown: map<string, nat>, others: seq<seq<string>>)
    returns (err: Option<ParseError>, unknown': map<string, nat>, others': seq<seq<string>>)
    requires |tokens| > 0
    modifies results
    ensures Step(Parse(old(results.State()), unknown, others), tokens, results.scaleFactor, ctx)
            == if err.None? then Ok(Parse(results.State(), unknown', others')) else Err(err.value)
    ensures results.unknownKeywordMap == old(results.unknownKeywordMap) && results.otherLineList == old(results.otherLineList)
  {
    ghost var before := Parse(results.State(), unknown, others);
    ghost var expected := Step(before, tokens, results.scaleFactor, ctx);
    var token0 := tokens[0];
    err, unknown', others' := None, unknown, others;
    if token0 == ".arrow" {
      assert expected == WithDecor(before, WithArrow(before.decor, results.scaleFactor, tokens[1..], ctx.toFloat));
      err := results.AddArrow(tokens[1..], ctx);
    } else if token0 == ".color" {
      assert expected == WithDecor(before, WithColor(before.decor, tokens[1..], ctx));
      err := results.AddColor(tokens[1..], ctx);
    } else if token0 == ".cylinder" {
      assert expected == WithDecor(before, WithCylinder(before.decor, results.scaleFactor, tokens[1..], ctx.toFloat));
      err := results.AddCylinder(tokens[1..], ctx);
    } else if token0 == ".sphere" {
      assert expected == WithDecor(before, WithSphere(before.decor, results.scaleFactor, tokens[1..], ctx.toFloat));
      err := results.AddSphere(tokens[1..], ctx);
    } else if StartsWithDot(token0) {
      unknown' := Bump(unknown, token0);
    } else {
      others' := others + [tokens];
    }
  }

  /** The parse loop: fails with the first error, otherwise returns the filled accumulator. */
  method ParseBildFile(lines: seq<string>, scaleFactor: real, ctx: Context) returns (res: Result<OutputDecorations, ParseError>)
    ensures ParseLines(lines, scaleFactor, ctx).Err? ==> res == Err(ParseLines(lines, scaleFactor, ctx).error)
    ensures ParseLines(lines, scaleFactor, ctx).Ok? ==>
              var p := ParseLines(lines, scaleFactor, ctx).value;
              && res.Ok? && fresh(res.value)
              && res.value.scaleFactor == scaleFactor
              && res.value.State() == p.decor
              && res.value.unknownKeywordMap == p.unknown
              && res.value.otherLineList == p.others
  {
    var results := new OutputDecorations(scaleFactor);
    var unknownKeywordMap: map<string, nat> := map[];
    var otherLineList: seq<seq<string>> := [];
    var i := 0;
    while i < |lines|
      invariant 0 <= i <= |lines|
      invariant fresh(results) && results.scaleFactor == scaleFactor
      invariant ParseFrom(Parse(results.State(), unknownKeywordMap, otherLineList), lines[i..], scaleFactor, ctx)
                == ParseLines(lines, scaleFactor, ctx)
    {
      var tokens := Tokens.Split(lines[i]);
      ParseFromAt(Parse(results.State(), unknownKeywordMap, otherLineList), lines, i, scaleFactor, ctx);
      if |tokens| == 0 {
        return Err(EmptyLine);
      }
      var err;
      err, unknownKeywordMap, otherLineList := DispatchLine(results, tokens, ctx, unknownKeywordMap, otherLineList);
      if err.Some? {
        return Err(err.value);
      }
      i := i + 1;
    }
    results.unknownKeywordMap := unknownKeywordMap;
    results.otherLineList := otherLineList;
    res := Ok(results);
  }

  /**
   * What `debugSummary` reports for a parsed file: one sphere, cylinder or arrow
   * per such line, at most one new colour per `.color` line, one comment line
   * per line without a leading dot, and each unknown keyword's line count.
   */
  lemma SummaryOfParse(o: OutputDecorations, lines: seq<string>, scale: real, ctx: Context)
    requires ParseLines(lines, scale, ctx).Ok?
    requires var p := ParseLines(lines, scale, ctx).value;
             o.State() == p.decor && o.unknownKeywordMap == p.unknown && o.otherLineList == p.others
    ensures var s := o.DebugSummary();
            && s.spheres == CountPart(lines, SpherePart)
            && s.cylinders == CountPart(lines, CylinderPart)
            && s.arrows == CountPart(lines, ArrowPart)
            && s.colors == |ColorKeys(lines)| <= CountPart(lines, ColorPart)
            && s.otherLines == CountPart(lines, OtherPart)
            && s.unknownKeywords.Keys == UnknownKeys(lines)
            && forall k :: PartOf(k) == UnknownPart ==> Count(s.unknownKeywords, k) == CountKeyword(lines, k)
  {
    ParseCounts(lines, scale, ctx);
    OtherLinesCount(lines);
    ParseFromColorKeys(Initial, lines, scale, ctx);
    ParseFromUnknownKeys(Initial, lines, scale, ctx);
    assert o.colors.Keys == ColorKeys(lines);
  }
}
