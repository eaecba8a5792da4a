# A verified model of the BILD parser

The parser reads the subset of the BILD scene format written by the sequence
design tools. Each line is split on whitespace and dispatched on its first token:

- `.color` sets the colour cursor, either by name or by three numbers in [0, 1];
- `.sphere`, `.cylinder` and `.arrow` append a record, with the cursor's colour
  and with their coordinates multiplied by the scale factor;
- any other token with a leading dot is tallied as an unknown keyword;
- every other line is kept as it is, as a comment line.

The accumulator `OutputDecorations` interns each colour under its space-joined
key. Three generators derive geometry from the records:

- `cylindersFromArrows` gives each arrow's cylindrical shaft;
- `conesFromArrows` gives each arrow's conical head;
- `allVertices` gives every vertex the records name.

The model is written in Dafny, in these modules:

- `Tokens` models `str.split()` (with Python's whitespace set) and `' '.join`.
- `Records` holds the record types and how one directive's arguments become a
  record or a colour, including every way that can fail.
- `Decorations` holds the class `OutputDecorations`, whose `add*` methods update
  its fields in place. Each method is proved to do exactly what a value-level
  function (`WithColor`, `WithSphere`, …) does to those fields.
- `BildParser` holds the parse loop `ParseBildFile`, proved to compute the fold
  `ParseLines` of one-line steps. Lemmas state what a finished parse contains.
- `Tallies` holds the keyword-count map and its total.
- `Geometry` holds `cylindersFromArrows`, `conesFromArrows` and `allVertices`
  as functions of the record lists.
- `BildExample` works one six-line document through the whole parse.

A Python exception is an `Err` of `ParseError`. Python builds each record or
colour before it stores anything, so a directive that fails leaves the
accumulator unchanged, and the parse stops at the first failing line. The
errors are:

- a blank line (`tokens[0]` raises);
- a token `float()` rejects; the first one is reported, as Python evaluates
  the arguments left to right (for `.arrow` lines this is the order of
  CPython 3.9 and later; see below);
- a record or colour given the wrong number of values;
- an `.arrow` line with fewer than nine numbers (`tokens[8]` raises).

`float()` and the colour-name table come from outside the module. They are the
parameters `toFloat` and `colorTable` of a `Context`. The file's lines are given
as a sequence of strings.

The documentation says an arrow's `r1`, `r2` and `rho` are optional and default
to 0.1, 0.4 and 0.75. The code disagrees: `addArrow` reads `tokens[8]` whatever
the line's length, so those defaults can never apply, and a short `.arrow` line
is an error. The model follows the code. The code also multiplies only the
first eight arrow numbers by the scale factor; `rho` is a fraction and is not
scaled.

## Model

| member | source | states |
|---|---|---|
| Tokens.SplitYieldsWords | src/athena/bildparser.py:92 | every token `split()` returns is non-empty and holds no whitespace |
| Tokens.SplitBlank | src/athena/bildparser.py:92-93 | `split()` returns no tokens exactly when the line is all whitespace, which is when `tokens[0]` fails |
| Tokens.SplitKeepsLetters | src/athena/bildparser.py:92 | the tokens, concatenated, are the line's non-whitespace characters in order: nothing is lost, nothing is reordered |
| Tokens.SplitJoin | src/athena/bildparser.py:33 | splitting the space-joined tokens gives those tokens back |
| Tokens.JoinInjective | src/athena/bildparser.py:33-34 | two token lists share a colour key exactly when they are the same list, so keys never collide |
| Records.ScaledFloats | src/athena/bildparser.py:42 | succeeds exactly when `float()` accepts every token; then element i is the i-th number times the factor; otherwise the error names the first rejected token |
| Records.RejectsAfterNumber | src/athena/bildparser.py:42 | a rejected token found after an accepted first token is still the first rejected token of the whole list |
| Records.ResolveColor | src/athena/bildparser.py:35-38 | a key in the colour-name table yields the table's colour; otherwise it succeeds exactly for three numbers, each multiplied by 255; a bad number or another arity is an error |
| Records.MakeSphere | src/athena/bildparser.py:41-42 | succeeds exactly for four numbers; then it is the cursor's colour and the four numbers times the scale; otherwise the first bad token or the arity is reported |
| Records.MakeCylinder | src/athena/bildparser.py:44-45 | the same for seven numbers |
| Records.MakeArrow | src/athena/bildparser.py:47-48 | succeeds exactly when there are at least nine tokens and the first nine are numbers; the first eight are scaled and `rho` is not; fewer than nine tokens is always an error; a bad number among the first eight is reported before a missing ninth token; a bad `rho` is reported as itself |
| Records.ArrowIgnoresExtraTokens | src/athena/bildparser.py:48 | tokens after the ninth never affect an arrow |
| Decorations.WithColor | src/athena/bildparser.py:32-39 | a known key only moves the cursor to its colour; a new key is added, with the resolved colour, exactly when it resolves; the table only grows and the cursor ends on the key's entry; on failure the key was new and the error is the resolver's |
| Decorations.ColorInterned | src/athena/bildparser.py:34-39 | once a key is in the table, the same tokens again select the same colour and leave the table unchanged, whatever came in between |
| Decorations.WithSphere | src/athena/bildparser.py:41-42 | succeeds exactly when the sphere builds; appends it with the cursor's colour and changes nothing else; on failure reports the builder's error |
| Decorations.WithCylinder | src/athena/bildparser.py:44-45 | the same for a cylinder |
| Decorations.WithArrow | src/athena/bildparser.py:47-48 | the same for an arrow |
| Decorations.OutputDecorations.constructor | src/athena/bildparser.py:24-30 | no colours, no cursor, empty record lists, the given scale factor |
| Decorations.OutputDecorations.AddColor | src/athena/bildparser.py:32-39 | changes only the colour table and cursor, exactly as `WithColor`; on error returns it and changes nothing |
| Decorations.OutputDecorations.AddSphere | src/athena/bildparser.py:41-42 | changes only the sphere list, exactly as `WithSphere` |
| Decorations.OutputDecorations.AddCylinder | src/athena/bildparser.py:44-45 | changes only the cylinder list, exactly as `WithCylinder` |
| Decorations.OutputDecorations.AddArrow | src/athena/bildparser.py:47-48 | changes only the arrow list, exactly as `WithArrow` |
| Tallies.SumBump | src/athena/bildparser.py:103-104 | incrementing one keyword's count adds exactly one to the total of all counts |
| BildParser.StepChangesOnePart | src/athena/bildparser.py:92-106 | a blank line fails; unknown-keyword and comment lines never fail; a line changes only the part its keyword selects; a record line appends one record and keeps the earlier ones; an unknown keyword's count goes up by one; a comment line is appended unchanged |
| BildParser.ParseFromNoBlank | src/athena/bildparser.py:92-93 | a parse that succeeds read no blank line |
| BildParser.ParseFromRecords | src/athena/bildparser.py:94-101 | a parse adds one sphere, cylinder or arrow per line of that kind |
| BildParser.ParseFromColors | src/athena/bildparser.py:32-39 | colour entries are never changed or dropped; at most one is added per `.color` line; the cursor changes only if a `.color` line was read, and is then set |
| BildParser.ParseFromOthers | src/athena/bildparser.py:105-106 | the comment lines are exactly the lines with no leading dot, as tokens, in file order |
| BildParser.StepColorKeys | src/athena/bildparser.py:33-39 | a successful `.color` line adds its space-joined key to the table's keys, whether or not it was already there; no other line changes the keys |
| BildParser.ParseFromColorKeys | src/athena/bildparser.py:33-39 | after a parse, the colour table's keys are exactly the starting keys plus the keys of the `.color` lines read |
| BildParser.ParseFromUnknownKeys | src/athena/bildparser.py:102-104 | after a parse, the unknown-keyword map's keys are exactly the starting keys plus the unknown keywords read: no directive and no plain word is ever a key |
| BildParser.ParseFromUnknown | src/athena/bildparser.py:102-104 | each unknown keyword's count rises by the number of lines it starts, and the total by the number of unknown-keyword lines |
| BildParser.ParseCounts | src/athena/bildparser.py:86-109 | after a whole file: no line was blank; one record per record line; no more colours than `.color` lines; the cursor is unset exactly when no `.color` line was read; unknown counts plus comment lines account for every line of those two kinds |
| BildParser.EveryLineCounted | src/athena/bildparser.py:93-106 | in a file with no blank line, the six kinds of line together number all the lines, so unknown-keyword and comment lines are the lines that are not directives |
| BildParser.OtherLinesCount | src/athena/bildparser.py:105-106 | one comment line per line without a leading dot |
| BildParser.ParseFromAt | src/athena/bildparser.py:91-106 | the rest of the parse from line i is one step on line i, then the parse from line i + 1, unless that step fails |
| BildParser.DispatchLine | src/athena/bildparser.py:93-106 | the `if` chain on the first token does to the accumulator and both tallies exactly what one step of `ParseLines` does, or returns that step's error |
| BildParser.ParseBildFile | src/athena/bildparser.py:86-109 | fails exactly when `ParseLines` fails, with the same error; otherwise returns a new accumulator whose fields, unknown-keyword map and comment lines are `ParseLines`'s result |
| BildParser.SummaryOfParse | src/athena/bildparser.py:50-55 | the counts `debugSummary` reports after a parse: records per record line; the unique colours are exactly the number of distinct `.color` keys (so at most the number of `.color` lines); comment lines; the unknown-keyword map has exactly the unknown keywords read as keys, each with its line count |
| Geometry.ShaftMeetsHead | src/athena/bildparser.py:58-73 | an arrow's shaft ends exactly at its head's base |
| Geometry.CylindersFromArrows | src/athena/bildparser.py:58-64 | one shaft per arrow, in order, from the arrow's start to `rho` of the way to its end |
| Geometry.ConesFromArrows | src/athena/bildparser.py:66-73 | one head per arrow, in order, from `1 - rho` of the way back from the end up to the end |
| Geometry.ArrowDecomposition | src/athena/bildparser.py:58-73 | the i-th shaft and head keep the i-th arrow's colour, start and `r1`, and end and `r2`, and meet end to base |
| Geometry.AllVertices | src/athena/bildparser.py:75-83 | sphere centres, then both ends of each cylinder, then both ends of each arrow, with their count and positions |
| BildExample.LineTokens | src/athena/bildparser.py:92 | each line of the example document splits back into its words |
| BildExample.ExampleDocument | src/athena/bildparser.py:86-109 | a six-line document at scale 2 gives the red sphere of radius 2, the grey (127.5) cylinder to (2, 2, 2) of radius 0.4, two colours, one `.foo` and one comment line |

## Left out

- Reading the file: `open` and iteration over lines are replaced by a sequence of lines, and `split()` drops the newline as whitespace anyway.
- `float()` is the parameter `toFloat`. Its string syntax and IEEE rounding are not modelled, and numbers are exact reals.
- `QVector3D` stores single-precision floats. The generators here compute in exact reals.
- The colour-name table `colorTable.colors` is the parameter `colorTable`. Its contents are not part of this model.
- Records.ResolveColor: three parts of `QColor(*args)` are not modelled: its conversion to integer channels; a channel outside 0–255, which leaves the `QColor` invalid (Qt does not clamp); and its 0-, 1- and 4-argument forms. A numeric colour must be three numbers, and any other count is an error. A named colour is whatever the table holds.
- Decorations.OutputDecorations.DebugSummary: returns the counts `debugSummary` formats, not the formatted text. Python's constructor does not create `unknown_keyword_map` or `other_line_list`; only `parseBildFile` assigns them. So `debugSummary` on an object the parser has not filled raises AttributeError. The model's constructor sets both to empty, and `DebugSummary` then returns counts instead of failing.
- The insertion order of the `colors` dictionary and of `unknown_keyword_map` is not modelled, because Dafny maps are unordered.
- The arrow record's defaults for `r1`, `r2` and `rho` are left out, because `addArrow` never lets them apply.
- `cylindersFromArrows`, `conesFromArrows` and `allVertices` are lazy generators over `self`. They are modelled as functions of the record lists that return the whole sequence.
- Records.MakeArrow: the order of its errors is CPython 3.9's and later's, where the starred generator in `Arrow(color, *(...), float(tokens[8]))` is drained before `float(tokens[8])` runs. CPython 3.7 and 3.8 evaluate `float(tokens[8])` first (the module needs 3.7 or later, for `namedtuple`'s `defaults`), so there `.arrow x 2 3 4 5 6 7 8` raises IndexError rather than reporting `x`, and a bad ninth token is reported before a bad earlier one.
- BildParser.ParseBildFile: the default `scale_factor = 1.0` has no counterpart; callers pass the factor explicitly.
- Exceptions are `Err` values that stop the parse. Python's exception types and messages are not modelled.
