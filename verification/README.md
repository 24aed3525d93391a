# A verified model of the C reader and writer for the drawing format

The program stores drawings in a small SVG-like text format: an `<svg>`
root with a viewport, then ellipses, rectangles, lines, multilines,
polygons, paths (tag `draw`) and groups. Each shape carries a style made
of fill, outline, translate and rotate. This project models, in Dafny,
the C core that reads and writes that format:

- the character cursor (`serde.c`);
- the primitive and parameter parsers (`parser.c`);
- the style, path and shape parsers;
- the pretty-printing writers;
- the document model with its list operations;
- the small utilities, plus the filename check of the Rust port.

It then proves what the code promises about them.

How the model is built:

- **Cursor.** The cursor is an immutable record over the whole input
  (`Serde.Cursor`). It holds:
  - the index of the next character;
  - the line and column, both counted from 0;
  - the last character read, or `Eof`, which every parser uses as its
    lookahead.
- **Parsers.** Every parser is a pure function from a cursor to
  `Parsed<T>`. That is either `Ok(value, cursor)` or
  `Fail(Error(kind, line, column))`, and the error location is reported
  1-based, as `print_serdelizer_error` does.
- **Writers.** Every writer is a function returning the text it writes.
- **Integers.** C `int` arithmetic is modelled explicitly:
  - `CInt.Int32` is the range of a 32-bit int;
  - `CInt.Wrap32` is the two's-complement wrap of `result * 10 + digit`.
    Signed overflow is undefined behaviour in C, so this models a build
    whose arithmetic wraps, the common outcome, not a promise of the language;
  - `CInt.CRem360` is C's truncating `% 360`.
- **Lists.** The doubly-linked lists are sequences. The list operations
  reproduce the C index rules, including their quirks.

The main theorem is `DocumentRoundTrip.DeserializeExport`. For every
document in the readable fragment, reading back the text `export_svg`
writes succeeds and yields `ReadBackSvg(doc)`. The readable fragment is
non-negative numbers, no groups, non-empty point lists, and paths ending
in `Z`. `DeserializeExportThen` extends this: any text after the closing
`svg>` is left unread. `DeserializeExportExact` states exactly when the
document comes back unchanged:

- the outline equals the fill, because the writer writes the fill colour
  under `outline`;
- every rotation is already reduced;
- every ellipse has equal radii, because the writer swaps them.

Where the C code and the program's own design notes disagree, the model
follows the code:

- **List insertion.** The notes say that inserting at index k (with
  0 ≤ k ≤ length) places the element at k. The C code places it at k + 1
  for 1 ≤ k < length, and refuses k = length. `NodeList.InsertAt` states
  the code's behaviour.
- **Negative coordinates.** The notes describe them as signed integers.
  The code refuses `-5` in an int parameter and reads the point
  coordinate `-12` as 8.
- **Default colour.** It is opaque black (0, 0, 0, 255), as `color.c` sets
  it, although `color.h` documents a transparent black (0, 0, 0, 0).

The module `Divergences` collects one lemma per behaviour of the code
that departs from what the format evidently intends. Each lemma exhibits
the behaviour on a concrete family of inputs:

- the overflow guard of `parse_int` misses a wrap: from 1000000000,
  one more `0` wraps to 1410065408, which the guard lets through;
- the closing quote of a path whose last command ends in a number is
  swallowed, so `data="M 1 2"/>` is refused;
- a group written by the writer, closed by `<group/>`, is refused by the
  group parser;
- any character other than `<` in place of `</` ends the shapes, so `xsvg>`
  closes a document;
- a `-` inside a points list is skipped, so `-5 3` reads as the point (5, 3);
- negative rotate, H and V operands are refused.

Three more live with the operations they concern:

- `ShapeList.CloneEllipseLosesRadius`: `clone_shape` copies `center_y`
  into `radius_y`;
- `Utils.StrictPositiveAcceptsZero`: the guard lets 0 through, and only 0
  among the inputs it should refuse;
- `StyleExport.OutlineNotWritten`: the outline colour never reaches the
  output.

## Model

| member | source | states |
|---|---|---|
| CInt.Wrap32 | C/serde/deserialize/parser.c:124-126 | the int a 32-bit register holds after `result * 10 + digit`: in range, congruent to the exact value modulo 2^32, and equal to it when it fits |
| CInt.CRem360 | C/models/styles/rotate.c:19-24 | C's `% 360` truncates toward zero: the result has magnitude below 360, the sign of the operand, and differs from it by a multiple of 360 |
| CInt.CRem360Unique | C/models/styles/rotate.c:19-24 | those three properties determine the remainder: any value with them is `CRem360(a)` |
| CInt.CRem360Idempotent | C/models/styles/rotate.c:19-24 | reducing an already reduced degree changes nothing |
| Utils.Min | C/utils/utils.c:3-7 | the result is one of the two arguments and no larger than either |
| Utils.Max | C/utils/utils.c:9-13 | the result is one of the two arguments and no smaller than either |
| Utils.MinMaxSplit | C/utils/utils.c:3-13 | min ≤ max, and together they are the two arguments again, as a multiset |
| Utils.StrictPositiveAcceptsZero | C/utils/utils.c:15 | `must_be_strict_positive` (`Utils.MustBeStrictPositive`) accepts 0, and 0 is the only input on which it disagrees with n > 0 |
| Filename.IsValidFilename | Rust/src/utils.rs:125-166 | empty names are refused with their own error; a valid name is non-empty, at most 255 UTF-8 bytes, has no forbidden character, starts and ends with neither `.` nor whitespace, and is no reserved device name in any case |
| Filename.ValidIffAcceptable | Rust/src/utils.rs:125-166 | a name is valid if and only if it passes every rule of the independent rule-by-rule definition `Acceptable` |
| Filename.FirstFailingRuleWins | Rust/src/utils.rs:125-166 | each error is reported only when every rule checked before it passed: empty, reserved, forbidden character, end, start, length |
| Filename.ReservedAnyCase | Rust/src/utils.rs:131-137 | `con` and `Lpt7` are reserved, whatever their case |
| Filename.ExtensionIsNotReserved | Rust/src/utils.rs:131-137 | `con.txt` is valid: only the whole name is compared against the device names |
| Filename.AsciiUpperString | Rust/src/utils.rs:131-137 | upper-casing keeps the length and upper-cases each ASCII letter in place |
| Filename.HasForbiddenChar | Rust/src/utils.rs:140-143 | true exactly when some character is one of `\ / : * ? " < > \|` |
| Filename.Utf8Length | Rust/src/utils.rs:156-158 | the byte length lies between the character count and four times it |
| Filename.AsciiUtf8Length | Rust/src/utils.rs:156-158 | for ASCII text the byte length is the character count |
| Serde.NewSerdelizer | C/serde/serde.c:7-14 | a fresh cursor is at line 0, position 0, has `'\0'` as its last character and the whole text unread |
| Serde.WhitespaceIsExactlyFour | C/serde/serde.c:16-26 | whitespace is exactly space, tab, line feed and carriage return |
| Serde.NextChar | C/serde/serde.c:28-41 | reading records the next character, or `Eof` at the end, and consumes one character; a line feed starts a new line at position 0, anything else advances the position |
| Serde.NextNonWhitespace | C/serde/serde.c:43-48 | the result is the first non-whitespace character or `Eof`; everything skipped is whitespace, and at `Eof` the whole remainder was whitespace |
| Serde.SkipWhitespace | C/serde/serde.c:43-48 | on whitespace `w` followed by `c`, the read stops on `c` with exactly the text after `c` left |
| Serde.WriteSpaces | C/serde/serde.c:50-59 | exactly n spaces, and none for n ≤ 0 |
| Serde.WriteToFile | C/serde/serde.c:61-66 | a non-empty string is appended verbatim; writing `""` fails |
| Serde.ReportedLocation | C/serde/serde.c:84-88 | errors report line + 1 and position + 1 |
| Serde.LineAndPositionCount | C/serde/serde.c:28-41 | after n reads, the line is the number of line feeds among the first n characters and the position is the column after them |
| Serde.ReportedAfterReads | C/serde/serde.c:84-88 | an error after n reads is reported at the 1-based line and column of the n-th character |
| Text.DigitValue | C/serde/deserialize/parser.c:40-47 | a digit's value is below 10 and writes back as the same digit |
| Text.HexValue | C/serde/deserialize/parser.c:49-96 | a hex digit's value is below 16 and agrees with the decimal value on digits; letters in either case map to 10..15 |
| Text.HexValueOfHexChar | C/serde/deserialize/parser.c:49-96 | reading a written hex digit gives back its value |
| Text.IntToString | C/serde/serialize/export.c:34-45 | `%d`: a non-negative number is written as digits whose decimal value is the number; a negative one as `-` and the digits of its magnitude |
| Text.HornerDecimal | C/serde/serialize/export.c:34-45 | reading the decimal digits of n gives back n |
| Text.Hex2 | C/serde/serialize/export.c:47-58 | `%02x`: two hex digits whose value is the byte |
| Model.LetterCases | C/serde/serialize/export_path.c:114-162 | each path command has its own letter among M L H V C S Q T Z |
| Model.NewCircular | C/models/styles/rotate.c:19-24 | the stored degree is below 360 in magnitude, keeps the sign of the argument and is congruent to it modulo 360 |
| Model.NewCircularExamples | C/models/styles/rotate.c:19-24 | 370 gives 10, -1 stays -1, -370 gives -10 |
| Model.NewCircularIdempotent | C/models/styles/rotate.c:19-24 | reducing a reduced degree is the identity |
| Model.CloneRotate | C/models/styles/rotate.c:26-39 | the clone has the same variant, is reduced, and equals an already reduced rotation |
| Model.DefaultStyle | C/models/styles/style.c:18-25 | default fill and outline (0, 0, 0, 255), translate (0, 0), rotation `Circular(0)` |
| Model.CloneStyle | C/models/styles/style.c:27-30 | the clone keeps fill, outline and translate, and equals the style when its rotation is reduced |
| NodeList.Push | C/models/utils/point.c:33-55 | the element is appended at the end and every earlier element is kept in place |
| NodeList.Length | C/models/utils/point.c:148-156 | counts the nodes, 0 for the empty list |
| NodeList.Clone | C/models/utils/point.c:23-31 | same length, each element cloned in place |
| NodeList.InsertAt | C/models/utils/point.c:57-104 | refused exactly for a negative index or one ≥ length; index 0 prepends; 1 ≤ k < length inserts after position k |
| NodeList.RemoveAt | C/models/utils/point.c:106-146 | refused exactly for a negative index; a valid k removes element k; k ≥ length leaves the list unchanged |
| PointList.InsertPointAt | C/models/utils/point.c:57-104 | a bad index gives the empty list (NULL); 0 prepends; 1 ≤ k < length puts the point at k + 1 and keeps the rest in order |
| PointList.RemovePointAt | C/models/utils/point.c:106-146 | a valid k removes exactly element k and keeps the rest in order; any other index leaves the list unchanged |
| PointList.InsertThenRemove | C/models/utils/point.c:57-146 | inserting at k, then removing at k + 1 where the point landed, gives back the list |
| PointList.ClonePoint | C/models/utils/point.c:12 | a cloned point equals the original |
| PointList.ClonePointList | C/models/utils/point.c:23-31 | the cloned list is the same sequence of points |
| PathList.ClonePathElement | C/models/shapes/path/path.c:12-52 | the clone has the same command and operands |
| PathList.ClonePathElementList | C/models/shapes/path/path.c:123-131 | same elements in the same order |
| PathList.InsertPathElementAt | C/models/shapes/path/path.c:153-201 | a bad index gives the empty list (NULL); 0 prepends; 1 ≤ k < length puts the element at k + 1 |
| PathList.RemovePathElementAt | C/models/shapes/path/path.c:203-244 | a valid k removes element k; any other index leaves the list unchanged |
| ShapeList.CloneShape | C/models/shapes/shape.c:12-50 | every variant keeps its fields and clones its style, except that an ellipse gets `center_y` as `radius_y`; a group clones each child |
| ShapeList.CloneShapes | C/models/shapes/shape.c:110-118 | same length, each shape cloned in place |
| ShapeList.CloneShapeExact | C/models/shapes/shape.c:12-50 | a clone equals its shape if and only if every rotation in it is reduced and every ellipse has `radius_y == center_y` |
| ShapeList.CloneEllipseLosesRadius | C/models/shapes/shape.c:17 | the ellipse (0, 5, 3, 3) clones to (0, 5, 3, 5) |
| ShapeList.InsertShapeAt | C/models/shapes/shape.c:140-187 | a bad index leaves the list unchanged; 0 prepends; 1 ≤ k < length puts the shape at k + 1 |
| ShapeList.RemoveShapeAt | C/models/shapes/shape.c:189-229 | a negative index gives NULL; k ≥ length leaves the list unchanged; a valid k removes element k |
| Parser.FailAt | C/serde/serde.c:84-88 | a failure carries its kind and the 1-based location of the cursor |
| Parser.NextNonWhitespaceReads | C/serde/serde.c:43-48 | skipping whitespace reads the first character of the non-whitespace projection of the remainder, and leaves the rest of that projection |
| Parser.ConsumeNextChar | C/serde/deserialize/parser.c:10-18 | succeeds exactly when the next non-whitespace character is the expected one |
| Parser.ConsumePattern | C/serde/deserialize/parser.c:20-31 | succeeds exactly when the pattern is a prefix of the remainder with whitespace removed, so whitespace may separate its characters; on success it ends on the pattern's last character |
| Parser.AccumulateDigits | C/serde/deserialize/parser.c:121-139 | the loop stops on a non-digit; with no digit left it returns the seed, negated when negative; an unsigned result is at least the seed |
| Parser.ParseInt | C/serde/deserialize/parser.c:98-140 | fails on `-` with a non-zero seed; with no digit it fails when a digit is required and otherwise returns the seed unread; an unsigned seed gives a non-negative result |
| Parser.ParseHexaByte | C/serde/deserialize/parser.c:142-163 | succeeds exactly on two hex digits (whitespace skipped) and returns 16·hi + lo |
| Parser.HexPair | C/serde/deserialize/parser.c:152-160 | the byte's high and low nibbles are the two digits' values |
| Parser.ParseHexaBytes | C/serde/deserialize/parser.c:225-270 | n bytes are read exactly when 2n hex digits follow, and have those digits' values |
| Parser.ParseColor | C/serde/deserialize/parser.c:225-270 | succeeds exactly on `#` and eight hex digits, giving red, green, blue and alpha in that order |
| Parser.ParseCoordinate | C/serde/deserialize/parser.c:169-190 | a coordinate consumes input and stops on a non-digit |
| Parser.ParsePoint | C/serde/deserialize/parser.c:165-223 | a point consumes input and stops on a non-digit |
| Parser.OpenParameter | C/serde/deserialize/parser.c:276-287 | succeeds exactly when `name="` follows (whitespace skipped) and ends on the quote |
| Parser.CloseQuote | C/serde/deserialize/parser.c:297-315 | accepts a value already ended by `"`; refuses one ended by any other non-whitespace character |
| Parser.ParseIntParameter | C/serde/deserialize/parser.c:272-316 | fails unless `name="` follows; on success ends on the closing quote |
| Parser.ParsePointParameter | C/serde/deserialize/parser.c:352-395 | fails unless `name="` follows; on success ends on the closing quote |
| Parser.ParseColorParameter | C/serde/deserialize/parser.c:318-350 | succeeds exactly on `name="#rrggbbaa"` and returns that colour |
| Parser.PointsStep | C/serde/deserialize/parser.c:417-450 | one character of the points state machine: a point is emitted exactly on whitespace after a complete pair, as (a, b), and resets the state; a character that is neither digit nor whitespace changes nothing |
| Parser.PointsLoop | C/serde/deserialize/parser.c:417-450 | the loop stops on `"` or end of input and only appends points |
| Parser.FinishPoints | C/serde/deserialize/parser.c:452-466 | a pending complete pair is appended; an unpaired coordinate, or no point at all, fails |
| Parser.ParsePointsParameter | C/serde/deserialize/parser.c:397-467 | fails unless `name="` follows; a success holds at least one point |
| Parser.ParseViewport | C/serde/deserialize/parser.c:476-512 | succeeds only on `viewport="` and ends on the closing quote |
| StyleParser.ParseFill | C/serde/deserialize/parse_style.c:30-44 | succeeds exactly when the colour parameter does, and replaces only the fill |
| StyleParser.ParseOutline | C/serde/deserialize/parse_style.c:14-28 | succeeds exactly when the colour parameter does, and replaces only the outline |
| StyleParser.ParseTranslate | C/serde/deserialize/parse_style.c:46-62 | succeeds exactly when the point parameter does, and replaces only the translation |
| StyleParser.ParseRotate | C/serde/deserialize/parse_style.c:64-119 | after `otate="`, `x` or `X` gives FlipX and `y` or `Y` gives FlipY, each accepted exactly when a closing `"` follows; a digit starts a degree, read exactly when `parse_int` succeeds, and the rotation is `new_circular` of the value read, in [0, 360); any other first character fails; only the rotation is replaced |
| StyleParser.ParseStyles | C/serde/deserialize/parse_style.c:121-134 | dispatches `f` `o` `t` `r` to the four parsers and fails on any other character |
| PathParser.UpperCase | C/serde/deserialize/parse_path.c:213-258 | lower-case letters map to upper case, everything else is unchanged |
| PathParser.ParseUnsignedOperand | C/serde/deserialize/parse_path.c:52-65 | an H or V operand is non-negative |
| PathParser.ParseMoveTo | C/serde/deserialize/parse_path.c:10-25 | only on `M`/`m`, giving a move |
| PathParser.ParseLineTo | C/serde/deserialize/parse_path.c:27-42 | only on `L`/`l`, giving a line |
| PathParser.ParseHorizontalLineTo | C/serde/deserialize/parse_path.c:44-68 | only on `H`/`h`, giving a non-negative position |
| PathParser.ParseVerticalLineTo | C/serde/deserialize/parse_path.c:70-94 | only on `V`/`v`, giving a non-negative position |
| PathParser.ParseCubicCurveTo | C/serde/deserialize/parse_path.c:105-139 | only on `C`/`c`, giving a cubic curve |
| PathParser.ParseCubicCurveToShorthand | C/serde/deserialize/parse_path.c:141-166 | only on `S`/`s` |
| PathParser.ParseQuadraticCurveTo | C/serde/deserialize/parse_path.c:168-193 | only on `Q`/`q` |
| PathParser.ParseQuadraticCurveToShorthand | C/serde/deserialize/parse_path.c:195-211 | only on `T`/`t` |
| PathParser.ParseEndOfPath | C/serde/deserialize/parse_path.c:96-103 | succeeds exactly on `Z`/`z`, reads nothing more |
| PathParser.ParsePathElement | C/serde/deserialize/parse_path.c:213-258 | the element's letter is the upper-cased command character; any character outside M L H V Z C S Q T (either case) fails |
| PathParser.ParseCurveElement | C/serde/deserialize/parse_path.c:236-251 | C S Q T lead to the matching curve and nothing else |
| PathParser.PathLoop | C/serde/deserialize/parse_path.c:270-304 | a closing `"` ends the list, which must not be empty; end of input fails; elements are kept in order |
| PathParser.ParsePathElements | C/serde/deserialize/parse_path.c:260-305 | requires `ata="`; a success is a non-empty list ending on the quote |
| ShapeParser.AttributeFor | C/serde/deserialize/parse_shape.c:18-130 | which letters name attributes for each shape kind: x y width height for ellipse and rectangle, start end for line, points for multiline and polygon, data for draw |
| ShapeParser.ParseAttribute | C/serde/deserialize/parse_shape.c:36-82 | a successful attribute consumes input and sets its own field, leaving every other field as it was |
| ShapeParser.BuildShape | C/serde/deserialize/parse_shape.c:93-117 | the shape is built exactly when every required attribute was set, with the current style; otherwise the error names a missing parameter |
| ShapeParser.ShapeLoop | C/serde/deserialize/parse_shape.c:18-130 | the attribute loop ends on the `>` of `/>` and yields a shape of the kind being read |
| ShapeParser.ParseLeaf | C/serde/deserialize/parse_shape.c:132-246 | fails unless the tag suffix follows; a success ends on `>` |
| ShapeParser.ParseEllipse | C/serde/deserialize/parse_shape.c:18-130 | a success is an ellipse |
| ShapeParser.ParseRectangle | C/serde/deserialize/parse_shape.c:132-246 | a success is a rectangle |
| ShapeParser.ParseLine | C/serde/deserialize/parse_shape.c:248-360 | a success is a line |
| ShapeParser.ParseMultiline | C/serde/deserialize/parse_shape.c:362-426 | a success is a multiline |
| ShapeParser.ParsePolygon | C/serde/deserialize/parse_shape.c:428-495 | a success is a polygon |
| ShapeParser.ParsePath | C/serde/deserialize/parse_shape.c:497-563 | a success is a path |
| ShapeParser.ShapeLetterCases | C/serde/deserialize/parse_shape.c:625-656 | each shape variant has its own dispatch letter among e r l m p d g |
| ShapeParser.ParseLeafShape | C/serde/deserialize/parse_shape.c:625-656 | a shape other than a group is read only after its own dispatch letter, and ends on `>` |
| ShapeParser.ParseShape | C/serde/deserialize/parse_shape.c:625-656 | the shape read is the one the dispatch letter names, ending on `>` |
| ShapeParser.GroupHeader | C/serde/deserialize/parse_shape.c:576-591 | the header loop stops on `>` or end of input |
| ShapeParser.GroupChildren | C/serde/deserialize/parse_shape.c:595-612 | children are appended in order until `</` or end of input |
| ShapeParser.ParseGroup | C/serde/deserialize/parse_shape.c:565-623 | a success is a group ending on the `>` of `group>` |
| SvgParser.SvgShapes | C/serde/deserialize/parser.c:539-554 | shapes are appended in order, and the loop stops on a character that is not `<` |
| SvgParser.ParseSvg | C/serde/deserialize/parser.c:514-566 | fails unless `<svg` starts the text; a success ends on `>` |
| SvgParser.Deserialize | C/serde/deserialize/parser.c:514-566 | a success reads the given non-empty text |
| Export.NewExportConfig | C/serde/serialize/export.c:17-30 | NULL exactly when tab_size ≤ 0, otherwise both fields as given |
| Export.Indent | C/serde/serialize/export.c:69-87 | depth·tab_size spaces with line breaks on, nothing otherwise |
| Export.Separator | C/serde/serialize/export.c:60-67 | one whitespace character, a line feed exactly when line breaks are on |
| Export.ExportPoint | C/serde/serialize/export.c:34-45 | `x y` in decimal: digits, signs and one space, at least three characters |
| Export.HexString | C/serde/serialize/export.c:47-58 | two hex digits per byte that read back as the same bytes |
| Export.ExportColor | C/serde/serialize/export.c:47-58 | nine characters, `#` and eight hex digits, that read back as the same colour |
| Export.ExportCloseParameter | C/serde/serialize/export.c:60-67 | a quote and one whitespace character |
| Export.Parameter | C/serde/serialize/export.c:69-87 | indent, `name="`, value, `"`, then the separator |
| Export.ExportPoints | C/serde/serialize/export.c:130-167 | the points in decimal separated by single spaces |
| StyleExport.OutlineNotWritten | C/serde/serialize/export_style.c:18-27 | the text `export_styles` writes does not depend on the outline colour at all: `export_outline` (`StyleExport.ExportOutline`) writes the fill |
| PathExport.ExportPathElement | C/serde/serialize/export_path.c:114-162 | the element's letter, then a space and its operands; `Z` alone |
| PathExport.ExportElements | C/serde/serialize/export_path.c:164-206 | the elements joined by single spaces, starting with the first letter |
| PathExport.ToStringShowsExport | C/models/shapes/path/line_to.c:28-70 | the `*_to_string` text of a move, line, vertical line, horizontal line or end of path (`Model.PathElementToString`) is its label, ` { `, the command exactly as the writer writes it, and ` }` |
| ShapeExport.ExportShape | C/serde/serialize/export_shape.c:197-237 | every shape's text ends in a line feed |
| ShapeExport.ClosedBy | C/serde/serialize/export_shape.c:54-66 | whatever precedes it, the text `export_close_shape` (`ShapeExport.ExportCloseShape`) ends is closed by `<name/>` |
| ShapeExport.GroupClosedInline | C/serde/serialize/export_shape.c:167-195 | `export_group` (`ShapeExport.ExportGroup`) ends a group with `<group/>`, written like an empty element, not with an end tag |
| ValueRoundTrip.ConsumeExact | C/serde/deserialize/parser.c:20-31 | a pattern with no whitespace in it is consumed exactly |
| ValueRoundTrip.AccumulateReads | C/serde/deserialize/parser.c:121-135 | digits whose value fits in an int are accumulated to their decimal value, and the loop stops on the first non-digit |
| ValueRoundTrip.UnsignedReads | C/serde/deserialize/parser.c:98-140 | a written non-negative int reads back as itself |
| ValueRoundTrip.CoordinateReads | C/serde/deserialize/parser.c:169-190 | a written non-negative coordinate reads back as itself |
| ValueRoundTrip.PointReads | C/serde/deserialize/parser.c:165-223 | the text `export_point` writes for a non-negative point reads back as that point |
| ValueRoundTrip.IntParameterReads | C/serde/serialize/export.c:69-87 | the value `export_int_parameter` (`Export.ExportIntParameter`) writes, `name="n"` for n ≥ 0, reads back as n, ending on the quote |
| ValueRoundTrip.PointParameterReads | C/serde/serialize/export.c:109-128 | the value `export_point_parameter` (`Export.ExportPointParameter`) writes for a non-negative point reads back as the point |
| ValueRoundTrip.HexaByteReads | C/serde/deserialize/parser.c:142-163 | a written byte reads back as itself |
| ValueRoundTrip.HexaBytesReads | C/serde/deserialize/parser.c:225-270 | written bytes read back as the same bytes |
| ValueRoundTrip.ColorReads | C/serde/serialize/export.c:47-58 | a written colour reads back as itself |
| ValueRoundTrip.ColorParameterReads | C/serde/serialize/export.c:89-107 | the value `export_color_parameter` (`Export.ExportColorParameter`) writes reads back as the colour |
| PointsRoundTrip.PointsLoopReads | C/serde/deserialize/parser.c:417-450 | the state machine reads written non-negative points one by one, keeping the last pair pending at the quote |
| PointsRoundTrip.PointsParameterReads | C/serde/serialize/export.c:130-167 | the value `export_points_parameter` (`Export.ExportPointsParameter`, through `Export.ExportPoints`) writes for a non-empty list of non-negative points reads back as the same list |
| StyleRoundTrip.ReadStyle | C/serde/serialize/export_style.c:18-27 | the style read back has the fill as both colours and the same translation, and keeps a reduced rotation |
| StyleRoundTrip.FillReads | C/serde/serialize/export_style.c:8-16 | the `fill` that `export_fill` (`StyleExport.ExportFill`) writes reads back into the fill and nothing else |
| StyleRoundTrip.OutlineReads | C/serde/deserialize/parse_style.c:14-28 | a written `outline` reads back into the outline and nothing else |
| StyleRoundTrip.TranslateReads | C/serde/serialize/export_style.c:29-38 | the `translate` that `export_translate` (`StyleExport.ExportTranslate`) writes for a non-negative point reads back |
| StyleRoundTrip.FlipReads | C/serde/serialize/export.c:169-188 | the value `rotate="X"` or `rotate="Y"` that `export_string_parameter` (`Export.ExportStringParameter`) writes for a flip reads back as that flip |
| StyleRoundTrip.DegreeReads | C/serde/deserialize/parse_style.c:105-118 | a written non-negative degree reads back reduced modulo 360 |
| StyleRoundTrip.RotateReads | C/serde/serialize/export_style.c:40-70 | every rotation `export_rotate` (`StyleExport.ExportRotate`) writes without a negative degree reads back as its reduced form |
| StyleRoundTrip.ExportRotateLayout | C/serde/serialize/export_style.c:40-70 | `export_rotate` writes one `rotate` parameter holding `X`, `Y` or the degree |
| PathRoundTrip.PointCommandReads | C/serde/serialize/export_path.c:7-24 | the M and L commands `export_move_to` and `export_line_to` (`PathExport.ExportMoveTo`, `ExportLineTo`) write for a non-negative point read back as the same command |
| PathRoundTrip.LineCommandReads | C/serde/serialize/export_path.c:25-48 | the H and V commands `export_horizontal_line_to` and `export_vertical_line_to` (`PathExport.ExportHorizontalLineTo`, `ExportVerticalLineTo`) write for a non-negative operand read back as the same command |
| PathRoundTrip.CubicReads | C/serde/serialize/export_path.c:58-72 | the C command `export_cubic_curve_to` (`PathExport.ExportCubicCurveTo`) writes reads back with control1, control2, end in order |
| PathRoundTrip.TwoPointCommandReads | C/serde/serialize/export_path.c:73-100 | the S and Q commands `PathExport.ExportCubicCurveToShorthand` and `ExportQuadraticCurveTo` write read back with control, then end |
| PathRoundTrip.ShorthandQuadraticReads | C/serde/serialize/export_path.c:101-113 | the T command `PathExport.ExportQuadraticCurveToShorthand` writes reads back with its end point |
| PathRoundTrip.EndDispatch | C/serde/serialize/export_path.c:49-57 | the `Z` that `export_end_of_path` (`PathExport.ExportEndOfPath`) writes reads as the end of path and consumes nothing more |
| PathRoundTrip.ElementReads | C/serde/serialize/export_path.c:114-162 | every written non-negative element other than Z reads back as itself |
| PathRoundTrip.PathLoopReads | C/serde/deserialize/parse_path.c:270-297 | a written element list ending in Z reads back in order, ending on the quote |
| PathRoundTrip.PathElementsReads | C/serde/serialize/export_path.c:164-206 | the path data `export_path_elements` (`PathExport.ExportPathElements`, through `ExportElements`) writes, ending in Z, reads back as the same list |
| ShapeRoundTrip.StylesStep | C/serde/serialize/export_style.c:72-84 | the four attributes `export_styles` (`StyleExport.ExportStyles`) writes are read into the shape's style as `ReadStyle` says |
| ShapeRoundTrip.CloseStep | C/serde/serialize/export_shape.c:34-52 | the `/>` that `export_inline_close_shape` (`ShapeExport.ExportInlineCloseShape`) writes ends the attribute loop and builds the shape |
| ShapeRoundTrip.FourIntsLoop | C/serde/serialize/export_shape.c:90-108 | the body `export_rectangle` and `export_ellipse` write after the tag sets x, y, width and height |
| ShapeRoundTrip.LineLoop | C/serde/serialize/export_shape.c:110-123 | the body `export_line` writes after the tag sets start and end |
| ShapeRoundTrip.PointListLoop | C/serde/serialize/export_shape.c:125-153 | the body `export_multiline` and `export_polygon` write after the tag sets the points |
| ShapeRoundTrip.PathShapeLoop | C/serde/serialize/export_shape.c:155-165 | the body `export_path` writes after the tag sets the data |
| DocumentRoundTrip.ReadBack | C/serde/serialize/export_shape.c:68-88 | what a written shape reads back as: same kind, the read-back style, and for an ellipse the two radii exchanged |
| DocumentRoundTrip.EllipseLayout | C/serde/serialize/export_shape.c:68-88 | `export_ellipse` (`ShapeExport.ExportEllipse`) writes the rectangle body of (center_x, center_y, radius_y, radius_x): `radius_y` goes under `width` and `radius_x` under `height` |
| DocumentRoundTrip.RectangleLayout | C/serde/serialize/export_shape.c:90-108 | `export_rectangle` (`ShapeExport.ExportRectangle`) writes the tag, then the styles, x, y, width and height in that order, then `/>` |
| DocumentRoundTrip.LineLayout | C/serde/serialize/export_shape.c:110-123 | `export_line` (`ShapeExport.ExportLine`) writes the tag, then the styles, start, end and `/>` |
| DocumentRoundTrip.PointsLayout | C/serde/serialize/export_shape.c:125-153 | `export_multiline` and `export_polygon` (`ShapeExport.ExportMultiline`, `ExportPolygon`) write their tag, then the styles, the points and `/>` |
| DocumentRoundTrip.DrawLayout | C/serde/serialize/export_shape.c:155-165 | `export_path` (`ShapeExport.ExportPath`) writes the tag `draw`, then the styles, the data and `/>` |
| DocumentRoundTrip.ExportShapeLayout | C/serde/serialize/export_shape.c:197-237 | every readable shape is written as `export_shape_name` (`ShapeExport.ExportShapeName`), the body the leaf writer writes, and a line feed |
| DocumentRoundTrip.LeafParse | C/serde/deserialize/parse_shape.c:625-656 | a written shape, after its letter, parses to `ReadBack` of it |
| DocumentRoundTrip.ShapeReads | C/serde/serialize/export_shape.c:197-237 | a written shape, from its `<`, parses to `ReadBack` of it |
| DocumentRoundTrip.ShapesReads | C/serde/deserialize/parser.c:539-554 | the shapes `ShapeExport.ExportShapes` writes, followed by `</`, read back in order, stopping on the `/` |
| DocumentRoundTrip.ViewportReads | C/serde/deserialize/parser.c:476-512 | a written non-negative viewport reads back |
| DocumentRoundTrip.ReadBackSvg | C/serde/deserialize/parser.c:514-566 | the document read back keeps the viewport and the number of shapes |
| DocumentRoundTrip.DeserializeExport | C/serde/serialize/export.c:190-242 | reading the text `export_svg` (`SvgExport.ExportSvg`) writes succeeds, gives `ReadBackSvg(doc)` and consumes the whole text |
| DocumentRoundTrip.DeserializeExportThen | C/serde/deserialize/parser.c:556-565 | the same with any text after `</svg>`, which stays unread |
| DocumentRoundTrip.ReadStyleIsIdentity | C/serde/serialize/export_style.c:18-27 | a style comes back unchanged exactly when its outline is its fill and its rotation is reduced |
| DocumentRoundTrip.ReadBackIsIdentity | C/serde/serialize/export_shape.c:68-88 | a shape comes back unchanged exactly when its style does and, for an ellipse, its radii are equal |
| DocumentRoundTrip.ReadBackAllIsIdentity | C/serde/deserialize/parser.c:539-554 | a shape list comes back unchanged exactly when every shape does |
| DocumentRoundTrip.DeserializeExportExact | C/serde/serialize/export.c:190-242 | a written document always reads back, and it is the same document exactly when every shape round-trips |
| Divergences.NegativeIntegerRefused | C/serde/deserialize/parser.c:106-133 | with seed 0, `-` followed by a non-zero digit is reported as overflow |
| Divergences.IntParameterRefusesNegative | C/serde/deserialize/parser.c:272-316 | `name="-d…` fails |
| Divergences.NegativeCoordinateTwoDigits | C/serde/deserialize/parser.c:171-186 | the coordinate `-ab` reads as the positive 10a − b, not −(10a + b): `-12` reads as 8 |
| Divergences.MinusCoordinate | C/serde/deserialize/parser.c:169-186 | after `-` and digit d, the coordinate is `parse_int` seeded with −d |
| Divergences.OverflowNotDetected | C/serde/deserialize/parser.c:123-133 | from 1000000000 a further `0` wraps to 1410065408, which the guard `temp > result` lets through |
| Divergences.PathQuoteSwallowed | C/serde/deserialize/parse_path.c:286-295 | after M or L ending in a number, `parse_int` eats the closing quote and the loop continues past it |
| Divergences.PathEndingInPointRefused | C/serde/deserialize/parse_path.c:270-304 | so path data whose last command ends in a number, followed by `"/>`, fails |
| Divergences.ClosingTagUnchecked | C/serde/deserialize/parser.c:539-556 | any character other than `<` in place of `</` ends the shapes and `svg>` is then accepted |
| Divergences.NegativeRotateRefused | C/serde/deserialize/parse_style.c:96-103 | `rotate="-…` fails |
| Divergences.MinusIgnoredInPoints | C/serde/deserialize/parser.c:417-450 | a `-` in a points list is skipped, so `-5 3` reads as (5, 3) |
| Divergences.NegativeOperandRefused | C/serde/deserialize/parse_path.c:52-57 | an H or V operand starting with `-` fails |
| Divergences.GroupCloseTagRefused | C/serde/deserialize/parse_shape.c:595-612 | `<group/>`, the close tag the writer emits, makes the group parser fail |

## Left out

- File I/O: the input is an in-memory `seq<char>` with an `Eof` value, and the writers return text instead of writing to a `FILE*`. Write failures of the stream are therefore absent, except that writing an empty string fails.
- Writer-side line and column bookkeeping of `write_to_file`: it has no effect on the text written.
- Memory management: `malloc`, all `free_*` functions, ownership, the NULL guards of the list frees, and the `previous` back-pointers. Values are immutable datatypes.
- NULL shapes in a document, on which `export_svg` spins: a `Shape` value is never NULL.
- Constructors `new_*` for colours, styles, points, viewports, svgs, shapes and path elements. They are the datatype constructors of `Model`, with fields in the C argument order.
- `new_flipx`, `new_flipy` and `new_path` are the constructors `FlipX`, `FlipY` and `Path`.
- Printing: the `print_*` functions and the exact error message texts. A failure keeps only its kind and location.
- The `*_to_string` helpers of moves, lines and the end of path are `Model.PathElementToString`, related to the writer by `PathExport.ToStringShowsExport`; those of the curves are not modelled, as they only format text for the menus.
- Model.EllipseToString: `ellipse_to_string` has no contract of its own. It prints `radius_x` as the width, while `export_ellipse` writes `radius_y` under `width` (`DocumentRoundTrip.EllipseLayout`).
- The interactive menus, the HTML and SVG writers, and the Rust port apart from `is_valid_filename`.
- Group round trip: the writer closes a group with `<group/>`, which the reader refuses (`Divergences.GroupCloseTagRefused`), so no round trip is stated for groups.
- Index 0 on an empty list dereferences NULL in `insert_*_at` and `remove_*_at`. The list operations require a non-empty list for a non-negative index.
- `Divergences.OverflowNotDetected` shows the missed wrap at the step of the digit loop where it occurs, from 1000000000 and one more digit, rather than on a full eleven-character input.
- Parser.ParseCoordinate: its contract says only that input is consumed. Its value is given by `ValueRoundTrip.CoordinateReads` for written input and by `Divergences.NegativeCoordinateTwoDigits` for negative input.
- Parser.ParsePoint: its contract says only that input is consumed; the value is given by `ValueRoundTrip.PointReads`.
- Parser.ParseIntParameter: its contract does not state the value; `ValueRoundTrip.IntParameterReads` does for written input.
- Parser.ParsePointParameter: its contract does not state the value; `ValueRoundTrip.PointParameterReads` does for written input.
- Parser.ParsePointsParameter: its contract does not state the points; `PointsRoundTrip.PointsParameterReads` does for written input.
- Parser.ParseViewport: its contract does not state the two points; `DocumentRoundTrip.ViewportReads` does for written input.
- PathParser.ParseMoveTo: its contract states only the command read; the point is given by `PathRoundTrip.PointCommandReads`, for written input with non-negative operands only.
- PathParser.ParseLineTo: its contract states only the command read; the operands are given by `PathRoundTrip.PointCommandReads`, for written input with non-negative operands only.
- PathParser.ParseHorizontalLineTo: its contract states only the command read; the operands are given by `PathRoundTrip.LineCommandReads`, for written input with non-negative operands only.
- PathParser.ParseVerticalLineTo: its contract states only the command read; the operands are given by `PathRoundTrip.LineCommandReads`, for written input with non-negative operands only.
- PathParser.ParseCubicCurveTo: its contract states only the command read; the operands are given by `PathRoundTrip.CubicReads`, for written input with non-negative operands only.
- PathParser.ParseCubicCurveToShorthand: its contract states only the command read; the operands are given by `PathRoundTrip.TwoPointCommandReads`, for written input with non-negative operands only.
- PathParser.ParseQuadraticCurveTo: its contract states only the command read; the operands are given by `PathRoundTrip.TwoPointCommandReads`, for written input with non-negative operands only.
- PathParser.ParseQuadraticCurveToShorthand: its contract states only the command read; the operands are given by `PathRoundTrip.ShorthandQuadraticReads`, for written input with non-negative operands only.
- ShapeParser.ParseEllipse: its contract states only the kind of shape read; the fields are given by `DocumentRoundTrip.LeafParse`, for written shapes with non-negative numbers only.
- ShapeParser.ParseRectangle: its contract states only the kind of shape read; the fields are given by `DocumentRoundTrip.LeafParse`, for written shapes with non-negative numbers only.
- ShapeParser.ParseLine: its contract states only the kind of shape read; the fields are given by `DocumentRoundTrip.LeafParse`, for written shapes with non-negative numbers only.
- ShapeParser.ParseMultiline: its contract states only the kind of shape read; the fields are given by `DocumentRoundTrip.LeafParse`, for written shapes with non-negative numbers only.
- ShapeParser.ParsePolygon: its contract states only the kind of shape read; the fields are given by `DocumentRoundTrip.LeafParse`, for written shapes with non-negative numbers only.
- ShapeParser.ParsePath: its contract states only the kind of shape read; the fields are given by `DocumentRoundTrip.LeafParse`, for written shapes with non-negative numbers only.
- ShapeParser.ParseGroup: states only the shape of a success; group contents are not round-tripped (see above).
- SvgParser.ParseSvg: its contract states only that a success starts with `<svg` and ends on `>`; the viewport and shapes read are given by `DocumentRoundTrip.DeserializeExportThen`, for written documents with non-negative numbers only.
- ShapeParser.ShapeLoop: its contract states only the kind of shape and the closing `>`; the fields set are given by `ShapeRoundTrip.FourIntsLoop`, `LineLoop`, `PointListLoop` and `PathShapeLoop`, for written bodies with non-negative numbers only.
- ShapeParser.ParseLeaf: its contract states only the kind of shape, the tag suffix and the closing `>`; the fields are given by `DocumentRoundTrip.LeafParse`, for written shapes with non-negative numbers only.
- PathParser.ParsePathElements: its contract states only that a success is a non-empty list ending on the quote; the elements are given by `PathRoundTrip.PathElementsReads`, for written data ending in Z with non-negative operands only.
- SvgParser.Deserialize: states only that it reads the given text; the value is given by `DocumentRoundTrip.DeserializeExport`.
- ShapeExport.ExportShape: its contract says only that the text ends in a line feed; the full layout is `DocumentRoundTrip.ExportShapeLayout`, for shapes other than groups.
- Export.ExportPoints: its contract states only the characters used and a length bound; the points it writes are given by `PointsRoundTrip.PointsParameterReads`, for non-negative points only.
- PathExport.ExportPathElement: its contract states only the letter and the space after it; the operands written are given by `PathRoundTrip.ElementReads`, for non-negative operands only.
- PathExport.ExportElements: its contract states only the first letter and a length bound; the elements written are given by `PathRoundTrip.PathElementsReads`, for non-negative operands and lists ending in Z only.
- The writers of `export.c`, `export_style.c`, `export_path.c` and `export_shape.c` carry no contract of their own; each is covered by the round-trip or layout lemma named with it in the Model table.
- Reading a byte: `get_next_char` stores `getc`'s result in a `char`, so a 0xFF byte and `EOF` are confused where `char` is signed, and `EOF` is never seen where it is unsigned. The model reads Unicode characters and keeps `Eof` as a separate value, so neither case arises.
- CInt.Wrap32: signed overflow is undefined behaviour in C. The model fixes it to the two's-complement wrap of a typical build; a compiler may do otherwise, for instance drop the `temp > result` guard.
- An empty point list or path: `export_points_parameter` and `export_path_elements` read `node->next` of the first node without a NULL check, so an empty list crashes. `Export.ExportPoints`, `Export.ExportPointsParameter`, `PathExport.ExportElements` and `ShapeExport.Writable` require a non-empty list instead of modelling the crash.
