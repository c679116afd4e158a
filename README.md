# rafa: a verified model of the Raphael.js code generator

rafa is a Ruby DSL that builds the JavaScript source of a Raphael.js
drawing. A `Canvas` holds an append-only list of statements. Elements
(circle, rect, ellipse, image, text, set, path) append their creation
statement, and then one statement per attribute, to the canvas they belong
to. Wrappers such as `rotate`, `translate`, `scale`, `to_front` and
`to_back` append one Raphael call each. A `BBox` names the result of
`getBBox()` and hands out its fields as JavaScript literals. The
`PathBuilder` collects SVG path-data commands while tracking a drawing mode
and a cursor. An `AnimationProxy` records the attributes an `animate` block
sets and composes chained animations into nested JavaScript functions.

The repository carries two generations of the element classes. Both are
modelled, side by side:

- the newer `RaphaelElement` family is in module `Elements`;
- the older `BasicShape` family of `lib/canvas/elements.rb` is in module
  `Legacy`.

The animation mixin is attached to `BasicShape`, so `Animation` builds on
`Legacy`.

Layout, one Dafny module per file:

| file | module | models |
|---|---|---|
| `text.dfy` | `Text` | `Array#join`, `Integer#to_s`, substring facts |
| `values.dfy` | `Values` | Ruby argument values, `to_s`/`inspect`/`to_json` stand-ins, insertion-ordered hashes, `JavascriptLiteral` |
| `attributes.dfy` | `Attributes` | `POSSIBLE_ATTRIBUTES` and the two name sanitisers |
| `canvas.dfy` | `Canvases` | `Canvas`: argument validation, `constructor`, `<<`, the emitted script, `method_missing` dispatch |
| `boundingbox.dfy` | `Boundingbox` | `BBox` |
| `path_builder.dfy` | `Paths` | `PathBuilder` |
| `raphael_element.dfy` | `Elements` | `RaphaelElement` and its subclasses (Circle, Ellipse, Image, Text, Rect, Set, Path) |
| `basic_shape.dfy` | `Legacy` | `BasicShape` and its subclasses in `lib/canvas/elements.rb` |
| `animation.dfy` | `Animation` | `AnimationProxy`, `animate`, `every` |

Objects whose fields the Ruby code updates are classes:

- `Canvas`, `PathBuilder`, `RaphaelElement`, `BasicShape`, `BBox` and
  `AnimationProxy`.
- Each method states its whole new state through a pure function of the
  old state. For example, `PathBuilder` methods ensure
  `State() == Apply(old(State()), op)`, and element methods state exactly
  which statements the canvas gains, in order.
- The properties are proved about those functions.

A Ruby block is modelled as the list of calls it makes: `PathOp`,
`PathCall` or `ProxyOp`. A `raise` is modelled as a returned `raised` flag
or a `None`/`null` result. The model then states what was appended before
the raise. In the newer element, even the `TypeError(...)` inside `raise` is such a
call: it goes to `method_missing` and appends an attribute statement
before the raise.

## Model

| member | source | states |
|---|---|---|
| Values.Or | lib/canvas/elements/raphael_element.rb:42-44 | Ruby `a \|\| b`: `a` when truthy (anything but nil and false), otherwise `b`; the result is truthy exactly when `a` or `b` is |
| Values.Compact | lib/canvas/elements/raphael_element.rb:75 | `compact` keeps exactly the non-nil items, each as often as before (the multiset minus its nils), and never lengthens the list |
| Values.CompactAppend | lib/canvas/elements/raphael_element.rb:75 | compacting a concatenation is concatenating the compacted parts, so order is kept |
| Values.CompactKeepsLead | lib/canvas/elements/raphael_element.rb:75 | two non-nil leading items survive compaction in front of the compacted rest |
| Values.Lookup | lib/canvas/elements/raphael_element.rb:22 | a hash lookup gives nil for an absent key and otherwise the value of the first entry with that key |
| Values.Remove | lib/canvas/elements/raphael_element.rb:22 | `delete(key)` leaves no entry with that key and keeps every other entry; an absent key leaves the entries exactly as they were |
| Values.RemoveAppend | lib/canvas/elements/raphael_element.rb:22 | deleting from two runs of entries is deleting from each, so the kept entries stay in their order |
| Values.LookupRemoveOther | lib/canvas/elements/raphael_element.rb:22 | deleting one key does not change the lookup of any other key |
| Values.DeleteEither | lib/canvas/elements/raphael_element.rb:22 | `options.delete('id') \|\| options.delete(:id)`: the string key wins when truthy; otherwise the symbol key's value is taken and both keys are gone |
| Values.Put | lib/animation/animation.rb:72 | `hash[key] = value` replaces the value of the first entry with that key in place, or appends the new entry at the end when the key is absent |
| Values.PutThenLookup | lib/animation/animation.rb:72 | after `hash[key] = value`, looking up `key` gives `value` |
| Values.PutKeepsOthers | lib/animation/animation.rb:72 | `hash[key] = value` leaves every other key's value unchanged |
| Values.PutLength | lib/animation/animation.rb:72 | the hash grows by one exactly when the key was absent |
| Values.LiteralJsonIsVerbatim | lib/canvas/javascript_literal.rb:20-22 | a literal serialises to its text verbatim, with no quoting, and ignores the optional argument |
| Values.LiteralReassign | lib/canvas/javascript_literal.rb:12-22 | reassigning `js` changes what `to_json` returns to the new text |
| Attributes.StripUnsafe | lib/canvas/elements/raphael_element.rb:113 | removing characters outside `[a-zA-Z0-9_-]` leaves only such characters, taken from the input, and never lengthens it |
| Attributes.DashUnderscores | lib/canvas/elements/raphael_element.rb:113 | `gsub('_', '-')` changes every `_` into `-` and nothing else, position by position |
| Attributes.SanitizeDashed | lib/canvas/elements/raphael_element.rb:113 | the newer sanitiser never lengthens a name and leaves only allowed characters and no `_` |
| Attributes.SanitizeKeepUnderscore | lib/canvas/elements.rb:111-112 | the older sanitiser never lengthens a name and leaves only allowed characters |
| Attributes.StripUnsafeFixpoint | lib/canvas/elements/raphael_element.rb:113 | stripping leaves a name unchanged if and only if all its characters are allowed |
| Attributes.StripUnsafeAppend | lib/canvas/elements/raphael_element.rb:113 | stripping a concatenation strips each part separately |
| Attributes.DashUnderscoresAppend | lib/canvas/elements/raphael_element.rb:113 | replacing `_` in a concatenation replaces it in each part separately |
| Attributes.SanitizeIdempotent | lib/canvas/elements.rb:111-112 | both sanitisers are idempotent |
| Attributes.SanitizersAgree | lib/canvas/elements.rb:111-112 | the older and newer sanitisers agree on a name if and only if the stripped name has no `_` |
| Attributes.WhitelistAlphabet | lib/canvas/attributes.rb:6-37 | every whitelisted name consists of lowercase letters and `-` only |
| Attributes.WhitelistSize | lib/canvas/attributes.rb:6-37 | the whitelist has exactly 30 names, pairwise distinct |
| Attributes.ListedNamesAreClean | lib/canvas/attributes.rb:6-37 | both sanitisers leave every whitelisted name unchanged |
| Attributes.UnderscoreNeverListed | lib/canvas/attributes.rb:6-37 | a name containing `_` is never whitelisted, so the `_`-keeping setters reject it |
| Attributes.ListedIsLowerDashed | lib/canvas/attributes.rb:6-37 | every listed name consists of lowercase letters and dashes |
| Attributes.CapitalNeverListed | lib/canvas/attributes.rb:6-37 | a name starting with a capital letter is never listed |
| Attributes.LowerDashedIsClean | lib/canvas/elements/raphael_element.rb:113 | a name of lowercase letters and `-` has no `_` and passes both sanitisers unchanged |
| Attributes.CleanNameKept | lib/canvas/elements/raphael_element.rb:113 | a name of allowed characters without `_` passes the newer sanitiser unchanged |
| Attributes.DashedJoin | lib/canvas/elements/raphael_element.rb:113 | two such names joined by `_` come out of the newer sanitiser joined by `-` |
| Attributes.AnimationKeysListed | lib/canvas/attributes.rb:20-32 | `translation`, `scale` and `rotation` are whitelisted |
| Attributes.FillOpacityDashed | lib/canvas/elements/raphael_element.rb:113 | the newer sanitiser turns `fill_opacity` into `fill-opacity` |
| Attributes.FillOpacityListed | lib/canvas/attributes.rb:11 | `fill-opacity` is whitelisted |
| Attributes.FillOpacityKept | lib/canvas/elements.rb:111-113 | the older sanitiser keeps `fill_opacity`, which is then rejected |
| Attributes.CaseSensitiveExample | lib/canvas/elements/raphael_element.rb:113-115 | membership is case-sensitive: `Fill` sanitises to itself and is rejected |
| Canvases.Slice | lib/canvas/canvas.rb:21 | `args[start, length]` is the run of arguments from `start`, cut short at the end of the list |
| Canvases.Configure | lib/canvas/canvas.rb:19-31 | with a String or Symbol first, it accepts iff the next (up to) two arguments are Integers, with width and height `args[1]`, `args[2]` and the first three as constructor arguments; otherwise it accepts iff the first (up to) four are Integers, with width and height `args[2]`, `args[3]` and the first four as constructor arguments |
| Canvases.ConstructorArgumentKinds | lib/canvas/canvas.rb:19-31 | accepted constructor arguments are Integers after an Integer, String or Symbol first argument |
| Canvases.ExtraArgumentsIgnored | lib/canvas/canvas.rb:24-29 | arguments beyond the fourth never change the configuration |
| Canvases.LoneNameAccepted | lib/canvas/canvas.rb:21-23 | `Canvas.new('paper')` is accepted with nil width and height |
| Canvases.ConstructorCall | lib/canvas/canvas.rb:37-39 | the constructor call is `new Raphael(...)`, with empty parentheses when there are no arguments |
| Canvases.ScriptText | lib/canvas/canvas.rb:9-12 | the script starts with the `var <name> = <constructor>;` line, and is only that line for an empty canvas |
| Canvases.ScriptAppend | lib/canvas/canvas.rb:9-12 | appending a statement extends the emitted script by a newline (if not the first) and that statement |
| Canvases.ScriptOrder | lib/canvas/canvas.rb:9-12 | every appended statement occurs in the emitted script |
| Canvases.Canvas.constructor | lib/canvas/canvas.rb:31-35 | a new canvas keeps its configuration, is named `_raphael_canvas_<stamp>` and has no contents |
| Canvases.Canvas.Append | lib/canvas/canvas.rb:50-52 | `<<` adds the script at the end of the contents and changes nothing else |
| Canvases.Open | lib/canvas/canvas.rb:18-35 | `Canvas.new` fails exactly when validation fails; otherwise the new canvas is empty with the validated configuration |
| Canvases.DispatchTarget | lib/canvas/canvas.rb:41-48 | a missing method falls through iff its name contains none of circle/rect/ellipse/text, and constructs a shape iff the name is exactly one of them |
| Boundingbox.BoxName | lib/canvas/boundingbox.rb:15 | the box is named by the given name (its `to_s`), or `<element name>_bbox` when none is given |
| Boundingbox.GetBBoxStatement | lib/canvas/boundingbox.rb:56-58 | the statement ends in `.getBBox();` and starts with `var ` when reloading |
| Boundingbox.ReloadAddsVar | lib/canvas/boundingbox.rb:56-58 | the reload statement is the plain statement with `var` in front; the plain one starts with a space |
| Boundingbox.ReadStatement | lib/canvas/boundingbox.rb:50-54 | a read statement is a `var` declaration ending in `;` |
| Boundingbox.ReadStatementDeclaresLiteral | lib/canvas/boundingbox.rb:50-54 | each read statement declares exactly the variable the returned literal names |
| Boundingbox.BBox.constructor | lib/canvas/boundingbox.rb:13-18 | construction names the box, records whether that name is a String, and appends one `getBBox()` statement without `var` |
| Boundingbox.BBox.Update | lib/canvas/boundingbox.rb:22-25 | `update!` appends the same statement with `var` |
| Boundingbox.BBox.Read | lib/canvas/boundingbox.rb:50-54 | with a String name a read appends `var <name>_<attr> = <name>.<attr>;` and returns the literal `<name>_<attr>`; with any other name `@name + '_'` raises (`None`) and nothing is appended |
| Boundingbox.BBox.X | lib/canvas/boundingbox.rb:28-30 | `x` reads the `x` field as `Read` does, raising for a box name that is not a String |
| Boundingbox.BBox.Y | lib/canvas/boundingbox.rb:33-35 | `y` reads the `y` field as `Read` does, raising for a box name that is not a String |
| Boundingbox.BBox.Width | lib/canvas/boundingbox.rb:38-40 | `width` reads the `width` field as `Read` does, raising for a box name that is not a String |
| Boundingbox.BBox.Height | lib/canvas/boundingbox.rb:44-46 | `height` reads the `height` field as `Read` does, raising for a box name that is not a String |
| Boundingbox.BBox.W | lib/canvas/boundingbox.rb:41 | `w` has exactly the effect and result of `width` |
| Boundingbox.BBox.H | lib/canvas/boundingbox.rb:47 | `h` has exactly the effect and result of `height` |
| Paths.DecimalsArePlain | lib/canvas/elements/path.rb:200-209 | integer path parameters render without characters that need escaping |
| Paths.CurveArgs | lib/canvas/elements/path.rb:100 | the compacted curve arguments start with the four given control values and number 4 to 6 |
| Paths.QCurveArgs | lib/canvas/elements/path.rb:116 | the compacted quadratic arguments start with the two given values and number 2 to 4 |
| Paths.CornerArgs | lib/canvas/elements/path.rb:148-157 | a corner has six curve arguments iff its direction is one of lu ld ru rd ur ul dr dl |
| Paths.Emit | lib/canvas/elements/path.rb:64-168 | a call emits a command exactly when it draws and does not raise |
| Paths.Apply | lib/canvas/elements/path.rb:64-168 | a call keeps the initial path and extends the commands by exactly the emitted command, if any |
| Paths.ModeSwitchOnlyChangesMode | lib/canvas/elements/path.rb:51-60 | `relatively`/`absolutely` change the mode only and emit nothing |
| Paths.DrawAppendsOne | lib/canvas/elements/path.rb:64-168 | every drawing call that does not raise appends exactly its rendered command and keeps the initial path |
| Paths.LetterFollowsMode | lib/canvas/elements/path.rb:64-125 | a command letter is one uppercase letter in absolute mode and one lowercase letter in relative mode |
| Paths.CurveLetters | lib/canvas/elements/path.rb:99-125 | `curve_to` emits S/s with 4 arguments and C/c with 6; `qcurve_to` emits T/t with 2 and Q/q with 4 |
| Paths.CplineWithoutWidthIsLine | lib/canvas/elements/path.rb:129-130 | `cpline_to(x, y)` without width is exactly `line_to(x, y)` |
| Paths.CplineWithWidth | lib/canvas/elements/path.rb:131-137 | with width `w`, it emits C/c with control points `(last.x + w, last.y)`, `(x - w, y)` and end `(x, y)`, and sets `bx, by` to `x - w, y` |
| Paths.ControlPointTracking | lib/canvas/elements/path.rb:99-125 | `curve_to` sets `bx, by` to `args[-4], args[-3]`; every call other than `curve_to` and a width-given `cpline_to` leaves them unchanged |
| Paths.RoundedCornerRestoresMode | lib/canvas/elements/path.rb:145-161 | a valid corner appends one relative `c` command and restores the previous mode; an invalid direction raises, appends nothing and leaves the mode relative |
| Paths.AndCloseAppendsZ | lib/canvas/elements/path.rb:165-168 | `and_close` appends `z` and changes nothing else |
| Paths.EmittedCommandsAreSvg | lib/canvas/elements/path.rb:64-125 | every emitted letter carries the number of parameters its SVG path-data command takes (section 8.3 of SVG 1.1) |
| Paths.CurveWithOddArgumentsHasNoLetter | lib/canvas/elements/path.rb:99-105 | a curve with five arguments matches no case and is emitted with no command letter |
| Paths.CursorIsSvgCurrentPoint | lib/canvas/elements/path.rb:64-138 | for a drawing call that does not raise, is well shaped and is not `and_close`, and except for a relative arc, the tracked cursor is the SVG current point after the emitted command |
| Paths.CursorAfterCurve | lib/canvas/elements/path.rb:106-107 | after `curve_to` the cursor is the curve's SVG end point |
| Paths.CursorAfterQCurve | lib/canvas/elements/path.rb:122-123 | after `qcurve_to` the cursor is the curve's SVG end point |
| Paths.CursorAfterLine | lib/canvas/elements/path.rb:64-95 | after move, line, cpline and absolute arc the cursor is the SVG end point |
| Paths.RelativeArcLosesCursor | lib/canvas/elements/path.rb:88-95 | a relative `arc_to` sets the cursor to its raw `x, y`, which differs from the SVG end point |
| Paths.ResultAfterCall | lib/canvas/elements/path.rb:182-184 | after a drawing call, `result` gains a separating space (if not the first command) and the new command |
| Paths.ResultString | lib/canvas/elements/path.rb:182-184 | the result starts with the initial path and a space when there is one, and is only that without commands |
| Paths.EmptyInitialPathLeadsWithSpace | lib/canvas/elements/path.rb:182-184 | the default empty initial path still yields a leading space |
| Paths.EmittedCommandIsPlain | lib/canvas/elements/path.rb:200-209 | every emitted command needs no JSON escaping |
| Paths.RunSnoc | lib/canvas/elements/path.rb:33 | running a block one call longer is running the shorter block, then that call, unless something raised |
| Paths.RunAppendsPerDraw | lib/canvas/elements/path.rb:33 | a block that does not raise appends one command per drawing call and keeps the earlier commands |
| Paths.RunRaisesIffBadCorner | lib/canvas/elements/path.rb:145-161 | a block raises iff one of its calls is a corner with an invalid direction |
| Paths.RunKeepsPlain | lib/canvas/elements/path.rb:200-209 | running a block keeps every command free of characters that need escaping |
| Paths.ResultIsPlain | lib/canvas/elements/path.rb:182-184 | with a plain initial path, `result` is plain and serialises as itself in quotes (under the model's `Escape`, which leaves control characters alone) |
| Paths.PathBuilder.constructor | lib/canvas/elements/path.rb:43-48 | a new builder is absolute with cursor `(0, 0, 0, 0)` and no commands |
| Paths.PathBuilder.Relatively | lib/canvas/elements/path.rb:51-54 | the state afterwards is the relative-mode step of the state before |
| Paths.PathBuilder.Absolutely | lib/canvas/elements/path.rb:57-60 | the state afterwards is the absolute-mode step of the state before |
| Paths.PathBuilder.MoveTo | lib/canvas/elements/path.rb:64-71 | the state afterwards is the `move_to` step of the state before |
| Paths.PathBuilder.LineTo | lib/canvas/elements/path.rb:75-82 | the state afterwards is the `line_to` step of the state before |
| Paths.PathBuilder.ArcTo | lib/canvas/elements/path.rb:88-95 | the state afterwards is the `arc_to` step of the state before |
| Paths.PathBuilder.CurveTo | lib/canvas/elements/path.rb:99-111 | the state afterwards is the `curve_to` step of the state before |
| Paths.PathBuilder.QCurveTo | lib/canvas/elements/path.rb:115-125 | the state afterwards is the `qcurve_to` step of the state before |
| Paths.PathBuilder.CplineTo | lib/canvas/elements/path.rb:129-138 | the `cpline_to` step; with a width its value is `y`, not the builder |
| Paths.PathBuilder.RoundedCorner | lib/canvas/elements/path.rb:145-161 | the `rounded_corner` step, raising exactly for an invalid direction |
| Paths.PathBuilder.AndClose | lib/canvas/elements/path.rb:165-168 | the state afterwards is the `and_close` step of the state before |
| Paths.PathBuilder.Perform | lib/canvas/elements/path.rb:170-180 | any call, by name or alias, takes the state to its step and raises exactly as that step does |
| Paths.PathBuilder.PerformAll | lib/canvas/elements/path.rb:33 | evaluating a block raises iff the block's run fails; otherwise the state is the run's final builder |
| Elements.AttrStatementText | lib/canvas/elements/raphael_element.rb:163-165 | an attr statement is `<name>.attr({"<attr>":<value json>});` |
| Elements.AttrCallShape | lib/canvas/elements/raphael_element.rb:163-165 | the pieces of `js_method('attr', ...)` concatenate to `<name>.attr({<key>:<json>});` |
| Elements.JsMethod | lib/canvas/elements/raphael_element.rb:163-165 | without arguments the statement is `<name>.<method>();`, with empty parentheses |
| Elements.JsMethodShape | lib/canvas/elements/raphael_element.rb:163-165 | a method call statement starts with `<name>.<method>(`, ends with `);`, and adds exactly four characters to its parts |
| Elements.AttrStatementsPerEntry | lib/canvas/elements/raphael_element.rb:29-32 | `apply_attributes` emits one attr statement per entry, in iteration order, with the dashed name |
| Elements.UnderscoreKeysAreDashed | lib/canvas/elements/raphael_element.rb:113 | `:fill_opacity` is set as `fill-opacity`, which is accepted |
| Elements.ElementName | lib/canvas/elements/raphael_element.rb:20-26 | the name is the truthy `'id'` option, else the truthy `:id` option, else `rafa_<class>_<uid>`; no `'id'` key remains in the options |
| Elements.IdOptionNamesElement | lib/canvas/elements/raphael_element.rb:20-26 | an `:id` option names the element and is removed; without it the generated name is used and the options are kept |
| Elements.CoordinatesErrorText | lib/canvas/elements/raphael_element.rb:47 | the failed `TypeError(...)` call appends `attr({"TypeError":<message>})`, then `attr({"to-str":null})` from `raise`'s `to_str` probe |
| Elements.TypeErrorNameKept | lib/canvas/elements/raphael_element.rb:47 | the attribute name `TypeError` is kept as it is |
| Elements.ToStrNameDashed | lib/canvas/elements/raphael_element.rb:47 | the attribute name `to_str` becomes `to-str` |
| Elements.RotateOutcome | lib/canvas/elements/raphael_element.rb:41-61 | `rotate` raises exactly when a numeric first parameter has no numeric second, after the two error statements; otherwise it appends one statement |
| Elements.RotateFlagIsAlwaysTrue | lib/canvas/elements/raphael_element.rb:41-58 | without coordinates, `rotate` always emits `(angle, true)`, even when given `false`, and does not raise |
| Elements.RotateAboutPoint | lib/canvas/elements/raphael_element.rb:46-52 | with numeric coordinates it emits `(angle, cx, cy)`; a numeric second argument without a numeric third raises after appending the `TypeError` and `to-str` attribute statements |
| Elements.ScaleArgs | lib/canvas/elements/raphael_element.rb:74-78 | `scale` passes exactly the non-nil values among its four arguments, each as often as given; with both factors given they lead, followed by the given centre coordinates |
| Elements.ScaleWithoutCentre | lib/canvas/elements/raphael_element.rb:74-78 | without a centre `scale` emits the two factors alone |
| Elements.ScaleAboutCentre | lib/canvas/elements/raphael_element.rb:74-78 | with a centre `scale` emits the two factors, then the centre, in order |
| Elements.RaphaelElement.constructor | lib/canvas/elements/raphael_element.rb:20-26 | a new element has its canvas, its name and no bounding box |
| Elements.RaphaelElement.SetAttribute | lib/canvas/elements/raphael_element.rb:112-123 | `[]=` always appends one attr statement with the dashed name and accepts iff that name is whitelisted |
| Elements.RaphaelElement.Attr | lib/canvas/elements/raphael_element.rb:126-129 | `attr` appends the same statement as `[]=` |
| Elements.RaphaelElement.MethodMissing | lib/canvas/elements/raphael_element.rb:133-140 | an unknown method sets the attribute named after it to its first argument |
| Elements.RaphaelElement.ApplyAttributes | lib/canvas/elements/raphael_element.rb:29-32 | the canvas gains the attr statements of the entries, in order |
| Elements.RaphaelElement.Rotate | lib/canvas/elements/raphael_element.rb:41-61 | `rotate` appends exactly the statements of `RotateOutcome` and raises exactly when it does |
| Elements.RaphaelElement.Translate | lib/canvas/elements/raphael_element.rb:65-68 | appends exactly `<name>.translate(dx, dy);` |
| Elements.RaphaelElement.Scale | lib/canvas/elements/raphael_element.rb:74-78 | appends exactly one `scale` call with the non-nil arguments |
| Elements.RaphaelElement.ScaleX | lib/canvas/elements/raphael_element.rb:81-83 | `scale_x(x, cx, cy)` is `scale(x, 1, cx, cy)` |
| Elements.RaphaelElement.ScaleY | lib/canvas/elements/raphael_element.rb:86-88 | `scale_y(y, cx, cy)` is `scale(1, y, cx, cy)` |
| Elements.RaphaelElement.Bbox | lib/canvas/elements/raphael_element.rb:96-103 | without `:reload`, the memoised box is returned and nothing is appended; the first call or `:reload` builds a new box, which appends its statement |
| Elements.RaphaelElement.Node | lib/canvas/elements/raphael_element.rb:144-148 | returns `<name>_node` and appends its declaration |
| Elements.RaphaelElement.ToFront | lib/canvas/elements/raphael_element.rb:151-154 | appends exactly `<name>.toFront();` |
| Elements.RaphaelElement.ToBack | lib/canvas/elements/raphael_element.rb:157-160 | appends exactly `<name>.toBack();` |
| Elements.NoArgumentCall | lib/canvas/elements/raphael_element.rb:163-165 | a call without arguments renders as `<name>.<method>();` |
| Elements.NewShape | lib/canvas/elements/raphael_element.rb:20-32 | a shape constructor appends its creation statement, then one attr statement per option other than the id |
| Elements.NewCircle | lib/canvas/elements/circle.rb:9-14 | one `circle(center_x, center_y, radius)` statement, then the attribute statements |
| Elements.NewEllipse | lib/canvas/elements/ellipse.rb:9-14 | one `ellipse(center_x, center_y, radius_x, radius_y)` statement, then the attribute statements |
| Elements.NewImage | lib/canvas/elements/image.rb:9-14 | one `image(uri, x, y, width, height)` statement, then the attribute statements |
| Elements.NewText | lib/canvas/elements/text.rb:9-14 | one `text(x, y, text)` statement, then the attribute statements |
| Elements.RectSetup | lib/canvas/elements/rect.rb:10-15 | a Hash sixth argument is the options with a nil radius; otherwise the radius is the `'rounded'` value if truthy (only that key deleted), else the `:rounded` value if truthy, else 0 (both keys deleted) |
| Elements.RectPositionalRadiusIgnored | lib/canvas/elements/rect.rb:13-15 | a non-Hash sixth argument is never used as the radius |
| Elements.RectOptionsGiveNullRadius | lib/canvas/elements/rect.rb:10-12 | options given as the sixth argument make the radius render as `null` |
| Elements.NewRect | lib/canvas/elements/rect.rb:9-20 | one `rect(x, y, width, height, radius)` statement, then the attribute statements of the remaining options |
| Elements.MemberNames | lib/canvas/elements/set.rb:20 | the pushed names are the members' names, in the order added |
| Elements.CheckMembers | lib/canvas/elements/set.rb:17-19 | the type check passes iff every member is an element |
| Elements.NewSet | lib/canvas/elements/set.rb:12-22 | appends `set()`, then either raises on a non-element or appends `push(names)` and the attribute statements |
| Elements.PathSetup | lib/canvas/elements/path.rb:18-29 | a String or literal is the initial path, a Hash is the options with an empty path, and anything else raises |
| Elements.PathOutcome | lib/canvas/elements/path.rb:18-36 | a path is created iff the first argument is accepted and its block does not raise |
| Elements.PathOutcomeWhenBuilt | lib/canvas/elements/path.rb:31-35 | a created path appends exactly one `path(<result json>)` statement, then its attribute statements |
| Elements.PathFromStringKeepsTrailingSpace | lib/canvas/elements/path.rb:18-36 | a path given as a string with no block is emitted with a trailing space |
| Elements.PathFromBlockLeadsWithSpace | lib/canvas/elements/path.rb:23-34 | a path built from options and a block is emitted with a leading space |
| Elements.PathStatementEmbedsResult | lib/canvas/elements/path.rb:34 | the path statement is `var <name> = <canvas>.path("<result>");` |
| Elements.DeclarePath | lib/canvas/elements/path.rb:34-35 | appends the path statement and then the attribute statements |
| Elements.NewPath | lib/canvas/elements/path.rb:18-36 | `Path.new` appends the outcome's statements, or nothing when it raises |
| Legacy.ListedKeptNameIsDashedName | lib/canvas/elements.rb:110-120 | wherever the older setter accepts a name, the newer sanitiser gives the same name |
| Legacy.OldSetterIsNewSetterOnListed | lib/canvas/elements.rb:49-51 | the older `apply_attributes` emits what the newer one emits for the accepted entries only |
| Legacy.SettersDisagreeOnUnderscore | lib/canvas/elements.rb:111-113 | `fill_opacity` emits nothing in the older setter but is set as `fill-opacity` by the newer |
| Legacy.CornerDirection | lib/canvas/elements.rb:282 | a name yields the direction `dir` if and only if it is `<dir>_corner` for one of the eight valid directions |
| Legacy.CallStatement | lib/canvas/elements.rb:231-279 | a path call raises iff it is a corner whose direction is not one of the eight valid strings |
| Legacy.CallOutcome | lib/canvas/elements.rb:231-288 | a call appends at most one statement; it raises exactly when it is a corner with a bad direction, and then appends nothing |
| Legacy.StatementOutcome | lib/canvas/elements.rb:267-274 | a call raises iff it has no statement |
| Legacy.CornerNamesRoute | lib/canvas/elements.rb:281-288 | `<dir>_corner(radius)` appends `addRoundedCorner(radius, "<dir>")` |
| Legacy.BlockOutcome | lib/canvas/elements.rb:228 | a block appends at most one statement per call |
| Legacy.BlockRaisesIffSomeCallRaises | lib/canvas/elements.rb:228 | a block raises iff one of its calls raises |
| Legacy.BlockSnoc | lib/canvas/elements.rb:228 | a block one call longer appends that call's statements after the block's |
| Legacy.BlockStep | lib/canvas/elements.rb:228 | the outcome of the first `i + 1` calls, when the first `i` did not raise, extends theirs by the next call's |
| Legacy.BasicShape.constructor | lib/canvas/elements.rb:40-46 | a new shape has its canvas, kind and name and no bounding box |
| Legacy.BasicShape.SetAttribute | lib/canvas/elements.rb:110-120 | a listed name (keeping `_`) appends one attr statement; an unlisted one appends nothing |
| Legacy.BasicShape.Attr | lib/canvas/elements.rb:123-125 | `attr` has the effect of `[]=` |
| Legacy.BasicShape.ApplyAttributes | lib/canvas/elements.rb:49-51 | the canvas gains the statements of the accepted entries, in order |
| Legacy.BasicShape.Rotate | lib/canvas/elements.rb:57-65 | appends `rotate(angle, !!absolute)`, so `false` stays `false`; radians mode with a non-numeric angle raises |
| Legacy.BasicShape.Translate | lib/canvas/elements.rb:69-71 | appends exactly `translate(dx, dy)` |
| Legacy.BasicShape.Scale | lib/canvas/elements.rb:74-76 | appends exactly `scale(sx, sy)` |
| Legacy.BasicShape.ScaleX | lib/canvas/elements.rb:79-81 | `scale_x(x)` is `scale(x, 1)` |
| Legacy.BasicShape.ScaleY | lib/canvas/elements.rb:84-86 | `scale_y(y)` is `scale(1, y)` |
| Legacy.BasicShape.Bbox | lib/canvas/elements.rb:94-101 | memoised as in the newer variant |
| Legacy.BasicShape.Node | lib/canvas/elements.rb:140-144 | returns `<name>_node` and appends its declaration |
| Legacy.BasicShape.ToFront | lib/canvas/elements.rb:147-149 | appends exactly `toFront()` |
| Legacy.BasicShape.ToBack | lib/canvas/elements.rb:152-154 | appends exactly `toBack()` |
| Legacy.BasicShape.RoundedCorner | lib/canvas/elements.rb:267-274 | appends `addRoundedCorner`, or raises with nothing appended for a non-string or invalid direction |
| Legacy.BasicShape.MethodMissing | lib/canvas/elements.rb:129-136 | on a path a `<dir>_corner` name routes to `rounded_corner`; on any other shape it is an attribute setter that never raises, because the chainable `attr` always returns the receiver |
| Legacy.BasicShape.Call | lib/canvas/elements.rb:231-288 | each path call appends its statements or raises as its outcome says |
| Legacy.BasicShape.RunBlock | lib/canvas/elements.rb:228 | evaluating the block appends the block's statements and raises as the block does |
| Legacy.BlockPrefixRaises | lib/canvas/elements.rb:228 | nothing after the first raising call has any effect |
| Legacy.IntegerArgumentsRenderAlike | lib/canvas/elements.rb:171 | for integer arguments, string interpolation renders what `to_js_args` renders |
| Legacy.StringArgumentsRenderApart | lib/canvas/elements.rb:204 | interpolation leaves a string unquoted where `to_js_args` quotes it |
| Legacy.NewShape | lib/canvas/elements.rb:169-206 | a shape constructor appends its declaration, then the accepted attribute statements |
| Legacy.NewCircle | lib/canvas/elements.rb:168-174 | one `circle(center_x, center_y, radius)` declaration, then the attribute statements |
| Legacy.NewEllipse | lib/canvas/elements.rb:189-197 | one `ellipse(...)` declaration, then the attribute statements |
| Legacy.TextGenerationsAgree | lib/canvas/elements.rb:200-207 | for integer coordinates and a string, both `Text` variants emit the same declaration |
| Legacy.NewText | lib/canvas/elements.rb:200-207 | one `text(x, y, text.inspect)` declaration, then the attribute statements |
| Legacy.RoundedOption | lib/canvas/elements.rb:179 | the radius is the `'rounded'` value if truthy (only that key deleted), else the `:rounded` value if truthy, else 0 (both keys deleted); no `'rounded'` key remains |
| Legacy.RectGenerationsPickSameRadius | lib/canvas/elements.rb:179 | the older `Rect` picks the radius exactly as the newer one does when not given a Hash |
| Legacy.NewRect | lib/canvas/elements.rb:177-186 | one `rect(x, y, width, height, rounded)` declaration, then the attribute statements |
| Legacy.PathArgument | lib/canvas/elements.rb:224 | a supplied path emits no argument; nil emits `, null` and false emits `, false` |
| Legacy.PathSetup | lib/canvas/elements.rb:212-223 | a String or a Hash is accepted; anything else raises |
| Legacy.GivenPathIsDropped | lib/canvas/elements.rb:224-225 | a path given as a string is not emitted: the statement is `path({})` |
| Legacy.NewPath | lib/canvas/elements.rb:212-229 | appends the declaration, the accepted attribute statements, then the block's statements; it raises if the block does |
| Animation.NewProxy | lib/animation/animation.rb:11-17 | a new proxy has no chained proxy, and a callback exactly when one was given, wrapped as `(function() { <js> })` |
| Animation.CallbackFunction | lib/animation/animation.rb:39-54 | there is a callback function exactly when there is a chained proxy or a callback |
| Animation.FunctionStr | lib/animation/animation.rb:28-37 | `function_str` is wrapped in `(function() { ... })` |
| Animation.Output | lib/animation/animation.rb:24-26 | `output` is `function_str` followed by `()` |
| Animation.CallbackFunctionPresence | lib/animation/animation.rb:39-54 | the callback function is absent iff there is neither a chained proxy nor a callback; it is the callback alone, or the chained `function_str` alone |
| Animation.ChainedRunsBeforeCallback | lib/animation/animation.rb:40-48 | with both present, the wrapper calls the chained function before the callback |
| Animation.FunctionStrEmbeds | lib/animation/animation.rb:28-37 | `function_str` contains the `animate` call on the element with the attributes' JSON, and the callback function if any |
| Animation.ChainedFunctionEmbedded | lib/animation/animation.rb:39-54 | a proxy's `function_str` contains its chained proxy's `function_str` |
| Animation.ChainEmbedded | lib/animation/animation.rb:28-54 | every proxy down the chain has its `function_str` inside the first proxy's |
| Animation.OutputInvokesFunction | lib/animation/animation.rb:24-26 | `output` is `function_str` followed by `()` |
| Animation.RunBlockSnoc | lib/animation/animation.rb:102-103 | a block one call longer is the shorter block followed by that call, unless something raised |
| Animation.RunBlockPrefixRaises | lib/animation/animation.rb:102-103 | nothing after the first raising call has any effect |
| Animation.SetAttrEffect | lib/animation/animation.rb:66-74 | a listed name sets that key only; an unlisted one leaves the proxy unchanged |
| Animation.SetListedKey | lib/animation/animation.rb:66-74 | setting a whitelisted key stores the value under exactly that key, and reading that key back gives the value |
| Animation.UnderscoreNameIgnored | lib/animation/animation.rb:67-68 | `fill_opacity` is rejected by the proxy's `attr` |
| Animation.TranslateStoresPair | lib/animation/animation.rb:77-79 | `translate(dx, dy)` stores `"dx,dy"` under `translation` |
| Animation.ScaleStoresPair | lib/animation/animation.rb:81-83 | `scale(x, y)` stores `"x,y"` under `scale` |
| Animation.RotateStoresAngle | lib/animation/animation.rb:85-87 | `rotate(a)` stores `a` under `rotation` |
| Animation.MissingRaisesUnlessListed | lib/animation/animation.rb:89-96 | an unknown method raises iff its name is not a listed attribute, and writes nothing |
| Animation.WriteNeedsString | lib/animation/animation.rb:19-22 | `<<` raises unless given a String; a String is appended to the canvas |
| Animation.AfterReplacesChain | lib/animation/animation.rb:60-64 | `after` runs its block on a new proxy and makes the result the chained proxy, replacing any earlier one; nothing else changes |
| Animation.BlockKeepsElement | lib/animation/animation.rb:60-64 | a block never changes the proxy's element or duration |
| Animation.StepKeepsElement | lib/animation/animation.rb:60-64 | no proxy call changes the proxy's element or duration |
| Animation.ChainedProxyAnimatesSameElement | lib/animation/animation.rb:60-64 | the chained proxy animates the same element, for the new duration |
| Animation.AnimationProxy.constructor | lib/animation/animation.rb:11-17 | the proxy's state is the new-proxy value |
| Animation.AnimationProxy.Attr | lib/animation/animation.rb:66-74 | `attr` accepts iff the name is listed, with the state the attribute step gives |
| Animation.AnimationProxy.CallWhenFinished | lib/animation/animation.rb:56-58 | sets only the callback, wrapped as a function |
| Animation.AnimationProxy.Write | lib/animation/animation.rb:19-22 | `<<` appends a String to the element's canvas and raises otherwise |
| Animation.AnimationProxy.Perform | lib/animation/animation.rb:66-96 | every proxy call takes the state, the canvas and the raise flag to the call's step |
| Animation.AnimationProxy.After | lib/animation/animation.rb:60-64 | `after` takes the state to the `after` step |
| Animation.AnimationProxy.PerformAll | lib/animation/animation.rb:102-103 | evaluating a block takes the state, canvas and raise flag to the block's run |
| Animation.BlockAndPlainAnimateAgree | lib/animation/animation.rb:100-111 | with and without a block, `animate` makes the same `animate` call, except for the callback wrapper |
| Animation.AnimateStatement | lib/animation/animation.rb:106-109 | the plain `animate` statement starts with `<name>.animate(` and ends with `);` |
| Animation.LoopStatement | lib/animation/animation.rb:116-123 | the loop statement runs the output first (after the heredoc's opening) and ends with the heredoc's closing `)();` |
| Animation.LoopRunsOutputThenReschedules | lib/animation/animation.rb:113-124 | the loop runs the proxy's output, then reschedules itself after `seconds * 1000` ms |
| Animation.Animate | lib/animation/animation.rb:100-111 | without a block it appends the plain `animate` statement; with a block it appends what the block wrote, then the proxy's output unless the block raised |
| Animation.Every | lib/animation/animation.rb:113-124 | appends what the block wrote, then one loop statement around the proxy's output; it raises without a block |

## Left out

- Elements.RaphaelElement.Rotate: the `:radians` branches convert a Float angle (`radians_to_degrees`), so the method requires that radians mode is not selected.
- Elements.RaphaelElement.Rotate: the `to_str` statement follows the `raise` of Ruby 1.9 and later, which asks `method_missing` for `to_str`. Ruby 1.8 checks `respond_to?` first, so there only the `TypeError` statement would be appended.
- Legacy.BasicShape.Rotate: for the same reason, a numeric angle in `:radians` mode is excluded by its requires. The non-numeric angle, which raises, is modelled.
- Paths.PathBuilder.RoundedCorner: `r = 0.5522 * radius` is a Float. The factor `r` is an integer parameter, unrelated to `radius`.
- Paths.Decimals: `"%0.3f"` formatting of Float path parameters is not modelled. Coordinates are integers.
- Animation.AnimateStatement: fractional seconds and the `to_i` truncation of `seconds * 1000` are not modelled. Seconds are integers.
- Uid and time stamps (`Time.now`, `rand`, `CONFIG.generate_uid`) are parameters (`uid`, `stamp`).
- JSON serialisation, `inspect`, `to_s` and `Array#to_js_args` are library code outside the repository. `Values.ToJson`, `Values.Inspect`, `Values.Display` and `Values.ToJsArgs` are simple stand-ins: quoting and escaping of `"` and `\` only, with no Unicode escapes.
- A hash value's JSON key order follows insertion, as Ruby's does. Floats are not a `Value`.
- Ruby return values that are the receiver (`return self`, `chainable`) are not modelled. Chainable methods return nothing, and a method that may raise returns the flag.
- Elements.PathSetup: a `JavascriptLiteral` initial path reaches `result` through string interpolation, that is `to_s`, which the literal does not override. `Values.Display` renders it as `#<Rafa::Elements::JavascriptLiteral>`, without the object address Ruby prints.
- Boundingbox.BoxName: element names are strings (`to_s` of a given `id`). In the source an element named by a non-String `id`, such as a Symbol, makes `element.name + "_bbox"` (boundingbox.rb:15) raise when no box name is given; the model names that box from the name's text.
- Boundingbox.BBox: the box keeps the element's name as it was when the box was built. The source reads `element.name` on each statement.
- Animation.AnimationProxy.After: the chained proxy is stored as a value taken when the block ends. Calls on that proxy object after the block are not seen.
- Aliasing of option hashes is not modelled:
  - the source mutates the caller's hash when it deletes `id` or `rounded`;
  - the animation proxy mutates the `attributes` hash it was given.
- `Canvas#method_missing` is modelled by `Canvases.DispatchTarget` only. The `eval` of the class name and the forwarding of arbitrary arguments to a constructor are not.
- `PathBuilder#method_missing?` is never called by Ruby (its name ends in `?`), so `<dir>_corner` names are not part of the builder.
- A non-string `id` option becomes the name through `to_s` (`Display`).
- The side effects of a `Set` block itself are outside the model. The members are given as the array the block filled.
- Other element calls made inside a path or animation block are outside the model. So is `instance_eval`'s access to the element's own methods.
- The proxy accessors `seconds=`, `callback=` and `element=` are not modelled.
- `Array#join` flattening of nested arrays in animation `translate`/`scale` is not modelled. Each value is rendered with `Display`.
- The Rails helpers `concat` and `javascript_tag` in `canvas` are not modelled. The script text is `Canvases.ScriptText`.
- Console warnings (`puts`) are not modelled.
- lib/animation/javascript_literal.rb is the same class as lib/canvas/javascript_literal.rb and is modelled once.
- lib/util/exceptions.rb only formats a message and is not modelled.
