/** The SVG path-data builder `PathBuilder` (lib/canvas/elements/path.rb:42-211).

    Its state is a drawing mode, a cursor `(x, y, controlX, controlY)` and an
    append-only list of command strings. The pure part below (`Builder`,
    `Emit`, `Apply`, `Run`, `ResultString`) describes one call at a time; the class
    `PathBuilder` at the end updates its fields in place and is proved to
    follow it. The grammar the commands belong to is the path data of
    section 8.3 of the W3C SVG 1.1 Recommendation. Coordinates are integers,
    and the rounded-corner factor `0.5522 * radius` is the parameter `r`. */
module Paths {
  import opened Text
  import opened Values

  datatype Mode = Absolute | Relative

  /** One emitted command: its letter (empty when the argument count matches
      no case of the source) and its arguments. */
  datatype Segment = Segment(letter: string, args: seq<int>)

  /** `to_path_param` of each argument. */
  function Decimals(args: seq<int>): seq<string>
  {
    if args == [] then [] else [Decimal(args[0])] + Decimals(args[1..])
  }

  /** Decimal numerals hold digits and minus signs only. */
  lemma {:induction false} DecimalsArePlain(args: seq<int>)
    ensures forall k :: 0 <= k < |Decimals(args)| ==> Plain(Decimals(args)[k])
  {
    if args != [] {
      DecimalsArePlain(args[1..]);
      var d := Decimal(args[0]);
      assert Plain(d);
    }
  }

  /** `to_path(args)`: the arguments joined by single spaces. */
  function ToPath(args: seq<int>): string
  {
    Join(Decimals(args), " ")
  }

  /** `"#{command}#{to_path(args)}"`: the letter directly followed by the
      arguments. */
  function Render(s: Segment): string
  {
    s.letter + ToPath(s.args)
  }

  /** The builder's state: `@initial_path`, `@mode`, `@last` and
      `@path_builder`. */
  datatype Builder = Builder(
    initialPath: Option<string>,
    mode: Mode,
    x: int, y: int, controlX: int, controlY: int,
    commands: seq<string>)

  /** `PathBuilder.new(initial_path)`: absolute mode, cursor at the origin,
      no commands (path.rb:43-48). */
  function NewBuilder(initialPath: Option<string>): Builder
  {
    Builder(initialPath, Absolute, 0, 0, 0, 0, [])
  }

  /** One call a path block can make on the builder. `CurveTo` and
      `QCurveTo` carry their optional trailing coordinates as options;
      `CplineTo` its optional width. */
  datatype PathOp =
    | Relatively
    | Absolutely
    | MoveTo(x: int, y: int)
    | LineTo(x: int, y: int)
    | ArcTo(rx: int, ry: int, rotation: int, largeArc: int, sweep: int, x: int, y: int)
    | CurveTo(x1: int, y1: int, x2: int, y2: int, x3: Option<int>, y3: Option<int>)
    | QCurveTo(qx1: int, qy1: int, qx2: Option<int>, qy2: Option<int>)
    | CplineTo(x: int, y: int, w: Option<int>)
    | RoundedCorner(radius: int, r: int, direction: string)
    | AndClose

  /** A call that emits a command (every call but the two mode switches). */
  predicate IsDraw(op: PathOp)
  {
    !(op.Relatively? || op.Absolutely?)
  }

  /** `absolute? ? upper : lower` */
  function Letter(mode: Mode, upper: char, lower: char): string
  {
    if mode == Absolute then [upper] else [lower]
  }

  function Opt(o: Option<int>): seq<int>
  {
    if o.Some? then [o.value] else []
  }

  /** `[x1, y1, x2, y2, x3, y3].compact` */
  function CurveArgs(x1: int, y1: int, x2: int, y2: int, x3: Option<int>, y3: Option<int>): (a: seq<int>)
    ensures 4 <= |a| <= 6 && a[..4] == [x1, y1, x2, y2]
  {
    [x1, y1, x2, y2] + Opt(x3) + Opt(y3)
  }

  /** `[x1, y1, x2, y2].compact` */
  function QCurveArgs(x1: int, y1: int, x2: Option<int>, y2: Option<int>): (a: seq<int>)
    ensures 2 <= |a| <= 4 && a[..2] == [x1, y1]
  {
    [x1, y1] + Opt(x2) + Opt(y2)
  }

  /** The six `curve_to` arguments of each rounded-corner direction
      (path.rb:148-157); `None` for any other direction. */
  function CornerArgs(radius: int, r: int, direction: string): (a: Option<seq<int>>)
    ensures a.Some? ==> |a.value| == 6
    ensures a.Some? <==> direction in ["lu", "ld", "ru", "rd", "ur", "ul", "dr", "dl"]
  {
    if direction == "lu" then Some([-r, 0, -radius, -(radius - r), -radius, -radius])
    else if direction == "ld" then Some([-r, 0, -radius, radius - r, -radius, radius])
    else if direction == "ru" then Some([r, 0, radius, -(radius - r), radius, -radius])
    else if direction == "rd" then Some([r, 0, radius, radius - r, radius, radius])
    else if direction == "ur" then Some([0, -r, -(r - radius), -radius, radius, -radius])
    else if direction == "ul" then Some([0, -r, r - radius, -radius, -radius, -radius])
    else if direction == "dr" then Some([0, r, -(r - radius), radius, radius, radius])
    else if direction == "dl" then Some([0, r, r - radius, radius, -radius, radius])
    else None
  }

  /** `rounded_corner` raises on a direction outside the eight. */
  predicate Raises(op: PathOp)
  {
    op.RoundedCorner? && CornerArgs(op.radius, op.r, op.direction).None?
  }

  /** The call `rounded_corner` makes: `curve_to` on the corner arguments. */
  function CornerCurve(a: seq<int>): PathOp
    requires |a| == 6
  {
    CurveTo(a[0], a[1], a[2], a[3], Some(a[4]), Some(a[5]))
  }

  /** The command a call other than `rounded_corner` appends, if any. */
  function EmitDraw(b: Builder, op: PathOp): Option<Segment>
    requires !op.RoundedCorner?
  {
    match op
    case Relatively => None
    case Absolutely => None
    case MoveTo(x, y) => Some(Segment(Letter(b.mode, 'M', 'm'), [x, y]))
    case LineTo(x, y) => Some(Segment(Letter(b.mode, 'L', 'l'), [x, y]))
    case ArcTo(rx, ry, rot, large, sweep, x, y) =>
      Some(Segment(Letter(b.mode, 'A', 'a'), [rx, ry, rot, large, sweep, x, y]))
    case CurveTo(x1, y1, x2, y2, x3, y3) =>
      var a := CurveArgs(x1, y1, x2, y2, x3, y3);
      Some(Segment(if |a| == 4 then Letter(b.mode, 'S', 's')
                   else if |a| == 6 then Letter(b.mode, 'C', 'c')
                   else "", a))
    case QCurveTo(x1, y1, x2, y2) =>
      var a := QCurveArgs(x1, y1, x2, y2);
      Some(Segment(if |a| == 2 then Letter(b.mode, 'T', 't')
                   else if |a| == 4 then Letter(b.mode, 'Q', 'q')
                   else "", a))
    case CplineTo(x, y, w) =>
      if w.None? then Some(Segment(Letter(b.mode, 'L', 'l'), [x, y]))
      else Some(Segment(Letter(b.mode, 'C', 'c'), [b.x + w.value, b.y, x - w.value, y, x, y]))
    case AndClose => Some(Segment("z", []))
  }

  /** The command a call appends, if any: there is one exactly for a
      drawing call that does not raise. */
  function Emit(b: Builder, op: PathOp): (r: Option<Segment>)
    ensures r.Some? <==> IsDraw(op) && !Raises(op)
  {
    if op.RoundedCorner? then
      var a := CornerArgs(op.radius, op.r, op.direction);
      if a.None? then None else EmitDraw(b.(mode := Relative), CornerCurve(a.value))
    else EmitDraw(b, op)
  }

  /** `(absolute? ? 0 : @last) + delta`, for both coordinates. */
  function Advance(b: Builder, dx: int, dy: int): (int, int)
  {
    if b.mode == Absolute then (dx, dy) else (b.x + dx, b.y + dy)
  }

  /** The state after a call other than `rounded_corner`. */
  function Draw(b: Builder, op: PathOp): Builder
    requires !op.RoundedCorner?
  {
    var e := EmitDraw(b, op);
    Move(b, op).(commands := b.commands + (if e.Some? then [Render(e.value)] else []))
  }

  /** The mode and cursor after a call other than `rounded_corner`. */
  function Move(b: Builder, op: PathOp): Builder
    requires !op.RoundedCorner?
  {
    match op
    case Relatively => b.(mode := Relative)
    case Absolutely => b.(mode := Absolute)
    case MoveTo(x, y) =>
      var p := Advance(b, x, y); b.(x := p.0, y := p.1)
    case LineTo(x, y) =>
      var p := Advance(b, x, y); b.(x := p.0, y := p.1)
    case ArcTo(_, _, _, _, _, x, y) =>
      b.(x := x, y := y)
    case CurveTo(x1, y1, x2, y2, x3, y3) =>
      var a := CurveArgs(x1, y1, x2, y2, x3, y3);
      var n := |a|;
      var p := Advance(b, a[n - 2], a[n - 1]);
      b.(x := p.0, y := p.1, controlX := a[n - 4], controlY := a[n - 3])
    case QCurveTo(x1, y1, x2, y2) =>
      var a := QCurveArgs(x1, y1, x2, y2);
      var n := |a|;
      var p := Advance(b, a[n - 2], a[n - 1]);
      b.(x := p.0, y := p.1)
    case CplineTo(x, y, w) =>
      var p := Advance(b, x, y);
      if w.None? then b.(x := p.0, y := p.1)
      else b.(x := p.0, y := p.1, controlX := x - w.value, controlY := y)
    case AndClose => b
  }

  /** The state after one call. For `rounded_corner`: relative mode, the
      corner curve, then the saved mode back; on a bad direction the mode
      stays relative and the call raises (see `Raises`). */
  function Apply(b: Builder, op: PathOp): (r: Builder)
    ensures r.initialPath == b.initialPath
    ensures r.commands == b.commands + (if Emit(b, op).Some? then [Render(Emit(b, op).value)] else [])
  {
    if op.RoundedCorner? then
      var rel := b.(mode := Relative);
      var a := CornerArgs(op.radius, op.r, op.direction);
      if a.None? then rel else Draw(rel, CornerCurve(a.value)).(mode := b.mode)
    else Draw(b, op)
  }

  /** A block of calls; `None` when one of them raises. */
  function Run(b: Builder, ops: seq<PathOp>): Option<Builder>
    decreases |ops|
  {
    if ops == [] then Some(b)
    else if Raises(ops[0]) then None
    else Run(Apply(b, ops[0]), ops[1..])
  }

  /** `result` (path.rb:182-184): the initial path and a space when there is
      an initial path (an empty one included), then the commands joined by
      single spaces. */
  function ResultString(b: Builder): (r: string)
    ensures b.initialPath.Some? ==>
              |b.initialPath.value| + 1 <= |r| && r[..|b.initialPath.value| + 1] == b.initialPath.value + " "
    ensures b.commands == [] ==> r == if b.initialPath.Some? then b.initialPath.value + " " else ""
  {
    (if b.initialPath.Some? then b.initialPath.value + " " else "") + Join(b.commands, " ")
  }

  // ---- properties of single calls ----

  /** `relatively` and `absolutely` change the mode and nothing else. */
  lemma ModeSwitchOnlyChangesMode(b: Builder)
    ensures Apply(b, Relatively) == b.(mode := Relative)
    ensures Apply(b, Absolutely) == b.(mode := Absolute)
    ensures Emit(b, Relatively).None? && Emit(b, Absolutely).None?
  {
  }

  /** Every drawing call that does not raise appends exactly one command,
      the rendering of the segment it emits, and keeps the initial path. */
  lemma DrawAppendsOne(b: Builder, op: PathOp)
    requires IsDraw(op) && !Raises(op)
    ensures Emit(b, op).Some?
    ensures Apply(b, op).commands == b.commands + [Render(Emit(b, op).value)]
    ensures Apply(b, op).initialPath == b.initialPath
  {
  }

  /** The letter is uppercase in absolute mode and lowercase in relative
      mode, for every call but `rounded_corner` (always `c`) and `and_close`
      (always `z`). */
  lemma LetterFollowsMode(b: Builder, op: PathOp)
    requires IsDraw(op) && !op.RoundedCorner? && !op.AndClose?
    requires Emit(b, op).value.letter != ""
    ensures |Emit(b, op).value.letter| == 1
    ensures var c := Emit(b, op).value.letter[0];
            if b.mode == Absolute then 'A' <= c <= 'Z' else 'a' <= c <= 'z'
  {
  }

  /** `curve_to` uses S/s for 4 arguments and C/c for 6; `qcurve_to` uses
      T/t for 2 and Q/q for 4. */
  lemma CurveLetters(b: Builder, x1: int, y1: int, x2: int, y2: int, x3: int, y3: int)
    ensures Emit(b, CurveTo(x1, y1, x2, y2, None, None)).value ==
            Segment(Letter(b.mode, 'S', 's'), [x1, y1, x2, y2])
    ensures Emit(b, CurveTo(x1, y1, x2, y2, Some(x3), Some(y3))).value ==
            Segment(Letter(b.mode, 'C', 'c'), [x1, y1, x2, y2, x3, y3])
    ensures Emit(b, QCurveTo(x1, y1, None, None)).value ==
            Segment(Letter(b.mode, 'T', 't'), [x1, y1])
    ensures Emit(b, QCurveTo(x1, y1, Some(x2), Some(y2))).value ==
            Segment(Letter(b.mode, 'Q', 'q'), [x1, y1, x2, y2])
  {
  }

  /** `cpline_to(x, y)` without a width is `line_to(x, y)`. */
  lemma CplineWithoutWidthIsLine(b: Builder, x: int, y: int)
    ensures Apply(b, CplineTo(x, y, None)) == Apply(b, LineTo(x, y))
    ensures Emit(b, CplineTo(x, y, None)) == Emit(b, LineTo(x, y))
  {
  }

  /** `cpline_to(x, y, w)`: one C/c command with control points
      `(last.x + w, last.y)` and `(x - w, y)`, and `(controlX, controlY) = (x - w, y)`. */
  lemma CplineWithWidth(b: Builder, x: int, y: int, w: int)
    ensures Emit(b, CplineTo(x, y, Some(w))).value ==
            Segment(Letter(b.mode, 'C', 'c'), [b.x + w, b.y, x - w, y, x, y])
    ensures Apply(b, CplineTo(x, y, Some(w))).controlX == x - w
    ensures Apply(b, CplineTo(x, y, Some(w))).controlY == y
  {
  }

  /** `curve_to` sets `(controlX, controlY)` to `args[-4], args[-3]`; `qcurve_to` and
      every other call but `cpline_to` with a width leave them alone. */
  lemma ControlPointTracking(b: Builder, op: PathOp)
    requires !op.RoundedCorner?
    ensures op.CurveTo? ==>
              var a := Emit(b, op).value.args;
              Apply(b, op).controlX == a[|a| - 4] && Apply(b, op).controlY == a[|a| - 3]
    ensures !op.CurveTo? && !(op.CplineTo? && op.w.Some?) ==>
              Apply(b, op).controlX == b.controlX && Apply(b, op).controlY == b.controlY
  {
  }

  /** A valid rounded corner appends one relative `c` command and restores
      the mode in force before the call; a bad direction appends nothing
      and leaves the builder in relative mode. */
  lemma RoundedCornerRestoresMode(b: Builder, radius: int, r: int, direction: string)
    ensures var a := CornerArgs(radius, r, direction);
            a.Some? ==>
              Apply(b, RoundedCorner(radius, r, direction)).mode == b.mode &&
              Apply(b, RoundedCorner(radius, r, direction)).commands ==
                b.commands + [Render(Segment("c", a.value))]
    ensures CornerArgs(radius, r, direction).None? ==>
              Raises(RoundedCorner(radius, r, direction)) &&
              Apply(b, RoundedCorner(radius, r, direction)) == b.(mode := Relative)
  {
    var a := CornerArgs(radius, r, direction);
    if a.Some? {
      var v := a.value;
      assert CurveArgs(v[0], v[1], v[2], v[3], Some(v[4]), Some(v[5])) == v;
    }
  }

  /** `and_close` appends `z` and changes nothing else. */
  lemma AndCloseAppendsZ(b: Builder)
    ensures Apply(b, AndClose) == b.(commands := b.commands + ["z"])
  {
    assert Render(Segment("z", [])) == "z";
  }

  // ---- the commands against the SVG path grammar ----

  /** Number of arguments each command letter takes in SVG path data
      (section 8.3 of SVG 1.1, one repetition). */
  function SvgArity(letter: string): Option<nat>
  {
    if |letter| != 1 then None
    else if letter[0] in {'M', 'm', 'L', 'l', 'T', 't'} then Some(2)
    else if letter[0] in {'S', 's', 'Q', 'q'} then Some(4)
    else if letter[0] in {'C', 'c'} then Some(6)
    else if letter[0] in {'A', 'a'} then Some(7)
    else if letter[0] in {'Z', 'z'} then Some(0)
    else None
  }

  /** Calls whose optional coordinates come in pairs. */
  predicate WellShaped(op: PathOp)
  {
    (op.CurveTo? ==> op.x3.Some? == op.y3.Some?) &&
    (op.QCurveTo? ==> op.qx2.Some? == op.qy2.Some?)
  }

  /** Every command emitted by a well-shaped call is an SVG command with the
      number of arguments its letter takes. */
  lemma EmittedCommandsAreSvg(b: Builder, op: PathOp)
    requires WellShaped(op) && Emit(b, op).Some?
    ensures SvgArity(Emit(b, op).value.letter) == Some(|Emit(b, op).value.args|)
  {
  }

  /** With `x3` given and `y3` missing, `curve_to` emits a command with no
      letter at all. */
  lemma CurveWithOddArgumentsHasNoLetter(b: Builder)
    ensures Emit(b, CurveTo(1, 2, 3, 4, None, Some(6))) == Some(Segment("", [1, 2, 3, 4, 6]))
    ensures SvgArity(Emit(b, CurveTo(1, 2, 3, 4, None, Some(6))).value.letter).None?
  {
    assert CurveArgs(1, 2, 3, 4, None, Some(6)) == [1, 2, 3, 4, 6];
  }

  /** The current point after a segment, as SVG path data defines it: the
      last coordinate pair, added to the current point for a lowercase
      letter. `None` for `z` (its end point is the subpath start, which the
      builder does not track) and for anything that is not a command. */
  function SvgEndPoint(x: int, y: int, s: Segment): Option<(int, int)>
  {
    var n := |s.args|;
    if n < 2 || |s.letter| != 1 then None
    else if s.letter[0] in {'M', 'L', 'T', 'C', 'S', 'Q', 'A'} then Some((s.args[n - 2], s.args[n - 1]))
    else if s.letter[0] in {'m', 'l', 't', 'c', 's', 'q', 'a'} then Some((x + s.args[n - 2], y + s.args[n - 1]))
    else None
  }

  /** The cursor `(x, y)` after a drawing call is the SVG current point after
      the command it emitted, except for a relative `arc_to` (see
      `RelativeArcLosesCursor`) and `and_close`. */
  lemma CursorIsSvgCurrentPoint(b: Builder, op: PathOp)
    requires IsDraw(op) && !Raises(op) && WellShaped(op) && !op.AndClose?
    requires !(op.ArcTo? && b.mode == Relative)
    ensures SvgEndPoint(b.x, b.y, Emit(b, op).value) == Some((Apply(b, op).x, Apply(b, op).y))
  {
    match op {
      case RoundedCorner(radius, r, direction) =>
        var v := CornerArgs(radius, r, direction).value;
        assert CurveArgs(v[0], v[1], v[2], v[3], Some(v[4]), Some(v[5])) == v;
        CursorAfterCurve(b.(mode := Relative), CornerCurve(v));
      case CurveTo(_, _, _, _, _, _) => CursorAfterCurve(b, op);
      case QCurveTo(_, _, _, _) => CursorAfterQCurve(b, op);
      case _ => CursorAfterLine(b, op);
    }
  }

  lemma CursorAfterCurve(b: Builder, op: PathOp)
    requires op.CurveTo? && WellShaped(op)
    ensures SvgEndPoint(b.x, b.y, EmitDraw(b, op).value) == Some((Draw(b, op).x, Draw(b, op).y))
  {
    var a := CurveArgs(op.x1, op.y1, op.x2, op.y2, op.x3, op.y3);
    assert |a| == 4 || |a| == 6;
  }

  lemma CursorAfterQCurve(b: Builder, op: PathOp)
    requires op.QCurveTo? && WellShaped(op)
    ensures SvgEndPoint(b.x, b.y, EmitDraw(b, op).value) == Some((Draw(b, op).x, Draw(b, op).y))
  {
    var a := QCurveArgs(op.qx1, op.qy1, op.qx2, op.qy2);
    assert |a| == 2 || |a| == 4;
  }

  lemma CursorAfterLine(b: Builder, op: PathOp)
    requires op.MoveTo? || op.LineTo? || op.CplineTo? || (op.ArcTo? && b.mode == Absolute)
    ensures SvgEndPoint(b.x, b.y, EmitDraw(b, op).value) == Some((Draw(b, op).x, Draw(b, op).y))
  {
  }

  /** `arc_to` ignores relative mode: after a relative arc the cursor is the
      arc's `(x, y)`, not the SVG current point. */
  lemma RelativeArcLosesCursor()
    ensures var b := NewBuilder(Some("")).(mode := Relative, x := 10, y := 20);
            var op := ArcTo(5, 5, 0, 0, 1, 3, 4);
            (Apply(b, op).x, Apply(b, op).y) == (3, 4) &&
            SvgEndPoint(b.x, b.y, Emit(b, op).value) == Some((13, 24))
  {
  }

  // ---- the result string ----

  /** A call that appends a command extends `result` at its end: after a
      space, or directly after the initial-path prefix when it is the first
      command. */
  lemma ResultAfterCall(b: Builder, op: PathOp)
    requires IsDraw(op) && !Raises(op)
    ensures ResultString(Apply(b, op)) ==
            ResultString(b) + (if b.commands == [] then "" else " ") + Render(Emit(b, op).value)
  {
    DrawAppendsOne(b, op);
    JoinSnoc(b.commands, Render(Emit(b, op).value), " ");
  }

  /** With the default empty initial path, `result` still starts with a
      space, because `''` is a true value in Ruby. */
  lemma EmptyInitialPathLeadsWithSpace(op: PathOp)
    requires IsDraw(op) && !Raises(op)
    ensures ResultString(Apply(NewBuilder(Some("")), op)) == " " + Render(Emit(NewBuilder(Some("")), op).value)
  {
    ResultAfterCall(NewBuilder(Some("")), op);
  }

  /** Every command the builder emits is plain text (letters, digits,
      minus signs and spaces), so its JSON string is the text in quotes. */
  lemma EmittedCommandIsPlain(b: Builder, op: PathOp)
    requires Emit(b, op).Some?
    ensures Plain(Render(Emit(b, op).value))
  {
    var s := Emit(b, op).value;
    assert Plain(s.letter);
    var parts := Decimals(s.args);
    DecimalsArePlain(s.args);
    JoinPlain(parts, " ");
    var r := Render(s);
    assert r == s.letter + Join(parts, " ");
    forall k | 0 <= k < |r| ensures r[k] != '"' && r[k] != '\\' {
      if k >= |s.letter| {
        assert r[k] == Join(parts, " ")[k - |s.letter|];
      }
    }
  }

  predicate PlainCommands(b: Builder)
  {
    forall k :: 0 <= k < |b.commands| ==> Plain(b.commands[k])
  }

  // ---- blocks of calls ----

  /** Number of calls that emit a command. */
  function CountDraws(ops: seq<PathOp>): nat
  {
    if ops == [] then 0 else (if IsDraw(ops[0]) then 1 else 0) + CountDraws(ops[1..])
  }

  /** Running one more call after a block. */
  lemma {:induction false} RunSnoc(b: Builder, ops: seq<PathOp>, op: PathOp)
    ensures Run(b, ops + [op]) ==
            if Run(b, ops).None? || Raises(op) then None else Some(Apply(Run(b, ops).value, op))
    decreases |ops|
  {
    if ops != [] {
      assert (ops + [op])[1..] == ops[1..] + [op];
      if !Raises(ops[0]) {
        RunSnoc(Apply(b, ops[0]), ops[1..], op);
      }
    }
  }

  /** A block that does not raise appends one command per drawing call and
      keeps every command that was already there, in front. */
  lemma {:induction false} RunAppendsPerDraw(b: Builder, ops: seq<PathOp>)
    requires Run(b, ops).Some?
    ensures |Run(b, ops).value.commands| == |b.commands| + CountDraws(ops)
    ensures Run(b, ops).value.commands[..|b.commands|] == b.commands
    ensures Run(b, ops).value.initialPath == b.initialPath
    decreases |ops|
  {
    if ops != [] {
      var next := Apply(b, ops[0]);
      RunAppendsPerDraw(next, ops[1..]);
      if IsDraw(ops[0]) {
        DrawAppendsOne(b, ops[0]);
      }
      var c := Run(b, ops).value.commands;
      assert c[..|next.commands|] == next.commands;
      assert c[..|b.commands|] == c[..|next.commands|][..|b.commands|];
    }
  }

  /** A block raises exactly when one of its calls is a rounded corner with a
      bad direction. */
  lemma {:induction false} RunRaisesIffBadCorner(b: Builder, ops: seq<PathOp>)
    ensures Run(b, ops).None? <==> exists k :: 0 <= k < |ops| && Raises(ops[k])
    decreases |ops|
  {
    if ops != [] {
      RunRaisesIffBadCorner(Apply(b, ops[0]), ops[1..]);
      if exists k :: 0 <= k < |ops[1..]| && Raises(ops[1..][k]) {
        var k :| 0 <= k < |ops[1..]| && Raises(ops[1..][k]);
        assert Raises(ops[k + 1]);
      }
      if exists k :: 0 <= k < |ops| && Raises(ops[k]) {
        var k :| 0 <= k < |ops| && Raises(ops[k]);
        if k > 0 { assert Raises(ops[1..][k - 1]); }
      }
    }
  }

  /** A block run on a builder whose commands are plain leaves them plain. */
  lemma {:induction false} RunKeepsPlain(b: Builder, ops: seq<PathOp>)
    requires PlainCommands(b) && Run(b, ops).Some?
    ensures PlainCommands(Run(b, ops).value)
    decreases |ops|
  {
    if ops != [] {
      if IsDraw(ops[0]) {
        DrawAppendsOne(b, ops[0]);
        EmittedCommandIsPlain(b, ops[0]);
      }
      assert PlainCommands(Apply(b, ops[0]));
      RunKeepsPlain(Apply(b, ops[0]), ops[1..]);
    }
  }

  /** A path built from a plain initial path is plain: `to_json` wraps it
      in quotes and changes nothing else. This holds for the model's
      `Escape`, which escapes only `"` and `\`; real JSON also escapes
      control characters, which `Plain` allows, so for an initial path
      holding one the source's quoted text differs. */
  lemma ResultIsPlain(initialPath: string, ops: seq<PathOp>)
    requires Plain(initialPath) && Run(NewBuilder(Some(initialPath)), ops).Some?
    ensures Plain(ResultString(Run(NewBuilder(Some(initialPath)), ops).value))
    ensures Quote(ResultString(Run(NewBuilder(Some(initialPath)), ops).value)) ==
            "\"" + ResultString(Run(NewBuilder(Some(initialPath)), ops).value) + "\""
  {
    var b := Run(NewBuilder(Some(initialPath)), ops).value;
    RunKeepsPlain(NewBuilder(Some(initialPath)), ops);
    RunAppendsPerDraw(NewBuilder(Some(initialPath)), ops);
    JoinPlain(b.commands, " ");
    assert ResultString(b) == initialPath + " " + Join(b.commands, " ");
  }

  /** `PathBuilder`: the builder object the path block runs against. */
  class PathBuilder {
    var initialPath: Option<string>
    var mode: Mode
    var x: int
    var y: int
    var controlX: int
    var controlY: int
    var commands: seq<string>

    function State(): Builder
      reads this
    {
      Builder(initialPath, mode, x, y, controlX, controlY, commands)
    }

    constructor (initialPath: Option<string>)
      ensures State() == NewBuilder(initialPath)
    {
      this.initialPath := initialPath;
      mode := Absolute;
      x, y, controlX, controlY := 0, 0, 0, 0;
      commands := [];
    }

    /** `relatively` */
    method Relatively()
      modifies this
      ensures State() == Apply(old(State()), PathOp.Relatively)
    {
      mode := Relative;
    }

    /** `absolutely` */
    method Absolutely()
      modifies this
      ensures State() == Apply(old(State()), PathOp.Absolutely)
    {
      mode := Absolute;
    }

    /** `move_to` */
    method MoveTo(x: int, y: int)
      modifies this
      ensures State() == Apply(old(State()), PathOp.MoveTo(x, y))
    {
      var command := Letter(mode, 'M', 'm');
      commands := commands + [Render(Segment(command, [x, y]))];
      this.x := (if mode == Absolute then 0 else this.x) + x;
      this.y := (if mode == Absolute then 0 else this.y) + y;
    }

    /** `line_to` */
    method LineTo(x: int, y: int)
      modifies this
      ensures State() == Apply(old(State()), PathOp.LineTo(x, y))
    {
      var command := Letter(mode, 'L', 'l');
      commands := commands + [Render(Segment(command, [x, y]))];
      this.x := (if mode == Absolute then 0 else this.x) + x;
      this.y := (if mode == Absolute then 0 else this.y) + y;
    }

    /** `arc_to` */
    method ArcTo(rx: int, ry: int, rotation: int, largeArc: int, sweep: int, x: int, y: int)
      modifies this
      ensures State() == Apply(old(State()), PathOp.ArcTo(rx, ry, rotation, largeArc, sweep, x, y))
    {
      var args := [rx, ry, rotation, largeArc, sweep, x, y];
      var command := Letter(mode, 'A', 'a');
      commands := commands + [Render(Segment(command, args))];
      this.x := x;
      this.y := y;
    }

    /** `curve_to` */
    method CurveTo(x1: int, y1: int, x2: int, y2: int, x3: Option<int>, y3: Option<int>)
      modifies this
      ensures State() == Apply(old(State()), PathOp.CurveTo(x1, y1, x2, y2, x3, y3))
    {
      var args := CurveArgs(x1, y1, x2, y2, x3, y3);
      var n := |args|;
      var command := if n == 4 then Letter(mode, 'S', 's')
                     else if n == 6 then Letter(mode, 'C', 'c') else "";
      ghost var before := State();
      assert EmitDraw(before, PathOp.CurveTo(x1, y1, x2, y2, x3, y3)) == Some(Segment(command, args));
      commands := commands + [Render(Segment(command, args))];
      x := (if mode == Absolute then 0 else x) + args[n - 2];
      y := (if mode == Absolute then 0 else y) + args[n - 1];
      controlX := args[n - 4];
      controlY := args[n - 3];
    }

    /** `qcurve_to` */
    method QCurveTo(x1: int, y1: int, x2: Option<int>, y2: Option<int>)
      modifies this
      ensures State() == Apply(old(State()), PathOp.QCurveTo(x1, y1, x2, y2))
    {
      var args := QCurveArgs(x1, y1, x2, y2);
      var n := |args|;
      var command := if n == 2 then Letter(mode, 'T', 't')
                     else if n == 4 then Letter(mode, 'Q', 'q') else "";
      ghost var before := State();
      assert EmitDraw(before, PathOp.QCurveTo(x1, y1, x2, y2)) == Some(Segment(command, args));
      commands := commands + [Render(Segment(command, args))];
      x := (if mode == Absolute then 0 else x) + args[n - 2];
      y := (if mode == Absolute then 0 else y) + args[n - 1];
    }

    /** `cpline_to`. Returns `None` where Ruby returns the builder; with a
        width the method's value is the last assignment, the integer `y`. */
    method CplineTo(x: int, y: int, w: Option<int>) returns (value: Option<int>)
      modifies this
      ensures State() == Apply(old(State()), PathOp.CplineTo(x, y, w))
      ensures value == if w.None? then None else Some(y)
    {
      if w.None? {
        LineTo(x, y);
        return None;
      }
      var command := Letter(mode, 'C', 'c');
      var args := [this.x + w.value, this.y, x - w.value, y, x, y];
      ghost var before := State();
      assert EmitDraw(before, PathOp.CplineTo(x, y, w)) == Some(Segment(command, args));
      commands := commands + [Render(Segment(command, args))];
      this.x := (if mode == Absolute then 0 else this.x) + x;
      this.y := (if mode == Absolute then 0 else this.y) + y;
      controlX := x - w.value;
      controlY := y;
      value := Some(y);
    }

    /** `rounded_corner`; `raised` when the direction is not one of the
        eight, in which case the mode is left relative. */
    method RoundedCorner(radius: int, r: int, direction: string) returns (raised: bool)
      modifies this
      ensures State() == Apply(old(State()), PathOp.RoundedCorner(radius, r, direction))
      ensures raised == Raises(PathOp.RoundedCorner(radius, r, direction))
    {
      var oldMode := mode;
      mode := Relative;
      var a := CornerArgs(radius, r, direction);
      if a.None? {
        return true;
      }
      var args := a.value;
      CurveTo(args[0], args[1], args[2], args[3], Some(args[4]), Some(args[5]));
      mode := oldMode;
      raised := false;
    }

    /** `and_close` */
    method AndClose()
      modifies this
      ensures State() == Apply(old(State()), PathOp.AndClose)
    {
      assert Render(Segment("z", [])) == "z";
      commands := commands + ["z"];
    }

    /** One call of a path block. */
    method Perform(op: PathOp) returns (raised: bool)
      modifies this
      ensures State() == Apply(old(State()), op)
      ensures raised == Raises(op)
    {
      raised := false;
      match op {
        case Relatively => Relatively();
        case Absolutely => Absolutely();
        case MoveTo(x, y) => MoveTo(x, y);
        case LineTo(x, y) => LineTo(x, y);
        case ArcTo(rx, ry, rot, large, sweep, x, y) => ArcTo(rx, ry, rot, large, sweep, x, y);
        case CurveTo(x1, y1, x2, y2, x3, y3) => CurveTo(x1, y1, x2, y2, x3, y3);
        case QCurveTo(x1, y1, x2, y2) => QCurveTo(x1, y1, x2, y2);
        case CplineTo(x, y, w) => var _ := CplineTo(x, y, w);
        case RoundedCorner(radius, r, direction) => raised := RoundedCorner(radius, r, direction);
        case AndClose => AndClose();
      }
    }

    /** A whole path block, stopping at the first call that raises. */
    method PerformAll(ops: seq<PathOp>) returns (raised: bool)
      modifies this
      ensures raised <==> Run(old(State()), ops).None?
      ensures !raised ==> State() == Run(old(State()), ops).value
    {
      var i := 0;
      while i < |ops|
        invariant 0 <= i <= |ops|
        invariant Run(old(State()), ops[..i]) == Some(State())
      {
        raised := Perform(ops[i]);
        RunSnoc(old(State()), ops[..i], ops[i]);
        assert ops[..i + 1] == ops[..i] + [ops[i]];
        if raised {
          RunRaisesIffBadCorner(old(State()), ops);
          return;
        }
        i := i + 1;
      }
      assert ops[..i] == ops;
      raised := false;
    }

    /** `result` */
    function Result(): string
      reads this
    {
      ResultString(State())
    }
  }
}
