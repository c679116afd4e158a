/** The older element classes of lib/canvas/elements.rb: `BasicShape` and
    its `Circle`, `Rect`, `Ellipse`, `Text` and `Path`. They share the
    naming and the `js_method` rendering of the newer `RaphaelElement`
    (see module `Elements`), but differ in the attribute setter, `rotate`,
    `scale`, the creation statements, and the path, whose calls become
    JavaScript method calls instead of an SVG path string. `chainable`
    makes most methods return the element; methods below that return
    nothing stand for that. */
module Legacy {
  import opened Text
  import opened Values
  import opened Attributes
  import opened Canvases
  import opened Boundingbox
  import Elements

  // ---- the attribute setter (elements.rb:110-120) ----

  /** The name the older setter looks up: stripped, underscores kept. */
  function KeptName(attribute: Value): string
  {
    SanitizeKeepUnderscore(Display(attribute))
  }

  /** What `self[attribute] = value` appends: the `attr` statement for a
      listed name, nothing for any other. */
  function ListedAttr(name: string, attribute: Value, value: Value): seq<string>
  {
    if IsListed(KeptName(attribute)) then [Elements.AttrStatement(name, KeptName(attribute), value)] else []
  }

  /** What `apply_attributes(attributes)` appends. */
  function ListedAttrStatements(name: string, attributes: Entries): seq<string>
  {
    if attributes == [] then []
    else
      var last := attributes[|attributes| - 1];
      ListedAttrStatements(name, attributes[..|attributes| - 1]) + ListedAttr(name, last.0, last.1)
  }

  /** The entries whose kept name is on the whitelist, in order. */
  function ListedEntries(attributes: Entries): Entries
  {
    if attributes == [] then []
    else
      var last := attributes[|attributes| - 1];
      ListedEntries(attributes[..|attributes| - 1]) + (if IsListed(KeptName(last.0)) then [last] else [])
  }

  /** On a listed name the two setters clean alike. */
  lemma ListedKeptNameIsDashedName(attribute: Value)
    requires IsListed(KeptName(attribute))
    ensures Elements.DashedName(attribute) == KeptName(attribute)
  {
    var t := KeptName(attribute);
    ListedNamesAreClean(t);
    assert StripUnsafe(t) == t;
  }

  /** The older `apply_attributes` appends exactly what the newer one would
      append for the listed entries, and nothing for the others. */
  lemma {:induction false} OldSetterIsNewSetterOnListed(name: string, attributes: Entries)
    ensures ListedAttrStatements(name, attributes) == Elements.AttrStatements(name, ListedEntries(attributes))
  {
    if attributes != [] {
      var init := attributes[..|attributes| - 1];
      var last := attributes[|attributes| - 1];
      OldSetterIsNewSetterOnListed(name, init);
      assert ListedAttrStatements(name, attributes) ==
             ListedAttrStatements(name, init) + ListedAttr(name, last.0, last.1);
      if IsListed(KeptName(last.0)) {
        ListedKeptNameIsDashedName(last.0);
        var l := ListedEntries(init) + [last];
        assert ListedEntries(attributes) == l;
        assert l[..|l| - 1] == ListedEntries(init);
        assert Elements.AttrStatements(name, l) ==
               Elements.AttrStatements(name, ListedEntries(init)) + [Elements.AttrStatement(name, KeptName(last.0), last.1)];
      } else {
        assert ListedEntries(attributes) == ListedEntries(init) + [];
        assert ListedEntries(init) + [] == ListedEntries(init);
        assert ListedAttr(name, last.0, last.1) == [];
        assert ListedAttrStatements(name, init) + [] == ListedAttrStatements(name, init);
      }
    }
  }

  /** `fill_opacity` is dropped by the older setter and becomes
      `fill-opacity` under the newer one. */
  lemma SettersDisagreeOnUnderscore(name: string, value: Value)
    ensures ListedAttr(name, Sym("fill_opacity"), value) == []
    ensures Elements.DashedName(Sym("fill_opacity")) == "fill-opacity"
  {
    FillOpacityKept();
    FillOpacityDashed();
  }

  // ---- the older path calls (elements.rb:231-288) ----

  const ValidDirections: seq<string> := ["lu", "ld", "ru", "rd", "ur", "ul", "dr", "dl"]

  /** A call inside the block of the older `Path`; `Missing` is any other
      method name, which goes to `method_missing`. */
  datatype PathCall =
    | Relatively
    | Absolutely
    | MoveTo(x: Value, y: Value)
    | LineTo(x: Value, y: Value)
    | CplineTo(x: Value, y: Value, width: Value)
    | CurveTo(x1: Value, y1: Value, x2: Value, y2: Value, x3: Value, y3: Value)
    | QCurveTo(qx1: Value, qy1: Value, qx2: Value, qy2: Value)
    | RoundedCorner(radius: Value, direction: Value)
    | AndClose
    | Missing(methodName: string, args: seq<Value>)

  /** `name.to_s =~ /^(lu|ld|ru|rd|ur|ul|dr|dl)_corner$/`, giving the
      captured direction. */
  function CornerDirection(methodName: string): (r: Option<string>)
    ensures r.Some? ==> r.value in ValidDirections && methodName == r.value + "_corner"
    ensures forall d :: d in ValidDirections && methodName == d + "_corner" ==> r == Some(d)
  {
    if |methodName| == 9 && methodName[2..] == "_corner" && methodName[..2] in ValidDirections then
      Some(methodName[..2])
    else None
  }

  /** The statement a path call other than `Missing` appends; `None` when
      it raises (`rounded_corner` with a direction that is not a String or
      not one of the eight). */
  function CallStatement(name: string, call: PathCall): (r: Option<string>)
    requires !call.Missing?
    ensures r.None? <==> call.RoundedCorner? &&
                         !(call.direction.Str? && call.direction.s in ValidDirections)
  {
    match call
    case Relatively => Some(Elements.JsMethod(name, "relatively", []))
    case Absolutely => Some(Elements.JsMethod(name, "absolutely", []))
    case MoveTo(x, y) => Some(Elements.JsMethod(name, "moveTo", [x, y]))
    case LineTo(x, y) => Some(Elements.JsMethod(name, "lineTo", [x, y]))
    case CplineTo(x, y, w) => Some(Elements.JsMethod(name, "cplineTo", [x, y, w]))
    case CurveTo(x1, y1, x2, y2, x3, y3) => Some(Elements.JsMethod(name, "curveTo", [x1, y1, x2, y2, x3, y3]))
    case QCurveTo(x1, y1, x2, y2) => Some(Elements.JsMethod(name, "qcurveTo", [x1, y1, x2, y2]))
    case RoundedCorner(radius, direction) =>
      if !direction.Str? || direction.s !in ValidDirections then None
      else Some(Elements.JsMethod(name, "addRoundedCorner", [radius, direction]))
    case AndClose => Some(Elements.JsMethod(name, "andClose", []))
  }

  /** What one call appends and whether it raised. A `<dir>_corner` name
      becomes `rounded_corner(args[0], dir)`; any other missing name goes
      to the element's `method_missing`, which sets that attribute. A call
      appends at most one statement, and it raises exactly when it is
      `rounded_corner` with a bad direction, having appended nothing. */
  function CallOutcome(name: string, call: PathCall): (r: (seq<string>, bool))
    ensures |r.0| <= 1
    ensures r.1 ==> r.0 == []
    ensures r.1 <==> call.RoundedCorner? && !(call.direction.Str? && call.direction.s in ValidDirections)
  {
    if call.Missing? then
      var direction := CornerDirection(call.methodName);
      if direction.Some? then StatementOutcome(name, RoundedCorner(At(call.args, 0), Str(direction.value)))
      else (ListedAttr(name, Sym(call.methodName), At(call.args, 0)), false)
    else StatementOutcome(name, call)
  }

  /** The outcome of a call that has its own method. */
  function StatementOutcome(name: string, call: PathCall): (r: (seq<string>, bool))
    requires !call.Missing?
    ensures r.1 <==> CallStatement(name, call).None?
  {
    var s := CallStatement(name, call);
    if s.None? then ([], true) else ([s.value], false)
  }

  /** A `<dir>_corner` call never raises and appends one
      `addRoundedCorner` statement. */
  lemma CornerNamesRoute(name: string, direction: string, args: seq<Value>)
    requires direction in ValidDirections
    ensures CallOutcome(name, Missing(direction + "_corner", args)) ==
            ([Elements.JsMethod(name, "addRoundedCorner", [At(args, 0), Str(direction)])], false)
  {
    var m := direction + "_corner";
    assert m[2..] == "_corner" && m[..2] == direction;
  }

  /** The statements a block appends, up to and including the call that
      raises, and whether one did; at most one statement per call. */
  function BlockOutcome(name: string, calls: seq<PathCall>): (r: (seq<string>, bool))
    ensures |r.0| <= |calls|
  {
    if calls == [] then ([], false)
    else
      var (first, raised) := CallOutcome(name, calls[0]);
      if raised then (first, true)
      else
        var (rest, restRaised) := BlockOutcome(name, calls[1..]);
        (first + rest, restRaised)
  }

  /** A block raises exactly when one of its calls would. */
  lemma {:induction false} BlockRaisesIffSomeCallRaises(name: string, calls: seq<PathCall>)
    ensures BlockOutcome(name, calls).1 <==> exists k :: 0 <= k < |calls| && CallOutcome(name, calls[k]).1
  {
    if calls != [] {
      var tail := calls[1..];
      BlockRaisesIffSomeCallRaises(name, tail);
      if BlockOutcome(name, calls).1 && !CallOutcome(name, calls[0]).1 {
        var k :| 0 <= k < |tail| && CallOutcome(name, tail[k]).1;
        assert tail[k] == calls[k + 1];
      }
      if exists k :: 0 <= k < |calls| && CallOutcome(name, calls[k]).1 {
        var k :| 0 <= k < |calls| && CallOutcome(name, calls[k]).1;
        if k > 0 && !CallOutcome(name, calls[0]).1 {
          assert tail[k - 1] == calls[k];
        }
      }
    }
  }

  /** Running one more call after a block that did not raise. */
  lemma {:induction false} BlockSnoc(name: string, calls: seq<PathCall>, call: PathCall)
    requires !BlockOutcome(name, calls).1
    ensures BlockOutcome(name, calls + [call]) ==
            (BlockOutcome(name, calls).0 + CallOutcome(name, call).0, CallOutcome(name, call).1)
  {
    var (out, raised) := CallOutcome(name, call);
    if calls == [] {
      assert BlockOutcome(name, [call]) == (out + [], raised);
      assert out + [] == [] + out;
    } else {
      assert (calls + [call])[0] == calls[0];
      assert (calls + [call])[1..] == calls[1..] + [call];
      BlockSnoc(name, calls[1..], call);
      var first := CallOutcome(name, calls[0]).0;
      AppendAssociates(first, BlockOutcome(name, calls[1..]).0, out);
    }
  }

  // ---- the element object ----

  class BasicShape {
    const canvas: Canvas
    /** The lower-cased class name: circle, rect, ellipse, text or path. */
    const kind: string
    var name: string
    var bbox: BBox?

    /** The part of `initialize` after the name is chosen (see
        `Elements.ElementName`, with the time stamp as the suffix). */
    constructor (canvas: Canvas, kind: string, name: string)
      ensures this.canvas == canvas && this.kind == kind && this.name == name && bbox == null
    {
      this.canvas := canvas;
      this.kind := kind;
      this.name := name;
      bbox := null;
    }

    /** `self[attribute] = value`: underscores are kept, and only a listed
        name appends a statement; `accepted` stands for the element or
        `nil` returned. */
    method SetAttribute(attribute: Value, value: Value) returns (accepted: bool)
      modifies canvas
      ensures accepted == IsListed(KeptName(attribute))
      ensures canvas.contents == old(canvas.contents) + ListedAttr(name, attribute, value)
    {
      var cleaned := SanitizeKeepUnderscore(Display(attribute));
      if !IsListed(cleaned) {
        return false;
      }
      canvas.Append(Elements.AttrStatement(name, cleaned, value));
      accepted := true;
    }

    /** `attr(name, value)`, made chainable: returns the element either
        way. */
    method Attr(attribute: Value, value: Value)
      modifies canvas
      ensures canvas.contents == old(canvas.contents) + ListedAttr(name, attribute, value)
    {
      var _ := SetAttribute(attribute, value);
    }

    /** `apply_attributes(attributes)` */
    method ApplyAttributes(attributes: Entries)
      modifies canvas
      ensures canvas.contents == old(canvas.contents) + ListedAttrStatements(name, attributes)
    {
      var i := 0;
      while i < |attributes|
        invariant 0 <= i <= |attributes|
        invariant canvas.contents == old(canvas.contents) + ListedAttrStatements(name, attributes[..i])
      {
        var (key, value) := attributes[i];
        Attr(key, value);
        assert attributes[..i + 1][..i] == attributes[..i];
        assert ListedAttrStatements(name, attributes[..i + 1]) ==
               ListedAttrStatements(name, attributes[..i]) + ListedAttr(name, key, value);
        AppendAssociates(old(canvas.contents), ListedAttrStatements(name, attributes[..i]), ListedAttr(name, key, value));
        i := i + 1;
      }
      assert attributes[..i] == attributes;
    }

    /** `rotate(angle, absolute = true, mode = :degrees)`: `!!absolute`, so
        `false` and `nil` give `false`. In `:radians` mode a non-numeric
        angle raises before anything is appended; a numeric one would be
        converted to degrees in floating point and is excluded. */
    method Rotate(angle: Value, absolute: Value, mode: Value) returns (raised: bool)
      requires !(mode == Sym("radians") && angle.Int?)
      modifies canvas
      ensures raised <==> mode == Sym("radians")
      ensures canvas.contents == old(canvas.contents) +
              (if raised then [] else [Elements.JsMethod(name, "rotate", [angle, Bool(Truthy(absolute))])])
    {
      if mode == Sym("radians") {
        return true;
      }
      canvas.Append(Elements.JsMethod(name, "rotate", [angle, Bool(Truthy(absolute))]));
      raised := false;
    }

    /** `translate(dx, dy)` */
    method Translate(dx: Value, dy: Value)
      modifies canvas
      ensures canvas.contents == old(canvas.contents) + [Elements.JsMethod(name, "translate", [dx, dy])]
    {
      canvas.Append(Elements.JsMethod(name, "translate", [dx, dy]));
    }

    /** `scale(scaleX, scaleY)`: always two arguments. */
    method Scale(sx: Value, sy: Value)
      modifies canvas
      ensures canvas.contents == old(canvas.contents) + [Elements.JsMethod(name, "scale", [sx, sy])]
    {
      canvas.Append(Elements.JsMethod(name, "scale", [sx, sy]));
    }

    /** `scale_x(x)`: `scale(x, 1)`. */
    method ScaleX(x: Value)
      modifies canvas
      ensures canvas.contents == old(canvas.contents) + [Elements.JsMethod(name, "scale", [x, Int(1)])]
    {
      Scale(x, Int(1));
    }

    /** `scale_y(y)`: `scale(1, y)`. */
    method ScaleY(y: Value)
      modifies canvas
      ensures canvas.contents == old(canvas.contents) + [Elements.JsMethod(name, "scale", [Int(1), y])]
    {
      Scale(Int(1), y);
    }

    /** `bbox(args)`, memoised as in the newer element. */
    method Bbox(args: Entries) returns (box: BBox)
      modifies this, canvas
      ensures name == old(name)
      ensures var given := Lookup(args, Sym("name"));
              var reload := Truthy(Lookup(Remove(args, Sym("name")), Sym("reload")));
              if reload || old(bbox) == null then
                fresh(box) && bbox == box && box.canvas == canvas && box.elementName == name &&
                box.name == BoxName(given, name) && box.readable == NamedByString(given) &&
                canvas.contents == old(canvas.contents) + [GetBBoxStatement(false, box.name, name)]
              else
                box == old(bbox) && bbox == old(bbox) && canvas.contents == old(canvas.contents)
    {
      var (given, rest) := Delete(args, Sym("name"));
      if Truthy(Lookup(rest, Sym("reload"))) || bbox == null {
        box := new BBox(canvas, name, given);
        bbox := box;
      } else {
        box := bbox;
      }
    }

    /** `node` */
    method Node() returns (nodeName: string)
      modifies canvas
      ensures nodeName == name + "_node"
      ensures canvas.contents == old(canvas.contents) + [Elements.NodeStatement(name)]
    {
      nodeName := name + "_node";
      canvas.Append(Elements.NodeStatement(name));
    }

    /** `to_front` */
    method ToFront()
      modifies canvas
      ensures canvas.contents == old(canvas.contents) + [Elements.JsMethod(name, "toFront", [])]
    {
      canvas.Append(Elements.JsMethod(name, "toFront", []));
    }

    /** `to_back` */
    method ToBack()
      modifies canvas
      ensures canvas.contents == old(canvas.contents) + [Elements.JsMethod(name, "toBack", [])]
    {
      canvas.Append(Elements.JsMethod(name, "toBack", []));
    }

    /** `rounded_corner(radius, direction)` of the older `Path`: raises,
        appending nothing, unless the direction is one of the eight
        strings. */
    method RoundedCorner(radius: Value, direction: Value) returns (raised: bool)
      requires kind == "path"
      modifies canvas
      ensures (canvas.contents, raised) ==
              (old(canvas.contents) + CallOutcome(name, PathCall.RoundedCorner(radius, direction)).0,
               CallOutcome(name, PathCall.RoundedCorner(radius, direction)).1)
    {
      if !direction.Str? || direction.s !in ValidDirections {
        assert CallOutcome(name, PathCall.RoundedCorner(radius, direction)) == ([], true);
        assert old(canvas.contents) + [] == old(canvas.contents);
        return true;
      }
      assert CallStatement(name, PathCall.RoundedCorner(radius, direction)) ==
             Some(Elements.JsMethod(name, "addRoundedCorner", [radius, direction]));
      canvas.Append(Elements.JsMethod(name, "addRoundedCorner", [radius, direction]));
      raised := false;
    }

    /** `method_missing(name, *args)`. On a path a `<dir>_corner` name is a
        rounded corner; every other name sets that attribute to the first
        argument, and since `attr` is chainable the call never reaches
        `super`. */
    method MethodMissing(methodName: string, args: seq<Value>) returns (raised: bool)
      modifies canvas
      ensures kind == "path" ==>
                (canvas.contents, raised) ==
                (old(canvas.contents) + CallOutcome(name, Missing(methodName, args)).0,
                 CallOutcome(name, Missing(methodName, args)).1)
      ensures kind != "path" ==>
                !raised && canvas.contents == old(canvas.contents) + ListedAttr(name, Sym(methodName), At(args, 0))
    {
      var direction := CornerDirection(methodName);
      if kind == "path" && direction.Some? {
        raised := RoundedCorner(At(args, 0), Str(direction.value));
      } else {
        Attr(Sym(methodName), At(args, 0));
        raised := false;
      }
    }

    /** One call of a path block. */
    method Call(call: PathCall) returns (raised: bool)
      requires kind == "path"
      modifies canvas
      ensures (canvas.contents, raised) ==
              (old(canvas.contents) + CallOutcome(name, call).0, CallOutcome(name, call).1)
    {
      match call {
        case Missing(m, args) => raised := MethodMissing(m, args);
        case RoundedCorner(radius, direction) => raised := RoundedCorner(radius, direction);
        case _ =>
          canvas.Append(CallStatement(name, call).value);
          raised := false;
      }
    }

    /** The block of the older `Path`, evaluated on the element itself;
        it stops at the first call that raises. */
    method RunBlock(calls: seq<PathCall>) returns (raised: bool)
      requires kind == "path"
      modifies canvas
      ensures (canvas.contents, raised) ==
              (old(canvas.contents) + BlockOutcome(name, calls).0, BlockOutcome(name, calls).1)
    {
      var i := 0;
      raised := false;
      while i < |calls|
        invariant 0 <= i <= |calls|
        invariant !BlockOutcome(name, calls[..i]).1
        invariant canvas.contents == old(canvas.contents) + BlockOutcome(name, calls[..i]).0
      {
        BlockStep(name, calls, i);
        raised := Call(calls[i]);
        AppendAssociates(old(canvas.contents), BlockOutcome(name, calls[..i]).0, CallOutcome(name, calls[i]).0);
        if raised {
          BlockPrefixRaises(name, calls, i + 1);
          return;
        }
        i := i + 1;
      }
      assert calls[..i] == calls;
    }
  }

  /** Running one more call of the block, when the calls so far did not
      raise. */
  lemma BlockStep(name: string, calls: seq<PathCall>, i: nat)
    requires i < |calls| && !BlockOutcome(name, calls[..i]).1
    ensures BlockOutcome(name, calls[..i + 1]) ==
            (BlockOutcome(name, calls[..i]).0 + CallOutcome(name, calls[i]).0, CallOutcome(name, calls[i]).1)
  {
    BlockSnoc(name, calls[..i], calls[i]);
    TakeSnoc(calls, i);
  }

  /** Once a prefix of the block raises, the whole block has the same
      outcome. */
  lemma {:induction false} BlockPrefixRaises(name: string, calls: seq<PathCall>, n: nat)
    requires n <= |calls| && BlockOutcome(name, calls[..n]).1
    ensures BlockOutcome(name, calls) == BlockOutcome(name, calls[..n])
  {
    if calls != [] {
      assert n > 0;
      assert calls[..n][0] == calls[0];
      assert calls[..n][1..] == calls[1..][..n - 1];
      if !CallOutcome(name, calls[0]).1 {
        BlockPrefixRaises(name, calls[1..], n - 1);
      }
    }
  }

  // ---- the older constructors (elements.rb:167-229) ----

  /** `"#{a}, #{b}, ..."`: each argument's `to_s`, joined by ", ". */
  function DisplayArgs(args: seq<Value>): string
  {
    Join(seq(|args|, k requires 0 <= k < |args| => Display(args[k])), ", ")
  }

  /** `var <name> = <canvas>.<kind>(<argsText>);` */
  function Declaration(name: string, canvasName: string, kind: string, argsText: string): string
  {
    "var " + name + " = " + canvasName + "." + kind + "(" + argsText + ");"
  }

  /** With integer arguments the interpolated form and the JSON form of
      the newer constructors are the same text. */
  lemma IntegerArgumentsRenderAlike(args: seq<Value>)
    requires forall k :: 0 <= k < |args| ==> args[k].Int?
    ensures DisplayArgs(args) == ToJsArgs(args)
  {
    assert seq(|args|, k requires 0 <= k < |args| => Display(args[k])) ==
           seq(|args|, k requires 0 <= k < |args| => ToJson(args[k]));
  }

  /** A String argument is interpolated bare but serialised in quotes. */
  lemma StringArgumentsRenderApart(s: string)
    ensures DisplayArgs([Str(s)]) == s
    ensures ToJsArgs([Str(s)]) == Quote(s)
  {
    assert seq(1, k requires 0 <= k < 1 => Display([Str(s)][k])) == [s];
    assert seq(1, k requires 0 <= k < 1 => ToJson([Str(s)][k])) == [Quote(s)];
  }

  /** Shared body of the older constructors: name the element, declare it,
      apply the remaining options. */
  method NewShape(canvas: Canvas, kind: string, argsText: string, options: Entries, stamp: string)
    returns (e: BasicShape)
    modifies canvas
    ensures fresh(e) && e.canvas == canvas && e.kind == kind && e.bbox == null
    ensures e.name == Elements.ElementName(options, kind, stamp).0
    ensures canvas.contents == old(canvas.contents) + [Declaration(e.name, canvas.name, kind, argsText)] +
            ListedAttrStatements(e.name, Elements.ElementName(options, kind, stamp).1)
  {
    var (name, rest) := Elements.ElementName(options, kind, stamp);
    e := new BasicShape(canvas, kind, name);
    canvas.Append(Declaration(name, canvas.name, kind, argsText));
    e.ApplyAttributes(rest);
  }

  /** The older `Circle.new(canvas, cx, cy, r, options)` */
  method NewCircle(canvas: Canvas, cx: Value, cy: Value, radius: Value, options: Entries, stamp: string)
    returns (e: BasicShape)
    modifies canvas
    ensures fresh(e) && e.canvas == canvas && e.kind == "circle"
    ensures e.name == Elements.ElementName(options, "circle", stamp).0
    ensures canvas.contents == old(canvas.contents) +
            [Declaration(e.name, canvas.name, "circle", DisplayArgs([cx, cy, radius]))] +
            ListedAttrStatements(e.name, Elements.ElementName(options, "circle", stamp).1)
  {
    e := NewShape(canvas, "circle", DisplayArgs([cx, cy, radius]), options, stamp);
  }

  /** The older `Ellipse.new(canvas, cx, cy, rx, ry, options)` */
  method NewEllipse(canvas: Canvas, cx: Value, cy: Value, rx: Value, ry: Value, options: Entries, stamp: string)
    returns (e: BasicShape)
    modifies canvas
    ensures fresh(e) && e.canvas == canvas && e.kind == "ellipse"
    ensures e.name == Elements.ElementName(options, "ellipse", stamp).0
    ensures canvas.contents == old(canvas.contents) +
            [Declaration(e.name, canvas.name, "ellipse", DisplayArgs([cx, cy, rx, ry]))] +
            ListedAttrStatements(e.name, Elements.ElementName(options, "ellipse", stamp).1)
  {
    e := NewShape(canvas, "ellipse", DisplayArgs([cx, cy, rx, ry]), options, stamp);
  }

  /** The argument text of the older `Text`: `x`, `y`, then the text's
      `inspect`. */
  function TextArgs(x: Value, y: Value, text: Value): string
  {
    DisplayArgs([x, y]) + ", " + Inspect(text)
  }

  /** For integer coordinates and a String text the older and newer `Text`
      declare the element with the same statement. */
  lemma TextGenerationsAgree(name: string, canvasName: string, x: int, y: int, s: string)
    ensures Declaration(name, canvasName, "text", TextArgs(Int(x), Int(y), Str(s))) ==
            Elements.ShapeStatement(name, canvasName, "text", [Int(x), Int(y), Str(s)])
  {
    var args := [Int(x), Int(y), Str(s)];
    var parts := seq(|args|, k requires 0 <= k < |args| => ToJson(args[k]));
    assert parts == [Decimal(x), Decimal(y)] + [Quote(s)];
    JoinSnoc([Decimal(x), Decimal(y)], Quote(s), ", ");
    assert seq(2, k requires 0 <= k < 2 => Display([Int(x), Int(y)][k])) == [Decimal(x), Decimal(y)];
  }

  /** The older `Text.new(canvas, x, y, text, options)` */
  method NewText(canvas: Canvas, x: Value, y: Value, text: Value, options: Entries, stamp: string)
    returns (e: BasicShape)
    modifies canvas
    ensures fresh(e) && e.canvas == canvas && e.kind == "text"
    ensures e.name == Elements.ElementName(options, "text", stamp).0
    ensures canvas.contents == old(canvas.contents) +
            [Declaration(e.name, canvas.name, "text", TextArgs(x, y, text))] +
            ListedAttrStatements(e.name, Elements.ElementName(options, "text", stamp).1)
  {
    e := NewShape(canvas, "text", TextArgs(x, y, text), options, stamp);
  }

  /** `options.delete('rounded') || options.delete(:rounded) || 0`, taken
      before the element is named. */
  function RoundedOption(options: Entries): (r: (Value, Entries))
    ensures Truthy(r.0)
    ensures forall k :: 0 <= k < |r.1| ==> r.1[k].0 != Str("rounded")
    ensures Truthy(Lookup(options, Str("rounded"))) ==>
              r == (Lookup(options, Str("rounded")), Remove(options, Str("rounded")))
    ensures !Truthy(Lookup(options, Str("rounded"))) && Truthy(Lookup(options, Sym("rounded"))) ==>
              r == (Lookup(options, Sym("rounded")), Remove(Remove(options, Str("rounded")), Sym("rounded")))
    ensures !Truthy(Lookup(options, Str("rounded"))) && !Truthy(Lookup(options, Sym("rounded"))) ==>
              r == (Int(0), Remove(Remove(options, Str("rounded")), Sym("rounded")))
  {
    var (rounded, rest) := DeleteEither(options, Str("rounded"), Sym("rounded"));
    (Or(rounded, Int(0)), rest)
  }

  /** The older rect agrees with the newer one called without a sixth
      argument: same radius, same remaining options. */
  lemma RectGenerationsPickSameRadius(options: Entries)
    ensures RoundedOption(options) == Elements.RectSetup(Nil, options)
  {
  }

  /** The older `Rect.new(canvas, x, y, w, h, options)` */
  method NewRect(canvas: Canvas, x: Value, y: Value, width: Value, height: Value, options: Entries, stamp: string)
    returns (e: BasicShape)
    modifies canvas
    ensures var (rounded, rest) := RoundedOption(options);
            fresh(e) && e.canvas == canvas && e.kind == "rect" &&
            e.name == Elements.ElementName(rest, "rect", stamp).0 &&
            canvas.contents == old(canvas.contents) +
              [Declaration(e.name, canvas.name, "rect", DisplayArgs([x, y, width, height, rounded]))] +
              ListedAttrStatements(e.name, Elements.ElementName(rest, "rect", stamp).1)
  {
    var (rounded, rest) := RoundedOption(options);
    e := NewShape(canvas, "rect", DisplayArgs([x, y, width, height, rounded]), rest, stamp);
  }

  /** `path ? "" : ", #{path.to_json}"`: the path is passed only when it is
      `nil` or `false`, and then as that value. */
  function PathArgument(path: Value): (r: string)
    ensures Truthy(path) ==> r == ""
    ensures path == Nil ==> r == ", null"
    ensures path == Bool(false) ==> r == ", false"
  {
    if Truthy(path) then "" else ", " + ToJson(path)
  }

  /** The path and options of the older `Path.new(canvas, attributes_or_path,
      path)`: a String is the path, a Hash the options (the path is then the
      third argument); anything else raises. */
  function PathSetup(attributesOrPath: Value, path: Value): (r: Option<(Value, Entries)>)
    ensures r.Some? <==> attributesOrPath.Str? || attributesOrPath.Hash?
  {
    match attributesOrPath
    case Str(_) => Some((attributesOrPath, []))
    case Hash(entries) => Some((path, entries))
    case _ => None
  }

  /** A path given as a String is never written out: the element is
      declared as `path({})`. */
  lemma GivenPathIsDropped(name: string, canvasName: string, path: string)
    ensures Declaration(name, canvasName, "path", "{}" + PathArgument(PathSetup(Str(path), Nil).value.0)) ==
            "var " + name + " = " + canvasName + ".path({});"
  {
  }

  /** The older `Path.new(canvas, attributes_or_path, path) { block }`.
      `e` is `null` when it raises: for a bad first argument before
      anything is appended, for a bad corner in the block after the
      declaration, the attributes and the calls before it. */
  method NewPath(canvas: Canvas, attributesOrPath: Value, path: Value, calls: seq<PathCall>, stamp: string)
    returns (e: BasicShape?)
    modifies canvas
    ensures PathSetup(attributesOrPath, path).None? ==> e == null && canvas.contents == old(canvas.contents)
    ensures PathSetup(attributesOrPath, path).Some? ==>
              var (p, options) := PathSetup(attributesOrPath, path).value;
              var (name, rest) := Elements.ElementName(options, "path", stamp);
              (e == null <==> BlockOutcome(name, calls).1) &&
              (e != null ==> fresh(e) && e.canvas == canvas && e.kind == "path" && e.name == name) &&
              canvas.contents == old(canvas.contents) +
                [Declaration(name, canvas.name, "path", "{}" + PathArgument(p))] +
                ListedAttrStatements(name, rest) + BlockOutcome(name, calls).0
  {
    var setup := PathSetup(attributesOrPath, path);
    if setup.None? {
      return null;
    }
    var (p, options) := setup.value;
    e := NewShape(canvas, "path", "{}" + PathArgument(p), options, stamp);
    var raised := e.RunBlock(calls);
    if raised {
      e := null;
    }
  }
}
