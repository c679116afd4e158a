/** The element classes built on `RaphaelElement`
    (lib/canvas/elements/raphael_element.rb) and the constructors of its
    subclasses: circle, rect, ellipse, image, text, set and path
    (one file each under lib/canvas/elements). Each element appends JavaScript statements
    to the canvas it was created on. */
module Elements {
  import opened Text
  import opened Values
  import opened Attributes
  import opened Canvases
  import opened Boundingbox
  import opened Paths

  /** `js_method(methodname, *args)`: `<name>.<method>(<JSON args>);`;
      without arguments the parentheses are empty. */
  function JsMethod(name: string, methodName: string, args: seq<Value>): (r: string)
    ensures args == [] ==> r == name + "." + methodName + "();"
  {
    name + "." + methodName + "(" + ToJsArgs(args) + ");"
  }

  /** A method call statement names the receiver and the method, then
      closes the argument list and the statement. */
  lemma JsMethodShape(name: string, methodName: string, args: seq<Value>)
    ensures var head := name + "." + methodName + "(";
            var r := JsMethod(name, methodName, args);
            |head| + 2 <= |r| && r[..|head|] == head && r[|r| - 2..] == ");"
    ensures |JsMethod(name, methodName, args)| == |name| + |methodName| + |ToJsArgs(args)| + 4
  {
    var head := name + "." + methodName + "(";
    assert JsMethod(name, methodName, args) == head + (ToJsArgs(args) + ");");
  }

  /** The statement `self[attribute] = value` appends:
      `js_method('attr', {attribute => value})`. */
  function AttrStatement(name: string, attribute: string, value: Value): string
  {
    JsMethod(name, "attr", [Hash([(Str(attribute), value)])])
  }

  /** The attribute statement passes a one-entry JSON object whose key is
      the quoted attribute name and whose value is the value's JSON. */
  lemma AttrStatementText(name: string, attribute: string, value: Value)
    ensures AttrStatement(name, attribute, value) ==
            name + ".attr({" + Quote(attribute) + ":" + ToJson(value) + "});"
  {
    var h := Hash([(Str(attribute), value)]);
    ToJsonSingleEntry(Str(attribute), value);
    ToJsArgsSingle(h);
    AttrCallShape(name, Quote(attribute), ToJson(value));
  }

  /** The pieces of `js_method('attr', {key => value})` read as one text. */
  lemma AttrCallShape(name: string, key: string, json: string)
    ensures name + "." + "attr" + "(" + ("{" + key + ":" + json + "}") + ");" ==
            name + ".attr({" + key + ":" + json + "});"
  {
    assert "." + "attr" + "(" + "{" == ".attr({";
    assert "}" + ");" == "});";
  }

  /** The name the dashed setter looks up for an attribute key. */
  function DashedName(attribute: Value): string
  {
    SanitizeDashed(Display(attribute))
  }

  /** The statement one hash entry turns into. */
  function EntryStatement(name: string, entry: (Value, Value)): string
  {
    AttrStatement(name, DashedName(entry.0), entry.1)
  }

  /** The statements `apply_attributes(attributes)` appends, one per entry
      in hash order. */
  function AttrStatements(name: string, attributes: Entries): seq<string>
  {
    MapSeq(entry => EntryStatement(name, entry), attributes)
  }

  /** `apply_attributes` appends exactly one `attr` statement per entry, in
      order, whether or not the attribute is on the whitelist. */
  lemma AttrStatementsPerEntry(name: string, attributes: Entries)
    ensures |AttrStatements(name, attributes)| == |attributes|
    ensures forall i :: 0 <= i < |attributes| ==>
              AttrStatements(name, attributes)[i] ==
              AttrStatement(name, DashedName(attributes[i].0), attributes[i].1)
  {
    var f := entry => EntryStatement(name, entry);
    if attributes != [] {
      MapSeqAt(f, attributes, 0);
    }
    forall i | 0 <= i < |attributes|
      ensures AttrStatements(name, attributes)[i] ==
              AttrStatement(name, DashedName(attributes[i].0), attributes[i].1)
    {
      MapSeqAt(f, attributes, i);
    }
  }

  /** `fill_opacity` and `:fill_opacity` set the listed `fill-opacity`. */
  lemma UnderscoreKeysAreDashed()
    ensures DashedName(Sym("fill_opacity")) == "fill-opacity"
    ensures IsListed(DashedName(Str("fill_opacity")))
  {
    FillOpacityDashed();
    FillOpacityListed();
  }

  // ---- naming (raphael_element.rb:20-26) ----

  /** The element's name and what is left of the options:
      `options.delete('id') || options.delete(:id)`, else
      `rafa_<kind>_<uid>`. `uid` stands for `Rafa::CONFIG.generate_uid`. */
  function ElementName(options: Entries, kind: string, uid: string): (r: (string, Entries))
    ensures Truthy(Lookup(options, Str("id"))) ==>
              r == (Display(Lookup(options, Str("id"))), Remove(options, Str("id")))
    ensures !Truthy(Lookup(options, Str("id"))) && Truthy(Lookup(options, Sym("id"))) ==>
              r == (Display(Lookup(options, Sym("id"))), Remove(Remove(options, Str("id")), Sym("id")))
    ensures !Truthy(Lookup(options, Str("id"))) && !Truthy(Lookup(options, Sym("id"))) ==>
              r.0 == "rafa_" + kind + "_" + uid
    ensures forall k :: 0 <= k < |r.1| ==> r.1[k].0 != Str("id")
  {
    var (given, rest) := DeleteEither(options, Str("id"), Sym("id"));
    (if Truthy(given) then Display(given) else "rafa_" + kind + "_" + uid, rest)
  }

  /** The `id` option names the element and is never applied as an
      attribute; without it the generated name is used. */
  lemma IdOptionNamesElement(id: string, uid: string, kind: string)
    ensures ElementName([(Sym("id"), Str(id)), (Sym("fill"), Str("red"))], kind, uid) ==
            (id, [(Sym("fill"), Str("red"))])
    ensures ElementName([(Sym("fill"), Str("red"))], kind, uid) ==
            ("rafa_" + kind + "_" + uid, [(Sym("fill"), Str("red"))])
  {
    var fill := [(Sym("fill"), Str("red"))];
    var o := [(Sym("id"), Str(id))] + fill;
    assert o[1..] == fill;
    assert Lookup(o, Str("id")) == Nil && Remove(o, Str("id")) == o;
    assert Lookup(o, Sym("id")) == Str(id) && Remove(o, Sym("id")) == fill;
    assert Lookup(fill, Str("id")) == Nil && Remove(fill, Str("id")) == fill;
    assert Lookup(fill, Sym("id")) == Nil && Remove(fill, Sym("id")) == fill;
  }

  // ---- rotate (raphael_element.rb:41-61) ----

  /** `params[0] || true`, `params[1] || :degrees`, `params[2] || :degrees`. */
  function RotateParams(params: seq<Value>): (Value, Value, Value)
  {
    (Or(At(params, 0), Bool(true)), Or(At(params, 1), Sym("degrees")), Or(At(params, 2), Sym("degrees")))
  }

  /** The call would convert the angle from radians (floating point). */
  predicate SelectsRadians(params: seq<Value>)
  {
    var (first, second, third) := RotateParams(params);
    if first.Int? then second.Int? && third == Sym("radians") else second == Sym("radians")
  }

  /** The message of the `TypeError(...)` call of the coordinates check
      (raphael_element.rb:47). */
  const CoordinatesMessage := "Second and third arguments should be numeric if using coordinates"

  /** What the coordinates check appends before it raises. `TypeError(msg)`
      is a method call on the element, so `method_missing` sets the
      attribute `TypeError` to the message and returns the element. `raise`
      then asks the element for `to_str`, which `method_missing` also turns
      into an attribute, set to `nil`; the element is not a String, so
      `raise` fails with a TypeError of its own. */
  function CoordinatesErrorStatements(name: string): seq<string>
  {
    [AttrStatement(name, DashedName(Sym("TypeError")), Str(CoordinatesMessage)),
     AttrStatement(name, DashedName(Sym("to_str")), Nil)]
  }

  /** The two statements set `TypeError` to the message and `to-str` to
      `null`. */
  lemma CoordinatesErrorText(name: string)
    ensures CoordinatesErrorStatements(name) ==
            [AttrStatement(name, "TypeError", Str(CoordinatesMessage)), AttrStatement(name, "to-str", Nil)]
  {
    TypeErrorNameKept();
    ToStrNameDashed();
  }

  lemma TypeErrorNameKept()
    ensures DashedName(Sym("TypeError")) == "TypeError"
  {
    var t := "TypeError";
    assert forall k :: 0 <= k < |t| ==> IsNameChar(t[k]) && t[k] != '_';
    CleanNameKept(t);
  }

  lemma ToStrNameDashed()
    ensures DashedName(Sym("to_str")) == "to-str"
  {
    DashedJoin("to", "str");
    assert "to" + "_" + "str" == "to_str";
    assert "to" + "-" + "str" == "to-str";
  }

  /** The statements `rotate(angle, *params)` appends and whether it
      raises: it raises exactly when a numeric first parameter is not
      followed by a numeric one, after the two statements of the failed
      `TypeError(...)` call. */
  function RotateOutcome(name: string, angle: Value, params: seq<Value>): (r: (seq<string>, bool))
    requires !SelectsRadians(params)
    ensures r.1 <==> At(params, 0).Int? && !At(params, 1).Int?
    ensures r.1 ==> r.0 == CoordinatesErrorStatements(name)
    ensures !r.1 ==> |r.0| == 1
  {
    var (first, second, _) := RotateParams(params);
    if first.Int? then
      if !second.Int? then (CoordinatesErrorStatements(name), true)
      else ([JsMethod(name, "rotate", [angle, first, second])], false)
    else ([JsMethod(name, "rotate", [angle, Bool(Truthy(first))])], false)
  }

  /** Without coordinates the second JavaScript argument is always `true`:
      `rotate(angle, false)` and `rotate(angle, nil)` emit the same as
      `rotate(angle)`, because `false || true` is `true`. */
  lemma RotateFlagIsAlwaysTrue(name: string, angle: Value, params: seq<Value>)
    requires !At(params, 0).Int? && !SelectsRadians(params)
    ensures RotateOutcome(name, angle, params) == ([JsMethod(name, "rotate", [angle, Bool(true)])], false)
    ensures RotateOutcome(name, angle, params) == RotateOutcome(name, angle, [])
  {
  }

  /** Two numeric parameters rotate about that point; a lone numeric one
      raises after setting the `TypeError` and `to-str` attributes. */
  lemma RotateAboutPoint(name: string, angle: Value, cx: int, cy: int, mode: Value)
    requires mode != Sym("radians")
    ensures RotateOutcome(name, angle, [Int(cx), Int(cy), mode]) ==
            ([JsMethod(name, "rotate", [angle, Int(cx), Int(cy)])], false)
    ensures RotateOutcome(name, angle, [Int(cx)]) ==
            ([AttrStatement(name, "TypeError", Str(CoordinatesMessage)), AttrStatement(name, "to-str", Nil)], true)
  {
    CoordinatesErrorText(name);
  }

  /** `[scale_x, scale_y, center_x, center_y].compact`: with both factors
      given, they lead and the given centre coordinates follow. */
  function ScaleArgs(sx: Value, sy: Value, cx: Value, cy: Value): (r: seq<Value>)
    ensures |r| <= 4
    ensures forall v :: v in r <==> v in [sx, sy, cx, cy] && v != Nil
    ensures multiset(r) == multiset([sx, sy, cx, cy])[Nil := 0]
    ensures sx != Nil && sy != Nil ==> r == [sx, sy] + Compact([cx, cy])
  {
    assert [sx, sy] + [cx, cy] == [sx, sy, cx, cy];
    if sx != Nil && sy != Nil then
      CompactKeepsLead(sx, sy, [cx, cy]);
      Compact([sx, sy, cx, cy])
    else
      Compact([sx, sy, cx, cy])
  }

  /** Missing centre coordinates are left out: `scale` emits the two
      factors alone. */
  lemma ScaleWithoutCentre(sx: Value, sy: Value)
    requires sx != Nil && sy != Nil
    ensures ScaleArgs(sx, sy, Nil, Nil) == [sx, sy]
  {
    CompactPair(sx, sy);
    assert [sx, sy] + [] == [sx, sy];
  }

  /** Given centre coordinates follow the two factors, in order. */
  lemma ScaleAboutCentre(sx: Value, sy: Value, cx: Value, cy: Value)
    requires sx != Nil && sy != Nil && cx != Nil && cy != Nil
    ensures ScaleArgs(sx, sy, cx, cy) == [sx, sy, cx, cy]
  {
    CompactPair(cx, cy);
    assert [sx, sy] + [cx, cy] == [sx, sy, cx, cy];
  }

  // ---- the element object ----

  /** `var <name>_node = <name>.node;` */
  function NodeStatement(name: string): string
  {
    "var " + name + "_node = " + name + ".node;"
  }

  class RaphaelElement {
    const canvas: Canvas
    var name: string
    var bbox: BBox?

    /** The part of `initialize` after the name is chosen (see
        `ElementName`). */
    constructor (canvas: Canvas, name: string)
      ensures this.canvas == canvas && this.name == name && bbox == null
    {
      this.canvas := canvas;
      this.name := name;
      bbox := null;
    }

    /** `self[attribute] = value`: the name is cleaned with `_` turned into
        `-`; the `attr` statement is appended whether or not the name is on
        the whitelist, and `accepted` says whether it was (Ruby returns the
        element or `nil`). */
    method SetAttribute(attribute: Value, value: Value) returns (accepted: bool)
      modifies canvas
      ensures canvas.contents == old(canvas.contents) + [AttrStatement(name, DashedName(attribute), value)]
      ensures accepted == IsListed(DashedName(attribute))
    {
      var cleaned := SanitizeDashed(Display(attribute));
      accepted := IsListed(cleaned);
      canvas.Append(AttrStatement(name, cleaned, value));
    }

    /** `attr(name, value)`: the same statement, and the element is
        returned whatever the setter returned. */
    method Attr(attribute: Value, value: Value)
      modifies canvas
      ensures canvas.contents == old(canvas.contents) + [AttrStatement(name, DashedName(attribute), value)]
    {
      var _ := SetAttribute(attribute, value);
    }

    /** `method_missing(name, *args)`: every unknown method sets the
        attribute of that name to its first argument. `attr` always returns
        the element, so the fall-back to `super` is never taken. */
    method MethodMissing(methodName: string, args: seq<Value>)
      modifies canvas
      ensures canvas.contents == old(canvas.contents) + [AttrStatement(name, DashedName(Sym(methodName)), At(args, 0))]
    {
      Attr(Sym(methodName), At(args, 0));
    }

    /** `apply_attributes(attributes)` */
    method ApplyAttributes(attributes: Entries)
      modifies canvas
      ensures canvas.contents == old(canvas.contents) + AttrStatements(name, attributes)
    {
      var i := 0;
      while i < |attributes|
        invariant 0 <= i <= |attributes|
        invariant canvas.contents == old(canvas.contents) + AttrStatements(name, attributes[..i])
      {
        var (key, value) := attributes[i];
        var _ := SetAttribute(key, value);
        assert attributes[..i + 1][..i] == attributes[..i];
        i := i + 1;
      }
      assert attributes[..i] == attributes;
    }

    /** `raise TypeError("...")` of the coordinates check: both the
        `TypeError(...)` call and `raise`'s `to_str` probe reach
        `method_missing`, which appends their statements. */
    method RaiseCoordinatesError()
      modifies canvas
      ensures canvas.contents == old(canvas.contents) + CoordinatesErrorStatements(name)
    {
      MethodMissing("TypeError", [Str(CoordinatesMessage)]);
      MethodMissing("to_str", []);
    }

    /** `rotate(angle, *params)`; `raised` when it raises, after the
        failed `TypeError(...)` call has appended its two statements. */
    method Rotate(angle: Value, params: seq<Value>) returns (raised: bool)
      requires !SelectsRadians(params)
      modifies canvas
      ensures raised == RotateOutcome(name, angle, params).1
      ensures canvas.contents == old(canvas.contents) + RotateOutcome(name, angle, params).0
    {
      var absoluteOrCoord := Or(At(params, 0), Bool(true));
      var modeOrCoord := Or(At(params, 1), Sym("degrees"));
      ghost var outcome := RotateOutcome(name, angle, params);
      if absoluteOrCoord.Int? {
        if !modeOrCoord.Int? {
          RaiseCoordinatesError();
          return true;
        }
        assert outcome == ([JsMethod(name, "rotate", [angle, absoluteOrCoord, modeOrCoord])], false);
        canvas.Append(JsMethod(name, "rotate", [angle, absoluteOrCoord, modeOrCoord]));
      } else {
        assert outcome == ([JsMethod(name, "rotate", [angle, Bool(Truthy(absoluteOrCoord))])], false);
        canvas.Append(JsMethod(name, "rotate", [angle, Bool(Truthy(absoluteOrCoord))]));
      }
      raised := false;
    }

    /** `translate(dx, dy)` */
    method Translate(dx: Value, dy: Value)
      modifies canvas
      ensures canvas.contents == old(canvas.contents) + [JsMethod(name, "translate", [dx, dy])]
    {
      canvas.Append(JsMethod(name, "translate", [dx, dy]));
    }

    /** `scale(scale_x, scale_y, center_x = nil, center_y = nil)`: the
        missing centre coordinates are left out of the call. */
    method Scale(sx: Value, sy: Value, cx: Value, cy: Value)
      modifies canvas
      ensures canvas.contents == old(canvas.contents) + [JsMethod(name, "scale", ScaleArgs(sx, sy, cx, cy))]
    {
      canvas.Append(JsMethod(name, "scale", ScaleArgs(sx, sy, cx, cy)));
    }

    /** `scale_x(x, center_x, center_y)`: `scale(x, 1, ...)`. */
    method ScaleX(x: Value, cx: Value, cy: Value)
      modifies canvas
      ensures canvas.contents == old(canvas.contents) + [JsMethod(name, "scale", ScaleArgs(x, Int(1), cx, cy))]
    {
      Scale(x, Int(1), cx, cy);
    }

    /** `scale_y(y, center_x, center_y)`: `scale(1, y, ...)`. */
    method ScaleY(y: Value, cx: Value, cy: Value)
      modifies canvas
      ensures canvas.contents == old(canvas.contents) + [JsMethod(name, "scale", ScaleArgs(Int(1), y, cx, cy))]
    {
      Scale(Int(1), y, cx, cy);
    }

    /** `bbox(args)`: a new box when `:reload` is set or none exists yet,
        else the one built before, with nothing appended. A new box always
        appends its statement without `var`. */
    method Bbox(args: Entries) returns (box: BBox)
      modifies this, canvas
      ensures name == old(name)
      ensures var given := Lookup(args, Sym("name"));
              var reload := Truthy(Lookup(Remove(args, Sym("name")), Sym("reload")));
              if reload || old(bbox) == null then
                fresh(box) && bbox == box && box.canvas == canvas && box.elementName == name &&
                box.name == BoxName(given, name) && box.readable == NamedByString(given) &&
                canvas.contents == old(canvas.contents) + [GetBBoxStatement(false, box.name, name)]
              else
                box == old(bbox) && bbox == old(bbox) && canvas.contents == old(canvas.contents)
    {
      var (given, rest) := Delete(args, Sym("name"));
      if Truthy(Lookup(rest, Sym("reload"))) || bbox == null {
        box := new BBox(canvas, name, given);
        bbox := box;
      } else {
        box := bbox;
      }
    }

    /** `node`: declares `<name>_node` and returns that variable name. */
    method Node() returns (nodeName: string)
      modifies canvas
      ensures nodeName == name + "_node"
      ensures canvas.contents == old(canvas.contents) + [NodeStatement(name)]
    {
      nodeName := name + "_node";
      canvas.Append(NodeStatement(name));
    }

    /** `to_front` */
    method ToFront()
      modifies canvas
      ensures canvas.contents == old(canvas.contents) + [JsMethod(name, "toFront", [])]
    {
      canvas.Append(JsMethod(name, "toFront", []));
    }

    /** `to_back` */
    method ToBack()
      modifies canvas
      ensures canvas.contents == old(canvas.contents) + [JsMethod(name, "toBack", [])]
    {
      canvas.Append(JsMethod(name, "toBack", []));
    }
  }

  /** A call without arguments renders empty parentheses. */
  lemma NoArgumentCall(name: string, methodName: string)
    ensures JsMethod(name, methodName, []) == name + "." + methodName + "();"
  {
  }

  // ---- the shape constructors ----

  /** `var <name> = <canvas>.<kind>(<args.to_js_args>);` */
  function ShapeStatement(name: string, canvasName: string, kind: string, args: seq<Value>): string
  {
    "var " + name + " = " + canvasName + "." + kind + "(" + ToJsArgs(args) + ");"
  }

  /** Shared body of the circle, rect, ellipse, image and text
      constructors: name the element, declare it, apply the remaining
      options. */
  method NewShape(canvas: Canvas, kind: string, args: seq<Value>, options: Entries, uid: string)
    returns (e: RaphaelElement)
    modifies canvas
    ensures fresh(e) && e.canvas == canvas && e.bbox == null
    ensures e.name == ElementName(options, kind, uid).0
    ensures canvas.contents == old(canvas.contents) +
            [ShapeStatement(e.name, canvas.name, kind, args)] + AttrStatements(e.name, ElementName(options, kind, uid).1)
  {
    var (name, rest) := ElementName(options, kind, uid);
    e := new RaphaelElement(canvas, name);
    canvas.Append(ShapeStatement(name, canvas.name, kind, args));
    e.ApplyAttributes(rest);
  }

  /** `Circle.new(canvas, cx, cy, r, options)` (circle.rb:9-14) */
  method NewCircle(canvas: Canvas, cx: Value, cy: Value, radius: Value, options: Entries, uid: string)
    returns (e: RaphaelElement)
    modifies canvas
    ensures fresh(e) && e.canvas == canvas && e.name == ElementName(options, "circle", uid).0
    ensures canvas.contents == old(canvas.contents) +
            [ShapeStatement(e.name, canvas.name, "circle", [cx, cy, radius])] +
            AttrStatements(e.name, ElementName(options, "circle", uid).1)
  {
    e := NewShape(canvas, "circle", [cx, cy, radius], options, uid);
  }

  /** `Ellipse.new(canvas, cx, cy, rx, ry, options)` (ellipse.rb:9-14) */
  method NewEllipse(canvas: Canvas, cx: Value, cy: Value, rx: Value, ry: Value, options: Entries, uid: string)
    returns (e: RaphaelElement)
    modifies canvas
    ensures fresh(e) && e.canvas == canvas && e.name == ElementName(options, "ellipse", uid).0
    ensures canvas.contents == old(canvas.contents) +
            [ShapeStatement(e.name, canvas.name, "ellipse", [cx, cy, rx, ry])] +
            AttrStatements(e.name, ElementName(options, "ellipse", uid).1)
  {
    e := NewShape(canvas, "ellipse", [cx, cy, rx, ry], options, uid);
  }

  /** `Image.new(canvas, uri, x, y, width, height, options)` (image.rb:9-14) */
  method NewImage(canvas: Canvas, uri: Value, x: Value, y: Value, width: Value, height: Value,
                  options: Entries, uid: string)
    returns (e: RaphaelElement)
    modifies canvas
    ensures fresh(e) && e.canvas == canvas && e.name == ElementName(options, "image", uid).0
    ensures canvas.contents == old(canvas.contents) +
            [ShapeStatement(e.name, canvas.name, "image", [uri, x, y, width, height])] +
            AttrStatements(e.name, ElementName(options, "image", uid).1)
  {
    e := NewShape(canvas, "image", [uri, x, y, width, height], options, uid);
  }

  /** `Text.new(canvas, x, y, text, options)` (text.rb:9-14) */
  method NewText(canvas: Canvas, x: Value, y: Value, text: Value, options: Entries, uid: string)
    returns (e: RaphaelElement)
    modifies canvas
    ensures fresh(e) && e.canvas == canvas && e.name == ElementName(options, "text", uid).0
    ensures canvas.contents == old(canvas.contents) +
            [ShapeStatement(e.name, canvas.name, "text", [x, y, text])] +
            AttrStatements(e.name, ElementName(options, "text", uid).1)
  {
    e := NewShape(canvas, "text", [x, y, text], options, uid);
  }

  /** The corner radius and the options of `Rect.new` (rect.rb:10-15): a
      Hash in sixth position is the options and the radius is `nil`;
      otherwise the sixth argument is not used and the radius is
      `options.delete('rounded') || options.delete(:rounded) || 0`. */
  function RectSetup(radiusOrOptions: Value, options: Entries): (r: (Value, Entries))
    ensures radiusOrOptions.Hash? ==> r == (Nil, radiusOrOptions.entries)
    ensures !radiusOrOptions.Hash? ==> Truthy(r.0)
    ensures !radiusOrOptions.Hash? && Truthy(Lookup(options, Str("rounded"))) ==>
              r == (Lookup(options, Str("rounded")), Remove(options, Str("rounded")))
    ensures !radiusOrOptions.Hash? && !Truthy(Lookup(options, Str("rounded"))) &&
            Truthy(Lookup(options, Sym("rounded"))) ==>
              r == (Lookup(options, Sym("rounded")), Remove(Remove(options, Str("rounded")), Sym("rounded")))
    ensures !radiusOrOptions.Hash? && !Truthy(Lookup(options, Str("rounded"))) &&
            !Truthy(Lookup(options, Sym("rounded"))) ==>
              r == (Int(0), Remove(Remove(options, Str("rounded")), Sym("rounded")))
  {
    if radiusOrOptions.Hash? then (Nil, radiusOrOptions.entries)
    else
      var (rounded, rest) := DeleteEither(options, Str("rounded"), Sym("rounded"));
      (Or(rounded, Int(0)), rest)
  }

  /** A radius passed positionally is ignored: `rect(x, y, w, h, 5)` draws
      with radius 0 unless the options carry `rounded`. */
  lemma RectPositionalRadiusIgnored(radius: int)
    ensures RectSetup(Int(radius), []) == (Int(0), [])
    ensures RectSetup(Int(radius), [(Sym("rounded"), Int(5))]) == (Int(5), [])
  {
  }

  /** With options in sixth position the radius argument is JSON `null`. */
  lemma RectOptionsGiveNullRadius(entries: Entries, options: Entries)
    ensures ToJson(RectSetup(Hash(entries), options).0) == "null"
  {
  }

  /** `Rect.new(canvas, x, y, w, h, radius_or_options, options)`
      (rect.rb:9-20) */
  method NewRect(canvas: Canvas, x: Value, y: Value, width: Value, height: Value,
                 radiusOrOptions: Value, options: Entries, uid: string)
    returns (e: RaphaelElement)
    modifies canvas
    ensures var (radius, rest) := RectSetup(radiusOrOptions, options);
            fresh(e) && e.canvas == canvas && e.name == ElementName(rest, "rect", uid).0 &&
            canvas.contents == old(canvas.contents) +
              [ShapeStatement(e.name, canvas.name, "rect", [x, y, width, height, radius])] +
              AttrStatements(e.name, ElementName(rest, "rect", uid).1)
  {
    var (radius, rest) := RectSetup(radiusOrOptions, options);
    e := NewShape(canvas, "rect", [x, y, width, height, radius], rest, uid);
  }

  // ---- set (set.rb:12-22) ----

  /** What the set block put into the yielded array: an element (by its
      name) or any other object. */
  datatype SetMember = Member(elementName: string) | NotAnElement(v: Value)

  predicate AllElements(members: seq<SetMember>)
  {
    forall k :: 0 <= k < |members| ==> members[k].Member?
  }

  function MemberNames(members: seq<SetMember>): (r: seq<string>)
    requires AllElements(members)
    ensures |r| == |members|
    ensures forall k :: 0 <= k < |members| ==> r[k] == members[k].elementName
  {
    if members == [] then [] else [members[0].elementName] + MemberNames(members[1..])
  }

  /** `var <name> = <canvas>.set();` */
  function SetStatement(name: string, canvasName: string): string
  {
    "var " + name + " = " + canvasName + ".set();"
  }

  /** `<name>.push(<member names joined by ", ">);` */
  function PushStatement(name: string, names: seq<string>): string
  {
    name + ".push(" + Join(names, ", ") + ");"
  }

  /** The check `Set.new` makes on each member before `push`: whether all
      of them are elements. */
  method CheckMembers(members: seq<SetMember>) returns (ok: bool)
    ensures ok <==> AllElements(members)
    ensures !ok ==> exists k :: 0 <= k < |members| && members[k].NotAnElement?
  {
    var k := 0;
    while k < |members|
      invariant 0 <= k <= |members|
      invariant forall j :: 0 <= j < k ==> members[j].Member?
    {
      if members[k].NotAnElement? {
        return false;
      }
      k := k + 1;
    }
    ok := true;
  }

  /** `Set.new(canvas, options) { |elements| ... }`, given what the block
      put into the array. The set is declared first; a member that is not
      an element then raises (`null`) before `push`. */
  method NewSet(canvas: Canvas, options: Entries, members: seq<SetMember>, uid: string)
    returns (e: RaphaelElement?)
    modifies canvas
    ensures e == null <==> !AllElements(members)
    ensures e == null ==>
              canvas.contents == old(canvas.contents) + [SetStatement(ElementName(options, "set", uid).0, canvas.name)]
    ensures e != null ==>
              fresh(e) && e.canvas == canvas && e.name == ElementName(options, "set", uid).0 &&
              canvas.contents == old(canvas.contents) +
                [SetStatement(e.name, canvas.name)] + [PushStatement(e.name, MemberNames(members))] +
                AttrStatements(e.name, ElementName(options, "set", uid).1)
  {
    var (name, rest) := ElementName(options, "set", uid);
    canvas.Append(SetStatement(name, canvas.name));
    var ok := CheckMembers(members);
    if !ok {
      return null;
    }
    var element := new RaphaelElement(canvas, name);
    canvas.Append(PushStatement(name, MemberNames(members)));
    element.ApplyAttributes(rest);
    e := element;
  }

  // ---- path (path.rb:18-36) ----

  /** The initial path, the options and whether the element gets an `id`
      from them; `None` is the TypeError for any other second argument. */
  function PathSetup(attributesOrPath: Value): (r: Option<(string, Entries)>)
    ensures r.Some? <==> attributesOrPath.Str? || attributesOrPath.Literal? || attributesOrPath.Hash?
    ensures attributesOrPath.Str? ==> r == Some((attributesOrPath.s, []))
    ensures attributesOrPath.Hash? ==> r == Some(("", attributesOrPath.entries))
  {
    match attributesOrPath
    case Str(_) => Some((Display(attributesOrPath), []))
    case Literal(_) => Some((Display(attributesOrPath), []))
    case Hash(entries) => Some(("", entries))
    case _ => None
  }

  /** `var <name> = <canvas>.path(<result.to_json>);` */
  function PathStatement(name: string, canvasName: string, result: string): string
  {
    "var " + name + " = " + canvasName + ".path(" + Quote(result) + ");"
  }

  /** The statements `Path.new(canvas, attributes_or_path) { block }`
      appends and the element's name; `None` when it raises (a bad second
      argument, or a bad rounded-corner direction in the block). */
  function PathOutcome(canvasName: string, attributesOrPath: Value, block: seq<PathOp>, uid: string)
    : (r: Option<(string, seq<string>)>)
    ensures r.Some? <==> PathSetup(attributesOrPath).Some? &&
                         Run(NewBuilder(Some(PathSetup(attributesOrPath).value.0)), block).Some?
    ensures r.Some? ==> |r.value.1| >= 1
  {
    var setup := PathSetup(attributesOrPath);
    if setup.None? then None
    else
      var (initial, options) := setup.value;
      var (name, rest) := ElementName(options, "path", uid);
      var built := Run(NewBuilder(Some(initial)), block);
      if built.None? then None
      else Some((name, [PathStatement(name, canvasName, ResultString(built.value))] + AttrStatements(name, rest)))
  }

  /** The outcome of a path whose setup and block both succeed. */
  lemma PathOutcomeWhenBuilt(canvasName: string, attributesOrPath: Value, block: seq<PathOp>, uid: string,
                             initial: string, options: Entries, built: Builder, name: string, rest: Entries)
    requires PathSetup(attributesOrPath) == Some((initial, options))
    requires Run(NewBuilder(Some(initial)), block) == Some(built)
    requires ElementName(options, "path", uid) == (name, rest)
    ensures PathOutcome(canvasName, attributesOrPath, block, uid) ==
            Some((name, [PathStatement(name, canvasName, ResultString(built))] + AttrStatements(name, rest)))
  {
  }

  /** A path given as a plain string, with no block, is declared with that
      string followed by one space. */
  lemma PathFromStringKeepsTrailingSpace(canvasName: string, path: string, uid: string)
    requires Plain(path)
    ensures PathOutcome(canvasName, Str(path), [], uid) ==
            Some(("rafa_path_" + uid, [PathStatement("rafa_path_" + uid, canvasName, path + " ")]))
    ensures Quote(path + " ") == "\"" + path + " \""
  {
    assert Plain(path + " ");
    assert ResultString(NewBuilder(Some(path))) == path + " " by {
      assert Join([], " ") == "";
    }
    assert "rafa_" + "path" + "_" + uid == "rafa_path_" + uid;
    assert Remove([], Str("id")) == [] && Remove([], Sym("id")) == [];
    assert ElementName([], "path", uid) == ("rafa_path_" + uid, []);
    assert AttrStatements("rafa_path_" + uid, []) == [];
    PathOutcomeWhenBuilt(canvasName, Str(path), [], uid, path, [], NewBuilder(Some(path)), "rafa_path_" + uid, []);
    var statement := PathStatement("rafa_path_" + uid, canvasName, path + " ");
    assert [statement] + [] == [statement];
  }

  /** A path built by a block from an options hash starts, inside the
      quotes, with a single space: the empty initial path counts as
      given. */
  lemma PathFromBlockLeadsWithSpace(canvasName: string, options: Entries, op: PathOp, uid: string)
    requires IsDraw(op) && !Raises(op)
    ensures Emit(NewBuilder(Some("")), op).Some?
    ensures PathOutcome(canvasName, Hash(options), [op], uid).Some?
    ensures var name := ElementName(options, "path", uid).0;
            PathOutcome(canvasName, Hash(options), [op], uid).value.1[0] ==
            PathStatement(name, canvasName, " " + Render(Emit(NewBuilder(Some("")), op).value))
  {
    DrawAppendsOne(NewBuilder(Some("")), op);
    EmptyInitialPathLeadsWithSpace(op);
    assert Run(NewBuilder(Some("")), [op]) == Some(Apply(NewBuilder(Some("")), op));
  }

  /** The text inside the quotes of the path statement is the builder's
      result unchanged, whenever the initial path is plain. */
  lemma PathStatementEmbedsResult(canvasName: string, attributesOrPath: Value, block: seq<PathOp>, uid: string)
    requires PathOutcome(canvasName, attributesOrPath, block, uid).Some?
    requires Plain(PathSetup(attributesOrPath).value.0)
    ensures var initial := PathSetup(attributesOrPath).value.0;
            var result := ResultString(Run(NewBuilder(Some(initial)), block).value);
            var name := PathOutcome(canvasName, attributesOrPath, block, uid).value.0;
            PathOutcome(canvasName, attributesOrPath, block, uid).value.1[0] ==
            "var " + name + " = " + canvasName + ".path(\"" + result + "\");"
  {
    ResultIsPlain(PathSetup(attributesOrPath).value.0, block);
  }

  /** The tail of `Path.new` once the block has run: declare the path with
      the builder's result, then apply the options. */
  method DeclarePath(canvas: Canvas, name: string, rest: Entries, result: string) returns (e: RaphaelElement)
    modifies canvas
    ensures fresh(e) && e.canvas == canvas && e.name == name
    ensures canvas.contents == old(canvas.contents) + [PathStatement(name, canvas.name, result)] + AttrStatements(name, rest)
  {
    e := new RaphaelElement(canvas, name);
    canvas.Append(PathStatement(name, canvas.name, result));
    e.ApplyAttributes(rest);
  }

  /** `Path.new(canvas, attributes_or_path = '') { block }`: `null` when it
      raises, in which case nothing is appended. */
  method NewPath(canvas: Canvas, attributesOrPath: Value, block: seq<PathOp>, uid: string)
    returns (e: RaphaelElement?)
    modifies canvas
    ensures e == null <==> PathOutcome(canvas.name, attributesOrPath, block, uid).None?
    ensures e == null ==> canvas.contents == old(canvas.contents)
    ensures e != null ==>
              fresh(e) && e.canvas == canvas && e.name == PathOutcome(canvas.name, attributesOrPath, block, uid).value.0 &&
              canvas.contents == old(canvas.contents) + PathOutcome(canvas.name, attributesOrPath, block, uid).value.1
  {
    var setup := PathSetup(attributesOrPath);
    if setup.None? {
      return null;
    }
    var (initial, options) := setup.value;
    var (name, rest) := ElementName(options, "path", uid);
    var builder := new PathBuilder(Some(initial));
    var raised := builder.PerformAll(block);
    if raised {
      return null;
    }
    PathOutcomeWhenBuilt(canvas.name, attributesOrPath, block, uid, initial, options, builder.State(), name, rest);
    var statement := PathStatement(name, canvas.name, builder.Result());
    e := DeclarePath(canvas, name, rest, builder.Result());
    AppendAssociates(old(canvas.contents), [statement], AttrStatements(name, rest));
  }
}
