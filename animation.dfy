/** Animations of the older elements (lib/animation/animation.rb): the
    `AnimationProxy` a block configures, the JavaScript function text it
    renders (chaining further proxies through `after`), and the `animate`
    and `every` methods mixed into `BasicShape`. */
module Animation {
  import opened Text
  import opened Values
  import opened Attributes
  import opened Canvases
  import opened Legacy

  /** The state of an `AnimationProxy`: the element's name, the duration,
      the attributes to animate to, the wrapped callback and the proxy
      chained by `after`. */
  datatype Proxy = Proxy(element: string, seconds: int, attributes: Entries,
                         callback: Option<string>, chained: Option<Proxy>)

  /** `call_when_finished(js)`: `(function() { <js> })`. */
  function CallbackWrapper(js: Value): string
  {
    "(function() { " + Display(js) + " })"
  }

  /** `AnimationProxy.new(element, seconds, attributes, callback)`: a false
      callback leaves the callback `nil`; nothing is chained. */
  function NewProxy(element: string, seconds: int, attributes: Entries, callback: Value): (p: Proxy)
    ensures p.element == element && p.seconds == seconds && p.attributes == attributes
    ensures p.chained.None?
    ensures p.callback.Some? <==> Truthy(callback)
    ensures Truthy(callback) ==> p.callback == Some(CallbackWrapper(callback))
  {
    Proxy(element, seconds, attributes, if Truthy(callback) then Some(CallbackWrapper(callback)) else None, None)
  }

  /** The text around the two calls in the stripped heredoc of
      `callback_function`. */
  const WrapperHead: string := "(\n" + "              " + "function(){\n" + "                "
  const WrapperMid: string := "\n" + "                "
  const WrapperTail: string := "\n" + "              " + "}\n" + "            " + ")"

  /** The stripped heredoc of `callback_function` when there are both a
      chained proxy and a callback: call the chained function, then the
      callback, each on its own line. */
  function ChainedThenCallback(chainedFunction: string, callback: string): string
  {
    WrapperHead + (chainedFunction + "();") + WrapperMid + (callback + "();") + WrapperTail
  }

  /** `callback_function`: there is one exactly when there is a chained
      proxy or a callback. */
  function CallbackFunction(p: Proxy): (r: Option<string>)
    decreases p, 0
    ensures r.None? <==> p.chained.None? && p.callback.None?
  {
    match p.chained
    case Some(next) =>
      if p.callback.Some? then Some(ChainedThenCallback(FunctionStr(next), p.callback.value))
      else Some(FunctionStr(next))
    case None => p.callback
  }

  /** The call `function_str` wraps: `<name>.animate(<json>, <ms> [, <cb>])`. */
  function AnimateCall(name: string, attributes: Entries, milliseconds: int, callback: Option<string>): string
  {
    name + ".animate(" + ToJson(Hash(attributes)) + ", " + Decimal(milliseconds) + " " +
    (if callback.Some? then ", " + callback.value else "") + ")"
  }

  /** `function_str`: `(function() { <call>})`. */
  function FunctionStr(p: Proxy): (r: string)
    decreases p, 1
    ensures |r| >= 16 && r[..14] == "(function() { " && r[|r| - 2..] == "})"
  {
    "(function() { " + AnimateCall(p.element, p.attributes, p.seconds * 1000, CallbackFunction(p)) + "})"
  }

  /** `output`: the function, invoked. */
  function Output(p: Proxy): (r: string)
    ensures |r| == |FunctionStr(p)| + 2 && r[..|FunctionStr(p)|] == FunctionStr(p) && r[|r| - 2..] == "()"
  {
    FunctionStr(p) + "()"
  }

  // ---- what the rendering promises ----

  /** There is a callback function exactly when there is a chained proxy
      or a callback. */
  lemma CallbackFunctionPresence(p: Proxy)
    ensures CallbackFunction(p).None? <==> p.chained.None? && p.callback.None?
    ensures p.chained.None? ==> CallbackFunction(p) == p.callback
    ensures p.chained.Some? && p.callback.None? ==> CallbackFunction(p) == Some(FunctionStr(p.chained.value))
  {
  }

  /** With both, the chained function is called first, then the callback. */
  lemma ChainedRunsBeforeCallback(chainedFunction: string, callback: string)
    ensures exists i, j :: InfixAt(chainedFunction + "();", ChainedThenCallback(chainedFunction, callback), i) &&
                           InfixAt(callback + "();", ChainedThenCallback(chainedFunction, callback), j) &&
                           i + |chainedFunction + "();"| <= j
  {
    var c1 := chainedFunction + "();";
    var c2 := callback + "();";
    FiveParts(WrapperHead, c1, WrapperMid, c2, WrapperTail);
    var i := |WrapperHead|;
    var j := |WrapperHead| + |c1| + |WrapperMid|;
    assert InfixAt(c1, ChainedThenCallback(chainedFunction, callback), i);
    assert InfixAt(c2, ChainedThenCallback(chainedFunction, callback), j);
  }

  /** The function text names the element and serialises the attributes,
      and carries the callback function whenever there is one. */
  lemma FunctionStrEmbeds(p: Proxy)
    ensures IsInfix(p.element + ".animate(" + ToJson(Hash(p.attributes)) + ", ", FunctionStr(p))
    ensures CallbackFunction(p).Some? ==> IsInfix(CallbackFunction(p).value, FunctionStr(p))
  {
    var cb := CallbackFunction(p);
    var front := p.element + ".animate(" + ToJson(Hash(p.attributes)) + ", ";
    var ms := Decimal(p.seconds * 1000);
    var cbPart := if cb.Some? then ", " + cb.value else "";
    var call := AnimateCall(p.element, p.attributes, p.seconds * 1000, cb);
    assert call == front + ms + " " + cbPart + ")";
    InfixOfPrefix(front, ms);
    InfixGrowRight(front, front + ms, " ");
    InfixGrowRight(front, front + ms + " ", cbPart);
    InfixGrowRight(front, front + ms + " " + cbPart, ")");
    InfixGrowLeft(front, "(function() { ", call);
    InfixGrowRight(front, "(function() { " + call, "})");
    if cb.Some? {
      InfixOfSuffix(", ", cb.value);
      InfixGrowLeft(cb.value, front + ms + " ", cbPart);
      InfixGrowRight(cb.value, front + ms + " " + cbPart, ")");
      InfixGrowLeft(cb.value, "(function() { ", call);
      InfixGrowRight(cb.value, "(function() { " + call, "})");
    }
  }

  /** The function of a proxy chained directly by `after` occurs in the
      function text. */
  lemma ChainedFunctionEmbedded(p: Proxy)
    requires p.chained.Some?
    ensures IsInfix(FunctionStr(p.chained.value), FunctionStr(p))
  {
    var next := FunctionStr(p.chained.value);
    FunctionStrEmbeds(p);
    if p.callback.Some? {
      var c1 := next + "();";
      var c2 := p.callback.value + "();";
      var w := ChainedThenCallback(next, p.callback.value);
      InfixOfPrefix(next, "();");
      InfixGrowLeft(next, WrapperHead, c1);
      InfixGrowRight(next, WrapperHead + c1, WrapperMid);
      InfixGrowRight(next, WrapperHead + c1 + WrapperMid, c2);
      InfixGrowRight(next, WrapperHead + c1 + WrapperMid + c2, WrapperTail);
      InfixTransitive(next, w, FunctionStr(p));
    }
  }

  /** `q` is reached from `p` by following `chained` one or more times. */
  ghost predicate InChain(q: Proxy, p: Proxy)
    decreases p
  {
    match p.chained
    case None => false
    case Some(next) => next == q || InChain(q, next)
  }

  /** The function of every proxy down the chain occurs in the outermost
      function text, so running it starts every chained animation. */
  lemma {:induction false} ChainEmbedded(q: Proxy, p: Proxy)
    requires InChain(q, p)
    ensures IsInfix(FunctionStr(q), FunctionStr(p))
    decreases p
  {
    var next := p.chained.value;
    ChainedFunctionEmbedded(p);
    if next != q {
      ChainEmbedded(q, next);
      InfixTransitive(FunctionStr(q), FunctionStr(next), FunctionStr(p));
    }
  }

  /** `output` is the function text followed by `()`. */
  lemma OutputInvokesFunction(p: Proxy)
    ensures InfixAt(FunctionStr(p), Output(p), 0)
    ensures |Output(p)| == |FunctionStr(p)| + 2 && Output(p)[|Output(p)| - 2..] == "()"
  {
  }

  // ---- the block a proxy is given ----

  /** A call made on the proxy inside an animation block. `Missing` is any
      other method name, which goes to `method_missing`; `Write` is `<<`. */
  datatype ProxyOp =
    | Attr(attribute: Value, value: Value)
    | Translate(dx: Value, dy: Value)
    | Scale(x: Value, y: Value)
    | Rotate(angle: Value)
    | Missing(methodName: string, args: seq<Value>)
    | CallWhenFinished(js: Value)
    | Write(js: Value)
    | After(seconds: int, attributes: Entries, callback: Value, block: seq<ProxyOp>)

  function OpSize(op: ProxyOp): (n: nat)
    ensures n >= 1
  {
    match op
    case After(_, _, _, block) => 1 + BlockSize(block)
    case _ => 1
  }

  function BlockSize(ops: seq<ProxyOp>): nat
  {
    if ops == [] then 0 else OpSize(ops[0]) + BlockSize(ops[1..])
  }

  lemma {:induction false} OpSizeWithinBlock(ops: seq<ProxyOp>, i: nat)
    requires i < |ops|
    ensures OpSize(ops[i]) <= BlockSize(ops)
  {
    if i > 0 {
      OpSizeWithinBlock(ops[1..], i - 1);
    }
  }

  /** What a call did: the proxy after it, the statements it wrote to the
      canvas, and whether it raised. */
  datatype Outcome = Outcome(proxy: Proxy, written: seq<string>, raised: bool)

  /** `attr(attribute, value)`: the name keeps `_`; an unlisted name
      changes nothing, a listed one sets that key. */
  function SetAttr(p: Proxy, attribute: Value, value: Value): Proxy
  {
    var name := KeptName(attribute);
    if IsListed(name) then p.(attributes := Put(p.attributes, Str(name), value)) else p
  }

  /** `[a, b].join(',')` */
  function Pair(a: Value, b: Value): Value
  {
    Str(Display(a) + "," + Display(b))
  }

  /** One call of the block. */
  function Step(p: Proxy, op: ProxyOp): Outcome
    decreases OpSize(op), 0
  {
    match op
    case Attr(attribute, value) => Outcome(SetAttr(p, attribute, value), [], false)
    case Translate(dx, dy) => Outcome(SetAttr(p, Str("translation"), Pair(dx, dy)), [], false)
    case Scale(x, y) => Outcome(SetAttr(p, Str("scale"), Pair(x, y)), [], false)
    case Rotate(angle) => Outcome(SetAttr(p, Str("rotation"), angle), [], false)
    case Missing(m, args) =>
      if IsListed(KeptName(Sym(m))) then Outcome(SetAttr(p, Sym(m), At(args, 0)), [], false)
      else Outcome(p, [], true)
    case CallWhenFinished(js) => Outcome(p.(callback := Some(CallbackWrapper(js))), [], false)
    case Write(js) => if js.Str? then Outcome(p, [js.s], false) else Outcome(p, [], true)
    case After(seconds, attributes, callback, block) =>
      var inner := RunBlock(NewProxy(p.element, seconds, attributes, callback), block);
      if inner.raised then Outcome(p, inner.written, true)
      else Outcome(p.(chained := Some(inner.proxy)), inner.written, false)
  }

  /** The calls of a block in order, stopping at the first that raises. */
  function RunBlock(p: Proxy, ops: seq<ProxyOp>): Outcome
    decreases BlockSize(ops), 1
  {
    if ops == [] then Outcome(p, [], false)
    else
      var first := Step(p, ops[0]);
      if first.raised then first
      else
        var rest := RunBlock(first.proxy, ops[1..]);
        Outcome(rest.proxy, first.written + rest.written, rest.raised)
  }

  /** Running one more call after a block that did not raise. */
  lemma {:induction false} RunBlockSnoc(p: Proxy, ops: seq<ProxyOp>, op: ProxyOp)
    requires !RunBlock(p, ops).raised
    ensures var before := RunBlock(p, ops);
            var last := Step(before.proxy, op);
            RunBlock(p, ops + [op]) == Outcome(last.proxy, before.written + last.written, last.raised)
    decreases |ops|
  {
    var before := RunBlock(p, ops);
    var last := Step(before.proxy, op);
    if ops == [] {
      assert [op][1..] == [];
      assert last.written + [] == [] + last.written;
    } else {
      var first := Step(p, ops[0]);
      assert (ops + [op])[0] == ops[0];
      assert (ops + [op])[1..] == ops[1..] + [op];
      RunBlockSnoc(first.proxy, ops[1..], op);
      AppendAssociates(first.written, RunBlock(first.proxy, ops[1..]).written, last.written);
    }
  }

  /** One step of a block, on a prefix that did not raise. */
  lemma RunBlockStep(p: Proxy, ops: seq<ProxyOp>, i: nat)
    requires i < |ops| && !RunBlock(p, ops[..i]).raised
    ensures var before := RunBlock(p, ops[..i]);
            var last := Step(before.proxy, ops[i]);
            RunBlock(p, ops[..i + 1]) == Outcome(last.proxy, before.written + last.written, last.raised)
  {
    RunBlockSnoc(p, ops[..i], ops[i]);
    TakeSnoc(ops, i);
  }

  /** Once a prefix of the block raises, the rest of the block is not run. */
  lemma {:induction false} RunBlockPrefixRaises(p: Proxy, ops: seq<ProxyOp>, n: nat)
    requires n <= |ops| && RunBlock(p, ops[..n]).raised
    ensures RunBlock(p, ops) == RunBlock(p, ops[..n])
    decreases |ops|
  {
    assert n > 0;
    assert ops[..n][0] == ops[0];
    assert ops[..n][1..] == ops[1..][..n - 1];
    var first := Step(p, ops[0]);
    if !first.raised {
      RunBlockPrefixRaises(first.proxy, ops[1..], n - 1);
    }
  }

  // ---- properties of single calls ----

  /** `attr` with a listed name sets exactly that key and changes nothing
      else; with an unlisted name it changes nothing at all. */
  lemma SetAttrEffect(p: Proxy, attribute: Value, value: Value, other: Value)
    ensures IsListed(KeptName(attribute)) ==>
              Lookup(SetAttr(p, attribute, value).attributes, Str(KeptName(attribute))) == value &&
              (other != Str(KeptName(attribute)) ==>
                 Lookup(SetAttr(p, attribute, value).attributes, other) == Lookup(p.attributes, other)) &&
              SetAttr(p, attribute, value).(attributes := p.attributes) == p
    ensures !IsListed(KeptName(attribute)) ==> SetAttr(p, attribute, value) == p
  {
    var name := KeptName(attribute);
    if IsListed(name) {
      PutThenLookup(p.attributes, Str(name), value);
      if other != Str(name) {
        PutKeepsOthers(p.attributes, Str(name), value, other);
      }
    }
  }

  /** `fill_opacity` is rejected by the proxy, as by the older setter. */
  lemma UnderscoreNameIgnored(p: Proxy, value: Value)
    ensures SetAttr(p, Sym("fill_opacity"), value) == p
  {
    FillOpacityKept();
  }

  /** Setting a whitelisted name given as a string stores the value under
      exactly that name. */
  lemma SetListedKey(p: Proxy, key: string, value: Value)
    requires IsListed(key)
    ensures SetAttr(p, Str(key), value) == p.(attributes := Put(p.attributes, Str(key), value))
    ensures Lookup(SetAttr(p, Str(key), value).attributes, Str(key)) == value
  {
    ListedNamesAreClean(key);
    assert KeptName(Str(key)) == SanitizeKeepUnderscore(key);
    PutThenLookup(p.attributes, Str(key), value);
  }

  /** A call that sets a listed key stores its value under that key. */
  lemma StoresUnderListedKey(p: Proxy, op: ProxyOp, key: string, value: Value)
    requires IsListed(key) && Step(p, op) == Outcome(SetAttr(p, Str(key), value), [], false)
    ensures Step(p, op) == Outcome(p.(attributes := Put(p.attributes, Str(key), value)), [], false)
    ensures Lookup(Step(p, op).proxy.attributes, Str(key)) == value
  {
    SetListedKey(p, key, value);
  }

  /** `translate(dx, dy)` never raises, writes nothing and stores
      `"dx,dy"` under `translation`. */
  lemma TranslateStoresPair(p: Proxy, dx: Value, dy: Value)
    ensures Step(p, Translate(dx, dy)) ==
            Outcome(p.(attributes := Put(p.attributes, Str("translation"), Pair(dx, dy))), [], false)
    ensures Lookup(Step(p, Translate(dx, dy)).proxy.attributes, Str("translation")) == Pair(dx, dy)
  {
    assert IsListed("translation") by { assert PossibleAttributes[25] == "translation"; }
    StoresUnderListedKey(p, Translate(dx, dy), "translation", Pair(dx, dy));
  }

  /** `scale(x, y)` stores `"x,y"` under `scale`. */
  lemma ScaleStoresPair(p: Proxy, x: Value, y: Value)
    ensures Step(p, Scale(x, y)) ==
            Outcome(p.(attributes := Put(p.attributes, Str("scale"), Pair(x, y))), [], false)
    ensures Lookup(Step(p, Scale(x, y)).proxy.attributes, Str("scale")) == Pair(x, y)
  {
    assert IsListed("scale") by { assert PossibleAttributes[16] == "scale"; }
    StoresUnderListedKey(p, Scale(x, y), "scale", Pair(x, y));
  }

  /** `rotate(angle)` stores the angle itself under `rotation`. */
  lemma RotateStoresAngle(p: Proxy, angle: Value)
    ensures Step(p, Rotate(angle)) ==
            Outcome(p.(attributes := Put(p.attributes, Str("rotation"), angle)), [], false)
    ensures Lookup(Step(p, Rotate(angle)).proxy.attributes, Str("rotation")) == angle
  {
    assert IsListed("rotation") by { assert PossibleAttributes[13] == "rotation"; }
    StoresUnderListedKey(p, Rotate(angle), "rotation", angle);
  }

  /** `method_missing` sets a listed attribute and raises on any other
      name (`attr` returns `nil`, and `super` raises NoMethodError). */
  lemma MissingRaisesUnlessListed(p: Proxy, methodName: string, args: seq<Value>)
    ensures Step(p, ProxyOp.Missing(methodName, args)).raised <==> !IsListed(KeptName(Sym(methodName)))
    ensures Step(p, ProxyOp.Missing(methodName, args)).written == []
  {
  }

  /** `<<` raises unless given a String, and writes that string otherwise. */
  lemma WriteNeedsString(p: Proxy, js: Value)
    ensures Step(p, Write(js)).raised <==> !js.Str?
    ensures js.Str? ==> Step(p, Write(js)) == Outcome(p, [js.s], false)
  {
  }

  /** `after` replaces any earlier chained proxy with the one its block
      configured, and changes nothing else on this proxy; statements the
      inner block wrote are passed through. */
  lemma AfterReplacesChain(p: Proxy, seconds: int, attributes: Entries, callback: Value, block: seq<ProxyOp>)
    ensures var inner := RunBlock(NewProxy(p.element, seconds, attributes, callback), block);
            var o := Step(p, After(seconds, attributes, callback, block));
            o.raised == inner.raised && o.written == inner.written &&
            (!o.raised ==> o.proxy.chained == Some(inner.proxy) && o.proxy.(chained := p.chained) == p) &&
            (o.raised ==> o.proxy == p)
  {
  }

  /** A proxy configured by a block keeps its element: every chained proxy
      animates the same element. */
  lemma {:induction false} BlockKeepsElement(p: Proxy, ops: seq<ProxyOp>)
    ensures RunBlock(p, ops).proxy.element == p.element
    ensures RunBlock(p, ops).proxy.seconds == p.seconds
    decreases BlockSize(ops), 1
  {
    if ops != [] {
      StepKeepsElement(p, ops[0]);
      var first := Step(p, ops[0]);
      if !first.raised {
        BlockKeepsElement(first.proxy, ops[1..]);
      }
    }
  }

  lemma {:induction false} StepKeepsElement(p: Proxy, op: ProxyOp)
    ensures Step(p, op).proxy.element == p.element
    ensures Step(p, op).proxy.seconds == p.seconds
    decreases OpSize(op), 0
  {
  }

  /** `q` is a proxy of the chain whose element and seconds are those of a
      proxy that `after` created on the same element. */
  lemma ChainedProxyAnimatesSameElement(p: Proxy, seconds: int, attributes: Entries, callback: Value,
                                        block: seq<ProxyOp>)
    requires !Step(p, After(seconds, attributes, callback, block)).raised
    ensures Step(p, After(seconds, attributes, callback, block)).proxy.chained.value.element == p.element
    ensures Step(p, After(seconds, attributes, callback, block)).proxy.chained.value.seconds == seconds
  {
    BlockKeepsElement(NewProxy(p.element, seconds, attributes, callback), block);
  }

  // ---- the proxy object ----

  class AnimationProxy {
    const element: BasicShape
    var seconds: int
    var attributes: Entries
    var callback: Option<string>
    var chained: Option<Proxy>

    function State(): Proxy
      reads this, element
    {
      Proxy(element.name, seconds, attributes, callback, chained)
    }

    /** `AnimationProxy.new(element, seconds, attributes, callback)` */
    constructor (element: BasicShape, seconds: int, attributes: Entries, callback: Value)
      ensures this.element == element
      ensures State() == NewProxy(element.name, seconds, attributes, callback)
    {
      this.element := element;
      this.seconds := seconds;
      this.attributes := attributes;
      this.callback := if Truthy(callback) then Some(CallbackWrapper(callback)) else None;
      this.chained := None;
    }

    /** `function_str` */
    function FunctionText(): string
      reads this, element
    {
      FunctionStr(State())
    }

    /** `output` */
    function OutputText(): string
      reads this, element
    {
      Output(State())
    }

    /** `attr(attribute, value)`; `accepted` stands for `self` (true) or
        `nil` (false). */
    method Attr(attribute: Value, value: Value) returns (accepted: bool)
      modifies this
      ensures accepted == IsListed(KeptName(attribute))
      ensures State() == SetAttr(old(State()), attribute, value)
    {
      var name := SanitizeKeepUnderscore(Display(attribute));
      if !IsListed(name) {
        return false;
      }
      attributes := Put(attributes, Str(name), value);
      accepted := true;
    }

    /** `call_when_finished(js)` */
    method CallWhenFinished(js: Value)
      modifies this
      ensures State() == old(State()).(callback := Some(CallbackWrapper(js)))
    {
      callback := Some(CallbackWrapper(js));
    }

    /** `<< js`: appends to the element's canvas; raises unless `js` is a
        String. */
    method Write(js: Value) returns (raised: bool)
      modifies element.canvas
      ensures raised <==> !js.Str?
      ensures element.canvas.contents == old(element.canvas.contents) + (if js.Str? then [js.s] else [])
    {
      if !js.Str? {
        return true;
      }
      element.canvas.Append(js.s);
      raised := false;
    }

    /** One call of an animation block. */
    method Perform(op: ProxyOp) returns (raised: bool)
      modifies this, element.canvas
      decreases OpSize(op), 0
      ensures var o := Step(old(State()), op);
              State() == o.proxy && raised == o.raised &&
              element.canvas.contents == old(element.canvas.contents) + o.written
    {
      match op {
        case Attr(attribute, value) =>
          var _ := Attr(attribute, value);
          raised := false;
        case Translate(dx, dy) =>
          var _ := Attr(Str("translation"), Pair(dx, dy));
          raised := false;
        case Scale(x, y) =>
          var _ := Attr(Str("scale"), Pair(x, y));
          raised := false;
        case Rotate(angle) =>
          var _ := Attr(Str("rotation"), angle);
          raised := false;
        case Missing(m, args) =>
          var accepted := Attr(Sym(m), At(args, 0));
          raised := !accepted;
        case CallWhenFinished(js) =>
          CallWhenFinished(js);
          raised := false;
        case Write(js) =>
          raised := Write(js);
        case After(s, attrs, cb, block) =>
          raised := After(s, attrs, cb, block);
      }
    }

    /** `after(seconds, attributes, callback) { block }`: a new proxy on the
        same element, configured by the block, becomes the chained one. */
    method After(seconds: int, attributes: Entries, callback: Value, block: seq<ProxyOp>) returns (raised: bool)
      modifies this, element.canvas
      decreases BlockSize(block), 2
      ensures var o := Step(old(State()), ProxyOp.After(seconds, attributes, callback, block));
              State() == o.proxy && raised == o.raised &&
              element.canvas.contents == old(element.canvas.contents) + o.written
    {
      var next := new AnimationProxy(element, seconds, attributes, callback);
      raised := next.PerformAll(block);
      if !raised {
        chained := Some(next.State());
      }
    }

    /** The calls of a block, stopping at the first that raises. */
    method PerformAll(ops: seq<ProxyOp>) returns (raised: bool)
      modifies this, element.canvas
      decreases BlockSize(ops), 1
      ensures var o := RunBlock(old(State()), ops);
              State() == o.proxy && raised == o.raised &&
              element.canvas.contents == old(element.canvas.contents) + o.written
    {
      var i := 0;
      raised := false;
      while i < |ops|
        invariant 0 <= i <= |ops|
        invariant !RunBlock(old(State()), ops[..i]).raised
        invariant State() == RunBlock(old(State()), ops[..i]).proxy
        invariant element.canvas.contents == old(element.canvas.contents) + RunBlock(old(State()), ops[..i]).written
      {
        ghost var before := RunBlock(old(State()), ops[..i]);
        RunBlockStep(old(State()), ops, i);
        OpSizeWithinBlock(ops, i);
        raised := Perform(ops[i]);
        AppendAssociates(old(element.canvas.contents), before.written, Step(before.proxy, ops[i]).written);
        if raised {
          RunBlockPrefixRaises(old(State()), ops, i + 1);
          return;
        }
        i := i + 1;
      }
      assert ops[..i] == ops;
    }
  }

  // ---- `animate` and `every` on an element ----

  /** `animate(seconds, attributes, callback)` without a block:
      `<name>.animate(<json>, <ms> [, <callback>]);`. */
  function AnimateStatement(name: string, seconds: int, attributes: Entries, callback: Value): (r: string)
    ensures |name| + 9 <= |r| && r[..|name| + 9] == name + ".animate(" && r[|r| - 2..] == ");"
  {
    var cb := if Truthy(callback) then Some(Display(callback)) else None;
    FramedCall(name + ".animate(", ToJson(Hash(attributes)), ", ", Decimal(seconds * 1000), " ",
               if cb.Some? then ", " + cb.value else "", ")", ";");
    assert ")" + ";" == ");";
    AnimateCall(name, attributes, seconds * 1000, cb) + ";"
  }

  /** Both forms of `animate` issue the same call on the element, but the
      block form wraps it in a function it invokes, and wraps the callback
      in a function too, where the plain form passes the callback text
      as it is. */
  lemma BlockAndPlainAnimateAgree(name: string, seconds: int, attributes: Entries, js: string)
    ensures AnimateStatement(name, seconds, attributes, Nil) == AnimateCall(name, attributes, seconds * 1000, None) + ";"
    ensures Output(NewProxy(name, seconds, attributes, Nil)) ==
            "(function() { " + AnimateCall(name, attributes, seconds * 1000, None) + "})" + "()"
    ensures AnimateStatement(name, seconds, attributes, Str(js)) == AnimateCall(name, attributes, seconds * 1000, Some(js)) + ";"
    ensures Output(NewProxy(name, seconds, attributes, Str(js))) ==
            "(function() { " + AnimateCall(name, attributes, seconds * 1000, Some("(function() { " + js + " })")) + "})" + "()"
  {
    var plain := NewProxy(name, seconds, attributes, Nil);
    assert CallbackFunction(plain) == None;
    assert FunctionStr(plain) == "(function() { " + AnimateCall(name, attributes, seconds * 1000, None) + "})";
    var wrapped := NewProxy(name, seconds, attributes, Str(js));
    assert CallbackFunction(wrapped) == Some("(function() { " + js + " })");
    assert FunctionStr(wrapped) ==
           "(function() { " + AnimateCall(name, attributes, seconds * 1000, Some("(function() { " + js + " })")) + "})";
  }

  const LoopHead: string := "          " + "(\n" + "            " + "function() {\n" + "              "
  const LoopMid: string := "\n" + "              "
  const LoopTail: string := "\n" + "            " + "}\n" + "          " + ")();\n"

  /** The statement `every` appends (the heredoc kept as it is): the
      proxy's output, then a `setTimeout` that calls the enclosing function
      again. */
  function LoopStatement(output: string, seconds: int): (r: string)
    ensures |LoopHead| + |output| + 1 <= |r| && r[..|LoopHead| + |output| + 1] == LoopHead + output + ";"
    ensures |LoopTail| <= |r| && r[|r| - |LoopTail|..] == LoopTail
  {
    LoopHead + (output + ";") + LoopMid + ("setTimeout(arguments.callee, " + Decimal(seconds * 1000) + ");") + LoopTail
  }

  /** The looping statement runs the animation and then re-schedules itself
      after the same number of milliseconds. */
  lemma LoopRunsOutputThenReschedules(output: string, seconds: int)
    ensures exists i, j :: InfixAt(output + ";", LoopStatement(output, seconds), i) &&
                           InfixAt("setTimeout(arguments.callee, " + Decimal(seconds * 1000) + ");",
                                   LoopStatement(output, seconds), j) &&
                           i + |output + ";"| <= j
  {
    var first := output + ";";
    var second := "setTimeout(arguments.callee, " + Decimal(seconds * 1000) + ");";
    FiveParts(LoopHead, first, LoopMid, second, LoopTail);
    var i := |LoopHead|;
    var j := |LoopHead| + |first| + |LoopMid|;
    assert InfixAt(first, LoopStatement(output, seconds), i);
    assert InfixAt(second, LoopStatement(output, seconds), j);
  }

  /** `shape.animate(seconds, attributes, callback)`, with a block when
      `block` is given. With a block, what the block wrote comes first and
      the proxy's output is appended last, unless the block raised. */
  method Animate(shape: BasicShape, seconds: int, attributes: Entries, callback: Value,
                 block: Option<seq<ProxyOp>>)
    returns (raised: bool)
    modifies shape.canvas
    ensures block.None? ==>
              !raised &&
              shape.canvas.contents == old(shape.canvas.contents) +
                [AnimateStatement(shape.name, seconds, attributes, callback)]
    ensures block.Some? ==>
              var o := RunBlock(NewProxy(shape.name, seconds, attributes, callback), block.value);
              raised == o.raised &&
              shape.canvas.contents == old(shape.canvas.contents) + o.written +
                (if o.raised then [] else [Output(o.proxy)])
  {
    if block.None? {
      shape.canvas.Append(AnimateStatement(shape.name, seconds, attributes, callback));
      return false;
    }
    var proxy := new AnimationProxy(shape, seconds, attributes, callback);
    raised := proxy.PerformAll(block.value);
    if !raised {
      shape.canvas.Append(proxy.OutputText());
    }
  }

  /** `shape.every(seconds) { block }`: without a block the `yield`
      raises before anything is appended. */
  method Every(shape: BasicShape, seconds: int, block: Option<seq<ProxyOp>>) returns (raised: bool)
    modifies shape.canvas
    ensures block.None? ==> raised && shape.canvas.contents == old(shape.canvas.contents)
    ensures block.Some? ==>
              var o := RunBlock(NewProxy(shape.name, seconds, [], Nil), block.value);
              raised == o.raised &&
              shape.canvas.contents == old(shape.canvas.contents) + o.written +
                (if o.raised then [] else [LoopStatement(Output(o.proxy), seconds)])
  {
    if block.None? {
      return true;
    }
    var proxy := new AnimationProxy(shape, seconds, [], Nil);
    raised := proxy.PerformAll(block.value);
    if !raised {
      shape.canvas.Append(LoopStatement(proxy.OutputText(), seconds));
    }
  }
}
