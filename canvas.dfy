/** The canvas (lib/canvas/canvas.rb): argument validation, the Raphael
    constructor call, the append-only statement buffer and the script that
    is finally emitted. */
module Canvases {
  import opened Text
  import opened Values

  /** What `Canvas#initialize` keeps from its arguments. */
  datatype Config = Config(domElement: Value, width: Value, height: Value, raphaelArguments: seq<Value>)

  /** The first argument names a DOM element (a String or a Symbol). */
  predicate NamedFirst(args: seq<Value>)
  {
    |args| > 0 && (args[0].Str? || args[0].Sym?)
  }

  /** `slice.all? { |a| a.kind_of? Integer }` */
  predicate AllIntegers(slice: seq<Value>)
  {
    forall k :: 0 <= k < |slice| ==> slice[k].Int?
  }

  /** `args[start, length]` for a start inside the array or just past it. */
  function Slice(args: seq<Value>, start: nat, length: nat): (r: seq<Value>)
    requires start <= |args|
    ensures |r| == if start + length <= |args| then length else |args| - start
    ensures forall k :: 0 <= k < |r| ==> r[k] == args[start + k]
  {
    if start + length <= |args| then args[start..start + length] else args[start..]
  }

  /** `Canvas#initialize` (canvas.rb:18-30): `None` is the "Bad arguments"
      error. */
  function Configure(args: seq<Value>): (r: Option<Config>)
    ensures NamedFirst(args) ==>
              (r.Some? <==> forall k :: 1 <= k < |args| && k < 3 ==> args[k].Int?)
    ensures !NamedFirst(args) ==>
              (r.Some? <==> forall k :: 0 <= k < |args| && k < 4 ==> args[k].Int?)
    ensures r.Some? && NamedFirst(args) ==>
              r.value.domElement == args[0] &&
              r.value.width == At(args, 1) && r.value.height == At(args, 2) &&
              r.value.raphaelArguments == args[..if |args| < 3 then |args| else 3]
    ensures r.Some? && !NamedFirst(args) ==>
              r.value.domElement == Nil &&
              r.value.width == At(args, 2) && r.value.height == At(args, 3) &&
              r.value.raphaelArguments == args[..if |args| < 4 then |args| else 4]
  {
    if NamedFirst(args) then
      var checked := Slice(args, 1, 2);
      if !AllIntegers(checked) then None
      else Some(Config(args[0], At(args, 1), At(args, 2), Slice(args, 0, 3)))
    else
      var checked := Slice(args, 0, 4);
      if !AllIntegers(checked) then None
      else Some(Config(Nil, At(args, 2), At(args, 3), checked))
  }

  /** Every argument handed to `new Raphael(...)` is an Integer, or a String
      or Symbol in first position. */
  lemma ConstructorArgumentKinds(args: seq<Value>)
    requires Configure(args).Some?
    ensures var ra := Configure(args).value.raphaelArguments;
            (forall k :: 1 <= k < |ra| ==> ra[k].Int?) &&
            (|ra| > 0 ==> ra[0].Int? || ra[0].Str? || ra[0].Sym?)
  {
  }

  /** Only the first three (named) or four arguments are looked at: more
      arguments never change the outcome. */
  lemma ExtraArgumentsIgnored(args: seq<Value>, extra: seq<Value>)
    requires |args| >= 4
    ensures Configure(args + extra) == Configure(args)
  {
    assert (args + extra)[..4] == args[..4];
    assert (args + extra)[..3] == args[..3];
  }

  /** The check covers only the arguments present: a lone name is accepted
      and leaves width and height `nil`. */
  lemma LoneNameAccepted(name: string)
    ensures Configure([Str(name)]) == Some(Config(Str(name), Nil, Nil, [Str(name)]))
  {
  }

  /** `new Raphael(<inspect of each argument, joined by ",">)`
      (canvas.rb:31, 37-39). */
  function ConstructorCall(raphaelArguments: seq<Value>): (r: string)
    ensures |r| >= 13 && r[..12] == "new Raphael(" && r[|r| - 1] == ')'
    ensures raphaelArguments == [] ==> r == "new Raphael()"
  {
    "new Raphael(" +
    Join(seq(|raphaelArguments|, k requires 0 <= k < |raphaelArguments| => Inspect(raphaelArguments[k])), ",") +
    ")"
  }

  /** The script assembled by `canvas` (canvas.rb:9-12): the canvas
      declaration, a newline, then the statements joined by newlines. */
  function ScriptText(name: string, constructorCall: string, contents: seq<string>): (r: string)
    ensures var declaration := "var " + name + " = " + constructorCall + ";\n";
            |declaration| <= |r| && r[..|declaration|] == declaration
    ensures contents == [] ==> r == "var " + name + " = " + constructorCall + ";\n"
  {
    "var " + name + " = " + constructorCall + ";\n" + Join(contents, "\n")
  }

  /** Appending a statement extends the script at its end, after a newline
      unless it is the first statement: nothing earlier changes. */
  lemma ScriptAppend(name: string, constructorCall: string, contents: seq<string>, statement: string)
    ensures ScriptText(name, constructorCall, contents + [statement]) ==
            ScriptText(name, constructorCall, contents) +
            (if contents == [] then statement else "\n" + statement)
  {
    JoinSnoc(contents, statement, "\n");
  }

  /** The script of a canvas holding `contents` lists them in append order:
      the i-th statement sits after the declaration and the first i-1. */
  lemma {:induction false} ScriptOrder(name: string, constructorCall: string, contents: seq<string>)
    ensures forall i :: 0 <= i < |contents| ==>
              IsInfix(contents[i], ScriptText(name, constructorCall, contents))
  {
    if contents != [] {
      var init := contents[..|contents| - 1];
      var last := contents[|contents| - 1];
      assert contents == init + [last];
      ScriptOrder(name, constructorCall, init);
      ScriptAppend(name, constructorCall, init, last);
      var before := ScriptText(name, constructorCall, init);
      var sep := if init == [] then "" else "\n";
      assert ScriptText(name, constructorCall, contents) == before + sep + last + "";
      forall i | 0 <= i < |contents|
        ensures IsInfix(contents[i], ScriptText(name, constructorCall, contents))
      {
        if i < |init| {
          assert contents[i] == init[i];
          InfixOfConcat("", before, sep + last);
          assert "" + before + (sep + last) == ScriptText(name, constructorCall, contents);
          InfixTransitive(contents[i], before, ScriptText(name, constructorCall, contents));
        } else {
          InfixOfConcat(before + sep, last, "");
        }
      }
    }
  }

  /** The `Canvas` object: a name, the constructor arguments, and the
      statement buffer `contents` that every element appends to. */
  class Canvas {
    const name: string
    const config: Config
    var contents: seq<string>

    /** The body of `initialize` after validation; `stamp` stands for the
        time-based suffix of the name. */
    constructor (config: Config, stamp: string)
      ensures this.config == config
      ensures name == "_raphael_canvas_" + stamp
      ensures contents == []
    {
      this.config := config;
      this.name := "_raphael_canvas_" + stamp;
      this.contents := [];
    }

    /** `constructor` */
    function Constructor(): string
    {
      ConstructorCall(config.raphaelArguments)
    }

    /** `<<`: appends the statement at the end and changes nothing else. */
    method Append(script: string)
      modifies this
      ensures contents == old(contents) + [script]
    {
      contents := contents + [script];
    }

    /** The text handed to `javascript_tag` by `canvas`. */
    function Script(): string
      reads this
    {
      ScriptText(name, Constructor(), contents)
    }
  }

  /** `Canvas.new(*args)`: `null` when it raises "Bad arguments". */
  method Open(args: seq<Value>, stamp: string) returns (c: Canvas?)
    ensures c == null <==> Configure(args).None?
    ensures c != null ==> fresh(c) && c.contents == [] && c.config == Configure(args).value &&
                          c.name == "_raphael_canvas_" + stamp
  {
    var r := Configure(args);
    if r.None? {
      c := null;
    } else {
      c := new Canvas(r.value, stamp);
    }
  }

  /** The element classes `Canvas#method_missing` can reach
      (canvas.rb:41-48); they are those of lib/canvas/elements.rb. */
  datatype ShapeClass = CircleClass | RectClass | EllipseClass | TextClass

  /** Where a missing method goes: `NoMethod` falls through to `super`;
      `Undefined` is a name the pattern accepts but for which
      `Rafa::Elements::<Name>` is no class. */
  datatype Dispatch = NoMethod | Undefined | Construct(shape: ShapeClass)

  /** `name =~ /circle|rect|ellipse|text/`, then `eval` of the capitalised
      name. */
  function DispatchTarget(name: string): (d: Dispatch)
    ensures d == NoMethod <==>
              !(Contains(name, "circle") || Contains(name, "rect") ||
                Contains(name, "ellipse") || Contains(name, "text"))
    ensures d.Construct? <==> name == "circle" || name == "rect" || name == "ellipse" || name == "text"
  {
    ContainsSelf(name);
    if !(Contains(name, "circle") || Contains(name, "rect") ||
         Contains(name, "ellipse") || Contains(name, "text")) then NoMethod
    else if name == "circle" then Construct(CircleClass)
    else if name == "rect" then Construct(RectClass)
    else if name == "ellipse" then Construct(EllipseClass)
    else if name == "text" then Construct(TextClass)
    else Undefined
  }
}
