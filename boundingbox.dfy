/** The bounding-box proxy (lib/canvas/boundingbox.rb). Every call appends
    a statement to the owning element's canvas. */
module Boundingbox {
  import opened Values
  import opened Canvases

  /** `name || element.name + "_bbox"` (boundingbox.rb:15). */
  function BoxName(given: Value, elementName: string): (r: string)
    ensures !Truthy(given) ==> r == elementName + "_bbox"
    ensures Truthy(given) ==> r == Display(given)
  {
    if Truthy(given) then Display(given) else elementName + "_bbox"
  }

  /** Whether the box's name is a String: the element's name (taken to be
      one) when no name is given, else the given name only if it is a
      String. `@name + '_'` (boundingbox.rb:51) raises for any other name. */
  predicate NamedByString(given: Value)
  {
    !Truthy(given) || given.Str?
  }

  /** `inject_js(reload)` (boundingbox.rb:56-58): ` <name> = <element>.getBBox();`,
      with `var` in front only when reloading. */
  function GetBBoxStatement(reload: bool, name: string, elementName: string): (r: string)
    ensures reload ==> |r| >= 4 && r[..4] == "var "
    ensures |r| >= 11 && r[|r| - 11..] == ".getBBox();"
  {
    (if reload then "var" else "") + " " + name + " = " + elementName + ".getBBox();"
  }

  /** The statement of `update!` is the construction statement with `var`
      in front; the construction statement starts with a space. */
  lemma ReloadAddsVar(name: string, elementName: string)
    ensures GetBBoxStatement(true, name, elementName) == "var" + GetBBoxStatement(false, name, elementName)
    ensures GetBBoxStatement(false, name, elementName)[0] == ' '
  {
  }

  /** `var <name>_<attr> = <name>.<attr>;` (boundingbox.rb:50-54). */
  function ReadStatement(name: string, attr: string): (r: string)
    ensures |r| >= 4 && r[..4] == "var " && r[|r| - 1] == ';'
  {
    "var " + name + "_" + attr + " = " + name + "." + attr + ";"
  }

  /** The statement declares exactly the variable whose name the returned
      literal holds. */
  lemma ReadStatementDeclaresLiteral(name: string, attr: string)
    ensures ReadStatement(name, attr)[..4 + |name| + 1 + |attr|] == "var " + JsLiteral(name + "_" + attr).js
  {
  }

  class BBox {
    const canvas: Canvas
    /** The element's name as it was when the box was built. */
    const elementName: string
    const name: string
    /** Whether the name is a String, so that fields can be read. */
    const readable: bool

    /** `BBox.new(element, name)`: names the box and appends one statement
        without `var`. */
    constructor (canvas: Canvas, elementName: string, given: Value)
      modifies canvas
      ensures this.canvas == canvas && this.elementName == elementName
      ensures name == BoxName(given, elementName)
      ensures readable == NamedByString(given)
      ensures canvas.contents == old(canvas.contents) + [GetBBoxStatement(false, name, elementName)]
    {
      this.canvas := canvas;
      this.elementName := elementName;
      this.name := BoxName(given, elementName);
      this.readable := NamedByString(given);
      new;
      canvas.Append(GetBBoxStatement(false, name, elementName));
    }

    /** `update!`: appends the statement again, with `var`; the box itself
        is returned unchanged. */
    method Update()
      modifies canvas
      ensures canvas.contents == old(canvas.contents) + [GetBBoxStatement(true, name, elementName)]
    {
      canvas.Append(GetBBoxStatement(true, name, elementName));
    }

    /** The private `attr(name)`: `None` when the box's name is not a
        String, in which case building the variable name raises before
        anything is appended. */
    method Read(attr: string) returns (literal: Option<Value>)
      modifies canvas
      ensures readable ==> canvas.contents == old(canvas.contents) + [ReadStatement(name, attr)]
      ensures readable ==> literal == Some(JsLiteral(name + "_" + attr))
      ensures !readable ==> canvas.contents == old(canvas.contents) && literal == None
    {
      if !readable {
        return None;
      }
      canvas.Append(ReadStatement(name, attr));
      literal := Some(JsLiteral(name + "_" + attr));
    }

    method X() returns (literal: Option<Value>)
      modifies canvas
      ensures readable ==> canvas.contents == old(canvas.contents) + [ReadStatement(name, "x")]
      ensures readable ==> literal == Some(JsLiteral(name + "_x"))
      ensures !readable ==> canvas.contents == old(canvas.contents) && literal == None
    {
      literal := Read("x");
      assert name + "_" + "x" == name + "_x";
    }

    method Y() returns (literal: Option<Value>)
      modifies canvas
      ensures readable ==> canvas.contents == old(canvas.contents) + [ReadStatement(name, "y")]
      ensures readable ==> literal == Some(JsLiteral(name + "_y"))
      ensures !readable ==> canvas.contents == old(canvas.contents) && literal == None
    {
      literal := Read("y");
      assert name + "_" + "y" == name + "_y";
    }

    method Width() returns (literal: Option<Value>)
      modifies canvas
      ensures readable ==> canvas.contents == old(canvas.contents) + [ReadStatement(name, "width")]
      ensures readable ==> literal == Some(JsLiteral(name + "_width"))
      ensures !readable ==> canvas.contents == old(canvas.contents) && literal == None
    {
      literal := Read("width");
      assert name + "_" + "width" == name + "_width";
    }

    method Height() returns (literal: Option<Value>)
      modifies canvas
      ensures readable ==> canvas.contents == old(canvas.contents) + [ReadStatement(name, "height")]
      ensures readable ==> literal == Some(JsLiteral(name + "_height"))
      ensures !readable ==> canvas.contents == old(canvas.contents) && literal == None
    {
      literal := Read("height");
      assert name + "_" + "height" == name + "_height";
    }

    /** `w`, an alias of `width`. */
    method W() returns (literal: Option<Value>)
      modifies canvas
      ensures readable ==> canvas.contents == old(canvas.contents) + [ReadStatement(name, "width")]
      ensures readable ==> literal == Some(JsLiteral(name + "_width"))
      ensures !readable ==> canvas.contents == old(canvas.contents) && literal == None
    {
      literal := Width();
    }

    /** `h`, an alias of `height`. */
    method H() returns (literal: Option<Value>)
      modifies canvas
      ensures readable ==> canvas.contents == old(canvas.contents) + [ReadStatement(name, "height")]
      ensures readable ==> literal == Some(JsLiteral(name + "_height"))
      ensures !readable ==> canvas.contents == old(canvas.contents) && literal == None
    {
      literal := Height();
    }
  }
}
