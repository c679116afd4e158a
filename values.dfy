/** Ruby values as the DSL passes them around, with the three ways the
    library turns them into text (`to_s`, `inspect`, `to_json`), Hash
    operations on option lists, and the JavascriptLiteral wrapper
    (lib/canvas/javascript_literal.rb). */
module Values {
  import opened Text

  datatype Option<+T> = None | Some(value: T)

  /** The Ruby objects the DSL receives as arguments and option values.
      `Literal` is a `JavascriptLiteral`; `Hash` is an insertion-ordered
      hash, kept as its list of entries. Floats are not modelled. */
  datatype Value =
    | Nil
    | Bool(b: bool)
    | Int(i: int)
    | Str(s: string)
    | Sym(name: string)
    | Literal(js: string)
    | Array(items: seq<Value>)
    | Hash(entries: seq<(Value, Value)>)

  /** An options hash: its entries in insertion order. */
  type Entries = seq<(Value, Value)>

  /** Ruby truthiness: everything but `nil` and `false`. */
  predicate Truthy(v: Value)
  {
    !(v.Nil? || v == Bool(false))
  }

  /** Ruby's `a || b`: truthy exactly when one of the two is. */
  function Or(a: Value, b: Value): (r: Value)
    ensures Truthy(a) ==> r == a
    ensures !Truthy(a) ==> r == b
    ensures Truthy(r) <==> Truthy(a) || Truthy(b)
  {
    if Truthy(a) then a else b
  }

  /** `args[i]` of a Ruby array: `nil` past the end. */
  function At(args: seq<Value>, i: nat): (r: Value)
    ensures i < |args| ==> r == args[i]
    ensures i >= |args| ==> r == Nil
  {
    if i < |args| then args[i] else Nil
  }

  /** `Array#compact`: the array without its `nil` items, order kept. */
  function Compact(s: seq<Value>): (r: seq<Value>)
    ensures |r| <= |s|
    ensures forall v :: v in r ==> v in s && v != Nil
    ensures forall v :: v in s && v != Nil ==> v in r
    ensures multiset(r) == multiset(s)[Nil := 0]
  {
    if s == [] then []
    else
      assert s == [s[0]] + s[1..];
      if s[0] == Nil then Compact(s[1..])
      else [s[0]] + Compact(s[1..])
  }

  /** Compacting distributes over concatenation. */
  lemma {:induction false} CompactAppend(a: seq<Value>, b: seq<Value>)
    ensures Compact(a + b) == Compact(a) + Compact(b)
  {
    if a != [] {
      assert (a + b)[0] == a[0] && (a + b)[1..] == a[1..] + b;
      CompactAppend(a[1..], b);
    } else {
      assert a + b == b;
    }
  }

  /** A step of `CompactKeepsLead` and of the scale lemmas: two `nil`s compact
      to nothing; two other items stay as they are. */
  lemma CompactPair(x: Value, y: Value)
    ensures Compact([Nil, Nil]) == []
    ensures x != Nil && y != Nil ==> Compact([x, y]) == [x, y]
  {
    assert [Nil, Nil][1..] == [Nil] && [Nil][1..] == [];
    assert [x, y][1..] == [y] && [y][1..] == [];
  }

  /** Items other than `nil` in front survive compaction unchanged. */
  lemma CompactKeepsLead(x: Value, y: Value, rest: seq<Value>)
    requires x != Nil && y != Nil
    ensures Compact([x, y] + rest) == [x, y] + Compact(rest)
  {
    CompactAppend([x, y], rest);
    CompactPair(x, y);
  }

  /** Text with no double quote and no backslash: JSON and `inspect` quote
      it without change. */
  predicate Plain(s: string)
  {
    forall k :: 0 <= k < |s| ==> s[k] != '"' && s[k] != '\\'
  }

  /** Joining plain parts with a plain separator gives plain text. */
  lemma {:induction false} JoinPlain(parts: seq<string>, sep: string)
    requires forall k :: 0 <= k < |parts| ==> Plain(parts[k])
    requires Plain(sep)
    ensures Plain(Join(parts, sep))
  {
    if |parts| > 1 {
      JoinPlain(parts[1..], sep);
      assert Join(parts, sep) == parts[0] + sep + Join(parts[1..], sep);
    }
  }

  /** Backslash-escapes the quote and the backslash. Escaping of control
      and non-ASCII characters is not modelled. */
  function Escape(s: string): (r: string)
    ensures |r| >= |s|
    ensures Plain(s) ==> r == s
  {
    if s == [] then ""
    else (if s[0] == '"' || s[0] == '\\' then ['\\', s[0]] else [s[0]]) + Escape(s[1..])
  }

  /** A double-quoted string literal (JSON string, or `String#inspect`). */
  function Quote(s: string): string
  {
    "\"" + Escape(s) + "\""
  }

  /** The JSON text of a value (`to_json`). A `JavascriptLiteral` renders
      its held text with no quoting (javascript_literal.rb:20-22); a hash
      key renders as the JSON string of its `to_s`. */
  function ToJson(v: Value): string
    decreases v
  {
    match v
    case Nil => "null"
    case Bool(b) => if b then "true" else "false"
    case Int(i) => Decimal(i)
    case Str(s) => Quote(s)
    case Sym(name) => Quote(name)
    case Literal(js) => js
    case Array(items) =>
      "[" + Join(seq(|items|, k requires 0 <= k < |items| => ToJson(items[k])), ",") + "]"
    case Hash(entries) =>
      "{" + Join(seq(|entries|, k requires 0 <= k < |entries| =>
                   Quote(Display(entries[k].0)) + ":" + ToJson(entries[k].1)), ",") + "}"
  }

  /** `inspect`. A JavascriptLiteral is shown without its object address. */
  function Inspect(v: Value): string
    decreases v
  {
    match v
    case Nil => "nil"
    case Bool(b) => if b then "true" else "false"
    case Int(i) => Decimal(i)
    case Str(s) => Quote(s)
    case Sym(name) => ":" + name
    case Literal(js) => "#<Rafa::Elements::JavascriptLiteral @js=" + Quote(js) + ">"
    case Array(items) =>
      "[" + Join(seq(|items|, k requires 0 <= k < |items| => Inspect(items[k])), ", ") + "]"
    case Hash(entries) =>
      "{" + Join(seq(|entries|, k requires 0 <= k < |entries| =>
                   Inspect(entries[k].0) + "=>" + Inspect(entries[k].1)), ", ") + "}"
  }

  /** `to_s`, which string interpolation uses. A JavascriptLiteral does not
      define it, so Ruby prints the object's class and address; the model
      keeps the class name only. */
  function Display(v: Value): string
    decreases v
  {
    match v
    case Nil => ""
    case Bool(b) => if b then "true" else "false"
    case Int(i) => Decimal(i)
    case Str(s) => s
    case Sym(name) => name
    case Literal(_) => "#<Rafa::Elements::JavascriptLiteral>"
    case Array(_) => Inspect(v)
    case Hash(_) => Inspect(v)
  }

  /** `Array#to_js_args` (an extension defined outside these files): the
      JSON of each argument, joined by a comma and a space. */
  function ToJsArgs(args: seq<Value>): string
  {
    Join(seq(|args|, k requires 0 <= k < |args| => ToJson(args[k])), ", ")
  }

  /** A single argument is passed as its JSON alone. */
  lemma ToJsArgsSingle(v: Value)
    ensures ToJsArgs([v]) == ToJson(v)
  {
    assert seq(1, k requires 0 <= k < 1 => ToJson([v][k])) == [ToJson(v)];
  }

  /** A one-entry hash is a JSON object with one quoted key. */
  lemma ToJsonSingleEntry(key: Value, value: Value)
    ensures ToJson(Hash([(key, value)])) == "{" + Quote(Display(key)) + ":" + ToJson(value) + "}"
  {
    var entries := [(key, value)];
    var entry := Quote(Display(key)) + ":" + ToJson(value);
    assert seq(1, k requires 0 <= k < 1 => Quote(Display(entries[k].0)) + ":" + ToJson(entries[k].1)) == [entry];
  }

  /** `hash[key]`: the value of the first entry with that key, or `nil`. */
  function Lookup(entries: Entries, key: Value): (r: Value)
    ensures (forall k :: 0 <= k < |entries| ==> entries[k].0 != key) ==> r == Nil
    ensures |entries| > 0 && entries[0].0 == key ==> r == entries[0].1
    ensures forall k :: 0 <= k < |entries| && entries[k].0 == key && (forall j :: 0 <= j < k ==> entries[j].0 != key) ==>
                        r == entries[k].1
  {
    if entries == [] then Nil
    else if entries[0].0 == key then entries[0].1
    else Lookup(entries[1..], key)
  }

  /** The entries with `key` taken out, the others in their order. */
  function Remove(entries: Entries, key: Value): (r: Entries)
    ensures forall k :: 0 <= k < |r| ==> r[k].0 != key
    ensures forall e :: e in r <==> e in entries && e.0 != key
    ensures |r| <= |entries|
    ensures (forall k :: 0 <= k < |entries| ==> entries[k].0 != key) ==> r == entries
  {
    if entries == [] then []
    else if entries[0].0 == key then Remove(entries[1..], key)
    else [entries[0]] + Remove(entries[1..], key)
  }

  /** Removing a key from two runs of entries one after the other is removing
      it from each: what is kept stays in its relative order. */
  lemma {:induction false} RemoveAppend(a: Entries, b: Entries, key: Value)
    ensures Remove(a + b, key) == Remove(a, key) + Remove(b, key)
  {
    if a == [] {
      assert a + b == b;
    } else {
      assert (a + b)[0] == a[0] && (a + b)[1..] == a[1..] + b;
      RemoveAppend(a[1..], b, key);
      if a[0].0 != key {
        calc {
          Remove(a + b, key);
          [a[0]] + Remove(a[1..] + b, key);
          [a[0]] + (Remove(a[1..], key) + Remove(b, key));
          ([a[0]] + Remove(a[1..], key)) + Remove(b, key);
        }
      }
    }
  }

  /** Taking one key out does not change what another key reads. */
  lemma {:induction false} LookupRemoveOther(entries: Entries, removed: Value, key: Value)
    ensures removed != key ==> Lookup(Remove(entries, removed), key) == Lookup(entries, key)
  {
    if entries != [] {
      LookupRemoveOther(entries[1..], removed, key);
    }
  }

  /** `hash.delete(key)`: the removed value (`nil` when absent) and the rest. */
  function Delete(entries: Entries, key: Value): (Value, Entries)
  {
    (Lookup(entries, key), Remove(entries, key))
  }

  /** `hash.delete(first) || hash.delete(second)`: the second key is deleted
      only when the first yields a false value. */
  function DeleteEither(entries: Entries, first: Value, second: Value): (r: (Value, Entries))
    ensures Truthy(Lookup(entries, first)) ==>
              r == (Lookup(entries, first), Remove(entries, first))
    ensures !Truthy(Lookup(entries, first)) && first != second ==>
              r == (Lookup(entries, second), Remove(Remove(entries, first), second))
  {
    LookupRemoveOther(entries, first, second);
    var (a, rest) := Delete(entries, first);
    if Truthy(a) then (a, rest) else Delete(rest, second)
  }

  /** `hash[key] = value`: an existing key keeps its place and takes the new
      value; a new key is added at the end. */
  function Put(entries: Entries, key: Value, value: Value): (r: Entries)
    ensures |r| == |entries| || |r| == |entries| + 1
    ensures (forall k :: 0 <= k < |entries| ==> entries[k].0 != key) ==> r == entries + [(key, value)]
    ensures forall k :: 0 <= k < |entries| && entries[k].0 == key && (forall j :: 0 <= j < k ==> entries[j].0 != key) ==>
                        r == entries[k := (key, value)]
  {
    if entries == [] then [(key, value)]
    else if entries[0].0 == key then [(key, value)] + entries[1..]
    else [entries[0]] + Put(entries[1..], key, value)
  }

  /** After `hash[key] = value`, reading `key` gives `value`. */
  lemma {:induction false} PutThenLookup(entries: Entries, key: Value, value: Value)
    ensures Lookup(Put(entries, key, value), key) == value
  {
    if entries != [] && entries[0].0 != key {
      PutThenLookup(entries[1..], key, value);
    }
  }

  /** `hash[key] = value` leaves every other key's value as it was. */
  lemma {:induction false} PutKeepsOthers(entries: Entries, key: Value, value: Value, other: Value)
    requires other != key
    ensures Lookup(Put(entries, key, value), other) == Lookup(entries, other)
  {
    if entries != [] && entries[0].0 != key {
      PutKeepsOthers(entries[1..], key, value, other);
    }
  }

  /** `hash[key] = value` adds an entry exactly when the key was new. */
  lemma {:induction false} PutLength(entries: Entries, key: Value, value: Value)
    ensures |Put(entries, key, value)| ==
            if exists k :: 0 <= k < |entries| && entries[k].0 == key then |entries| else |entries| + 1
  {
    if entries != [] && entries[0].0 != key {
      PutLength(entries[1..], key, value);
      if exists k :: 0 <= k < |entries[1..]| && entries[1..][k].0 == key {
        var k :| 0 <= k < |entries[1..]| && entries[1..][k].0 == key;
        assert entries[k + 1].0 == key;
      }
      if exists k :: 0 <= k < |entries| && entries[k].0 == key {
        var k :| 0 <= k < |entries| && entries[k].0 == key;
        assert entries[1..][k - 1].0 == key;
      }
    } else if entries != [] {
      assert entries[0].0 == key;
    }
  }

  // ---- JavascriptLiteral (lib/canvas/javascript_literal.rb) ----

  /** `js_literal(js)`: the same literal as `JavascriptLiteral.new(js)`. */
  function JsLiteral(js: string): (r: Value)
    ensures r.Literal? && r.js == js
  {
    Literal(js)
  }

  /** `JavascriptLiteral#to_json(repr = nil)`: the held text, whatever the
      argument. */
  function LiteralToJson(literal: Value, repr: Value): (r: string)
    requires literal.Literal?
    ensures r == ToJson(literal)
  {
    literal.js
  }

  /** A literal's JSON is its text verbatim, with no quoting or escaping, and
      the optional argument makes no difference. This is what lets the
      element code pass raw JavaScript (a bounding box field, a callback)
      where a JSON value is expected. */
  lemma LiteralJsonIsVerbatim(js: string, repr1: Value, repr2: Value)
    ensures ToJson(JsLiteral(js)) == js
    ensures LiteralToJson(JsLiteral(js), repr1) == LiteralToJson(JsLiteral(js), repr2)
  {
  }

  /** Reassigning `js` through the accessor changes what `to_json` returns. */
  lemma LiteralReassign(literal: Value, js: string)
    requires literal.Literal?
    ensures ToJson(literal.(js := js)) == js
  {
  }
}
