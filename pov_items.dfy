/**
 * The POV-Ray scene writer of dgutils/pypov.py as functions: the tree of scene items, the
 * effect of each `File` operation on the written lines and the indent level, what
 * `Item.write` / `FunctionItem.write` do to a file, and the block layout they produce.
 */
module PovItems {
  import opened PyBase
  import opened PovValues

  /** A scene item, or an option that has no `write` method. */
  datatype Node =
    | Item(name: string, args: seq<Value>, opts: seq<Node>, kwargs: seq<(string, Value)>)
    | FunctionItem(name: string, body: string, opts: seq<Node>, kwargs: seq<(string, Value)>)
    | Plain(v: Value)   // written as its str()

  /** Item.__init__ turns every tuple or list argument into a Vector and keeps the rest. */
  function AsArg(x: Value): Value {
    if x.Tuple? || x.List? then Vec(x) else x
  }

  /** `Item(name, args, opts, **kwargs)`: `list(args)`, with tuple and list arguments made Vectors. */
  function NewItem(name: string, args: Value, opts: seq<Node>, kwargs: seq<(string, Value)>): (r: Result<Node>)
    ensures r.Err? <==> args.Atom? || args.Vec?
    ensures r.Err? ==> r.error == TypeError
    ensures r.Ok? ==> r.value.Item? && r.value.name == name && r.value.opts == opts && r.value.kwargs == kwargs
    ensures r.Ok? ==> var es := Iterate(args).value;
      && |r.value.args| == |es|
      && (forall i | 0 <= i < |es| :: !r.value.args[i].Tuple? && !r.value.args[i].List?)
      && (forall i | 0 <= i < |es| :: (es[i].Tuple? || es[i].List?) ==> r.value.args[i] == Vec(es[i]))
      && (forall i | 0 <= i < |es| :: !(es[i].Tuple? || es[i].List?) ==> r.value.args[i] == es[i])
  {
    var es :- Iterate(args);
    Ok(Item(name, seq(|es|, i requires 0 <= i < |es| => AsArg(es[i])), opts, kwargs))
  }

  /** `Function(f, *opts, **kwargs)`: a FunctionItem named `function` whose body is `f`. */
  function Function(f: string, opts: seq<Node>, kwargs: seq<(string, Value)>): (r: Node)
    ensures r.FunctionItem? && r.name == "function" && r.body == f
    ensures r.opts == opts && r.kwargs == kwargs
  {
    FunctionItem("function", f, opts, kwargs)
  }

  /** `"  " * level`: two spaces per level, nothing for a level of zero or below. */
  function Pad(level: int): (r: string)
    ensures |r| == if level > 0 then 2 * level else 0
    ensures forall i | 0 <= i < |r| :: r[i] == ' '
    decreases if level > 0 then level else 0
  {
    if level <= 0 then "" else "  " + Pad(level - 1)
  }

  /** The lines written so far and the current indent level (File.__indent). */
  datatype Doc = Doc(lines: seq<string>, level: int)

  /** The state after an operation, and whether it raised. */
  datatype Step = Step(doc: Doc, status: Result<()>)

  const Done: Result<()> := Ok(())

  /** `e` carries on from `d`: every line of `d` is still there, and new lines only follow them. */
  predicate Extends(d: Doc, e: Doc) {
    |d.lines| <= |e.lines| && e.lines[..|d.lines|] == d.lines
  }

  lemma ExtendsTrans(a: Doc, b: Doc, c: Doc)
    requires Extends(a, b) && Extends(b, c)
    ensures Extends(a, c)
  {
    assert c.lines[..|a.lines|] == c.lines[..|b.lines|][..|a.lines|];
  }

  function WritelnDoc(d: Doc, s: string): Doc {
    Doc(d.lines + [Pad(d.level) + s], d.level)
  }

  function IndentDoc(d: Doc): Doc {
    Doc(d.lines, d.level + 1)
  }

  /** `dedent`: the level goes down first, then the assertion checks it is not negative. */
  function DedentDoc(d: Doc): (r: Step)
    ensures r.doc == Doc(d.lines, d.level - 1)
    ensures r.status.Err? <==> d.level < 1
    ensures r.status.Err? ==> r.status.error == AssertionError
  {
    var e := Doc(d.lines, d.level - 1);
    Step(e, if e.level < 0 then Err(AssertionError) else Done)
  }

  function BlockBeginDoc(d: Doc): Doc {
    IndentDoc(WritelnDoc(d, "{"))
  }

  /** `block_end`: dedent, write `}`, and a blank line when back at the top level. */
  function BlockEndDoc(d: Doc): (r: Step)
    ensures r.status.Ok? <==> d.level >= 1
    ensures Extends(d, r.doc)
    ensures r.doc.level == d.level - 1
    ensures r.status.Ok? ==>
      r.doc.lines == d.lines + [Pad(d.level - 1) + "}"] + (if d.level == 1 then [""] else [])
  {
    var s := DedentDoc(d);
    if s.status.Err? then s
    else
      var e := WritelnDoc(s.doc, "}");
      assert Pad(0) + "" == "";
      Step(if e.level == 0 then WritelnDoc(e, "") else e, Done)
  }

  function IncludeDoc(d: Doc, name: string): Doc {
    WritelnDoc(WritelnDoc(d, IncludeLine(name)), "")
  }

  function IncludeLine(name: string): string {
    "#include \"" + name + "\""
  }

  /** The two lines every File starts with: `"#version %3.1f;" % 3.7` and the gamma setting. */
  const HeaderLines: seq<string> := ["#version 3.7;", "global_settings { assumed_gamma 1}"]

  /** A block opened by block_begin and closed by block_end leaves the level where it was. */
  lemma BlockBalanced(d: Doc, inner: seq<string>)
    requires d.level >= 0
    ensures var b := BlockBeginDoc(d);
      var e := BlockEndDoc(Doc(b.lines + inner, b.level));
      && e.status == Done
      && e.doc.level == d.level
      && e.doc.lines == d.lines + [Pad(d.level) + "{"] + inner + [Pad(d.level) + "}"]
                        + (if d.level == 0 then [""] else [])
  {
  }

  /** The name line, a balanced block around `inner`: the lines of Block, at the starting level. */
  lemma NamedBlock(d: Doc, name: string, inner: seq<string>)
    requires d.level >= 0
    ensures var b := BlockBeginDoc(WritelnDoc(d, name));
      BlockEndDoc(Doc(b.lines + inner, b.level)) == Step(Doc(d.lines + Block(d.level, name, inner), d.level), Done)
  {
    var l := d.level;
    BlockBalanced(WritelnDoc(d, name), inner);
    var tail := if l == 0 then [""] else [];
    assert d.lines + [Pad(l) + name] + [Pad(l) + "{"] + inner + [Pad(l) + "}"] + tail
        == d.lines + Block(l, name, inner);
  }

  /** `", ".join([str(arg) for arg in self.args])`. */
  function ArgsLine(args: seq<Value>): (r: Result<string>)
    ensures r.Err? ==> r.error == TypeError
    ensures r.Ok? <==> forall k | 0 <= k < |args| :: StrOf(args[k]).Ok?
  {
    var strs :- StrAll(args);
    Ok(Join(", ", strs))
  }

  /**
   * One keyword line of Item.write (`rgbt` true) or FunctionItem.write (`rgbt` false): a tuple
   * or list value becomes `Vector(*val)`, and under Item a four-element `color` gets `rgbt`.
   */
  function KwargLine(key: string, val: Value, rgbt: bool): (r: Result<string>)
    ensures r.Err? ==> r.error == TypeError
    ensures r.Ok? <==>
      if !(val.Tuple? || val.List?) then StrOf(val).Ok?
      else if |val.elems| == 1 then VectorStr(val.elems[0]).Ok?   // Vector(*(x,)) iterates x itself
      else StrAll(val.elems).Ok?
    ensures r.Ok? ==> |key| < |r.value| && r.value[..|key| + 1] == key + " "
  {
    if val.Tuple? || val.List? then
      var vs :- StrOf(VectorOf(val.elems));
      var k := if rgbt && key == "color" && |val.elems| == 4 then key + " rgbt" else key;
      Ok(k + " " + vs)
    else
      var s :- StrOf(val);
      Ok(key + " " + s)
  }

  /** The three shapes of a keyword line. */
  lemma KwargShapes(key: string, val: Value, rgbt: bool)
    ensures (val.Tuple? || val.List?) && |val.elems| != 1 && KwargLine(key, val, rgbt).Ok? ==>
      var line := KwargLine(key, val, rgbt).value;
      var vs := "<" + Join(", ", StrAll(val.elems).value) + ">";
      if rgbt && key == "color" && |val.elems| == 4 then line == "color rgbt " + vs
      else line == key + " " + vs
    ensures (val.Tuple? || val.List?) && |val.elems| == 1 ==>
      KwargLine(key, val, rgbt) == (var vs :- VectorStr(val.elems[0]); Ok(key + " " + vs))
    ensures !(val.Tuple? || val.List?) ==>
      KwargLine(key, val, rgbt) == (var s :- StrOf(val); Ok(key + " " + s))
  {
    if (val.Tuple? || val.List?) && |val.elems| != 1 && KwargLine(key, val, rgbt).Ok? {
      KwargVectorLine(key, val, rgbt);
    }
    if (val.Tuple? || val.List?) && |val.elems| == 1 {
      KwargSingleLine(key, val, rgbt);
    }
    if !(val.Tuple? || val.List?) {
      KwargPlainLine(key, val, rgbt);
    }
  }

  lemma KwargVectorLine(key: string, val: Value, rgbt: bool)
    requires (val.Tuple? || val.List?) && |val.elems| != 1 && KwargLine(key, val, rgbt).Ok?
    ensures var line := KwargLine(key, val, rgbt).value;
      var vs := "<" + Join(", ", StrAll(val.elems).value) + ">";
      if rgbt && key == "color" && |val.elems| == 4 then line == "color rgbt " + vs
      else line == key + " " + vs
  {
    assert StrOf(VectorOf(val.elems)) == VectorStr(Tuple(val.elems));
  }

  lemma KwargSingleLine(key: string, val: Value, rgbt: bool)
    requires (val.Tuple? || val.List?) && |val.elems| == 1
    ensures KwargLine(key, val, rgbt) == (var vs :- VectorStr(val.elems[0]); Ok(key + " " + vs))
  {
    assert StrOf(VectorOf(val.elems)) == VectorStr(val.elems[0]);
  }

  lemma KwargPlainLine(key: string, val: Value, rgbt: bool)
    requires !(val.Tuple? || val.List?)
    ensures KwargLine(key, val, rgbt) == (var s :- StrOf(val); Ok(key + " " + s))
  {
  }

  /** Writes `s` when the str() calls that make it succeeded; otherwise raises before writing. */
  function LineRun(s: Result<string>, d: Doc): (r: Step)
    ensures r.status.Ok? <==> s.Ok?
    ensures r.status.Err? ==> r.status.error == s.error
    ensures r.doc.level == d.level && Extends(d, r.doc)
  {
    match s
    case Ok(line) => Step(WritelnDoc(d, line), Done)
    case Err(e) => Step(d, Err(e))
  }

  /** The line after `{`: the joined args of an Item, the body string of a FunctionItem. */
  function HeadRun(n: Node, d: Doc): (r: Step)
    requires !n.Plain?
    ensures r.status.Err? ==> r.status.error == TypeError
    ensures r.doc.level == d.level && Extends(d, r.doc)
  {
    if n.Item? then
      if |n.args| == 0 then Step(d, Done) else LineRun(ArgsLine(n.args), d)
    else
      if n.body == "" then Step(d, Done) else Step(WritelnDoc(d, n.body), Done)
  }

  /**
   * `Item.write(file)` / `FunctionItem.write(file)` from file state `d`.  Lines already written
   * are never changed, a successful write ends at the level it started from, and from a
   * non-negative level the only exception is TypeError.
   */
  function ItemRun(n: Node, d: Doc): (r: Step)
    requires !n.Plain?
    ensures Extends(d, r.doc)
    ensures r.status.Ok? ==> r.doc.level == d.level
    ensures d.level >= 0 && r.status.Err? ==> r.status.error == TypeError
    decreases n, 1
  {
    var d1 := BlockBeginDoc(WritelnDoc(d, n.name));
    var s2 := HeadRun(n, d1);
    ExtendsTrans(d, d1, s2.doc);
    if s2.status.Err? then s2
    else
      var s3 := BodyRun(n, s2.doc);
      ExtendsTrans(d, s2.doc, s3.doc);
      if s3.status.Err? then s3
      else
        var s4 := BlockEndDoc(s3.doc);
        ExtendsTrans(d, s3.doc, s4.doc);
        s4
  }

  /** The options, then the keyword settings. */
  function BodyRun(n: Node, d: Doc): (r: Step)
    requires !n.Plain?
    ensures Extends(d, r.doc)
    ensures r.status.Ok? ==> r.doc.level == d.level
    ensures d.level >= 0 && r.status.Err? ==> r.status.error == TypeError
    decreases n, 0
  {
    var s := OptsRun(n.opts, d);
    if s.status.Err? then s
    else
      var t := KwargsRun(n.kwargs, n.Item?, s.doc);
      ExtendsTrans(d, s.doc, t.doc);
      t
  }

  /** One pass of the loop over `self.opts`: an item writes itself, anything else is written as its str(). */
  function OptRun(o: Node, d: Doc): (r: Step)
    ensures Extends(d, r.doc)
    ensures r.status.Ok? ==> r.doc.level == d.level
    ensures d.level >= 0 && r.status.Err? ==> r.status.error == TypeError
    decreases o, 2
  {
    if o.Plain? then LineRun(StrOf(o.v), d) else ItemRun(o, d)
  }

  /** The loop over `self.opts`. */
  function OptsRun(opts: seq<Node>, d: Doc): (r: Step)
    ensures Extends(d, r.doc)
    ensures r.status.Ok? ==> r.doc.level == d.level
    ensures d.level >= 0 && r.status.Err? ==> r.status.error == TypeError
    decreases opts, 0
  {
    if |opts| == 0 then Step(d, Done)
    else
      var s := OptRun(opts[0], d);
      if s.status.Err? then s
      else
        var t := OptsRun(opts[1..], s.doc);
        ExtendsTrans(d, s.doc, t.doc);
        t
  }

  /** The loop over `self.kwargs.items()`. */
  function KwargsRun(kwargs: seq<(string, Value)>, rgbt: bool, d: Doc): (r: Step)
    ensures Extends(d, r.doc)
    ensures r.doc.level == d.level
    ensures r.status.Err? ==> r.status.error == TypeError
    decreases kwargs
  {
    if |kwargs| == 0 then Step(d, Done)
    else
      var s := LineRun(KwargLine(kwargs[0].0, kwargs[0].1, rgbt), d);
      if s.status.Err? then s
      else
        var t := KwargsRun(kwargs[1..], rgbt, s.doc);
        ExtendsTrans(d, s.doc, t.doc);
        t
  }

  /** One argument of `File.write`: a str is included, an object with `write` writes itself. */
  function WriteOneRun(x: Node, d: Doc): (r: Step)
    ensures Extends(d, r.doc)
    ensures r.status.Ok? ==> r.doc.level == d.level
    ensures d.level >= 0 && r.status.Err? ==> r.status.error == TypeError || r.status.error == AttributeError
  {
    if x.Plain? then
      if x.v.Text? then Step(IncludeDoc(d, x.v.s), Done)
      else Step(d, Err(AttributeError))
    else ItemRun(x, d)
  }

  /** `File.write(*items)`: the items in order, stopping at the first that raises. */
  function WriteRun(items: seq<Node>, d: Doc): (r: Step)
    ensures Extends(d, r.doc)
    ensures r.status.Ok? ==> r.doc.level == d.level
    ensures d.level >= 0 && r.status.Err? ==> r.status.error == TypeError || r.status.error == AttributeError
    decreases items
  {
    if |items| == 0 then Step(d, Done)
    else
      var s := WriteOneRun(items[0], d);
      if s.status.Err? then s
      else
        var t := WriteRun(items[1..], s.doc);
        ExtendsTrans(d, s.doc, t.doc);
        t
  }

  // ---------------------------------------------------------------------------------------
  // The layout of a written item, stated without the indent counter

  /** One line at indent `l`, or the error that kept it from being made. */
  function LineLayout(s: Result<string>, l: int): Result<seq<string>> {
    match s
    case Ok(line) => Ok([Pad(l) + line])
    case Err(e) => Err(e)
  }

  /** The lines of `a` followed by those of `b`; the first error wins. */
  function Then(a: Result<seq<string>>, b: Result<seq<string>>): Result<seq<string>> {
    if a.Err? then a else if b.Err? then b else Ok(a.value + b.value)
  }

  /** The lines an item writes at indent `l`: its name, `{`, the contents one level deeper, `}`. */
  function Layout(n: Node, l: int): (r: Result<seq<string>>)
    requires !n.Plain?
    ensures r.Err? ==> r.error == TypeError
    decreases n, 1
  {
    var inner :- Then(HeadLayout(n, l + 1), BodyLayout(n, l + 1));
    Ok(Block(l, n.name, inner))
  }

  /** A named block at level l around the lines `inner`, with the blank line of a top-level end. */
  function Block(l: int, name: string, inner: seq<string>): seq<string> {
    [Pad(l) + name, Pad(l) + "{"] + inner + [Pad(l) + "}"] + (if l == 0 then [""] else [])
  }

  function BodyLayout(n: Node, l: int): (r: Result<seq<string>>)
    requires !n.Plain?
    ensures r.Err? ==> r.error == TypeError
    decreases n, 0
  {
    Then(OptsLayout(n.opts, l), KwargsLayout(n.kwargs, n.Item?, l))
  }

  function HeadLayout(n: Node, l: int): (r: Result<seq<string>>)
    requires !n.Plain?
    ensures r.Err? ==> r.error == TypeError
  {
    if n.Item? then
      if |n.args| == 0 then Ok([]) else LineLayout(ArgsLine(n.args), l)
    else
      if n.body == "" then Ok([]) else Ok([Pad(l) + n.body])
  }

  /** The lines one option writes at indent `l`: an item's block, or a plain value's str(). */
  function OptLayout(o: Node, l: int): (r: Result<seq<string>>)
    ensures r.Err? ==> r.error == TypeError
    decreases o, 2
  {
    if o.Plain? then LineLayout(StrOf(o.v), l) else Layout(o, l)
  }

  function OptsLayout(opts: seq<Node>, l: int): (r: Result<seq<string>>)
    ensures r.Err? ==> r.error == TypeError
    decreases opts, 0
  {
    if |opts| == 0 then Ok([])
    else Then(OptLayout(opts[0], l), OptsLayout(opts[1..], l))
  }

  function KwargsLayout(kwargs: seq<(string, Value)>, rgbt: bool, l: int): (r: Result<seq<string>>)
    ensures r.Err? ==> r.error == TypeError
    decreases kwargs
  {
    if |kwargs| == 0 then Ok([])
    else Then(LineLayout(KwargLine(kwargs[0].0, kwargs[0].1, rgbt), l), KwargsLayout(kwargs[1..], rgbt, l))
  }

  /**
   * Running `s` from `d` did what `lay` describes: it failed exactly when the layout does, then
   * with TypeError, and otherwise appended exactly the layout's lines and kept the level.
   */
  predicate Agrees(s: Step, d: Doc, lay: Result<seq<string>>) {
    && (s.status.Ok? <==> lay.Ok?)
    && (s.status.Err? ==> s.status.error == TypeError)
    && (lay.Ok? ==> s.doc == Doc(d.lines + lay.value, d.level))
  }

  /** Two runs in sequence, the second from where the first left off, agree with the joined layouts. */
  lemma AgreesThen(s1: Step, s2: Step, d: Doc, a: Result<seq<string>>, b: Result<seq<string>>)
    requires Agrees(s1, d, a)
    requires a.Ok? ==> Agrees(s2, s1.doc, b)
    ensures Agrees(if s1.status.Err? then s1 else s2, d, Then(a, b))
  {
    if a.Ok? && b.Ok? {
      assert d.lines + a.value + b.value == d.lines + (a.value + b.value);
    }
  }

  lemma LineRunLayout(s: Result<string>, d: Doc)
    requires s.Err? ==> s.error == TypeError
    ensures Agrees(LineRun(s, d), d, LineLayout(s, d.level))
  {
  }

  /** Writing an item from a non-negative level appends exactly its layout and restores the level;
   *  it raises exactly when some str() raises, and then with TypeError, never AssertionError. */
  lemma {:induction false} RunLayout(n: Node, d: Doc)
    requires !n.Plain? && d.level >= 0
    ensures ItemRun(n, d).status.Ok? <==> Layout(n, d.level).Ok?
    ensures ItemRun(n, d).status.Err? ==> ItemRun(n, d).status.error == TypeError
    ensures Layout(n, d.level).Ok? ==>
      ItemRun(n, d).doc == Doc(d.lines + Layout(n, d.level).value, d.level)
    decreases n, 2
  {
    var l := d.level;
    var d1 := BlockBeginDoc(WritelnDoc(d, n.name));
    var s2 := HeadRun(n, d1);
    var h := HeadLayout(n, l + 1);
    HeadRunLayout(n, d1);
    if h.Ok? {
      BodyRunLayout(n, s2.doc);
    }
    AgreesThen(s2, BodyRun(n, s2.doc), d1, h, BodyLayout(n, l + 1));
    var inner := Then(h, BodyLayout(n, l + 1));
    if inner.Ok? {
      NamedBlock(d, n.name, inner.value);
    }
  }

  lemma HeadRunLayout(n: Node, d: Doc)
    requires !n.Plain?
    ensures Agrees(HeadRun(n, d), d, HeadLayout(n, d.level))
  {
  }

  lemma {:induction false} BodyRunLayout(n: Node, d: Doc)
    requires !n.Plain? && d.level >= 1
    ensures Agrees(BodyRun(n, d), d, BodyLayout(n, d.level))
    decreases n, 1
  {
    var s := OptsRun(n.opts, d);
    OptsRunLayout(n.opts, d);
    KwargsRunLayout(n.kwargs, n.Item?, s.doc);
    AgreesThen(s, KwargsRun(n.kwargs, n.Item?, s.doc), d, OptsLayout(n.opts, d.level), KwargsLayout(n.kwargs, n.Item?, d.level));
  }

  lemma {:induction false} OptsRunLayout(opts: seq<Node>, d: Doc)
    requires d.level >= 1
    ensures Agrees(OptsRun(opts, d), d, OptsLayout(opts, d.level))
    decreases opts, 0
  {
    if |opts| > 0 {
      var s := OptRun(opts[0], d);
      OptRunLayout(opts[0], d);
      if s.status.Ok? {
        OptsRunLayout(opts[1..], s.doc);
      }
      AgreesThen(s, OptsRun(opts[1..], s.doc), d, OptLayout(opts[0], d.level), OptsLayout(opts[1..], d.level));
    }
  }

  /** Writing one option appends exactly its lines, or fails with TypeError. */
  lemma {:induction false} OptRunLayout(o: Node, d: Doc)
    requires d.level >= 1
    ensures Agrees(OptRun(o, d), d, OptLayout(o, d.level))
    decreases o, 3
  {
    if o.Plain? {
      LineRunLayout(StrOf(o.v), d);
    } else {
      RunLayout(o, d);
    }
  }

  lemma {:induction false} KwargsRunLayout(kwargs: seq<(string, Value)>, rgbt: bool, d: Doc)
    ensures Agrees(KwargsRun(kwargs, rgbt, d), d, KwargsLayout(kwargs, rgbt, d.level))
    decreases kwargs
  {
    if |kwargs| > 0 {
      var line := KwargLine(kwargs[0].0, kwargs[0].1, rgbt);
      var s := LineRun(line, d);
      LineRunLayout(line, d);
      if s.status.Ok? {
        KwargsRunLayout(kwargs[1..], rgbt, s.doc);
      }
      AgreesThen(s, KwargsRun(kwargs[1..], rgbt, s.doc), d, LineLayout(line, d.level), KwargsLayout(kwargs[1..], rgbt, d.level));
    }
  }

  // ---------------------------------------------------------------------------------------
  // The layout of `File.write`

  /** The lines one argument of `File.write` appends at indent `l`. */
  function WriteOneLayout(x: Node, l: int): (r: Result<seq<string>>)
    ensures r.Err? ==> r.error == TypeError || r.error == AttributeError
  {
    if !x.Plain? then Layout(x, l)
    else if x.v.Text? then Ok([Pad(l) + IncludeLine(x.v.s), Pad(l)])
    else Err(AttributeError)
  }

  /** The lines `File.write(*items)` appends at indent `l`: an `#include` line and a blank line
   *  for each str, the block of each item, in the order given; any other value has no `write`. */
  function WriteLayout(items: seq<Node>, l: int): (r: Result<seq<string>>)
    ensures r.Err? ==> r.error == TypeError || r.error == AttributeError
    decreases items
  {
    if |items| == 0 then Ok([])
    else Then(WriteOneLayout(items[0], l), WriteLayout(items[1..], l))
  }

  /** Running `s` from `d` did what `lay` describes, failing with the layout's own error. */
  predicate WritesAs(s: Step, d: Doc, lay: Result<seq<string>>) {
    && (s.status.Ok? <==> lay.Ok?)
    && (s.status.Err? && lay.Err? ==> s.status.error == lay.error)
    && (lay.Ok? ==> s.doc == Doc(d.lines + lay.value, d.level))
  }

  lemma WriteOneRunLayout(x: Node, d: Doc)
    requires d.level >= 0
    ensures WritesAs(WriteOneRun(x, d), d, WriteOneLayout(x, d.level))
  {
    if !x.Plain? {
      RunLayout(x, d);
    } else if x.v.Text? {
      var l := d.level;
      assert Pad(l) + "" == Pad(l);
      assert d.lines + [Pad(l) + IncludeLine(x.v.s)] + [Pad(l)] == d.lines + [Pad(l) + IncludeLine(x.v.s), Pad(l)];
    }
  }

  /** Two runs in sequence, the second from where the first left off, write the joined layouts. */
  lemma WritesThen(s1: Step, s2: Step, d: Doc, a: Result<seq<string>>, b: Result<seq<string>>)
    requires WritesAs(s1, d, a)
    requires a.Ok? ==> WritesAs(s2, s1.doc, b)
    ensures WritesAs(if s1.status.Err? then s1 else s2, d, Then(a, b))
  {
    if a.Ok? && b.Ok? {
      assert d.lines + a.value + b.value == d.lines + (a.value + b.value);
    }
  }

  /** `File.write` from a non-negative level appends exactly the lines of its arguments, in
   *  order, and keeps the level; it raises exactly when one argument cannot be written, then
   *  with that argument's error. */
  lemma {:induction false} WriteRunLayout(items: seq<Node>, d: Doc)
    requires d.level >= 0
    ensures WritesAs(WriteRun(items, d), d, WriteLayout(items, d.level))
    decreases items
  {
    if |items| > 0 {
      var s := WriteOneRun(items[0], d);
      WriteOneRunLayout(items[0], d);
      if s.status.Ok? {
        WriteRunLayout(items[1..], s.doc);
      }
      WritesThen(s, WriteRun(items[1..], s.doc), d, WriteOneLayout(items[0], d.level), WriteLayout(items[1..], d.level));
    }
  }

  // ---------------------------------------------------------------------------------------
  // Indentation of the layout

  /** `s` starts with the indentation of level `l`. */
  predicate Padded(s: string, l: nat) {
    |s| >= 2 * l && forall i | 0 <= i < 2 * l :: s[i] == ' '
  }

  predicate AllPadded(ls: seq<string>, l: nat) {
    forall k | 0 <= k < |ls| :: Padded(ls[k], l)
  }

  lemma PadPadded(l: nat, s: string)
    ensures Padded(Pad(l) + s, l)
  {
    var p := Pad(l) + s;
    assert forall i | 0 <= i < 2 * l :: p[i] == Pad(l)[i];
  }

  lemma AllPaddedConcat(a: seq<string>, b: seq<string>, l: nat)
    requires AllPadded(a, l) && AllPadded(b, l)
    ensures AllPadded(a + b, l)
  {
    assert forall k | 0 <= k < |a + b| :: (a + b)[k] == if k < |a| then a[k] else b[k - |a|];
  }

  lemma AllPaddedWeaken(ls: seq<string>, l: nat)
    requires AllPadded(ls, l + 1)
    ensures AllPadded(ls, l)
  {
  }

  /**
   * Inside an item's braces every line is one level deeper than the braces: the layout at
   * level l is the name line, `{`, lines indented by at least l + 1, and `}`, and a blank line
   * follows only at the top level.
   */
  lemma {:induction false} LayoutShape(n: Node, l: nat)
    requires !n.Plain? && Layout(n, l).Ok?
    ensures var ls := Layout(n, l).value;
      var c := if l == 0 then |ls| - 2 else |ls| - 1;
      && 2 <= c < |ls|
      && ls[0] == Pad(l) + n.name && ls[1] == Pad(l) + "{" && ls[c] == Pad(l) + "}"
      && (forall k | 2 <= k < c :: Padded(ls[k], l + 1))
      && (l == 0 ==> ls[|ls| - 1] == "")
    decreases n, 1
  {
    var head := HeadLayout(n, l + 1).value;
    var opts := OptsLayout(n.opts, l + 1).value;
    var kws := KwargsLayout(n.kwargs, n.Item?, l + 1).value;
    assert BodyLayout(n, l + 1) == Ok(opts + kws);
    var inner := head + (opts + kws);
    var ls := Layout(n, l).value;
    assert ls == Block(l, n.name, inner);
    InnerPadded(n, l);
    forall k | 2 <= k < 2 + |inner| ensures Padded(ls[k], l + 1) {
      assert ls[k] == inner[k - 2];
    }
  }

  /** The lines between an item's braces are all indented by at least l + 1. */
  lemma {:induction false} InnerPadded(n: Node, l: nat)
    requires !n.Plain?
    requires HeadLayout(n, l + 1).Ok? && OptsLayout(n.opts, l + 1).Ok? && KwargsLayout(n.kwargs, n.Item?, l + 1).Ok?
    ensures AllPadded(HeadLayout(n, l + 1).value + (OptsLayout(n.opts, l + 1).value + KwargsLayout(n.kwargs, n.Item?, l + 1).value), l + 1)
    decreases n, 0
  {
    var head := HeadLayout(n, l + 1).value;
    var opts := OptsLayout(n.opts, l + 1).value;
    var kws := KwargsLayout(n.kwargs, n.Item?, l + 1).value;
    assert AllPadded(head, l + 1) by {
      if |head| == 1 {
        var s := if n.Item? then ArgsLine(n.args).value else n.body;
        assert head == [Pad(l + 1) + s];
        PadPadded(l + 1, s);
      }
    }
    OptsPadded(n.opts, l + 1);
    KwargsPadded(n.kwargs, n.Item?, l + 1);
    AllPaddedConcat(opts, kws, l + 1);
    AllPaddedConcat(head, opts + kws, l + 1);
  }

  /** Every line of an item written at level l >= 1 is indented by at least l. */
  lemma {:induction false} LayoutPadded(n: Node, l: nat)
    requires !n.Plain? && l >= 1 && Layout(n, l).Ok?
    ensures AllPadded(Layout(n, l).value, l)
    decreases n, 2
  {
    LayoutShape(n, l);
    var ls := Layout(n, l).value;
    PadPadded(l, n.name);
    PadPadded(l, "{");
    PadPadded(l, "}");
    forall k | 0 <= k < |ls| ensures Padded(ls[k], l) {
      if 2 <= k < |ls| - 1 {
        assert Padded(ls[k], l + 1);
      }
    }
  }

  lemma {:induction false} OptsPadded(opts: seq<Node>, l: nat)
    requires l >= 1 && OptsLayout(opts, l).Ok?
    ensures AllPadded(OptsLayout(opts, l).value, l)
    decreases opts, 2
  {
    if |opts| > 0 {
      var first := OptLayout(opts[0], l).value;
      if opts[0].Plain? {
        PadPadded(l, StrOf(opts[0].v).value);
      } else {
        LayoutPadded(opts[0], l);
      }
      OptsPadded(opts[1..], l);
      assert OptsLayout(opts, l).value == first + OptsLayout(opts[1..], l).value;
      AllPaddedConcat(first, OptsLayout(opts[1..], l).value, l);
    }
  }

  lemma {:induction false} KwargsPadded(kwargs: seq<(string, Value)>, rgbt: bool, l: nat)
    requires KwargsLayout(kwargs, rgbt, l).Ok?
    ensures AllPadded(KwargsLayout(kwargs, rgbt, l).value, l)
    decreases kwargs
  {
    if |kwargs| > 0 {
      var s := KwargLine(kwargs[0].0, kwargs[0].1, rgbt).value;
      PadPadded(l, s);
      KwargsPadded(kwargs[1..], rgbt, l);
      AllPaddedConcat([Pad(l) + s], KwargsLayout(kwargs[1..], rgbt, l).value, l);
    }
  }

  /** The keyword section is one line per keyword, in dict order, each one level deeper. */
  lemma {:induction false} KwargsLines(kwargs: seq<(string, Value)>, rgbt: bool, l: int)
    ensures KwargsLayout(kwargs, rgbt, l).Ok? <==> forall i | 0 <= i < |kwargs| :: KwargLine(kwargs[i].0, kwargs[i].1, rgbt).Ok?
    ensures KwargsLayout(kwargs, rgbt, l).Ok? ==>
      var ls := KwargsLayout(kwargs, rgbt, l).value;
      && |ls| == |kwargs|
      && forall i | 0 <= i < |kwargs| :: ls[i] == Pad(l) + KwargLine(kwargs[i].0, kwargs[i].1, rgbt).value
    decreases kwargs
  {
    if |kwargs| > 0 {
      KwargsLines(kwargs[1..], rgbt, l);
      assert forall i | 1 <= i < |kwargs| :: kwargs[i] == kwargs[1..][i - 1];
    }
  }
}
