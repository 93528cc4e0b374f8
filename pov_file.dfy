/**
 * The stateful half of dgutils/pypov.py: a `File` that collects lines at the current indent
 * level, `Item.write` / `FunctionItem.write` writing an item tree into it, and the
 * attribute assignment of a scene item object that records keyword settings.
 */
module PovFile {
  import opened PyBase
  import opened OrderedDicts
  import opened PovValues
  import opened PovItems

  /** A POV-Ray scene file being written: the lines so far and the indent level. */
  class File {
    var lines: seq<string>
    var level: int

    function State(): Doc
      reads this
    {
      Doc(lines, level)
    }

    /** `File(fnam)` before its items: the version line and the gamma setting, at level 0. */
    constructor ()
      ensures lines == HeaderLines && level == 0
    {
      lines := [];
      level := 0;
      new;
      assert Pad(0) + "#version 3.7;" == "#version 3.7;";
      assert Pad(0) + "global_settings { assumed_gamma 1}" == "global_settings { assumed_gamma 1}";
      Writeln("#version 3.7;");
      Writeln("global_settings { assumed_gamma 1}");
    }

    /** `File(fnam, *items)`: the header, then the items as `write` writes them. */
    static method Open(items: seq<Node>) returns (f: File, r: Result<()>)
      ensures fresh(f)
      ensures Step(f.State(), r) == WriteRun(items, Doc(HeaderLines, 0))
      ensures r.Ok? <==> WriteLayout(items, 0).Ok?
      ensures r.Ok? ==> f.lines == HeaderLines + WriteLayout(items, 0).value && f.level == 0
    {
      f := new File();
      r := f.Write(items);
    }

    /** `writeln(s)`: one line, two spaces per indent level before `s`. */
    method Writeln(s: string)
      modifies this
      ensures lines == old(lines) + [Pad(old(level)) + s]
      ensures level == old(level)
    {
      lines := lines + [Pad(level) + s];
    }

    method Indent()
      modifies this
      ensures lines == old(lines) && level == old(level) + 1
    {
      level := level + 1;
    }

    /** `dedent()`: the level drops, then `assert self.__indent >= 0`. */
    method Dedent() returns (r: Result<()>)
      modifies this
      ensures Step(State(), r) == DedentDoc(old(State()))
    {
      level := level - 1;
      if level < 0 {
        r := Err(AssertionError);
      } else {
        r := Ok(());
      }
    }

    method BlockBegin()
      modifies this
      ensures State() == BlockBeginDoc(old(State()))
    {
      Writeln("{");
      Indent();
    }

    method BlockEnd() returns (r: Result<()>)
      modifies this
      ensures Step(State(), r) == BlockEndDoc(old(State()))
    {
      r := Dedent();
      if r.Err? {
        return;
      }
      Writeln("}");
      if level == 0 {
        Writeln("");
      }
    }

    method Include(name: string)
      modifies this
      ensures State() == IncludeDoc(old(State()), name)
    {
      Writeln(IncludeLine(name));
      Writeln("");
    }

    /** `write(*items)`: a str is included, anything else is asked to write itself. */
    method Write(items: seq<Node>) returns (r: Result<()>)
      modifies this
      ensures Step(State(), r) == WriteRun(items, old(State()))
      ensures old(level) >= 0 ==> (r.Ok? <==> WriteLayout(items, old(level)).Ok?)
      ensures old(level) >= 0 && r.Ok? ==>
        lines == old(lines) + WriteLayout(items, old(level)).value && level == old(level)
      ensures old(level) >= 0 && r.Err? ==> r.error == WriteLayout(items, old(level)).error
    {
      if level >= 0 {
        WriteRunLayout(items, State());
      }
      r := Ok(());
      var i := 0;
      while i < |items|
        invariant 0 <= i <= |items|
        invariant r == Ok(())
        invariant WriteRun(items, old(State())) == WriteRun(items[i..], State())
      {
        var item := items[i];
        assert items[i..][1..] == items[i + 1..];
        if item.Plain? {
          if item.v.Text? {
            Include(item.v.s);
          } else {
            r := Err(AttributeError);
            return;
          }
        } else {
          r := WriteItem(item, this);
          if r.Err? {
            return;
          }
        }
        i := i + 1;
      }
    }
  }

  /** `Item.write(file)` and `FunctionItem.write(file)`. */
  method WriteItem(item: Node, file: File) returns (r: Result<()>)
    requires !item.Plain?
    modifies file
    ensures Step(file.State(), r) == ItemRun(item, old(file.State()))
    decreases item, 1
  {
    file.Writeln(item.name);
    file.BlockBegin();
    r := WriteHead(item, file);
    if r.Err? {
      return;
    }
    r := WriteOpts(item, file);
    if r.Err? {
      return;
    }
    r := WriteKwargs(item, file);
    if r.Err? {
      return;
    }
    r := file.BlockEnd();
  }

  /** The line after `{`: an Item's args joined by `, `, a FunctionItem's args string as it is. */
  method WriteHead(item: Node, file: File) returns (r: Result<()>)
    requires !item.Plain?
    modifies file
    ensures Step(file.State(), r) == HeadRun(item, old(file.State()))
  {
    r := Ok(());
    if item.Item? {
      if |item.args| > 0 {
        var line := ArgsLine(item.args);
        if line.Err? {
          r := Err(line.error);
          return;
        }
        file.Writeln(line.value);
      }
    } else if item.body != "" {
      file.Writeln(item.body);
    }
  }

  /** The loop over `self.opts`. */
  method WriteOpts(item: Node, file: File) returns (r: Result<()>)
    requires !item.Plain?
    modifies file
    ensures Step(file.State(), r) == OptsRun(item.opts, old(file.State()))
    decreases item, 0
  {
    r := Ok(());
    var i := 0;
    while i < |item.opts|
      invariant 0 <= i <= |item.opts|
      invariant r == Ok(())
      invariant OptsRun(item.opts, old(file.State())) == OptsRun(item.opts[i..], file.State())
    {
      var opt := item.opts[i];
      assert item.opts[i..][1..] == item.opts[i + 1..];
      if opt.Plain? {
        var s := StrOf(opt.v);
        if s.Err? {
          r := Err(s.error);
          return;
        }
        file.Writeln(s.value);
      } else {
        r := WriteItem(opt, file);
        if r.Err? {
          return;
        }
      }
      i := i + 1;
    }
  }

  /** The loop over `self.kwargs.items()`; `color rgbt` only for an Item. */
  method WriteKwargs(item: Node, file: File) returns (r: Result<()>)
    requires !item.Plain?
    modifies file
    ensures Step(file.State(), r) == KwargsRun(item.kwargs, item.Item?, old(file.State()))
  {
    r := Ok(());
    var k := 0;
    while k < |item.kwargs|
      invariant 0 <= k <= |item.kwargs|
      invariant r == Ok(())
      invariant KwargsRun(item.kwargs, item.Item?, old(file.State())) == KwargsRun(item.kwargs[k..], item.Item?, file.State())
    {
      var key := item.kwargs[k].0;
      var val := item.kwargs[k].1;
      assert item.kwargs[k..][1..] == item.kwargs[k + 1..];
      var line := KwargLine(key, val, item.Item?);
      if line.Err? {
        r := Err(line.error);
        return;
      }
      file.Writeln(line.value);
      k := k + 1;
    }
  }

  /** The attribute names Item.__setattr__ keeps out of the keyword settings. */
  const Reserved: set<string> := {"kwargs", "args", "opts", "name"}

  /** An Item or FunctionItem instance: its item fields and the other entries of its __dict__. */
  class ItemObject {
    var item: Node
    var attrs: map<string, Value>

    predicate Valid()
      reads this
    {
      !item.Plain? && DistinctKeys(item.kwargs)
    }

    /** The object `Item.__init__` or `FunctionItem.__init__` leaves behind. */
    constructor (item: Node)
      requires !item.Plain? && DistinctKeys(item.kwargs)
      ensures this.item == item && attrs == map[]
      ensures Valid()
    {
      this.item := item;
      attrs := map[];
    }

    /** `obj.name = val` for a name outside Reserved: stored on the object and in `kwargs`. */
    method SetAttr(name: string, val: Value)
      requires Valid() && name !in Reserved
      modifies this
      ensures Valid()
      ensures attrs == old(attrs)[name := val]
      ensures item == old(item).(kwargs := Insert(old(item.kwargs), name, val))
    {
      attrs := attrs[name := val];
      item := item.(kwargs := Insert(item.kwargs, name, val));
    }
  }

  /**
   * After `obj.name = val`, the keyword section Item.write produces shows `name val` where the
   * key already stood (or last, for a new key), and every other keyword line is unchanged.
   */
  lemma SetAttrWritten(kwargs: seq<(string, Value)>, name: string, val: Value, rgbt: bool, l: int)
    requires DistinctKeys(kwargs)
    requires forall i | 0 <= i < |kwargs| :: KwargLine(kwargs[i].0, kwargs[i].1, rgbt).Ok?
    requires KwargLine(name, val, rgbt).Ok?
    ensures KwargsLayout(Insert(kwargs, name, val), rgbt, l).Ok?
    ensures var ls := KwargsLayout(Insert(kwargs, name, val), rgbt, l).value;
      && |ls| == (if name in Keys(kwargs) then |kwargs| else |kwargs| + 1)
      && (forall i | 0 <= i < |kwargs| && kwargs[i].0 == name :: ls[i] == Pad(l) + KwargLine(name, val, rgbt).value)
      && (forall i | 0 <= i < |kwargs| && kwargs[i].0 != name ::
            ls[i] == Pad(l) + KwargLine(kwargs[i].0, kwargs[i].1, rgbt).value)
      && (name !in Keys(kwargs) ==> ls[|kwargs|] == Pad(l) + KwargLine(name, val, rgbt).value)
  {
    var r := Insert(kwargs, name, val);
    assert forall i | 0 <= i < |r| :: KwargLine(r[i].0, r[i].1, rgbt).Ok? by {
      forall i | 0 <= i < |r| ensures KwargLine(r[i].0, r[i].1, rgbt).Ok? {
        if i < |kwargs| && kwargs[i].0 != name {
          assert r[i] == kwargs[i];
        } else {
          assert r[i] == (name, val);
        }
      }
    }
    KwargsLines(r, rgbt, l);
  }
}
