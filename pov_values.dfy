/**
 * The Python values a POV-Ray scene item is built from (dgutils/pypov.py), and the text
 * `str()` gives them: numbers and other plain objects, strings, tuples, lists and
 * `Vector`s.  A `Vector` prints as `<` + its elements joined by `, ` + `>`.
 */
module PovValues {
  import opened PyBase

  /** A value handed to a scene item as an argument, an option or a keyword value. */
  datatype Value =
    | Atom(text: string)         // a number, bool or None, by its str() text; not iterable
    | Text(s: string)            // a str; iterating it yields its characters
    | Tuple(elems: seq<Value>)
    | List(elems: seq<Value>)
    | Vec(v: Value)              // a Vector instance; `v` is its field `self.v`

  /** Python's `sep.join(parts)`. */
  function Join(sep: string, parts: seq<string>): string {
    if |parts| == 0 then ""
    else if |parts| == 1 then parts[0]
    else parts[0] + sep + Join(sep, parts[1..])
  }

  /** Python's `s.split(", ")`: the pieces between the separators, scanned left to right. */
  function Fields(s: string): (r: seq<string>)
    ensures |r| >= 1
  {
    if |s| == 0 then [""]
    else if |s| >= 2 && s[..2] == ", " then [""] + Fields(s[2..])
    else
      var rest := Fields(s[1..]);
      [[s[0]] + rest[0]] + rest[1..]
  }

  predicate NoComma(s: string) {
    forall i | 0 <= i < |s| :: s[i] != ','
  }

  lemma {:induction false} FieldsNoComma(p: string)
    requires NoComma(p)
    ensures Fields(p) == [p]
  {
    if |p| > 0 {
      FieldsNoComma(p[1..]);
      assert [p[0]] + p[1..] == p;
    }
  }

  lemma {:induction false} FieldsCons(p: string, rest: string)
    requires NoComma(p)
    ensures Fields(p + ", " + rest) == [p] + Fields(rest)
  {
    var s := p + ", " + rest;
    if |p| == 0 {
      assert s[..2] == ", " && s[2..] == rest;
    } else {
      assert s[0] == p[0] != ',';
      assert s[1..] == p[1..] + ", " + rest;
      FieldsCons(p[1..], rest);
      assert [p[0]] + p[1..] == p;
    }
  }

  /** Joining comma-free pieces with `, ` and splitting at `, ` gives the pieces back. */
  lemma {:induction false} JoinFields(parts: seq<string>)
    requires |parts| >= 1
    requires forall k | 0 <= k < |parts| :: NoComma(parts[k])
    ensures Fields(Join(", ", parts)) == parts
  {
    if |parts| == 1 {
      FieldsNoComma(parts[0]);
    } else {
      JoinFields(parts[1..]);
      FieldsCons(parts[0], Join(", ", parts[1..]));
      assert [parts[0]] + parts[1..] == parts;
    }
  }

  /** The one-character strings of `s`, as iterating a str yields them. */
  function Chars(s: string): (r: seq<string>)
    ensures |r| == |s| && forall i | 0 <= i < |s| :: r[i] == [s[i]]
  {
    seq(|s|, i requires 0 <= i < |s| => [s[i]])
  }

  /** `iter(v)`: the elements of a str, tuple or list; anything else is not iterable. */
  function Iterate(v: Value): (r: Result<seq<Value>>)
    ensures r.Err? <==> v.Atom? || v.Vec?
    ensures r.Err? ==> r.error == TypeError
    ensures (v.Tuple? || v.List?) ==> r == Ok(v.elems)
    ensures v.Text? ==> r.Ok? && |r.value| == |v.s| && forall i | 0 <= i < |v.s| :: r.value[i] == Text([v.s[i]])
  {
    match v
    case Text(s) => Ok(seq(|s|, i requires 0 <= i < |s| => Text([s[i]])))
    case Tuple(es) => Ok(es)
    case List(es) => Ok(es)
    case _ => Err(TypeError)
  }

  /** `str(x)`. A tuple or list shows its elements' repr(); a Vector goes through Vector.__str__. */
  function StrOf(x: Value): (r: Result<string>)
    ensures r.Err? ==> r.error == TypeError
    ensures x.Atom? ==> r == Ok(x.text)
    ensures x.Text? ==> r == Ok(x.s)
    decreases x
  {
    match x
    case Atom(t) => Ok(t)
    case Text(s) => Ok(s)
    case Tuple(es) => var inner :- ReprAll(es); Ok(Bracket("(", inner, if |es| == 1 then ",)" else ")"))
    case List(es) => var inner :- ReprAll(es); Ok(Bracket("[", inner, "]"))
    case Vec(v) => VectorStr(v)
  }

  /** The str() of a tuple or list: the elements' repr() joined by `, ` between brackets. */
  function Bracket(open: string, inner: seq<string>, close: string): string {
    open + Join(", ", inner) + close
  }

  /** `repr(x)`.  Numbers and strings always have one; a Vector's is `Vector(...)`, and a Vector
   *  around a tuple of any length but 1 has none, because `%` takes the tuple as its arguments. */
  function Repr(x: Value): (r: Result<string>)
    ensures r.Err? ==> r.error == TypeError
    ensures x.Atom? || x.Text? ==> r.Ok?
    ensures x.Text? ==> |r.value| == |x.s| + 2 && r.value[0] == '\'' == r.value[|r.value| - 1]
    ensures x.Vec? && x.v.Tuple? && |x.v.elems| != 1 ==> r == Err(TypeError)
    ensures x.Vec? && r.Ok? ==> |r.value| >= 8 && r.value[..7] == "Vector(" && r.value[|r.value| - 1] == ')'
    decreases x
  {
    match x
    case Atom(t) => Ok(t)
    case Text(s) => Ok("'" + s + "'")
    case Tuple(es) => var inner :- ReprAll(es); Ok(Bracket("(", inner, if |es| == 1 then ",)" else ")"))
    case List(es) => var inner :- ReprAll(es); Ok(Bracket("[", inner, "]"))
    case Vec(v) =>
      // Vector.__repr__ is "Vector(%s)" % self.v: a tuple is taken as the format arguments
      if v.Tuple? then
        if |v.elems| == 1 then
          var s :- StrOf(v.elems[0]);
          Ok("Vector(" + s + ")")
        else Err(TypeError)
      else
        var s :- StrOf(v);
        Ok("Vector(" + s + ")")
  }

  function ReprAll(es: seq<Value>): (r: Result<seq<string>>)
    ensures r.Err? ==> r.error == TypeError
    ensures r.Ok? ==> |r.value| == |es|
    decreases es
  {
    if |es| == 0 then Ok([])
    else
      var first :- Repr(es[0]);
      var rest :- ReprAll(es[1..]);
      Ok([first] + rest)
  }

  /** `[str(x) for x in es]`: every element's str(), or the first element's error. */
  function StrAll(es: seq<Value>): (r: Result<seq<string>>)
    ensures r.Err? ==> r.error == TypeError
    ensures r.Ok? <==> forall k | 0 <= k < |es| :: StrOf(es[k]).Ok?
    ensures r.Ok? ==> |r.value| == |es| && forall k | 0 <= k < |es| :: r.value[k] == StrOf(es[k]).value
    decreases es
  {
    if |es| == 0 then Ok([])
    else
      var first :- StrOf(es[0]);
      var rest :- StrAll(es[1..]);
      assert forall k | 1 <= k < |es| :: es[k] == es[1..][k - 1];
      Ok([first] + rest)
  }

  /** Vector.__str__ for a Vector holding `v`: `<` + the elements' str() joined by `, ` + `>`. */
  function VectorStr(v: Value): (r: Result<string>)
    ensures r.Err? ==> r.error == TypeError
    ensures r.Ok? <==> Iterate(v).Ok? && (v.Text? || StrAll(v.elems).Ok?)
    ensures r.Ok? ==> |r.value| >= 2 && r.value[0] == '<' && r.value[|r.value| - 1] == '>'
    decreases v
  {
    match v
    case Text(s) => Ok("<" + Join(", ", Chars(s)) + ">")
    case Tuple(es) =>
      var strs :- StrAll(es);
      Ok("<" + Join(", ", strs) + ">")
    case List(es) =>
      var strs :- StrAll(es);
      Ok("<" + Join(", ", strs) + ">")
    case _ => Err(TypeError)
  }

  /**
   * The text between the angle brackets of a Vector's str() splits at `, ` back into the
   * elements' str(), as long as none of them holds a comma.
   */
  lemma VectorStrFields(v: Value)
    requires v.Tuple? || v.List?
    requires |v.elems| >= 1
    requires forall k | 0 <= k < |v.elems| :: StrOf(v.elems[k]).Ok? && NoComma(StrOf(v.elems[k]).value)
    ensures VectorStr(v).Ok?
    ensures var r := VectorStr(v).value; Fields(r[1..|r| - 1]) == StrAll(v.elems).value
  {
    var strs := StrAll(v.elems).value;
    var r := VectorStr(v).value;
    assert r == "<" + Join(", ", strs) + ">";
    assert r[1..|r| - 1] == Join(", ", strs);
    JoinFields(strs);
  }

  /** `Vector(*args)`: one argument is kept as the vector's contents, several are kept as a tuple. */
  function VectorOf(args: seq<Value>): (r: Value)
    ensures r.Vec?
    ensures |args| == 1 ==> r.v == args[0]
    ensures |args| != 1 ==> r.v == Tuple(args)
  {
    if |args| == 1 then Vec(args[0]) else Vec(Tuple(args))
  }

  /** A Vector made from a tuple or list of comma-free items prints them back in order. */
  lemma VectorOfFields(args: seq<Value>)
    requires |args| >= 2
    requires forall k | 0 <= k < |args| :: StrOf(args[k]).Ok? && NoComma(StrOf(args[k]).value)
    ensures StrOf(VectorOf(args)).Ok?
    ensures var r := StrOf(VectorOf(args)).value; Fields(r[1..|r| - 1]) == StrAll(args).value
  {
    VectorStrFields(Tuple(args));
  }
}
