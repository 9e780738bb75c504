/**
  The dotted-path lens of `useAutosaveDocument`: `getPath`, `setPath`, and the two settings
  operations built on it. Documents are record trees; arrays are left out.
 */
module AutosavePaths {
  import opened Common
  import opened Text

  /** A JavaScript value; a record keeps its fields in insertion order. */
  datatype Value = Undefined | Null | Atom(text: string) | Record(fields: Fields)
  datatype Fields = Nil | Cons(name: string, value: Value, rest: Fields)

  type Path = seq<string>

  // ---------------------------------------------------------------- property access

  function Field(fs: Fields, name: string): Value {
    match fs
    case Nil => Undefined
    case Cons(n, v, rest) => if n == name then v else Field(rest, name)
  }

  /** Assignment: an existing property keeps its place, a new one goes last. */
  function Assign(fs: Fields, name: string, v: Value): Fields {
    match fs
    case Nil => Cons(name, v, Nil)
    case Cons(n, previous, rest) => if n == name then Cons(n, v, rest) else Cons(n, previous, Assign(rest, name, v))
  }

  predicate HasField(fs: Fields, name: string) {
    match fs
    case Nil => false
    case Cons(n, _, rest) => n == name || HasField(rest, name)
  }

  lemma {:induction false} FieldAssign(fs: Fields, name: string, v: Value, other: string)
    ensures Field(Assign(fs, name, v), other) == if other == name then v else Field(fs, other)
  {
    match fs
    case Nil =>
    case Cons(n, _, rest) => FieldAssign(rest, name, v, other);
  }

  lemma {:induction false} AssignTwice(fs: Fields, name: string, v: Value, w: Value)
    ensures Assign(Assign(fs, name, v), name, w) == Assign(fs, name, w)
  {
    match fs
    case Nil =>
    case Cons(n, _, rest) => AssignTwice(rest, name, v, w);
  }

  lemma {:induction false} AssignSame(fs: Fields, name: string)
    ensures Assign(fs, name, Field(fs, name)) == fs <==> HasField(fs, name)
  {
    match fs
    case Nil =>
    case Cons(n, _, rest) => AssignSame(rest, name);
  }

  // ---------------------------------------------------------------- get and set along a path

  /** `getPath` on the split path: any missing or non-object segment gives `undefined`. */
  function Get(v: Value, path: Path): Value
    decreases |path|
  {
    if path == [] then v
    else if v.Record? then Get(Field(v.fields, path[0]), path[1..])
    else Undefined
  }

  /** `cloneLevel` of a value met on the way down: what is not an object is replaced by an empty one. */
  function LevelOf(v: Value): Fields {
    if v.Record? then v.fields else Nil
  }

  /** `setPath` on the split path. */
  function Set(level: Fields, path: Path, v: Value): Fields
    requires path != []
    decreases |path|
  {
    if |path| == 1 then Assign(level, path[0], v)
    else Assign(level, path[0], Record(Set(LevelOf(Field(level, path[0])), path[1..], v)))
  }

  predicate Prefix(p: Path, q: Path) {
    |p| <= |q| && p == q[..|p|]
  }

  /** Neither path leads to or through the other. */
  predicate Unrelated(p: Path, q: Path) {
    !Prefix(p, q) && !Prefix(q, p)
  }

  /** Reading at or below the path that was set reads the value set. */
  lemma {:induction false} GetAfterSet(level: Fields, path: Path, v: Value, below: Path)
    requires path != []
    ensures Get(Record(Set(level, path, v)), path + below) == Get(v, below)
    decreases |path|
  {
    var full := path + below;
    assert full[0] == path[0] && full[1..] == path[1..] + below;
    if |path| == 1 {
      FieldAssign(level, path[0], v, path[0]);
      assert full[1..] == below;
    } else {
      var inner := Set(LevelOf(Field(level, path[0])), path[1..], v);
      FieldAssign(level, path[0], Record(inner), path[0]);
      GetAfterSet(LevelOf(Field(level, path[0])), path[1..], v, below);
    }
  }

  lemma PrefixOfTails(p: Path, q: Path)
    requires p != [] && q != [] && p[0] == q[0]
    ensures Prefix(p[1..], q[1..]) ==> Prefix(p, q)
  {
    if |p| <= |q| {
      assert p == [p[0]] + p[1..];
      assert q[..|p|] == [q[0]] + q[1..][..|p| - 1];
    }
  }

  /** Every path that is neither a prefix nor an extension reads as before. */
  lemma {:induction false} GetUnrelated(level: Fields, path: Path, v: Value, other: Path)
    requires path != [] && Unrelated(path, other)
    ensures Get(Record(Set(level, path, v)), other) == Get(Record(level), other)
    decreases |path|
  {
    assert other != [];
    if path[0] != other[0] {
      var w := if |path| == 1 then v else Record(Set(LevelOf(Field(level, path[0])), path[1..], v));
      FieldAssign(level, path[0], w, other[0]);
    } else {
      PrefixOfTails(path, other);
      PrefixOfTails(other, path);
      var inner := LevelOf(Field(level, path[0]));
      FieldAssign(level, path[0], Record(Set(inner, path[1..], v)), other[0]);
      GetUnrelated(inner, path[1..], v, other[1..]);
    }
  }

  /** The last value set at a path wins. */
  lemma {:induction false} SetTwice(level: Fields, path: Path, v: Value, w: Value)
    requires path != []
    ensures Set(Set(level, path, v), path, w) == Set(level, path, w)
    decreases |path|
  {
    if |path| == 1 {
      AssignTwice(level, path[0], v, w);
    } else {
      var inner := LevelOf(Field(level, path[0]));
      FieldAssign(level, path[0], Record(Set(inner, path[1..], v)), path[0]);
      SetTwice(inner, path[1..], v, w);
      AssignTwice(level, path[0], Record(Set(inner, path[1..], v)), Record(Set(inner, path[1..], w)));
    }
  }

  /** Every segment of the path is a property that exists. */
  predicate Present(level: Fields, path: Path)
    decreases |path|
  {
    path != [] && HasField(level, path[0])
    && (|path| == 1 || (Field(level, path[0]).Record? && Present(Field(level, path[0]).fields, path[1..])))
  }

  /** Writing back what a path reads changes nothing exactly when the path exists. */
  lemma {:induction false} SetBack(level: Fields, path: Path)
    requires path != []
    ensures Set(level, path, Get(Record(level), path)) == level <==> Present(level, path)
    decreases |path|
  {
    var f := Field(level, path[0]);
    AssignSame(level, path[0]);
    if |path| > 1 {
      var w := Get(f, path[1..]);
      var inner := Set(LevelOf(f), path[1..], w);
      FieldAssign(level, path[0], Record(inner), path[0]);
      if f.Record? {
        SetBack(f.fields, path[1..]);
      }
    } else {
      assert path[1..] == [];
    }
  }

  // ---------------------------------------------------------------- the settings operations

  function GetPath(doc: Value, path: string): Value {
    Get(doc, Split(path, '.'))
  }

  /** The document itself is an object, so its root level is cloned as it is. */
  function SetPath(doc: Value, path: string, v: Value): Value
    requires doc.Record?
  {
    Record(Set(doc.fields, Split(path, '.'), v))
  }

  /** What `JSON.stringify` writes: properties holding `undefined` are dropped, everything else in order. */
  function Stringified(v: Value): Value {
    match v
    case Record(fs) => Record(StringifiedFields(fs))
    case _ => v
  }

  function StringifiedFields(fs: Fields): Fields {
    match fs
    case Nil => Nil
    case Cons(n, v, rest) =>
      if v.Undefined? then StringifiedFields(rest) else Cons(n, Stringified(v), StringifiedFields(rest))
  }

  /** False until both the document and the defaults are there. */
  predicate IsDefault(doc: Option<Value>, defaults: Option<Value>, path: string) {
    doc.Some? && defaults.Some? && Stringified(GetPath(doc.value, path)) == Stringified(GetPath(defaults.value, path))
  }

  /** `resetField` as the patch it makes; without defaults it does nothing. */
  function ResetField(doc: Value, defaults: Option<Value>, path: string): Value
    requires doc.Record?
  {
    if defaults.Some? then SetPath(doc, path, GetPath(defaults.value, path)) else doc
  }

  /** Resetting a field makes it default and leaves every unrelated field as default or as changed as it was. */
  lemma ResetFieldIsExact(doc: Value, defaults: Value, path: string, other: string)
    requires doc.Record?
    ensures var doc' := ResetField(doc, Some(defaults), path);
      && IsDefault(Some(doc'), Some(defaults), path)
      && GetPath(doc', path) == GetPath(defaults, path)
      && (Unrelated(Split(path, '.'), Split(other, '.')) ==>
            && GetPath(doc', other) == GetPath(doc, other)
            && (IsDefault(Some(doc'), Some(defaults), other) <==> IsDefault(Some(doc), Some(defaults), other)))
  {
    var p := Split(path, '.');
    var q := Split(other, '.');
    var v := GetPath(defaults, path);
    GetAfterSet(doc.fields, p, v, []);
    assert p + [] == p;
    if Unrelated(p, q) {
      GetUnrelated(doc.fields, p, v, q);
    }
  }

  /** Dotted names without dots of their own are the segments read back. */
  lemma DottedPathReads(doc: Value, names: seq<string>)
    requires names != [] && forall i :: 0 <= i < |names| ==> '.' !in names[i]
    ensures GetPath(doc, Join(names, '.')) == Get(doc, names)
  {
    SplitUndoesJoin(names, '.');
  }

  // ---------------------------------------------------------------- the loop of `setPath`

  /** Rebuild the tree around the level in hand: `path[i]` was followed from `levels[i]`. */
  function Plug(levels: seq<Fields>, path: Path, inner: Fields): Fields
    requires |levels| <= |path|
    decreases |levels|
  {
    if levels == [] then inner
    else
      var last := |levels| - 1;
      Plug(levels[..last], path, Assign(levels[last], path[last], Record(inner)))
  }

  lemma {:induction false} PlugSet(levels: seq<Fields>, path: Path, level: Fields, v: Value, k: nat)
    requires |levels| == k < |path| - 1
    ensures Plug(levels, path, Set(level, path[k..], v))
         == Plug(levels + [level], path, Set(LevelOf(Field(level, path[k])), path[k + 1..], v))
  {
    var tail := path[k..];
    assert tail[1..] == path[k + 1..] && tail[0] == path[k];
    assert (levels + [level])[..k] == levels;
  }

  /** The code's walk: clone a level, step into the next one, assign at the last segment. */
  method SetByWalking(doc: Value, path: string, v: Value) returns (root: Value)
    requires doc.Record?
    ensures root == SetPath(doc, path, v)
  {
    var segments := Split(path, '.');
    var cursor := doc.fields;
    var levels: seq<Fields> := [];
    assert segments[0..] == segments;
    for i := 0 to |segments| - 1
      invariant |levels| == i
      invariant Plug(levels, segments, Set(cursor, segments[i..], v)) == Set(doc.fields, segments, v)
    {
      PlugSet(levels, segments, cursor, v, i);
      var next := Field(cursor, segments[i]);
      levels := levels + [cursor];
      cursor := if next.Record? then next.fields else Nil;
    }
    assert segments[|segments| - 1..] == [segments[|segments| - 1]];
    cursor := Assign(cursor, segments[|segments| - 1], v);
    assert levels[..|levels|] == levels;
    var i := |levels|;
    while i > 0
      invariant 0 <= i <= |levels| == |segments| - 1
      invariant Plug(levels[..i], segments, cursor) == Set(doc.fields, segments, v)
    {
      i := i - 1;
      assert levels[..i + 1][..i] == levels[..i];
      cursor := Assign(levels[i], segments[i], Record(cursor));
    }
    root := Record(cursor);
  }

  /** `getPath`'s reduce over the segments. */
  method GetByFolding(doc: Value, path: string) returns (acc: Value)
    ensures acc == GetPath(doc, path)
  {
    var segments := Split(path, '.');
    acc := doc;
    for i := 0 to |segments|
      invariant Get(acc, segments[i..]) == GetPath(doc, path)
    {
      assert segments[i..][1..] == segments[i + 1..];
      UndefinedReadsUndefined(segments[i + 1..]);
      acc := if acc.Record? then Field(acc.fields, segments[i]) else Undefined;
    }
  }

  lemma UndefinedReadsUndefined(path: Path)
    ensures Get(Undefined, path) == Undefined
  {
  }
}
