/**
 The edits of `config_edit.rs` on an already parsed file: a tree of JSON values whose top
 is an object.
 */
module ConfigEdit {
  import opened Wrappers

  datatype Json =
    | Null
    | Bool(b: bool)
    | Number(n: int)
    | Text(s: string)
    | Array(items: seq<Json>)
    | Object(fields: Fields)

  type Fields = map<string, Json>

  type Path = seq<string>

  /** What a path names, following object keys only. */
  function At(v: Json, path: Path): Option<Json>
    decreases |path|
  {
    if path == [] then Some(v)
    else if v.Object? && path[0] in v.fields then At(v.fields[path[0]], path[1..])
    else None
  }

  function Read(d: Fields, path: Path): Option<Json> {
    At(Object(d), path)
  }

  predicate Contains(d: Fields, path: Path) {
    Read(d, path).Some?
  }

  /** The child object `object_at` steps into: what is there, or a new one. */
  function Child(d: Fields, key: string): Json {
    if key in d then d[key] else Object(map[])
  }

  /** The document with one key set; `None` when something on the path is no object. */
  function Set(d: Fields, path: Path, key: string, value: Json): Option<Fields>
    decreases |path|
  {
    if path == [] then Some(d[key := value])
    else
      var child := Child(d, path[0]);
      if !child.Object? then None
      else
        var inner := Set(child.fields, path[1..], key, value);
        if inner.None? then None else Some(d[path[0] := Object(inner.value)])
  }

  /** `Ok(None)` when the parent is not there, an error when it is no object. */
  function SetExisting(d: Fields, path: Path, key: string, value: Json): Result<Option<Fields>, string> {
    if !Contains(d, path) then Ok(None)
    else
      var r := Set(d, path, key, value);
      if r.None? then Err("not an object in the configuration") else Ok(r)
  }

  function Remove(d: Fields, path: Path): Fields
    decreases |path|
  {
    if path == [] then d
    else if |path| == 1 then d - {path[0]}
    else if path[0] in d && d[path[0]].Object?
    then d[path[0] := Object(Remove(d[path[0]].fields, path[1..]))]
    else d
  }

  // -- The walks as written --------------------------------------------------

  /** One object stepped through on the way down, and the key stepped into. */
  datatype Frame = Frame(fields: Fields, key: string)

  /** The whole document again, after the object at the end of the walk became `inner`. */
  function Rebuilt(spine: seq<Frame>, inner: Fields): Fields
    decreases |spine|
  {
    if spine == [] then inner
    else
      var last := spine[|spine| - 1];
      Rebuilt(spine[..|spine| - 1], last.fields[last.key := Object(inner)])
  }

  /** The parsed configuration file. A reference into it is kept as the frames above it. */
  class Document {
    var fields: Fields

    constructor (fields: Fields)
      ensures this.fields == fields
    {
      this.fields := fields;
    }

    /** Put `inner` where the walk ended: what writing through the reference does. */
    method WriteThrough(spine: seq<Frame>, inner: Fields)
      modifies this
      ensures fields == Rebuilt(spine, inner)
    {
      var at, i := inner, |spine|;
      assert spine[..|spine|] == spine;
      while i > 0
        invariant 0 <= i <= |spine|
        invariant Rebuilt(spine[..i], at) == Rebuilt(spine, inner)
      {
        assert spine[..i][..i - 1] == spine[..i - 1];
        at := spine[i - 1].fields[spine[i - 1].key := Object(at)];
        i := i - 1;
      }
      fields := at;
    }

    method SetKey(path: Path, key: string, value: Json) returns (ok: bool)
      modifies this
      ensures ok <==> Set(old(fields), path, key, value).Some?
      ensures fields == if ok then Set(old(fields), path, key, value).value else old(fields)
    {
      var current, spine: seq<Frame> := fields, [];
      var i := 0;
      while i < |path|
        invariant 0 <= i <= |path|
        invariant fields == old(fields)
        invariant var inner := Set(current, path[i..], key, value);
                  Set(fields, path, key, value) == if inner.None? then None else Some(Rebuilt(spine, inner.value))
      {
        var entry := Child(current, path[i]);
        if !entry.Object? {
          return false;
        }
        assert path[i..][1..] == path[i + 1..];
        var longer := spine + [Frame(current, path[i])];
        assert longer[..|spine|] == spine;
        spine, current, i := longer, entry.fields, i + 1;
      }
      WriteThrough(spine, current[key := value]);
      return true;
    }

    method RemoveAt(path: Path)
      modifies this
      ensures fields == Remove(old(fields), path)
    {
      if path == [] {
        return;
      }
      var current, spine: seq<Frame> := fields, [];
      var i := 0;
      while i < |path| - 1
        invariant 0 <= i < |path|
        invariant fields == old(fields)
        invariant Remove(fields, path) == Rebuilt(spine, Remove(current, path[i..]))
        invariant Rebuilt(spine, current) == fields
      {
        assert path[i..][1..] == path[i + 1..];
        if path[i] !in current || !current[path[i]].Object? {
          return;
        }
        var longer := spine + [Frame(current, path[i])];
        assert longer[..|spine|] == spine;
        assert current[path[i] := Object(current[path[i]].fields)] == current;
        spine, current, i := longer, current[path[i]].fields, i + 1;
      }
      WriteThrough(spine, current - {path[i]});
    }

    method ContainsAt(path: Path) returns (found: bool)
      ensures found == Contains(fields, path)
    {
      var current := Object(fields);
      for i := 0 to |path|
        invariant Read(fields, path) == At(current, path[i..])
      {
        if !current.Object? || path[i] !in current.fields {
          return false;
        }
        assert path[i..][1..] == path[i + 1..];
        current := current.fields[path[i]];
      }
      return true;
    }
  }

  // -- The laws --------------------------------------------------------------

  predicate Comparable(p: Path, q: Path) {
    p <= q || q <= p
  }

  /** After a set the path reads back the value, and so does every path below it. */
  lemma {:induction false} SetReadsBack(d: Fields, path: Path, key: string, value: Json, below: Path)
    requires Set(d, path, key, value).Some?
    ensures Read(Set(d, path, key, value).value, path + [key] + below) == At(value, below)
    decreases |path|
  {
    var full := path + [key] + below;
    if path == [] {
      assert full[1..] == below;
    } else {
      assert full[1..] == path[1..] + [key] + below;
      SetReadsBack(Child(d, path[0]).fields, path[1..], key, value, below);
    }
  }

  /** Every path that is not comparable with the one set reads as before. */
  lemma {:induction false} SetKeepsOthers(d: Fields, path: Path, key: string, value: Json, q: Path)
    requires Set(d, path, key, value).Some? && !Comparable(path + [key], q)
    ensures Read(Set(d, path, key, value).value, q) == Read(d, q)
    decreases |path|
  {
    var p := path + [key];
    assert q != [];
    if path != [] && q[0] == path[0] {
      assert p == [path[0]] + (path[1..] + [key]) && q == [q[0]] + q[1..];
      var child := Child(d, path[0]);
      SetKeepsOthers(child.fields, path[1..], key, value, q[1..]);
      if path[0] !in d {
        assert q[1..] != [];
        assert At(child, q[1..]).None?;
      }
    } else if path == [] {
      assert p == [key];
      assert q[0] == key ==> p <= q;
    }
  }

  /** A set is refused exactly when something on the way to the key is there and no object. */
  lemma {:induction false} SetRefusedIff(d: Fields, path: Path, key: string, value: Json)
    ensures Set(d, path, key, value).None? <==>
            exists i :: 0 <= i <= |path| && Contains(d, path[..i]) && !Read(d, path[..i]).value.Object?
    decreases |path|
  {
    if path == [] {
    } else {
      var child := Child(d, path[0]);
      forall i | 1 <= i <= |path|
        ensures Read(d, path[..i]) == if path[0] in d then At(child, path[1..][..i - 1]) else None
      {
        assert path[..i][1..] == path[1..][..i - 1];
      }
      if !child.Object? {
        assert At(child, path[1..][..0]) == Some(child);
        assert Contains(d, path[..1]) && !Read(d, path[..1]).value.Object?;
      } else {
        SetRefusedIff(child.fields, path[1..], key, value);
        if i :| 0 <= i <= |path[1..]| && Contains(child.fields, path[1..][..i])
                && !Read(child.fields, path[1..][..i]).value.Object? {
          assert Object(child.fields) == child;
          assert Contains(d, path[..i + 1]) && !Read(d, path[..i + 1]).value.Object?;
        }
        if i :| 0 <= i <= |path| && Contains(d, path[..i]) && !Read(d, path[..i]).value.Object? {
          assert i > 0;
          assert Contains(child.fields, path[1..][..i - 1]);
        }
      }
    }
  }

  /** A second set of the same key overrides the first. */
  lemma {:induction false} SetOverrides(d: Fields, path: Path, key: string, value: Json, again: Json)
    requires Set(d, path, key, value).Some?
    ensures Set(Set(d, path, key, value).value, path, key, again) == Set(d, path, key, again)
    decreases |path|
  {
    if path == [] {
      assert d[key := value][key := again] == d[key := again];
    } else {
      var child := Child(d, path[0]);
      SetOverrides(child.fields, path[1..], key, value, again);
      var inner := Set(child.fields, path[1..], key, value).value;
      var outer := Set(child.fields, path[1..], key, again);
      if outer.Some? {
        assert d[path[0] := Object(inner)][path[0] := Object(outer.value)] == d[path[0] := Object(outer.value)];
      }
    }
  }

  /** Setting only where the parent exists adds nothing but what lies at or below the key set. */
  lemma SetExistingCreatesNoParent(d: Fields, path: Path, key: string, value: Json, q: Path)
    requires SetExisting(d, path, key, value).Ok?
    ensures var r := SetExisting(d, path, key, value).value;
            && (r.None? <==> !Contains(d, path))
            && (r.Some? && Contains(r.value, q) && !Contains(d, q) ==> path + [key] <= q)
  {
    if Contains(d, path) && !(path + [key] <= q) {
      if Comparable(path + [key], q) {
        assert path == q + path[|q|..];
        ContainsPrefix(Object(d), q, path[|q|..]);
      } else {
        SetKeepsOthers(d, path, key, value, q);
      }
    }
  }

  lemma {:induction false} ContainsPrefix(v: Json, q: Path, rest: Path)
    requires At(v, q + rest).Some?
    ensures At(v, q).Some?
    decreases |q|
  {
    if q == [] {
    } else {
      assert (q + rest)[1..] == q[1..] + rest;
      ContainsPrefix(v.fields[q[0]], q[1..], rest);
    }
  }

  /** A removed path is gone, and every path that is not comparable with it reads as before. */
  lemma {:induction false} RemoveReads(d: Fields, path: Path, q: Path)
    requires path != []
    ensures !Contains(Remove(d, path), path)
    ensures !Comparable(path, q) ==> Read(Remove(d, path), q) == Read(d, q)
    decreases |path|
  {
    if |path| == 1 {
      if !Comparable(path, q) {
        assert q != [] && (q[0] == path[0] ==> path <= q);
      }
    } else if path[0] in d && d[path[0]].Object? {
      RemoveReads(d[path[0]].fields, path[1..], if q != [] then q[1..] else []);
      var inner := Remove(d[path[0]].fields, path[1..]);
      assert Remove(d, path)[path[0]] == Object(inner);
      assert !Contains(inner, path[1..]);
      assert Read(Remove(d, path), path) == At(Object(inner), path[1..]);
      if !Comparable(path, q) && q[0] == path[0] {
        assert path == [path[0]] + path[1..] && q == [q[0]] + q[1..];
      }
    } else if path[0] in d {
      assert At(d[path[0]], path[1..]).None?;
    }
  }

  /**
   Removing undoes setting exactly when the parent was there and the key was not: a parent
   the set had to create stays behind, and a value it replaced is lost.
   */
  lemma {:induction false} RemoveUndoesSetIff(d: Fields, path: Path, key: string, value: Json)
    requires Set(d, path, key, value).Some?
    ensures Remove(Set(d, path, key, value).value, path + [key]) == d <==>
            Contains(d, path) && !Contains(d, path + [key])
    decreases |path|
  {
    var p := path + [key];
    if path == [] {
      assert p == [key];
      assert p[1..] == [];
      assert key in d ==> Read(d, p) == At(d[key], p[1..]);
      assert key !in d ==> d[key := value] - {key} == d;
    } else {
      var child := Child(d, path[0]);
      assert p[1..] == path[1..] + [key];
      RemoveUndoesSetIff(child.fields, path[1..], key, value);
      var d' := Set(d, path, key, value).value;
      var back := Remove(d'[path[0]].fields, p[1..]);
      assert Remove(d', p) == d'[path[0] := Object(back)] == d[path[0] := Object(back)];
      if path[0] in d {
        assert d[path[0] := child] == d;
        assert back == child.fields <==> d[path[0] := Object(back)] == d;
      } else {
        assert path[0] in Remove(d', p);
      }
    }
  }
}
