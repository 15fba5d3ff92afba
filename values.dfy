/** The nested configuration: YAML mappings, sequences and scalars as a tree of values,
    addressed by paths of keys. `SetPath` is the one way the generator writes into it:
    it walks existing mappings and assigns the last key of the path, never creating
    an intermediate mapping. */
module ConfigValues {
  import opened Outcomes

  /** A parsed YAML value. Scalars other than strings (numbers, booleans, null) are kept
      opaque, as the text that produced them. */
  datatype Value =
    | Str(s: string)
    | Atom(text: string)
    | List(items: seq<Value>)
    | Dict(entries: map<string, Value>)

  /** The top-level configuration mapping (`global_config`). */
  type Config = map<string, Value>

  /** A sequence of keys, outermost first. */
  type Path = seq<string>

  /** The value reached from `v` by following `p` through mappings, if any. */
  function Get(v: Value, p: Path): Option<Value>
    decreases |p|
  {
    if p == [] then Some(v)
    else if v.Dict? && p[0] in v.entries then Get(v.entries[p[0]], p[1..])
    else None
  }

  /** `p` leads, from the top of `c`, to a mapping. */
  predicate IsDictAt(c: Config, p: Path)
  {
    var r := Get(Dict(c), p);
    r.Some? && r.value.Dict?
  }

  /** The mapping that holds the last key of `p`. */
  function Container(p: Path): Path
    requires p != []
  {
    p[..|p| - 1]
  }

  /** Following `p + [k]` is following `p` and then looking `k` up in a mapping. */
  lemma {:induction false} GetSnoc(v: Value, p: Path, k: string)
    ensures Get(v, p + [k]) ==
      (var u := Get(v, p); if u.Some? && u.value.Dict? && k in u.value.entries
                           then Some(u.value.entries[k]) else None)
    decreases |p|
  {
    if p != [] {
      assert (p + [k])[1..] == p[1..] + [k];
      if v.Dict? && p[0] in v.entries {
        GetSnoc(v.entries[p[0]], p[1..], k);
      }
    }
  }

  /** Following `p + q` is following `p`, then `q` from where `p` led; a path that leads
      nowhere leads nowhere however it is extended. */
  lemma {:induction false} GetAppend(v: Value, p: Path, q: Path)
    ensures Get(v, p + q) == if Get(v, p).Some? then Get(Get(v, p).value, q) else None
    decreases |p|
  {
    if p != [] {
      assert (p + q)[0] == p[0] && (p + q)[1..] == p[1..] + q;
      if v.Dict? && p[0] in v.entries {
        GetAppend(v.entries[p[0]], p[1..], q);
      }
    } else {
      assert p + q == q;
    }
  }

  /** A path that leads somewhere passes through a mapping just above its last key. */
  lemma GetContainer(v: Value, p: Path)
    requires p != [] && Get(v, p).Some?
    ensures var u := Get(v, Container(p)); u.Some? && u.value.Dict?
  {
    assert Container(p) + [p[|p| - 1]] == p;
    GetSnoc(v, Container(p), p[|p| - 1]);
  }

  /** `c[p := v]` in the manner of `cur[key] = v` after `cur = c[p0][p1]...`: it succeeds
      exactly when the container of the last key is an existing mapping, and then the
      path reads back `v`. */
  function SetPath(c: Config, p: Path, v: Value): (r: Option<Config>)
    requires p != []
    ensures r.Some? <==> IsDictAt(c, Container(p))
    ensures r.Some? ==> Get(Dict(r.value), p) == Some(v)
    decreases |p|
  {
    if |p| == 1 then Some(c[p[0] := v])
    else
      assert Container(p)[0] == p[0] && Container(p)[1..] == Container(p[1..]);
      assert |p| == 2 ==> Container(p)[1..] == [];
      if p[0] in c && c[p[0]].Dict? then
        match SetPath(c[p[0]].entries, p[1..], v)
        case None => None
        case Some(inner) => Some(c[p[0] := Dict(inner)])
      else
        assert Get(Dict(c), Container(p)) ==
          if p[0] in c then Get(c[p[0]], Container(p)[1..]) else None;
        None
  }

  /** Writing one path leaves every path unrelated to it (neither a prefix nor an
      extension of it) reading exactly as before. */
  lemma {:induction false} SetPathFrame(c: Config, p: Path, v: Value, q: Path)
    requires p != [] && SetPath(c, p, v).Some?
    requires !(q <= p) && !(p <= q)
    ensures Get(Dict(SetPath(c, p, v).value), q) == Get(Dict(c), q)
    decreases |p|
  {
    var r := SetPath(c, p, v).value;
    assert q != [];
    if q[0] == p[0] {
      assert |p| > 1 && |q| > 1;
      assert !(q[1..] <= p[1..]) && !(p[1..] <= q[1..]);
      SetPathFrame(c[p[0]].entries, p[1..], v, q[1..]);
    }
  }

  /** No mapping is created or destroyed: every proper prefix of the written path is a
      mapping before and after, with the same keys, except that the container of the
      last key gains that key. */
  lemma {:induction false} SetPathAncestors(c: Config, p: Path, v: Value, k: nat)
    requires p != [] && SetPath(c, p, v).Some? && k < |p|
    ensures IsDictAt(c, p[..k]) && IsDictAt(SetPath(c, p, v).value, p[..k])
    ensures Get(Dict(SetPath(c, p, v).value), p[..k]).value.entries.Keys ==
            Get(Dict(c), p[..k]).value.entries.Keys + (if k == |p| - 1 then {p[k]} else {})
    decreases |p|
  {
    if k > 0 {
      var r := SetPath(c, p, v).value;
      assert |p| > 1;
      assert p[..k][0] == p[0] && p[..k][1..] == p[1..][..k - 1];
      SetPathAncestors(c[p[0]].entries, p[1..], v, k - 1);
    }
  }

  /** Below the written path, the tree is the written value. */
  lemma {:induction false} SetPathBelow(c: Config, p: Path, v: Value, q: Path)
    requires p != [] && SetPath(c, p, v).Some?
    ensures Get(Dict(SetPath(c, p, v).value), p + q) == Get(v, q)
    decreases |p|
  {
    assert (p + q)[0] == p[0];
    if |p| == 1 {
      assert (p + q)[1..] == q;
    } else {
      assert (p + q)[1..] == p[1..] + q;
      SetPathBelow(c[p[0]].entries, p[1..], v, q);
    }
  }

  /** Writing the value a path already holds changes nothing. */
  lemma {:induction false} SetPathSame(c: Config, p: Path, v: Value)
    requires p != [] && Get(Dict(c), p) == Some(v)
    ensures SetPath(c, p, v) == Some(c)
    decreases |p|
  {
    if |p| > 1 {
      SetPathSame(c[p[0]].entries, p[1..], v);
      assert c[p[0] := Dict(c[p[0]].entries)] == c;
    } else {
      assert c[p[0] := v] == c;
    }
  }

  /** A write leaves "is a mapping" unchanged at every path that does not pass through the
      written key: ancestors stay mappings and unrelated paths are untouched. */
  lemma SetPathKeepsDicts(c: Config, p: Path, v: Value, q: Path)
    requires p != [] && SetPath(c, p, v).Some?
    requires !(p <= q)
    ensures IsDictAt(SetPath(c, p, v).value, q) == IsDictAt(c, q)
  {
    if q <= p {
      assert q == p[..|q|];
      SetPathAncestors(c, p, v, |q|);
    } else {
      SetPathFrame(c, p, v, q);
    }
  }

  /** A write as the generator reports it: an invalid path is an error naming the path. */
  function Write(c: Config, p: Path, v: Value): (r: Result<Config>)
    requires p != []
    ensures r.Err? ==> r.error == InvalidPath(p) && !IsDictAt(c, Container(p))
    ensures r.Ok? ==> Get(Dict(r.value), p) == Some(v)
  {
    match SetPath(c, p, v)
    case None => Err(InvalidPath(p))
    case Some(c') => Ok(c')
  }

  /** Neither path is a prefix of the other: writing one never reads or changes the other. */
  predicate Unrelated(p: Path, q: Path)
  {
    !(p <= q) && !(q <= p)
  }

  /** Paths that differ at a position both have are unrelated. */
  lemma ApartAt(p: Path, q: Path, k: nat)
    requires k < |p| && k < |q| && p[k] != q[k]
    ensures Unrelated(p, q)
  {
  }

  /** A list of writes whose paths are pairwise unrelated: none is a prefix of another. */
  predicate Independent(ws: seq<(Path, Value)>)
  {
    (forall i :: 0 <= i < |ws| ==> ws[i].0 != []) &&
    (forall i, j :: 0 <= i < |ws| && 0 <= j < |ws| && i != j ==> !(ws[i].0 <= ws[j].0))
  }

  /** Dropping the first write keeps the rest independent. */
  lemma IndependentTail(ws: seq<(Path, Value)>)
    requires Independent(ws) && ws != []
    ensures Independent(ws[1..])
    ensures forall i :: 0 <= i < |ws| - 1 ==> ws[1..][i] == ws[i + 1]
  {
    forall i, j | 0 <= i < |ws| - 1 && 0 <= j < |ws| - 1 && i != j
      ensures !(ws[1..][i].0 <= ws[1..][j].0)
    {
      assert ws[1..][i] == ws[i + 1] && ws[1..][j] == ws[j + 1];
    }
  }

  /** The writes performed one after the other, stopping at the first invalid path. */
  function SetAll(c: Config, ws: seq<(Path, Value)>): Result<Config>
    requires forall i :: 0 <= i < |ws| ==> ws[i].0 != []
    decreases |ws|
  {
    if ws == [] then Ok(c)
    else
      var c' :- Write(c, ws[0].0, ws[0].1);
      SetAll(c', ws[1..])
  }

  /** One step of `SetAll`: the first write, then the rest on its result. */
  lemma SetAllStep(c: Config, ws: seq<(Path, Value)>)
    requires ws != [] && forall i :: 0 <= i < |ws| ==> ws[i].0 != []
    ensures SetAll(c, ws) ==
      var w := Write(c, ws[0].0, ws[0].1);
      if w.Err? then Err(w.error) else SetAll(w.value, ws[1..])
  {
  }

  /** A failed chain of writes reports an invalid path. */
  lemma {:induction false} SetAllErr(c: Config, ws: seq<(Path, Value)>)
    requires forall i :: 0 <= i < |ws| ==> ws[i].0 != []
    requires SetAll(c, ws).Err?
    ensures SetAll(c, ws).error.InvalidPath?
    decreases |ws|
  {
    var w := Write(c, ws[0].0, ws[0].1);
    if w.Ok? {
      assert forall i :: 0 <= i < |ws| - 1 ==> ws[1..][i] == ws[i + 1];
      SetAllErr(w.value, ws[1..]);
    }
  }

  /** Independent writes all succeed exactly when every container exists beforehand:
      one write never makes or breaks the container of another. */
  lemma {:induction false} SetAllOkIff(c: Config, ws: seq<(Path, Value)>)
    requires Independent(ws)
    ensures SetAll(c, ws).Ok? <==> forall i :: 0 <= i < |ws| ==> IsDictAt(c, Container(ws[i].0))
    decreases |ws|
  {
    if ws != [] {
      var p := ws[0].0;
      IndependentTail(ws);
      if SetPath(c, p, ws[0].1).Some? {
        var c' := SetPath(c, p, ws[0].1).value;
        SetAllOkIff(c', ws[1..]);
        forall i | 1 <= i < |ws|
          ensures IsDictAt(c', Container(ws[i].0)) == IsDictAt(c, Container(ws[i].0))
        {
          assert !(p <= Container(ws[i].0));
          SetPathKeepsDicts(c, p, ws[0].1, Container(ws[i].0));
        }
      }
    }
  }

  /** After independent writes succeed, every written path reads its value and every path
      unrelated to all of them reads as before. */
  lemma {:induction false} SetAllEffect(c: Config, ws: seq<(Path, Value)>, q: Path)
    requires Independent(ws) && SetAll(c, ws).Ok?
    ensures forall i :: 0 <= i < |ws| ==> Get(Dict(SetAll(c, ws).value), ws[i].0) == Some(ws[i].1)
    ensures (forall i :: 0 <= i < |ws| ==> !(q <= ws[i].0) && !(ws[i].0 <= q)) ==>
            Get(Dict(SetAll(c, ws).value), q) == Get(Dict(c), q)
    decreases |ws|
  {
    if ws != [] {
      var p := ws[0].0;
      var c' := SetPath(c, p, ws[0].1).value;
      var r := SetAll(c, ws).value;
      assert SetAll(c, ws) == SetAll(c', ws[1..]);
      IndependentTail(ws);
      SetAllEffect(c', ws[1..], q);
      SetAllEffect(c', ws[1..], p);
      assert (forall i :: 0 <= i < |ws| ==> !(q <= ws[i].0) && !(ws[i].0 <= q)) ==>
             Get(Dict(c'), q) == Get(Dict(c), q) by {
        if forall i :: 0 <= i < |ws| ==> !(q <= ws[i].0) && !(ws[i].0 <= q) {
          SetPathFrame(c, p, ws[0].1, q);
        }
      }
    }
  }
}
