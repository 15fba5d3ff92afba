/** `merge_config`: the parsed `-o` overrides are folded into the configuration in
    their (insertion) order. A plain key replaces the top-level entry, except that a
    mapping given for an existing key is merged one level deep (`dict.update`); a dotted
    key walks existing mappings from an existing root and assigns the last key. */
module Merge {
  import opened Outcomes
  import opened Text
  import opened ConfigValues
  import opened OptionParser

  /** The keys of an override key, split at every `.`. */
  function KeyPath(key: string): (p: Path)
    ensures |p| == multiset(key)['.'] + 1
    ensures '.' in key ==> |p| >= 2
    ensures '.' !in key ==> p == [key]
  {
    if '.' !in key then SplitNoSeparator(key, '.'); Split(key, '.')
    else Split(key, '.')
  }

  /** The top-level key an override touches. */
  function Root(key: string): string
  {
    KeyPath(key)[0]
  }

  /** One override `key = value` applied to `c`. */
  function MergeOne(c: Config, key: string, value: Value): (r: Result<Config>)
    // a plain key fails only when a mapping meets an existing non-mapping
    ensures '.' !in key ==>
      (r.Err? <==> value.Dict? && key in c && !c[key].Dict?) &&
      (r.Err? ==> r.error == NotAMapping(key))
    // a plain key touches no other top-level key
    ensures '.' !in key && r.Ok? ==>
      r.value.Keys == c.Keys + {key} &&
      forall k :: k in c && k != key ==> r.value[k] == c[k]
    // a mapping for an existing mapping is merged shallowly, the new keys winning
    ensures '.' !in key && r.Ok? && value.Dict? && key in c ==>
      var old_, new_ := c[key].entries, r.value[key];
      new_.Dict? &&
      new_.entries.Keys == old_.Keys + value.entries.Keys &&
      (forall k :: k in value.entries ==> new_.entries[k] == value.entries[k]) &&
      (forall k :: k in old_ && k !in value.entries ==> new_.entries[k] == old_[k])
    // anything else replaces the entry outright
    ensures '.' !in key && r.Ok? && !(value.Dict? && key in c) ==> r.value[key] == value
    // a dotted key fails exactly when its container is not an existing mapping
    ensures '.' in key ==>
      (r.Err? <==> !IsDictAt(c, Container(KeyPath(key)))) &&
      (r.Err? ==> r.error == if Root(key) !in c then UnknownRootKey(Root(key))
                             else InvalidPath(KeyPath(key)))
    ensures '.' in key && r.Ok? ==> Get(Dict(r.value), KeyPath(key)) == Some(value)
  {
    if '.' !in key then
      if value.Dict? && key in c then
        if c[key].Dict? then Ok(c[key := Dict(c[key].entries + value.entries)])
        else Err(NotAMapping(key))
      else Ok(c[key := value])
    else
      var p := KeyPath(key);
      if p[0] !in c then
        assert Container(p)[0] == p[0];
        Err(UnknownRootKey(p[0]))
      else Write(c, p, value)
  }

  /** All overrides, in order; the first failing one ends the merge. */
  function MergeAll(c: Config, opts: Options): Result<Config>
    decreases |opts|
  {
    if opts == [] then Ok(c)
    else
      var c' :- MergeOne(c, opts[0].0, opts[0].1);
      MergeAll(c', opts[1..])
  }

  /** Merging `a + b` is merging `a`, then `b` into the result. */
  lemma {:induction false} MergeAllAppend(c: Config, a: Options, b: Options)
    ensures MergeAll(c, a + b) ==
      if MergeAll(c, a).Err? then MergeAll(c, a) else MergeAll(MergeAll(c, a).value, b)
    decreases |a|
  {
    if a != [] {
      assert (a + b)[0] == a[0] && (a + b)[1..] == a[1..] + b;
      var r := MergeOne(c, a[0].0, a[0].1);
      assert MergeAll(c, a + b) == if r.Err? then Err(r.error) else MergeAll(r.value, a[1..] + b);
      assert MergeAll(c, a) == if r.Err? then Err(r.error) else MergeAll(r.value, a[1..]);
      if r.Ok? {
        MergeAllAppend(r.value, a[1..], b);
      }
    } else {
      assert a + b == b;
    }
  }

  /** Later overrides win: after a successful merge, the last override's value is what its
      key names. A dotted key reads the value at its path; a plain key whose value is not
      a mapping holds it as the top-level entry. */
  lemma LastOverrideWins(c: Config, opts: Options)
    requires opts != [] && MergeAll(c, opts).Ok?
    ensures var (k, v) := opts[|opts| - 1];
      ('.' in k ==> Get(Dict(MergeAll(c, opts).value), KeyPath(k)) == Some(v)) &&
      ('.' !in k && !v.Dict? ==> k in MergeAll(c, opts).value && MergeAll(c, opts).value[k] == v)
  {
    var n := |opts| - 1;
    assert opts == opts[..n] + [opts[n]];
    MergeAllAppend(c, opts[..n], [opts[n]]);
    var c' := MergeAll(c, opts[..n]).value;
    assert [opts[n]][1..] == [];
    assert MergeAll(c, opts) == MergeOne(c', opts[n].0, opts[n].1);
  }

  /** A dotted override leaves every path unrelated to its own as it was. */
  lemma MergeDottedFrame(c: Config, key: string, value: Value, q: Path)
    requires '.' in key && MergeOne(c, key, value).Ok?
    requires !(q <= KeyPath(key)) && !(KeyPath(key) <= q)
    ensures Get(Dict(MergeOne(c, key, value).value), q) == Get(Dict(c), q)
  {
    SetPathFrame(c, KeyPath(key), value, q);
  }

  /** One override keeps every top-level key other than its root. */
  lemma OneKeepsOtherRoots(c: Config, key: string, value: Value, k: string)
    requires MergeOne(c, key, value).Ok? && Root(key) != k
    ensures k in MergeOne(c, key, value).value <==> k in c
    ensures k in c ==> MergeOne(c, key, value).value[k] == c[k]
  {
    if '.' in key {
      var p := KeyPath(key);
      assert !([k] <= p) && !(p <= [k]);
      SetPathFrame(c, p, value, [k]);
      var r := MergeOne(c, key, value).value;
      assert Get(Dict(r), [k]) == if k in r then Some(r[k]) else None;
      assert Get(Dict(c), [k]) == if k in c then Some(c[k]) else None;
    }
  }

  /** Overrides none of which is rooted at `k` leave the top-level entry `k` alone. */
  lemma {:induction false} MergeAllFrame(c: Config, opts: Options, k: string)
    requires MergeAll(c, opts).Ok?
    requires forall i :: 0 <= i < |opts| ==> Root(opts[i].0) != k
    ensures k in MergeAll(c, opts).value <==> k in c
    ensures k in c ==> MergeAll(c, opts).value[k] == c[k]
    decreases |opts|
  {
    if opts != [] {
      OneKeepsOtherRoots(c, opts[0].0, opts[0].1, k);
      var c' := MergeOne(c, opts[0].0, opts[0].1).value;
      assert forall i :: 0 <= i < |opts[1..]| ==> opts[1..][i] == opts[i + 1];
      MergeAllFrame(c', opts[1..], k);
    }
  }

  /** Applying the same override again changes nothing. */
  lemma MergeOneIdempotent(c: Config, key: string, value: Value)
    requires MergeOne(c, key, value).Ok?
    ensures MergeOne(MergeOne(c, key, value).value, key, value) == MergeOne(c, key, value)
  {
    var r := MergeOne(c, key, value).value;
    if '.' !in key {
      if value.Dict? && key in c {
        var e := c[key].entries;
        assert r[key := Dict(r[key].entries + value.entries)] == r by {
          assert (e + value.entries) + value.entries == e + value.entries;
        }
      } else if value.Dict? {
        assert value.entries + value.entries == value.entries;
        assert r[key := Dict(r[key].entries + value.entries)] == r;
      } else {
        assert r[key := value] == r;
      }
    } else {
      var p := KeyPath(key);
      assert p[0] in r by {
        assert Get(Dict(r), p).Some?;
      }
      SetPathSame(r, p, value);
    }
  }

  /** For a plain key the outcome at the key depends only on the entry already there:
      configurations that agree at `key` get the same entry and keep the rest. */
  lemma PlainLocal(c: Config, d: Config, key: string, value: Value)
    requires '.' !in key && MergeOne(c, key, value).Ok?
    requires key in c <==> key in d
    requires key in c ==> c[key] == d[key]
    ensures MergeOne(d, key, value) == Ok(d[key := MergeOne(c, key, value).value[key]])
  {
  }

  /** Plain overrides with distinct keys, merged twice, give what merging once gave:
      each touches only its own top-level entry, and `dict.update` with the same
      mapping again adds nothing. */
  lemma {:induction false} MergeAllPlainIdempotent(c: Config, opts: Options)
    requires forall i :: 0 <= i < |opts| ==> '.' !in opts[i].0
    requires forall i, j :: 0 <= i < j < |opts| ==> opts[i].0 != opts[j].0
    requires MergeAll(c, opts).Ok?
    ensures MergeAll(MergeAll(c, opts).value, opts) == MergeAll(c, opts)
    decreases |opts|
  {
    if opts != [] {
      var (k, v) := opts[0];
      var rest := opts[1..];
      var c1 := MergeOne(c, k, v).value;
      var r := MergeAll(c1, rest).value;
      assert MergeAll(c, opts) == MergeAll(c1, rest);
      forall i | 0 <= i < |rest|
        ensures Root(rest[i].0) != k
      {
        assert rest[i] == opts[i + 1];
      }
      MergeAllFrame(c1, rest, k);
      MergeOneIdempotent(c, k, v);
      PlainLocal(c1, r, k, v);
      assert r[k := c1[k]] == r;
      MergeAllPlainIdempotent(c1, rest);
    }
  }

  /** The key `A.b.c` names the path `A`, `b`, `c`. */
  lemma DottedABC()
    ensures '.' in "A.b.c" && KeyPath("A.b.c") == ["A", "b", "c"]
  {
    assert "A.b.c"[1] == '.';
    assert Join(["A", "b", "c"], '.') == "A.b.c";
    SplitJoin(["A", "b", "c"], '.');
  }

  /** Merging a pair of overrides is merging the first, then the second. */
  lemma MergeAllPair(c: Config, o1: (string, Value), o2: (string, Value))
    ensures MergeAll(c, [o1, o2]) ==
      var r := MergeOne(c, o1.0, o1.1);
      if r.Err? then Err(r.error) else MergeOne(r.value, o2.0, o2.1)
  {
    assert [o1, o2][1..] == [o2] && [o2][1..] == [];
    var r := MergeOne(c, o1.0, o1.1);
    if r.Ok? {
      var r2 := MergeOne(r.value, o2.0, o2.1);
      assert MergeAll(r.value, [o2]) == if r2.Err? then Err(r2.error) else Ok(r2.value);
    }
  }

  lemma SetABC(c: Config, key: string, v: Value)
    requires '.' in key && KeyPath(key) == ["A", "b", "c"]
    requires c == map["A" := Dict(map["b" := Dict(map[])])]
    ensures MergeOne(c, key, v).Ok?
    ensures "A" in MergeOne(c, key, v).value && MergeOne(c, key, v).value["A"].Dict?
  {
    assert Container(["A", "b", "c"]) == ["A", "b"];
    assert ["A", "b"][1..] == ["b"];
    assert Get(Dict(c), ["A", "b"]) == Some(Dict(map[]));
    assert Get(Dict(MergeOne(c, key, v).value), ["A", "b", "c"]).Some?;
  }

  lemma UpdateA(c: Config, m: Value)
    requires "A" in c && c["A"].Dict? && m == Dict(map["b" := Atom("5")])
    ensures MergeOne(c, "A", m).Ok?
    ensures Get(Dict(MergeOne(c, "A", m).value), ["A", "b"]) == Some(Atom("5"))
  {
    assert '.' !in "A";
    var r := MergeOne(c, "A", m).value;
    assert r["A"].entries["b"] == Atom("5");
    assert ["A", "b"][1..] == ["b"];
  }

  lemma SetABCFails(c: Config, key: string, v: Value)
    requires '.' in key && KeyPath(key) == ["A", "b", "c"]
    requires Get(Dict(c), ["A", "b"]) == Some(Atom("5"))
    ensures MergeOne(c, key, v).Err?
  {
    assert Container(["A", "b", "c"]) == ["A", "b"];
  }

  /** Dotted overrides break whole-map idempotence: after `A.b.c=1` and then
      `A={b: 5}`, the first override no longer finds a mapping at `A.b`. The key is any
      one that splits into `A`, `b`, `c`, such as `A.b.c` itself (`DottedABC`). */
  lemma MergeTwiceCounterexample(key: string)
    requires '.' in key && KeyPath(key) == ["A", "b", "c"]
    ensures
      var c := map["A" := Dict(map["b" := Dict(map[])])];
      var opts := [(key, Atom("1")), ("A", Dict(map["b" := Atom("5")]))];
      MergeAll(c, opts).Ok? && MergeAll(MergeAll(c, opts).value, opts).Err?
  {
    var c := map["A" := Dict(map["b" := Dict(map[])])];
    var m := Dict(map["b" := Atom("5")]);
    var opts := [(key, Atom("1")), ("A", m)];
    SetABC(c, key, Atom("1"));
    var c1 := MergeOne(c, key, Atom("1")).value;
    UpdateA(c1, m);
    var c2 := MergeOne(c1, "A", m).value;
    MergeAllPair(c, opts[0], opts[1]);
    SetABCFails(c2, key, Atom("1"));
    MergeAllPair(c2, opts[0], opts[1]);
  }
}
