/** The memoizing registry behind `Relationship` (pronto/relationship.py):
    the class-level ordered dictionary `_instances` mapping every name and
    alias to one canonical record, the get-or-create path of
    `__new__`/`__init__`, and the read-only queries `complement`, `topdown`
    and `bottomup`, plus pickling a record as its name. */
module Registry {
  import opened Records
  import opened OboStanza

  /** Everything the registry holds at one moment: every record object
      created so far (identity = position), the keys of `_instances` in
      insertion order, and what each key maps to. */
  datatype State = State(records: seq<RelData>, keys: seq<string>, entry: map<string, RelId>)

  /** `_instances` as the class body creates it. */
  const Empty := State([], [], map[])

  /** The ordered dictionary is well formed: the key order lists each key
      once, lists exactly the keys of the mapping, and every key maps to a
      record that exists. */
  ghost predicate KeysWf(s: State) {
    (forall i, j :: 0 <= i < j < |s.keys| ==> s.keys[i] != s.keys[j])
    && (forall k :: k in s.entry <==> k in s.keys)
    && (forall k :: k in s.entry ==> s.entry[k] < |s.records|)
  }

  /** Every record was registered under its own name when it was created,
      so every record name is a key and no two records share a name. */
  ghost predicate NamesWf(s: State) {
    (forall i :: 0 <= i < |s.records| ==> s.records[i].oboName in s.entry)
    && (forall i, j :: 0 <= i < j < |s.records| ==> s.records[i].oboName != s.records[j].oboName)
  }

  ghost predicate Wf(s: State) {
    KeysWf(s) && NamesWf(s)
  }

  /** Every record is still what its own name and its aliases resolve to.
      Alias overwriting (see `Create`) is the only thing that can break it. */
  ghost predicate Canonical(s: State) {
    forall i :: 0 <= i < |s.records| ==>
      s.records[i].oboName in s.entry && s.entry[s.records[i].oboName] == i
      && (forall a :: a in s.records[i].aliases ==> a in s.entry && s.entry[a] == i)
  }

  // ---------------------------------------------------------------------
  // Writing: OrderedDict assignment and get-or-create

  /** `_instances[k] = rel` on an OrderedDict: a new key goes to the end of
      the order, an existing key is overwritten and keeps its position. */
  function Register(s: State, k: string, id: RelId): (t: State)
    requires KeysWf(s) && id < |s.records|
    ensures KeysWf(t) && t.records == s.records
    ensures t.entry == s.entry[k := id]
    ensures k in s.entry ==> t.keys == s.keys
    ensures k !in s.entry ==> t.keys == s.keys + [k]
  {
    State(s.records, if k in s.entry then s.keys else s.keys + [k], s.entry[k := id])
  }

  /** The alias loop: `_instances[alias] = self` for each alias in turn. */
  function RegisterAll(s: State, ks: seq<string>, id: RelId): (t: State)
    requires KeysWf(s) && id < |s.records|
    ensures KeysWf(t) && t.records == s.records
    decreases |ks|
  {
    if ks == [] then s
    else Register(RegisterAll(s, ks[..|ks| - 1], id), ks[|ks| - 1], id)
  }

  /** After the alias loop every alias maps to the record. */
  lemma {:induction false} RegisterAllAliases(s: State, ks: seq<string>, id: RelId)
    requires KeysWf(s) && id < |s.records|
    ensures var t := RegisterAll(s, ks, id);
      forall k :: k in ks ==> k in t.entry && t.entry[k] == id
    decreases |ks|
  {
    if ks != [] {
      var prefix, last := ks[..|ks| - 1], ks[|ks| - 1];
      RegisterAllAliases(s, prefix, id);
      var t := Register(RegisterAll(s, prefix, id), last, id);
      assert t == RegisterAll(s, ks, id);
      forall k | k in ks ensures k in t.entry && t.entry[k] == id {
        if k != last {
          assert k in prefix by {
            var i :| 0 <= i < |ks| && ks[i] == k;
            assert prefix[i] == k;
          }
        }
      }
    }
  }

  /** The alias loop leaves every key that is not an alias as it was. */
  lemma {:induction false} RegisterAllKeeps(s: State, ks: seq<string>, id: RelId)
    requires KeysWf(s) && id < |s.records|
    ensures var t := RegisterAll(s, ks, id);
      forall k :: k in s.entry && k !in ks ==> k in t.entry && t.entry[k] == s.entry[k]
    decreases |ks|
  {
    if ks != [] {
      var prefix, last := ks[..|ks| - 1], ks[|ks| - 1];
      RegisterAllKeeps(s, prefix, id);
      var t := Register(RegisterAll(s, prefix, id), last, id);
      assert t == RegisterAll(s, ks, id);
      assert forall k :: k in prefix ==> k in ks;
    }
  }

  /** The alias loop adds no key other than the aliases. */
  lemma {:induction false} RegisterAllNoOthers(s: State, ks: seq<string>, id: RelId)
    requires KeysWf(s) && id < |s.records|
    ensures var t := RegisterAll(s, ks, id);
      forall k :: k in t.entry ==> k in s.entry || k in ks
    decreases |ks|
  {
    if ks != [] {
      var prefix, last := ks[..|ks| - 1], ks[|ks| - 1];
      RegisterAllNoOthers(s, prefix, id);
      var init := RegisterAll(s, prefix, id);
      var t := Register(init, last, id);
      assert t == RegisterAll(s, ks, id);
      assert forall k :: k in prefix ==> k in ks;
      forall k | k in t.entry ensures k in s.entry || k in ks {
        if k != last {
          assert k in init.entry;
        }
      }
    }
  }

  /** The alias loop keeps every key already present at its position. */
  lemma {:induction false} RegisterAllKeys(s: State, ks: seq<string>, id: RelId)
    requires KeysWf(s) && id < |s.records|
    ensures var t := RegisterAll(s, ks, id);
      |s.keys| <= |t.keys| && t.keys[..|s.keys|] == s.keys
    decreases |ks|
  {
    if ks != [] {
      var prefix, last := ks[..|ks| - 1], ks[|ks| - 1];
      RegisterAllKeys(s, prefix, id);
      var init := RegisterAll(s, prefix, id);
      var t := Register(init, last, id);
      assert t == RegisterAll(s, ks, id);
      assert t.keys[..|init.keys|] == init.keys;
      assert t.keys[..|s.keys|] == init.keys[..|s.keys|];
    }
  }

  /** The keys an assignment loop over `ks` appends to an ordered dictionary
      whose keys are `present`: each key of `ks` not already present, once,
      in the order of its first occurrence in `ks`. */
  function AppendedKeys(present: seq<string>, ks: seq<string>): (r: seq<string>)
    ensures forall k :: k in r <==> k in ks && k !in present
    ensures forall i, j :: 0 <= i < j < |r| ==> r[i] != r[j]
    decreases |ks|
  {
    if ks == [] then []
    else
      var f, k := AppendedKeys(present, ks[..|ks| - 1]), ks[|ks| - 1];
      assert forall x :: x in ks ==> x in ks[..|ks| - 1] || x == k;
      assert forall x :: x in ks[..|ks| - 1] ==> x in ks;
      if k in present || k in f then f else f + [k]
  }

  /** `AppendedKeys` lists keys in the order of their first occurrence in `ks`. */
  lemma {:induction false} AppendedKeysOrder(present: seq<string>, ks: seq<string>)
    ensures forall i, j :: 0 <= i < j < |AppendedKeys(present, ks)| ==>
      && AppendedKeys(present, ks)[i] in ks && AppendedKeys(present, ks)[j] in ks
      && FirstIndex(ks, AppendedKeys(present, ks)[i]) < FirstIndex(ks, AppendedKeys(present, ks)[j])
    decreases |ks|
  {
    if ks != [] {
      var init, k := ks[..|ks| - 1], ks[|ks| - 1];
      AppendedKeysOrder(present, init);
      FirstIndexInit(ks);
      var f := AppendedKeys(present, init);
      var r := AppendedKeys(present, ks);
      if !(k in present || k in f) {
        assert k !in init;
        FirstIndexUnique(ks, k, |ks| - 1);
        assert r == f + [k];
      } else {
        assert r == f;
      }
      forall i, j | 0 <= i < j < |r|
        ensures r[i] in ks && r[j] in ks && FirstIndex(ks, r[i]) < FirstIndex(ks, r[j])
      {
        assert r[i] == f[i] && f[i] in init;
        assert FirstIndex(ks, r[i]) == FirstIndex(init, f[i]) < |init|;
        if j < |f| {
          assert r[j] == f[j] && f[j] in init;
          assert FirstIndex(ks, r[j]) == FirstIndex(init, f[j]);
        }
      }
    } else {
      assert AppendedKeys(present, ks) == [];
    }
  }

  /** The alias loop leaves the old keys in place and appends exactly the
      aliases that were not keys yet, in the order of their first occurrence. */
  lemma {:induction false} RegisterAllKeyOrder(s: State, ks: seq<string>, id: RelId)
    requires KeysWf(s) && id < |s.records|
    ensures RegisterAll(s, ks, id).keys == s.keys + AppendedKeys(s.keys, ks)
    decreases |ks|
  {
    if ks != [] {
      var prefix, last := ks[..|ks| - 1], ks[|ks| - 1];
      RegisterAllKeyOrder(s, prefix, id);
      var init := RegisterAll(s, prefix, id);
      var f := AppendedKeys(s.keys, prefix);
      assert init.keys == s.keys + f;
      assert last in init.entry <==> last in s.keys || last in f;
      assert RegisterAll(s, ks, id) == Register(init, last, id);
      if !(last in s.keys || last in f) {
        assert (s.keys + f) + [last] == s.keys + (f + [last]);
      }
    }
  }

  /** The creating branch of `__init__`: the new record is stored, then
      registered under its name, then under each alias in turn. */
  function Build(s: State, name: string, p: Params): (t: State)
    requires KeysWf(s)
    ensures KeysWf(t)
  {
    var id := |s.records|;
    var named := Register(State(s.records + [NewRecord(name, p)], s.keys, s.entry), name, id);
    RegisterAll(named, OrNoAliases(p.aliases), id)
  }

  /** Where every key points after `Build`. */
  lemma BuildEntries(s: State, name: string, p: Params)
    requires KeysWf(s)
    ensures var t, id, aliases := Build(s, name, p), |s.records|, OrNoAliases(p.aliases);
      && t.records == s.records + [NewRecord(name, p)]
      && name in t.entry && t.entry[name] == id
      && (forall a :: a in aliases ==> a in t.entry && t.entry[a] == id)
      && (forall k :: k in s.entry && k != name && k !in aliases ==> k in t.entry && t.entry[k] == s.entry[k])
      && (forall k :: k in t.entry ==> k in s.entry || k == name || k in aliases)
  {
    var id, aliases := |s.records|, OrNoAliases(p.aliases);
    var named := Register(State(s.records + [NewRecord(name, p)], s.keys, s.entry), name, id);
    RegisterAllAliases(named, aliases, id);
    RegisterAllKeeps(named, aliases, id);
    RegisterAllNoOthers(named, aliases, id);
  }

  /** A new name goes to the end of the key order; keys already present
      keep their positions. */
  lemma BuildKeys(s: State, name: string, p: Params)
    requires KeysWf(s) && name !in s.entry
    ensures var t := Build(s, name, p);
      |s.keys| < |t.keys| && t.keys[..|s.keys|] == s.keys && t.keys[|s.keys|] == name
  {
    var id, aliases := |s.records|, OrNoAliases(p.aliases);
    var named := Register(State(s.records + [NewRecord(name, p)], s.keys, s.entry), name, id);
    RegisterAllKeys(named, aliases, id);
    ExtendedPrefix(s.keys, name, Build(s, name, p).keys);
  }

  /** A sequence that starts with `a + [x]` starts with `a`, then `x`. */
  lemma ExtendedPrefix<T>(a: seq<T>, x: T, c: seq<T>)
    requires |a| + 1 <= |c| && c[..|a| + 1] == a + [x]
    ensures |a| < |c| && c[..|a|] == a && c[|a|] == x
  {
    assert c[..|a|] == (c[..|a| + 1])[..|a|];
  }

  /** Building a record for an unregistered name keeps names registered and unique. */
  lemma BuildNames(s: State, name: string, p: Params)
    requires Wf(s) && name !in s.entry
    ensures NamesWf(Build(s, name, p))
  {
    BuildEntries(s, name, p);
    var t := Build(s, name, p);
    forall i | 0 <= i < |t.records| ensures t.records[i].oboName in t.entry {
      if i < |s.records| {
        assert s.records[i].oboName in s.entry;
      }
    }
  }

  /** What constructing `Relationship(name, **p)` returns and leaves behind. */
  datatype Outcome = Outcome(after: State, rel: RelId)

  /** `Relationship(name, **p)`: `__new__` returns the record already under
      `name` (and the guarded `__init__` then does nothing); otherwise a new
      record is built, registered under `name`, then under each alias,
      overwriting whatever those keys held. */
  function Create(s: State, name: string, p: Params): (r: Outcome)
    requires Wf(s)
    ensures Wf(r.after) && r.rel < |r.after.records|
    ensures name in s.entry ==> r.after == s && r.rel == s.entry[name]
    ensures name !in s.entry ==>
      && r.rel == |s.records|
      && r.after.records == s.records + [NewRecord(name, p)]
      && name in r.after.entry && r.after.entry[name] == r.rel
      && (forall a :: a in OrNoAliases(p.aliases) ==> a in r.after.entry && r.after.entry[a] == r.rel)
      && (forall k :: k in s.entry && k !in OrNoAliases(p.aliases) ==> k in r.after.entry && r.after.entry[k] == s.entry[k])
      && (forall k :: k in r.after.entry ==> k in s.entry || k == name || k in OrNoAliases(p.aliases))
      && |s.keys| < |r.after.keys| && r.after.keys[..|s.keys|] == s.keys && r.after.keys[|s.keys|] == name
  {
    if name in s.entry then Outcome(s, s.entry[name])
    else
      BuildEntries(s, name, p);
      BuildKeys(s, name, p);
      BuildNames(s, name, p);
      Outcome(Build(s, name, p), |s.records|)
  }

  /** Creating a name with no aliases appends one record and one key. */
  lemma CreateWithoutAliases(s: State, name: string, p: Params)
    requires Wf(s) && name !in s.entry && OrNoAliases(p.aliases) == []
    ensures Create(s, name, p) == Outcome(
      State(s.records + [NewRecord(name, p)], s.keys + [name], s.entry[name := |s.records|]),
      |s.records|)
  {
  }

  /** Creating a name with one alias, neither of them registered, appends
      one record and the two keys in that order. */
  lemma CreateWithOneAlias(s: State, name: string, p: Params, a: string)
    requires Wf(s) && name !in s.entry && OrNoAliases(p.aliases) == [a] && a != name && a !in s.entry
    ensures Create(s, name, p) == Outcome(
      State(s.records + [NewRecord(name, p)], s.keys + [name, a],
            s.entry[name := |s.records|][a := |s.records|]),
      |s.records|)
  {
    var id := |s.records|;
    var named := Register(State(s.records + [NewRecord(name, p)], s.keys, s.entry), name, id);
    assert [a][..0] == [];
    assert RegisterAll(named, [a], id) == Register(named, a, id);
  }

  /** The full key order after creating a new name: the old keys, then the
      name, then each alias that was not a key yet, once, in the order of
      its first occurrence among the aliases. */
  lemma CreateKeyOrder(s: State, name: string, p: Params)
    requires Wf(s) && name !in s.entry
    ensures Create(s, name, p).after.keys
         == s.keys + [name] + AppendedKeys(s.keys + [name], OrNoAliases(p.aliases))
  {
    var id := |s.records|;
    var named := Register(State(s.records + [NewRecord(name, p)], s.keys, s.entry), name, id);
    RegisterAllKeyOrder(named, OrNoAliases(p.aliases), id);
  }

  /** Asking again for a name just created or found, with any
      other arguments, returns the same record and changes nothing. */
  lemma CreateIdempotent(s: State, name: string, p: Params, q: Params)
    requires Wf(s)
    ensures Create(Create(s, name, p).after, name, q) == Create(s, name, p)
  {
  }

  /** Each alias of a new record is a key that
      constructs to that very record. */
  lemma CreateByAlias(s: State, name: string, p: Params, a: string, q: Params)
    requires Wf(s) && name !in s.entry && a in OrNoAliases(p.aliases)
    ensures Create(Create(s, name, p).after, a, q) == Create(s, name, p)
  {
  }

  /** Creation keeps every record canonical as long as no alias of the new
      record is already a key (an alias equal to the name itself is harmless). */
  lemma {:induction false} CreateKeepsCanonical(s: State, name: string, p: Params)
    requires Wf(s) && Canonical(s)
    requires forall a :: a in OrNoAliases(p.aliases) ==> a == name || a !in s.entry
    ensures Canonical(Create(s, name, p).after)
  {
    if name !in s.entry {
      var t := Create(s, name, p).after;
      var aliases := OrNoAliases(p.aliases);
      forall i | 0 <= i < |t.records|
        ensures t.records[i].oboName in t.entry && t.entry[t.records[i].oboName] == i
        ensures forall a :: a in t.records[i].aliases ==> a in t.entry && t.entry[a] == i
      {
        if i < |s.records| {
          assert t.records[i] == s.records[i];
          var n := s.records[i].oboName;
          assert n in s.entry && n !in aliases;
          forall a | a in t.records[i].aliases ensures a in t.entry && t.entry[a] == i {
            assert a in s.entry && s.entry[a] == i;
            assert a !in aliases;
          }
        } else {
          assert t.records[i] == NewRecord(name, p);
        }
      }
    }
  }

  // ---------------------------------------------------------------------
  // Reading: complement

  /** The message `complement` raises with: the `{}` placeholder is never
      formatted, so the message does not name the missing relationship. */
  const UndefinedComplementMessage := "{} has a complementary but it was not defined !"

  /** `rel.complement()`: no complement when `complementary` is empty,
      the record registered under it when there is one, and ValueError when
      that key is not registered. */
  function Complement(s: State, id: RelId): (r: Result<Option<RelId>>)
    requires KeysWf(s) && id < |s.records|
    ensures r == Ok(None) <==> s.records[id].complementary == ""
    ensures r.Ok? && r.value.Some? ==>
      s.records[id].complementary in s.entry && r.value.value == s.entry[s.records[id].complementary]
      && r.value.value < |s.records|
    ensures r.Err? <==> s.records[id].complementary != "" && s.records[id].complementary !in s.entry
    ensures r.Err? ==> r.error == ValueError(UndefinedComplementMessage)
  {
    var c := s.records[id].complementary;
    if c != "" then
      if c in s.entry then Ok(Some(s.entry[c]))
      else Err(ValueError(UndefinedComplementMessage))
    else Ok(None)
  }

  /** Complement is an involution on any pair of canonical records that
      name each other as complementary. */
  lemma ComplementPaired(s: State, x: RelId, y: RelId)
    requires KeysWf(s) && Canonical(s) && x < |s.records| && y < |s.records|
    requires s.records[x].complementary == s.records[y].oboName
    requires s.records[y].complementary == s.records[x].oboName
    requires s.records[x].oboName != "" && s.records[y].oboName != ""
    ensures Complement(s, x) == Ok(Some(y)) && Complement(s, y) == Ok(Some(x))
  {
  }

  // ---------------------------------------------------------------------
  // Reading: directional classification

  /** `_instances.values()`, in key order. */
  function Values(s: State): (vs: seq<RelId>)
    requires KeysWf(s)
    ensures |vs| == |s.keys|
    ensures forall i :: 0 <= i < |s.keys| ==> vs[i] == s.entry[s.keys[i]]
  {
    seq(|s.keys|, i requires 0 <= i < |s.keys| => s.entry[s.keys[i]])
  }

  /** The values walked are exactly the records some key maps to. */
  lemma ValuesCover(s: State)
    requires KeysWf(s)
    ensures forall x :: x in Values(s) <==> x in s.entry.Values
    ensures forall x :: x in Values(s) ==> x < |s.records|
  {
    var vs := Values(s);
    forall x | x in s.entry.Values ensures x in vs {
      var k :| k in s.entry && s.entry[k] == x;
      var i :| 0 <= i < |s.keys| && s.keys[i] == k;
      assert vs[i] == x;
    }
  }

  /** Position of the first occurrence of `x` in `xs`. */
  function FirstIndex<T(==)>(xs: seq<T>, x: T): (i: nat)
    requires x in xs
    ensures i < |xs| && xs[i] == x
    ensures forall j :: 0 <= j < i ==> xs[j] != x
  {
    if xs[0] == x then 0 else 1 + FirstIndex(xs[1..], x)
  }

  /** An occurrence with none of `x` before it is the first occurrence. */
  lemma FirstIndexUnique<T>(xs: seq<T>, x: T, i: nat)
    requires i < |xs| && xs[i] == x
    requires forall j :: 0 <= j < i ==> xs[j] != x
    ensures FirstIndex(xs, x) == i
  {
  }

  /** Dropping the last element does not move any first occurrence among
      the elements that remain. */
  lemma FirstIndexInit<T>(xs: seq<T>)
    requires |xs| > 0
    ensures forall x :: x in xs[..|xs| - 1] ==> FirstIndex(xs[..|xs| - 1], x) == FirstIndex(xs, x)
  {
    var init := xs[..|xs| - 1];
    forall x | x in init ensures FirstIndex(init, x) == FirstIndex(xs, x) {
      var i := FirstIndex(init, x);
      FirstIndexUnique(xs, x, i);
    }
  }

  /** `unique_everseen(r for r in vals if r.direction == dir)`: the records
      with that direction, each once (by identity), in the order of their
      first occurrence in `vals`. */
  function Directed(recs: seq<RelData>, vals: seq<RelId>, dir: string): (r: seq<RelId>)
    requires forall i :: 0 <= i < |vals| ==> vals[i] < |recs|
    ensures |r| <= |vals|
    ensures forall i :: 0 <= i < |r| ==> r[i] in vals && r[i] < |recs| && recs[r[i]].direction == dir
    decreases |vals|
  {
    if vals == [] then []
    else
      var init, v := vals[..|vals| - 1], vals[|vals| - 1];
      assert v in vals;
      var d := Directed(recs, init, dir);
      if recs[v].direction == dir && v !in d then d + [v] else d
  }

  /** `Directed` keeps exactly the values with the direction. */
  lemma {:induction false} DirectedMembers(recs: seq<RelData>, vals: seq<RelId>, dir: string)
    requires forall i :: 0 <= i < |vals| ==> vals[i] < |recs|
    ensures forall x :: x in Directed(recs, vals, dir) <==> x in vals && recs[x].direction == dir
    decreases |vals|
  {
    if vals != [] {
      var init, v := vals[..|vals| - 1], vals[|vals| - 1];
      assert forall x :: x in init ==> x in vals;
      assert forall x :: x in vals ==> x in init || x == v;
      assert v in vals;
      DirectedMembers(recs, init, dir);
      var d := Directed(recs, init, dir);
      assert Directed(recs, vals, dir) == if recs[v].direction == dir && v !in d then d + [v] else d;
    }
  }

  /** `Directed` lists each value once. */
  lemma {:induction false} DirectedDistinct(recs: seq<RelData>, vals: seq<RelId>, dir: string)
    requires forall i :: 0 <= i < |vals| ==> vals[i] < |recs|
    ensures forall i, j :: 0 <= i < j < |Directed(recs, vals, dir)| ==>
      Directed(recs, vals, dir)[i] != Directed(recs, vals, dir)[j]
    decreases |vals|
  {
    if vals != [] {
      var init, v := vals[..|vals| - 1], vals[|vals| - 1];
      assert v in vals;
      DirectedDistinct(recs, init, dir);
      var d := Directed(recs, init, dir);
      if recs[v].direction == dir && v !in d {
        var r := d + [v];
        assert r == Directed(recs, vals, dir);
        forall i, j | 0 <= i < j < |r| ensures r[i] != r[j] {
          assert r[i] == d[i];
          if j < |d| {
            assert r[j] == d[j];
          }
        }
      }
    }
  }

  /** `Directed` lists values in the order of their first occurrence. */
  lemma {:induction false} DirectedOrder(recs: seq<RelData>, vals: seq<RelId>, dir: string)
    requires forall i :: 0 <= i < |vals| ==> vals[i] < |recs|
    ensures forall i, j :: 0 <= i < j < |Directed(recs, vals, dir)| ==>
      && Directed(recs, vals, dir)[i] in vals && Directed(recs, vals, dir)[j] in vals
      && FirstIndex(vals, Directed(recs, vals, dir)[i]) < FirstIndex(vals, Directed(recs, vals, dir)[j])
    decreases |vals|
  {
    if vals != [] {
      var init, v := vals[..|vals| - 1], vals[|vals| - 1];
      assert forall x :: x in init ==> x in vals;
      assert v in vals;
      DirectedOrder(recs, init, dir);
      DirectedMembers(recs, init, dir);
      FirstIndexInit(vals);
      var d := Directed(recs, init, dir);
      var r := Directed(recs, vals, dir);
      if recs[v].direction == dir && v !in d {
        assert v !in init;
        FirstIndexUnique(vals, v, |vals| - 1);
        assert r == d + [v];
      } else {
        assert r == d;
      }
      forall i, j | 0 <= i < j < |r|
        ensures r[i] in vals && r[j] in vals && FirstIndex(vals, r[i]) < FirstIndex(vals, r[j])
      {
        assert r[i] == d[i] && d[i] in init;
        assert FirstIndex(vals, r[i]) == FirstIndex(init, d[i]) < |init|;
        if j < |d| {
          assert r[j] == d[j] && d[j] in init;
          assert FirstIndex(vals, r[j]) == FirstIndex(init, d[j]);
        }
      }
    } else {
      assert Directed(recs, vals, dir) == [];
    }
  }

  /** What `Directed` returns: exactly the values with the direction, each
      once, ordered by where each first occurs in `vals`. */
  lemma DirectedSpec(recs: seq<RelData>, vals: seq<RelId>, dir: string)
    requires forall i :: 0 <= i < |vals| ==> vals[i] < |recs|
    ensures var r := Directed(recs, vals, dir);
      && (forall x :: x in r <==> x in vals && recs[x].direction == dir)
      && (forall i, j :: 0 <= i < j < |r| ==> r[i] != r[j])
      && (forall i, j :: 0 <= i < j < |r| ==>
            r[i] in vals && r[j] in vals && FirstIndex(vals, r[i]) < FirstIndex(vals, r[j]))
  {
    DirectedMembers(recs, vals, dir);
    DirectedDistinct(recs, vals, dir);
    DirectedOrder(recs, vals, dir);
  }


  /** The listing both class methods return: the registered records with
      direction `dir`, each once, in the order each first occurs among
      `_instances.values()`. */
  function ByDirection(s: State, dir: string): (r: seq<RelId>)
    requires KeysWf(s)
    ensures forall x :: x in r <==> x in s.entry.Values && s.records[x].direction == dir
    ensures forall i, j :: 0 <= i < j < |r| ==> r[i] != r[j]
    ensures forall i, j :: 0 <= i < j < |r| ==>
      r[i] in Values(s) && r[j] in Values(s) && FirstIndex(Values(s), r[i]) < FirstIndex(Values(s), r[j])
  {
    ValuesCover(s);
    DirectedSpec(s.records, Values(s), dir);
    Directed(s.records, Values(s), dir)
  }

  /** `Relationship.topdown()`. */
  function TopDown(s: State): (r: seq<RelId>)
    requires KeysWf(s)
    ensures r == ByDirection(s, "topdown")
  {
    ByDirection(s, "topdown")
  }

  /** `Relationship.bottomup()`. */
  function BottomUp(s: State): (r: seq<RelId>)
    requires KeysWf(s)
    ensures r == ByDirection(s, "bottomup")
  {
    ByDirection(s, "bottomup")
  }

  /** No record is both top-down and bottom-up. */
  lemma DirectionsDisjoint(s: State, x: RelId)
    requires KeysWf(s)
    ensures !(x in TopDown(s) && x in BottomUp(s))
  {
  }

  // ---------------------------------------------------------------------
  // Pickling: encode as the name, decode through `__new__`

  /** What unpickling produces: the record `__new__` finds under the name,
      or a fresh object that is neither registered nor initialised. */
  datatype Unpickled = Found(id: RelId) | Blank

  /** `__getnewargs__`: a record is pickled as its name alone. */
  function Encode(s: State, id: RelId): (name: string)
    requires id < |s.records|
    ensures Canonical(s) ==> name in s.entry && s.entry[name] == id
  {
    s.records[id].oboName
  }

  /** Unpickling calls `__new__(cls, name)` only (`__init__` is not run),
      so an unknown name yields a blank object and registers nothing. */
  function Decode(s: State, name: string): (u: Unpickled)
    ensures u == Blank <==> name !in s.entry
    ensures u.Found? ==> name in s.entry && u.id == s.entry[name]
    ensures KeysWf(s) && u.Found? ==> u.id < |s.records|
  {
    if name in s.entry then Found(s.entry[name]) else Blank
  }

  /** Decoding agrees with the constructor's lookup: a registered name
      decodes to exactly the record `Relationship(name)` returns (and that
      call changes nothing); an unregistered name decodes to a blank object,
      where the constructor would have created and registered a new record. */
  lemma DecodeIsConstructorLookup(s: State, name: string, p: Params)
    requires Wf(s)
    ensures name in s.entry ==> Decode(s, name) == Found(Create(s, name, p).rel) && Create(s, name, p).after == s
    ensures name !in s.entry ==> Decode(s, name) == Blank && Create(s, name, p).rel !in s.entry.Values
  {
  }

  /** Pickling round-trips identity for every canonical record. */
  lemma PickleRoundTrip(s: State, id: RelId)
    requires Canonical(s) && id < |s.records|
    ensures Decode(s, Encode(s, id)) == Found(id)
  {
  }

  /** The alias overwrite: creating a record whose alias is an existing
      record's name takes that key over, so the older record no longer
      survives a pickle round trip and the registry stops being canonical. */
  lemma AliasTakesOverName(s: State, name: string, p: Params, i: RelId)
    requires Wf(s) && name !in s.entry && i < |s.records|
    requires s.records[i].oboName in OrNoAliases(p.aliases)
    ensures var o := Create(s, name, p);
      && Encode(o.after, i) == s.records[i].oboName
      && Decode(o.after, Encode(o.after, i)) == Found(o.rel)
      && o.rel != i
      && !Canonical(o.after)
  {
    var o := Create(s, name, p);
    assert o.after.records[i] == s.records[i];
  }

  // ---------------------------------------------------------------------
  // The class-level registry, updated in place

  /** `Relationship._instances`, with the record objects it points to. */
  class Instances {
    var records: seq<RelData>
    var keys: seq<string>
    var entry: map<string, RelId>

    function View(): State
      reads this
    {
      State(records, keys, entry)
    }

    ghost predicate Valid()
      reads this
    {
      Wf(View())
    }

    constructor ()
      ensures Valid() && View() == Empty
    {
      records, keys, entry := [], [], map[];
    }

    /** `_instances[k] = rel`. */
    method SetItem(k: string, id: RelId)
      requires KeysWf(View()) && id < |records|
      modifies this
      ensures View() == Register(old(View()), k, id)
    {
      if k !in entry {
        keys := keys + [k];
      }
      entry := entry[k := id];
    }

    /** The alias loop of `__init__`: `_instances[alias] = self` for each
        alias in turn. */
    method SetAliases(aliases: seq<string>, id: RelId)
      requires KeysWf(View()) && id < |records|
      modifies this
      ensures View() == RegisterAll(old(View()), aliases, id)
    {
      ghost var start := View();
      var i := 0;
      while i < |aliases|
        invariant 0 <= i <= |aliases|
        invariant View() == RegisterAll(start, aliases[..i], id)
      {
        assert aliases[..i + 1][..i] == aliases[..i];
        SetItem(aliases[i], id);
        i := i + 1;
      }
      assert aliases[..|aliases|] == aliases;
    }

    /** `Relationship(name, **p)`: `__new__` plus the guarded `__init__`. */
    method GetOrCreate(name: string, p: Params) returns (id: RelId)
      requires Valid()
      modifies this
      ensures Valid()
      ensures View() == Create(old(View()), name, p).after && id == Create(old(View()), name, p).rel
      ensures name in old(entry) ==> id == old(entry)[name] && View() == old(View())
      ensures name !in old(entry) ==> id == old(|records|) && records == old(records) + [NewRecord(name, p)]
    {
      if name in entry {
        id := entry[name];
        return;
      }
      ghost var before := View();
      id := |records|;
      var rec := NewRecord(name, p);
      records := records + [rec];
      SetItem(name, id);
      SetAliases(rec.aliases, id);
      assert View() == Create(before, name, p).after;
    }

    /** `Relationship._from_obo_dict(d)`. */
    method FromOboDict(d: Stanza) returns (r: Result<RelId>)
      requires Valid()
      modifies this
      ensures Valid()
      ensures "id" !in d ==> r == Err(KeyError("id")) && View() == old(View())
      ensures "id" in d && d["id"] in old(entry) ==> r == Ok(old(entry)[d["id"]]) && View() == old(View())
      ensures "id" in d && d["id"] !in old(entry) ==>
        r == Ok(Create(old(View()), d["id"], StanzaParams(d)).rel)
        && View() == Create(old(View()), d["id"], StanzaParams(d)).after
    {
      if "id" !in d {
        return Err(KeyError("id"));
      }
      if d["id"] in entry {
        return Ok(entry[d["id"]]);
      }
      var id := GetOrCreate(d["id"], StanzaParams(d));
      r := Ok(id);
    }
  }
}
