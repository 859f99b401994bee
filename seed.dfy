/** The six relationships pronto/relationship.py registers at import time
    (lines 266-285), and what the docstring examples say about them. */
module Seed {
  import opened Records
  import opened Registry

  const IsA := Params(Some(false), Some(true), Some(true), Some("can_be"), None, Some("bottomup"), None, None)
  const CanBe := Params(Some(false), Some(true), Some(true), Some("is_a"), None, Some("topdown"), None, None)
  const HasPart := Params(Some(false), Some(true), Some(true), Some("part_of"), None, Some("topdown"), None, None)
  const PartOf := Params(Some(false), Some(true), Some(true), Some("has_part"), None, Some("bottomup"), None, Some(["is_part"]))
  const HasUnits := Params(Some(false), Some(false), None, None, None, None, None, None)
  const HasDomain := Params(Some(false), Some(false), None, None, None, None, None, None)

  /** Importing the module: an empty `_instances`, then the six
      constructor calls in source order. */
  method Import() returns (reg: Instances)
    ensures fresh(reg) && reg.Valid() && reg.View() == Seeded
  {
    reg := new Instances();
    var id := reg.GetOrCreate("is_a", IsA);
    Step1();
    id := reg.GetOrCreate("can_be", CanBe);
    Step2();
    id := reg.GetOrCreate("has_part", HasPart);
    Step3();
    id := reg.GetOrCreate("part_of", PartOf);
    Step4();
    id := reg.GetOrCreate("has_units", HasUnits);
    Step5();
    id := reg.GetOrCreate("has_domain", HasDomain);
    Step6();
  }

  // The records the six calls build, in order (ids 0..5).
  const IsARecord := RelData("is_a", Some(false), Some(true), Some(true), "can_be", "", "bottomup", "", [])
  const CanBeRecord := RelData("can_be", Some(false), Some(true), Some(true), "is_a", "", "topdown", "", [])
  const HasPartRecord := RelData("has_part", Some(false), Some(true), Some(true), "part_of", "", "topdown", "", [])
  const PartOfRecord := RelData("part_of", Some(false), Some(true), Some(true), "has_part", "", "bottomup", "", ["is_part"])
  const HasUnitsRecord := RelData("has_units", Some(false), None, None, "", "", "", "", [])
  const HasDomainRecord := RelData("has_domain", Some(false), None, None, "", "", "", "", [])

  const S1 := State([IsARecord], ["is_a"], map["is_a" := 0])
  const S2 := State(S1.records + [CanBeRecord], S1.keys + ["can_be"], S1.entry["can_be" := 1])
  const S3 := State(S2.records + [HasPartRecord], S2.keys + ["has_part"], S2.entry["has_part" := 2])
  const S4 := State(S3.records + [PartOfRecord], S3.keys + ["part_of", "is_part"],
                    S3.entry["part_of" := 3]["is_part" := 3])
  const S5 := State(S4.records + [HasUnitsRecord], S4.keys + ["has_units"], S4.entry["has_units" := 4])

  /** The seeded registry, written out step by step: six records and seven
      keys, `is_part` standing for `part_of`. */
  const Seeded := State(S5.records + [HasDomainRecord], S5.keys + ["has_domain"], S5.entry["has_domain" := 5])

  lemma Step1() ensures Create(Empty, "is_a", IsA).after == S1 {
    CreateWithoutAliases(Empty, "is_a", IsA);
  }
  lemma Step2() requires Wf(S1) ensures Create(S1, "can_be", CanBe).after == S2 {
    CreateWithoutAliases(S1, "can_be", CanBe);
  }
  lemma Step3() requires Wf(S2) ensures Create(S2, "has_part", HasPart).after == S3 {
    CreateWithoutAliases(S2, "has_part", HasPart);
  }
  lemma Step4() requires Wf(S3) ensures Create(S3, "part_of", PartOf).after == S4 {
    CreateWithOneAlias(S3, "part_of", PartOf, "is_part");
  }
  lemma Step5() requires Wf(S4) ensures Create(S4, "has_units", HasUnits).after == S5 {
    CreateWithoutAliases(S4, "has_units", HasUnits);
  }
  lemma Step6() requires Wf(S5) ensures Create(S5, "has_domain", HasDomain).after == Seeded {
    CreateWithoutAliases(S5, "has_domain", HasDomain);
  }

  lemma SeededWf()
    ensures Wf(Seeded)
  {
    Step1(); Step2(); Step3(); Step4(); Step5(); Step6();
  }

  /** The keys of the seeded registry, in insertion order. */
  const SeedKeys := ["is_a", "can_be", "has_part", "part_of", "is_part", "has_units", "has_domain"]

  /** Where each seeded key points. */
  ghost predicate SeedEntries(entry: map<string, RelId>) {
    && "is_a" in entry && entry["is_a"] == 0
    && "can_be" in entry && entry["can_be"] == 1
    && "has_part" in entry && entry["has_part"] == 2
    && "part_of" in entry && entry["part_of"] == 3
    && "is_part" in entry && entry["is_part"] == 3
    && "has_units" in entry && entry["has_units"] == 4
    && "has_domain" in entry && entry["has_domain"] == 5
  }

  /** The six seed records, by id. */
  ghost predicate SeedRecords(recs: seq<RelData>) {
    |recs| == 6
    && recs[0] == IsARecord && recs[1] == CanBeRecord && recs[2] == HasPartRecord
    && recs[3] == PartOfRecord && recs[4] == HasUnitsRecord && recs[5] == HasDomainRecord
  }

  lemma SeededLayout()
    ensures Seeded.keys == SeedKeys && SeedEntries(Seeded.entry) && SeedRecords(Seeded.records)
    ensures "subclass_of" !in Seeded.entry
  {
  }

  /** The value sequence `_instances.values()` walks, for any registry laid
      out like the seeded one. */
  lemma ValuesOfSeedLayout(s: State)
    requires KeysWf(s) && s.keys == SeedKeys && SeedEntries(s.entry)
    ensures Values(s) == [0, 1, 2, 3, 3, 4, 5]
  {
    var vs := Values(s);
    assert vs[0] == 0 && vs[1] == 1 && vs[2] == 2 && vs[3] == 3;
    assert vs[4] == 3 && vs[5] == 4 && vs[6] == 5;
  }

  /** The value sequence `_instances.values()` walks after import. */
  lemma SeededValues()
    ensures Wf(Seeded) && Values(Seeded) == [0, 1, 2, 3, 3, 4, 5]
  {
    SeededWf();
    SeededLayout();
    ValuesOfSeedLayout(Seeded);
  }

  /** The directions the six seed records carry. */
  ghost predicate SeedDirections(recs: seq<RelData>) {
    |recs| == 6
    && recs[0].direction == "bottomup" && recs[1].direction == "topdown"
    && recs[2].direction == "topdown" && recs[3].direction == "bottomup"
    && recs[4].direction == "" && recs[5].direction == ""
  }

  lemma SeedRecordDirections(recs: seq<RelData>)
    requires SeedRecords(recs)
    ensures SeedDirections(recs)
  {
  }

  /** The values a sequence holds. */
  ghost function Elements(r: seq<RelId>): set<RelId> {
    set x | x in r
  }

  /** A sequence without repeats holds as many values as its length. */
  lemma {:induction false} DistinctElements(r: seq<RelId>)
    requires forall i, j :: 0 <= i < j < |r| ==> r[i] != r[j]
    ensures |Elements(r)| == |r|
  {
    if r == [] {
      assert Elements(r) == {};
    } else {
      var t := r[1..];
      DistinctElements(t);
      assert r[0] !in Elements(t);
      assert Elements(r) == Elements(t) + {r[0]};
    }
  }

  /** A listing without repeats whose members are exactly `a` and `b`, kept
      in the order of first occurrence in `vs`, is `[a, b]` when `a` occurs
      first. */
  lemma ListedPair(r: seq<RelId>, vs: seq<RelId>, a: RelId, b: RelId)
    requires a != b && a in vs && b in vs && FirstIndex(vs, a) < FirstIndex(vs, b)
    requires forall x :: x in r <==> x == a || x == b
    requires forall i, j :: 0 <= i < j < |r| ==> r[i] != r[j]
    requires forall i, j :: 0 <= i < j < |r| ==>
      r[i] in vs && r[j] in vs && FirstIndex(vs, r[i]) < FirstIndex(vs, r[j])
    ensures r == [a, b]
  {
    DistinctElements(r);
    assert Elements(r) == {a, b};
    assert r[0] in r && r[1] in r;
  }

  /** Over the seeded value walk, `topdown` picks exactly 1 and 2. */
  lemma TopDownListing(r: seq<RelId>, vs: seq<RelId>, recs: seq<RelData>)
    requires SeedDirections(recs) && vs == [0, 1, 2, 3, 3, 4, 5]
    requires forall x :: x in r <==> x in vs && x < |recs| && recs[x].direction == "topdown"
    requires forall i, j :: 0 <= i < j < |r| ==> r[i] != r[j]
    requires forall i, j :: 0 <= i < j < |r| ==>
      r[i] in vs && r[j] in vs && FirstIndex(vs, r[i]) < FirstIndex(vs, r[j])
    ensures r == [1, 2]
  {
    forall x ensures x in r <==> x == 1 || x == 2 {
    }
    FirstIndexUnique(vs, 1, 1);
    FirstIndexUnique(vs, 2, 2);
    ListedPair(r, vs, 1, 2);
  }

  lemma TopDownOfSeedLayout(s: State)
    requires KeysWf(s) && s.keys == SeedKeys && SeedEntries(s.entry) && SeedRecords(s.records)
    ensures TopDown(s) == [1, 2]
  {
    ValuesOfSeedLayout(s);
    ValuesCover(s);
    SeedRecordDirections(s.records);
    TopDownListing(ByDirection(s, "topdown"), Values(s), s.records);
  }

  /** Over the seeded value walk, `bottomup` picks exactly 0 and 3. */
  lemma BottomUpListing(r: seq<RelId>, vs: seq<RelId>, recs: seq<RelData>)
    requires SeedDirections(recs) && vs == [0, 1, 2, 3, 3, 4, 5]
    requires forall x :: x in r <==> x in vs && x < |recs| && recs[x].direction == "bottomup"
    requires forall i, j :: 0 <= i < j < |r| ==> r[i] != r[j]
    requires forall i, j :: 0 <= i < j < |r| ==>
      r[i] in vs && r[j] in vs && FirstIndex(vs, r[i]) < FirstIndex(vs, r[j])
    ensures r == [0, 3]
  {
    forall x ensures x in r <==> x == 0 || x == 3 {
    }
    FirstIndexUnique(vs, 0, 0);
    FirstIndexUnique(vs, 3, 3);
    ListedPair(r, vs, 0, 3);
  }

  lemma BottomUpOfSeedLayout(s: State)
    requires KeysWf(s) && s.keys == SeedKeys && SeedEntries(s.entry) && SeedRecords(s.records)
    ensures BottomUp(s) == [0, 3]
  {
    ValuesOfSeedLayout(s);
    ValuesCover(s);
    SeedRecordDirections(s.records);
    BottomUpListing(ByDirection(s, "bottomup"), Values(s), s.records);
  }

  /** `Relationship.topdown()` after import: can_be, then has_part. */
  lemma SeedTopDown()
    ensures Wf(Seeded) && TopDown(Seeded) == [Seeded.entry["can_be"], Seeded.entry["has_part"]]
  {
    SeededWf();
    SeededLayout();
    TopDownOfSeedLayout(Seeded);
  }

  /** `Relationship.bottomup()` after import: is_a, then part_of (once,
      although `is_part` also maps to it). */
  lemma SeedBottomUp()
    ensures Wf(Seeded) && BottomUp(Seeded) == [Seeded.entry["is_a"], Seeded.entry["part_of"]]
  {
    SeededWf();
    SeededLayout();
    BottomUpOfSeedLayout(Seeded);
  }

  lemma Canonical1() ensures Wf(S1) && Canonical(S1) {
    CreateKeepsCanonical(Empty, "is_a", IsA);
    Step1();
  }
  lemma Canonical2() requires Wf(S1) && Canonical(S1) ensures Wf(S2) && Canonical(S2) {
    CreateKeepsCanonical(S1, "can_be", CanBe);
    Step2();
  }
  lemma Canonical3() requires Wf(S2) && Canonical(S2) ensures Wf(S3) && Canonical(S3) {
    CreateKeepsCanonical(S2, "has_part", HasPart);
    Step3();
  }
  lemma Canonical4() requires Wf(S3) && Canonical(S3) ensures Wf(S4) && Canonical(S4) {
    assert "is_part" !in S3.entry;
    CreateKeepsCanonical(S3, "part_of", PartOf);
    Step4();
  }
  lemma Canonical5() requires Wf(S4) && Canonical(S4) ensures Wf(S5) && Canonical(S5) {
    CreateKeepsCanonical(S4, "has_units", HasUnits);
    Step5();
  }
  lemma Canonical6() requires Wf(S5) && Canonical(S5) ensures Wf(Seeded) && Canonical(Seeded) {
    CreateKeepsCanonical(S5, "has_domain", HasDomain);
    Step6();
  }

  /** Every seeded record is what its name and aliases resolve to: no seed
      alias collides with an earlier key. */
  lemma SeededCanonical()
    ensures Wf(Seeded) && Canonical(Seeded)
  {
    Canonical1(); Canonical2(); Canonical3(); Canonical4(); Canonical5(); Canonical6();
  }

  /** Pickling any seeded record and unpickling it in a process that has
      imported the module gives back the very same record; `is_a` is the
      docstring's example. */
  lemma SeedPickleRoundTrip()
    ensures forall id :: 0 <= id < |Seeded.records| ==> Decode(Seeded, Encode(Seeded, id)) == Found(id)
    ensures Decode(Seeded, Encode(Seeded, Seeded.entry["is_a"])) == Found(Seeded.entry["is_a"])
  {
    SeededCanonical();
    forall id | 0 <= id < |Seeded.records| ensures Decode(Seeded, Encode(Seeded, id)) == Found(id) {
      PickleRoundTrip(Seeded, id);
    }
  }

  lemma ComplementsOfSeedLayout(s: State)
    requires KeysWf(s) && Canonical(s) && SeedRecords(s.records)
    ensures Complement(s, 0) == Ok(Some(1)) && Complement(s, 1) == Ok(Some(0))
    ensures Complement(s, 2) == Ok(Some(3)) && Complement(s, 3) == Ok(Some(2))
    ensures Complement(s, 4) == Ok(None) && Complement(s, 5) == Ok(None)
  {
    ComplementPaired(s, 0, 1);
    ComplementPaired(s, 2, 3);
  }

  /** `complement` on the seed: is_a and can_be are each other's complement,
      so are has_part and part_of; has_units and has_domain have none. */
  lemma SeedComplements()
    ensures Wf(Seeded)
    ensures Complement(Seeded, Seeded.entry["is_a"]) == Ok(Some(Seeded.entry["can_be"]))
    ensures Complement(Seeded, Seeded.entry["can_be"]) == Ok(Some(Seeded.entry["is_a"]))
    ensures Complement(Seeded, Seeded.entry["has_part"]) == Ok(Some(Seeded.entry["part_of"]))
    ensures Complement(Seeded, Seeded.entry["part_of"]) == Ok(Some(Seeded.entry["has_part"]))
    ensures Complement(Seeded, Seeded.entry["has_units"]) == Ok(None)
    ensures Complement(Seeded, Seeded.entry["has_domain"]) == Ok(None)
  {
    SeededCanonical();
    SeededLayout();
    ComplementsOfSeedLayout(Seeded);
  }

  /** `is_part` is a second key for the `part_of` record, not a record of
      its own. */
  lemma SeedAlias()
    ensures Seeded.entry["is_part"] == Seeded.entry["part_of"]
    ensures Decode(Seeded, "is_part") == Decode(Seeded, "part_of")
    ensures Seeded.records[Seeded.entry["part_of"]].aliases == ["is_part"]
  {
  }

  /** The stored transitivity is the reflexivity argument: has_units was
      declared non-transitive but stores no transitivity, as does has_domain. */
  lemma SeedTransitivity()
    ensures Seeded.records[Seeded.entry["has_units"]].transitivity == None
    ensures Seeded.records[Seeded.entry["has_domain"]].transitivity == None
    ensures HasUnits.transitivity == Some(false) && HasDomain.transitivity == Some(false)
    ensures Seeded.records[Seeded.entry["is_a"]].transitivity == Some(true)
  {
  }

  /** An alias that names an already registered relationship overwrites
      that key: after `Relationship('subclass_of', aliases=['is_a'])` the
      name `is_a` resolves to the new record, so the original `is_a` record
      no longer survives a pickle round trip. */
  lemma AliasOverwriteLosesIdentity()
    ensures Wf(Seeded)
    ensures var p := NoParams.(aliases := Some(["is_a"]));
      var o := Create(Seeded, "subclass_of", p);
      && Encode(o.after, Seeded.entry["is_a"]) == "is_a"
      && Decode(o.after, "is_a") == Found(o.rel)
      && o.rel != Seeded.entry["is_a"]
      && !Canonical(o.after)
  {
    SeededWf();
    SeededLayout();
    AliasTakesOverName(Seeded, "subclass_of", NoParams.(aliases := Some(["is_a"])), 0);
  }
}
