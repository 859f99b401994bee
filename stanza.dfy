/** The straight-line parsing half of `Relationship._from_obo_dict`
    (pronto/relationship.py:236-259): an OBO `[Typedef]` stanza, given as a
    string-to-string map, becomes the keyword arguments of a constructor
    call. The registry half (the early return and the call itself) is
    `Registry.Instances.FromOboDict`. */
module OboStanza {
  import opened Records

  type Stanza = map<string, string>

  /** `str.lower()` on one character, ASCII letters only. */
  function LowerChar(c: char): (r: char)
    ensures 'A' <= c <= 'Z' ==> r as int == c as int + 32
    ensures !('A' <= c <= 'Z') ==> r == c
  {
    if 'A' <= c <= 'Z' then (c as int + 32) as char else c
  }

  /** `str.lower()`, ASCII letters only. */
  function Lower(s: string): (r: string)
    ensures |r| == |s|
    ensures forall i :: 0 <= i < |s| ==> r[i] == LowerChar(s[i])
  {
    seq(|s|, i requires 0 <= i < |s| => LowerChar(s[i]))
  }

  /** Independent statement of "equals `true` ignoring case". */
  predicate SpellsTrue(v: string) {
    |v| == 4 && v[0] in "tT" && v[1] in "rR" && v[2] in "uU" && v[3] in "eE"
  }

  /** Independent statement of "equals `false` ignoring case". */
  predicate SpellsFalse(v: string) {
    |v| == 5 && v[0] in "fF" && v[1] in "aA" && v[2] in "lL" && v[3] in "sS" && v[4] in "eE"
  }

  lemma LowerIsTrue(v: string)
    ensures Lower(v) == "true" <==> SpellsTrue(v)
  {
    if SpellsTrue(v) {
      assert Lower(v) == [Lower(v)[0], Lower(v)[1], Lower(v)[2], Lower(v)[3]];
    }
    if Lower(v) == "true" {
      assert LowerChar(v[0]) == 't' && LowerChar(v[1]) == 'r';
      assert LowerChar(v[2]) == 'u' && LowerChar(v[3]) == 'e';
    }
  }

  lemma LowerIsFalse(v: string)
    ensures Lower(v) == "false" <==> SpellsFalse(v)
  {
    if SpellsFalse(v) {
      assert Lower(v) == [Lower(v)[0], Lower(v)[1], Lower(v)[2], Lower(v)[3], Lower(v)[4]];
    }
    if Lower(v) == "false" {
      assert LowerChar(v[0]) == 'f' && LowerChar(v[1]) == 'a' && LowerChar(v[2]) == 'l';
      assert LowerChar(v[3]) == 's' && LowerChar(v[4]) == 'e';
    }
  }

  /** `d[key].lower() == "true"`, or `None` when `d[key]` raises KeyError. */
  function Flag(d: Stanza, key: string): (r: Option<bool>)
    ensures r.None? <==> key !in d
    ensures r == Some(true) <==> key in d && SpellsTrue(d[key])
  {
    if key in d then
      LowerIsTrue(d[key]);
      Some(Lower(d[key]) == "true")
    else None
  }

  /** The symmetry argument: `is_antisymetric`, when present, decides it
      (symmetric exactly when the value is `false` ignoring case); otherwise
      `is_symmetric` does, with `False` folded into `None` by `symmetry or None`. */
  function Symmetry(d: Stanza): (r: Option<bool>)
    ensures "is_antisymetric" in d ==> r.Some? && (r.value <==> SpellsFalse(d["is_antisymetric"]))
    ensures "is_antisymetric" !in d ==> r != Some(false)
    ensures "is_antisymetric" !in d ==> (r == Some(true) <==> Flag(d, "is_symmetric") == Some(true))
  {
    if "is_antisymetric" in d then
      LowerIsFalse(d["is_antisymetric"]);
      Some(Lower(d["is_antisymetric"]) == "false")
    else if Flag(d, "is_symmetric") == Some(true) then Some(true)
    else None
  }

  /** The keyword arguments `_from_obo_dict` passes to the constructor:
      symmetry, transitivity, reflexivity and complementary; prefix,
      direction, comment and aliases stay at their defaults. */
  function StanzaParams(d: Stanza): (p: Params)
    ensures p.complementary == Some(if "inverse_of" in d then d["inverse_of"] else "")
    ensures p.transitivity.None? <==> "is_transitive" !in d
    ensures p.transitivity == Some(true) <==> "is_transitive" in d && SpellsTrue(d["is_transitive"])
    ensures p.reflexivity.None? <==> "is_reflexive" !in d
    ensures p.reflexivity == Some(true) <==> "is_reflexive" in d && SpellsTrue(d["is_reflexive"])
    ensures p.symmetry == Symmetry(d)
    ensures p.prefix.None? && p.direction.None? && p.comment.None? && p.aliases.None?
  {
    var complementary := if "inverse_of" in d then d["inverse_of"] else "";
    Params(Symmetry(d), Flag(d, "is_transitive"), Flag(d, "is_reflexive"),
           Some(complementary), None, None, None, None)
  }

  /** An `is_antisymetric: false` line with no `is_symmetric` line still
      yields a known symmetry. */
  lemma AntisymmetricOverride(d: Stanza)
    requires "is_antisymetric" in d && SpellsFalse(d["is_antisymetric"])
    ensures StanzaParams(d).symmetry == Some(true)
  {
  }

  /** The record built from a stanza stores the parsed reflexivity as its
      transitivity: the stanza's `is_transitive` line has no effect on it. */
  lemma StanzaTransitivityDropped(name: string, d: Stanza, v: string)
    ensures NewRecord(name, StanzaParams(d["is_transitive" := v])).transitivity
         == NewRecord(name, StanzaParams(d - {"is_transitive"})).transitivity
  {
    assert "is_reflexive" in d["is_transitive" := v] <==> "is_reflexive" in d - {"is_transitive"};
  }
}
