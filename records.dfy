/** The relationship record and the arguments its constructor takes
    (pronto/relationship.py, class Relationship). */
module Records {

  datatype Option<+T> = None | Some(value: T)

  /** The two exceptions the relationship code raises. */
  datatype Error =
    | KeyError(key: string)
    | ValueError(message: string)

  datatype Result<+T> = Ok(value: T) | Err(error: Error)

  /** Identity of a record: its position in the registry's record store.
      Two references to a relationship are the same object exactly when
      their ids are equal. */
  type RelId = nat

  /** The fields a Relationship object carries once `__init__` has filled
      it in. A tri-state flag is `Some(true)`, `Some(false)` or `None`;
      `direction` is `""` when no direction was given. */
  datatype RelData = RelData(
    oboName: string,
    symmetry: Option<bool>,
    transitivity: Option<bool>,
    reflexivity: Option<bool>,
    complementary: string,
    prefix: string,
    direction: string,
    comment: string,
    aliases: seq<string>)

  /** The keyword arguments of `Relationship(obo_name, ...)`; `None` stands
      for an argument left at its default `None`. */
  datatype Params = Params(
    symmetry: Option<bool>,
    transitivity: Option<bool>,
    reflexivity: Option<bool>,
    complementary: Option<string>,
    prefix: Option<string>,
    direction: Option<string>,
    comment: Option<string>,
    aliases: Option<seq<string>>)

  /** Every argument left at its default. */
  const NoParams := Params(None, None, None, None, None, None, None, None)

  /** Python's `s or ''` for a string-or-None argument. */
  function OrEmpty(s: Option<string>): (r: string)
    ensures s.Some? ==> r == s.value
    ensures s.None? ==> r == ""
  {
    match s
    case None => ""
    case Some(v) => v
  }

  /** Python's `aliases or list()`. */
  function OrNoAliases(a: Option<seq<string>>): (r: seq<string>)
    ensures a.Some? ==> r == a.value
    ensures a.None? ==> r == []
  {
    match a
    case None => []
    case Some(v) => v
  }

  /** The record `__init__` builds for a name that is not yet registered.
      The `transitivity` field receives the `reflexivity` argument: the
      `transitivity` argument is never stored. */
  function NewRecord(name: string, p: Params): (r: RelData)
    ensures r.oboName == name
    ensures r.symmetry == p.symmetry && r.reflexivity == p.reflexivity
    ensures r.transitivity == p.reflexivity
    ensures p.complementary.Some? ==> r.complementary == p.complementary.value
    ensures p.prefix.Some? ==> r.prefix == p.prefix.value
    ensures p.direction.Some? ==> r.direction == p.direction.value
    ensures p.comment.Some? ==> r.comment == p.comment.value
    ensures p.aliases.Some? ==> r.aliases == p.aliases.value
    ensures p.complementary.None? ==> r.complementary == ""
    ensures p.prefix.None? ==> r.prefix == ""
    ensures p.direction.None? ==> r.direction == ""
    ensures p.comment.None? ==> r.comment == ""
    ensures p.aliases.None? ==> r.aliases == []
  {
    RelData(name, p.symmetry, p.reflexivity, p.reflexivity,
            OrEmpty(p.complementary), OrEmpty(p.prefix), OrEmpty(p.direction),
            OrEmpty(p.comment), OrNoAliases(p.aliases))
  }

  /** The stored transitivity never depends on the transitivity argument:
      two calls that differ only in it build the same record. */
  lemma TransitivityArgumentIgnored(name: string, p: Params, t: Option<bool>)
    ensures NewRecord(name, p.(transitivity := t)) == NewRecord(name, p)
  {
  }
}
