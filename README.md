# pronto relationships, modelled in Dafny

This project models the memoizing relationship registry of the `pronto`
ontology library (`pronto/relationship.py`). The parts modelled are:

- the class-level ordered dictionary `Relationship._instances`, which maps
  every relationship name and alias to one record object;
- the get-or-create constructor: `__new__` plus the guarded `__init__`,
  including the alias loop;
- `complement`, `topdown` and `bottomup`;
- pickling a relationship as its bare name;
- `_from_obo_dict`, which turns an OBO `[Typedef]` stanza into a
  constructor call;
- the six relationships the module registers when it is imported.

Files:

- `records.dfy` (module `Records`): the record a `Relationship` carries
  and the keyword arguments of its constructor. `NewRecord` is what
  `__init__` stores.
- `stanza.dfy` (module `OboStanza`): the straight-line parsing half of
  `_from_obo_dict`. A stanza is a string-to-string map.
- `registry.dfy` (module `Registry`):
  - the registry as a value `State(records, keys, entry)`. `records` holds
    every object created so far, and an object's identity is its index.
    `keys` is the insertion order of `_instances`, and `entry` is the
    mapping;
  - the pure specification `Create` of a constructor call, and the queries
    `Complement`, `TopDown`, `BottomUp`, `Encode` and `Decode`;
  - the class `Instances`, whose fields the methods update in place.
    `GetOrCreate` and `FromOboDict` are proved against `Create`.
    `SetItem` is proved against `Register`, and the alias loop
    `SetAliases` against `RegisterAll`.
- `seed.dfy` (module `Seed`): the import-time registrations. `Import` runs
  the six constructor calls on a fresh `Instances` and ends in the state
  `Seeded`, written out key by key. The docstring examples are then proved
  about `Seeded`.

Behaviour kept exactly as the code has it:

- `__init__` stores the `reflexivity` argument as `transitivity`
  (line 91), so the `transitivity` argument is never stored.
  `has_units` and `has_domain` were declared `transitivity=False`, and
  each ends up with transitivity `None`.
- An alias is assigned with `_instances[alias] = self` (line 100). An
  alias that is already a key is overwritten and keeps its position in
  the ordered dictionary. It is not skipped. The older record then no
  longer resolves through that name (`Registry.AliasTakesOverName`,
  `Seed.AliasOverwriteLosesIdentity`).
- The `ValueError` raised by `complement` carries the literal,
  unformatted message `{} has a complementary but it was not defined !`
  (line 128).
- In `_from_obo_dict`, an `is_antisymetric` line decides the symmetry on
  its own. Without one, a symmetry of `False` becomes `None` through
  `symmetry or None` (lines 256-259).
- A stanza without an `id` raises `KeyError` before anything else
  (line 233).
- Unpickling calls `__new__` with the name only, and `__setstate__` does
  nothing. A name that is not registered therefore produces a blank
  object, which is neither registered nor initialised (`Registry.Decode`
  returns `Blank`).

## Model

| member | source | states |
|---|---|---|
| Records.NewRecord | pronto/relationship.py:88-97 | The new record carries the given name, symmetry and reflexivity. It stores the reflexivity argument as its transitivity. A given complementary, prefix, direction, comment or alias list is stored as it is. A missing string argument becomes `''`, and missing aliases become `[]`. |
| Records.TransitivityArgumentIgnored | pronto/relationship.py:90-92 | Two constructor calls that differ only in the transitivity argument build the same record. |
| OboStanza.Flag | pronto/relationship.py:241-254 | A flag is absent exactly when its key is missing. It is `True` exactly when the value spells `true` ignoring case. |
| OboStanza.Symmetry | pronto/relationship.py:246-259 | With `is_antisymetric` present, the symmetry is known and is true exactly when that value spells `false` ignoring case. Without it, the symmetry is never `False`, and it is `True` exactly when `is_symmetric` is true. |
| OboStanza.StanzaParams | pronto/relationship.py:236-262 | Gives each constructor argument the stanza yields: `inverse_of` or `''` as the complementary, the transitive and reflexive flags, and the symmetry above. Every other argument is left at its default. |
| OboStanza.AntisymmetricOverride | pronto/relationship.py:256-257 | `is_antisymetric: false` gives a symmetric relationship even with no `is_symmetric` line. |
| OboStanza.StanzaTransitivityDropped | pronto/relationship.py:241-262 | The record built from a stanza has the same transitivity whatever its `is_transitive` line says, and whether or not the line is there. |
| Registry.Register | pronto/relationship.py:98 | OrderedDict assignment. The key maps to the record. A new key goes to the end of the order, and an existing key keeps its position. The dictionary stays well formed. |
| Registry.RegisterAll | pronto/relationship.py:99-100 | The alias loop keeps the dictionary well formed and creates no record. |
| Registry.RegisterAllAliases | pronto/relationship.py:99-100 | After the alias loop, every alias maps to the record. |
| Registry.RegisterAllKeeps | pronto/relationship.py:99-100 | The alias loop leaves every key that is not an alias mapped as before. |
| Registry.RegisterAllNoOthers | pronto/relationship.py:99-100 | The alias loop adds no key other than the aliases. |
| Registry.RegisterAllKeys | pronto/relationship.py:99-100 | Keys present before the alias loop keep their positions. |
| Registry.AppendedKeys | pronto/relationship.py:99-100 | The keys an assignment loop appends are exactly the looped keys not yet present, each once. |
| Registry.AppendedKeysOrder | pronto/relationship.py:99-100 | Those appended keys come in the order of their first occurrence in the loop. |
| Registry.RegisterAllKeyOrder | pronto/relationship.py:99-100 | After the alias loop the key order is the old keys followed by exactly the appended keys. |
| Registry.Build | pronto/relationship.py:88-100 | The creating branch of `__init__` keeps the dictionary well formed. |
| Registry.BuildEntries | pronto/relationship.py:88-100 | After creation the new record is stored last, and its name and every alias map to it. Every other old key is unchanged, and no other key appears. |
| Registry.BuildKeys | pronto/relationship.py:98-100 | A new name is placed right after the old keys, which keep their order. |
| Registry.BuildNames | pronto/relationship.py:88-98 | Every record's name remains a key, and no two records share a name. |
| Registry.Create | pronto/relationship.py:88-100 | A registered name returns its record and changes nothing. Otherwise: one record is appended and returned; its name and aliases map to it; other keys keep their mapping; no other key appears; the name goes to the end of the key order. The registry stays well formed. |
| Registry.CreateWithoutAliases | pronto/relationship.py:88-98 | Creating a new name with no aliases appends exactly one record and one key. |
| Registry.CreateKeyOrder | pronto/relationship.py:88-100 | After creating a new name, the key order is the old keys, then the name, then each alias not yet a key, once, in first-occurrence order. |
| Registry.CreateWithOneAlias | pronto/relationship.py:88-100 | Creating a new name with one fresh alias appends one record, then the name and the alias in that order. |
| Registry.CreateIdempotent | pronto/relationship.py:158-159 | Constructing the same name again, with any arguments, returns the same record and leaves the registry unchanged. |
| Registry.CreateByAlias | pronto/relationship.py:158-159 | Constructing by an alias of a record just created returns that record and changes nothing. |
| Registry.CreateKeepsCanonical | pronto/relationship.py:88-100 | When none of the new aliases is an existing key, every record still resolves to itself by its name and by each of its aliases. |
| Registry.Complement | pronto/relationship.py:122-131 | No complement exactly when `complementary` is empty. Otherwise the result is the record registered under that name. The result is a `ValueError` with the unformatted message exactly when that name is not registered. |
| Registry.ComplementPaired | pronto/relationship.py:114-118 | Two canonical records that name each other as complementary are each other's complement. |
| Registry.Values | pronto/relationship.py:180 | `_instances.values()`: one value per key, in key order. |
| Registry.ValuesCover | pronto/relationship.py:180 | The values walked are exactly the records some key maps to. |
| Registry.Directed | pronto/relationship.py:180 | The generator filter plus `unique_everseen`. It returns no more items than it walked, and every item is one of the walked values whose record has the direction. |
| Registry.DirectedMembers | pronto/relationship.py:180 | The filtered values are exactly those whose record has the direction. |
| Registry.DirectedDistinct | pronto/relationship.py:180 | `unique_everseen` lists each record once. |
| Registry.DirectedOrder | pronto/relationship.py:180 | Records are listed in the order of their first occurrence among the values. |
| Registry.DirectedSpec | pronto/relationship.py:180 | The three facts above together. |
| Registry.ByDirection | pronto/relationship.py:180 | The listing both class methods return: exactly the registered records with the direction, each once, ordered by first occurrence in `_instances.values()`. |
| Registry.TopDown | pronto/relationship.py:180 | `topdown()` is that listing for `'topdown'`. |
| Registry.BottomUp | pronto/relationship.py:196 | `bottomup()` is that listing for `'bottomup'`. |
| Registry.DirectionsDisjoint | pronto/relationship.py:165-196 | No record is returned by both `topdown()` and `bottomup()`. |
| Registry.Encode | pronto/relationship.py:224-225 | A record is pickled as its name alone. In a canonical registry that name resolves back to the record. |
| Registry.Decode | pronto/relationship.py:158-161 | Unpickling gives the record registered under the name, and a blank object exactly when the name is not registered. |
| Registry.DecodeIsConstructorLookup | pronto/relationship.py:158-161 | Unpickling a registered name gives exactly the record the constructor returns for it. Unpickling an unregistered name gives a blank object, while the constructor would create a new record. |
| Registry.PickleRoundTrip | pronto/relationship.py:28-48 | In a canonical registry, pickling a record as its name and unpickling it gives back the same record. |
| Registry.AliasTakesOverName | pronto/relationship.py:99-100 | An alias equal to an existing record's name takes that key over. The old record then unpickles to the new one, and the registry is no longer canonical. |
| Registry.Instances.constructor | pronto/relationship.py:53 | `_instances` starts empty. |
| Registry.Instances.SetItem | pronto/relationship.py:98 | An in-place assignment whose new state is `Register` of the old state. |
| Registry.Instances.SetAliases | pronto/relationship.py:99-100 | The in-place alias loop, whose final state is `RegisterAll` of the old state. |
| Registry.Instances.GetOrCreate | pronto/relationship.py:88-100 | In-place construction: the new state and the returned record are those of `Create`. A registered name changes nothing, and otherwise exactly the new record is appended. |
| Registry.Instances.FromOboDict | pronto/relationship.py:231-262 | A stanza with no `id` gives `KeyError('id')` and changes nothing. A registered id returns its record unchanged. Otherwise the result is the constructor call with the parsed arguments. |
| Seed.Import | pronto/relationship.py:266-285 | The six import-time calls, run in place on an empty registry, produce exactly `Seeded`. |
| Seed.SeededValues | pronto/relationship.py:266-285 | After import, `_instances.values()` walks the records 0, 1, 2, 3, 3, 4, 5. `is_part` repeats `part_of`. |
| Seed.SeededCanonical | pronto/relationship.py:266-285 | No seed alias collides with a key, so every seeded record resolves to itself. |
| Seed.SeedTopDown | pronto/relationship.py:173-177 | After import, `topdown()` is `can_be` then `has_part`. |
| Seed.SeedBottomUp | pronto/relationship.py:189-193 | After import, `bottomup()` is `is_a` then `part_of`, listed once although `is_part` also maps to it. |
| Seed.SeedComplements | pronto/relationship.py:114-118 | `is_a` and `can_be` are each other's complement, and so are `has_part` and `part_of`. `has_units` and `has_domain` have none. |
| Seed.SeedPickleRoundTrip | pronto/relationship.py:38-48 | Every seeded record, `is_a` among them, comes back as the same record after a pickle round trip. |
| Seed.SeedAlias | pronto/relationship.py:278-280 | `is_part` resolves to the `part_of` record, which lists it as its alias. |
| Seed.SeedTransitivity | pronto/relationship.py:282-285 | `has_units` and `has_domain` were declared non-transitive but store no transitivity. `is_a` stores its reflexivity `True`. |
| Seed.AliasOverwriteLosesIdentity | pronto/relationship.py:99-100 | After import, `Relationship('subclass_of', aliases=['is_a'])` takes over the key `is_a`, so the original `is_a` record no longer survives a pickle round trip. |

## Left out

- The multiprocessing and threading locks (lines 54-55, 198-219) and any concurrent use of the registry: the model is single-threaded.
- `__getstate__` and `__setstate__` (lines 221-228) do nothing and are not modelled. Pickle protocol versions are not modelled either: unpickling is modelled as the `__new__(cls, name)` call that protocol 2 and later make.
- `__repr__` (lines 133-135) is formatting only and is not modelled.
- `unique_everseen` comes from `pronto/utils`, which is not part of this model. `Directed` models it by its documented behaviour: keep the first occurrence, compared by identity.
- `Term.children`, which reads the directions, is not part of this model.
- No operation clears or resets `_instances`, and the model has none.
- Shared alias lists: `self.aliases = aliases` (line 97) keeps the caller's list object. A later change to that list would change the record's `aliases` without registering anything. Records here are values, and `aliases` is a `seq`, so this sharing is not modelled.
- OboStanza.Lower: models `str.lower()` on ASCII letters only. Non-ASCII case mappings are not modelled. No non-ASCII character lower-cases to a letter of `true` or `false`, so the flag comparisons come out the same.
