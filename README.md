# malmoext domain vocabulary in Dafny

This project models `src/malmoext/types.py` of malmoext. That module holds the domain vocabulary of a Minecraft agent environment:

- the records `Vector` and `Entity`;
- the enums `AgentType`, `TimeOfDay`, `Direction`, `Inventory.HotBar`, `Inventory.Player`, `Inventory.Armor`, `Mob` and `Block`;
- the plain class `Item`;
- the classification sets `HOSTILE_MOBS`, `PEACEFUL_MOBS`, `FOOD_MOBS` and `FOOD_ITEMS`.

Every enum inherits one piece of behaviour from `ReflectiveEnum`: the class method `contains`. `Item` is a plain class, not an enum, and has no `contains`. When the candidate is a `str`, `contains` looks it up in the enum's value table. Otherwise it looks up the candidate's `.value`.

Modules:

- `Vocabularies` (vocabularies.dfy): AgentType, TimeOfDay, Direction and the three inventory enums. Each is a datatype, a function giving each member's `.value`, and a set of all members.
- `Mobs` (mobs.dfy): the 47 mobs, whose values are their own names. It also has a lookup by name, used to prove that the names are distinct and capitalised.
- `Blocks` (block.dfy): the Block enum, given by the set of its 236 values.
- `Items` (item.dfy): the 207 strings the Item class defines.
- `Taxonomy` (taxonomy.dfy): `contains`, over every enum and every kind of candidate (a raw string, an object without a `.value` attribute, or a member of any enum), with the properties proved about it.
- `Classification` (classification.dfy): the four classification sets.
- `Records` (records.dfy): `Vector` and `Entity`.

Four facts about the code shape the model:

- **A candidate that is not a `str` and has no `.value` attribute.** Line 20 reads `toCheck.value`, so such a candidate, an `int` for instance, raises `AttributeError`. The model returns `Raises(AttributeError)`.
- **A member of another enum.** `contains` accepts a member of any enum and compares its value alone. So `TimeOfDay.contains(Direction.South)` is true, and `Block.contains(Mob.Slime)` is false.
- **Entity validation.** The `Entity` namedtuple at line 6 validates nothing. An unknown kind and a negative quantity are stored as given.
- **Coverage of the hostile and peaceful lists.** Together, HOSTILE_MOBS and PEACEFUL_MOBS list all 47 mobs.

## Model

| member | source | states |
|---|---|---|
| Taxonomy.Contains | src/malmoext/types.py:15-20 | `contains` raises AttributeError exactly when the candidate is neither a `str` nor has a `.value`; it returns a boolean otherwise |
| Taxonomy.InValueTable | src/malmoext/types.py:18-20 | the test `x in cls._value2member_map_`; a value found in the table of an integer enum is an integer, and one found in the table of a string enum is a string |
| Taxonomy.ValueOf | src/malmoext/types.py:20 | `toCheck.value` for a member; it is an integer exactly for the members of TimeOfDay, Direction, HotBar, Player and Armor |
| Vocabularies.AgentTypeValue | src/malmoext/types.py:24-28 | the values of AgentType, "CPU" and "Human", are non-empty and capitalised |
| Vocabularies.TimeOfDayValue | src/malmoext/types.py:32-38 | every TimeOfDay value is a multiple of 6000 from 0 to 18000 |
| Vocabularies.DirectionValue | src/malmoext/types.py:42-48 | every Direction value is a multiple of 90 from -90 to 180 |
| Vocabularies.HotBarValue | src/malmoext/types.py:55-66 | every HotBar value lies from 0 to 8 |
| Vocabularies.PlayerValue | src/malmoext/types.py:68-97 | every Player value lies from 9 to 35 |
| Vocabularies.ArmorValue | src/malmoext/types.py:99-105 | every Armor value lies from 36 to 39 |
| Mobs.MobValue | src/malmoext/types.py:108-157 | fixes each of the 47 mob values as the member's own name; the lemmas below state its properties |
| Blocks.IsBlockValue | src/malmoext/types.py:466-704 | fixes the 236 Block values; the lemmas below state their properties |
| Items.IsItemValue | src/malmoext/types.py:223-432 | fixes the 207 string attributes of Item |
| Classification.IsFoodItem | src/malmoext/types.py:434-462 | fixes the 27 strings of FOOD_ITEMS; FoodItemsAreItems states their property |
| Classification.HostileMobs | src/malmoext/types.py:159-186 | fixes the 26 mobs of HOSTILE_MOBS; HostileOrPeaceful and HostileAndPeacefulPartitionMobs state their property |
| Classification.PeacefulMobs | src/malmoext/types.py:188-210 | fixes the 21 mobs of PEACEFUL_MOBS; HostileOrPeaceful and HostileAndPeacefulPartitionMobs state their property |
| Classification.FoodMobs | src/malmoext/types.py:212-219 | fixes the 6 mobs of FOOD_MOBS; FoodMobsArePeaceful states their property |
| Records.Vector | src/malmoext/types.py:5 | a record of three reals x, y, z; the constructor checks nothing |
| Records.Entity | src/malmoext/types.py:6 | a record of id, kind, position and quantity; the constructor checks nothing, as EntityIsNotValidated shows |
| Taxonomy.ValueTableHoldsMemberValues | src/malmoext/types.py:18 | a value is in an enum's `_value2member_map_` iff some member of that enum carries it |
| Taxonomy.MemberWithTableValue | src/malmoext/types.py:18 | every value in the table belongs to a member of that enum, and the lemma returns that member |
| Taxonomy.MemberValueInTable | src/malmoext/types.py:18 | every member's own value is in its enum's table |
| Taxonomy.ValuesIdentifyMembers | src/malmoext/types.py:18-20 | within one enum, two members with the same value are the same member, so the table has no aliases |
| Taxonomy.ContainsString | src/malmoext/types.py:17-18 | for a `str`, `contains` returns true iff some member of the enum has that string as its value |
| Taxonomy.ContainsMemberByValue | src/malmoext/types.py:19-20 | for a member of any enum, `contains` returns true iff some member of the receiving enum has the same value; the argument's own enum plays no part |
| Taxonomy.ContainsOwnMembers | src/malmoext/types.py:15-20 | every enum contains each of its members and, for string-valued enums, each member's value |
| Taxonomy.IntEnumsRejectStrings | src/malmoext/types.py:17-18 | TimeOfDay, Direction, HotBar, Player and Armor return false for every string |
| Taxonomy.FoundMemberIsUnique | src/malmoext/types.py:19-20 | when `contains` returns true for a member, exactly one member of the receiving enum has its value |
| Taxonomy.CowIsAMob | src/malmoext/types.py:115 | `Mob.contains("Cow")` is true |
| Taxonomy.UnknownNamesAreNotMobs | src/malmoext/types.py:108-157 | `Mob.contains(s)` is false for every string the lookup by name does not find |
| Taxonomy.LowercaseCowIsNotAMob | src/malmoext/types.py:115 | `Mob.contains("cow")` is false, because the lookup is case-sensitive |
| Taxonomy.DragonIsNotAMob | src/malmoext/types.py:119 | `Mob.contains("Dragon")` is false, because the member's value is "EnderDragon" |
| Taxonomy.MobsAreNotBlocks | src/malmoext/types.py:108-157 | Block contains no mob, whether it is given as a member or by its value |
| Taxonomy.BlocksAreNotMobs | src/malmoext/types.py:466-704 | Mob contains no block value, whether it is given as a member or as a string |
| Taxonomy.SlimeMobIsNotABlock | src/malmoext/types.py:142 | `Block.contains(Mob.Slime)` is false, because the block's value is "slime" and not "Slime" |
| Taxonomy.SlimeIsABlock | src/malmoext/types.py:655 | `Block.contains("slime")` is true |
| Taxonomy.CakeItemIsABlock | src/malmoext/types.py:251 | `Item.cake` is the plain string "cake", and Block contains it |
| Taxonomy.IntegerValuesCrossEnums | src/malmoext/types.py:32-66 | integer enums compare bare numbers: TimeOfDay contains Direction.South, HotBar contains TimeOfDay.Dawn, and Direction does not contain TimeOfDay.Midnight |
| Taxonomy.InventorySlotRanges | src/malmoext/types.py:55-105 | HotBar holds exactly the slot numbers 0 to 8, Player 9 to 35, and Armor 36 to 39 |
| Taxonomy.InventorySlotsPartition | src/malmoext/types.py:52-105 | every number from 0 to 39 is a slot of exactly one inventory enum; no other number is a slot of any |
| Vocabularies.ValuesAreDistinct | src/malmoext/types.py:24-105 | AgentType, TimeOfDay, Direction, HotBar, Player and Armor each carry pairwise different values |
| Vocabularies.TimesOfDayAscend | src/malmoext/types.py:32-38 | every TimeOfDay member is listed in declaration order, and along that order the tick values strictly increase |
| Vocabularies.HotBarWithValue | src/malmoext/types.py:55-66 | every number from 0 to 8 is the value of a HotBar member |
| Vocabularies.PlayerWithValue | src/malmoext/types.py:68-97 | every number from 9 to 35 is the value of a Player member |
| Vocabularies.ArmorWithValue | src/malmoext/types.py:99-105 | every number from 36 to 39 is the value of an Armor member |
| Mobs.LookupFindsEveryMob | src/malmoext/types.py:108-157 | looking up a mob's value by name finds that same mob |
| Mobs.MobValuesAreDistinct | src/malmoext/types.py:108-157 | two mobs have the same value iff they are the same mob |
| Mobs.LookupHitsCapitalised | src/malmoext/types.py:108-157 | the name lookup finds only strings that start with a capital letter |
| Mobs.MobValuesCapitalised | src/malmoext/types.py:108-157 | every mob value is non-empty and starts with a capital letter |
| Blocks.BlockValuesLowercase | src/malmoext/types.py:466-704 | every block value is non-empty and starts with a lowercase letter |
| Blocks.CapitalisedIsNotABlockValue | src/malmoext/types.py:466-704 | no string that starts with a capital letter is a block value |
| Classification.HostileOrPeaceful | src/malmoext/types.py:159-210 | a mob is in HOSTILE_MOBS exactly when it is not in PEACEFUL_MOBS |
| Classification.HostileAndPeacefulPartitionMobs | src/malmoext/types.py:159-210 | HOSTILE_MOBS and PEACEFUL_MOBS are disjoint, together they hold every mob, and their sizes add up to the number of mobs |
| Classification.FoodMobsArePeaceful | src/malmoext/types.py:212-219 | FOOD_MOBS has six mobs, all of them in PEACEFUL_MOBS and none in HOSTILE_MOBS |
| Classification.FoodItemsAreItems | src/malmoext/types.py:434-462 | every string in FOOD_ITEMS is an attribute value of Item |
| Records.CowEntityIsFood | src/malmoext/types.py:6 | an Entity whose type is Mob.Cow has a kind that `Mob.contains` accepts, that is in FOOD_MOBS and not in HOSTILE_MOBS |
| Records.EntityIsNotValidated | src/malmoext/types.py:6 | an Entity built with the unknown kind "NotAMob" and quantity -1 keeps both unchanged, and `Mob.contains` on that kind returns false |

## Left out

- Python's `Enum` machinery is not modelled: metaclass checks, iteration order, `name` lookup by `Mob["Cow"]`, and pickling. A member is its datatype constructor together with the function that gives its value. The one exception is TimeOfDay: its declaration order is kept as `Vocabularies.TimesOfDayInOrder`, and `TimesOfDayAscend` is stated over it.
- The members `_0` … `_35` of the inventory enums are named `Slot0` … `Slot35`, because a Dafny name cannot start with an underscore.
- Every object that is not a `str` and has no `.value` attribute, such as an `int`, `None` or a list, is represented by `NoValue`, and raises `AttributeError`.
- Objects that are not members of the eight enums but do have a `.value` attribute are not modelled. Line 20 looks their value up rather than raising. A member of some other Enum is one example; an object whose `.value` is unhashable, which raises TypeError, is another.
- Blocks.IsBlockValue: Block members are identified with their value strings, so the names of the 236 members are not modelled. That the 236 declared values are pairwise different is not proved. `Taxonomy.ValuesIdentifyMembers` holds for Block only because of this identification.
- `Item` has no `contains`, because the source defines none. Its attribute names are not modelled separately from their values, which are equal.
- Classification.HostileAndPeacefulPartitionMobs: the literal sizes 26, 21 and 47 of HOSTILE_MOBS, PEACEFUL_MOBS and `Mob` are not proved. Only their relation is: the sizes of the two lists add up to the number of mobs.
- Classification.FoodItemsAreItems: the literal size 27 of FOOD_ITEMS is not stated.
- Mobs.LookupFindsEveryMob: the lookup by name is stated only in the direction member → name → member. The converse, that every name it finds is that mob's value, is not stated.
- Vocabularies.TimesOfDayAscend: the 24000-tick length of a game day does not appear in the source. The only bound stated is the declared range 0 to 18000, given by `Vocabularies.TimeOfDayValue`.
- `Vector` coordinates are modelled as `real`, not as floating point. The namedtuple accepts values of any type.
- The `Entity` field called `type` in the source is called `kind` here, because `type` is a Dafny keyword. The namedtuple accepts objects of any type in every field. The model types `id` as `string`, `kind` as a `contains` candidate, `position` as `Vector` and `quantity` as `int`. Within those types it accepts every value.
