/** The closed vocabularies of src/malmoext/types.py that are Python enums
  * with a constructor per member: AgentType, TimeOfDay, Direction, the three
  * inventory enums nested in Inventory.
  *
  * Each enum is a datatype whose constructors are listed in declaration
  * order, a function giving each member's `.value`, and a constant holding
  * every member (what iterating over the enum yields).  The members `_0` ...
  * `_35` of the inventory enums are spelled `Slot0` ... `Slot35`, because a
  * Dafny name cannot start with an underscore. */
module Vocabularies {

  // ---------------------------------------------------------------- AgentType

  /** Whether an agent is scripted or human-controlled. */
  datatype AgentType = CPU | Human

  /** The agent types carry their own names. */
  function AgentTypeValue(a: AgentType): (s: string)
    ensures |s| > 0 && 'A' <= s[0] <= 'Z'
  {
    match a
    case CPU => "CPU"
    case Human => "Human"
  }

  const AllAgentTypes: set<AgentType> := {CPU, Human}

  // ---------------------------------------------------------------- TimeOfDay

  /** Tick marks within the game's day. */
  datatype TimeOfDay = Dawn | Noon | Sunset | Midnight

  /** The day marks lie a quarter of the way apart, from tick 0 to 18000. */
  function TimeOfDayValue(t: TimeOfDay): (n: int)
    ensures 0 <= n <= 18000 && n % 6000 == 0
  {
    match t
    case Dawn => 0
    case Noon => 6000
    case Sunset => 12000
    case Midnight => 18000
  }

  const AllTimesOfDay: set<TimeOfDay> := {Dawn, Noon, Sunset, Midnight}

  /** The members in the order the enum declares them. */
  const TimesOfDayInOrder: seq<TimeOfDay> := [Dawn, Noon, Sunset, Midnight]

  // ---------------------------------------------------------------- Direction

  /** Compass directions, each carrying an angle in degrees. */
  datatype Direction = North | East | South | West

  /** The directions lie a right angle apart, from -90 to 180 degrees. */
  function DirectionValue(d: Direction): (n: int)
    ensures -90 <= n <= 180 && n % 90 == 0
  {
    match d
    case North => 180
    case East => -90
    case South => 0
    case West => 90
  }

  const AllDirections: set<Direction> := {North, East, South, West}

  // ---------------------------------------------------------------- Inventory

  /** Inventory.HotBar: the nine hot-bar slots. */
  datatype HotBar =
    Slot0 | Slot1 | Slot2 | Slot3 | Slot4 | Slot5 | Slot6 | Slot7 | Slot8

  /** The hot bar takes the slot numbers 0 to 8. */
  function HotBarValue(h: HotBar): (n: int)
    ensures 0 <= n <= 8
  {
    match h
    case Slot0 => 0
    case Slot1 => 1
    case Slot2 => 2
    case Slot3 => 3
    case Slot4 => 4
    case Slot5 => 5
    case Slot6 => 6
    case Slot7 => 7
    case Slot8 => 8
  }

  const AllHotBarSlots: set<HotBar> :=
    {Slot0, Slot1, Slot2, Slot3, Slot4, Slot5, Slot6, Slot7, Slot8}

  /** Inventory.Player: the storage slots, hot bar excluded. */
  datatype Player =
    Slot9 | Slot10 | Slot11 | Slot12 | Slot13 | Slot14 | Slot15 | Slot16 | Slot17 |
    Slot18 | Slot19 | Slot20 | Slot21 | Slot22 | Slot23 | Slot24 | Slot25 | Slot26 |
    Slot27 | Slot28 | Slot29 | Slot30 | Slot31 | Slot32 | Slot33 | Slot34 | Slot35

  /** Storage takes the slot numbers 9 to 35. */
  function PlayerValue(p: Player): (n: int)
    ensures 9 <= n <= 35
  {
    match p
    case Slot9 => 9
    case Slot10 => 10
    case Slot11 => 11
    case Slot12 => 12
    case Slot13 => 13
    case Slot14 => 14
    case Slot15 => 15
    case Slot16 => 16
    case Slot17 => 17
    case Slot18 => 18
    case Slot19 => 19
    case Slot20 => 20
    case Slot21 => 21
    case Slot22 => 22
    case Slot23 => 23
    case Slot24 => 24
    case Slot25 => 25
    case Slot26 => 26
    case Slot27 => 27
    case Slot28 => 28
    case Slot29 => 29
    case Slot30 => 30
    case Slot31 => 31
    case Slot32 => 32
    case Slot33 => 33
    case Slot34 => 34
    case Slot35 => 35
  }

  const AllPlayerSlots: set<Player> :=
    {Slot9, Slot10, Slot11, Slot12, Slot13, Slot14, Slot15, Slot16, Slot17, Slot18, Slot19,
     Slot20, Slot21, Slot22, Slot23, Slot24, Slot25, Slot26, Slot27, Slot28, Slot29,
     Slot30, Slot31, Slot32, Slot33, Slot34, Slot35}

  /** Inventory.Armor: the four slots that hold equipped armour. */
  datatype Armor = Boots | Leggings | Chestplate | Helmet

  /** Armour takes the slot numbers 36 to 39. */
  function ArmorValue(a: Armor): (n: int)
    ensures 36 <= n <= 39
  {
    match a
    case Boots => 36
    case Leggings => 37
    case Chestplate => 38
    case Helmet => 39
  }

  const AllArmorSlots: set<Armor> := {Boots, Leggings, Chestplate, Helmet}

  // ---------------------------------------------------------------- facts

  /** Every member of every enum is listed in its `All...` constant. */
  lemma AgentTypeListed(a: AgentType)
    ensures a in AllAgentTypes
  {
  }

  lemma TimeOfDayListed(t: TimeOfDay)
    ensures t in AllTimesOfDay
  {
  }

  lemma DirectionListed(d: Direction)
    ensures d in AllDirections
  {
  }

  lemma HotBarListed(h: HotBar)
    ensures h in AllHotBarSlots
  {
  }

  lemma PlayerListed(p: Player)
    ensures p in AllPlayerSlots
  {
  }

  lemma ArmorListed(a: Armor)
    ensures a in AllArmorSlots
  {
  }

  /** No enum has aliases: two members with the same value are the same member. */
  lemma ValuesAreDistinct()
    ensures forall a, b: AgentType :: AgentTypeValue(a) == AgentTypeValue(b) ==> a == b
    ensures forall a, b: TimeOfDay :: TimeOfDayValue(a) == TimeOfDayValue(b) ==> a == b
    ensures forall a, b: Direction :: DirectionValue(a) == DirectionValue(b) ==> a == b
    ensures forall a, b: HotBar :: HotBarValue(a) == HotBarValue(b) ==> a == b
    ensures forall a, b: Player :: PlayerValue(a) == PlayerValue(b) ==> a == b
    ensures forall a, b: Armor :: ArmorValue(a) == ArmorValue(b) ==> a == b
  {
  }

  /** Every day mark is listed, and in declaration order the tick values
    * strictly increase. */
  lemma TimesOfDayAscend(t: TimeOfDay)
    ensures t in TimesOfDayInOrder
    ensures forall i, j :: 0 <= i < j < |TimesOfDayInOrder| ==>
      TimeOfDayValue(TimesOfDayInOrder[i]) < TimeOfDayValue(TimesOfDayInOrder[j])
  {
  }

  /** The hot-bar slot whose value is `n`. */
  function HotBarWithValue(n: int): (h: HotBar)
    requires 0 <= n <= 8
    ensures HotBarValue(h) == n
  {
    match n
    case 0 => Slot0
    case 1 => Slot1
    case 2 => Slot2
    case 3 => Slot3
    case 4 => Slot4
    case 5 => Slot5
    case 6 => Slot6
    case 7 => Slot7
    case 8 => Slot8
  }

  /** The storage slot whose value is `n`. */
  function PlayerWithValue(n: int): (p: Player)
    requires 9 <= n <= 35
    ensures PlayerValue(p) == n
  {
    match n
    case 9 => Slot9
    case 10 => Slot10
    case 11 => Slot11
    case 12 => Slot12
    case 13 => Slot13
    case 14 => Slot14
    case 15 => Slot15
    case 16 => Slot16
    case 17 => Slot17
    case 18 => Slot18
    case 19 => Slot19
    case 20 => Slot20
    case 21 => Slot21
    case 22 => Slot22
    case 23 => Slot23
    case 24 => Slot24
    case 25 => Slot25
    case 26 => Slot26
    case 27 => Slot27
    case 28 => Slot28
    case 29 => Slot29
    case 30 => Slot30
    case 31 => Slot31
    case 32 => Slot32
    case 33 => Slot33
    case 34 => Slot34
    case 35 => Slot35
  }

  /** The armour slot whose value is `n`. */
  function ArmorWithValue(n: int): (a: Armor)
    requires 36 <= n <= 39
    ensures ArmorValue(a) == n
  {
    match n
    case 36 => Boots
    case 37 => Leggings
    case 38 => Chestplate
    case 39 => Helmet
  }
}
