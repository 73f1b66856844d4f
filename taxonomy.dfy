/** The membership test every enum of src/malmoext/types.py inherits from
  * ReflectiveEnum, over the closed set of those enums.
  *
  * `V.contains(x)` looks `x` up among the values of V's members when `x` is
  * a `str`, and otherwise looks up `x.value`.  Python values that can reach
  * it are modelled as a Candidate: a raw string, an object without a
  * `.value` attribute (an int, None, ...), or a member of one of the enums.
  * On an object without `.value` the lookup raises AttributeError instead of
  * answering. */
module Taxonomy {
  import opened Vocabularies
  import opened Mobs
  import opened Blocks
  import opened Items

  /** The primitive a member carries as its `.value`: a `str` or an `int`. */
  datatype Value = Str(s: string) | Int(n: int)

  /** The ReflectiveEnum subclasses, i.e. the receivers `cls` of `contains`. */
  datatype Vocabulary =
    | AgentTypeEnum | TimeOfDayEnum | DirectionEnum
    | HotBarEnum | PlayerEnum | ArmorEnum
    | MobEnum | BlockEnum

  /** Vocabularies whose members carry integers. */
  predicate IntValued(v: Vocabulary)
  {
    v in {TimeOfDayEnum, DirectionEnum, HotBarEnum, PlayerEnum, ArmorEnum}
  }

  /** A member of some ReflectiveEnum. */
  datatype Member =
    | AgentTypeMember(agentType: AgentType)
    | TimeOfDayMember(timeOfDay: TimeOfDay)
    | DirectionMember(direction: Direction)
    | HotBarMember(hotBar: HotBar)
    | PlayerMember(player: Player)
    | ArmorMember(armor: Armor)
    | MobMember(mob: Mob)
    | BlockMember(block: Block)

  /** The enum a member belongs to. */
  function VocabularyOf(m: Member): (v: Vocabulary)
  {
    match m
    case AgentTypeMember(_) => AgentTypeEnum
    case TimeOfDayMember(_) => TimeOfDayEnum
    case DirectionMember(_) => DirectionEnum
    case HotBarMember(_) => HotBarEnum
    case PlayerMember(_) => PlayerEnum
    case ArmorMember(_) => ArmorEnum
    case MobMember(_) => MobEnum
    case BlockMember(_) => BlockEnum
  }

  /** A member's `.value`: an integer exactly for the integer-valued enums. */
  function ValueOf(m: Member): (x: Value)
    ensures x.Int? <==> IntValued(VocabularyOf(m))
  {
    match m
    case AgentTypeMember(a) => Str(AgentTypeValue(a))
    case TimeOfDayMember(t) => Int(TimeOfDayValue(t))
    case DirectionMember(d) => Int(DirectionValue(d))
    case HotBarMember(h) => Int(HotBarValue(h))
    case PlayerMember(p) => Int(PlayerValue(p))
    case ArmorMember(a) => Int(ArmorValue(a))
    case MobMember(m) => Str(MobValue(m))
    case BlockMember(b) => Str(b)
  }

  /** What `contains` may be handed: a `str`, an object that is not a `str`
    * and has no `.value` attribute (an int, None, a list, ...), or an enum
    * member. */
  datatype Candidate =
    | RawStr(s: string)
    | NoValue
    | EnumMember(member: Member)

  datatype Exception = AttributeError

  /** The result of a Python call: a returned value or a raised exception. */
  datatype Outcome<T> = Returns(value: T) | Raises(error: Exception)

  /** `x in cls._value2member_map_`: whether `x` is the value of a member of
    * `v`.  The integer-valued enums hold only integers, the others only
    * strings. */
  predicate InValueTable(v: Vocabulary, x: Value)
    ensures InValueTable(v, x) ==> (x.Int? <==> IntValued(v))
  {
    match v
    case AgentTypeEnum => x in (set a | a in AllAgentTypes :: Str(AgentTypeValue(a)))
    case TimeOfDayEnum => x in (set t | t in AllTimesOfDay :: Int(TimeOfDayValue(t)))
    case DirectionEnum => x in (set d | d in AllDirections :: Int(DirectionValue(d)))
    case HotBarEnum => x in (set h | h in AllHotBarSlots :: Int(HotBarValue(h)))
    case PlayerEnum => x in (set p | p in AllPlayerSlots :: Int(PlayerValue(p)))
    case ArmorEnum => x in (set a | a in AllArmorSlots :: Int(ArmorValue(a)))
    case MobEnum => x in (set m | m in AllMobs :: Str(MobValue(m)))
    case BlockEnum => x.Str? && IsBlockValue(x.s)
  }

  /** ReflectiveEnum.contains, called on the enum `v`. */
  function Contains(v: Vocabulary, c: Candidate): (r: Outcome<bool>)
    ensures r.Raises? <==> c.NoValue?
  {
    match c
    case RawStr(s) => Returns(InValueTable(v, Str(s)))
    case NoValue => Raises(AttributeError)
    case EnumMember(m) => Returns(InValueTable(v, ValueOf(m)))
  }

  // ---------------------------------------------------------------- the value table

  /** The value table of `v` holds exactly the values of `v`'s members. */
  lemma ValueTableHoldsMemberValues(v: Vocabulary, x: Value)
    ensures InValueTable(v, x) <==> exists m :: VocabularyOf(m) == v && ValueOf(m) == x
  {
    if InValueTable(v, x) {
      var m := MemberWithTableValue(v, x);
      assert VocabularyOf(m) == v && ValueOf(m) == x;
    } else {
      forall m | VocabularyOf(m) == v && ValueOf(m) == x
        ensures false
      {
        MemberValueInTable(m);
      }
    }
  }

  /** Every value in the table of `v` is the value of some member of `v`. */
  lemma MemberWithTableValue(v: Vocabulary, x: Value) returns (m: Member)
    requires InValueTable(v, x)
    ensures VocabularyOf(m) == v && ValueOf(m) == x
  {
    match v
    case AgentTypeEnum =>
      var a :| a in AllAgentTypes && x == Str(AgentTypeValue(a));
      m := AgentTypeMember(a);
    case TimeOfDayEnum =>
      var t :| t in AllTimesOfDay && x == Int(TimeOfDayValue(t));
      m := TimeOfDayMember(t);
    case DirectionEnum =>
      var d :| d in AllDirections && x == Int(DirectionValue(d));
      m := DirectionMember(d);
    case HotBarEnum =>
      var h :| h in AllHotBarSlots && x == Int(HotBarValue(h));
      m := HotBarMember(h);
    case PlayerEnum =>
      var p :| p in AllPlayerSlots && x == Int(PlayerValue(p));
      m := PlayerMember(p);
    case ArmorEnum =>
      var a :| a in AllArmorSlots && x == Int(ArmorValue(a));
      m := ArmorMember(a);
    case MobEnum =>
      var b :| b in AllMobs && x == Str(MobValue(b));
      m := MobMember(b);
    case BlockEnum =>
      m := BlockMember(x.s);
  }

  /** A member's own value is in its enum's value table. */
  lemma MemberValueInTable(m: Member)
    ensures InValueTable(VocabularyOf(m), ValueOf(m))
  {
    match m
    case AgentTypeMember(a) =>
      AgentTypeListed(a);
    case TimeOfDayMember(t) =>
      TimeOfDayListed(t);
    case DirectionMember(d) =>
      DirectionListed(d);
    case HotBarMember(h) =>
      HotBarListed(h);
    case PlayerMember(p) =>
      PlayerListed(p);
    case ArmorMember(a) =>
      ArmorListed(a);
    case MobMember(b) =>
      MobListed(b);
    case BlockMember(b) =>
  }

  /** Within one enum a value names at most one member, so the value table has
    * no aliases. */
  lemma ValuesIdentifyMembers(a: Member, b: Member)
    requires VocabularyOf(a) == VocabularyOf(b) && ValueOf(a) == ValueOf(b)
    ensures a == b
  {
    ValuesAreDistinct();
    match a
    case MobMember(x) =>
      MobValuesAreDistinct(x, b.mob);
    case _ =>
  }

  // ---------------------------------------------------------------- contains

  /** For a string, `contains` answers whether some member of `v` has that
    * string as its value. */
  lemma ContainsString(v: Vocabulary, s: string)
    ensures Contains(v, RawStr(s)) == Returns(exists m :: VocabularyOf(m) == v && ValueOf(m) == Str(s))
  {
    ValueTableHoldsMemberValues(v, Str(s));
  }

  /** For a member of any enum, `contains` answers whether some member of `v`
    * carries the same value; the enum the argument came from plays no part. */
  lemma ContainsMemberByValue(v: Vocabulary, m: Member)
    ensures Contains(v, EnumMember(m)) == Returns(exists n :: VocabularyOf(n) == v && ValueOf(n) == ValueOf(m))
  {
    ValueTableHoldsMemberValues(v, ValueOf(m));
  }

  /** Every enum contains its own members and, when they carry strings, their
    * values. */
  lemma ContainsOwnMembers(m: Member)
    ensures Contains(VocabularyOf(m), EnumMember(m)) == Returns(true)
    ensures ValueOf(m).Str? ==> Contains(VocabularyOf(m), RawStr(ValueOf(m).s)) == Returns(true)
  {
    MemberValueInTable(m);
  }

  /** An integer-valued enum contains no string at all. */
  lemma IntEnumsRejectStrings(v: Vocabulary, s: string)
    requires IntValued(v)
    ensures Contains(v, RawStr(s)) == Returns(false)
  {
  }

  /** The member of `v`, if any, whose value `contains` found. */
  lemma FoundMemberIsUnique(v: Vocabulary, m: Member)
    requires Contains(v, EnumMember(m)) == Returns(true)
    ensures exists n :: VocabularyOf(n) == v && ValueOf(n) == ValueOf(m)
    ensures forall n1, n2 ::
              (VocabularyOf(n1) == v && ValueOf(n1) == ValueOf(m) &&
               VocabularyOf(n2) == v && ValueOf(n2) == ValueOf(m)) ==> n1 == n2
  {
    ValueTableHoldsMemberValues(v, ValueOf(m));
    forall n1, n2 | VocabularyOf(n1) == v && ValueOf(n1) == ValueOf(m) &&
              VocabularyOf(n2) == v && ValueOf(n2) == ValueOf(m)
      ensures n1 == n2
    {
      ValuesIdentifyMembers(n1, n2);
    }
  }

  // ---------------------------------------------------------------- examples

  /** Mob values are matched exactly: "Cow" is a mob. */
  lemma CowIsAMob()
    ensures Contains(MobEnum, RawStr("Cow")) == Returns(true)
  {
    MemberValueInTable(MobMember(Cow));
  }

  /** A name the lookup by name does not find is not a mob. */
  lemma UnknownNamesAreNotMobs(s: string)
    requires MobWithValue(s) == None
    ensures Contains(MobEnum, RawStr(s)) == Returns(false)
  {
    if m :| m in AllMobs && Str(s) == Str(MobValue(m)) {
      LookupFindsEveryMob(m);
    }
  }

  /** Mob lookup is case-sensitive: "cow" is not a mob. */
  lemma LowercaseCowIsNotAMob()
    ensures Contains(MobEnum, RawStr("cow")) == Returns(false)
  {
    UnknownNamesAreNotMobs("cow");
  }

  /** "Dragon" is not a mob; the dragon's value is "EnderDragon". */
  lemma DragonIsNotAMob()
    ensures Contains(MobEnum, RawStr("Dragon")) == Returns(false)
  {
    UnknownNamesAreNotMobs("Dragon");
  }

  /** No mob is a block: mob values are capitalised, block values are not. */
  lemma MobsAreNotBlocks(m: Mob)
    ensures Contains(BlockEnum, EnumMember(MobMember(m))) == Returns(false)
    ensures Contains(BlockEnum, RawStr(MobValue(m))) == Returns(false)
  {
    MobValuesCapitalised(m);
    CapitalisedIsNotABlockValue(MobValue(m));
  }

  /** No block is a mob. */
  lemma BlocksAreNotMobs(b: Block)
    ensures Contains(MobEnum, EnumMember(BlockMember(b))) == Returns(false)
    ensures Contains(MobEnum, RawStr(b)) == Returns(false)
  {
    if m :| m in AllMobs && Str(b) == Str(MobValue(m)) {
      MobsAreNotBlocks(m);
    }
  }

  /** Block.contains(Mob.Slime) is false, because the block's value is "slime". */
  lemma SlimeMobIsNotABlock()
    ensures Contains(BlockEnum, EnumMember(MobMember(Slime))) == Returns(false)
  {
    MobsAreNotBlocks(Slime);
  }

  /** The slime block is found under its own value. */
  lemma SlimeIsABlock()
    ensures Contains(BlockEnum, RawStr("slime")) == Returns(true)
  {
  }

  /** Item.cake is the plain string "cake", which Block contains. */
  lemma CakeItemIsABlock()
    ensures IsItemValue("cake")
    ensures Contains(BlockEnum, RawStr("cake")) == Returns(true)
  {
  }

  /** Integer-valued enums compare bare numbers: TimeOfDay contains
    * Direction.South (both 0), HotBar contains TimeOfDay.Dawn (both 0), and
    * Direction does not contain TimeOfDay.Midnight (18000). */
  lemma IntegerValuesCrossEnums()
    ensures Contains(TimeOfDayEnum, EnumMember(DirectionMember(South))) == Returns(true)
    ensures Contains(HotBarEnum, EnumMember(TimeOfDayMember(Dawn))) == Returns(true)
    ensures Contains(DirectionEnum, EnumMember(TimeOfDayMember(Midnight))) == Returns(false)
  {
    MemberValueInTable(TimeOfDayMember(Dawn));
    MemberValueInTable(HotBarMember(Slot0));
  }

  // ---------------------------------------------------------------- inventory slots

  /** HotBar holds exactly the slot numbers 0 to 8, Player 9 to 35 and Armor
    * 36 to 39. */
  lemma InventorySlotRanges(n: int)
    ensures InValueTable(HotBarEnum, Int(n)) <==> 0 <= n <= 8
    ensures InValueTable(PlayerEnum, Int(n)) <==> 9 <= n <= 35
    ensures InValueTable(ArmorEnum, Int(n)) <==> 36 <= n <= 39
  {
    if 0 <= n <= 8 {
      HotBarListed(HotBarWithValue(n));
    }
    if 9 <= n <= 35 {
      PlayerListed(PlayerWithValue(n));
    }
    if 36 <= n <= 39 {
      ArmorListed(ArmorWithValue(n));
    }
  }

  /** The three inventory enums share the slot numbers 0 to 39 out between
    * them: each such number belongs to exactly one of them, and no other
    * number to any. */
  lemma InventorySlotsPartition(n: int)
    ensures (InValueTable(HotBarEnum, Int(n)) || InValueTable(PlayerEnum, Int(n)) ||
             InValueTable(ArmorEnum, Int(n))) <==> 0 <= n <= 39
    ensures !(InValueTable(HotBarEnum, Int(n)) && InValueTable(PlayerEnum, Int(n)))
    ensures !(InValueTable(HotBarEnum, Int(n)) && InValueTable(ArmorEnum, Int(n)))
    ensures !(InValueTable(PlayerEnum, Int(n)) && InValueTable(ArmorEnum, Int(n)))
  {
    InventorySlotRanges(n);
  }
}

