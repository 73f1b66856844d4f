/** The classification sets of src/malmoext/types.py: the hostile and the
  * peaceful mobs, the mobs that can be killed for food, and the food items.
  * The Python sets are built once from literal lists and never change. */
module Classification {
  import opened Mobs
  import opened Items

  /** HOSTILE_MOBS. */
  const HostileMobs: set<Mob> :=
    {
      Blaze, CaveSpider, Creeper, ElderGuardian, EnderDragon, Enderman, Endermite,
      EvocationIllager, Ghast, Guardian, Husk, LavaSlime, PigZombie, Shulker, Silverfish,
      Skeleton, Slime, Spider, Stray, Vex, VindicationIllager, Witch, WitherBoss,
      WitherSkeleton, Zombie, ZombieVillager
    }

  /** PEACEFUL_MOBS. */
  const PeacefulMobs: set<Mob> :=
    {
      Bat, Chicken, Cow, Donkey, Giant, Horse, Llama, Mule, MushroomCow, Ozelot, Pig,
      PolarBear, Rabbit, Sheep, SkeletonHorse, SnowMan, Squid, Villager, VillagerGolem,
      Wolf, ZombieHorse
    }

  /** FOOD_MOBS. */
  const FoodMobs: set<Mob> :=
    {
      Chicken, Cow, MushroomCow, Pig, Rabbit, Sheep
    }

  /** Membership in FOOD_ITEMS; an Item attribute is the plain string equal
    * to its name. */
  predicate IsFoodItem(s: string)
  {
    s in {
      "apple", "baked_potato", "beef", "beetroot_soup", "bread", "cake", "carrot",
      "chicken", "cooked_beef", "cooked_chicken", "cooked_fish", "cooked_mutton",
      "cooked_porkchop", "cooked_rabbit", "cookie", "fish", "golden_apple",
      "golden_carrot", "mushroom_stew", "mutton", "poisonous_potato", "porkchop",
      "potato", "pumpkin_pie", "rabbit", "rabbit_stew", "rotten_flesh"
    }
  }

  /** Every mob is either hostile or peaceful, and never both. */
  lemma HostileOrPeaceful(m: Mob)
    ensures m in HostileMobs <==> m !in PeacefulMobs
  {
  }

  /** The two lists share no mob and together list every mob, so their sizes
    * add up to the number of mobs. */
  lemma HostileAndPeacefulPartitionMobs()
    ensures HostileMobs * PeacefulMobs == {}
    ensures HostileMobs + PeacefulMobs == AllMobs
    ensures |HostileMobs| + |PeacefulMobs| == |AllMobs|
  {
    forall m | m in HostileMobs * PeacefulMobs
      ensures false
    {
      HostileOrPeaceful(m);
    }
    forall m | m in AllMobs
      ensures m in HostileMobs + PeacefulMobs
    {
      HostileOrPeaceful(m);
    }
    forall m | m in HostileMobs + PeacefulMobs
      ensures m in AllMobs
    {
      MobListed(m);
    }
  }

  /** The mobs hunted for food are all peaceful, hence none is hostile. */
  lemma FoodMobsArePeaceful()
    ensures FoodMobs <= PeacefulMobs
    ensures FoodMobs * HostileMobs == {}
    ensures |FoodMobs| == 6
  {
  }

  /** Every food item is an Item value. */
  lemma FoodItemsAreItems(s: string)
    requires IsFoodItem(s)
    ensures IsItemValue(s)
  {
  }
}
