/** The Mob enum of src/malmoext/types.py: the Minecraft entity types an
  * agent can meet, each member's value being its own name. */
module Mobs {

  /** A Minecraft mob; each member's value is its own name. */
  datatype Mob =
    Bat | Blaze | CaveSpider | Chicken | Cow | Creeper | Donkey | ElderGuardian |
    EnderDragon | Enderman | Endermite | EvocationIllager | Ghast | Giant | Guardian |
    Horse | Husk | LavaSlime | Llama | Mule | MushroomCow | Ozelot | Pig | PigZombie |
    PolarBear | Rabbit | Sheep | Shulker | Silverfish | Skeleton | SkeletonHorse | Slime |
    SnowMan | Spider | Squid | Stray | Vex | Villager | VillagerGolem |
    VindicationIllager | Witch | WitherBoss | WitherSkeleton | Wolf | Zombie |
    ZombieHorse | ZombieVillager

  /** A mob's `.value`: the member's own name. */
  function MobValue(m: Mob): (s: string)
  {
    match m
    case Bat => "Bat"
    case Blaze => "Blaze"
    case CaveSpider => "CaveSpider"
    case Chicken => "Chicken"
    case Cow => "Cow"
    case Creeper => "Creeper"
    case Donkey => "Donkey"
    case ElderGuardian => "ElderGuardian"
    case EnderDragon => "EnderDragon"
    case Enderman => "Enderman"
    case Endermite => "Endermite"
    case EvocationIllager => "EvocationIllager"
    case Ghast => "Ghast"
    case Giant => "Giant"
    case Guardian => "Guardian"
    case Horse => "Horse"
    case Husk => "Husk"
    case LavaSlime => "LavaSlime"
    case Llama => "Llama"
    case Mule => "Mule"
    case MushroomCow => "MushroomCow"
    case Ozelot => "Ozelot"
    case Pig => "Pig"
    case PigZombie => "PigZombie"
    case PolarBear => "PolarBear"
    case Rabbit => "Rabbit"
    case Sheep => "Sheep"
    case Shulker => "Shulker"
    case Silverfish => "Silverfish"
    case Skeleton => "Skeleton"
    case SkeletonHorse => "SkeletonHorse"
    case Slime => "Slime"
    case SnowMan => "SnowMan"
    case Spider => "Spider"
    case Squid => "Squid"
    case Stray => "Stray"
    case Vex => "Vex"
    case Villager => "Villager"
    case VillagerGolem => "VillagerGolem"
    case VindicationIllager => "VindicationIllager"
    case Witch => "Witch"
    case WitherBoss => "WitherBoss"
    case WitherSkeleton => "WitherSkeleton"
    case Wolf => "Wolf"
    case Zombie => "Zombie"
    case ZombieHorse => "ZombieHorse"
    case ZombieVillager => "ZombieVillager"
  }

  const AllMobs: set<Mob> :=
    {Bat, Blaze, CaveSpider, Chicken, Cow, Creeper, Donkey, ElderGuardian, EnderDragon,
     Enderman, Endermite, EvocationIllager, Ghast, Giant, Guardian, Horse, Husk, LavaSlime,
     Llama, Mule, MushroomCow, Ozelot, Pig, PigZombie, PolarBear, Rabbit, Sheep, Shulker,
     Silverfish, Skeleton, SkeletonHorse, Slime, SnowMan, Spider, Squid, Stray, Vex,
     Villager, VillagerGolem, VindicationIllager, Witch, WitherBoss, WitherSkeleton, Wolf,
     Zombie, ZombieHorse, ZombieVillager}

  /** The mobs by initial letter, in five runs; proofs about all 47 names
    * go one run at a time. */
  const MobsBToD: set<Mob> :=
    {Bat, Blaze, CaveSpider, Chicken, Cow, Creeper, Donkey}

  const MobsEToG: set<Mob> :=
    {ElderGuardian, EnderDragon, Enderman, Endermite, EvocationIllager, Ghast, Giant,
     Guardian}

  const MobsHToP: set<Mob> :=
    {Horse, Husk, LavaSlime, Llama, Mule, MushroomCow, Ozelot, Pig, PigZombie, PolarBear}

  const MobsRToS: set<Mob> :=
    {Rabbit, Sheep, Shulker, Silverfish, Skeleton, SkeletonHorse, Slime, SnowMan, Spider,
     Squid, Stray}

  const MobsVToZ: set<Mob> :=
    {Vex, Villager, VillagerGolem, VindicationIllager, Witch, WitherBoss, WitherSkeleton,
     Wolf, Zombie, ZombieHorse, ZombieVillager}

  datatype Option<T> = None | Some(value: T)

  /** The mob named `s`, looked up among the mobs whose names share its
    * first letter (and, among the many names starting with S, its second). */
  function MobWithValue(s: string): (r: Option<Mob>)
  {
    if |s| == 0 then None
    else match s[0]
    case 'B' =>
        if s == "Bat" then Some(Bat)
        else if s == "Blaze" then Some(Blaze)
        else None
    case 'C' =>
        if s == "CaveSpider" then Some(CaveSpider)
        else if s == "Chicken" then Some(Chicken)
        else if s == "Cow" then Some(Cow)
        else if s == "Creeper" then Some(Creeper)
        else None
    case 'D' =>
        if s == "Donkey" then Some(Donkey)
        else None
    case 'E' =>
        if s == "ElderGuardian" then Some(ElderGuardian)
        else if s == "EnderDragon" then Some(EnderDragon)
        else if s == "Enderman" then Some(Enderman)
        else if s == "Endermite" then Some(Endermite)
        else if s == "EvocationIllager" then Some(EvocationIllager)
        else None
    case 'G' =>
        if s == "Ghast" then Some(Ghast)
        else if s == "Giant" then Some(Giant)
        else if s == "Guardian" then Some(Guardian)
        else None
    case 'H' =>
        if s == "Horse" then Some(Horse)
        else if s == "Husk" then Some(Husk)
        else None
    case 'L' =>
        if s == "LavaSlime" then Some(LavaSlime)
        else if s == "Llama" then Some(Llama)
        else None
    case 'M' =>
        if s == "Mule" then Some(Mule)
        else if s == "MushroomCow" then Some(MushroomCow)
        else None
    case 'O' =>
        if s == "Ozelot" then Some(Ozelot)
        else None
    case 'P' =>
        if s == "Pig" then Some(Pig)
        else if s == "PigZombie" then Some(PigZombie)
        else if s == "PolarBear" then Some(PolarBear)
        else None
    case 'R' =>
        if s == "Rabbit" then Some(Rabbit)
        else None
    case 'S' =>
        if |s| < 2 then None
        else (match s[1]
        case 'h' =>
            if s == "Sheep" then Some(Sheep)
            else if s == "Shulker" then Some(Shulker)
            else None
        case 'i' =>
            if s == "Silverfish" then Some(Silverfish)
            else None
        case 'k' =>
            if s == "Skeleton" then Some(Skeleton)
            else if s == "SkeletonHorse" then Some(SkeletonHorse)
            else None
        case 'l' =>
            if s == "Slime" then Some(Slime)
            else None
        case 'n' =>
            if s == "SnowMan" then Some(SnowMan)
            else None
        case 'p' =>
            if s == "Spider" then Some(Spider)
            else None
        case 'q' =>
            if s == "Squid" then Some(Squid)
            else None
        case 't' =>
            if s == "Stray" then Some(Stray)
            else None
        case _ => None)
    case 'V' =>
        if s == "Vex" then Some(Vex)
        else if s == "Villager" then Some(Villager)
        else if s == "VillagerGolem" then Some(VillagerGolem)
        else if s == "VindicationIllager" then Some(VindicationIllager)
        else None
    case 'W' =>
        if s == "Witch" then Some(Witch)
        else if s == "WitherBoss" then Some(WitherBoss)
        else if s == "WitherSkeleton" then Some(WitherSkeleton)
        else if s == "Wolf" then Some(Wolf)
        else None
    case 'Z' =>
        if s == "Zombie" then Some(Zombie)
        else if s == "ZombieHorse" then Some(ZombieHorse)
        else if s == "ZombieVillager" then Some(ZombieVillager)
        else None
    case _ => None
  }

  // ---------------------------------------------------------------- facts

  lemma MobListed(m: Mob)
    ensures m in AllMobs
  {
  }

  /** Looking up a mob's own name finds that mob. */
  lemma LookupFindsEveryMob(m: Mob)
    ensures MobWithValue(MobValue(m)) == Some(m)
  {
    if m in MobsBToD {
      LookupFindsMobsBToD(m);
    } else if m in MobsEToG {
      LookupFindsMobsEToG(m);
    } else if m in MobsHToP {
      LookupFindsMobsHToP(m);
    } else if m in MobsRToS {
      LookupFindsMobsRToS(m);
    } else {
      LookupFindsMobsVToZ(m);
    }
  }

  lemma LookupFindsMobsBToD(m: Mob)
    requires m in MobsBToD
    ensures MobWithValue(MobValue(m)) == Some(m)
  {
  }

  lemma LookupFindsMobsEToG(m: Mob)
    requires m in MobsEToG
    ensures MobWithValue(MobValue(m)) == Some(m)
  {
  }

  lemma LookupFindsMobsHToP(m: Mob)
    requires m in MobsHToP
    ensures MobWithValue(MobValue(m)) == Some(m)
  {
  }

  lemma LookupFindsMobsRToS(m: Mob)
    requires m in MobsRToS
    ensures MobWithValue(MobValue(m)) == Some(m)
  {
  }

  lemma LookupFindsMobsVToZ(m: Mob)
    requires m in MobsVToZ
    ensures MobWithValue(MobValue(m)) == Some(m)
  {
  }

  /** Mob has no aliases: its 47 names are pairwise different strings. */
  lemma MobValuesAreDistinct(a: Mob, b: Mob)
    ensures MobValue(a) == MobValue(b) <==> a == b
  {
    LookupFindsEveryMob(a);
    LookupFindsEveryMob(b);
  }

  /** The lookup only finds names that start with a capital letter. */
  lemma LookupHitsCapitalised(s: string)
    requires MobWithValue(s).Some?
    ensures |s| > 0 && 'A' <= s[0] <= 'Z'
  {
  }

  /** Every Mob value is a non-empty string that starts with a capital letter. */
  lemma MobValuesCapitalised(m: Mob)
    ensures |MobValue(m)| > 0 && 'A' <= MobValue(m)[0] <= 'Z'
  {
    LookupFindsEveryMob(m);
    LookupHitsCapitalised(MobValue(m));
  }
}
