/** The Item class of src/malmoext/types.py.
  *
  * Item is a plain class, not an enum: each attribute is an ordinary string
  * equal to the attribute's name (`Item.cake` is the string "cake"), and the
  * class has no membership test.  It is modelled by the set of those
  * strings. */
module Items {

  /** The 207 strings Item defines, in declaration order. */
  predicate IsItemValue(s: string)
  {
    s in {
      "acacia_boat", "acacia_door", "apple", "armor_stand", "arrow", "baked_potato", "banner",
      "bed", "beef", "beetroot", "beetroot_seeds", "beetroot_soup", "birch_boat", "birch_door",
      "blaze_powder", "blaze_rod", "boat", "bone", "book", "bow", "bowl", "bread",
      "brewing_stand", "brick", "bucket", "cake", "carrot", "carrot_on_a_stick", "cauldron",
      "chainmail_boots", "chainmail_chestplate", "chainmail_helmet", "chainmail_leggings",
      "chest_minecart", "chicken", "chorus_fruit", "chorus_fruit_popped", "clay_ball", "clock",
      "coal", "command_block_minecart", "comparator", "compass", "cooked_beef",
      "cooked_chicken", "cooked_fish", "cooked_mutton", "cooked_porkchop", "cooked_rabbit",
      "cookie", "dark_oak_boat", "dark_oak_door", "diamond", "diamond_axe", "diamond_boots",
      "diamond_chestplate", "diamond_helmet", "diamond_hoe", "diamond_horse_armor",
      "diamond_leggings", "diamond_pickaxe", "diamond_shovel", "diamond_sword",
      "dragon_breath", "dye", "egg", "elytra", "emerald", "enchanted_book", "ender_eye",
      "ender_pearl", "experience_bottle", "feather", "fermented_spider_eye", "filled_map",
      "fire_charge", "firework_charge", "fireworks", "fish", "fishing_rod", "flint",
      "flint_and_steel", "flower_pot", "furnace_minecart", "ghast_tear", "glass_bottle",
      "glowstone_dust", "gold_ingot", "gold_nugget", "golden_apple", "golden_axe",
      "golden_boots", "golden_carrot", "golden_chestplate", "golden_helmet", "golden_hoe",
      "golden_horse_armor", "golden_leggings", "golden_pickaxe", "golden_shovel",
      "golden_sword", "gunpowder", "hopper_minecart", "iron_axe", "iron_boots",
      "iron_chestplate", "iron_door", "iron_helmet", "iron_hoe", "iron_horse_armor",
      "iron_ingot", "iron_leggings", "iron_nugget", "iron_pickaxe", "iron_shovel",
      "iron_sword", "item_frame", "jungle_boat", "jungle_door", "lava_bucket", "lead",
      "leather", "leather_boots", "leather_chestplate", "leather_helmet", "leather_leggings",
      "lingering_potion", "magma_cream", "map", "melon", "melon_seeds", "milk_bucket",
      "minecart", "mushroom_stew", "mutton", "name_tag", "nether_star", "nether_wart",
      "netherbrick", "painting", "paper", "poisonous_potato", "porkchop", "potato", "potion",
      "prismarine_crystals", "prismarine_shard", "pumpkin_pie", "pumpkin_seeds", "quartz",
      "rabbit", "rabbit_foot", "rabbit_hide", "rabbit_stew", "record_11", "record_13",
      "record_blocks", "record_cat", "record_chirp", "record_far", "record_mall",
      "record_mellohi", "record_stal", "record_strad", "record_wait", "record_ward",
      "redstone", "reeds", "repeater", "rotten_flesh", "saddle", "shears", "shield",
      "shulker_shell", "sign", "skull", "slime_ball", "snowball", "spawn_egg",
      "speckled_melon", "spectral_arrow", "spider_eye", "splash_potion", "spruce_boat",
      "spruce_door", "stick", "stone_axe", "stone_hoe", "stone_pickaxe", "stone_shovel",
      "stone_sword", "string", "sugar", "tipped_arrow", "tnt_minecart", "totem_of_undying",
      "water_bucket", "wheat", "wheat_seeds", "wooden_axe", "wooden_door", "wooden_hoe",
      "wooden_pickaxe", "wooden_shovel", "wooden_sword", "writable_book", "written_book"
    }
  }
}
