/** The Block enum of src/malmoext/types.py, modelled by its value table.
  *
  * Every Block member is named after its value with the first letter
  * capitalised (`Acacia_door = "acacia_door"`), so a member is identified
  * here with its value string. */
module Blocks {

  /** The values of the 236 Block members, in declaration order. */
  predicate IsBlockValue(s: string)
  {
    s in {
      "acacia_door", "acacia_fence", "acacia_fence_gate", "acacia_stairs", "activator_rail",
      "air", "anvil", "barrier", "beacon", "bed", "bedrock", "beetroots", "birch_door",
      "birch_fence", "birch_fence_gate", "birch_stairs", "black_shulker_box",
      "blue_shulker_box", "bone_block", "bookshelf", "brewing_stand", "brick_block",
      "brick_stairs", "brown_mushroom", "brown_mushroom_block", "brown_shulker_box", "cactus",
      "cake", "carpet", "carrots", "cauldron", "chain_command_block", "chest",
      "chorus_flower", "chorus_plant", "clay", "coal_block", "coal_ore", "cobblestone",
      "cobblestone_wall", "cocoa", "command_block", "crafting_table", "cyan_shulker_box",
      "dark_oak_door", "dark_oak_fence", "dark_oak_fence_gate", "dark_oak_stairs",
      "daylight_detector", "daylight_detector_inverted", "deadbush", "detector_rail",
      "diamond_block", "diamond_ore", "dirt", "dispenser", "double_plant",
      "double_stone_slab", "double_stone_slab2", "double_wooden_slab", "dragon_egg",
      "dropper", "emerald_block", "emerald_ore", "enchanting_table", "end_bricks",
      "end_gateway", "end_portal", "end_portal_frame", "end_rod", "end_stone", "ender_chest",
      "farmland", "fence", "fence_gate", "fire", "flower_pot", "flowing_lava",
      "flowing_water", "frosted_ice", "furnace", "glass", "glass_pane", "glowstone",
      "gold_block", "gold_ore", "golden_rail", "grass", "grass_path", "gravel",
      "gray_shulker_box", "green_shulker_box", "hardened_clay", "hay_block",
      "heavy_weighted_pressure_plate", "hopper", "ice", "iron_bars", "iron_block",
      "iron_door", "iron_ore", "iron_trapdoor", "jukebox", "jungle_door", "jungle_fence",
      "jungle_fence_gate", "jungle_stairs", "ladder", "lapis_block", "lapis_ore", "lava",
      "leaves", "leaves2", "lever", "light_blue_shulker_box", "light_weighted_pressure_plate",
      "lime_shulker_box", "lit_furnace", "lit_pumpkin", "lit_redstone_lamp",
      "lit_redstone_ore", "log", "log2", "magenta_shulker_box", "magma", "melon_block",
      "melon_stem", "mob_spawner", "monster_egg", "mossy_cobblestone", "mycelium",
      "nether_brick", "nether_brick_fence", "nether_brick_stairs", "nether_wart",
      "nether_wart_block", "netherrack", "noteblock", "oak_stairs", "observer", "obsidian",
      "orange_shulker_box", "packed_ice", "pink_shulker_box", "piston", "piston_extension",
      "piston_head", "planks", "portal", "potatoes", "powered_comparator", "powered_repeater",
      "prismarine", "pumpkin", "pumpkin_stem", "purple_shulker_box", "purpur_block",
      "purpur_double_slab", "purpur_pillar", "purpur_slab", "purpur_stairs", "quartz_block",
      "quartz_ore", "quartz_stairs", "rail", "red_flower", "red_mushroom",
      "red_mushroom_block", "red_nether_brick", "red_sandstone", "red_sandstone_stairs",
      "red_shulker_box", "redstone_block", "redstone_lamp", "redstone_ore", "redstone_torch",
      "redstone_wire", "reeds", "repeating_command_block", "sand", "sandstone",
      "sandstone_stairs", "sapling", "sea_lantern", "silver_shulker_box", "skull", "slime",
      "snow", "snow_layer", "soul_sand", "sponge", "spruce_door", "spruce_fence",
      "spruce_fence_gate", "spruce_stairs", "stained_glass", "stained_glass_pane",
      "stained_hardened_clay", "standing_banner", "standing_sign", "sticky_piston", "stone",
      "stone_brick_stairs", "stone_button", "stone_pressure_plate", "stone_slab",
      "stone_slab2", "stone_stairs", "stonebrick", "structure_block", "structure_void",
      "tallgrass", "tnt", "torch", "trapdoor", "trapped_chest", "tripwire", "tripwire_hook",
      "unlit_redstone_torch", "unpowered_comparator", "unpowered_repeater", "vine",
      "wall_banner", "wall_sign", "water", "waterlily", "web", "wheat", "white_shulker_box",
      "wooden_button", "wooden_door", "wooden_pressure_plate", "wooden_slab", "wool",
      "yellow_flower", "yellow_shulker_box"
    }
  }

  /** A Block member, given by its value. */
  type Block = s: string | IsBlockValue(s) witness "air"

  /** Every Block value starts with a lowercase letter. */
  lemma BlockValuesLowercase(s: string)
    requires IsBlockValue(s)
    ensures |s| > 0 && 'a' <= s[0] <= 'z'
  {
    BlockValuesNonEmpty(s);
    BlockValuesStartAtA(s);
    BlockValuesStartAtMostZ(s);
  }

  /** A string starting with a capital letter is not a Block value. */
  lemma CapitalisedIsNotABlockValue(s: string)
    requires |s| > 0 && 'A' <= s[0] <= 'Z'
    ensures !IsBlockValue(s)
  {
    if IsBlockValue(s) {
      BlockValuesLowercase(s);
    }
  }

  lemma BlockValuesNonEmpty(s: string)
    requires IsBlockValue(s)
    ensures |s| > 0
  {
  }

  lemma BlockValuesStartAtA(s: string)
    requires IsBlockValue(s) && |s| > 0
    ensures 'a' <= s[0]
  {
  }

  lemma BlockValuesStartAtMostZ(s: string)
    requires IsBlockValue(s) && |s| > 0
    ensures s[0] <= 'z'
  {
  }
}
