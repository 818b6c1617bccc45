/**
 * The two closed vocabularies that translate internal keys into wiki
 * wording; a key outside a table passes through unchanged.
 */
module Vocabulary {

  /** `resourceMap`: resource keys to the infobox field-name fragment. */
  const RESOURCE_TABLE: map<string, string> := map[
    "sp" := "skill_points",
    "gems" := "gemstones",
    "bloodgem" := "blood_gem",
    "managem" := "arcane_gem",
    "watergem" := "water_gem",
    "airgem" := "air_gem",
    "firegem" := "fire_gem",
    "earthgem" := "earth_gem",
    "naturegem" := "nature_gem",
    "spiritgem" := "spirit_gem",
    "lightgem" := "light_gem",
    "shadowgem" := "shadow_gem",
    "chaosgem" := "chaos_gem",
    "voidgem" := "void_gem",
    "runestones" := "rune_stones",
    "waterrune" := "water_runes",
    "airrune" := "air_runes",
    "firerune" := "flame_runes",
    "earthrune" := "earth_runes",
    "chaosrune" := "chaos_runes",
    "hp" := "life",
    "bonedust" := "bone_dust"
  ]

  /** `improveMap`: improvement stat paths to short labels. */
  const IMPROVE_TABLE: map<string, string> := map[
    "attack.damage.min" := "Damage Min",
    "attack.dot.damage.min" := "Damage Min",
    "attack.damage.max" := "Damage Max",
    "attack.dot.damage.max" := "Damage Max",
    "attack.tohit" := "Hit Bonus"
  ]

  /** `resourceToWikiKey(res)`: the table entry for a listed key, the key itself otherwise. */
  function ResourceToWikiKey(res: string): (r: string)
    ensures res in RESOURCE_TABLE ==> r == RESOURCE_TABLE[res]
    ensures res !in RESOURCE_TABLE ==> r == res
  {
    if res in RESOURCE_TABLE then RESOURCE_TABLE[res] else res
  }

  /** `improveToWikiLabel(str)`: the table entry for a listed key, the key itself otherwise. */
  function ImproveToWikiLabel(str: string): (r: string)
    ensures str in IMPROVE_TABLE ==> r == IMPROVE_TABLE[str]
    ensures str !in IMPROVE_TABLE ==> r == str
  {
    if str in IMPROVE_TABLE then IMPROVE_TABLE[str] else str
  }

  /**
   * No label is itself a stat path, so labelling is idempotent; the table
   * deliberately gives a hit's and a damage-over-time's minimum (and
   * maximum) the same label.
   */
  lemma ImproveLabelStable(str: string)
    ensures ImproveToWikiLabel(ImproveToWikiLabel(str)) == ImproveToWikiLabel(str)
    ensures ImproveToWikiLabel("attack.damage.min") == ImproveToWikiLabel("attack.dot.damage.min") == "Damage Min"
    ensures ImproveToWikiLabel("attack.damage.max") == ImproveToWikiLabel("attack.dot.damage.max") == "Damage Max"
  {
    assert IMPROVE_TABLE.Values !! IMPROVE_TABLE.Keys;
  }

  /** A few entries: `bloodgem` and `firerune` translate, an unknown key passes through. */
  lemma ResourceExamples()
    ensures ResourceToWikiKey("bloodgem") == "blood_gem"
    ensures ResourceToWikiKey("firerune") == "flame_runes"
    ensures ResourceToWikiKey("unknown_xyz") == "unknown_xyz"
  {
  }
}
