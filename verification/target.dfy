/** Which narrative target class a spell has (main.js `guessSpellTarget`). */
module Target {
  import opened Wrappers
  import opened Records

  /** `spell?.attack?.targets`. */
  function Targets(spell: Spell): Option<string> {
    if spell.attack.Some? then spell.attack.value.targets else None
  }

  /**
   * The first rule that applies wins: an attack on enemies, an attack on
   * allies, a summon, a sole `self` keyword target, and otherwise a single
   * target.  Each answer is given exactly when its rule applies and no
   * earlier one does.
   */
  function GuessSpellTarget(spell: Spell): (r: string)
    ensures r in {"Enemies", "Allies", "Ally", "Self", "Single"}
    ensures r == "Enemies" <==> Targets(spell) == Some("enemies")
    ensures r == "Allies" <==> Targets(spell) == Some("allies")
    ensures r == "Ally" <==>
      Targets(spell) != Some("enemies") && Targets(spell) != Some("allies") && spell.summon.Some?
    ensures r == "Self" <==>
      Targets(spell) != Some("enemies") && Targets(spell) != Some("allies") && spell.summon.None?
      && spell.keywordTarget == Some(["self"])
  {
    if Targets(spell) == Some("enemies") then "Enemies"
    else if Targets(spell) == Some("allies") then "Allies"
    else if spell.summon.Some? then "Ally"
    else if spell.keywordTarget.Some? && |spell.keywordTarget.value| == 1
      && spell.keywordTarget.value[0] == "self" then
      assert spell.keywordTarget.value == ["self"];
      "Self"
    else "Single"
  }
}
