/**
 * The wiki page of a spell (main.js `renderSpellWikiText`): an infobox,
 * an optional description, the requirements, an optional improvements
 * table and an optional list of summoned allies.  SpellWikiText states the
 * page section by section; RenderSpellWikiText builds it as the source
 * does, appending to one output string.
 */
module Render {
  import opened Wrappers
  import opened Records
  import Strings
  import Text
  import Vocabulary
  import Target
  import Search

  /** How a template literal prints an optional field: its value, or `undefined`. */
  function Show(v: Option<string>): string {
    v.GetOr("undefined")
  }

  /** Every summoned monster id names a monster (the source fails otherwise). */
  predicate SummonsResolve(summon: seq<SummonEntry>, monsters: seq<Row>) {
    forall i :: 0 <= i < |summon| ==> Search.Lookup(summon[i].id, monsters).Some?
  }

  predicate SpellSummonsResolve(spell: Spell, monsters: seq<Row>) {
    spell.summon.Some? ==> SummonsResolve(spell.summon.value, monsters)
  }

  // ---------------------------------------------------------------- infobox

  function CdLine(spell: Spell): string {
    if spell.cd.Some? then "\n| cd = " + spell.cd.value else ""
  }

  /** A purchase line for every `buy` entry but `arcana`. */
  function BuyLine(e: (string, int)): string {
    if e.0 == "arcana" then "" else "\n| purchase_" + Vocabulary.ResourceToWikiKey(e.0) + " = " + Strings.IntToString(e.1)
  }

  function BuyLines(buy: seq<(string, int)>): string {
    if buy == [] then "" else BuyLines(buy[..|buy| - 1]) + BuyLine(buy[|buy| - 1])
  }

  /**
   * The `buyArcana` accumulator after the `buy` loop: the value of the last
   * `arcana` entry, or `default` when there is none.
   */
  function ArcanaOf(buy: seq<(string, int)>, default: int): (r: int)
    ensures NoArcanaFrom(buy, 0) ==> r == default
    ensures forall i :: 0 <= i < |buy| && buy[i].0 == "arcana" && NoArcanaFrom(buy, i + 1) ==> r == buy[i].1
  {
    if buy == [] then default
    else if buy[|buy| - 1].0 == "arcana" then buy[|buy| - 1].1
    else
      var init := buy[..|buy| - 1];
      assert forall i :: 0 <= i <= |init| && NoArcanaFrom(buy, i) ==> NoArcanaFrom(init, i);
      ArcanaOf(init, default)
  }

  /** No `arcana` entry at index `i` or later. */
  predicate NoArcanaFrom(buy: seq<(string, int)>, i: nat) {
    forall j :: i <= j < |buy| ==> buy[j].0 != "arcana"
  }

  /** `buy.arcana` if given, otherwise one less than the level. */
  function BuyArcana(spell: Spell): int {
    ArcanaOf(spell.buy.GetOr([]), spell.level - 1)
  }

  /** The `purchase_arcana` line appears exactly when the arcana price is positive. */
  function ArcanaLine(buyArcana: int): (r: string)
    ensures r != "" <==> buyArcana > 0
  {
    if buyArcana > 0 then "\n| purchase_arcana = " + Strings.IntToString(buyArcana) else ""
  }

  function CostLine(e: (string, int)): string {
    "\n| cast_" + Vocabulary.ResourceToWikiKey(e.0) + " = " + Strings.IntToString(e.1)
  }

  function CostLines(cost: seq<(string, int)>): string {
    if cost == [] then "" else CostLines(cost[..|cost| - 1]) + CostLine(cost[|cost| - 1])
  }

  function HitLine(spell: Spell): string {
    if spell.attack.Some? && spell.attack.value.tohit.Some? then
      "\n| hit_bonus = " + spell.attack.value.tohit.value
    else ""
  }

  function TargetLine(spell: Spell): string {
    "\n| target = " + Target.GuessSpellTarget(spell)
  }

  function DamageLine(spell: Spell): string {
    if spell.attack.Some? && spell.attack.value.damage.Some? then
      "\n| damage = " + Strings.ReplaceFirst(spell.attack.value.damage.value, '~', '-')
      + " " + Text.TitleCase(spell.attack.value.kind)
    else ""
  }

  function DotLine(spell: Spell): string {
    if spell.attack.Some? && spell.attack.value.dot.Some? && spell.attack.value.dot.value.damage.Some? then
      var dot := spell.attack.value.dot.value;
      "\n| dot = " + Strings.ReplaceFirst(dot.damage.value, '~', '-') + "/s "
      + Text.TitleCase(dot.kind) + " for " + Show(dot.duration) + "s"
    else ""
  }

  /**
   * At most one healing line: healing over time when the spell has it,
   * otherwise the attack's healing, otherwise none.
   */
  function HealingLine(spell: Spell): (r: string)
    ensures spell.dot.Some? && spell.dot.value.healing.Some? ==>
      r == "\n| healing = " + spell.dot.value.healing.value + "/s for " + Show(spell.dot.value.duration) + "s"
    ensures (!(spell.dot.Some? && spell.dot.value.healing.Some?)
             && spell.attack.Some? && spell.attack.value.healing.Some?) ==>
      r == "\n| healing = " + spell.attack.value.healing.value
    ensures r == "" <==> (!(spell.dot.Some? && spell.dot.value.healing.Some?)
                          && !(spell.attack.Some? && spell.attack.value.healing.Some?))
  {
    if spell.dot.Some? && spell.dot.value.healing.Some? then
      "\n| healing = " + spell.dot.value.healing.value + "/s for " + Show(spell.dot.value.duration) + "s"
    else if spell.attack.Some? && spell.attack.value.healing.Some? then
      "\n| healing = " + spell.attack.value.healing.value
    else ""
  }

  /** `count monster (max m)`, with a count of 1 and a maximum of ∞ by default. */
  function SummonLabel(e: SummonEntry, monsters: seq<Row>): string
    requires Search.Lookup(e.id, monsters).Some?
  {
    e.count.GetOr("1") + " " + DisplayName(Search.Lookup(e.id, monsters).value)
    + " (max " + e.max.GetOr("\U{221E}") + ")"
  }

  /** One per summon entry, in the order of the entries. */
  function SummonLabels(summon: seq<SummonEntry>, monsters: seq<Row>): seq<string>
    requires SummonsResolve(summon, monsters)
  {
    seq(|summon|, i requires 0 <= i < |summon| => SummonLabel(summon[i], monsters))
  }

  function SummonLine(spell: Spell, monsters: seq<Row>): string
    requires SpellSummonsResolve(spell, monsters)
  {
    if spell.summon.Some? then
      "\n| summon = " + Strings.Join(SummonLabels(spell.summon.value, monsters), "<br>")
    else ""
  }

  /**
   * A `result` entry whose key is `<skill>.exp` gives an experience line
   * for that skill; other keys, and skills that are not in the store, give
   * nothing.
   */
  function ExpLine(e: (string, string), skills: seq<Row>): (r: string)
    ensures r == "" <==> (!Strings.EndsWith(e.0, ".exp")
                          || Search.Lookup(e.0[..|e.0| - 4], skills).None?)
  {
    if !Strings.EndsWith(e.0, ".exp") then ""
    else
      var skill := Search.Lookup(e.0[..|e.0| - 4], skills);
      if skill.Some? then "\n| [[" + DisplayName(skill.value) + "]] Exp|" + e.1 else ""
  }

  function ExpLines(result: seq<(string, string)>, skills: seq<Row>): string {
    if result == [] then "" else ExpLines(result[..|result| - 1], skills) + ExpLine(result[|result| - 1], skills)
  }

  /** The opening of the infobox: school, level, cooldown and purchase lines. */
  function InfoboxHead(spell: Spell): string {
    "{{spell infobox\n| school = " + Text.TitleCase(Some(spell.school))
    + "\n| level = " + Strings.IntToString(spell.level)
    + CdLine(spell)
    + BuyLines(spell.buy.GetOr([]))
    + ArcanaLine(BuyArcana(spell))
  }

  /** The lines the spell's attack and healing contribute, the target always among them. */
  function AttackLines(spell: Spell): string {
    HitLine(spell)
    + TargetLine(spell)
    + DamageLine(spell)
    + DotLine(spell)
    + HealingLine(spell)
  }

  /** The infobox, closed by `}}`. */
  function Infobox(spell: Spell, data: Data): string
    requires SpellSummonsResolve(spell, data.monsters)
  {
    InfoboxHead(spell)
    + CostLines(spell.cost)
    + AttackLines(spell)
    + SummonLine(spell, data.monsters)
    + ExpLines(spell.result.GetOr([]), data.skills)
    + "\n}}"
  }

  /** Wiki markup for italics. */
  function Italic(text: string): string {
    "''" + text + "''"
  }

  function Descriptions(spell: Spell): seq<string> {
    (if spell.desc.Some? then [spell.desc.value] else [])
    + (if spell.flavor.Some? then [Italic(spell.flavor.value)] else [])
  }

  const QUOTE_OPEN := "\n\n<blockquote>\n"
  const QUOTE_CLOSE := "\n</blockquote>"

  /** The blockquote around the descriptions, each separated from the next by a blank line. */
  function DescriptionBlock(spell: Spell): string {
    var descriptions := Descriptions(spell);
    if |descriptions| > 0 then
      QUOTE_OPEN + Strings.Join(descriptions, "\n\n") + QUOTE_CLOSE
    else ""
  }

  /**
   * The blockquote is present exactly when the spell has a description or a
   * flavour text; the flavour text is set in italics after the description.
   */
  lemma DescriptionBlockCases(spell: Spell)
    ensures DescriptionBlock(spell) == "" <==> spell.desc.None? && spell.flavor.None?
    ensures spell.desc.Some? && spell.flavor.None? ==>
      DescriptionBlock(spell) == QUOTE_OPEN + spell.desc.value + QUOTE_CLOSE
    ensures spell.desc.None? && spell.flavor.Some? ==>
      DescriptionBlock(spell) == QUOTE_OPEN + Italic(spell.flavor.value) + QUOTE_CLOSE
    ensures spell.desc.Some? && spell.flavor.Some? ==>
      DescriptionBlock(spell) == QUOTE_OPEN + spell.desc.value + "\n\n" + Italic(spell.flavor.value) + QUOTE_CLOSE
  {
    var ds := Descriptions(spell);
    if spell.desc.Some? && spell.flavor.Some? {
      var d := spell.desc.value;
      var f := Italic(spell.flavor.value);
      assert ds == [d, f];
      assert ds[..1] == [d];
      assert Strings.Join(ds, "\n\n") == d + "\n\n" + f;
    } else if spell.desc.Some? || spell.flavor.Some? {
      assert |ds| == 1;
    }
  }

  /** The requirements section: always the `require` line, the `need` line only when given. */
  function Requirements(spell: Spell): string {
    "\n\n== Requirements ==\nrequire: " + spell.require
    + (if spell.need.Some? then "\nneed: " + spell.need.value else "")
  }

  function ModLine(e: (string, string)): string {
    "\n* " + Vocabulary.ImproveToWikiLabel(e.0) + ": " + e.1
  }

  function ModLines(mods: seq<(string, string)>): string {
    if mods == [] then "" else ModLines(mods[..|mods| - 1]) + ModLine(mods[|mods| - 1])
  }

  /** One table row: the cast count, then one bullet per improved stat. */
  function ImprovementRow(e: (string, seq<(string, string)>)): string {
    "\n|-\n|" + e.0 + "\n|" + ModLines(e.1)
  }

  function ImprovementRows(at: seq<(string, seq<(string, string)>)>): string {
    if at == [] then "" else ImprovementRows(at[..|at| - 1]) + ImprovementRow(at[|at| - 1])
  }

  const IMPROVEMENTS_HEADER := "\n\n== Improvements ==\n{| class=\"wikitable\"\n! Cast Count !! Effects"

  /** The improvements table, present exactly when the spell has an `at` field, even an empty one. */
  function Improvements(spell: Spell): (r: string)
    ensures r == "" <==> spell.at.None?
  {
    if spell.at.Some? then IMPROVEMENTS_HEADER + ImprovementRows(spell.at.value) + "\n|}" else ""
  }

  /** The end of a summoned monster's heading and its placeholder description. */
  const SUMMON_PLACEHOLDER := " ===\n<blockquote>\nTODO\n</blockquote>"

  function SummonSection(e: SummonEntry, monsters: seq<Row>): string
    requires Search.Lookup(e.id, monsters).Some?
  {
    "\n=== " + DisplayName(Search.Lookup(e.id, monsters).value) + SUMMON_PLACEHOLDER
  }

  /** One per summon entry, in the order of the entries. */
  function SummonSections(summon: seq<SummonEntry>, monsters: seq<Row>): seq<string>
    requires SummonsResolve(summon, monsters)
  {
    seq(|summon|, i requires 0 <= i < |summon| => SummonSection(summon[i], monsters))
  }

  /** The summoned-ally section, present exactly when the spell has a `summon` list, even an empty one. */
  function SummonedAlly(spell: Spell, monsters: seq<Row>): (r: string)
    requires SpellSummonsResolve(spell, monsters)
    ensures r == "" <==> spell.summon.None?
  {
    if spell.summon.Some? then
      "\n\n== Summoned Ally ==" + Strings.Join(SummonSections(spell.summon.value, monsters), "\n")
    else ""
  }

  /** An empty `at` or `summon` still gives the headings, with nothing under them. */
  lemma EmptyListsKeepHeadings(spell: Spell, monsters: seq<Row>)
    ensures spell.at == Some([]) ==> Improvements(spell) == IMPROVEMENTS_HEADER + "\n|}"
    ensures spell.summon == Some([]) ==>
      SpellSummonsResolve(spell, monsters)
      && SummonLine(spell, monsters) == "\n| summon = "
      && SummonedAlly(spell, monsters) == "\n\n== Summoned Ally =="
  {
    if spell.summon == Some([]) {
      assert SummonLabels([], monsters) == [];
      assert SummonSections([], monsters) == [];
    }
  }

  /** The whole page. */
  function SpellWikiText(spell: Spell, data: Data): string
    requires SpellSummonsResolve(spell, data.monsters)
  {
    Infobox(spell, data) + DescriptionBlock(spell) + Requirements(spell)
    + Improvements(spell) + SummonedAlly(spell, data.monsters)
  }

  // ------------------------------------------------------------ the renderer

  // The source builds the page in one function; its loops are written here
  // as methods that append to the output they are given.

  /** The `buy` loop: purchase lines for all but `arcana`, whose value goes to the accumulator. */
  method AppendBuyLines(output: string, buy: seq<(string, int)>, level: int) returns (out: string, buyArcana: int)
    ensures out == output + BuyLines(buy)
    ensures buyArcana == ArcanaOf(buy, level - 1)
  {
    out, buyArcana := output, level - 1;
    for i := 0 to |buy|
      invariant out == output + BuyLines(buy[..i])
      invariant buyArcana == ArcanaOf(buy[..i], level - 1)
    {
      assert buy[..i + 1][..i] == buy[..i];
      var (key, value) := buy[i];
      Strings.ConcatAssoc(output, BuyLines(buy[..i]), BuyLine(buy[i]));
      ghost var step := buy[..i + 1];
      assert step[|step| - 1] == buy[i] && step[..|step| - 1] == buy[..i];
      if key == "arcana" {
        buyArcana := value;
        assert BuyLines(step) == BuyLines(buy[..i]) + "";
      } else {
        assert ArcanaOf(step, level - 1) == ArcanaOf(buy[..i], level - 1);
        out := out + ("\n| purchase_" + Vocabulary.ResourceToWikiKey(key) + " = " + Strings.IntToString(value));
      }
    }
    assert buy[..|buy|] == buy;
  }

  /** The `cost` loop: one cast line per entry, in order. */
  method AppendCostLines(output: string, cost: seq<(string, int)>) returns (out: string)
    ensures out == output + CostLines(cost)
  {
    out := output;
    for i := 0 to |cost|
      invariant out == output + CostLines(cost[..i])
    {
      assert cost[..i + 1][..i] == cost[..i];
      var (key, value) := cost[i];
      Strings.ConcatAssoc(output, CostLines(cost[..i]), CostLine(cost[i]));
      out := out + ("\n| cast_" + Vocabulary.ResourceToWikiKey(key) + " = " + Strings.IntToString(value));
    }
    assert cost[..|cost|] == cost;
  }

  /** One summon label, its monster found by id. */
  method RenderSummonLabel(row: SummonEntry, monsters: seq<Row>) returns (entry: string)
    requires Search.Lookup(row.id, monsters).Some?
    ensures entry == SummonLabel(row, monsters)
  {
    var monster := Search.FindById(row.id, monsters);
    entry := row.count.GetOr("1") + " " + DisplayName(monster.value)
      + " (max " + row.max.GetOr("\U{221E}") + ")";
  }

  /** The first `summon` loop: one label per entry, in order. */
  method CollectSummonLabels(summon: seq<SummonEntry>, monsters: seq<Row>) returns (summons: seq<string>)
    requires SummonsResolve(summon, monsters)
    ensures summons == SummonLabels(summon, monsters)
  {
    summons := [];
    for i := 0 to |summon|
      invariant SummonsResolve(summon[..i], monsters)
      invariant summons == SummonLabels(summon[..i], monsters)
    {
      var entry := RenderSummonLabel(summon[i], monsters);
      SummonLabelsSnoc(summon, monsters, i);
      summons := summons + [entry];
    }
    assert summon[..|summon|] == summon;
  }

  /** Extending the entries by one extends the labels by that entry's label. */
  lemma SummonLabelsSnoc(summon: seq<SummonEntry>, monsters: seq<Row>, i: nat)
    requires SummonsResolve(summon, monsters) && i < |summon|
    ensures SummonsResolve(summon[..i], monsters) && SummonsResolve(summon[..i + 1], monsters)
    ensures SummonLabels(summon[..i + 1], monsters)
      == SummonLabels(summon[..i], monsters) + [SummonLabel(summon[i], monsters)]
  {
    var pre, next := summon[..i], summon[..i + 1];
    assert forall j :: 0 <= j < |next| ==> next[j] == summon[j];
    assert forall j :: 0 <= j < |pre| ==> pre[j] == summon[j];
  }

  /** One `result` entry: a skill's experience line, or nothing. */
  method RenderExpLine(e: (string, string), skills: seq<Row>) returns (line: string)
    ensures line == ExpLine(e, skills)
  {
    var (key, value) := e;
    if !Strings.EndsWith(key, ".exp") {
      return "";
    }
    var skill := Search.FindById(key[..|key| - 4], skills);
    line := if skill.Some? then "\n| [[" + DisplayName(skill.value) + "]] Exp|" + value else "";
  }

  /** The `result` loop: experience lines for the entries that name a skill, in order. */
  method AppendExpLines(output: string, result: seq<(string, string)>, skills: seq<Row>) returns (out: string)
    ensures out == output + ExpLines(result, skills)
  {
    out := output;
    for i := 0 to |result|
      invariant out == output + ExpLines(result[..i], skills)
    {
      assert result[..i + 1][..i] == result[..i];
      var line := RenderExpLine(result[i], skills);
      Strings.ConcatAssoc(output, ExpLines(result[..i], skills), line);
      out := out + line;
    }
    assert result[..|result|] == result;
  }

  /** The infobox up to its cost lines. */
  method InfoboxHeadText(spell: Spell) returns (output: string)
    ensures output == InfoboxHead(spell)
  {
    output := "{{spell infobox\n| school = " + Text.TitleCase(Some(spell.school));
    output := output + "\n| level = " + Strings.IntToString(spell.level);
    ghost var done := output;
    if spell.cd.Some? {
      output := output + ("\n| cd = " + spell.cd.value);
    }
    assert output == done + CdLine(spell);
    done := output;
    var buyArcana := spell.level - 1;
    if spell.buy.Some? {
      output, buyArcana := AppendBuyLines(output, spell.buy.value, spell.level);
    }
    assert output == done + BuyLines(spell.buy.GetOr([])) && buyArcana == BuyArcana(spell);
    if buyArcana > 0 {
      output := output + ("\n| purchase_arcana = " + Strings.IntToString(buyArcana));
    }
  }

  /** The hit bonus, target, damage, damage over time and healing lines. */
  method AppendAttackLines(output: string, spell: Spell) returns (out: string)
    ensures out == output + AttackLines(spell)
  {
    out := output;
    if spell.attack.Some? && spell.attack.value.tohit.Some? {
      out := out + ("\n| hit_bonus = " + spell.attack.value.tohit.value);
    }
    ghost var added := HitLine(spell);
    assert out == output + added;
    Strings.ConcatAssoc(output, added, TargetLine(spell));
    out := out + ("\n| target = " + Target.GuessSpellTarget(spell));
    added := added + TargetLine(spell);
    ghost var before := out;
    if spell.attack.Some? && spell.attack.value.damage.Some? {
      out := out + ("\n| damage = " + Strings.ReplaceFirst(spell.attack.value.damage.value, '~', '-')
        + " " + Text.TitleCase(spell.attack.value.kind));
    }
    assert out == before + DamageLine(spell);
    Strings.ConcatAssoc(output, added, DamageLine(spell));
    added := added + DamageLine(spell);
    before := out;
    if spell.attack.Some? && spell.attack.value.dot.Some? && spell.attack.value.dot.value.damage.Some? {
      var dot := spell.attack.value.dot.value;
      out := out + ("\n| dot = " + Strings.ReplaceFirst(dot.damage.value, '~', '-') + "/s "
        + Text.TitleCase(dot.kind) + " for " + Show(dot.duration) + "s");
    }
    assert out == before + DotLine(spell);
    Strings.ConcatAssoc(output, added, DotLine(spell));
    added := added + DotLine(spell);
    before := out;
    if spell.dot.Some? && spell.dot.value.healing.Some? {
      out := out + ("\n| healing = " + spell.dot.value.healing.value + "/s for " + Show(spell.dot.value.duration) + "s");
    } else if spell.attack.Some? && spell.attack.value.healing.Some? {
      out := out + ("\n| healing = " + spell.attack.value.healing.value);
    }
    assert out == before + HealingLine(spell);
    Strings.ConcatAssoc(output, added, HealingLine(spell));
  }

  /** The `summon` line of the infobox, when the spell has a `summon` list. */
  method AppendSummonLine(output: string, spell: Spell, monsters: seq<Row>) returns (out: string)
    requires SpellSummonsResolve(spell, monsters)
    ensures out == output + SummonLine(spell, monsters)
  {
    out := output;
    if spell.summon.Some? {
      var summons := CollectSummonLabels(spell.summon.value, monsters);
      out := out + ("\n| summon = " + Strings.Join(summons, "<br>"));
    }
  }

  /** The experience lines of the infobox, when the spell has a `result`. */
  method AppendResultLines(output: string, spell: Spell, skills: seq<Row>) returns (out: string)
    ensures out == output + ExpLines(spell.result.GetOr([]), skills)
  {
    out := output;
    if spell.result.Some? {
      out := AppendExpLines(out, spell.result.value, skills);
    }
  }

  /** The infobox part of `renderSpellWikiText`. */
  method InfoboxText(spell: Spell, data: Data) returns (output: string)
    requires SpellSummonsResolve(spell, data.monsters)
    ensures output == Infobox(spell, data)
  {
    output := InfoboxHeadText(spell);
    output := AppendCostLines(output, spell.cost);
    output := AppendAttackLines(output, spell);
    output := AppendSummonLine(output, spell, data.monsters);
    output := AppendResultLines(output, spell, data.skills);
    output := output + "\n}}";
  }

  /** One `at` entry's effects: a bullet per stat, in order. */
  method AppendModLines(output: string, mods: seq<(string, string)>) returns (out: string)
    ensures out == output + ModLines(mods)
  {
    out := output;
    for j := 0 to |mods|
      invariant out == output + ModLines(mods[..j])
    {
      assert mods[..j + 1][..j] == mods[..j];
      var (key, value) := mods[j];
      Strings.ConcatAssoc(output, ModLines(mods[..j]), ModLine(mods[j]));
      out := out + ("\n* " + Vocabulary.ImproveToWikiLabel(key) + ": " + value);
    }
    assert mods[..|mods|] == mods;
  }

  /** The `at` loop: one table row per cast-count threshold, in order. */
  method AppendImprovementRows(output: string, at: seq<(string, seq<(string, string)>)>) returns (out: string)
    ensures out == output + ImprovementRows(at)
  {
    out := output;
    for i := 0 to |at|
      invariant out == output + ImprovementRows(at[..i])
    {
      assert at[..i + 1][..i] == at[..i];
      var (threshold, mods) := at[i];
      Strings.ConcatAssoc(output, ImprovementRows(at[..i]), ImprovementRow(at[i]));
      ghost var rowStart := out;
      out := out + "\n|-\n|" + threshold + "\n|";
      out := AppendModLines(out, mods);
      assert out == rowStart + ImprovementRow(at[i]);
    }
    assert at[..|at|] == at;
  }

  /** One summoned-ally section, its monster found by id. */
  method RenderSummonSection(row: SummonEntry, monsters: seq<Row>) returns (section: string)
    requires Search.Lookup(row.id, monsters).Some?
    ensures section == SummonSection(row, monsters)
  {
    var monster := Search.FindById(row.id, monsters);
    section := "\n=== " + DisplayName(monster.value) + SUMMON_PLACEHOLDER;
  }

  /** The second `summon` loop: a stub subsection per summoned monster, in order. */
  method CollectSummonSections(summon: seq<SummonEntry>, monsters: seq<Row>) returns (summons: seq<string>)
    requires SummonsResolve(summon, monsters)
    ensures summons == SummonSections(summon, monsters)
  {
    summons := [];
    for i := 0 to |summon|
      invariant SummonsResolve(summon[..i], monsters)
      invariant summons == SummonSections(summon[..i], monsters)
    {
      var section := RenderSummonSection(summon[i], monsters);
      SummonSectionsSnoc(summon, monsters, i);
      summons := summons + [section];
    }
    assert summon[..|summon|] == summon;
  }

  /** Extending the entries by one extends the sections by that entry's section. */
  lemma SummonSectionsSnoc(summon: seq<SummonEntry>, monsters: seq<Row>, i: nat)
    requires SummonsResolve(summon, monsters) && i < |summon|
    ensures SummonsResolve(summon[..i], monsters) && SummonsResolve(summon[..i + 1], monsters)
    ensures SummonSections(summon[..i + 1], monsters)
      == SummonSections(summon[..i], monsters) + [SummonSection(summon[i], monsters)]
  {
    var pre, next := summon[..i], summon[..i + 1];
    assert forall j :: 0 <= j < |next| ==> next[j] == summon[j];
    assert forall j :: 0 <= j < |pre| ==> pre[j] == summon[j];
  }

  /** The blockquote of description and flavour text, when there is either. */
  method AppendDescriptionBlock(output: string, spell: Spell) returns (out: string)
    ensures out == output + DescriptionBlock(spell)
  {
    var descriptions: seq<string> := [];
    if spell.desc.Some? {
      descriptions := descriptions + [spell.desc.value];
    }
    if spell.flavor.Some? {
      descriptions := descriptions + ["''" + spell.flavor.value + "''"];
    }
    assert descriptions == Descriptions(spell);
    out := output;
    if |descriptions| > 0 {
      out := out + ("\n\n<blockquote>\n" + Strings.Join(descriptions, "\n\n") + "\n</blockquote>");
    }
  }

  /** The requirements section. */
  method AppendRequirements(output: string, spell: Spell) returns (out: string)
    ensures out == output + Requirements(spell)
  {
    out := output + "\n\n== Requirements ==";
    out := out + "\nrequire: " + spell.require;
    Strings.ConcatAssoc(output, "\n\n== Requirements ==", "\nrequire: ");
    assert "\n\n== Requirements ==" + "\nrequire: " == "\n\n== Requirements ==\nrequire: ";
    Strings.ConcatAssoc(output, "\n\n== Requirements ==\nrequire: ", spell.require);
    ghost var added := "\n\n== Requirements ==\nrequire: " + spell.require;
    if spell.need.Some? {
      out := out + ("\nneed: " + spell.need.value);
    }
    Strings.ConcatAssoc(output, added, if spell.need.Some? then "\nneed: " + spell.need.value else "");
  }

  /** The improvements table, when the spell has an `at` field. */
  method AppendImprovements(output: string, spell: Spell) returns (out: string)
    ensures out == output + Improvements(spell)
  {
    out := output;
    if spell.at.Some? {
      out := out + IMPROVEMENTS_HEADER;
      out := AppendImprovementRows(out, spell.at.value);
      Strings.ConcatAssoc(output, IMPROVEMENTS_HEADER, ImprovementRows(spell.at.value));
      out := out + "\n|}";
      Strings.ConcatAssoc(output, IMPROVEMENTS_HEADER + ImprovementRows(spell.at.value), "\n|}");
    }
  }

  /** The summoned-ally section, when the spell has a `summon` list. */
  method AppendSummonedAlly(output: string, spell: Spell, monsters: seq<Row>) returns (out: string)
    requires SpellSummonsResolve(spell, monsters)
    ensures out == output + SummonedAlly(spell, monsters)
  {
    out := output;
    if spell.summon.Some? {
      var summons := CollectSummonSections(spell.summon.value, monsters);
      out := out + ("\n\n== Summoned Ally ==" + Strings.Join(summons, "\n"));
    }
  }

  /** `renderSpellWikiText`: the page, section by section. */
  method RenderSpellWikiText(spell: Spell, data: Data) returns (output: string)
    requires SpellSummonsResolve(spell, data.monsters)
    ensures output == SpellWikiText(spell, data)
  {
    output := InfoboxText(spell, data);
    output := AppendDescriptionBlock(output, spell);
    output := AppendRequirements(output, spell);
    output := AppendImprovements(output, spell);
    output := AppendSummonedAlly(output, spell, data.monsters);
  }
}
