/**
 * What the rendered wiki page promises as a whole: how it begins, that it
 * always carries the requirements, and that every table of entries lists
 * the entries one by one, in order.
 */
module Page {
  import opened Wrappers
  import opened Records
  import Strings
  import Text
  import opened Render

  lemma PrefixOfConcat(a: string, b: string, c: string)
    requires a <= b
    ensures a <= b + c
  {
    assert (b + c)[..|b|] == b;
  }

  /** Every page opens the spell infobox with the title-cased school and the level key. */
  lemma PageOpensInfobox(spell: Spell, data: Data)
    requires SpellSummonsResolve(spell, data.monsters)
    ensures "{{spell infobox\n| school = " + Text.TitleCase(Some(spell.school)) + "\n| level = "
      <= SpellWikiText(spell, data)
  {
    var open := "{{spell infobox\n| school = " + Text.TitleCase(Some(spell.school)) + "\n| level = ";
    var head := InfoboxHead(spell);
    PrefixOfConcat(open, open, Strings.IntToString(spell.level));
    var lvl := open + Strings.IntToString(spell.level);
    PrefixOfConcat(open, lvl, CdLine(spell));
    PrefixOfConcat(open, lvl + CdLine(spell), BuyLines(spell.buy.GetOr([])));
    PrefixOfConcat(open, lvl + CdLine(spell) + BuyLines(spell.buy.GetOr([])), ArcanaLine(BuyArcana(spell)));
    assert open <= head;
    PrefixOfConcat(open, head, CostLines(spell.cost));
    PrefixOfConcat(open, head + CostLines(spell.cost), AttackLines(spell));
    var attacks := head + CostLines(spell.cost) + AttackLines(spell);
    PrefixOfConcat(open, attacks, SummonLine(spell, data.monsters));
    PrefixOfConcat(open, attacks + SummonLine(spell, data.monsters), ExpLines(spell.result.GetOr([]), data.skills));
    PrefixOfConcat(open, attacks + SummonLine(spell, data.monsters) + ExpLines(spell.result.GetOr([]), data.skills), "\n}}");
    var box := Infobox(spell, data);
    assert open <= box;
    PrefixOfConcat(open, box, DescriptionBlock(spell));
    PrefixOfConcat(open, box + DescriptionBlock(spell), Requirements(spell));
    PrefixOfConcat(open, box + DescriptionBlock(spell) + Requirements(spell), Improvements(spell));
    PrefixOfConcat(open, box + DescriptionBlock(spell) + Requirements(spell) + Improvements(spell),
                   SummonedAlly(spell, data.monsters));
  }

  lemma ContainsEnd(x: string, y: string)
    ensures Strings.Contains(x + y, y)
  {
    assert Strings.OccursAt(x + y, y, |x|) by {
      assert (x + y)[|x|..|x| + |y|] == y;
    }
  }

  lemma ContainsExtend(h: string, y: string, z: string)
    requires Strings.Contains(h, y)
    ensures Strings.Contains(h + z, y)
  {
    var i: nat :| Strings.OccursAt(h, y, i);
    assert Strings.OccursAt(h + z, y, i) by {
      assert (h + z)[i..i + |y|] == h[i..i + |y|];
    }
  }

  /** Every page has the requirements heading followed by the `require` line. */
  lemma PageHasRequirements(spell: Spell, data: Data)
    requires SpellSummonsResolve(spell, data.monsters)
    ensures Strings.Contains(SpellWikiText(spell, data), "\n\n== Requirements ==\nrequire: " + spell.require)
  {
    var line := "\n\n== Requirements ==\nrequire: " + spell.require;
    var before := Infobox(spell, data) + DescriptionBlock(spell);
    var need := if spell.need.Some? then "\nneed: " + spell.need.value else "";
    assert Requirements(spell) == line + need;
    Strings.ConcatAssoc(before, line, need);
    ContainsEnd(before, line);
    ContainsExtend(before + line, line, need);
    ContainsExtend(before + Requirements(spell), line, Improvements(spell));
    ContainsExtend(before + Requirements(spell) + Improvements(spell), line, SummonedAlly(spell, data.monsters));
  }

  /** The `need` line closes the requirements section exactly when the spell has a `need`. */
  lemma NeedLine(spell: Spell)
    ensures spell.need.None? <==> Requirements(spell) == "\n\n== Requirements ==\nrequire: " + spell.require
    ensures spell.need.Some? ==> Strings.EndsWith(Requirements(spell), "\nneed: " + spell.need.value)
  {
    var line := "\n\n== Requirements ==\nrequire: " + spell.require;
    if spell.need.Some? {
      var suffix := "\nneed: " + spell.need.value;
      assert Requirements(spell) == line + suffix;
      assert |Requirements(spell)| > |line|;
      assert (line + suffix)[|line + suffix| - |suffix|..] == suffix;
    }
  }

  /** Purchase lines follow the `buy` entries in order. */
  lemma {:induction false} BuyLinesAppend(a: seq<(string, int)>, b: seq<(string, int)>)
    ensures BuyLines(a + b) == BuyLines(a) + BuyLines(b)
    decreases |b|
  {
    if b == [] {
      assert a + b == a;
    } else {
      var init := b[..|b| - 1];
      assert (a + b)[..|a + b| - 1] == a + init;
      assert (a + b)[|a + b| - 1] == b[|b| - 1];
      BuyLinesAppend(a, init);
      Strings.ConcatAssoc(BuyLines(a), BuyLines(init), BuyLine(b[|b| - 1]));
    }
  }

  /** The `arcana` entry gives no purchase line wherever it stands. */
  lemma BuyLinesSkipArcana(a: seq<(string, int)>, price: int, b: seq<(string, int)>)
    ensures BuyLines(a + [("arcana", price)] + b) == BuyLines(a + b)
  {
    BuyLinesAppend(a, [("arcana", price)]);
    assert BuyLines([("arcana", price)]) == BuyLines([]) + BuyLine(("arcana", price));
    BuyLinesAppend(a + [("arcana", price)], b);
    BuyLinesAppend(a, b);
  }

  /** Cast lines follow the `cost` entries in order, one line per entry. */
  lemma {:induction false} CostLinesAppend(a: seq<(string, int)>, b: seq<(string, int)>)
    ensures CostLines(a + b) == CostLines(a) + CostLines(b)
    decreases |b|
  {
    if b == [] {
      assert a + b == a;
    } else {
      var init := b[..|b| - 1];
      assert (a + b)[..|a + b| - 1] == a + init;
      assert (a + b)[|a + b| - 1] == b[|b| - 1];
      CostLinesAppend(a, init);
      Strings.ConcatAssoc(CostLines(a), CostLines(init), CostLine(b[|b| - 1]));
    }
  }

  /** Experience lines follow the `result` entries in order. */
  lemma {:induction false} ExpLinesAppend(a: seq<(string, string)>, b: seq<(string, string)>, skills: seq<Row>)
    ensures ExpLines(a + b, skills) == ExpLines(a, skills) + ExpLines(b, skills)
    decreases |b|
  {
    if b == [] {
      assert a + b == a;
    } else {
      var init := b[..|b| - 1];
      assert (a + b)[..|a + b| - 1] == a + init;
      assert (a + b)[|a + b| - 1] == b[|b| - 1];
      ExpLinesAppend(a, init, skills);
      Strings.ConcatAssoc(ExpLines(a, skills), ExpLines(init, skills), ExpLine(b[|b| - 1], skills));
    }
  }

  /** The improvements table has one row per `at` entry, in order. */
  lemma {:induction false} ImprovementRowsAppend(a: seq<(string, seq<(string, string)>)>, b: seq<(string, seq<(string, string)>)>)
    ensures ImprovementRows(a + b) == ImprovementRows(a) + ImprovementRows(b)
    decreases |b|
  {
    if b == [] {
      assert a + b == a;
    } else {
      var init := b[..|b| - 1];
      assert (a + b)[..|a + b| - 1] == a + init;
      assert (a + b)[|a + b| - 1] == b[|b| - 1];
      ImprovementRowsAppend(a, init);
      Strings.ConcatAssoc(ImprovementRows(a), ImprovementRows(init), ImprovementRow(b[|b| - 1]));
    }
  }

  /** Within a row, one bullet per improved stat, in order. */
  lemma {:induction false} ModLinesAppend(a: seq<(string, string)>, b: seq<(string, string)>)
    ensures ModLines(a + b) == ModLines(a) + ModLines(b)
    decreases |b|
  {
    if b == [] {
      assert a + b == a;
    } else {
      var init := b[..|b| - 1];
      assert (a + b)[..|a + b| - 1] == a + init;
      assert (a + b)[|a + b| - 1] == b[|b| - 1];
      ModLinesAppend(a, init);
      Strings.ConcatAssoc(ModLines(a), ModLines(init), ModLine(b[|b| - 1]));
    }
  }

}
