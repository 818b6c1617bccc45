/**
 * Building the record store at start-up (the merge steps of main.js
 * `main`): each base batch is tagged with its origin in place, then every
 * module's rows are copied, tagged, and appended in module order.
 */
module Store {
  import opened Wrappers
  import opened Records
  import Search
  import Strings

  /** `dataTypes`: the collections, in the order they are loaded. */
  const KINDS: seq<Kind> := [Monsters, Skills, Spells]

  /** The tag of a base row: `{source: '<kind>.json', type: kind}`. */
  function BaseMeta(k: Kind): Meta {
    Meta(KindName(k) + ".json", k)
  }

  /** `modules/<name>.json`, the origin recorded for a module's rows. */
  function ModuleSource(name: string): string {
    "modules/" + name + ".json"
  }

  /** A row with its `meta` set to `m` and every other field kept. */
  function Stamp(row: Row, m: Meta): (r: Row)
    ensures r.id == row.id && r.name == row.name && r.spell == row.spell
    ensures r.meta == Some(m)
  {
    row.(meta := Some(m))
  }

  function Stamped(rows: seq<Row>, m: Meta): (r: seq<Row>)
    ensures |r| == |rows|
    ensures forall i :: 0 <= i < |rows| ==> r[i] == Stamp(rows[i], m)
  {
    seq(|rows|, i requires 0 <= i < |rows| => Stamp(rows[i], m))
  }

  /** A module file: its name and, per collection, the rows it adds (a missing collection adds none). */
  datatype Module = Module(name: string, data: map<Kind, seq<Row>>)

  /** The copies one module contributes to collection `k`. */
  function Contribution(m: Module, k: Kind): seq<Row> {
    if k in m.data then Stamped(m.data[k], Meta(ModuleSource(m.name), k)) else []
  }

  /** Every module's contribution to collection `k`, in module order. */
  function Overlay(k: Kind, modules: seq<Module>): seq<Row>
  {
    if modules == [] then []
    else Overlay(k, modules[..|modules| - 1]) + Contribution(modules[|modules| - 1], k)
  }

  /** Collection `k` of the store: the tagged base rows, then the module rows. */
  function MergedRows(k: Kind, base: seq<Row>, modules: seq<Module>): seq<Row> {
    Stamped(base, BaseMeta(k)) + Overlay(k, modules)
  }

  function Merged(base: Data, modules: seq<Module>): Data {
    Data(MergedRows(Monsters, base.monsters, modules),
         MergedRows(Skills, base.skills, modules),
         MergedRows(Spells, base.spells, modules))
  }

  /** `data[field].forEach((row, idx, arr) => arr[idx].meta = ...)`: tags a base batch in place. */
  method StampBatch(a: array<Row>, k: Kind)
    modifies a
    ensures a[..] == Stamped(old(a[..]), BaseMeta(k))
  {
    for idx := 0 to a.Length
      invariant forall j :: 0 <= j < idx ==> a[j] == Stamp(old(a[j]), BaseMeta(k))
      invariant forall j :: idx <= j < a.Length ==> a[j] == old(a[j])
    {
      a[idx] := a[idx].(meta := Some(BaseMeta(k)));
    }
  }

  /** The innermost loop of `main`: push a tagged copy of each row onto collection `k`. */
  method PushCopies(data: Data, k: Kind, rows: seq<Row>, source: string) returns (r: Data)
    ensures r.Rows(k) == data.Rows(k) + Stamped(rows, Meta(source, k))
    ensures forall o :: o != k ==> r.Rows(o) == data.Rows(o)
  {
    r := data;
    for j := 0 to |rows|
      invariant r.Rows(k) == data.Rows(k) + Stamped(rows[..j], Meta(source, k))
      invariant forall o :: o != k ==> r.Rows(o) == data.Rows(o)
    {
      assert Stamped(rows[..j + 1], Meta(source, k))
        == Stamped(rows[..j], Meta(source, k)) + [Stamp(rows[j], Meta(source, k))];
      r := r.With(k, r.Rows(k) + [Stamp(rows[j], Meta(source, k))]);
    }
    assert rows[..|rows|] == rows;
  }

  /** One module: for each collection the module has rows for, push their copies. */
  method AppendModule(data: Data, m: Module) returns (r: Data)
    ensures forall k :: r.Rows(k) == data.Rows(k) + Contribution(m, k)
  {
    var source := ModuleSource(m.name);
    r := data;
    for t := 0 to |KINDS|
      invariant forall k :: k in KINDS[..t] ==> r.Rows(k) == data.Rows(k) + Contribution(m, k)
      invariant forall k :: k !in KINDS[..t] ==> r.Rows(k) == data.Rows(k)
    {
      var k := KINDS[t];
      assert KINDS[..t + 1] == KINDS[..t] + [k];
      if k in m.data {
        r := PushCopies(r, k, m.data[k], source);
      }
    }
    assert KINDS[..|KINDS|] == KINDS;
    assert forall k :: k in KINDS;
  }

  /** The module loop of `main`: append every module's rows, module by module. */
  method AppendModules(data: Data, modules: seq<Module>) returns (r: Data)
    ensures forall k :: r.Rows(k) == data.Rows(k) + Overlay(k, modules)
  {
    r := data;
    for i := 0 to |modules|
      invariant forall k :: r.Rows(k) == data.Rows(k) + Overlay(k, modules[..i])
    {
      r := AppendModule(r, modules[i]);
      assert modules[..i + 1][..i] == modules[..i];
    }
    assert modules[..|modules|] == modules;
  }

  /**
   * Start-up: tag the three base batches in place, then append the
   * modules.  The store's collections are the merged rows.
   */
  method BuildStore(monsters: array<Row>, skills: array<Row>, spells: array<Row>, modules: seq<Module>)
    returns (data: Data)
    requires monsters != skills && skills != spells && monsters != spells
    modifies monsters, skills, spells
    ensures data == Merged(Data(old(monsters[..]), old(skills[..]), old(spells[..])), modules)
    ensures monsters[..] == Stamped(old(monsters[..]), BaseMeta(Monsters))
    ensures skills[..] == Stamped(old(skills[..]), BaseMeta(Skills))
    ensures spells[..] == Stamped(old(spells[..]), BaseMeta(Spells))
  {
    StampBatch(monsters, Monsters);
    StampBatch(skills, Skills);
    StampBatch(spells, Spells);
    var base := Data(monsters[..], skills[..], spells[..]);
    data := AppendModules(base, modules);
    assert data.Rows(Monsters) == data.monsters && data.Rows(Skills) == data.skills && data.Rows(Spells) == data.spells;
  }

  // ------------------------------------------------------------ properties

  /** The rows `modules` contributed, each tagged with one module's file and collection `k`. */
  predicate FromSomeModule(row: Row, k: Kind, modules: seq<Module>) {
    exists j :: 0 <= j < |modules| && row.meta == Some(Meta(ModuleSource(modules[j].name), k))
  }

  lemma {:induction false} OverlayTagged(k: Kind, modules: seq<Module>)
    ensures forall row :: row in Overlay(k, modules) ==> FromSomeModule(row, k, modules)
    decreases |modules|
  {
    if modules != [] {
      var init := modules[..|modules| - 1];
      var last := modules[|modules| - 1];
      OverlayTagged(k, init);
      forall row | row in Overlay(k, modules)
        ensures FromSomeModule(row, k, modules)
      {
        if row in Overlay(k, init) {
          var j :| 0 <= j < |init| && row.meta == Some(Meta(ModuleSource(init[j].name), k));
          assert modules[j] == init[j];
        } else {
          assert row in Contribution(last, k);
          assert row.meta == Some(Meta(ModuleSource(modules[|modules| - 1].name), k));
        }
      }
    }
  }

  /**
   * Every row of a merged collection carries `meta` naming that collection,
   * and its source is the base file or one of the modules.
   */
  lemma MergedRowsTagged(k: Kind, base: seq<Row>, modules: seq<Module>)
    ensures forall row :: row in MergedRows(k, base, modules) ==>
      row.meta == Some(BaseMeta(k)) || FromSomeModule(row, k, modules)
  {
    OverlayTagged(k, modules);
  }

  /** The overlay of two runs of modules is the first run's rows followed by the second's. */
  lemma {:induction false} OverlayAppend(k: Kind, a: seq<Module>, b: seq<Module>)
    ensures Overlay(k, a + b) == Overlay(k, a) + Overlay(k, b)
    decreases |b|
  {
    if b == [] {
      assert a + b == a;
    } else {
      var init := b[..|b| - 1];
      var last := b[|b| - 1];
      assert (a + b)[..|a + b| - 1] == a + init;
      assert (a + b)[|a + b| - 1] == last;
      OverlayAppend(k, a, init);
      Strings.ConcatAssoc(Overlay(k, a), Overlay(k, init), Contribution(last, k));
    }
  }

  /**
   * Merging appends and never reorders: the base rows, tagged, come first
   * and in order, then each module's rows in module order.
   */
  lemma MergedRowsOrder(k: Kind, base: seq<Row>, modules: seq<Module>, m: Module)
    ensures |MergedRows(k, base, modules)| == |base| + |Overlay(k, modules)|
    ensures MergedRows(k, base, modules)[..|base|] == Stamped(base, BaseMeta(k))
    ensures MergedRows(k, base, modules + [m]) == MergedRows(k, base, modules) + Contribution(m, k)
  {
    var s := Stamped(base, BaseMeta(k));
    assert (s + Overlay(k, modules))[..|base|] == s;
    assert (modules + [m])[..|modules|] == modules;
    assert Overlay(k, modules + [m]) == Overlay(k, modules) + Contribution(m, k);
    Strings.ConcatAssoc(s, Overlay(k, modules), Contribution(m, k));
  }

  lemma {:induction false} LookupStamped(id: string, rows: seq<Row>, m: Meta)
    ensures Search.Lookup(id, Stamped(rows, m))
      == if Search.Lookup(id, rows).Some? then Some(Stamp(Search.Lookup(id, rows).value, m)) else None
  {
    var s := Stamped(rows, m);
    var i := Search.FirstIndex(id, rows);
    if i < |rows| {
      Search.FirstIndexUnique(id, s, i);
    }
  }

  /**
   * Looking an id up in a merged collection finds the tagged base row when
   * the base batch has that id, however many modules add a row with the
   * same id; only otherwise does it find the first module row.
   */
  lemma BaseShadowsModules(id: string, k: Kind, base: seq<Row>, modules: seq<Module>)
    ensures var found := Search.Lookup(id, base);
      Search.Lookup(id, MergedRows(k, base, modules))
        == if found.Some? then Some(Stamp(found.value, BaseMeta(k)))
           else Search.Lookup(id, Overlay(k, modules))
  {
    Search.LookupAppend(id, Stamped(base, BaseMeta(k)), Overlay(k, modules));
    LookupStamped(id, base, BaseMeta(k));
  }
}
