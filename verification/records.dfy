/**
 * The game-data records: monsters, skills and spells, each tagged with
 * where it came from once it is in the store.
 */
module Records {
  import opened Wrappers
  import Text

  /** The three record collections (`dataTypes` in main.js). */
  datatype Kind = Monsters | Skills | Spells

  function KindName(k: Kind): string {
    match k
    case Monsters => "monsters"
    case Skills => "skills"
    case Spells => "spells"
  }

  /** The `meta` object the store attaches: origin file and collection. */
  datatype Meta = Meta(source: string, kind: Kind)

  /** `attack.dot`: damage over time dealt by an attack. */
  datatype AttackDot = AttackDot(damage: Option<string>, kind: Option<string>, duration: Option<string>)

  /** `attack`: how a spell strikes. */
  datatype Attack = Attack(
    targets: Option<string>,
    tohit: Option<string>,
    damage: Option<string>,
    kind: Option<string>,
    dot: Option<AttackDot>,
    healing: Option<string>)

  /** The top-level `dot`: healing over time. */
  datatype Dot = Dot(healing: Option<string>, duration: Option<string>)

  /** One `summon` entry: a monster id with an optional count and maximum. */
  datatype SummonEntry = SummonEntry(id: string, count: Option<string>, max: Option<string>)

  /**
   * The fields of a spell record that the wiki page is built from.  Object
   * fields iterated with `Object.entries` are sequences of key/value pairs
   * in insertion order; `keywordTarget` is `keywords.target`.  `school`,
   * `level`, `cost` and `require` are always present in spell data.
   */
  datatype Spell = Spell(
    school: string,
    level: int,
    cd: Option<string>,
    buy: Option<seq<(string, int)>>,
    cost: seq<(string, int)>,
    attack: Option<Attack>,
    dot: Option<Dot>,
    summon: Option<seq<SummonEntry>>,
    keywordTarget: Option<seq<string>>,
    result: Option<seq<(string, string)>>,
    desc: Option<string>,
    flavor: Option<string>,
    require: string,
    need: Option<string>,
    at: Option<seq<(string, seq<(string, string)>)>>)

  /**
   * A record: its id, optional display name, the `meta` tag (absent in raw
   * input), and the spell fields when the record is a spell.
   */
  datatype Row = Row(id: string, name: Option<string>, meta: Option<Meta>, spell: Option<Spell>)

  /** The merged store: one ordered list per collection. */
  datatype Data = Data(monsters: seq<Row>, skills: seq<Row>, spells: seq<Row>) {

    function Rows(k: Kind): seq<Row> {
      match k
      case Monsters => monsters
      case Skills => skills
      case Spells => spells
    }

    function With(k: Kind, rows: seq<Row>): (d: Data)
      ensures d.Rows(k) == rows
      ensures forall j :: j != k ==> d.Rows(j) == Rows(j)
    {
      match k
      case Monsters => this.(monsters := rows)
      case Skills => this.(skills := rows)
      case Spells => this.(spells := rows)
    }
  }

  /** The text a record's display name is made from: its name, else its id. */
  function NameSource(row: Row): string {
    row.name.GetOr(row.id)
  }

  /**
   * `toDisplayName(row)`: the title-cased name (or id): the trimmed source
   * text with only the case of its letters changed.
   */
  function DisplayName(row: Row): string {
    Text.TitleCase(Some(NameSource(row)))
  }

  /** The display name is the name, or the id when there is none, trimmed and changed only in letter case. */
  lemma DisplayNameCaseOnly(row: Row)
    ensures Text.CaseVariant(DisplayName(row), Text.Trim(NameSource(row)))
  {
    Text.TitleCaseCaseOnly(NameSource(row));
  }

  /**
   * `toDisplaySymbol(row)`: a glyph and a space for skills and for spells,
   * nothing for monsters.
   */
  function DisplaySymbol(row: Row): (r: string)
    requires row.meta.Some?
    ensures r == "" <==> row.meta.value.kind == Monsters
    ensures r != "" ==> |r| == 2 && r[1] == ' '
    ensures row.meta.value.kind == Skills ==> r == "\U{1F4D4} "
    ensures row.meta.value.kind == Spells ==> r == "\U{2604} "
  {
    match row.meta.value.kind
    case Skills => "\U{1F4D4}" + " "
    case Spells => "\U{2604}" + " "
    case Monsters => ""
  }
}
