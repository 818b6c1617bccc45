# arcanum-wiki-gen, modelled in Dafny

arcanum-wiki-gen is a browser page. It loads the Arcanum game data (the
monsters, skills and spells collections, plus module overlays), lets the
user search the records by id or name, and turns a selected spell into the
wiki markup of its wiki page. This project models the logic of `main.js`:

- the text normalisation: `toTitleCase`, `toDisplayName`, `toDisplaySymbol`;
- the two vocabulary tables: `resourceToWikiKey`, `improveToWikiLabel`;
- the search: `findMatches`, `findById`;
- the target inference: `guessSpellTarget`;
- the wiki renderer: `renderSpellWikiText`;
- the merge of base batches and module overlays inside `main`.

The fetches are replaced by their results, passed in as arguments.

Modules, one per file:

| file | module | contents |
|---|---|---|
| `wrappers.dfy` | `Wrappers` | `Option` |
| `strings.dfy` | `Strings` | `includes`, `endsWith`, `replace` with a one-character pattern, `join`, decimal printing of integers |
| `text.dfy` | `Text` | white space, ASCII case mapping, `trim`, and `toTitleCase` |
| `records.dfy` | `Records` | records, the spell fields the renderer reads, the three collections, `toDisplayName`, `toDisplaySymbol` |
| `vocabulary.dfy` | `Vocabulary` | the resource and improvement tables |
| `search.dfy` | `Search` | `findById`, `findMatches`, and the first-match and filter specifications they are proved against |
| `target.dfy` | `Target` | `guessSpellTarget` |
| `render.dfy` | `Render` | the page, specified section by section (`SpellWikiText`), and `RenderSpellWikiText`, which appends to one output string as the source does |
| `page.dfy` | `Page` | properties of the whole page and of its lists of entries |
| `store.dfy` | `Store` | the merge: meta stamping in place on each base batch, then module copies appended in module order |

How the title case is modelled. `toTitleCase` replaces every match of
`/\b\w\S*/g`: a word character at a word boundary, then every following
non-space character.

- `Text.ReplaceWords` scans the lower-cased, trimmed text from left to right, as the global replace does.
- `Text.TitleCaseChunks` states the rule chunk by chunk. In every white-space-separated chunk, the part from its first word character to its end is rewritten by `Text.WordRule`.
- `Text.ReplaceWordsIsChunkRule` proves the two agree, and `Text.TitleCaseIsChunkRule` states `Text.TitleCase` in terms of the chunk rule.

Three points where the model follows `main.js` as written:

- **`damage` and `dot` lines.** Only the first `~` becomes `-`, because `replace` is given a string pattern (main.js:146, main.js:149).
- **Unresolved summons.** When a summoned monster's id names no monster, `findById` returns null and `toDisplayName(null)` throws at main.js:20 (called from main.js:161 and main.js:213). `Render.SpellSummonsResolve` is therefore a precondition of the renderer.
- **Required spell fields.** `spell.cost` must be present, because `Object.entries(undefined)` throws at main.js:138. The fields `school`, `level` and `require` are non-optional in `Records.Spell` by choice: without them the source still renders a page, with an empty school (`toTitleCase(undefined)` is `''`, main.js:2-3), `level = undefined` and, unless `buy` has an `arcana` entry, no arcana line (`buyArcana` is NaN, main.js:121, 125, 135; an `arcana` entry overwrites it at main.js:128-129), or `require: undefined` (main.js:191).

## Model

| member | source | states |
|---|---|---|
| Text.Trim | main.js:6 | `trim`: the input with its leading white space and then its trailing white space removed; characterised by `Text.TrimSpec` |
| Text.Lower | main.js:7 | `toLowerCase` maps every character through the ASCII lower-case map and keeps the length |
| Text.TrimSpec | main.js:6 | the result neither starts nor ends with white space and is the input with leading and trailing white space cut off |
| Text.WordRule | main.js:9-15 | `of` and `the` stay, `i` to `v` are upper-cased, anything else gets its first character upper-cased; only letter case changes |
| Text.ReplaceWords | main.js:8-16 | the global replace of `\b\w\S*`: scanning left to right, a match starts at a word character not preceded by one and runs over the following non-space characters, and is rewritten by `Text.WordRule`; proved equal to the chunk rule by `Text.ReplaceWordsIsChunkRule` |
| Text.ReplaceWordsIsChunkRule | main.js:8-16 | the left-to-right replace of `\b\w\S*` equals the chunk rule: each white-space-separated chunk rewritten from its first word character on |
| Text.TitleCase | main.js:1-17 | `toTitleCase`: the empty string for null, otherwise `Text.ReplaceWords` on the trimmed, lower-cased text; characterised by `Text.TitleCaseIsChunkRule`, `Text.TitleCaseCaseOnly` and `Text.TitleCaseIdempotent` |
| Text.TitleCaseIsChunkRule | main.js:1-17 | null gives the empty string; otherwise the chunk rule applied to the trimmed, lower-cased text |
| Text.TitleCaseOneWord | main.js:5-16 | a single lower-case word is title-cased by the word rule alone |
| Text.TitleCaseCaseOnly | main.js:5-16 | the title case has the length of the trimmed input and differs from it only in letter case |
| Text.TitleCaseIdempotent | main.js:5-16 | title-casing twice gives the same text as title-casing once |
| Text.WordRuleExamples | main.js:9-15 | `of` and `the` are kept, `iii` → `III`, `shadow` → `Shadow` |
| Text.ChunkExamples | main.js:8-15 | `(iv)` → `(Iv)` because the match starts after the parenthesis; `x-ray` → `X-ray` |
| Records.DisplayName | main.js:19-21 | `toDisplayName`: the title case of `name`, or of `id` when there is no name; characterised by `Records.DisplayNameCaseOnly` |
| Records.DisplayNameCaseOnly | main.js:19-21 | the display name is the title case of `name`, or of `id` when there is no name, so it equals the trimmed source text up to letter case |
| Records.DisplaySymbol | main.js:23-31 | the notebook symbol and a space for skills, the comet and a space for spells, the empty string exactly for monsters |
| Vocabulary.ResourceToWikiKey | main.js:59-86 | the table's value for each of the 22 listed resources, the key itself for any other |
| Vocabulary.ImproveToWikiLabel | main.js:88-98 | the table's label for each of the 5 listed improvement keys, the key itself for any other |
| Vocabulary.ImproveLabelStable | main.js:88-98 | translating a label again changes nothing; the plain and damage-over-time minimum and maximum keys share the labels `Damage Min` and `Damage Max` |
| Vocabulary.ResourceExamples | main.js:59-86 | `bloodgem` → `blood_gem`, `firerune` → `flame_runes`, an unlisted key is returned unchanged |
| Search.FirstIndex | main.js:50-57 | the index of the first row with the id, or the length when there is none |
| Search.Lookup | main.js:50-57 | null exactly when no row has the id; otherwise the row at the first index with that id |
| Search.FindById | main.js:50-57 | the loop with early return yields `Lookup` |
| Search.LookupAppend | main.js:50-57 | in a concatenation, a row of the first part shadows any row of the second with the same id |
| Search.Matches | main.js:37-40 | a row matches when its id contains the query, or when it has a name whose lower-cased text contains the query; `Search.Filter` keeps exactly the matching rows |
| Search.Filter | main.js:33-48 | the matching rows: never more than the input, every result matches, every matching row is kept |
| Search.FilterAppend | main.js:36-46 | the filter of a concatenation is the concatenation of the filters, so order is kept |
| Search.FilterIsSubsequence | main.js:36-46 | the matching rows form an ordered subsequence of the data |
| Search.FindMatches | main.js:33-48 | the loop that lower-cases the query and stops once `limit` rows are collected yields the first `max(limit, 1)` matching rows |
| Search.FirstMatchesSpec | main.js:33-48 | at most `max(limit, 1)` rows, all matching, in data order, and a prefix of the matching rows (no match skipped); fewer than `limit` rows means every matching row |
| Search.EmptyQueryIsPrefix | main.js:33-48 | the empty query returns a prefix of the data of length `max(limit, 1)`, or all of it |
| Target.GuessSpellTarget | main.js:100-117 | one of five labels, by first-rule-wins precedence: `enemies` targets, `allies` targets, a summon, a sole `self` keyword target, otherwise `Single`; each label's rule is stated in both directions |
| Strings.Contains | main.js:38-39 | `includes` holds exactly when some window of the text equals the query |
| Strings.EndsWith | main.js:168 | `endsWith`: the suffix is no longer than the text and equals its last characters; used by `Render.ExpLine` and `Page.NeedLine` |
| Strings.Join | main.js:164 | `join` (also main.js:187 and main.js:216): the parts with the separator between each two neighbours; no parts give the empty string and one part gives itself |
| Strings.ReplaceFirst | main.js:146 | `replace('~', '-')` keeps the length and changes only the first `~` |
| Strings.NatToStringRoundTrip | main.js:121 | a printed non-negative level or price reads back as the same number |
| Render.ArcanaOf | main.js:125-134 | `buyArcana` after the `buy` loop is the value of the last `arcana` entry, or `level - 1` when there is none |
| Render.ArcanaLine | main.js:135-137 | the `purchase_arcana` line appears exactly when `buyArcana` is positive |
| Render.HealingLine | main.js:151-155 | healing over time wins over attack healing; there is no healing line exactly when neither is given |
| Render.RenderSummonLabel | main.js:159-161 | an entry's label: its count (default 1), the display name of the monster found by id, and its maximum (default ∞) |
| Render.SummonLabelsSnoc | main.js:156-164 | one label per summon entry, in entry order |
| Render.ExpLine | main.js:166-176 | a `result` entry gives no line exactly when its key does not end in `.exp` or names no skill in the store |
| Render.DescriptionBlockCases | main.js:179-188 | the blockquote is absent exactly when there is neither description nor flavour text; its text for each of the three other cases, flavour text in `''` |
| Render.Improvements | main.js:196-206 | the improvements table is present exactly when the spell has an `at` field; an empty `at` still gives the header and `|}` |
| Render.RenderSummonSection | main.js:211-213 | an entry's subsection: the display name of the monster found by id as heading, then the placeholder blockquote |
| Render.SummonSectionsSnoc | main.js:208-216 | one section per summon entry, in entry order |
| Render.SummonedAlly | main.js:208-217 | the summoned-ally section is present exactly when the spell has a `summon` list, even an empty one |
| Render.EmptyListsKeepHeadings | main.js:156-164 | an empty `at` gives only the table header and `|}`, an empty `summon` gives the bare `summon =` line and the bare Summoned Ally heading (also main.js:196-217) |
| Render.AppendBuyLines | main.js:126-134 | the `buy` loop appends the purchase lines and leaves the arcana price in the accumulator |
| Render.AppendCostLines | main.js:138-140 | the `cost` loop appends one cast line per entry |
| Render.CollectSummonLabels | main.js:156-163 | the summon loop collects the labels of `SummonLabels` |
| Render.RenderExpLine | main.js:168-174 | one `result` entry's experience line, found by the skill id before `.exp` |
| Render.AppendExpLines | main.js:166-176 | the `result` loop appends the experience lines |
| Render.AppendResultLines | main.js:166-176 | no experience lines when the spell has no `result` |
| Render.InfoboxHeadText | main.js:120-137 | the infobox opening: school, level, cooldown, purchase lines |
| Render.AppendAttackLines | main.js:141-155 | hit bonus, exactly one target line, damage, damage over time, healing |
| Render.AppendSummonLine | main.js:156-164 | the `summon` line, its labels joined by `<br>`, when the spell has a `summon` list, even an empty one |
| Render.InfoboxText | main.js:120-177 | the infobox, closed by `}}` |
| Render.AppendDescriptionBlock | main.js:179-188 | appends the blockquote of `DescriptionBlock` |
| Render.AppendRequirements | main.js:190-194 | appends the requirements heading, the `require` line and the `need` line if any |
| Render.AppendModLines | main.js:201-203 | one bullet per improved stat, with its translated label |
| Render.AppendImprovementRows | main.js:199-204 | one table row per `at` entry |
| Render.AppendImprovements | main.js:196-206 | appends the improvements table when the spell has an `at` field, even an empty one |
| Render.CollectSummonSections | main.js:209-215 | the loop collects the sections of `SummonSections` |
| Render.AppendSummonedAlly | main.js:208-217 | appends the summoned-ally section when the spell has a `summon` list, even an empty one |
| Render.RenderSpellWikiText | main.js:119-219 | `renderSpellWikiText` produces exactly the page `SpellWikiText` |
| Page.PageOpensInfobox | main.js:120-121 | every page begins with `{{spell infobox`, the school line with the title-cased school, and the `level` key |
| Page.PageHasRequirements | main.js:190-191 | every page contains the requirements heading followed by the `require` line |
| Page.NeedLine | main.js:192-194 | the requirements section ends with the `need` line when `need` is given, and is only the `require` line otherwise |
| Page.BuyLinesAppend | main.js:127-133 | purchase lines follow the `buy` entries in order |
| Page.BuyLinesSkipArcana | main.js:128-129 | an `arcana` entry adds no purchase line wherever it stands |
| Page.CostLinesAppend | main.js:138-140 | cast lines follow the `cost` entries in order |
| Page.ExpLinesAppend | main.js:167-175 | experience lines follow the `result` entries in order |
| Page.ImprovementRowsAppend | main.js:199-204 | the improvements table has its rows in `at` order, one per entry |
| Page.ModLinesAppend | main.js:201-203 | the bullets of a row follow its stats in order |
| Store.Stamp | main.js:229-231 | stamping sets `meta` and keeps every other field |
| Store.Stamped | main.js:229-231 | every row of a batch stamped, the batch's length and order kept |
| Store.StampBatch | main.js:229-232 | the base batch's array is stamped in place with its collection's `meta` |
| Store.PushCopies | main.js:243-248 | copies of a module's rows with the module's `meta` are pushed onto one collection; the others are unchanged |
| Store.AppendModule | main.js:241-250 | one module's collections are appended to the matching collections |
| Store.AppendModules | main.js:237-251 | the modules are appended in module order |
| Store.BuildStore | main.js:226-251 | each collection is its stamped base batch followed by the module rows, and the base arrays are stamped in place |
| Store.OverlayTagged | main.js:243-247 | every module row carries the file of the module it came from and its collection |
| Store.MergedRowsTagged | main.js:226-251 | every merged row carries its collection and either the base file or a module's file |
| Store.OverlayAppend | main.js:237-251 | the overlay of two runs of modules is the first run's rows, then the second's |
| Store.MergedRowsOrder | main.js:226-251 | the base rows come first, in order; appending a module appends its rows |
| Store.LookupStamped | main.js:50-57 | stamping a batch does not change which row an id finds |
| Store.BaseShadowsModules | main.js:50-57 | a base row shadows any module row with the same id; the module rows are searched only when the base has no such id |

## Left out

- The network: `fetch`, `response.json()` and reading `modules.json` (main.js:222-240) are not modelled. The base batches and the modules are arguments.
- The page glue is not modelled: the DOM, event listeners, the match list, the `<pre>` dump and the wiki link (main.js:253-300).
- The async sequencing of start-up is not modelled.
- Case mapping is ASCII only. Unicode `toLowerCase`/`toUpperCase`, including mappings that change a string's length, is not modelled.
- A non-string `attack.damage` is not modelled. The source calls `replace` on it directly (main.js:146), so a numeric damage such as `5` throws a TypeError and no page is rendered; `dot.damage` is converted with `toString()` first (main.js:149) and does not throw. The model types `damage` as text and renders the line. The missing `toString()` at main.js:146 is most likely an oversight in the source.
- JavaScript number printing is not modelled. Levels and prices are integers printed in decimal. Every other scalar (cooldown, damage, durations, counts, result values) is a pre-rendered string.
- An absent `dot.duration` prints as `undefined`, as a template literal prints it. Other absent values are guarded in the source and never printed.
- JSON `null` and an absent field are one case, `None`. A `dot.duration` that is explicitly `null` prints as `null` in the source (main.js:149, main.js:152); the model prints `undefined` for it.
- Object key order is not modelled. JavaScript objects iterated with `Object.entries` (`buy`, `cost`, `result`, `at` and its entries) are sequences of pairs in iteration order. For `at`, JavaScript lists integer-like keys first in ascending order; the sequence is taken to be in that order already.
- Store.BuildStore: the module copies are not pushed onto the base arrays. In the source, `data[field]` is the array stamped in place (main.js:229-232), and the copies are pushed onto that same array (main.js:244-247), so after start-up it holds the base rows and the module rows. In the model the arrays end with the stamped base rows only, and the merged collections are returned as a new `Data` value. The collections the store ends with are the same.
- Records are values, so object aliasing is not modelled. Stamping a base record in place is shown on the array that holds the batch. The record objects shared with other holders are not modelled.
- A missing required field is not modelled: `school`, `level`, `cost` and `require` are present by type.
- An unresolved summoned-monster id is a precondition, because the source throws there.
- `searchData` and the hand-over from the merged store to the search box are not modelled; they are page glue.
