# Hanzi Architect: a Dafny model of the dictionary seeding script and the HSK display rules

Hanzi Architect is a desktop dictionary of Chinese characters. This project models two parts of it:

- **The seeding script** (`scripts/seed.ts`). It reads a dictionary file where each line is one JSON object. It turns each object into a row of the SQLite table `characters`, collects all rows into a batch, and inserts the batch in one transaction.
- **The display rules that depend on a character's HSK level.** These live in the decomposition grid and the character hero panel. The HSK level is a proficiency tier; the components test it with JavaScript truthiness and the thresholds 3 and 6.

Modules:

- `JsValues` (`js_values.dfy`): `Option` and `Result`, and the truthiness tests and `||` forms the source applies. Where `null` and `undefined` behave alike they are both `None`. The two JSON members that the script compares with `===` are a `Member`, which keeps an absent member and `null` apart.
- `Text` (`text.dfy`): `join` and `split` on strings, with both round trips proved.
- `Seed` (`seed.dfy`): the row normaliser and the batch loop.
  - The database state is a value (`DbState`) with specification functions over it: `ParseLines`, `InsertAll`, `SeedRun`, and the two ways of creating the schema.
  - It is also a class (`Database`) whose methods change the table in place. Each method is proved against those functions.
- `HskTier` (`hsk_tier.dfy`): one reference description of the four tiers.
- `DecompositionGrid`, `CharacterHero`: each component's own if-chain, proved to agree with `HskTier` and therefore with the other component.

Some of the source's behaviour comes from libraries, and the model states those assumptions explicitly:

- better-sqlite3 binds an `undefined` member as SQL NULL.
- A row whose `character` is missing therefore breaks the `NOT NULL` constraint when it is inserted. The transaction rolls back and the error reaches `seed().catch`.
- `db.transaction` is all-or-nothing.
- AUTOINCREMENT hands out the id after the largest one ever used. Dropping the table forgets that counter.

Where the code and the system's design description disagree, the model follows the code:

- The design says each run resets the table. The code only runs `CREATE TABLE IF NOT EXISTS`, so a run appends to the rows already there (see Findings).
- The design requires `character` to be unique. The schema has no UNIQUE constraint, so duplicate characters are accepted.
- The design describes merging in a reference table of levels, scripts, strokes and decompositions. The script has no such step: `hsk_level` comes from the line's own `hsk` member and nothing else.
- The design describes a validation step that rejects a record without a `character`. In the code such a record is only rejected when its row is inserted, after every line has been parsed. The whole transaction is then rolled back.

## Model

| member | source | states |
|---|---|---|
| `Text.Split` | src/components/ui/DecompositionGrid.tsx:110 | `split` with a non-empty separator always yields at least one piece, so `[0]` always exists |
| `Text.JoinSplit` | src/components/ui/DecompositionGrid.tsx:110 | joining the pieces of a split with the same separator gives back the original string, for every string |
| `Text.SplitHead` | src/components/ui/DecompositionGrid.tsx:110 | the first piece of a split is a prefix of the string with no occurrence of the separator in it, and it is either the whole string or followed by the separator |
| `Text.SplitJoin` | scripts/seed.ts:55 | splitting a join gives back the list of pieces, for any non-empty list whose pieces do not contain the separator's first character |
| `Text.JoinEmpty` | scripts/seed.ts:55 | a join is empty exactly for the empty list and the list holding one empty string |
| `Text.Join` | scripts/seed.ts:55 | `join`: the pieces in order with the separator between neighbours. `Text.JoinSplit`, `Text.SplitJoin` and `Text.JoinEmpty` state its meaning |
| `JsValues.Bind` | scripts/seed.ts:53-56 | the parameter bound for a JSON member: NULL exactly when the member is absent or `null`, and otherwise the member's value |
| `JsValues.StrOr` | scripts/seed.ts:54 | `definition \|\| ''`: the value when it is a non-empty string, the fallback when it is null, absent or empty |
| `JsValues.IntOrNull` | scripts/seed.ts:57 | `hsk \|\| null`: the number when it is non-zero, otherwise null, so the result is never 0 |
| `JsValues.StrOrNull` | scripts/seed.ts:59 | `variants \|\| null`: the string when it is non-empty, otherwise null, so the result is never `""` |
| `Seed.PinyinText` | scripts/seed.ts:55 | an array pinyin is joined with `", "`; anything else gives `""`. `Seed.PinyinRecoverable` and `Seed.PinyinEmptyExactly` state what the stored text means |
| `Seed.NormaliseRow` | scripts/seed.ts:52-60 | `character` and `radical` are bound as given, with `null` and an absent member both bound as NULL; `definition` is copied when truthy and is `""` otherwise, never null; `hsk_level` is the source `hsk` when truthy and null otherwise, so it is never 0; `radical_variants` is the source `variants` when truthy and null otherwise; `is_radical` is 0 or 1, and 1 exactly when `character === radical`, where `null` and an absent member are not equal; an array pinyin becomes its readings joined by `", "` in order, and a missing or non-array pinyin gives `""` |
| `Seed.PinyinRecoverable` | scripts/seed.ts:55 | when the pinyin is a non-empty array of comma-free readings, splitting the stored pinyin at `", "` gives back the readings in their order |
| `Seed.PinyinEmptyExactly` | scripts/seed.ts:55 | the stored pinyin is `""` exactly when the value is absent, is not an array, is `[]` or is `[""]` |
| `Seed.PinyinExamples` | scripts/seed.ts:55 | `["yī"]` is stored as `yī`, `["yī","yì"]` as `yī, yì`, and `[]` as the empty string |
| `Seed.ParseLines` | scripts/seed.ts:48-61 | the batch the loop builds, or the index of the first line `JSON.parse` rejects. `Seed.ParseLinesMeaning` states its meaning |
| `Seed.ParseLinesMeaning` | scripts/seed.ts:48-61 | parsing succeeds exactly when every line decodes, and then gives one normalised row per line in line order; otherwise it names the first line that failed, and every line before it decoded |
| `Seed.ParseErrPersists` | scripts/seed.ts:48-50 | once a prefix of the file fails to parse, the whole file fails at the same line: the exception ends the loop |
| `Seed.ParseBatch` | scripts/seed.ts:45-61 | the loop that pushes onto the batch computes exactly `ParseLines`: it returns at the first malformed line, and otherwise returns the full batch |
| `Seed.FirstUnnamed` | scripts/seed.ts:41-43 | the INSERT that fails is the first row of the batch with a null `character`, and every row before it has a character |
| `Seed.Store` | scripts/seed.ts:34-37 | the row SQLite stores for one INSERT with a non-null character under a given id: the bound parameters, unchanged. `Seed.Stamp` and `Seed.SeedRunMeaning` state where it is used |
| `Seed.Stamp` | scripts/seed.ts:11 | the k-th row of an inserted batch is stored under id `base + k + 1`, one stored row per batch row |
| `Seed.InsertAll` | scripts/seed.ts:41-43 | the transaction as a value: every row appended with the next ids, or a NOT NULL violation at the first unnamed row and the table unchanged. `Seed.SeedRunMeaning` states its meaning, and `Seed.Database.InsertMany` is proved equal to it |
| `Seed.SeedRun` | scripts/seed.ts:22-66 | `seed()` as a value: no table, a parse error, or the transaction over the whole batch. `Seed.SeedRunMeaning` and `Seed.SeedRunKeepsValid` state its meaning |
| `Seed.CreateIfNotExists` | scripts/seed.ts:9-20 | `CREATE TABLE IF NOT EXISTS` as a value: the table exists, and its rows and counter are kept. `Seed.RerunAsWrittenKeepsOldRows` states the consequence |
| `Seed.ScriptAsWritten` | scripts/seed.ts:9-20 | the script as written: that schema step, then a run. `Seed.RerunAsWrittenKeepsOldRows` and `Seed.RerunAsWrittenDuplicates` state what reruns do |
| `Seed.DropAndCreate` | scripts/seed.ts:8 | the corrected schema step: an empty table whose counter is reset. `Seed.RerunFreshStable` states the consequence |
| `Seed.ScriptFresh` | scripts/seed.ts:8 | the corrected script: drop and create, then a run. `Seed.RerunFreshStable` and `Seed.TwoLineScenario` state what it gives |
| `Seed.SeedRunMeaning` | scripts/seed.ts:22-66 | a run succeeds exactly when the table exists, every line parses and every line has a character; on success it reports the line count and appends one row per line, in order, after the existing rows, with the next ids; on any failure the database is left exactly as it was |
| `Seed.SeedRunKeepsValid` | scripts/seed.ts:11 | after any run, every id is still at least 1, ids still rise strictly in insertion order, and still never exceed the AUTOINCREMENT counter |
| `Seed.CommittedIsRadical` | scripts/seed.ts:58 | every row committed by a run has `is_radical` equal to 1 exactly when its character is its own radical, and 0 otherwise |
| `Seed.GoodRunAppends` | scripts/seed.ts:41-64 | a run over lines that all decode and all have a character reports `batch.length`, keeps the old rows as a prefix, and gives each new row its line's character and the next id |
| `Seed.RerunAsWrittenKeepsOldRows` | scripts/seed.ts:9-20 | with `CREATE TABLE IF NOT EXISTS`, two runs over the same good file both succeed; the table grows by two rows per line, and the older rows are kept as its prefix |
| `Seed.RerunAsWrittenDuplicates` | scripts/seed.ts:9-20 | after two runs as written, each line's character is stored twice, once from each run, under two different ids |
| `Seed.RerunFreshStable` | scripts/seed.ts:8 | with the table reset first, a run does not depend on the earlier database and is idempotent; a successful run holds exactly one row per line, with ids counting up from 1 |
| `Seed.TwoLineScenario` | scripts/seed.ts:9-64 | the file holding the lines for 一 and 人 imports to exactly two rows, both for the script as written on a first run (no table yet) and for the reset script from any database: 一 with `is_radical` 1, null `hsk_level` and empty pinyin, and 人 with `is_radical` 1 and pinyin `rén` |
| `Seed.NamelessLines` | scripts/seed.ts:53-58 | with a `null` character and an absent radical, `is_radical` is 0, since `null === undefined` is false; with both absent it is 1; in both cases the character binds as NULL, and a run over that one line fails with a NOT NULL violation at row 0 and leaves the database unchanged |
| `Seed.Database.Open` | scripts/seed.ts:6 | the opened database holds the contents the file already had |
| `Seed.Database.CreateSchema` | scripts/seed.ts:9-20 | `CREATE TABLE IF NOT EXISTS`: the table now exists, and any rows and counter it already had are kept |
| `Seed.Database.RunScriptAsWritten` | scripts/seed.ts:9-68 | the whole script, the schema statement followed by `seed()`, leaves the database and reports the outcome exactly as `ScriptAsWritten` describes, and keeps the database's id guarantees |
| `Seed.Database.ResetSchema` | scripts/seed.ts:8 | the fresh state the comment promises: the table exists and holds no rows, and its counter is reset |
| `Seed.Database.InsertRow` | scripts/seed.ts:34-37 | `insert.run`: appends the row under the next id exactly when it has a character; otherwise the table is unchanged and the call reports failure |
| `Seed.Database.InsertMany` | scripts/seed.ts:41-43 | the transaction leaves the table exactly as `InsertAll` says: either every row is appended in order, or the first failing row rolls everything back |
| `Seed.Database.Seed` | scripts/seed.ts:22-66 | `seed()` changes the table exactly as `SeedRun` says, and the table is not touched until every line has parsed |
| `HskTier.Classify` | src/components/ui/DecompositionGrid.tsx:39-44 | every level falls into exactly one tier: null, undefined and 0 into none; any other level of at most 3 into the first tier; 4 to 6 into the second; above 6 into the third |
| `HskTier.ClassifyMonotone` | src/components/ui/DecompositionGrid.tsx:39-44 | among non-zero levels, a higher level never falls into a lower tier |
| `DecompositionGrid.TierRgb` | src/components/ui/DecompositionGrid.tsx:40-43 | the colour literal of each tier, one per branch of `getComponentColor`. `DecompositionGrid.TierRgbInjective` shows that they are distinct |
| `DecompositionGrid.RgbTier` | src/components/ui/DecompositionGrid.tsx:39-44 | reading a grid colour back gives the tier it was drawn for |
| `DecompositionGrid.TierRgbInjective` | src/components/ui/DecompositionGrid.tsx:39-44 | no two tiers share a grid colour |
| `DecompositionGrid.ComponentColor` | src/components/ui/DecompositionGrid.tsx:39-44 | `getComponentColor` draws null, undefined and 0 in `6, 182, 212`, levels up to 3 in `34, 211, 238`, levels 4 to 6 in `52, 211, 153` and higher levels in `249, 115, 22`; that is the colour of the level's reference tier |
| `DecompositionGrid.HasHsk` | src/components/ui/DecompositionGrid.tsx:53 | `hasHsk` holds exactly when the card's colour is not the default Cyan-500 |
| `DecompositionGrid.FlickerClass` | src/components/ui/DecompositionGrid.tsx:62 | the flicker class is added exactly when `hasHsk` holds, and nothing is added otherwise |
| `DecompositionGrid.DisplayPinyin` | src/components/ui/DecompositionGrid.tsx:100 | the pinyin shown is never empty: the stored pinyin when there is one, otherwise `??` |
| `DecompositionGrid.HoverTextFirstSense` | src/components/ui/DecompositionGrid.tsx:110 | the hover text is a prefix of the definition with no `;`: the whole definition when it has no `;`, otherwise the text just before its first `;` |
| `DecompositionGrid.HoverText` | src/components/ui/DecompositionGrid.tsx:110 | `definition.split(';')[0]`. `DecompositionGrid.HoverTextFirstSense` states what it is |
| `DecompositionGrid.PlanFetch` | src/components/ui/DecompositionGrid.tsx:20-28 | the effect clears the list without a backend call exactly when the decomposition is null or empty; otherwise it passes the decomposition itself to the backend |
| `DecompositionGrid.RendersGrid` | src/components/ui/DecompositionGrid.tsx:46 | the grid renders only with a decomposition, and then only while loading or when it has components |
| `DecompositionGrid.EmptyDecompositionShowsNothing` | src/components/ui/DecompositionGrid.tsx:20-23 | a null or empty decomposition makes no backend call, and the grid renders nothing, whatever the component count and loading flag |
| `CharacterHero.GlowTier` | src/components/ui/CharacterHero.tsx:12-23 | reading a glow style back gives the tier it was chosen for |
| `CharacterHero.TierGlowInjective` | src/components/ui/CharacterHero.tsx:12-23 | no two tiers share a glow style |
| `CharacterHero.GlowStyles` | src/components/ui/CharacterHero.tsx:12-23 | `getGlowStyles` gives the shadow-free cyan/30 style for a falsy level, cyan-400 up to 3, emerald-400 up to 6 and orange-500 above; that is the glow of the level's reference tier |
| `CharacterHero.GlowAgreesWithGrid` | src/components/ui/CharacterHero.tsx:12-23 | for every level, the hero panel and the decomposition grid choose the same tier |
| `CharacterHero.TierGlow` | src/components/ui/CharacterHero.tsx:13-22 | the glow class string of each tier, one per branch of `getGlowStyles`. `CharacterHero.TierGlowInjective` shows that they are distinct |
| `CharacterHero.ResultLabel` | src/components/ui/CharacterHero.tsx:39 | the result label is `Index_Match` exactly when the level is truthy, and `Unclassified_Entry` otherwise |
| `CharacterHero.FooterLabel` | src/components/ui/CharacterHero.tsx:43 | the footer is `Radical_Sync: 100%` exactly when `isRadical` is true, and `Structure: Verified` otherwise |
| `CharacterHero.Corners` | src/components/ui/CharacterHero.tsx:56-67 | there are four corners, and each keeps its own position; all four share one border, which is `border-current` exactly when the level is truthy and `border-cyan-400/30` otherwise; each corner's class string is its position, a space, and that border |

## Findings

| source | as written | input that shows it | evidently intended | confidence | as-written member | corrected member |
|---|---|---|---|---|---|---|
| scripts/seed.ts:8-20 | The comment at line 8 promises a fresh state for each run, but the schema step is `CREATE TABLE IF NOT EXISTS`. Nothing drops or clears the table, and `character` has no UNIQUE constraint. | Run the script twice over the same dictionary file. After the second run every character is stored twice, under two ids. | Drop the table, then create it, before each run. A run then neither depends on earlier runs nor duplicates their rows. | medium; not executed | `Seed.RerunAsWrittenDuplicates` | `Seed.RerunFreshStable` |

- `Seed.Database.CreateSchema` and `Seed.ScriptAsWritten` model the schema step as written. `Seed.RerunAsWrittenKeepsOldRows` shows that old rows survive.
- `Seed.Database.ResetSchema` and `Seed.ScriptFresh` model the corrected step, which drops the table and then creates it.

## Left out

- Reading the file is not modelled: the path under `data/`, `fs.createReadStream` and `readline`. Lines arrive already decoded, each as a record or as `Malformed`. A stream error is not modelled.
- JSON type details are not modelled:
  - A line whose JSON value is `null` fails at `data.character`. That is also an exception in the loop, so it counts as `Malformed`.
  - A line that decodes to some other non-object has every member absent.
  - Members are modelled only with the types the dictionary uses: strings, an integer `hsk`, and an array of string readings. A numeric `definition`, a string `hsk`, a fractional `hsk` and non-string array elements are not modelled.
- `console.log` and `console.error` output is not modelled.
- Storage errors other than the `NOT NULL` violation are not modelled: a locked or full database, and AUTOINCREMENT reaching its 64-bit limit. Ids are unbounded.
- `src-tauri/src/lib.rs` is not part of this model: path resolution, the read-only connection, the lookup by character, `greet` and the runtime setup.
- The decomposition resolver `get_component_details` is not part of this model. It has no definition in the repository's code, and it is not registered with the runtime. The model keeps only the grid's side of it: when the call is made, and its argument.
- The admin commands (backup, HSK sync, import, metadata sync) have no implementation in the repository's code, so they are not modelled.
- React state and effects are not modelled, and neither is the `loading` flag's timing. The effect's branch and the render condition are modelled as pure functions of that state.
- The contents of CSS class strings are opaque constants. The grid's glyph colour, text shadow and pinyin colour (`src/components/ui/DecompositionGrid.tsx:86-96`) use the same `hasHsk` test as the flicker class, and are not modelled separately.
- `MetadataCard.tsx`, `HistoryBar.tsx`, `page.tsx` and `tailwind.config.ts` are not part of this model. They are presentation only.
- Unicode and UTF-16 details of strings are not modelled: strings are sequences of characters, compared by plain equality.
- `CharacterData` declares `is_radical` as a boolean, while the table stores 0 or 1. The model keeps the stored integer.
