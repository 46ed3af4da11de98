/**
 * The dictionary seeding script: every line of the dictionary file is a
 * JSON object, each is normalised into one row of the `characters` table,
 * the rows are collected into a batch, and the batch is inserted inside a
 * single transaction.
 *
 * The table is kept both as a value (`DbState`, used by the specification
 * functions and the lemmas) and as the object `Database`, whose methods
 * change it in place and are proved against those functions.
 */
module Seed {
  import opened JsValues
  import opened Text

  /** The separator placed between the readings of a character. */
  const PinyinSeparator := ", "

  /** The `pinyin` member of a decoded line: absent, not an array, or an array of readings. */
  datatype PinyinField = NoPinyin | NonList | PinyinList(readings: seq<string>)

  /** The members of one decoded dictionary line that the script reads. */
  datatype SourceRecord = SourceRecord(
    character: Member<string>,
    definition: Option<string>,
    pinyin: PinyinField,
    radical: Member<string>,
    hsk: Option<int>,
    variants: Option<string>)

  /** One line of the dictionary file: a decoded record, or text `JSON.parse` rejects. */
  datatype Line = Decoded(rec: SourceRecord) | Malformed

  /** The object pushed onto the batch: the named parameters of one INSERT. */
  datatype CharacterRow = CharacterRow(
    character: Option<string>,
    definition: string,
    pinyin: string,
    radical: Option<string>,
    hskLevel: Option<int>,
    isRadical: int,
    radicalVariants: Option<string>)

  /** A committed row of the `characters` table; `character` is NOT NULL. */
  datatype StoredRow = StoredRow(
    id: nat,
    character: string,
    definition: string,
    pinyin: string,
    radical: Option<string>,
    hskLevel: Option<int>,
    isRadical: int,
    radicalVariants: Option<string>)

  /** Why a run stopped: the prepared INSERT has no table, a line did not parse, or a row had no character. */
  datatype SeedError = NoSuchTable | ParseError(line: nat) | NotNullViolation(row: nat)

  /**
   * The database file: whether the `characters` table exists, its rows in
   * insertion order, and the AUTOINCREMENT counter kept for it in
   * `sqlite_sequence` (the largest id ever handed out, 0 if none).
   */
  datatype DbState = DbState(hasTable: bool, rows: seq<StoredRow>, lastId: nat)

  /** What a run reports, and the database it leaves behind. */
  datatype RunResult = RunResult(outcome: Result<nat, SeedError>, db: DbState)

  // ---------------------------------------------------------------------
  // Row normaliser
  // ---------------------------------------------------------------------

  /** `Array.isArray(p) ? p.join(', ') : ''`. */
  function PinyinText(p: PinyinField): string
  {
    match p
    case PinyinList(readings) => Join(readings, PinyinSeparator)
    case _ => ""
  }

  /** The row object built for one decoded line. */
  function NormaliseRow(rec: SourceRecord): (row: CharacterRow)
    ensures row.character == Bind(rec.character) && row.radical == Bind(rec.radical)
    ensures row.isRadical == 0 || row.isRadical == 1
    ensures row.isRadical == 1 <==> rec.character == rec.radical
    ensures TruthyStr(rec.definition) ==> row.definition == rec.definition.value
    ensures !TruthyStr(rec.definition) ==> row.definition == ""
    ensures row.hskLevel != Some(0)
    ensures row.hskLevel.Some? <==> TruthyInt(rec.hsk)
    ensures row.hskLevel.Some? ==> row.hskLevel == rec.hsk
    ensures row.radicalVariants != Some("")
    ensures row.radicalVariants.Some? <==> TruthyStr(rec.variants)
    ensures row.radicalVariants.Some? ==> row.radicalVariants == rec.variants
    ensures rec.pinyin.PinyinList? ==> row.pinyin == Join(rec.pinyin.readings, PinyinSeparator)
    ensures !rec.pinyin.PinyinList? ==> row.pinyin == ""
  {
    CharacterRow(
      character := Bind(rec.character),
      definition := StrOr(rec.definition, ""),
      pinyin := PinyinText(rec.pinyin),
      radical := Bind(rec.radical),
      hskLevel := IntOrNull(rec.hsk),
      isRadical := if rec.character == rec.radical then 1 else 0,
      radicalVariants := StrOrNull(rec.variants))
  }

  /** The stored pinyin is lossless: splitting it at ", " gives the readings back, in order. */
  lemma PinyinRecoverable(rec: SourceRecord)
    requires rec.pinyin.PinyinList? && |rec.pinyin.readings| > 0
    requires FreeOf(rec.pinyin.readings, ',')
    ensures Split(NormaliseRow(rec).pinyin, PinyinSeparator) == rec.pinyin.readings
  {
    SplitJoin(rec.pinyin.readings, PinyinSeparator);
  }

  /** The stored pinyin is empty exactly for an absent or non-array value, `[]` or `[""]`. */
  lemma PinyinEmptyExactly(rec: SourceRecord)
    ensures NormaliseRow(rec).pinyin == "" <==>
      !rec.pinyin.PinyinList? || rec.pinyin.readings == [] || rec.pinyin.readings == [""]
  {
  }

  /** One reading is stored as itself; two are joined by ", " in their order. */
  lemma PinyinExamples(rec: SourceRecord)
    ensures rec.pinyin == PinyinList(["yī"]) ==> NormaliseRow(rec).pinyin == "yī"
    ensures rec.pinyin == PinyinList(["yī", "yì"]) ==> NormaliseRow(rec).pinyin == "yī, yì"
    ensures rec.pinyin == PinyinList([]) ==> NormaliseRow(rec).pinyin == ""
  {
  }

  // ---------------------------------------------------------------------
  // Batch building
  // ---------------------------------------------------------------------

  /**
   * The `for await` loop: the batch of normalised rows, one per line in
   * order, or the index of the first line that does not parse.
   */
  function ParseLines(lines: seq<Line>): Result<seq<CharacterRow>, nat>
    decreases |lines|
  {
    if |lines| == 0 then Ok([])
    else
      match ParseLines(lines[..|lines| - 1])
      case Err(k) => Err(k)
      case Ok(batch) =>
        match lines[|lines| - 1]
        case Malformed => Err(|lines| - 1)
        case Decoded(rec) => Ok(batch + [NormaliseRow(rec)])
  }

  /**
   * Parsing succeeds exactly when every line decodes, and then yields one
   * normalised row per line, in order; otherwise it names the first line
   * that failed.
   */
  lemma {:induction false} ParseLinesMeaning(lines: seq<Line>)
    ensures ParseLines(lines).Ok? <==> forall j :: 0 <= j < |lines| ==> lines[j].Decoded?
    ensures ParseLines(lines).Ok? ==>
      |ParseLines(lines).value| == |lines| &&
      forall j :: 0 <= j < |lines| ==> ParseLines(lines).value[j] == NormaliseRow(lines[j].rec)
    ensures ParseLines(lines).Err? ==>
      ParseLines(lines).error < |lines| && lines[ParseLines(lines).error].Malformed? &&
      forall j :: 0 <= j < ParseLines(lines).error ==> lines[j].Decoded?
    decreases |lines|
  {
    if |lines| > 0 {
      var init := lines[..|lines| - 1];
      ParseLinesMeaning(init);
      assert forall j :: 0 <= j < |init| ==> init[j] == lines[j];
    }
  }

  /** Once a prefix fails to parse, the whole input fails the same way. */
  lemma {:induction false} ParseErrPersists(lines: seq<Line>, n: nat)
    requires n <= |lines| && ParseLines(lines[..n]).Err?
    ensures ParseLines(lines) == ParseLines(lines[..n])
    decreases |lines|
  {
    if n == |lines| {
      assert lines[..n] == lines;
    } else {
      var init := lines[..|lines| - 1];
      assert init[..n] == lines[..n];
      ParseErrPersists(init, n);
    }
  }

  /** The loop of lines 48-61, pushing onto a batch; it stops at the first malformed line. */
  method ParseBatch(lines: seq<Line>) returns (parsed: Result<seq<CharacterRow>, nat>)
    ensures parsed == ParseLines(lines)
  {
    var batch: seq<CharacterRow> := [];
    var i := 0;
    while i < |lines|
      invariant 0 <= i <= |lines|
      invariant ParseLines(lines[..i]) == Ok(batch)
    {
      assert lines[..i + 1][..i] == lines[..i];
      match lines[i] {
        case Malformed =>
          ParseErrPersists(lines, i + 1);
          return Err(i);
        case Decoded(rec) =>
          batch := batch + [NormaliseRow(rec)];
      }
      i := i + 1;
    }
    assert lines[..|lines|] == lines;
    parsed := Ok(batch);
  }

  // ---------------------------------------------------------------------
  // The table and the transaction, as values
  // ---------------------------------------------------------------------

  /** Every row of the batch binds a non-null `character`. */
  predicate AllNamed(batch: seq<CharacterRow>)
  {
    forall k :: 0 <= k < |batch| ==> batch[k].character.Some?
  }

  /** Every line decodes and names a character: the lines of a run that commits. */
  predicate GoodLines(lines: seq<Line>)
  {
    forall j :: 0 <= j < |lines| ==> lines[j].Decoded? && lines[j].rec.character.Present?
  }

  /** The first row of the batch whose `character` is null: the INSERT that fails. */
  function FirstUnnamed(batch: seq<CharacterRow>): (k: nat)
    requires !AllNamed(batch)
    ensures k < |batch| && batch[k].character.None?
    ensures forall j :: 0 <= j < k ==> batch[j].character.Some?
    decreases |batch|
  {
    if batch[0].character.None? then 0
    else
      assert !AllNamed(batch[1..]) by {
        var k :| 0 <= k < |batch| && batch[k].character.None?;
        assert batch[1..][k - 1] == batch[k];
      }
      FirstUnnamed(batch[1..]) + 1
  }

  /** The row SQLite stores for bound parameters `row` under rowid `id`. */
  function Store(row: CharacterRow, id: nat): (stored: StoredRow)
    requires row.character.Some?
  {
    StoredRow(id, row.character.value, row.definition, row.pinyin, row.radical,
              row.hskLevel, row.isRadical, row.radicalVariants)
  }

  /** The rows a batch becomes when inserted after AUTOINCREMENT counter `base`. */
  function Stamp(batch: seq<CharacterRow>, base: nat): (stored: seq<StoredRow>)
    requires AllNamed(batch)
    ensures |stored| == |batch|
    ensures forall k :: 0 <= k < |batch| ==> stored[k] == Store(batch[k], base + k + 1)
    decreases |batch|
  {
    if |batch| == 0 then []
    else Stamp(batch[..|batch| - 1], base) + [Store(batch[|batch| - 1], base + |batch|)]
  }

  /**
   * What the database guarantees: every id is at least 1, ids rise strictly in insertion
   * order and never exceed the AUTOINCREMENT counter; a missing table has no
   * rows and no counter.
   */
  predicate ValidState(db: DbState)
  {
    (forall i, j :: 0 <= i < j < |db.rows| ==> db.rows[i].id < db.rows[j].id) &&
    (forall i :: 0 <= i < |db.rows| ==> 1 <= db.rows[i].id <= db.lastId) &&
    (!db.hasTable ==> db.rows == [] && db.lastId == 0)
  }

  /** `CREATE TABLE IF NOT EXISTS`: an existing table keeps its rows and its counter. */
  function CreateIfNotExists(db: DbState): DbState
  {
    db.(hasTable := true)
  }

  /** `DROP TABLE IF EXISTS` then `CREATE TABLE`: no rows, and the counter is gone. */
  function DropAndCreate(db: DbState): DbState
  {
    DbState(true, [], 0)
  }

  /**
   * `insertMany(batch)`: inside one transaction, either every row is
   * appended with the next ids, or the first row with a null character
   * aborts it and the table is as it was.
   */
  function InsertAll(db: DbState, batch: seq<CharacterRow>): RunResult
  {
    if !AllNamed(batch) then RunResult(Err(NotNullViolation(FirstUnnamed(batch))), db)
    else RunResult(Ok(|batch|), db.(rows := db.rows + Stamp(batch, db.lastId),
                                    lastId := db.lastId + |batch|))
  }

  /** `seed()`: prepare the INSERT, parse every line, then insert the batch. */
  function SeedRun(db: DbState, lines: seq<Line>): RunResult
  {
    if !db.hasTable then RunResult(Err(NoSuchTable), db)
    else
      match ParseLines(lines)
      case Err(k) => RunResult(Err(ParseError(k)), db)
      case Ok(batch) => InsertAll(db, batch)
  }

  /** The script as written: create the table if it is missing, then seed. */
  function ScriptAsWritten(db: DbState, lines: seq<Line>): RunResult
  {
    SeedRun(CreateIfNotExists(db), lines)
  }

  /** The script with the fresh state its schema comment describes: reset the table, then seed. */
  function ScriptFresh(db: DbState, lines: seq<Line>): RunResult
  {
    SeedRun(DropAndCreate(db), lines)
  }

  /**
   * What one run does: it succeeds exactly when the table exists, every
   * line parses and every line names a character; a success appends one row
   * per line, in order, after the rows already there, with the next ids,
   * and reports the line count; any failure leaves the database as it was.
   */
  lemma SeedRunMeaning(db: DbState, lines: seq<Line>)
    ensures SeedRun(db, lines).outcome.Ok? <==> db.hasTable && GoodLines(lines)
    ensures SeedRun(db, lines).outcome.Err? ==> SeedRun(db, lines).db == db
    ensures SeedRun(db, lines).outcome.Ok? ==>
      SeedRun(db, lines).outcome.value == |lines| &&
      SeedRun(db, lines).db.hasTable &&
      |SeedRun(db, lines).db.rows| == |db.rows| + |lines| &&
      SeedRun(db, lines).db.rows[..|db.rows|] == db.rows &&
      SeedRun(db, lines).db.lastId == db.lastId + |lines|
    ensures SeedRun(db, lines).outcome.Ok? ==>
      forall j :: 0 <= j < |lines| ==>
        SeedRun(db, lines).db.rows[|db.rows| + j] == Store(NormaliseRow(lines[j].rec), db.lastId + j + 1)
  {
    ParseLinesMeaning(lines);
    if db.hasTable && ParseLines(lines).Ok? {
      var batch := ParseLines(lines).value;
      if AllNamed(batch) {
        var stamped := Stamp(batch, db.lastId);
        var rows := db.rows + stamped;
        assert SeedRun(db, lines).db.rows == rows;
        assert rows[..|db.rows|] == db.rows;
        forall j | 0 <= j < |lines|
          ensures lines[j].rec.character.Present?
          ensures rows[|db.rows| + j] == Store(NormaliseRow(lines[j].rec), db.lastId + j + 1)
        {
          assert batch[j] == NormaliseRow(lines[j].rec);
          assert rows[|db.rows| + j] == stamped[j];
        }
      } else {
        var k := FirstUnnamed(batch);
        assert batch[k] == NormaliseRow(lines[k].rec);
      }
    }
  }

  /** A run, successful or not, keeps the database's id guarantees. */
  lemma SeedRunKeepsValid(db: DbState, lines: seq<Line>)
    requires ValidState(db)
    ensures ValidState(SeedRun(db, lines).db)
  {
  }

  /** Every committed row of a run flags itself as a radical exactly when it is its own radical. */
  lemma CommittedIsRadical(db: DbState, lines: seq<Line>, j: nat)
    requires SeedRun(db, lines).outcome.Ok? && |db.rows| <= j < |SeedRun(db, lines).db.rows|
    ensures SeedRun(db, lines).db.rows[j].isRadical ==
      if Some(SeedRun(db, lines).db.rows[j].character) == SeedRun(db, lines).db.rows[j].radical then 1 else 0
  {
    SeedRunMeaning(db, lines);
    var rec := lines[j - |db.rows|].rec;
    assert SeedRun(db, lines).db.rows[j] == Store(NormaliseRow(rec), db.lastId + (j - |db.rows|) + 1);
  }

  /** A run over good lines appends one row per line, with each line's character and the next ids. */
  lemma GoodRunAppends(db: DbState, lines: seq<Line>)
    requires db.hasTable && GoodLines(lines)
    ensures SeedRun(db, lines).outcome == Ok(|lines|)
    ensures SeedRun(db, lines).db.hasTable
    ensures |SeedRun(db, lines).db.rows| == |db.rows| + |lines|
    ensures SeedRun(db, lines).db.rows[..|db.rows|] == db.rows
    ensures SeedRun(db, lines).db.lastId == db.lastId + |lines|
    ensures forall j :: 0 <= j < |lines| ==>
      SeedRun(db, lines).db.rows[|db.rows| + j].character == lines[j].rec.character.value &&
      SeedRun(db, lines).db.rows[|db.rows| + j].id == db.lastId + j + 1
  {
    SeedRunMeaning(db, lines);
  }

  /**
   * As written, running the script twice over the same good file succeeds
   * both times and never removes a row: the table grows by two rows per
   * line and the rows from before either run are still its prefix.
   */
  lemma RerunAsWrittenKeepsOldRows(db: DbState, lines: seq<Line>, first: RunResult, second: RunResult)
    requires GoodLines(lines)
    requires first == ScriptAsWritten(db, lines) && second == ScriptAsWritten(first.db, lines)
    ensures first.outcome == Ok(|lines|) && second.outcome == Ok(|lines|)
    ensures |second.db.rows| == |db.rows| + 2 * |lines|
    ensures second.db.rows[..|db.rows|] == db.rows
  {
    GoodRunAppends(CreateIfNotExists(db), lines);
    assert CreateIfNotExists(first.db) == first.db;
    GoodRunAppends(first.db, lines);
    var n, m := |db.rows|, |lines|;
    assert second.db.rows[..n] == first.db.rows[..n + m][..n];
  }

  /**
   * As written, after two runs every line's character is stored twice,
   * once per run, under two different ids.
   */
  lemma RerunAsWrittenDuplicates(db: DbState, lines: seq<Line>, first: RunResult, second: RunResult, j: nat)
    requires GoodLines(lines) && j < |lines|
    requires first == ScriptAsWritten(db, lines) && second == ScriptAsWritten(first.db, lines)
    ensures |second.db.rows| == |db.rows| + 2 * |lines|
    ensures second.db.rows[|db.rows| + j].character == lines[j].rec.character.value
    ensures second.db.rows[|db.rows| + |lines| + j].character == lines[j].rec.character.value
    ensures second.db.rows[|db.rows| + j].id == db.lastId + j + 1
    ensures second.db.rows[|db.rows| + |lines| + j].id == db.lastId + |lines| + j + 1
  {
    GoodRunAppends(CreateIfNotExists(db), lines);
    assert CreateIfNotExists(first.db) == first.db;
    GoodRunAppends(first.db, lines);
    var n, m := |db.rows|, |lines|;
    assert second.db.rows[n + j] == first.db.rows[..n + m][n + j];
  }

  /**
   * With the table reset first, a run does not depend on what the database
   * held before, so running it again leaves the same table and report; a
   * success holds exactly one row per line, numbered from 1.
   */
  lemma RerunFreshStable(db: DbState, other: DbState, lines: seq<Line>)
    ensures ScriptFresh(ScriptFresh(db, lines).db, lines) == ScriptFresh(db, lines)
    ensures ScriptFresh(other, lines) == ScriptFresh(db, lines)
    ensures ScriptFresh(db, lines).outcome.Ok? ==>
      |ScriptFresh(db, lines).db.rows| == |lines| &&
      forall j :: 0 <= j < |lines| ==>
        lines[j].Decoded? && lines[j].rec.character.Present? &&
        ScriptFresh(db, lines).db.rows[j] == Store(NormaliseRow(lines[j].rec), j + 1)
  {
    SeedRunMeaning(DropAndCreate(db), lines);
  }

  /** The dictionary line for 一: its own radical, nothing else given. */
  const LineYi := Decoded(SourceRecord(Present("一"), None, NoPinyin, Present("一"), None, None))

  /** The dictionary line for 人: its own radical, one reading. */
  const LineRen := Decoded(SourceRecord(Present("人"), None, PinyinList(["rén"]), Present("人"), None, None))

  /**
   * The two-line file imports to two rows, 一 and 人, both radicals, with
   * pinyin "" and "rén": for the script as written on a first run (no table
   * yet), and for the reset script from any database.
   */
  lemma TwoLineScenario(db: DbState)
    ensures ScriptAsWritten(DbState(false, [], 0), [LineYi, LineRen]) == ScriptFresh(db, [LineYi, LineRen])
    ensures ScriptFresh(db, [LineYi, LineRen]).outcome == Ok(2)
    ensures ScriptFresh(db, [LineYi, LineRen]).db.rows ==
      [StoredRow(1, "一", "", "", Some("一"), None, 1, None),
       StoredRow(2, "人", "", "rén", Some("人"), None, 1, None)]
  {
    var lines := [LineYi, LineRen];
    ParseLinesMeaning(lines);
    var batch := ParseLines(lines).value;
    assert batch[0] == CharacterRow(Some("一"), "", "", Some("一"), None, 1, None);
    assert batch[1] == CharacterRow(Some("人"), "", "rén", Some("人"), None, 1, None);
    assert AllNamed(batch);
    var rows := Stamp(batch, 0);
    assert rows[0] == StoredRow(1, "一", "", "", Some("一"), None, 1, None);
    assert rows[1] == StoredRow(2, "人", "", "rén", Some("人"), None, 1, None);
  }

  /**
   * `===` keeps null and undefined apart: a line whose character is null and
   * whose radical is absent is not its own radical, one missing both is; and
   * neither can be stored, since the character binds as NULL.
   */
  lemma NamelessLines(db: DbState)
    requires db.hasTable
    ensures NormaliseRow(SourceRecord(Null, None, NoPinyin, Absent, None, None)).isRadical == 0
    ensures NormaliseRow(SourceRecord(Absent, None, NoPinyin, Absent, None, None)).isRadical == 1
    ensures SeedRun(db, [Decoded(SourceRecord(Null, None, NoPinyin, Absent, None, None))]) ==
      RunResult(Err(NotNullViolation(0)), db)
    ensures SeedRun(db, [Decoded(SourceRecord(Absent, None, NoPinyin, Absent, None, None))]) ==
      RunResult(Err(NotNullViolation(0)), db)
  {
    var nulled := [Decoded(SourceRecord(Null, None, NoPinyin, Absent, None, None))];
    ParseLinesMeaning(nulled);
    assert ParseLines(nulled).value[0].character == None;
    var absent := [Decoded(SourceRecord(Absent, None, NoPinyin, Absent, None, None))];
    ParseLinesMeaning(absent);
    assert ParseLines(absent).value[0].character == None;
  }

  // ---------------------------------------------------------------------
  // The table, updated in place
  // ---------------------------------------------------------------------

  /** The open `hanzi.db` connection and its `characters` table. */
  class Database {
    var hasTable: bool
    var rows: seq<StoredRow>
    var lastId: nat

    function State(): DbState
      reads this
    {
      DbState(hasTable, rows, lastId)
    }

    predicate Valid()
      reads this
    {
      ValidState(State())
    }

    /** Opens the database file with the contents it already has. */
    constructor Open(initial: DbState)
      requires ValidState(initial)
      ensures Valid() && State() == initial
    {
      hasTable, rows, lastId := initial.hasTable, initial.rows, initial.lastId;
    }

    /** The schema statement as the script has it: `CREATE TABLE IF NOT EXISTS`. */
    method CreateSchema()
      requires Valid()
      modifies this
      ensures Valid() && State() == CreateIfNotExists(old(State()))
    {
      hasTable := true;
    }

    /** The fresh start the schema comment describes: drop the table, then create it. */
    method ResetSchema()
      requires Valid()
      modifies this
      ensures Valid() && State() == DropAndCreate(old(State()))
    {
      hasTable, rows, lastId := true, [], 0;
    }

    /** `insert.run(row)`: a null character breaks NOT NULL and nothing is stored. */
    method InsertRow(row: CharacterRow) returns (ok: bool)
      requires Valid() && hasTable
      modifies this
      ensures Valid() && hasTable
      ensures ok <==> row.character.Some?
      ensures ok ==> rows == old(rows) + [Store(row, old(lastId) + 1)] && lastId == old(lastId) + 1
      ensures !ok ==> State() == old(State())
    {
      if row.character.None? {
        return false;
      }
      rows := rows + [Store(row, lastId + 1)];
      lastId := lastId + 1;
      ok := true;
    }

    /** `insertMany(batch)`: the transaction of lines 41-43, rolled back on the first failing row. */
    method InsertMany(batch: seq<CharacterRow>) returns (res: Result<nat, SeedError>)
      requires Valid() && hasTable
      modifies this
      ensures Valid()
      ensures RunResult(res, State()) == InsertAll(old(State()), batch)
    {
      var savedRows, savedLastId := rows, lastId;
      var i := 0;
      while i < |batch|
        invariant 0 <= i <= |batch|
        invariant Valid() && hasTable
        invariant forall j :: 0 <= j < i ==> batch[j].character.Some?
        invariant rows == savedRows + Stamp(batch[..i], savedLastId)
        invariant lastId == savedLastId + i
      {
        var ok := InsertRow(batch[i]);
        if !ok {
          rows, lastId := savedRows, savedLastId;
          return Err(NotNullViolation(i));
        }
        assert batch[..i + 1][..i] == batch[..i];
        i := i + 1;
      }
      assert batch[..|batch|] == batch;
      res := Ok(|batch|);
    }

    /** The whole script as written: the schema statement, then `seed()`. */
    method RunScriptAsWritten(lines: seq<Line>) returns (res: Result<nat, SeedError>)
      requires Valid()
      modifies this
      ensures Valid()
      ensures RunResult(res, State()) == ScriptAsWritten(old(State()), lines)
    {
      CreateSchema();
      res := Seed(lines);
    }

    /** `seed()`: build the whole batch first, and touch the table only when every line parsed. */
    method Seed(lines: seq<Line>) returns (res: Result<nat, SeedError>)
      requires Valid()
      modifies this
      ensures Valid()
      ensures RunResult(res, State()) == SeedRun(old(State()), lines)
    {
      if !hasTable {
        return Err(NoSuchTable);
      }
      var parsed := ParseBatch(lines);
      match parsed {
        case Err(k) =>
          res := Err(ParseError(k));
        case Ok(batch) =>
          res := InsertMany(batch);
      }
    }
  }
}
