/** app/services/admin_import_service.py: the chunked import driver, its counters and its error list.
    Validation, the per-kind persistence and the chunk commits are inputs. */
module CsvImport {

  const CHUNK_SIZE: nat := 100
  const MAX_RECORDED_ERRORS: nat := 1000

  type Raw = string

  /** A data row and the number it is reported under: the header is number 1. */
  datatype Numbered = Numbered(number: nat, raw: Raw)

  datatype RowError = SchemaError(row: nat) | PersistError(row: nat) | ChunkError(row: nat)

  datatype Applied = Applied(ok: nat, errors: seq<RowError>)

  /** apply persists the valid rows of a chunk; raises says whether the commit of chunk i then fails. */
  datatype Env = Env(valid: Raw -> bool, apply: seq<Numbered> -> Applied, raises: nat -> bool, dryRun: bool) {
    /** Every row handed to apply is applied or gets one error of its own. */
    ghost predicate Sound() {
      forall rows: seq<Numbered> ::
        var a := apply(rows);
        && a.ok + |a.errors| == |rows|
        && forall e <- a.errors :: e.PersistError? && exists k | 0 <= k < |rows| :: rows[k].number == e.row
    }
  }

  // Chunks

  function Number(rows: seq<Raw>, first: nat): seq<Numbered> {
    seq(|rows|, k requires 0 <= k < |rows| => Numbered(first + k, rows[k]))
  }

  function Flatten<T>(parts: seq<seq<T>>): seq<T> {
    if parts == [] then [] else Flatten(parts[..|parts| - 1]) + parts[|parts| - 1]
  }

  method ChunkedRows(rows: seq<Raw>, size: nat) returns (chunks: seq<seq<Raw>>)
    requires size > 0
    ensures Flatten(chunks) == rows
    ensures forall i | 0 <= i < |chunks| :: 0 < |chunks[i]| <= size
    ensures forall i | 0 <= i < |chunks| - 1 :: |chunks[i]| == size
  {
    chunks := [];
    var buf: seq<Raw> := [];
    for k := 0 to |rows|
      invariant Flatten(chunks) + buf == rows[..k]
      invariant |buf| < size
      invariant forall i | 0 <= i < |chunks| :: |chunks[i]| == size
    {
      buf := buf + [rows[k]];
      assert rows[..k + 1] == rows[..k] + [rows[k]];
      if |buf| >= size {
        assert (chunks + [buf])[..|chunks|] == chunks;
        chunks := chunks + [buf];
        buf := [];
      }
    }
    assert rows[..|rows|] == rows;
    if buf != [] {
      assert (chunks + [buf])[..|chunks|] == chunks;
      chunks := chunks + [buf];
    }
  }

  /** The rows in chunks of CHUNK_SIZE, the last one holding the remainder. */
  function Chunks(rows: seq<Raw>): seq<seq<Raw>> {
    if rows == [] then []
    else
      var k := (|rows| - 1) / CHUNK_SIZE * CHUNK_SIZE;
      Chunks(rows[..k]) + [rows[k..]]
  }

  /** A division of the rows into full chunks and a last one. */
  predicate Chunked(chunks: seq<seq<Raw>>, rows: seq<Raw>) {
    && Flatten(chunks) == rows
    && (forall i | 0 <= i < |chunks| - 1 :: |chunks[i]| == CHUNK_SIZE)
    && (chunks != [] ==> 0 < |chunks[|chunks| - 1]| <= CHUNK_SIZE)
  }

  lemma {:induction false} FullChunksLength(chunks: seq<seq<Raw>>)
    requires forall i | 0 <= i < |chunks| :: |chunks[i]| == CHUNK_SIZE
    ensures |Flatten(chunks)| == |chunks| * CHUNK_SIZE
  {
    if chunks != [] {
      FullChunksLength(chunks[..|chunks| - 1]);
    }
  }

  /** The last chunk is what follows the full ones, and its numbers are those of its rows. */
  lemma LastChunk(chunks: seq<seq<Raw>>, rows: seq<Raw>) returns (front: seq<Raw>, i: nat, last: seq<Raw>)
    requires chunks != [] && Chunked(chunks, rows)
    ensures i == |chunks| - 1 && last == chunks[i] && rows == front + last && |front| == i * CHUNK_SIZE
    ensures Chunked(chunks[..i], front) && 0 < |last| <= CHUNK_SIZE
    ensures Number(rows, 2) == Number(front, 2) + Number(last, |front| + 2)
  {
    i, last := |chunks| - 1, chunks[|chunks| - 1];
    front := Flatten(chunks[..i]);
    FullChunksLength(chunks[..i]);
  }

  lemma {:induction false} ChunksPartition(rows: seq<Raw>)
    ensures Chunked(Chunks(rows), rows) && |Chunks(rows)| == (|rows| + 99) / 100
    ensures forall i | 0 <= i < |Chunks(rows)| - 1 :: |Chunks(rows)[i]| == 100
  {
    if rows != [] {
      var k := (|rows| - 1) / CHUNK_SIZE * CHUNK_SIZE;
      ChunksPartition(rows[..k]);
      FullChunks(rows[..k]);
      var front := Chunks(rows[..k]);
      assert (front + [rows[k..]])[..|front|] == front;
    }
  }

  lemma {:induction false} FullChunks(rows: seq<Raw>)
    requires |rows| % CHUNK_SIZE == 0
    ensures forall i | 0 <= i < |Chunks(rows)| :: |Chunks(rows)[i]| == CHUNK_SIZE
  {
    if rows != [] {
      FullChunks(rows[..(|rows| - 1) / CHUNK_SIZE * CHUNK_SIZE]);
    }
  }

  /** There is one such division. */
  lemma {:induction false} ChunksAreUnique(chunks: seq<seq<Raw>>, rows: seq<Raw>)
    requires Chunked(chunks, rows)
    ensures chunks == Chunks(rows)
    decreases |chunks|
  {
    if chunks != [] {
      var front, i, last := LastChunk(chunks, rows);
      ChunksAreUnique(chunks[..i], front);
      assert (|rows| - 1) / CHUNK_SIZE * CHUNK_SIZE == |front|;
      assert rows[..|front|] == front && rows[|front|..] == last;
      assert chunks == chunks[..i] + [last];
    }
  }

  // What the driver computes

  function ValidRows(ns: seq<Numbered>, valid: Raw -> bool): seq<Numbered> {
    if ns == [] then []
    else ValidRows(ns[..|ns| - 1], valid) + if valid(ns[|ns| - 1].raw) then [ns[|ns| - 1]] else []
  }

  function SchemaErrors(ns: seq<Numbered>, valid: Raw -> bool): seq<RowError> {
    if ns == [] then []
    else
      var n := |ns| - 1;
      SchemaErrors(ns[..n], valid) + if valid(ns[n].raw) then [] else [SchemaError(ns[n].number)]
  }

  datatype Report = Report(processed: nat, succeeded: nat, failed: nat, errors: seq<RowError>)

  predicate Raises(env: Env, i: nat, vs: seq<Numbered>) {
    vs != [] && !env.dryRun && env.raises(i)
  }

  /** What chunk i adds to the report. */
  function ChunkReport(env: Env, i: nat, chunk: seq<Raw>): Report {
    var ns := Number(chunk, i * CHUNK_SIZE + 2);
    var vs, es := ValidRows(ns, env.valid), SchemaErrors(ns, env.valid);
    if vs == [] then Report(|chunk|, 0, |es|, es)
    else if env.dryRun then Report(|chunk|, |vs|, |es|, es)
    else
      var a := env.apply(vs);
      var errors := es + a.errors;
      if env.raises(i) then
        Report(|chunk|, 0, |vs| + |errors| + 1, errors + [ChunkError(vs[0].number)])
      else Report(|chunk|, a.ok, |errors|, errors)
  }

  function Sum(a: Report, b: Report): Report {
    Report(a.processed + b.processed, a.succeeded + b.succeeded, a.failed + b.failed, a.errors + b.errors)
  }

  function FullReport(env: Env, chunks: seq<seq<Raw>>): Report {
    if chunks == [] then Report(0, 0, 0, [])
    else Sum(FullReport(env, chunks[..|chunks| - 1]), ChunkReport(env, |chunks| - 1, chunks[|chunks| - 1]))
  }

  function Capped(errors: seq<RowError>): seq<RowError> {
    if |errors| <= MAX_RECORDED_ERRORS then errors else errors[..MAX_RECORDED_ERRORS]
  }

  method RecordErrors(recorded: seq<RowError>, chunkErrors: seq<RowError>, ghost before: seq<RowError>)
    returns (r: seq<RowError>)
    requires recorded == Capped(before)
    ensures r == Capped(before + chunkErrors)
  {
    r := recorded;
    for k := 0 to |chunkErrors|
      invariant r == Capped(before + chunkErrors[..k])
    {
      assert before + chunkErrors[..k + 1] == before + chunkErrors[..k] + [chunkErrors[k]];
      if |r| < MAX_RECORDED_ERRORS {
        r := r + [chunkErrors[k]];
      } else {
        assert Capped(before + chunkErrors) == r;
        return;
      }
    }
    assert chunkErrors[..|chunkErrors|] == chunkErrors;
  }

  method ValidateChunk(valid: Raw -> bool, chunkIndex: nat, chunk: seq<Raw>)
    returns (validRows: seq<Numbered>, chunkErrors: seq<RowError>)
    ensures validRows == ValidRows(Number(chunk, chunkIndex * CHUNK_SIZE + 2), valid)
    ensures chunkErrors == SchemaErrors(Number(chunk, chunkIndex * CHUNK_SIZE + 2), valid)
  {
    validRows, chunkErrors := [], [];
    ghost var ns := Number(chunk, chunkIndex * CHUNK_SIZE + 2);
    for rowOffset := 0 to |chunk|
      invariant validRows == ValidRows(ns[..rowOffset], valid)
      invariant chunkErrors == SchemaErrors(ns[..rowOffset], valid)
    {
      var rowNumber := chunkIndex * CHUNK_SIZE + rowOffset + 2;
      assert ns[..rowOffset + 1][..rowOffset] == ns[..rowOffset];
      if valid(chunk[rowOffset]) {
        validRows := validRows + [Numbered(rowNumber, chunk[rowOffset])];
      } else {
        chunkErrors := chunkErrors + [SchemaError(rowNumber)];
      }
    }
    assert ns[..|chunk|] == ns;
  }

  /** One turn of the driver's loop. */
  method ProcessChunk(env: Env, i: nat, chunk: seq<Raw>)
    returns (succeeded: nat, failed: nat, chunkErrors: seq<RowError>)
    ensures Report(|chunk|, succeeded, failed, chunkErrors) == ChunkReport(env, i, chunk)
  {
    succeeded, failed := 0, 0;
    var validRows;
    validRows, chunkErrors := ValidateChunk(env.valid, i, chunk);
    if validRows != [] && !env.dryRun {
      var a := env.apply(validRows);
      succeeded := succeeded + a.ok;
      chunkErrors := chunkErrors + a.errors;
      if env.raises(i) {
        chunkErrors := chunkErrors + [ChunkError(validRows[0].number)];
        succeeded := succeeded - a.ok;
        failed := failed + |validRows|;
      }
    } else if validRows != [] {
      succeeded := succeeded + |validRows|;
    }
    failed := failed + |chunkErrors|;
  }

  /** The driver's report: the chunks' reports added up, with the error list capped. */
  method Process(env: Env, rows: seq<Raw>) returns (r: Report)
    ensures var full := FullReport(env, Chunks(rows)); r == full.(errors := Capped(full.errors))
    ensures var all := FullReport(env, Chunks(rows)).errors;
            r.errors == if |all| <= 1000 then all else all[..1000]
  {
    var chunks := ChunkedRows(rows, CHUNK_SIZE);
    ChunksAreUnique(chunks, rows);
    var recorded: seq<RowError> := [];
    var processed, succeeded, failed: nat := 0, 0, 0;
    for i := 0 to |chunks|
      invariant var full := FullReport(env, chunks[..i]);
                processed == full.processed && succeeded == full.succeeded && failed == full.failed &&
                  recorded == Capped(full.errors)
    {
      assert chunks[..i + 1][..i] == chunks[..i];
      var ok, bad, chunkErrors := ProcessChunk(env, i, chunks[i]);
      succeeded, failed, processed := succeeded + ok, failed + bad, processed + |chunks[i]|;
      recorded := RecordErrors(recorded, chunkErrors, FullReport(env, chunks[..i]).errors);
    }
    assert chunks[..|chunks|] == chunks;
    r := Report(processed, succeeded, failed, recorded);
  }

  /** What a chunk counts: its rows as processed; as succeeded its valid rows in a dry run, otherwise what was
      applied, nothing if the commit raises; and an error for each invalid row. */
  lemma ChunkCounts(env: Env, i: nat, chunk: seq<Raw>)
    ensures var r, valid := ChunkReport(env, i, chunk), ValidRows(Number(chunk, i * 100 + 2), env.valid);
            && r.processed == |chunk|
            && r.succeeded ==
               (if valid == [] then 0 else if env.dryRun then |valid|
                else if env.raises(i) then 0 else env.apply(valid).ok)
            && (valid == [] || env.dryRun ==> r.failed == |chunk| - |valid| == |r.errors|)
  {
    SplitByValidity(Number(chunk, i * 100 + 2), env.valid);
  }

  lemma {:induction false} ValidRowsAre(ns: seq<Numbered>, valid: Raw -> bool, n: Numbered)
    ensures n in ValidRows(ns, valid) <==> n in ns && valid(n.raw)
  {
    if ns != [] {
      var k := |ns| - 1;
      ValidRowsAre(ns[..k], valid, n);
      assert ns == ns[..k] + [ns[k]];
    }
  }

  // Counting

  /** What the counters count twice: a chunk whose commit raises has its valid rows, its row errors and
      the chunk's own error all added to failed. */
  function Overcount(env: Env, chunks: seq<seq<Raw>>): nat {
    if chunks == [] then 0
    else
      var i := |chunks| - 1;
      Overcount(env, chunks[..i]) +
      if CommitRaises(env, i, chunks[i]) then 1 + |env.apply(ValidIn(env, i, chunks[i])).errors| else 0
  }

  function ValidIn(env: Env, i: nat, chunk: seq<Raw>): seq<Numbered> {
    ValidRows(Number(chunk, i * CHUNK_SIZE + 2), env.valid)
  }

  predicate CommitRaises(env: Env, i: nat, chunk: seq<Raw>) {
    Raises(env, i, ValidIn(env, i, chunk))
  }

  lemma {:induction false} SplitByValidity(ns: seq<Numbered>, valid: Raw -> bool)
    ensures |ValidRows(ns, valid)| + |SchemaErrors(ns, valid)| == |ns|
  {
    if ns != [] {
      SplitByValidity(ns[..|ns| - 1], valid);
    }
  }

  lemma {:induction false} CountsAddUp(env: Env, chunks: seq<seq<Raw>>)
    requires env.Sound()
    ensures var r := FullReport(env, chunks);
            r.succeeded + r.failed == r.processed + Overcount(env, chunks) && r.processed == |Flatten(chunks)|
  {
    if chunks != [] {
      var i := |chunks| - 1;
      CountsAddUp(env, chunks[..i]);
      var ns := Number(chunks[i], i * CHUNK_SIZE + 2);
      SplitByValidity(ns, env.valid);
      assert env.apply(ValidRows(ns, env.valid)).ok + |env.apply(ValidRows(ns, env.valid)).errors|
             == |ValidRows(ns, env.valid)|;
    }
  }

  predicate SomeCommitRaises(env: Env, chunks: seq<seq<Raw>>) {
    exists i | 0 <= i < |chunks| :: CommitRaises(env, i, chunks[i])
  }

  lemma SomeRaisesSplit(env: Env, chunks: seq<seq<Raw>>)
    requires chunks != []
    ensures var i := |chunks| - 1;
            SomeCommitRaises(env, chunks) <==> SomeCommitRaises(env, chunks[..i]) || CommitRaises(env, i, chunks[i])
  {
    var i := |chunks| - 1;
    if SomeCommitRaises(env, chunks[..i]) {
      var k :| 0 <= k < i && CommitRaises(env, k, chunks[..i][k]);
      assert CommitRaises(env, k, chunks[k]);
    }
    if k :| 0 <= k < i && CommitRaises(env, k, chunks[k]) {
      assert CommitRaises(env, k, chunks[..i][k]);
    }
  }

  lemma {:induction false} OvercountsIff(env: Env, chunks: seq<seq<Raw>>)
    ensures Overcount(env, chunks) > 0 <==> SomeCommitRaises(env, chunks)
  {
    if chunks != [] {
      OvercountsIff(env, chunks[..|chunks| - 1]);
      SomeRaisesSplit(env, chunks);
    }
  }

  /** succeeded + failed is the number of rows processed, which is all of them, exactly in the runs where
      no chunk commit raises. */
  lemma CountsAddUpIff(env: Env, rows: seq<Raw>)
    requires env.Sound()
    ensures var r := FullReport(env, Chunks(rows));
            r.processed == |rows| && (r.succeeded + r.failed == r.processed <==> !SomeCommitRaises(env, Chunks(rows)))
  {
    ChunksPartition(rows);
    CountsAddUp(env, Chunks(rows));
    OvercountsIff(env, Chunks(rows));
  }

  // Row numbers

  lemma ReportErrors(env: Env, chunks: seq<seq<Raw>>)
    requires chunks != []
    ensures FullReport(env, chunks).errors
         == FullReport(env, chunks[..|chunks| - 1]).errors + ChunkReport(env, |chunks| - 1, chunks[|chunks| - 1]).errors
  {
  }

  lemma {:induction false} SchemaErrorsAppend(a: seq<Numbered>, b: seq<Numbered>, valid: Raw -> bool)
    ensures SchemaErrors(a + b, valid) == SchemaErrors(a, valid) + SchemaErrors(b, valid)
  {
    if b == [] {
      assert a + b == a;
    } else {
      assert (a + b)[..|a + b| - 1] == a + b[..|b| - 1];
      SchemaErrorsAppend(a, b[..|b| - 1], valid);
    }
  }

  function OnlySchema(errors: seq<RowError>): seq<RowError> {
    if errors == [] then []
    else OnlySchema(errors[..|errors| - 1]) + if errors[|errors| - 1].SchemaError? then [errors[|errors| - 1]] else []
  }

  lemma {:induction false} OnlySchemaAppend(a: seq<RowError>, b: seq<RowError>)
    ensures OnlySchema(a + b) == OnlySchema(a) + OnlySchema(b)
  {
    if b == [] {
      assert a + b == a;
    } else {
      assert (a + b)[..|a + b| - 1] == a + b[..|b| - 1];
      OnlySchemaAppend(a, b[..|b| - 1]);
    }
  }

  lemma {:induction false} SchemaErrorsAreSchema(ns: seq<Numbered>, valid: Raw -> bool)
    ensures OnlySchema(SchemaErrors(ns, valid)) == SchemaErrors(ns, valid)
  {
    if ns != [] {
      var n := |ns| - 1;
      SchemaErrorsAreSchema(ns[..n], valid);
      OnlySchemaAppend(SchemaErrors(ns[..n], valid), if valid(ns[n].raw) then [] else [SchemaError(ns[n].number)]);
    }
  }

  lemma {:induction false} OthersAreNotSchema(errors: seq<RowError>)
    requires forall e <- errors :: !e.SchemaError?
    ensures OnlySchema(errors) == []
  {
    if errors != [] {
      OthersAreNotSchema(errors[..|errors| - 1]);
    }
  }

  lemma ChunkSchemaErrors(env: Env, i: nat, chunk: seq<Raw>)
    requires env.Sound()
    ensures OnlySchema(ChunkReport(env, i, chunk).errors) == SchemaErrors(Number(chunk, i * CHUNK_SIZE + 2), env.valid)
  {
    var ns := Number(chunk, i * CHUNK_SIZE + 2);
    var vs, es := ValidRows(ns, env.valid), SchemaErrors(ns, env.valid);
    SchemaErrorsAreSchema(ns, env.valid);
    if Raises(env, i, vs) {
      var tail := env.apply(vs).errors + [ChunkError(vs[0].number)];
      OthersAreNotSchema(tail);
      OnlySchemaAppend(es, tail);
      assert es + tail == es + env.apply(vs).errors + [ChunkError(vs[0].number)];
    } else if vs != [] && !env.dryRun {
      OthersAreNotSchema(env.apply(vs).errors);
      OnlySchemaAppend(es, env.apply(vs).errors);
    }
  }

  /** The validation errors reported, before the cap, are exactly those of the invalid rows of the whole
      file, once each, in order, numbered from 2. */
  lemma {:induction false} ErrorsNameTheirRows(env: Env, chunks: seq<seq<Raw>>, rows: seq<Raw>)
    requires env.Sound() && Chunked(chunks, rows)
    ensures OnlySchema(FullReport(env, chunks).errors) == SchemaErrors(Number(rows, 2), env.valid)
    decreases |chunks|
  {
    if chunks != [] {
      var front, i, last := LastChunk(chunks, rows);
      ErrorsNameTheirRows(env, chunks[..i], front);
      ReportErrors(env, chunks);
      ChunkSchemaErrors(env, i, last);
      OnlySchemaAppend(FullReport(env, chunks[..i]).errors, ChunkReport(env, i, last).errors);
      SchemaErrorsAppend(Number(front, 2), Number(last, |front| + 2), env.valid);
    }
  }

  lemma {:induction false} SchemaErrorAt(rows: seq<Raw>, valid: Raw -> bool, n: nat)
    ensures SchemaError(n) in SchemaErrors(Number(rows, 2), valid) <==> 2 <= n < |rows| + 2 && !valid(rows[n - 2])
  {
    if rows != [] {
      var k := |rows| - 1;
      assert Number(rows, 2)[..k] == Number(rows[..k], 2);
      SchemaErrorAt(rows[..k], valid, n);
    }
  }

  // Rows and lines

  /** The file after its header, as csv.DictReader reads it: blank lines, which it skips, and records, which
      quoted line breaks spread over several lines. */
  datatype Item = Blank | Record(raw: Raw, breaks: nat)

  function Records(items: seq<Item>): seq<Raw> {
    if items == [] then []
    else
      var n := |items| - 1;
      Records(items[..n]) + if items[n].Record? then [items[n].raw] else []
  }

  function Lines(items: seq<Item>): nat {
    if items == [] then 0
    else
      var n := |items| - 1;
      Lines(items[..n]) + match items[n] case Blank => 1 case Record(_, breaks) => 1 + breaks
  }

  /** The line of the file on which an item starts, after a header with its own line breaks. */
  function LineOf(headerBreaks: nat, items: seq<Item>, i: nat): nat
    requires i < |items|
  {
    1 + headerBreaks + Lines(items[..i]) + 1
  }

  /** The number the import gives it. */
  function ReportedAs(items: seq<Item>, i: nat): nat
    requires i < |items|
  {
    |Records(items[..i])| + 2
  }

  predicate OnePerLine(items: seq<Item>) {
    forall k | 0 <= k < |items| :: items[k].Record? && items[k].breaks == 0
  }

  lemma {:induction false} LinesAndRecords(items: seq<Item>)
    ensures |Records(items)| <= Lines(items)
    ensures |Records(items)| == Lines(items) <==> OnePerLine(items)
  {
    if items != [] {
      var n := |items| - 1;
      LinesAndRecords(items[..n]);
      assert forall k | 0 <= k < n :: items[..n][k] == items[k];
    }
  }

  lemma {:induction false} RecordIsRow(items: seq<Item>, i: nat)
    requires i < |items| && items[i].Record?
    ensures var k := |Records(items[..i])|; k < |Records(items)| && Records(items)[k] == items[i].raw
    decreases |items|
  {
    var n := |items| - 1;
    if i < n {
      assert items[..n][..i] == items[..i];
      RecordIsRow(items[..n], i);
    }
  }

  lemma {:induction false} OnlySchemaIsThere(errors: seq<RowError>, e: RowError)
    requires e in OnlySchema(errors)
    ensures e in errors
  {
    var n := |errors| - 1;
    if e in OnlySchema(errors[..n]) {
      OnlySchemaIsThere(errors[..n], e);
    }
  }

  /** An invalid row is reported under its line of the file exactly when the header and everything before
      the row takes one line each and no blank line has been skipped; otherwise under an earlier one. */
  lemma ErrorNamesItsLineIff(env: Env, chunks: seq<seq<Raw>>, headerBreaks: nat, items: seq<Item>, i: nat)
    requires env.Sound() && Chunked(chunks, Records(items))
    requires i < |items| && items[i].Record? && !env.valid(items[i].raw)
    ensures SchemaError(ReportedAs(items, i)) in FullReport(env, chunks).errors
    ensures ReportedAs(items, i) == LineOf(headerBreaks, items, i) <==> headerBreaks == 0 && OnePerLine(items[..i])
    ensures ReportedAs(items, i) <= LineOf(headerBreaks, items, i)
  {
    LinesAndRecords(items[..i]);
    RecordIsRow(items, i);
    ErrorsNameTheirRows(env, chunks, Records(items));
    SchemaErrorAt(Records(items), env.valid, ReportedAs(items, i));
    OnlySchemaIsThere(FullReport(env, chunks).errors, SchemaError(ReportedAs(items, i)));
  }

  /** After one blank line, a bad row on line 3 is reported as line 2. */
  lemma BlankLineShifts(env: Env, chunks: seq<seq<Raw>>, raw: Raw)
    requires env.Sound() && !env.valid(raw) && Chunked(chunks, Records([Blank, Record(raw, 0)]))
    ensures LineOf(0, [Blank, Record(raw, 0)], 1) == 3
    ensures SchemaError(2) in FullReport(env, chunks).errors && SchemaError(3) !in FullReport(env, chunks).errors
  {
    var items := [Blank, Record(raw, 0)];
    assert items[..1] == [Blank] && [Blank][..0] == [];
    assert Records(items) == [raw];
    ErrorNamesItsLineIff(env, chunks, 0, items, 1);
    ErrorsNameTheirRows(env, chunks, Records(items));
    SchemaErrorAt(Records(items), env.valid, 3);
    if SchemaError(3) in FullReport(env, chunks).errors {
      SchemaIsOnly(FullReport(env, chunks).errors, SchemaError(3));
    }
  }

  lemma {:induction false} SchemaIsOnly(errors: seq<RowError>, e: RowError)
    requires e in errors && e.SchemaError?
    ensures e in OnlySchema(errors)
  {
    var n := |errors| - 1;
    if e in errors[..n] {
      SchemaIsOnly(errors[..n], e);
    }
  }

  lemma {:induction false} ValidRowsComeFrom(ns: seq<Numbered>, valid: Raw -> bool, k: nat) returns (j: nat)
    requires k < |ValidRows(ns, valid)|
    ensures j < |ns| && ns[j] == ValidRows(ns, valid)[k] && valid(ns[j].raw)
  {
    var n := |ns| - 1;
    if k < |ValidRows(ns[..n], valid)| {
      j := ValidRowsComeFrom(ns[..n], valid, k);
    } else {
      j := n;
    }
  }

  lemma LaterErrorInChunk(env: Env, i: nat, chunk: seq<Raw>, e: RowError)
    requires env.Sound() && e in ChunkReport(env, i, chunk).errors && !e.SchemaError?
    ensures i * CHUNK_SIZE + 2 <= e.row < i * CHUNK_SIZE + 2 + |chunk|
    ensures env.valid(chunk[e.row - (i * CHUNK_SIZE + 2)])
  {
    var ns := Number(chunk, i * CHUNK_SIZE + 2);
    var vs := ValidRows(ns, env.valid);
    NotASchemaError(ns, env.valid, e);
    var k: nat;
    if e.ChunkError? {
      k := 0;
    } else {
      assert e in env.apply(vs).errors;
      k :| 0 <= k < |vs| && vs[k].number == e.row;
    }
    var j := ValidRowsComeFrom(ns, env.valid, k);
  }

  /** Errors of the persistence step name valid rows of the file. */
  lemma {:induction false} LaterErrorsNameValidRows(env: Env, chunks: seq<seq<Raw>>, rows: seq<Raw>, e: RowError)
    requires env.Sound() && Chunked(chunks, rows)
    requires e in FullReport(env, chunks).errors && !e.SchemaError?
    ensures 2 <= e.row < |rows| + 2 && env.valid(rows[e.row - 2])
    decreases |chunks|
  {
    var front, i, last := LastChunk(chunks, rows);
    ReportErrors(env, chunks);
    if e in FullReport(env, chunks[..i]).errors {
      LaterErrorsNameValidRows(env, chunks[..i], front, e);
      assert rows[e.row - 2] == front[e.row - 2];
    } else {
      LaterErrorInChunk(env, i, last, e);
      assert rows[e.row - 2] == last[e.row - 2 - |front|];
    }
  }

  lemma {:induction false} NotASchemaError(ns: seq<Numbered>, valid: Raw -> bool, e: RowError)
    requires !e.SchemaError?
    ensures e !in SchemaErrors(ns, valid)
  {
    if ns != [] {
      NotASchemaError(ns[..|ns| - 1], valid, e);
    }
  }
}
