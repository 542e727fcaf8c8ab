/** The record assembler of bai2/helpers.py: lines become (code, payload)
    rows, continuation rows (88) join the record before them, and each
    record's payloads are folded into one flat list of fields. */
module Helpers {
  import opened Outcomes
  import opened Strings
  import opened Constants
  import opened Models

  // ----- rows -----

  /** `(RecordCode(line[:2]), line[3:])`. */
  function ParseRow(line: string): (r: Result<Row>)
    ensures r.Ok? ==> |line| >= 2 && CodeValue(r.value.code) == line[..2]
    ensures r.Ok? ==> r.value.payload == (if |line| >= 3 then line[3..] else "")
    ensures r.Err? ==> r.error == UnknownRecordCode(if |line| >= 2 then line[..2] else line)
  {
    var code :- ParseRecordCode(if |line| >= 2 then line[..2] else line);
    Ok(Row(code, if |line| >= 3 then line[3..] else ""))
  }

  /** A row written as "code,payload" reads back as the same row. */
  lemma ParseRowText(r: Row)
    ensures ParseRow(RowText(r)) == Ok(r)
  {
    var line := RowText(r);
    assert line[..2] == CodeValue(r.code);
    assert line[3..] == r.payload;
    ParseRecordCodeOfValue(r.code);
  }

  /** A line with its comma at index 2 is rendered back exactly by `as_string`. */
  lemma RowTextOfLine(line: string)
    requires ParseRow(line).Ok? && |line| >= 3 && line[2] == ','
    ensures RowText(ParseRow(line).value) == line
  {
    assert line == line[..2] + [line[2]] + line[3..];
  }

  /** The row list of `record_generator`, converted eagerly in line order:
      the first unknown code fails the whole list. */
  function ParseRows(lines: seq<string>): (r: Result<seq<Row>>)
    ensures r.Ok? ==> |r.value| == |lines|
    ensures r.Ok? ==> forall i :: 0 <= i < |lines| ==> ParseRow(lines[i]) == Ok(r.value[i])
  {
    if |lines| == 0 then Ok([])
    else
      var rows :- ParseRows(lines[..|lines| - 1]);
      var row :- ParseRow(lines[|lines| - 1]);
      Ok(rows + [row])
  }

  /** The list fails with the error of its first line that fails. */
  lemma {:induction false} ParseRowsFirstError(lines: seq<string>)
    requires ParseRows(lines).Err?
    ensures exists i :: 0 <= i < |lines| && ParseRow(lines[i]) == Err(ParseRows(lines).error)
                        && forall j :: 0 <= j < i ==> ParseRow(lines[j]).Ok?
  {
    var init := lines[..|lines| - 1];
    if ParseRows(init).Err? {
      ParseRowsFirstError(init);
      var i :| 0 <= i < |init| && ParseRow(init[i]) == Err(ParseRows(init).error)
               && forall j :: 0 <= j < i ==> ParseRow(init[j]).Ok?;
      assert ParseRow(lines[i]) == Err(ParseRows(lines).error);
      assert forall j :: 0 <= j < i ==> lines[j] == init[j];
    } else {
      var i := |lines| - 1;
      assert forall j :: 0 <= j < i ==> lines[j] == init[j];
      assert ParseRow(lines[i]) == Err(ParseRows(lines).error);
    }
  }

  /** Lines longer than "NN," give rows with non-empty payloads. */
  lemma ParsedPayloads(lines: seq<string>)
    requires forall i :: 0 <= i < |lines| ==> |lines[i]| > 3
    requires ParseRows(lines).Ok?
    ensures NonEmptyPayloads(ParseRows(lines).value)
  {
    var rows := ParseRows(lines).value;
    forall row | row in rows
      ensures |row.payload| > 0
    {
      var i :| 0 <= i < |rows| && rows[i] == row;
      assert ParseRow(lines[i]) == Ok(row);
    }
  }

  /** Every row of `rows` has a non-empty payload. */
  predicate NonEmptyPayloads(rows: seq<Row>) {
    forall r :: r in rows ==> |r.payload| > 0
  }

  // ----- building one record -----

  /** What one payload adds to the field text: a '/'-terminated payload
      ends a field (the '/' becomes ','), any other payload continues its
      last field after a space. */
  function Segment(payload: string): (s: string)
    requires |payload| > 0
    ensures |s| >= |payload|
  {
    if payload[|payload| - 1] == '/' then payload[..|payload| - 1] + "," else payload + " "
  }

  function FieldsText(rows: seq<Row>): (s: string)
    requires NonEmptyPayloads(rows)
    ensures |s| >= |rows|
  {
    if |rows| == 0 then ""
    else
      assert rows[|rows| - 1] in rows;
      FieldsText(rows[..|rows| - 1]) + Segment(rows[|rows| - 1].payload)
  }

  /** `_build_record`: the code of the first row, the field text without its
      last character split at commas, and the rows themselves. */
  function BuildRecord(rows: seq<Row>): (r: Record)
    requires |rows| > 0 && NonEmptyPayloads(rows)
    ensures r.code == rows[0].code && r.rows == rows && |r.fields| >= 1
  {
    var text := FieldsText(rows);
    Record(rows[0].code, Split(text[..|text| - 1], ','), rows)
  }

  /** The field text of one row is its segment. */
  lemma FieldsTextSingle(row: Row)
    requires |row.payload| > 0
    ensures FieldsText([row]) == Segment(row.payload)
  {
    assert [row][..0] == [];
  }

  /** A single '/'-terminated line "X/" yields the fields of X. */
  lemma SingleTerminatedRowFields(c: RecordCode, x: string)
    ensures BuildRecord([Row(c, x + "/")]).fields == Split(x, ',')
  {
    FieldsTextSingle(Row(c, x + "/"));
    assert (x + "/")[..|x|] == x;
    assert (x + ",")[..|x|] == x;
  }

  /** A single unterminated line "X" yields the fields of X as well. */
  lemma SingleOpenRowFields(c: RecordCode, x: string)
    requires |x| > 0 && x[|x| - 1] != '/'
    ensures BuildRecord([Row(c, x)]).fields == Split(x, ',')
  {
    FieldsTextSingle(Row(c, x));
    assert (x + " ")[..|x|] == x;
  }

  /** Concatenation of a sequence of field lists. */
  function Flatten(groups: seq<seq<string>>): seq<string> {
    if |groups| == 0 then [] else Flatten(groups[..|groups| - 1]) + groups[|groups| - 1]
  }

  lemma {:induction false} JoinAppend(xs: seq<string>, ys: seq<string>, c: char)
    requires |xs| >= 1 && |ys| >= 1
    ensures Join(xs + ys, c) == Join(xs, c) + [c] + Join(ys, c)
  {
    if |ys| == 1 {
      assert ys == [ys[0]];
      JoinSnoc(xs, ys[0], c);
    } else {
      var init := ys[..|ys| - 1];
      var last := ys[|ys| - 1];
      assert xs + ys == (xs + init) + [last];
      assert ys == init + [last];
      JoinSnoc(xs + init, last, c);
      JoinAppend(xs, init, c);
      JoinSnoc(init, last, c);
    }
  }

  /** Rows whose payloads are comma-joined fields ending in '/' fold to the
      field text "f1,f2,...,fn,". */
  lemma {:induction false} FieldsTextOfTerminated(rows: seq<Row>, groups: seq<seq<string>>)
    requires |rows| == |groups| >= 1
    requires forall k :: 0 <= k < |groups| ==> |groups[k]| >= 1
    requires forall k :: 0 <= k < |rows| ==> rows[k].payload == Join(groups[k], ',') + "/"
    ensures NonEmptyPayloads(rows)
    ensures |Flatten(groups)| >= 1
    ensures FieldsText(rows) == Join(Flatten(groups), ',') + ","
  {
    var n := |rows|;
    var last := Join(groups[n - 1], ',');
    assert Segment(rows[n - 1].payload) == last + "," by {
      assert (last + "/")[..|last|] == last;
    }
    if n == 1 {
      assert rows[..0] == [];
      assert groups[..0] == [];
      assert Flatten(groups) == groups[0];
      assert FieldsText(rows) == "" + Segment(rows[0].payload);
    } else {
      FieldsTextOfTerminated(rows[..n - 1], groups[..n - 1]);
      JoinAppend(Flatten(groups[..n - 1]), groups[n - 1], ',');
    }
  }

  /** `_build_record` gives back the fields that were written as
      comma-joined, '/'-terminated payloads, when no field holds a comma. */
  lemma BuildRecordOfTerminated(rows: seq<Row>, groups: seq<seq<string>>)
    requires |rows| == |groups| >= 1
    requires forall k :: 0 <= k < |groups| ==> |groups[k]| >= 1
    requires forall k :: 0 <= k < |rows| ==> rows[k].payload == Join(groups[k], ',') + "/"
    requires forall k, j :: 0 <= k < |groups| && 0 <= j < |groups[k]| ==> Free(groups[k][j], ',')
    ensures NonEmptyPayloads(rows)
    ensures BuildRecord(rows).fields == Flatten(groups)
  {
    FieldsTextOfTerminated(rows, groups);
    var fs := Flatten(groups);
    FlattenFree(groups);
    var text := FieldsText(rows);
    assert text[..|text| - 1] == Join(fs, ',');
    SplitJoin(fs, ',');
  }

  lemma {:induction false} FlattenFree(groups: seq<seq<string>>)
    requires forall k, j :: 0 <= k < |groups| && 0 <= j < |groups[k]| ==> Free(groups[k][j], ',')
    ensures forall i :: 0 <= i < |Flatten(groups)| ==> Free(Flatten(groups)[i], ',')
  {
    if |groups| > 0 {
      FlattenFree(groups[..|groups| - 1]);
    }
  }

  // ----- grouping rows into records -----

  /** The rows of each record: a new record starts at every row that is not
      a continuation. */
  function Chunks(rows: seq<Row>): (cs: seq<seq<Row>>)
    requires |rows| > 0
    ensures |cs| > 0
    ensures forall k :: 0 <= k < |cs| ==> |cs[k]| > 0
    ensures cs[0][0] == rows[0]
  {
    if |rows| == 1 then [rows]
    else
      var cs := Chunks(rows[..|rows| - 1]);
      var r := rows[|rows| - 1];
      if r.code == ContinuationCode then cs[..|cs| - 1] + [cs[|cs| - 1] + [r]]
      else cs + [[r]]
  }

  /** Concatenation of the rows of every record. */
  function FlattenRows(cs: seq<seq<Row>>): seq<Row> {
    if |cs| == 0 then [] else FlattenRows(cs[..|cs| - 1]) + cs[|cs| - 1]
  }

  /** One more record adds its rows at the end. */
  lemma FlattenSnoc(cs: seq<seq<Row>>, c: seq<Row>)
    ensures FlattenRows(cs + [c]) == FlattenRows(cs) + c
  {
    assert (cs + [c])[..|cs|] == cs;
  }

  /** A continuation row extends the last record's rows. */
  lemma FlattenJoinStep(rows: seq<Row>)
    requires |rows| > 1 && rows[|rows| - 1].code == ContinuationCode
    requires FlattenRows(Chunks(rows[..|rows| - 1])) == rows[..|rows| - 1]
    ensures FlattenRows(Chunks(rows)) == rows
  {
    var init := rows[..|rows| - 1];
    var r := rows[|rows| - 1];
    FrontLast(rows);
    var cs := Chunks(init);
    var prefix := cs[..|cs| - 1];
    FrontLast(cs);
    FlattenSnoc(prefix, cs[|cs| - 1]);
    FlattenSnoc(prefix, cs[|cs| - 1] + [r]);
    AppendAssoc(FlattenRows(prefix), cs[|cs| - 1], [r]);
  }

  /** Any other row starts a record of its own. */
  lemma FlattenStartStep(rows: seq<Row>)
    requires |rows| > 1 && rows[|rows| - 1].code != ContinuationCode
    requires FlattenRows(Chunks(rows[..|rows| - 1])) == rows[..|rows| - 1]
    ensures FlattenRows(Chunks(rows)) == rows
  {
    var init := rows[..|rows| - 1];
    var r := rows[|rows| - 1];
    FrontLast(rows);
    FlattenSnoc(Chunks(init), [r]);
  }

  /** The records' rows put together are the rows, in order. */
  lemma {:induction false} ChunksFlatten(rows: seq<Row>)
    requires |rows| > 0
    ensures FlattenRows(Chunks(rows)) == rows
  {
    if |rows| == 1 {
      assert Chunks(rows) == [] + [rows];
      FlattenSnoc([], rows);
    } else {
      ChunksFlatten(rows[..|rows| - 1]);
      if rows[|rows| - 1].code == ContinuationCode {
        FlattenJoinStep(rows);
      } else {
        FlattenStartStep(rows);
      }
    }
  }

  /** Every row after the first of a record is a continuation, and every
      record after the first starts with a row that is not. */
  lemma {:induction false} ChunksBoundaries(rows: seq<Row>)
    requires |rows| > 0
    ensures forall k, j :: 0 <= k < |Chunks(rows)| && 1 <= j < |Chunks(rows)[k]| ==> Chunks(rows)[k][j].code == ContinuationCode
    ensures forall k :: 1 <= k < |Chunks(rows)| ==> Chunks(rows)[k][0].code != ContinuationCode
  {
    if |rows| > 1 {
      var init := rows[..|rows| - 1];
      ChunksBoundaries(init);
      var cs := Chunks(init);
      var cs' := Chunks(rows);
      var n := |cs|;
      if rows[|rows| - 1].code == ContinuationCode {
        assert forall k :: 0 <= k < n - 1 ==> cs'[k] == cs[k];
        assert cs'[n - 1] == cs[n - 1] + [rows[|rows| - 1]];
      } else {
        assert forall k :: 0 <= k < n ==> cs'[k] == cs[k];
        assert cs'[n] == [rows[|rows| - 1]];
      }
    }
  }

  /** Each record's rows are rows of the input, so their payloads are not empty. */
  lemma {:induction false} ChunksPayloads(rows: seq<Row>)
    requires |rows| > 0 && NonEmptyPayloads(rows)
    ensures forall k :: 0 <= k < |Chunks(rows)| ==> NonEmptyPayloads(Chunks(rows)[k])
  {
    if |rows| > 1 {
      var init := rows[..|rows| - 1];
      var r := rows[|rows| - 1];
      assert r in rows;
      assert forall x :: x in init ==> x in rows;
      ChunksPayloads(init);
      var cs := Chunks(init);
      var cs' := Chunks(rows);
      var n := |cs|;
      if r.code == ContinuationCode {
        assert forall k :: 0 <= k < n - 1 ==> cs'[k] == cs[k];
        assert cs'[n - 1] == cs[n - 1] + [r];
      } else {
        assert forall k :: 0 <= k < n ==> cs'[k] == cs[k];
        assert cs'[n] == [r];
      }
    }
  }

  /** Groups of rows each of which can be built into a record. */
  predicate RecordChunks(cs: seq<seq<Row>>) {
    forall k :: 0 <= k < |cs| ==> |cs[k]| > 0 && NonEmptyPayloads(cs[k])
  }

  lemma RecordChunksSnoc(cs: seq<seq<Row>>, c: seq<Row>)
    requires RecordChunks(cs) && |c| > 0 && NonEmptyPayloads(c)
    ensures RecordChunks(cs + [c])
  {
    assert forall k :: 0 <= k < |cs| ==> (cs + [c])[k] == cs[k];
  }

  /** `_build_record` applied to every group of rows. */
  function BuildRecords(cs: seq<seq<Row>>): (rs: seq<Record>)
    requires RecordChunks(cs)
    ensures |rs| == |cs|
  {
    seq(|cs|, k requires 0 <= k < |cs| => BuildRecord(cs[k]))
  }

  /** One more group of rows adds its record at the end. */
  lemma BuildRecordsSnoc(cs: seq<seq<Row>>, rows: seq<Row>)
    requires RecordChunks(cs)
    requires |rows| > 0 && NonEmptyPayloads(rows)
    ensures BuildRecords(cs + [rows]) == BuildRecords(cs) + [BuildRecord(rows)]
  {
    var cs' := cs + [rows];
    assert forall k :: 0 <= k < |cs| ==> cs'[k] == cs[k];
  }

  /** The records `record_generator` yields for a list of lines (each line
      longer than "NN," so that its payload is not empty). */
  function GeneratedRecords(lines: seq<string>): (r: Result<seq<Record>>)
    requires forall i :: 0 <= i < |lines| ==> |lines[i]| > 3
    ensures r.Ok? ==> |r.value| > 0
  {
    if |lines| == 0 then Err(EmptyInput)
    else
      var rows :- ParseRows(lines);
      ParsedPayloads(lines);
      ChunksPayloads(rows);
      Ok(BuildRecords(Chunks(rows)))
  }

  /** The records built from groups of rows hold those rows, in order. */
  lemma {:induction false} BuildRecordsRows(cs: seq<seq<Row>>)
    requires RecordChunks(cs)
    ensures RecordRows(BuildRecords(cs)) == FlattenRows(cs)
  {
    if |cs| > 0 {
      var init := cs[..|cs| - 1];
      var last := cs[|cs| - 1];
      FrontLast(cs);
      BuildRecordsRows(init);
      BuildRecordsSnoc(init, last);
      var rs := BuildRecords(init);
      var r := BuildRecord(last);
      assert (rs + [r])[..|rs|] == rs;
    }
  }

  /** Concatenating the rows of all generated records gives back the rows
      of the lines, in order. */
  lemma GeneratedRows(lines: seq<string>)
    requires forall i :: 0 <= i < |lines| ==> |lines[i]| > 3
    requires GeneratedRecords(lines).Ok?
    ensures ParseRows(lines).Ok? && RecordRows(GeneratedRecords(lines).value) == ParseRows(lines).value
  {
    var rows := ParseRows(lines).value;
    ParsedPayloads(lines);
    ChunksPayloads(rows);
    ChunksFlatten(rows);
    BuildRecordsRows(Chunks(rows));
  }

  /** One more row: a continuation joins the last record, any other row
      starts a new one. */
  lemma ChunksStep(rows: seq<Row>, k: nat)
    requires 1 <= k < |rows|
    ensures rows[k].code == ContinuationCode ==>
      Chunks(rows[..k + 1]) == Chunks(rows[..k])[..|Chunks(rows[..k])| - 1] + [Chunks(rows[..k])[|Chunks(rows[..k])| - 1] + [rows[k]]]
    ensures rows[k].code != ContinuationCode ==>
      Chunks(rows[..k + 1]) == Chunks(rows[..k]) + [[rows[k]]]
  {
    assert rows[..k + 1][..k] == rows[..k];
  }

  /** The loop step of `record_generator` keeps "the records emitted so far
      and the record being collected are the grouping of the rows read". */
  lemma GeneratorStep(rows: seq<Row>, k: nat, done: seq<seq<Row>>, current: seq<Row>)
    requires 1 <= k < |rows| && NonEmptyPayloads(rows)
    requires Chunks(rows[..k]) == done + [current]
    ensures rows[k].code != ContinuationCode ==> Chunks(rows[..k + 1]) == (done + [current]) + [[rows[k]]]
    ensures rows[k].code == ContinuationCode ==> Chunks(rows[..k + 1]) == done + [current + [rows[k]]]
    ensures |rows[k].payload| > 0
  {
    assert rows[k] in rows;
    ChunksStep(rows, k);
    assert (done + [current])[..|done|] == done;
  }

  /** The loop of `record_generator`: one pass over the rows, collecting
      continuation rows into the current record and emitting it at the next
      other row. */
  method CollectRecords(rows: seq<Row>) returns (records: seq<Record>)
    requires |rows| > 0 && NonEmptyPayloads(rows)
    ensures RecordChunks(Chunks(rows)) && records == BuildRecords(Chunks(rows))
  {
    records := [];
    var current := [rows[0]];
    ghost var done: seq<seq<Row>> := [];
    var k := 1;
    assert rows[..1] == [rows[0]];
    assert rows[0] in rows;
    while k < |rows|
      invariant 1 <= k <= |rows|
      invariant |current| > 0 && NonEmptyPayloads(current)
      invariant RecordChunks(done)
      invariant Chunks(rows[..k]) == done + [current]
      invariant records == BuildRecords(done)
    {
      var row := rows[k];
      GeneratorStep(rows, k, done, current);
      if row.code != ContinuationCode {
        RecordChunksSnoc(done, current);
        BuildRecordsSnoc(done, current);
        records := records + [BuildRecord(current)];
        done := done + [current];
        current := [row];
      } else {
        current := current + [row];
      }
      k := k + 1;
    }
    assert rows[..k] == rows;
    ChunksPayloads(rows);
    BuildRecordsSnoc(done, current);
    records := records + [BuildRecord(current)];
  }

  /** `record_generator`: the lines' rows, grouped into records. */
  method RecordGenerator(lines: seq<string>) returns (r: Result<seq<Record>>)
    requires forall i :: 0 <= i < |lines| ==> |lines[i]| > 3
    ensures r == GeneratedRecords(lines)
  {
    if |lines| == 0 {
      return Err(EmptyInput);
    }
    var rows :- ParseRows(lines);
    ParsedPayloads(lines);
    var records := CollectRecords(rows);
    return Ok(records);
  }

  // ----- the shared cursor -----

  /** `IteratorHelper`: the records and a cursor on the current one. The
      cursor value `|records|` is the end of input. */
  class IteratorHelper {
    const records: seq<Record>
    var pos: nat

    /** Starts on the first record. */
    constructor(records: seq<Record>)
      requires |records| > 0
      ensures this.records == records && pos == 0
    {
      this.records := records;
      pos := 0;
    }

    /** The current record, or None at the end of input. */
    function Current(): (c: Option<Record>)
      reads this
      ensures c.Some? <==> pos < |records|
      ensures c.Some? ==> c.value == records[pos]
    {
      if pos < |records| then Some(records[pos]) else None
    }

    /** `advance`: the next record; past the last one, the end of input. */
    method Advance()
      requires pos <= |records|
      modifies this
      ensures old(pos) < |records| ==> pos == old(pos) + 1
      ensures old(pos) == |records| ==> pos == old(pos)
    {
      if pos < |records| {
        pos := pos + 1;
      }
    }
  }
}
