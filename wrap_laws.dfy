/** Laws of the line wrapping the writers do: how the text of a
    transaction detail (16) and the fields of an account identifier (03)
    are spread over a first line and "88" continuation lines, and that the
    parser puts an identifier's fields back together. */
module WrapLaws {
  import opened Outcomes
  import opened Strings
  import opened Constants
  import opened Utils
  import opened Models
  import opened Helpers
  import opened Decoding
  import opened Writers
  import opened RecordLaws
  import opened AvailabilityLaws

  // ----- transaction text (16) -----

  /** A line that is `prefix` alone, or `prefix`, a comma and some text,
      in which case it is no longer than the line length. */
  predicate Shaped(line: string, prefix: string, n: int) {
    |line| >= |prefix| && line[..|prefix|] == prefix
    && (|line| > |prefix| ==> line[|prefix|] == ',' && |line| <= n)
  }

  /** The text a line started as `prefix` (of length `m`) carries. */
  function Carried(line: string, m: nat): string {
    if |line| <= m then "" else line[m + 1..]
  }

  /** The text carried by a run of continuation lines, in order. */
  function ContinuedText(lines: seq<string>): string {
    if |lines| == 0 then "" else Carried(lines[0], 2) + ContinuedText(lines[1..])
  }

  /** The first line continues `cur`; every further line is an "88"
      continuation that carries some text and stays within the line
      length. */
  lemma {:induction false} TextLinesShape(cur: string, rest: string, n: int)
    requires n > 3
    ensures Shaped(TextLines(cur, rest, n)[0], cur, n)
    ensures forall k :: 1 <= k < |TextLines(cur, rest, n)| ==>
              Shaped(TextLines(cur, rest, n)[k], "88", n) && |TextLines(cur, rest, n)[k]| > 3
    decreases |rest|, if n - |cur| - 1 > 0 then 0 else 1
  {
    var room := n - |cur| - 1;
    if |rest| == 0 {
    } else if room <= 0 {
      TextLinesStep(cur, rest, n);
      TextLinesShape("88", rest, n);
      ContinuationCarries(rest, n);
      var more := TextLines("88", rest, n);
      assert TextLines(cur, rest, n) == [cur] + more;
      forall k | 1 <= k < 1 + |more|
        ensures Shaped(([cur] + more)[k], "88", n) && |([cur] + more)[k]| > 3
      {
        assert ([cur] + more)[k] == more[k - 1];
      }
    } else if |rest| <= room {
      TextLinesStep(cur, rest, n);
    } else {
      var next := cur + "," + rest[..room];
      TextLinesStep(cur, rest, n);
      TextLinesStep(next, rest[room..], n);
      TextLinesShape("88", rest[room..], n);
      ContinuationCarries(rest[room..], n);
      assert next[..|cur|] == cur;
    }
  }

  /** A continuation started for a non-empty text carries some of it. */
  lemma ContinuationCarries(rest: string, n: int)
    requires n > 3 && |rest| > 0
    ensures |TextLines("88", rest, n)[0]| > 3
  {
    TextLinesStep("88", rest, n);
    var room := n - 3;
    if |rest| > room {
      var next := "88" + "," + rest[..room];
      TextLinesStep(next, rest[room..], n);
    }
  }

  /** Nothing of the text is lost or reordered: what the first line
      carries after `cur`, followed by what every continuation carries,
      is the text. */
  lemma {:induction false} TextLinesCarry(cur: string, rest: string, n: int)
    requires n > 3
    ensures Carried(TextLines(cur, rest, n)[0], |cur|) + ContinuedText(TextLines(cur, rest, n)[1..]) == rest
    decreases |rest|, if n - |cur| - 1 > 0 then 0 else 1
  {
    var room := n - |cur| - 1;
    if |rest| > 0 {
      TextLinesStep(cur, rest, n);
    }
    if |rest| == 0 {
    } else if room <= 0 {
      var tail := TextLines("88", rest, n);
      TextLinesCarry("88", rest, n);
      assert TextLines(cur, rest, n)[1..] == tail;
    } else if |rest| <= room {
      assert (cur + "," + rest)[|cur| + 1..] == rest;
    } else {
      var next := cur + "," + rest[..room];
      TextLinesStep(next, rest[room..], n);
      var tail := TextLines("88", rest[room..], n);
      TextLinesCarry("88", rest[room..], n);
      assert TextLines(cur, rest, n)[1..] == tail;
      assert Carried(next, |cur|) == rest[..room];
      assert rest == rest[..room] + rest[room..];
    }
  }

  /** `TransactionDetailWriter.write` with a text: packed after the other
      fields, the first line continues them; on a new line, the first line
      is closed with '/' and the text starts on a continuation. Either
      way every line fits the line length once it carries text, and the
      lines carry the text whole and in order. */
  lemma DetailLinesLaws(head: seq<string>, text: Option<string>, cfg: WriterConfig)
    requires HasText(text) && cfg.lineLength > 3
    ensures var lines, first, n := DetailLines(head, text, cfg), "16" + Commas(head), cfg.lineLength;
      (forall k :: 1 <= k < |lines| ==> Shaped(lines[k], "88", n) && |lines[k]| > 3)
      && (cfg.textOnNewLine ==>
            |lines| >= 2 && lines[0] == first + "/" && ContinuedText(lines[1..]) == text.value)
      && (!cfg.textOnNewLine ==>
            Shaped(lines[0], first, n) && Carried(lines[0], |first|) + ContinuedText(lines[1..]) == text.value)
  {
    var first, n := "16" + Commas(head), cfg.lineLength;
    var lines := DetailLines(head, text, cfg);
    if cfg.textOnNewLine {
      var tail := TextLines("88", text.value, n);
      TextLinesShape("88", text.value, n);
      ContinuationCarries(text.value, n);
      TextLinesCarry("88", text.value, n);
      assert lines[1..] == tail;
      assert ContinuedText(tail) == Carried(tail[0], 2) + ContinuedText(tail[1..]);
    } else {
      TextLinesShape(first, text.value, n);
      TextLinesCarry(first, text.value, n);
    }
  }

  /** Without a text the first line is the only one and ends in an empty
      field rather than '/'. */
  lemma DetailLinesNoText(head: seq<string>, text: Option<string>, cfg: WriterConfig)
    requires !HasText(text)
    ensures |DetailLines(head, text, cfg)| == 1
    ensures var line := DetailLines(head, text, cfg)[0]; line[|line| - 1] == ',' && line[..2] == "16"
  {
  }

  /** A line of a code and fields that does not end in '/' (so that no
      continuation is expected to close it) is read back by
      `record_generator` as one record of exactly those fields. */
  lemma OpenLineRecord(code: RecordCode, parts: seq<string>)
    requires |parts| >= 1 && CommaFree(parts)
    requires |Join(parts, ',')| > 0 && Join(parts, ',')[|Join(parts, ',')| - 1] != '/'
    ensures |CodeValue(code) + Commas(parts)| > 3
    ensures GeneratedRecords([CodeValue(code) + Commas(parts)]) == Ok([Record(code, parts, [Row(code, Join(parts, ','))])])
  {
    var line := CodeValue(code) + Commas(parts);
    var row := Row(code, Join(parts, ','));
    OpenLineRow(code, parts);
    OneLineRecords(line, row);
    SingleOpenRowFields(code, row.payload);
    SplitJoin(parts, ',');
  }

  /** Such a line parses to the row of its code and joined fields. */
  lemma OpenLineRow(code: RecordCode, parts: seq<string>)
    requires |parts| >= 1 && |Join(parts, ',')| > 0
    ensures |CodeValue(code) + Commas(parts)| > 3
    ensures ParseRows([CodeValue(code) + Commas(parts)]) == Ok([Row(code, Join(parts, ','))])
  {
    var line := CodeValue(code) + Commas(parts);
    var row := Row(code, Join(parts, ','));
    CommasJoin(parts);
    AppendAssoc(CodeValue(code), ",", Join(parts, ','));
    assert line == RowText(row);
    ParseRowText(row);
    assert [line][..0] == [];
    assert [] + [row] == [row];
  }

  /** The single line of a transaction detail whose text (if any) fits
      after the other fields. */
  lemma OneDetailLine(t: TransactionDetail, cfg: WriterConfig, layout: Layout)
    requires HasText(t.text) ==>
               !cfg.textOnNewLine && cfg.lineLength > 3
               && |"16" + Commas(TransactionHead(t, cfg.clockFormatForIntraDay, layout))| + 1 + |t.text.value| <= cfg.lineLength
    ensures TransactionLines(t, cfg, layout) == ["16" + Commas(TransactionHead(t, cfg.clockFormatForIntraDay, layout)) + "," + TextField(t.text)]
  {
    var first := "16" + Commas(TransactionHead(t, cfg.clockFormatForIntraDay, layout));
    if HasText(t.text) {
      TextLinesStep(first, t.text.value, cfg.lineLength);
    } else {
      assert first + "," + "" == first + ",";
    }
  }

  /** That line is the code followed by the fields and the text's
      comma-separated pieces; the joined payload ends where the text
      ends. */
  lemma DetailLineParts(head: seq<string>, tf: string)
    requires |head| >= 1
    ensures "16" + Commas(head) + "," + tf == CodeValue(TransactionDetailCode) + Commas(head + Split(tf, ','))
    ensures Join(head + Split(tf, ','), ',') == Join(head, ',') + "," + tf
  {
    DetailPayload(head, tf);
    CommasJoin(head);
    CommasJoin(head + Split(tf, ','));
    Regroup("16", ",", Join(head, ','), ",", tf);
  }

  /** Five strings in a row, grouped two ways. */
  lemma Regroup<T>(a: seq<T>, b: seq<T>, c: seq<T>, d: seq<T>, e: seq<T>)
    ensures a + (b + c) + d + e == a + (b + (c + d + e))
  {
  }

  /** The payload of that line: the fields, a comma, the text. */
  lemma DetailPayload(head: seq<string>, tf: string)
    requires |head| >= 1
    ensures Join(head + Split(tf, ','), ',') == Join(head, ',') + "," + tf
  {
    JoinSplit(tf, ',');
    JoinAppend(head, Split(tf, ','), ',');
  }

  /** A transaction detail that fits on one line reads back as itself:
      `record_generator` gives one 16 record and `TransactionDetailParser`
      recovers the transaction from it, text included. */
  lemma TransactionLineRoundTrip(t: TransactionDetail, cfg: WriterConfig, layout: Layout)
    requires ReadableTransaction(t, cfg.clockFormatForIntraDay, layout)
    requires CommaFree(TransactionHead(t, cfg.clockFormatForIntraDay, layout))
    requires HasText(t.text) ==>
               !cfg.textOnNewLine && cfg.lineLength > 3
               && |"16" + Commas(TransactionHead(t, cfg.clockFormatForIntraDay, layout))| + 1 + |t.text.value| <= cfg.lineLength
               && t.text.value[|t.text.value| - 1] != '/'
    ensures |TransactionLines(t, cfg, layout)| == 1 && |TransactionLines(t, cfg, layout)[0]| > 3
    ensures GeneratedRecords(TransactionLines(t, cfg, layout)).Ok?
    ensures var recs := GeneratedRecords(TransactionLines(t, cfg, layout)).value;
      |recs| == 1 && recs[0].code == TransactionDetailCode
      && DecodeTransactionDetail(recs[0]) == Ok(t.(rows := recs[0].rows))
  {
    var clock := cfg.clockFormatForIntraDay;
    var head := TransactionHead(t, clock, layout);
    var tf := TextField(t.text);
    OneDetailLine(t, cfg, layout);
    DetailLineRecord(head, tf);
    TransactionRoundTrip(t, clock, layout, [Row(TransactionDetailCode, Join(head, ',') + "," + tf)]);
  }

  /** The one line of a transaction detail, whose text does not end in '/',
      is one record: the fields and the text's comma-separated pieces. */
  lemma DetailLineRecord(head: seq<string>, tf: string)
    requires |head| >= 1 && CommaFree(head)
    requires |tf| > 0 ==> tf[|tf| - 1] != '/'
    ensures |"16" + Commas(head) + "," + tf| > 3
    ensures GeneratedRecords(["16" + Commas(head) + "," + tf])
         == Ok([Record(TransactionDetailCode, head + Split(tf, ','), [Row(TransactionDetailCode, Join(head, ',') + "," + tf)])])
  {
    var parts := head + Split(tf, ',');
    DetailLineParts(head, tf);
    var j := Join(head, ',') + "," + tf;
    assert j[|j| - 1] != '/' by {
      if |tf| == 0 {
        assert j[|j| - 1] == ',';
      } else {
        assert j[|j| - 1] == tf[|tf| - 1];
      }
    }
    assert CommaFree(parts);
    OpenLineRecord(TransactionDetailCode, parts);
  }

  // ----- account identifier fields (03) -----

  /** Every line ends in '/'; the first continues `cur`, the others are
      "88," continuations. */
  lemma {:induction false} FieldLinesShape(cur: string, fields: seq<string>, n: int)
    ensures forall k :: 0 <= k < |FieldLines(cur, fields, n)| ==>
              |FieldLines(cur, fields, n)[k]| > 0 && FieldLines(cur, fields, n)[k][|FieldLines(cur, fields, n)[k]| - 1] == '/'
    ensures |FieldLines(cur, fields, n)[0]| > |cur| && FieldLines(cur, fields, n)[0][..|cur|] == cur
    ensures forall k :: 1 <= k < |FieldLines(cur, fields, n)| ==>
              |FieldLines(cur, fields, n)[k]| > 3 && FieldLines(cur, fields, n)[k][..3] == "88,"
    decreases |fields|
  {
    if |fields| == 0 {
    } else if |cur| + |fields[0]| + 2 >= n {
      var next := "88," + fields[0];
      FieldLinesShape(next, fields[1..], n);
      assert FieldLines(next, fields[1..], n)[0][..3] == next[..3];
    } else {
      var next := cur + "," + fields[0];
      FieldLinesShape(next, fields[1..], n);
      assert FieldLines(next, fields[1..], n)[0][..|cur|] == next[..|cur|];
    }
  }

  /** Fields of at most line length - 5 characters keep every line shorter
      than the line length (a first line that is short enough to close). */
  lemma {:induction false} FieldLinesFit(cur: string, fields: seq<string>, n: int)
    requires |cur| + 1 < n
    requires forall i :: 0 <= i < |fields| ==> |fields[i]| <= n - 5
    ensures forall k :: 0 <= k < |FieldLines(cur, fields, n)| ==> |FieldLines(cur, fields, n)[k]| < n
    decreases |fields|
  {
    if |fields| > 0 {
      var next := if |cur| + |fields[0]| + 2 >= n then "88," + fields[0] else cur + "," + fields[0];
      FieldLinesFit(next, fields[1..], n);
    }
  }

  /** `AccountIdentifierWriter.write` keeps every line shorter than the
      line length when no field is longer than line length - 5. */
  lemma AccountIdentifierLinesFit(h: AccountIdentifier, cfg: WriterConfig, layout: Layout)
    requires forall i :: 0 <= i < |AccountIdentifierFields(h, cfg.clockFormatForIntraDay, layout)| ==>
               |AccountIdentifierFields(h, cfg.clockFormatForIntraDay, layout)[i]| <= cfg.lineLength - 5
    ensures forall k :: 0 <= k < |AccountIdentifierLines(h, cfg, layout)| ==> |AccountIdentifierLines(h, cfg, layout)[k]| < cfg.lineLength
  {
    var fields := AccountIdentifierFields(h, cfg.clockFormatForIntraDay, layout);
    assert |fields[0]| <= cfg.lineLength - 5;
    FieldLinesFit("03", fields, cfg.lineLength);
  }

  /** How `FieldLines` distributes fields over its lines: `done` is what
      the current line already holds. */
  function LineGroups(cur: string, done: seq<string>, fields: seq<string>, n: int): (gs: seq<seq<string>>)
    ensures |gs| >= 1
    decreases |fields|
  {
    if |fields| == 0 then [done]
    else if |cur| + |fields[0]| + 2 >= n then [done] + LineGroups("88," + fields[0], [fields[0]], fields[1..], n)
    else LineGroups(cur + "," + fields[0], done + [fields[0]], fields[1..], n)
  }

  lemma {:induction false} FlattenCons(g: seq<string>, gs: seq<seq<string>>)
    ensures Flatten([g] + gs) == g + Flatten(gs)
    decreases |gs|
  {
    if |gs| == 0 {
      assert [g][..0] == [];
    } else {
      var all := [g] + gs;
      assert all[..|all| - 1] == [g] + gs[..|gs| - 1];
      FlattenCons(g, gs[..|gs| - 1]);
      AppendAssoc(g, Flatten(gs[..|gs| - 1]), gs[|gs| - 1]);
    }
  }

  lemma CommasOne(f: string)
    ensures Commas([f]) == "," + f
  {
    assert [f][..0] == [];
  }

  /** A line that holds a group of fields: its prefix, each field after a
      comma, and '/'. */
  predicate HoldsGroup(line: string, prefix: string, g: seq<string>) {
    |g| >= 1 && line == prefix + Commas(g) + "/"
  }

  /** Lines each holding one non-empty group of fields, the first after
      `p`, the others after "88"; the groups hold `all` in order. */
  predicate Grouped(p: string, lines: seq<string>, gs: seq<seq<string>>, all: seq<string>) {
    |lines| == |gs| >= 1 && HoldsGroup(lines[0], p, gs[0])
    && (forall k :: 1 <= k < |gs| ==> HoldsGroup(lines[k], "88", gs[k]))
    && Flatten(gs) == all
  }

  /** No field of any group holds a comma. */
  predicate GroupsFree(gs: seq<seq<string>>) {
    forall k, j :: 0 <= k < |gs| && 0 <= j < |gs[k]| ==> Free(gs[k][j], ',')
  }

  /** A closed line in front of continuation lines. */
  lemma GroupedCons(p: string, done: seq<string>, lines: seq<string>, gs: seq<seq<string>>, rest: seq<string>)
    requires |done| >= 1 && Grouped("88", lines, gs, rest)
    ensures Grouped(p, [p + Commas(done) + "/"] + lines, [done] + gs, done + rest)
  {
    FlattenCons(done, gs);
    var ls, g2 := [p + Commas(done) + "/"] + lines, [done] + gs;
    assert ls[1..] == lines;
    assert g2[1..] == gs;
    forall k | 1 <= k < |g2|
      ensures HoldsGroup(ls[k], "88", g2[k])
    {
      assert HoldsGroup(lines[k - 1], "88", gs[k - 1]);
      assert ls[k] == ls[1..][k - 1];
      assert g2[k] == g2[1..][k - 1];
    }
  }

  lemma GroupsFreeCons(done: seq<string>, gs: seq<seq<string>>)
    requires CommaFree(done) && GroupsFree(gs)
    ensures GroupsFree([done] + gs)
  {
    var g2 := [done] + gs;
    forall k, j | 0 <= k < |g2| && 0 <= j < |g2[k]|
      ensures Free(g2[k][j], ',')
    {
      if k > 0 {
        assert g2[k] == gs[k - 1];
      }
    }
  }

  /** Every line of `FieldLines` holds one non-empty group of fields, and
      the groups hold the fields in order. */
  lemma {:induction false} FieldLinesGroups(p: string, done: seq<string>, fields: seq<string>, n: int)
    requires |done| >= 1 && CommaFree(done) && CommaFree(fields)
    ensures Grouped(p, FieldLines(p + Commas(done), fields, n), LineGroups(p + Commas(done), done, fields, n), done + fields)
    ensures GroupsFree(LineGroups(p + Commas(done), done, fields, n))
    decreases |fields|
  {
    var cur := p + Commas(done);
    if |fields| == 0 {
      assert [done][..0] == [];
      assert done + fields == done;
    } else if |cur| + |fields[0]| + 2 >= n {
      var f0 := fields[0];
      var next := "88" + Commas([f0]);
      CommasOne(f0);
      AppendAssoc("88", ",", f0);
      assert next == "88," + f0;
      FieldLinesGroups("88", [f0], fields[1..], n);
      assert [f0] + fields[1..] == fields;
      var lines, gs := FieldLines(next, fields[1..], n), LineGroups(next, [f0], fields[1..], n);
      GroupedCons(p, done, lines, gs, fields);
      GroupsFreeCons(done, gs);
      assert FieldLines(cur, fields, n) == [cur + "/"] + lines;
      assert LineGroups(cur, done, fields, n) == [done] + gs;
    } else {
      var f0 := fields[0];
      var more := done + [f0];
      assert more[..|done|] == done;
      assert cur + "," + f0 == p + Commas(more);
      FieldLinesGroups(p, more, fields[1..], n);
      assert more + fields[1..] == done + fields;
    }
  }

  /** Rows whose codes after the first are all continuations make one
      record. */
  lemma {:induction false} ChunksOfContinued(rows: seq<Row>)
    requires |rows| > 0
    requires forall k :: 1 <= k < |rows| ==> rows[k].code == ContinuationCode
    ensures Chunks(rows) == [rows]
  {
    if |rows| > 1 {
      var init := rows[..|rows| - 1];
      ChunksOfContinued(init);
      assert init + [rows[|rows| - 1]] == rows;
    }
  }

  /** Lines each of which parses to its row parse to the rows. */
  lemma ParseRowsOf(lines: seq<string>, rows: seq<Row>)
    requires |lines| == |rows|
    requires forall i :: 0 <= i < |lines| ==> ParseRow(lines[i]) == Ok(rows[i])
    ensures ParseRows(lines) == Ok(rows)
  {
    ParseRowsPrefix(lines, rows, |lines|);
    assert lines[..|lines|] == lines && rows[..|rows|] == rows;
  }

  /** The first k of those lines parse to the first k rows. */
  lemma {:induction false} ParseRowsPrefix(lines: seq<string>, rows: seq<Row>, k: nat)
    requires k <= |lines| == |rows|
    requires forall i :: 0 <= i < |lines| ==> ParseRow(lines[i]) == Ok(rows[i])
    ensures ParseRows(lines[..k]) == Ok(rows[..k])
  {
    if k > 0 {
      ParseRowsPrefix(lines, rows, k - 1);
      var init := lines[..k];
      assert init[..k - 1] == lines[..k - 1] && init[k - 1] == lines[k - 1];
      ParseRowsSnoc(init, rows[..k - 1], rows[k - 1]);
      assert rows[..k - 1] + [rows[k - 1]] == rows[..k];
    }
  }

  /** Lines whose first lines parse to some rows and whose last line parses
      to a row parse to those rows and that row. */
  lemma ParseRowsSnoc(lines: seq<string>, rows: seq<Row>, row: Row)
    requires |lines| > 0
    requires ParseRows(lines[..|lines| - 1]) == Ok(rows) && ParseRow(lines[|lines| - 1]) == Ok(row)
    ensures ParseRows(lines) == Ok(rows + [row])
  {
  }

  /** Lines whose rows after the first are continuations make one
      record. */
  lemma ContinuedRecords(lines: seq<string>, rows: seq<Row>)
    requires |lines| > 0 && forall k :: 0 <= k < |lines| ==> |lines[k]| > 3
    requires ParseRows(lines) == Ok(rows)
    requires forall k :: 1 <= k < |rows| ==> rows[k].code == ContinuationCode
    ensures NonEmptyPayloads(rows)
    ensures GeneratedRecords(lines) == Ok([BuildRecord(rows)])
  {
    ParsedPayloads(lines);
    ChunksOfContinued(rows);
    assert RecordChunks([rows]);
    var rs := BuildRecords([rows]);
    assert rs == [BuildRecord(rows)];
    assert GeneratedRecords(lines) == Ok(rs);
  }

  /** The code of the `k`-th line of an account identifier. */
  function IdentifierLineCode(k: nat): RecordCode {
    if k == 0 then AccountIdentifierCode else ContinuationCode
  }

  /** The rows the lines of an account identifier stand for. */
  function GroupRows(gs: seq<seq<string>>): (rows: seq<Row>)
    ensures |rows| == |gs|
  {
    seq(|gs|, k requires 0 <= k < |gs| => Row(IdentifierLineCode(k), Join(gs[k], ',') + "/"))
  }

  /** One line holding a group parses to its row. */
  lemma GroupLineRow(line: string, k: nat, g: seq<string>)
    requires HoldsGroup(line, CodeValue(IdentifierLineCode(k)), g)
    ensures |line| > 3 && ParseRow(line) == Ok(Row(IdentifierLineCode(k), Join(g, ',') + "/"))
  {
    LineRow(IdentifierLineCode(k), g);
    CommasJoin(g);
  }

  /** Lines holding groups parse to the group rows. */
  lemma GroupedRows(lines: seq<string>, gs: seq<seq<string>>, all: seq<string>)
    requires Grouped("03", lines, gs, all)
    ensures forall k :: 0 <= k < |lines| ==> |lines[k]| > 3
    ensures ParseRows(lines) == Ok(GroupRows(gs))
  {
    var rows := GroupRows(gs);
    forall k | 0 <= k < |lines|
      ensures |lines[k]| > 3 && ParseRow(lines[k]) == Ok(rows[k])
    {
      GroupLineRow(lines[k], k, gs[k]);
    }
    ParseRowsOf(lines, rows);
  }

  /** The lines `AccountIdentifierWriter.write` produces for comma-free
      fields whose first field fits the first line parse to a 03 row and
      88 rows from which `_build_record` gives back exactly the fields. */
  lemma IdentifierLinesReassemble(fields: seq<string>, n: int)
    requires |fields| >= 1 && CommaFree(fields) && |fields[0]| + 4 < n
    ensures var lines := FieldLines("03", fields, n);
      (forall k :: 0 <= k < |lines| ==> |lines[k]| > 3)
      && ParseRows(lines).Ok?
      && (forall k :: 0 <= k < |lines| ==> ParseRows(lines).value[k].code == IdentifierLineCode(k))
      && NonEmptyPayloads(ParseRows(lines).value)
      && BuildRecord(ParseRows(lines).value).fields == fields
  {
    var f0 := fields[0];
    var cur := "03" + Commas([f0]);
    CommasOne(f0);
    AppendAssoc("03", ",", f0);
    assert FieldLines("03", fields, n) == FieldLines(cur, fields[1..], n);
    assert [f0] + fields[1..] == fields;
    FieldLinesGroups("03", [f0], fields[1..], n);
    var lines := FieldLines(cur, fields[1..], n);
    var gs := LineGroups(cur, [f0], fields[1..], n);
    GroupedRows(lines, gs, fields);
    BuildRecordOfTerminated(GroupRows(gs), gs);
  }

  /** An account identifier written over as many lines as it needs reads
      back as itself: `record_generator` gives one 03 record, continuations
      included, and `AccountIdentifierParser` recovers the identifier. */
  lemma AccountIdentifierLinesRoundTrip(h: AccountIdentifier, cfg: WriterConfig, layout: Layout)
    requires ReadableAccountIdentifier(h, cfg.clockFormatForIntraDay, layout)
    requires CommaFree(AccountIdentifierFields(h, cfg.clockFormatForIntraDay, layout))
    requires |TextField(h.customerAccountNumber)| + 4 < cfg.lineLength
    ensures forall k :: 0 <= k < |AccountIdentifierLines(h, cfg, layout)| ==> |AccountIdentifierLines(h, cfg, layout)[k]| > 3
    ensures GeneratedRecords(AccountIdentifierLines(h, cfg, layout)).Ok?
    ensures var recs := GeneratedRecords(AccountIdentifierLines(h, cfg, layout)).value;
      |recs| == 1 && recs[0].code == AccountIdentifierCode
      && DecodeAccountIdentifier(recs[0]) == Ok(h.(rows := recs[0].rows))
  {
    var clock := cfg.clockFormatForIntraDay;
    var fields := AccountIdentifierFields(h, clock, layout);
    var lines := AccountIdentifierLines(h, cfg, layout);
    IdentifierLinesReassemble(fields, cfg.lineLength);
    var rows := ParseRows(lines).value;
    ContinuedRecords(lines, rows);
    assert BuildRecord(rows) == Record(AccountIdentifierCode, fields, rows);
    AccountIdentifierRoundTrip(h, clock, layout, rows);
  }
}
