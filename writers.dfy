/** The record writers of bai2/writers.py: every model becomes text lines
    "CC,field,field,...": single records end in '/', a transaction detail
    (16) packs its text into the line length and wraps it onto
    continuation (88) lines, and an account identifier (03) starts a
    continuation line before any field that would reach the line length. */
module Writers {
  import opened Outcomes
  import opened Strings
  import opened Constants
  import opened Utils
  import opened Models

  /** The keyword arguments of `BaseWriter`. */
  datatype WriterConfig = WriterConfig(lineLength: int, textOnNewLine: bool, clockFormatForIntraDay: bool)

  /** `line_length=80, text_on_new_line=False, clock_format_for_intra_day=False`. */
  const DefaultConfig := WriterConfig(80, false, false)

  // ----- field values -----

  /** `write_date`, or '' for None. */
  function DateText(o: Option<CalendarDate>): (s: string)
    ensures s == "" <==> o.None?
  {
    if o.None? then "" else WriteDate(o.value)
  }

  /** `write_time`, or '' for None. */
  function TimeText(o: Option<TimeOfDay>, clock: bool): (s: string)
    ensures s == "" <==> o.None?
  {
    if o.None? then "" else WriteTime(o.value, clock)
  }

  function TypeCodeText(o: Option<TypeCode>): string {
    if o.None? then "" else o.value.code
  }

  function FundsTypeText(o: Option<FundsType>): string {
    if o.None? then "" else FundsTypeValue(o.value)
  }

  function GroupStatusText(o: Option<GroupStatus>): string {
    if o.None? then "" else GroupStatusValue(o.value)
  }

  function ModifierText(o: Option<AsOfDateModifier>): string {
    if o.None? then "" else AsOfDateModifierValue(o.value)
  }

  // ----- availability -----

  /** `str` of a Python `date`: YYYY-MM-DD. */
  function IsoDate(d: CalendarDate): (s: string)
    ensures |s| == 10 && s[4] == '-' && s[7] == '-'
    ensures IsDigits(s[..4]) && IsDigits(s[5..7]) && IsDigits(s[8..])
  {
    var s := TwoDigits(d.year / 100) + TwoDigits(d.year % 100) + "-" + TwoDigits(d.month) + "-" + TwoDigits(d.day);
    assert s[..4] == TwoDigits(d.year / 100) + TwoDigits(d.year % 100);
    assert s[5..7] == TwoDigits(d.month) && s[8..] == TwoDigits(d.day);
    s
  }

  /** `str` of a Python `time`: HH:MM:SS, with the microseconds of the
      end-of-day sentinel `time.max`. */
  function IsoTime(t: TimeOfDay): (s: string)
    ensures |s| >= 8 && s[2] == ':' && s[5] == ':'
    ensures |s| == 8 <==> t.Clock?
  {
    match t
    case EndOfDay => "23:59:59.999999"
    case Clock(h, m, sec) => TwoDigits(h) + ":" + TwoDigits(m) + ":" + TwoDigits(sec)
  }

  /** `convert_to_string(value)`: '' for None, otherwise `str(value)`. */
  function StrText(v: AvailValue): (s: string)
    ensures v.AmountValue? ==> s == IntToString(v.amount)
    ensures s == "" <==> (v.DateValue? && v.date.None?) || (v.TimeValue? && v.time.None?)
  {
    match v
    case AmountValue(n) => IntToString(n)
    case DateValue(d) => if d.None? then "" else IsoDate(d.value)
    case TimeValue(t) => if t.None? then "" else IsoTime(t.value)
  }

  /** A date or time value in the BAI2 format, '' for a missing one; an
      amount as a number. */
  function ValueText(v: AvailValue, clock: bool): string {
    match v
    case AmountValue(n) => IntToString(n)
    case DateValue(d) => DateText(d)
    case TimeValue(t) => TimeText(t, clock)
  }

  /** Python's truth value of an availability value. */
  predicate Truthy(v: AvailValue) {
    match v
    case AmountValue(n) => n != 0
    case DateValue(d) => d.Some?
    case TimeValue(t) => t.Some?
  }

  /** One value of the S or V key list: under 'date' and 'time' a false
      value is '' and a true one goes through `write_date` or `write_time`
      (a time under 'date' keeps strftime's 1900-01-01, "000101"); under
      '0', '1' and '>1' it is `convert_to_string(value)`. */
  function FixedValueText(key: string, v: AvailValue, clock: bool): (s: string)
    ensures key != "date" && key != "time" ==> s == StrText(v)
    ensures key == "date" && v.DateValue? ==> s == DateText(v.date)
    ensures key == "time" && v.TimeValue? ==> s == TimeText(v.time, clock)
  {
    if key != "date" && key != "time" then StrText(v)
    else if !Truthy(v) then ""
    else if key == "date" && v.TimeValue? then "000101"
    else ValueText(v, clock)
  }

  /** The values of a mapping with the S or V key list, in order. */
  function ValueTexts(entries: seq<(string, AvailValue)>, clock: bool): seq<string> {
    seq(|entries|, i requires 0 <= i < |entries| => FixedValueText(entries[i].0, entries[i].1, clock))
  }

  /** The day and the amount of every distribution, in order, both through
      `convert_to_string`. */
  function DayAmounts(entries: seq<(string, AvailValue)>): (fs: seq<string>)
    ensures |fs| == 2 * |entries|
    ensures forall i :: 0 <= i < |entries| ==> fs[2 * i] == entries[i].0 && fs[2 * i + 1] == StrText(entries[i].1)
  {
    if |entries| == 0 then []
    else
      var r := DayAmounts(entries[1..]);
      assert forall i :: 1 <= i < |entries| ==> r[2 * (i - 1)] == entries[i].0;
      [entries[0].0, StrText(entries[0].1)] + r
  }

  /** The key lists that are written without a count: S and V. */
  predicate FixedLayout(entries: seq<(string, AvailValue)>) {
    Keys(entries) == ["0", "1", ">1"] || Keys(entries) == ["date", "time"]
  }

  /** `expand_availability`: nothing for an empty mapping, the bare values
      for the S and V key lists, otherwise the count and the day/amount
      pairs. */
  function ExpandAvailability(entries: seq<(string, AvailValue)>, clock: bool): (fs: seq<string>)
    ensures fs == [] <==> entries == []
    ensures FixedLayout(entries) ==> |fs| == |entries|
    ensures entries != [] && !FixedLayout(entries) ==>
      |fs| == 1 + 2 * |entries| && fs[0] == IntToString(|entries|)
      && forall i :: 0 <= i < |entries| ==> fs[2 * i + 1] == entries[i].0 && fs[2 * i + 2] == StrText(entries[i].1)
  {
    if |entries| == 0 then []
    else if FixedLayout(entries) then ValueTexts(entries, clock)
    else [IntToString(|entries|)] + DayAmounts(entries)
  }

  /** The availability fields as `_write_field_from_config` produces them:
      a missing availability is one blank field. */
  function AvailabilityFieldsAsWritten(a: Availability, clock: bool): seq<string> {
    match a
    case NoAvailability => [""]
    case Entries(e) => ExpandAvailability(e, clock)
  }

  /** The availability fields the parser reads back: nothing when there is
      no availability, and a distribution always with its count. */
  function AvailabilityFields(fundsType: Option<FundsType>, a: Availability, clock: bool): seq<string> {
    match a
    case NoAvailability => []
    case Entries(e) =>
      if fundsType == Some(DistributedAvailability) then [IntToString(|e|)] + DayAmounts(e)
      else ExpandAvailability(e, clock)
  }

  /** Which availability fields a record carries. `AsWritten` is the
      layout of bai2/writers.py, which every writer below uses; `Readable`
      is the corrected layout, the one the parser reads for the funds
      type. */
  datatype Layout = AsWritten | Readable

  function LaidOutAvailability(layout: Layout, fundsType: Option<FundsType>, a: Availability, clock: bool): seq<string> {
    match layout
    case AsWritten => AvailabilityFieldsAsWritten(a, clock)
    case Readable => AvailabilityFields(fundsType, a, clock)
  }

  // ----- field lists -----

  /** `summary_fields_config` applied to one item. */
  function SummaryFields(s: Summary, clock: bool, layout: Layout): seq<string> {
    [TypeCodeText(s.typeCode), IntField(s.amount), IntField(s.itemCount), FundsTypeText(s.fundsType)]
      + LaidOutAvailability(layout, s.fundsType, s.availability, clock)
  }

  /** `expand_summary_items`: the items' fields one after the other. */
  function SummaryItemsFields(items: seq<Summary>, clock: bool, layout: Layout): seq<string> {
    if |items| == 0 then []
    else SummaryFields(items[0], clock, layout) + SummaryItemsFields(items[1..], clock, layout)
  }

  /** The fields of an account identifier (03) record. */
  function AccountIdentifierFields(h: AccountIdentifier, clock: bool, layout: Layout): seq<string> {
    [TextField(h.customerAccountNumber), TextField(h.currency)] + SummaryItemsFields(h.summaryItems, clock, layout)
  }

  /** The fields of a transaction detail (16) record before its text. */
  function TransactionHead(t: TransactionDetail, clock: bool, layout: Layout): seq<string> {
    [TypeCodeText(t.typeCode), IntField(t.amount), FundsTypeText(t.fundsType)]
      + LaidOutAvailability(layout, t.fundsType, t.availability, clock)
      + [TextField(t.bankReference), TextField(t.customerReference)]
  }

  function FileHeaderFields(h: FileHeader, clock: bool): seq<string> {
    [TextField(h.senderId), TextField(h.receiverId), DateText(h.creationDate),
     TimeText(h.creationTime, clock), TextField(h.fileId), IntField(h.physicalRecordLength),
     IntField(h.blockSize), IntField(h.versionNumber)]
  }

  function FileTrailerFields(t: FileTrailer): seq<string> {
    [IntField(t.fileControlTotal), IntField(t.numberOfGroups), IntField(t.numberOfRecords)]
  }

  function GroupHeaderFields(h: GroupHeader, clock: bool): seq<string> {
    [TextField(h.ultimateReceiverId), TextField(h.originatorId), GroupStatusText(h.groupStatus),
     DateText(h.asOfDate), TimeText(h.asOfTime, clock), TextField(h.currency),
     ModifierText(h.asOfDateModifier)]
  }

  function GroupTrailerFields(t: GroupTrailer): seq<string> {
    [IntField(t.groupControlTotal), IntField(t.numberOfAccounts), IntField(t.numberOfRecords)]
  }

  function AccountTrailerFields(t: AccountTrailer): seq<string> {
    [IntField(t.accountControlTotal), IntField(t.numberOfRecords)]
  }

  // ----- single records -----

  /** Every field after a comma. */
  function Commas(fields: seq<string>): string {
    if |fields| == 0 then "" else Commas(fields[..|fields| - 1]) + "," + fields[|fields| - 1]
  }

  /** `BaseSingleWriter.write`: the code, the fields, a closing '/'. */
  function Line(code: RecordCode, fields: seq<string>): string {
    CodeValue(code) + Commas(fields) + "/"
  }

  /** `BaseSingleWriter.write`: exactly one line. */
  method WriteSingle(code: RecordCode, fields: seq<string>) returns (records: seq<string>)
    ensures records == [Line(code, fields)]
  {
    var record := CodeValue(code);
    for k := 0 to |fields|
      invariant record == CodeValue(code) + Commas(fields[..k])
    {
      assert fields[..k + 1][..k] == fields[..k];
      record := record + "," + fields[k];
    }
    assert fields[..|fields|] == fields;
    record := record + "/";
    records := [record];
  }

  // ----- transaction detail (16) -----

  /** A text is written only when it is not None and not empty. */
  predicate HasText(text: Option<string>) {
    text.Some? && text.value != ""
  }

  /** The lines a text takes from the current line `cur` on: as much as
      fits after a comma, then continuation lines. A line with no room left
      is closed as it is. */
  function TextLines(cur: string, rest: string, lineLength: int): (lines: seq<string>)
    requires lineLength > 3
    ensures |lines| >= 1
    decreases |rest|, if lineLength - |cur| - 1 > 0 then 0 else 1
  {
    if |rest| == 0 then [cur]
    else
      var room := lineLength - |cur| - 1;
      if room <= 0 then [cur] + TextLines("88", rest, lineLength)
      else if |rest| <= room then [cur + "," + rest]
      else TextLines(cur + "," + rest[..room], rest[room..], lineLength)
  }

  /** `TransactionDetailWriter.write` on the fields before the text: they
      go on the first line, then the text, either packed after them or,
      with `text_on_new_line`, from a continuation line on. Without a text
      the line ends in an empty field. */
  function DetailLines(head: seq<string>, text: Option<string>, cfg: WriterConfig): (lines: seq<string>)
    requires HasText(text) ==> cfg.lineLength > 3
  {
    var first := "16" + Commas(head);
    if !HasText(text) then [first + ","]
    else if cfg.textOnNewLine then [first + "/"] + TextLines("88", text.value, cfg.lineLength)
    else TextLines(first, text.value, cfg.lineLength)
  }

  function TransactionLines(t: TransactionDetail, cfg: WriterConfig, layout: Layout): (lines: seq<string>)
    requires HasText(t.text) ==> cfg.lineLength > 3
  {
    DetailLines(TransactionHead(t, cfg.clockFormatForIntraDay, layout), t.text, cfg)
  }

  /** The text loop of `TransactionDetailWriter.write`, from the current
      last line `records[i]` on. */
  method WrapText(records: seq<string>, i: nat, text: string, cfg: WriterConfig) returns (lines: seq<string>, last: nat)
    requires i == |records| - 1 && |text| > 0 && cfg.lineLength > 3
    ensures lines == records[..i] + (if cfg.textOnNewLine then [records[i] + "/"] + TextLines("88", text, cfg.lineLength)
                                      else TextLines(records[i], text, cfg.lineLength))
    ensures last == |lines| - 1
  {
    if cfg.textOnNewLine {
      var closed := records[..i] + [records[i] + "/"];
      lines, last := FillText(closed, "88", text, cfg.lineLength);
      AppendAssoc(records[..i], [records[i] + "/"], TextLines("88", text, cfg.lineLength));
    } else {
      lines, last := FillText(records[..i], records[i], text, cfg.lineLength);
    }
  }

  /** The `text_cursor` loop: the current line `first` after the lines
      `closed`, filled with text and continued until the text runs out. */
  method FillText(closed: seq<string>, first: string, text: string, n: int) returns (lines: seq<string>, last: nat)
    requires |text| > 0 && n > 3
    ensures lines == closed + TextLines(first, text, n)
    ensures last == |lines| - 1
  {
    ghost var target := closed + TextLines(first, text, n);
    ghost var done := closed;
    lines, last := closed + [first], |closed|;
    assert text[0..] == text;
    var cursor := 0;
    while cursor < |text|
      invariant last == |lines| - 1 && 0 <= cursor
      invariant lines == done + [lines[last]]
      invariant cursor < |text| ==> done + TextLines(lines[last], text[cursor..], n) == target
      invariant cursor >= |text| ==> lines == target
      decreases |text| - cursor, if n - |lines[last]| - 1 > 0 then 0 else 1
    {
      var remaining := n - |lines[last]| - 1;
      var cur := lines[last];
      if remaining > 0 {
        var end := cursor + remaining;
        var stop := if end < |text| then end else |text|;
        FillStep(done, cur, text, cursor, n, target);
        lines := lines[last := cur + "," + text[cursor..stop]];
        assert lines == done + [lines[last]];
        cursor := end;
      } else {
        CloseStep(done, cur, text, cursor, n, target);
        done := done + [cur];
        lines := lines + ["88"];
        last := last + 1;
      }
    }
  }

  /** The loop of `FillText` fills the current line with as much text as
      fits after a comma. */
  lemma FillStep(done: seq<string>, cur: string, text: string, cursor: nat, n: int, target: seq<string>)
    requires n > 3 && cursor < |text| && 0 < n - |cur| - 1
    requires done + TextLines(cur, text[cursor..], n) == target
    ensures var end := cursor + n - |cur| - 1;
      var next := cur + "," + text[cursor..if end < |text| then end else |text|];
      (end < |text| ==> done + TextLines(next, text[end..], n) == target)
      && (end >= |text| ==> done + [next] == target)
  {
    var rest := text[cursor..];
    var remaining := n - |cur| - 1;
    var end := cursor + remaining;
    TextLinesStep(cur, rest, n);
    if end < |text| {
      assert text[cursor..end] == rest[..remaining];
      assert text[end..] == rest[remaining..];
    } else {
      assert text[cursor..|text|] == rest;
    }
  }

  /** ... and closes a full line, starting a continuation. */
  lemma CloseStep(done: seq<string>, cur: string, text: string, cursor: nat, n: int, target: seq<string>)
    requires n > 3 && cursor < |text| && n - |cur| - 1 <= 0
    requires done + TextLines(cur, text[cursor..], n) == target
    ensures (done + [cur]) + TextLines("88", text[cursor..], n) == target
  {
    TextLinesStep(cur, text[cursor..], n);
    AppendAssoc(done, [cur], TextLines("88", text[cursor..], n));
  }

  /** One step of `TextLines`. */
  lemma TextLinesStep(cur: string, rest: string, n: int)
    requires n > 3 && |rest| > 0
    ensures n - |cur| - 1 <= 0 ==> TextLines(cur, rest, n) == [cur] + TextLines("88", rest, n)
    ensures 0 < n - |cur| - 1 && |rest| <= n - |cur| - 1 ==> TextLines(cur, rest, n) == [cur + "," + rest]
    ensures 0 < n - |cur| - 1 < |rest| ==>
      TextLines(cur, rest, n) == TextLines(cur + "," + rest[..n - |cur| - 1], rest[n - |cur| - 1..], n)
  {
  }

  /** `TransactionDetailWriter.write`, in the availability layout it writes. */
  method WriteTransactionDetail(t: TransactionDetail, cfg: WriterConfig) returns (records: seq<string>)
    requires HasText(t.text) ==> cfg.lineLength > 3
    ensures records == TransactionLines(t, cfg, AsWritten)
  {
    records := PackDetail(TransactionHead(t, cfg.clockFormatForIntraDay, AsWritten), t.text, cfg);
  }

  /** The field loop of `TransactionDetailWriter.write`: every field after a
      comma, except a text, which is wrapped. */
  method PackDetail(head: seq<string>, text: Option<string>, cfg: WriterConfig) returns (records: seq<string>)
    requires HasText(text) ==> cfg.lineLength > 3
    ensures records == DetailLines(head, text, cfg)
  {
    var fields := head + [TextField(text)];
    assert fields[..|fields| - 1] == head;
    records := ["16"];
    var i := 0;
    assert fields[..0] == [];
    assert Commas(fields[..0]) == "";
    assert "16" + "" == "16";
    for k := 0 to |fields|
      invariant k < |fields| ==> records == ["16" + Commas(fields[..k])] && i == 0
      invariant k == |fields| ==> records == DetailLines(head, text, cfg)
    {
      assert fields[..k + 1][..k] == fields[..k];
      assert Commas(fields[..k + 1]) == Commas(fields[..k]) + "," + fields[k];
      if k == |fields| - 1 && HasText(text) {
        records, i := WrapText(records, i, text.value, cfg);
        assert records[..0] == [];
      } else {
        var c := Commas(fields[..k]);
        assert ("16" + c) + "," + fields[k] == "16" + (c + "," + fields[k]);
        records := records[i := records[i] + "," + fields[k]];
      }
      if k + 1 == |fields| && !HasText(text) {
        var c := Commas(head);
        assert fields[..k] == head && fields[k] == "";
        assert ("16" + c) + "," + "" == ("16" + c) + ",";
      }
    }
  }

  // ----- account identifier (03) -----

  /** The lines of an account identifier from the current line `cur` on:
      a field that would make the line reach the line length (with its
      comma and a closing '/') goes to a new continuation line; every line
      ends in '/'. */
  function FieldLines(cur: string, fields: seq<string>, lineLength: int): (lines: seq<string>)
    ensures |lines| >= 1
    decreases |fields|
  {
    if |fields| == 0 then [cur + "/"]
    else if |cur| + |fields[0]| + 2 >= lineLength then [cur + "/"] + FieldLines("88," + fields[0], fields[1..], lineLength)
    else FieldLines(cur + "," + fields[0], fields[1..], lineLength)
  }

  function AccountIdentifierLines(h: AccountIdentifier, cfg: WriterConfig, layout: Layout): seq<string> {
    FieldLines("03", AccountIdentifierFields(h, cfg.clockFormatForIntraDay, layout), cfg.lineLength)
  }

  /** `AccountIdentifierWriter.write`, in the availability layout it writes. */
  method WriteAccountIdentifier(h: AccountIdentifier, cfg: WriterConfig) returns (records: seq<string>)
    ensures records == AccountIdentifierLines(h, cfg, AsWritten)
  {
    var fields := AccountIdentifierFields(h, cfg.clockFormatForIntraDay, AsWritten);
    records := PackFields("03", fields, cfg.lineLength);
  }

  /** The loop of `AccountIdentifierWriter.write` over the fields, from a
      first line holding only the record code. */
  method PackFields(code: string, fields: seq<string>, n: int) returns (records: seq<string>)
    ensures records == FieldLines(code, fields, n)
  {
    records := [code];
    var i := 0;
    assert fields[0..] == fields;
    for k := 0 to |fields|
      invariant i == |records| - 1
      invariant records[..i] + FieldLines(records[i], fields[k..], n) == FieldLines(code, fields, n)
    {
      ghost var before := records;
      var rest := fields[k..];
      assert rest[0] == fields[k] && rest[1..] == fields[k + 1..];
      var cur := records[i];
      if |cur| + |fields[k]| + 2 >= n {
        assert FieldLines(cur, rest, n) == [cur + "/"] + FieldLines("88," + fields[k], fields[k + 1..], n);
        records := records[i := cur + "/"] + ["88"];
        i := i + 1;
        assert records[..i] == before[..i - 1] + [cur + "/"];
        assert "88" + "," + fields[k] == "88," + fields[k];
      } else {
        assert FieldLines(cur, rest, n) == FieldLines(cur + "," + fields[k], fields[k + 1..], n);
      }
      ghost var mid := records;
      records := records[i := records[i] + "," + fields[k]];
      assert records[..i] == mid[..i];
    }
    ghost var before := records;
    records := records[i := records[i] + "/"];
    assert records == before[..i] + [before[i] + "/"];
  }
}
