/** What the single-record writers of bai2/writers.py produce reads back
    through bai2/helpers.py and bai2/parsers.py: a line "CC,f1,...,fn/" is
    one row, assembled into one record whose fields are f1..fn, and the
    header and trailer decoders turn those fields back into the model. */
module RecordLaws {
  import opened Outcomes
  import opened Strings
  import opened Constants
  import opened Utils
  import opened Models
  import opened Helpers
  import opened Decoding
  import opened Writers

  /** No field holds the separator the assembler splits at. */
  predicate CommaFree(fields: seq<string>) {
    forall i :: 0 <= i < |fields| ==> Free(fields[i], ',')
  }

  /** The record one single-record line stands for: its fields, and the one
      row that carries them. */
  function SingleRecord(code: RecordCode, fields: seq<string>): Record {
    Record(code, fields, [Row(code, Join(fields, ',') + "/")])
  }

  // ----- one line -----

  /** Every field after a comma is the comma-join of the fields behind one
      comma. */
  lemma {:induction false} CommasJoin(fields: seq<string>)
    requires |fields| >= 1
    ensures Commas(fields) == "," + Join(fields, ',')
  {
    var n := |fields|;
    if n == 1 {
      assert fields[..0] == [];
    } else {
      var init := fields[..n - 1];
      CommasJoin(init);
      JoinSnoc(init, fields[n - 1], ',');
      assert init + [fields[n - 1]] == fields;
    }
  }

  /** A line written by `BaseSingleWriter.write` splits into its code and
      the comma-joined fields closed by '/'. */
  lemma LineRow(code: RecordCode, fields: seq<string>)
    requires |fields| >= 1
    ensures ParseRow(Line(code, fields)) == Ok(Row(code, Join(fields, ',') + "/"))
  {
    CommasJoin(fields);
    var c, j := CodeValue(code), Join(fields, ',');
    var row := Row(code, j + "/");
    AppendAssoc(c, ",", j);
    AppendAssoc(c + ",", j, "/");
    assert Line(code, fields) == RowText(row);
    ParseRowText(row);
  }

  /** `record_generator` reads that one line back as one record holding
      exactly the written fields, as long as no field contains a comma. */
  lemma LineRecord(code: RecordCode, fields: seq<string>)
    requires |fields| >= 1 && CommaFree(fields)
    ensures |Line(code, fields)| > 3
    ensures GeneratedRecords([Line(code, fields)]) == Ok([SingleRecord(code, fields)])
  {
    var line := Line(code, fields);
    LineRow(code, fields);
    CommasJoin(fields);
    var row := Row(code, Join(fields, ',') + "/");
    assert [line][..0] == [];
    assert ParseRows([line][..0]) == Ok([]);
    assert ParseRow([line][0]) == Ok(row);
    assert ParseRows([line]) == Ok([] + [row]);
    assert [] + [row] == [row];
    assert |line| == |CodeValue(code)| + |Commas(fields)| + 1;
    OneLineRecords(line, row);
    SingleTerminatedRowFields(code, Join(fields, ','));
    SplitJoin(fields, ',');
  }

  /** A lone line makes a lone record. */
  lemma OneLineRecords(line: string, row: Row)
    requires |line| > 3 && ParseRows([line]) == Ok([row])
    ensures |row.payload| > 0
    ensures GeneratedRecords([line]) == Ok([BuildRecord([row])])
  {
    var lines := [line];
    ParsedPayloads(lines);
    assert |row.payload| > 0;
    var cs := Chunks([row]);
    assert cs == [[row]];
    assert RecordChunks(cs);
    var rs := BuildRecords(cs);
    assert rs == [BuildRecord([row])];
    assert GeneratedRecords(lines) == Ok(rs);
  }

  // ----- field values -----

  /** A text that reads back as itself: not blank (a blank field is None)
      and without a comma. */
  predicate ReadableText(o: Option<string>) {
    o.Some? ==> o.value != "" && Free(o.value, ',')
  }

  /** A date inside the century window of `%y`. */
  predicate ReadableDate(o: Option<CalendarDate>) {
    o.Some? ==> 1969 <= o.value.year <= 2068
  }

  /** A time the chosen format keeps: HHMM drops the seconds. */
  predicate ReadableTime(o: Option<TimeOfDay>, clock: bool) {
    o.Some? && o.value.Clock? && !clock ==> o.value.second == 0
  }

  lemma DigitsFree(s: string)
    requires IsDigits(s)
    ensures Free(s, ',')
  {
  }

  /** `str` of an integer never holds a comma. */
  lemma IntFieldFree(o: Option<int>)
    ensures Free(IntField(o), ',')
  {
    if o.Some? {
      var i := o.value;
      if i < 0 {
        DigitsFree(NatToString(-i));
      } else {
        DigitsFree(NatToString(i));
      }
    }
  }

  lemma DateTextFree(o: Option<CalendarDate>)
    ensures Free(DateText(o), ',')
  {
    if o.Some? {
      DigitsFree(WriteDate(o.value));
    }
  }

  lemma TimeTextFree(o: Option<TimeOfDay>, clock: bool)
    ensures Free(TimeText(o, clock), ',')
  {
    if o.Some? {
      var s := WriteTime(o.value, clock);
      if |s| == 8 && ClockPattern(s) {
        forall i | 0 <= i < |s|
          ensures s[i] != ','
        {
          assert i == 2 || i == 5 || DigitAt(s, i);
        }
      } else {
        DigitsFree(s);
      }
    }
  }

  /** A field written as `text` decodes to `o` when a blank text stands
      for None and the decoder reads any other text back as the value. */
  lemma FieldRead<T>(f: seq<string>, i: nat, text: string, o: Option<T>, decode: string -> Result<T>)
    requires i < |f| && f[i] == text
    requires text == "" <==> o.None?
    requires o.Some? ==> decode(text) == Ok(o.value)
    ensures DecodeField(f, i, decode) == Ok(o)
  {
  }

  lemma TextFieldRead(f: seq<string>, i: nat, o: Option<string>)
    requires i < |f| && f[i] == TextField(o) && ReadableText(o)
    ensures DecodeField(f, i, Text) == Ok(o)
  {
    FieldRead(f, i, TextField(o), o, Text);
  }

  lemma IntFieldRead(f: seq<string>, i: nat, o: Option<int>)
    requires i < |f| && f[i] == IntField(o)
    ensures DecodeField(f, i, ParseInt) == Ok(o)
  {
    FieldRead(f, i, IntField(o), o, ParseInt);
  }

  lemma DateFieldRead(f: seq<string>, i: nat, o: Option<CalendarDate>)
    requires i < |f| && f[i] == DateText(o) && ReadableDate(o)
    ensures DecodeField(f, i, ParseDate) == Ok(o)
  {
    if o.Some? {
      ParseWrittenDate(o.value);
    }
    FieldRead(f, i, DateText(o), o, ParseDate);
  }

  lemma TimeFieldRead(f: seq<string>, i: nat, o: Option<TimeOfDay>, clock: bool)
    requires i < |f| && f[i] == TimeText(o, clock) && ReadableTime(o, clock)
    ensures DecodeField(f, i, ParseTime) == Ok(o)
  {
    if o.Some? {
      ParseWrittenTime(o.value, clock);
    }
    FieldRead(f, i, TimeText(o, clock), o, ParseTime);
  }

  lemma StatusFieldRead(f: seq<string>, i: nat, o: Option<GroupStatus>)
    requires i < |f| && f[i] == GroupStatusText(o)
    ensures DecodeField(f, i, ParseGroupStatus) == Ok(o)
  {
    if o.Some? {
      assert GroupStatusText(o) == "1" && o.value == Update;
      assert ParseGroupStatus("1") == Ok(Update);
    }
    FieldRead(f, i, GroupStatusText(o), o, ParseGroupStatus);
  }

  lemma ModifierFieldRead(f: seq<string>, i: nat, o: Option<AsOfDateModifier>)
    requires i < |f| && f[i] == ModifierText(o)
    ensures DecodeField(f, i, ParseAsOfDateModifier) == Ok(o)
  {
    if o.Some? {
      assert ModifierText(o) == "2" && o.value == FinalPreviousDay;
      assert ParseAsOfDateModifier("2") == Ok(FinalPreviousDay);
    }
    FieldRead(f, i, ModifierText(o), o, ParseAsOfDateModifier);
  }

  // ----- headers and trailers -----

  /** The text fields of a file header are readable and its date and time
      survive their formats. */
  predicate ReadableFileHeader(h: FileHeader, clock: bool) {
    ReadableText(h.senderId) && ReadableText(h.receiverId) && ReadableText(h.fileId)
    && ReadableDate(h.creationDate) && ReadableTime(h.creationTime, clock)
  }

  /** A file header (01) written and parsed back is the same header, now
      carrying the written row. */
  lemma FileHeaderRoundTrip(h: FileHeader, clock: bool)
    requires ReadableFileHeader(h, clock)
    ensures CommaFree(FileHeaderFields(h, clock))
    ensures var rec := SingleRecord(FileHeaderCode, FileHeaderFields(h, clock));
            DecodeFileHeader(rec) == Ok(h.(rows := rec.rows))
  {
    var f := FileHeaderFields(h, clock);
    FileHeaderFieldsFree(h, clock);
    TextFieldRead(f, 0, h.senderId);
    TextFieldRead(f, 1, h.receiverId);
    DateFieldRead(f, 2, h.creationDate);
    TimeFieldRead(f, 3, h.creationTime, clock);
    TextFieldRead(f, 4, h.fileId);
    IntFieldRead(f, 5, h.physicalRecordLength);
    IntFieldRead(f, 6, h.blockSize);
    IntFieldRead(f, 7, h.versionNumber);
  }

  lemma FileHeaderFieldsFree(h: FileHeader, clock: bool)
    requires ReadableFileHeader(h, clock)
    ensures CommaFree(FileHeaderFields(h, clock))
  {
    DateTextFree(h.creationDate);
    TimeTextFree(h.creationTime, clock);
    IntFieldFree(h.physicalRecordLength);
    IntFieldFree(h.blockSize);
    IntFieldFree(h.versionNumber);
  }

  /** A file trailer (99) written and parsed back is the same trailer. */
  lemma FileTrailerRoundTrip(t: FileTrailer)
    ensures CommaFree(FileTrailerFields(t))
    ensures var rec := SingleRecord(FileTrailerCode, FileTrailerFields(t));
            DecodeFileTrailer(rec) == Ok(t.(rows := rec.rows))
  {
    var f := FileTrailerFields(t);
    IntFieldFree(t.fileControlTotal);
    IntFieldFree(t.numberOfGroups);
    IntFieldFree(t.numberOfRecords);
    IntFieldRead(f, 0, t.fileControlTotal);
    IntFieldRead(f, 1, t.numberOfGroups);
    IntFieldRead(f, 2, t.numberOfRecords);
  }

  predicate ReadableGroupHeader(h: GroupHeader, clock: bool) {
    ReadableText(h.ultimateReceiverId) && ReadableText(h.originatorId) && ReadableText(h.currency)
    && ReadableDate(h.asOfDate) && ReadableTime(h.asOfTime, clock)
  }

  /** A group header (02) written and parsed back is the same header,
      except that a missing currency comes back as USD. */
  lemma GroupHeaderRoundTrip(h: GroupHeader, clock: bool)
    requires ReadableGroupHeader(h, clock)
    ensures CommaFree(GroupHeaderFields(h, clock))
    ensures var rec := SingleRecord(GroupHeaderCode, GroupHeaderFields(h, clock));
            DecodeGroupHeader(rec) ==
              Ok(h.(rows := rec.rows, currency := if h.currency.None? then Some("USD") else h.currency))
  {
    var f := GroupHeaderFields(h, clock);
    GroupHeaderFieldsFree(h, clock);
    TextFieldRead(f, 0, h.ultimateReceiverId);
    TextFieldRead(f, 1, h.originatorId);
    StatusFieldRead(f, 2, h.groupStatus);
    DateFieldRead(f, 3, h.asOfDate);
    TimeFieldRead(f, 4, h.asOfTime, clock);
    TextFieldRead(f, 5, h.currency);
    ModifierFieldRead(f, 6, h.asOfDateModifier);
  }

  lemma GroupHeaderFieldsFree(h: GroupHeader, clock: bool)
    requires ReadableGroupHeader(h, clock)
    ensures CommaFree(GroupHeaderFields(h, clock))
  {
    DateTextFree(h.asOfDate);
    TimeTextFree(h.asOfTime, clock);
    assert Free(GroupStatusText(h.groupStatus), ',') && Free(ModifierText(h.asOfDateModifier), ',');
  }

  /** A group trailer (98) written and parsed back is the same trailer. */
  lemma GroupTrailerRoundTrip(t: GroupTrailer)
    ensures CommaFree(GroupTrailerFields(t))
    ensures var rec := SingleRecord(GroupTrailerCode, GroupTrailerFields(t));
            DecodeGroupTrailer(rec) == Ok(t.(rows := rec.rows))
  {
    var f := GroupTrailerFields(t);
    IntFieldFree(t.groupControlTotal);
    IntFieldFree(t.numberOfAccounts);
    IntFieldFree(t.numberOfRecords);
    IntFieldRead(f, 0, t.groupControlTotal);
    IntFieldRead(f, 1, t.numberOfAccounts);
    IntFieldRead(f, 2, t.numberOfRecords);
  }

  /** An account trailer (49) written and parsed back is the same trailer. */
  lemma AccountTrailerRoundTrip(t: AccountTrailer)
    ensures CommaFree(AccountTrailerFields(t))
    ensures var rec := SingleRecord(AccountTrailerCode, AccountTrailerFields(t));
            DecodeAccountTrailer(rec) == Ok(t.(rows := rec.rows))
  {
    var f := AccountTrailerFields(t);
    IntFieldFree(t.accountControlTotal);
    IntFieldFree(t.numberOfRecords);
    IntFieldRead(f, 0, t.accountControlTotal);
    IntFieldRead(f, 1, t.numberOfRecords);
  }
}
