/** The positional fields of bai2/writers.py against the decoders of
    bai2/parsers.py: the availability a funds type announces, the summary
    items of an account identifier (03) and the fields of a transaction
    detail (16) read back as what was written. The availability layout the
    source itself writes does not, in three cases shown here. */
module AvailabilityLaws {
  import opened Outcomes
  import opened Strings
  import opened Constants
  import opened Utils
  import opened Models
  import opened Decoding
  import opened Writers
  import opened RecordLaws

  // ----- availability -----

  predicate AmountsOnly(e: seq<(string, AvailValue)>) {
    forall i :: 0 <= i < |e| ==> e[i].1.AmountValue?
  }

  predicate DistinctKeys(e: seq<(string, AvailValue)>) {
    forall i, j :: 0 <= i < j < |e| ==> e[i].0 != e[j].0
  }

  /** The availability that the sub-grammar of a funds type reads: the
      three amounts of S, the date and time of V, distinct days with whole
      amounts for D, and none for any other funds type. */
  predicate ReadsBack(fundsType: Option<FundsType>, a: Availability, clock: bool) {
    match fundsType
    case Some(DistributedAvailabilitySimple) =>
      a.Entries? && Keys(a.entries) == ["0", "1", ">1"] && AmountsOnly(a.entries)
    case Some(ValueDated) =>
      a.Entries? && |a.entries| == 2 && a.entries[0].0 == "date" && a.entries[1].0 == "time"
      && a.entries[0].1.DateValue? && ReadableDate(a.entries[0].1.date)
      && a.entries[1].1.TimeValue? && ReadableTime(a.entries[1].1.time, clock)
    case Some(DistributedAvailability) => a.Entries? && AmountsOnly(a.entries) && DistinctKeys(a.entries)
    case _ => a == NoAvailability
  }

  /** Storing a key the mapping does not hold appends it. */
  lemma {:induction false} InsertNew(entries: seq<(string, AvailValue)>, key: string, v: AvailValue)
    requires key !in Keys(entries)
    ensures Insert(entries, key, v) == entries + [(key, v)]
  {
    if |entries| > 0 {
      assert entries[0].0 == Keys(entries)[0];
      assert Keys(entries[1..]) == Keys(entries)[1..];
      InsertNew(entries[1..], key, v);
      assert entries == [entries[0]] + entries[1..];
    }
  }

  /** The day/amount pairs of distinct days are read back one by one, each
      new day appended to the mapping, and the fields after them are left. */
  lemma {:induction false} DistributionsOfDayAmounts(acc: seq<(string, AvailValue)>, e: seq<(string, AvailValue)>,
                                                    rest: seq<string>)
    requires AmountsOnly(e) && DistinctKeys(acc + e)
    ensures Distributions(acc, DayAmounts(e) + rest, |e|) == Ok((acc + e, rest))
    decreases |e|
  {
    if |e| == 0 {
      assert acc + e == acc;
      assert DayAmounts(e) + rest == rest;
    } else {
      FirstKeyNew(acc, e);
      DayAmountsStep(acc, e, rest);
      var next := acc + [e[0]];
      assert next + e[1..] == acc + e;
      assert AmountsOnly(e[1..]) by {
        forall i | 0 <= i < |e| - 1 ensures e[1..][i].1.AmountValue? {
          assert e[1..][i] == e[i + 1];
        }
      }
      DistributionsOfDayAmounts(next, e[1..], rest);
    }
  }

  /** In a mapping with distinct days, a day after the first |acc| is not
      among them. */
  lemma FirstKeyNew(acc: seq<(string, AvailValue)>, e: seq<(string, AvailValue)>)
    requires |e| > 0 && DistinctKeys(acc + e)
    ensures e[0].0 !in Keys(acc)
  {
    forall j | 0 <= j < |acc|
      ensures Keys(acc)[j] != e[0].0
    {
      assert (acc + e)[j].0 != (acc + e)[|acc|].0;
    }
  }

  /** The first day/amount pair is read and appended. */
  lemma DayAmountsStep(acc: seq<(string, AvailValue)>, e: seq<(string, AvailValue)>, rest: seq<string>)
    requires |e| > 0 && e[0].1.AmountValue? && e[0].0 !in Keys(acc)
    ensures Distributions(acc, DayAmounts(e) + rest, |e|) ==
            Distributions(acc + [e[0]], DayAmounts(e[1..]) + rest, |e| - 1)
  {
    var fs := DayAmounts(e) + rest;
    var amount := e[0].1.amount;
    assert fs[0] == e[0].0 && fs[1] == IntToString(amount);
    ParseIntOfString(amount);
    assert fs[2..] == DayAmounts(e[1..]) + rest;
    InsertNew(acc, e[0].0, AmountValue(amount));
    assert e[0] == (e[0].0, AmountValue(amount));
  }

  /** The corrected availability fields round-trip: the parser, given the
      funds type, reads back exactly the availability and leaves the fields
      after it. */
  lemma AvailabilityRoundTrip(fundsType: Option<FundsType>, a: Availability, clock: bool, rest: seq<string>)
    requires ReadsBack(fundsType, a, clock)
    ensures AvailabilityOf(fundsType, AvailabilityFields(fundsType, a, clock) + rest) == Ok((a, rest))
  {
    match fundsType
    case Some(DistributedAvailabilitySimple) =>
      SimpleRoundTrip(a.entries, clock, rest);
    case Some(ValueDated) =>
      ValueDatedRoundTrip(a.entries, clock, rest);
    case Some(DistributedAvailability) =>
      DistributedRoundTrip(a.entries, clock, rest);
    case _ =>
      assert AvailabilityFields(fundsType, a, clock) + rest == rest;
  }

  lemma SimpleRoundTrip(e: seq<(string, AvailValue)>, clock: bool, rest: seq<string>)
    requires Keys(e) == ["0", "1", ">1"] && AmountsOnly(e)
    ensures AvailabilityOf(Some(DistributedAvailabilitySimple), ExpandAvailability(e, clock) + rest) == Ok((Entries(e), rest))
  {
    assert e[0].0 == Keys(e)[0] && e[1].0 == Keys(e)[1] && e[2].0 == Keys(e)[2];
    assert FixedLayout(e);
    var fs := ValueTexts(e, clock) + rest;
    ParseIntOfString(e[0].1.amount);
    ParseIntOfString(e[1].1.amount);
    ParseIntOfString(e[2].1.amount);
    assert fs[3..] == rest;
    assert e == [("0", AmountValue(e[0].1.amount)), ("1", AmountValue(e[1].1.amount)), (">1", AmountValue(e[2].1.amount))];
  }

  lemma ValueDatedRoundTrip(e: seq<(string, AvailValue)>, clock: bool, rest: seq<string>)
    requires |e| == 2 && e[0].0 == "date" && e[1].0 == "time"
    requires e[0].1.DateValue? && ReadableDate(e[0].1.date)
    requires e[1].1.TimeValue? && ReadableTime(e[1].1.time, clock)
    ensures AvailabilityOf(Some(ValueDated), ExpandAvailability(e, clock) + rest) == Ok((Entries(e), rest))
  {
    assert Keys(e) == ["date", "time"];
    var fs := ValueTexts(e, clock) + rest;
    var d, t := e[0].1.date, e[1].1.time;
    if d.Some? {
      ParseWrittenDate(d.value);
    }
    if t.Some? {
      ParseWrittenTime(t.value, clock);
    }
    assert OptionalDate(fs[0]) == Ok(d);
    assert OptionalTime(fs[1]) == Ok(t);
    assert fs[2..] == rest;
    assert e == [("date", DateValue(d)), ("time", TimeValue(t))];
  }

  lemma DistributedRoundTrip(e: seq<(string, AvailValue)>, clock: bool, rest: seq<string>)
    requires AmountsOnly(e) && DistinctKeys(e)
    ensures AvailabilityOf(Some(DistributedAvailability), [IntToString(|e|)] + DayAmounts(e) + rest)
              == Ok((Entries(e), rest))
  {
    var tail := DayAmounts(e) + rest;
    var fs := [IntToString(|e|)] + tail;
    AppendAssoc([IntToString(|e|)], DayAmounts(e), rest);
    assert fs[0] == IntToString(|e|) && fs[1..] == tail;
    ParseIntOfString(|e|);
    assert [] + e == e;
    DistributionsOfDayAmounts([], e, rest);
    DistributedOf(fs, |e|);
  }

  /** A distributed availability whose count reads as `n`: the
      distributions after the count, `n` of them if `n` is not negative. */
  lemma DistributedOf(fs: seq<string>, n: int)
    requires |fs| >= 1 && ParseInt(fs[0]) == Ok(n)
    ensures var d := Distributions([], fs[1..], DistributionCount(n));
            AvailabilityOf(Some(DistributedAvailability), fs)
              == if d.Ok? then Ok((Entries(d.value.0), d.value.1)) else Err(d.error)
  {
  }

  // ----- the two layouts -----

  /** The layout of bai2/writers.py writes what the parser reads exactly
      when there is an availability and, for funds type D, it has days and
      they are not the keys of S or V. */
  predicate LayoutsAgree(fundsType: Option<FundsType>, a: Availability) {
    a.Entries? && (fundsType == Some(DistributedAvailability) ==> |a.entries| > 0 && !FixedLayout(a.entries))
  }

  lemma LayoutsAgreeExactly(fundsType: Option<FundsType>, a: Availability, clock: bool)
    ensures LaidOutAvailability(AsWritten, fundsType, a, clock) == LaidOutAvailability(Readable, fundsType, a, clock)
            <==> LayoutsAgree(fundsType, a)
  {
    if a.Entries? && fundsType == Some(DistributedAvailability) {
      var e := a.entries;
      if |e| == 0 {
        assert AvailabilityFieldsAsWritten(a, clock) == [];
      } else if FixedLayout(e) {
        assert |ValueTexts(e, clock)| == |e| < 1 + 2 * |e|;
      }
    }
  }

  /** A layout whose availability fields the parser reads: the corrected
      one, or the written one where the two agree. */
  predicate ReadsLayout(layout: Layout, fundsType: Option<FundsType>, a: Availability) {
    layout == Readable || LayoutsAgree(fundsType, a)
  }

  lemma ReadableLayoutFields(layout: Layout, fundsType: Option<FundsType>, a: Availability, clock: bool)
    requires ReadsLayout(layout, fundsType, a)
    ensures LaidOutAvailability(layout, fundsType, a, clock) == AvailabilityFields(fundsType, a, clock)
  {
    LayoutsAgreeExactly(fundsType, a, clock);
  }

  // ----- the fields of 03 and 16 records -----

  predicate ReadableTypeCode(o: Option<TypeCode>) {
    o.Some? ==> o.value.code in TypeCodeKeys
  }

  lemma TypeCodeFieldRead(f: seq<string>, i: nat, o: Option<TypeCode>)
    requires i < |f| && f[i] == TypeCodeText(o) && ReadableTypeCode(o)
    ensures DecodeField(f, i, ParseTypeCode) == Ok(o)
  {
    if o.Some? {
      assert o.value.code != "";
      assert ParseTypeCode(o.value.code) == Ok(TypeCode(o.value.code));
    }
    FieldRead(f, i, TypeCodeText(o), o, ParseTypeCode);
  }

  lemma FundsTypeFieldRead(f: seq<string>, i: nat, o: Option<FundsType>)
    requires i < |f| && f[i] == FundsTypeText(o)
    ensures DecodeField(f, i, ParseFundsType) == Ok(o)
  {
    if o.Some? {
      assert ParseFundsType(FundsTypeValue(o.value)) == Ok(o.value);
    }
    FieldRead(f, i, FundsTypeText(o), o, ParseFundsType);
  }

  /** The funds types followed by availability fields. */
  predicate CarriesAvailability(fundsType: Option<FundsType>) {
    fundsType == Some(DistributedAvailabilitySimple) || fundsType == Some(ValueDated)
    || fundsType == Some(DistributedAvailability)
  }

  /** A summary item as the parser leaves it: without availability fields
      its availability is the empty mapping. */
  predicate ReadableSummary(s: Summary, clock: bool) {
    ReadableTypeCode(s.typeCode)
    && if CarriesAvailability(s.fundsType) then ReadsBack(s.fundsType, s.availability, clock)
       else s.availability == Entries([])
  }

  /** A summary item that reads back from its fields in `layout`. */
  predicate ReadableSummaryIn(s: Summary, clock: bool, layout: Layout) {
    ReadableSummary(s, clock) && ReadsLayout(layout, s.fundsType, s.availability)
  }

  /** One summary item reads back from its fields, leaving the fields after
      it. */
  lemma SummaryRoundTrip(s: Summary, clock: bool, layout: Layout, rest: seq<string>)
    requires ReadableSummaryIn(s, clock, layout)
    ensures SummaryItemAt(SummaryFields(s, clock, layout) + rest) == Ok((s, rest))
  {
    ReadableLayoutFields(layout, s.fundsType, s.availability, clock);
    var av := AvailabilityFields(s.fundsType, s.availability, clock);
    var fs := SummaryFields(s, clock, layout) + rest;
    assert fs == [TypeCodeText(s.typeCode), IntField(s.amount), IntField(s.itemCount), FundsTypeText(s.fundsType)] + (av + rest);
    TypeCodeFieldRead(fs, 0, s.typeCode);
    IntFieldRead(fs, 1, s.amount);
    IntFieldRead(fs, 2, s.itemCount);
    FundsTypeFieldRead(fs, 3, s.fundsType);
    assert fs[4..] == av + rest;
    SummaryAvailabilityRead(s, clock, rest);
  }

  /** The availability fields of a summary item read back as its
      availability. */
  lemma SummaryAvailabilityRead(s: Summary, clock: bool, rest: seq<string>)
    requires ReadableSummary(s, clock)
    ensures var r := AvailabilityOf(s.fundsType, AvailabilityFields(s.fundsType, s.availability, clock) + rest);
      r.Ok? && SummaryAvailability(r.value.0) == s.availability && r.value.1 == rest
  {
    var av := AvailabilityFields(s.fundsType, s.availability, clock);
    if CarriesAvailability(s.fundsType) {
      AvailabilityRoundTrip(s.fundsType, s.availability, clock, rest);
    } else {
      assert av == [] && av + rest == rest;
      assert AvailabilityOf(s.fundsType, av + rest) == Ok((NoAvailability, rest));
    }
  }

  /** The summary items of an account identifier read back from their
      fields, one after the other. */
  lemma {:induction false} SummaryItemsRoundTrip(items: seq<Summary>, clock: bool, layout: Layout)
    requires forall i :: 0 <= i < |items| ==> ReadableSummaryIn(items[i], clock, layout)
    ensures SummaryItems(SummaryItemsFields(items, clock, layout)) == Ok(items)
  {
    if |items| > 0 {
      var more := SummaryItemsFields(items[1..], clock, layout);
      SummaryRoundTrip(items[0], clock, layout, more);
      SummaryItemsRoundTrip(items[1..], clock, layout);
      assert |SummaryItemsFields(items, clock, layout)| >= 4;
      assert [items[0]] + items[1..] == items;
    }
  }

  predicate ReadableAccountIdentifier(h: AccountIdentifier, clock: bool, layout: Layout) {
    ReadableText(h.customerAccountNumber) && ReadableText(h.currency)
    && forall i :: 0 <= i < |h.summaryItems| ==> ReadableSummaryIn(h.summaryItems[i], clock, layout)
  }

  /** The fields of an account identifier (03) decode to the same
      identifier, whatever rows carried them. */
  lemma AccountIdentifierRoundTrip(h: AccountIdentifier, clock: bool, layout: Layout, rows: seq<Row>)
    requires ReadableAccountIdentifier(h, clock, layout)
    ensures DecodeAccountIdentifier(Record(AccountIdentifierCode, AccountIdentifierFields(h, clock, layout), rows)) == Ok(h.(rows := rows))
  {
    var f := AccountIdentifierFields(h, clock, layout);
    var common := Take(f, 2);
    assert common == [TextField(h.customerAccountNumber), TextField(h.currency)];
    TextFieldRead(common, 0, h.customerAccountNumber);
    TextFieldRead(common, 1, h.currency);
    assert Drop(f, 2) == SummaryItemsFields(h.summaryItems, clock, layout);
    SummaryItemsRoundTrip(h.summaryItems, clock, layout);
  }

  /** A transaction detail whose references and text read back: the text,
      when present, is not blank. */
  predicate ReadableTail(t: TransactionDetail) {
    ReadableText(t.bankReference) && ReadableText(t.customerReference)
    && (t.text.Some? ==> t.text.value != "")
  }

  /** A transaction detail whose fields in `layout` read back. */
  predicate ReadableTransaction(t: TransactionDetail, clock: bool, layout: Layout) {
    ReadableTypeCode(t.typeCode) && ReadsBack(t.fundsType, t.availability, clock)
    && ReadsLayout(layout, t.fundsType, t.availability) && ReadableTail(t)
  }

  /** The fields of a transaction detail (16), its text split at its commas
      as the assembler splits it, decode to the same transaction: the text
      is joined back whole. */
  lemma TransactionRoundTrip(t: TransactionDetail, clock: bool, layout: Layout, rows: seq<Row>)
    requires ReadableTransaction(t, clock, layout)
    ensures DecodeTransactionDetail(Record(TransactionDetailCode, TransactionHead(t, clock, layout) + Split(TextField(t.text), ','), rows))
              == Ok(t.(rows := rows))
  {
    var refs := [TextField(t.bankReference), TextField(t.customerReference)];
    HeadRoundTrip(t, clock, layout, Split(TextField(t.text), ','));
    AvailabilityRoundTrip(t.fundsType, t.availability, clock, refs + Split(TextField(t.text), ','));
    TailRoundTrip(t);
  }

  /** The first three fields read back as the type code, the amount and the
      funds type; the availability fields and the references follow. */
  lemma HeadRoundTrip(t: TransactionDetail, clock: bool, layout: Layout, texts: seq<string>)
    requires ReadableTransaction(t, clock, layout)
    ensures var f := TransactionHead(t, clock, layout) + texts;
            var head := Take(f, 3);
            DecodeField(head, 0, ParseTypeCode) == Ok(t.typeCode)
            && DecodeField(head, 1, ParseInt) == Ok(t.amount)
            && DecodeField(head, 2, ParseFundsType) == Ok(t.fundsType)
            && Drop(f, 3) == AvailabilityFields(t.fundsType, t.availability, clock)
                             + ([TextField(t.bankReference), TextField(t.customerReference)] + texts)
  {
    ReadableLayoutFields(layout, t.fundsType, t.availability, clock);
    var av := AvailabilityFields(t.fundsType, t.availability, clock);
    var refs := [TextField(t.bankReference), TextField(t.customerReference)];
    var f := TransactionHead(t, clock, layout) + texts;
    var head3 := [TypeCodeText(t.typeCode), IntField(t.amount), FundsTypeText(t.fundsType)];
    assert f == head3 + (av + (refs + texts));
    assert Take(f, 3) == head3;
    TypeCodeFieldRead(head3, 0, t.typeCode);
    IntFieldRead(head3, 1, t.amount);
    FundsTypeFieldRead(head3, 2, t.fundsType);
    assert Drop(f, 3) == av + (refs + texts);
  }

  /** The fields after the availability, the text split at its commas, read
      back as the two references and the whole text. */
  lemma TailRoundTrip(t: TransactionDetail)
    requires ReadableTail(t)
    ensures var tail := TailFields([TextField(t.bankReference), TextField(t.customerReference)] + Split(TextField(t.text), ','));
            DecodeField(tail, 0, Text) == Ok(t.bankReference)
            && DecodeField(tail, 1, Text) == Ok(t.customerReference)
            && DecodeField(tail, 2, Text) == Ok(t.text)
  {
    var refs := [TextField(t.bankReference), TextField(t.customerReference)];
    var texts := Split(TextField(t.text), ',');
    var rest := refs + texts;
    assert Take(rest, 2) == refs && Drop(rest, 2) == texts;
    JoinSplit(TextField(t.text), ',');
    var tail := TailFields(rest);
    assert tail == refs + [TextField(t.text)];
    TextFieldRead(tail, 0, t.bankReference);
    TextFieldRead(tail, 1, t.customerReference);
    FieldRead(tail, 2, TextField(t.text), t.text, Text);
  }

  // ----- the availability as the source writes it -----

  /** As written, a transaction without availability puts one blank field
      where the availability goes. For funds type 0 the parser reads no
      availability, so the blank becomes the bank reference, the bank
      reference the customer reference, and the text a lone comma (the
      corrected fields read back unchanged, by `TransactionRoundTrip`). */
  lemma MissingAvailabilityShiftsFields()
    ensures var t := TransactionDetail([], Some(TypeCode("399")), None, Some(ImmediateAvailability),
                                       NoAvailability, Some("REF"), None, None);
            var asWritten := TransactionHead(t, false, AsWritten) + [TextField(t.text)];
            asWritten == ["399", "", "0", "", "REF", "", ""]
            && TransactionLines(t, DefaultConfig, AsWritten) == ["16,399,,0,,REF,,"]
            && DecodeTransactionDetail(Record(TransactionDetailCode, asWritten, [])) ==
                 Ok(t.(bankReference := None, customerReference := Some("REF"), text := Some(",")))
  {
    var t := TransactionDetail([], Some(TypeCode("399")), None, Some(ImmediateAvailability),
                               NoAvailability, Some("REF"), None, None);
    var head := TransactionHead(t, false, AsWritten);
    assert head == ["399", "", "0", "", "REF", ""];
    assert head[..5] == ["399", "", "0", "", "REF"] && head[..4] == ["399", "", "0", ""];
    assert head[..3] == ["399", "", "0"] && head[..2] == ["399", ""] && head[..1] == ["399"];
    assert Commas(head[..1]) == ",399";
    assert Commas(head[..2]) == ",399,";
    assert head[..3][..2] == head[..2] && head[..3][2] == "0";
    assert Commas(head[..3]) == ",399," + "," + "0";
    assert ",399," + "," + "0" == ",399,,0";
    assert Commas(head[..4]) == ",399,,0,";
    assert head[..5][..4] == head[..4] && head[..5][4] == "REF";
    assert Commas(head[..5]) == ",399,,0," + "," + "REF";
    assert ",399,,0," + "," + "REF" == ",399,,0,,REF";
    assert Commas(head) == ",399,,0,,REF,";
    assert "16" + ",399,,0,,REF," + "," == "16,399,,0,,REF,,";
    ShiftedDecode();
  }

  lemma ShiftedDecode()
    ensures DecodeTransactionDetail(Record(TransactionDetailCode, ["399", "", "0", "", "REF", "", ""], [])) ==
              Ok(TransactionDetail([], Some(TypeCode("399")), None, Some(ImmediateAvailability),
                                   NoAvailability, None, Some("REF"), Some(",")))
  {
    var f := ["399", "", "0", "", "REF", "", ""];
    assert Take(f, 3) == ["399", "", "0"];
    assert Drop(f, 3) == ["", "REF", "", ""];
    assert Join(["", ""], ',') == ",";
    assert TailFields(["", "REF", "", ""]) == ["", "REF", ","];
  }

  /** As written, an empty distribution (funds type D, no days) has no
      fields at all, not even its count, so the parser takes the next field
      as the count and fails on a bank reference; the corrected fields keep
      the count 0. */
  lemma EmptyDistributionLosesCount()
    ensures AvailabilityFieldsAsWritten(Entries([]), false) == []
    ensures AvailabilityOf(Some(DistributedAvailability), AvailabilityFieldsAsWritten(Entries([]), false) + ["REF", "", ""])
              == Err(DecodeFailure)
    ensures AvailabilityOf(Some(DistributedAvailability), AvailabilityFields(Some(DistributedAvailability), Entries([]), false) + ["REF", "", ""])
              == Ok((Entries([]), ["REF", "", ""]))
  {
    assert !IsDigits("REF") by { assert "REF"[0] == 'R' && !IsDigit('R'); }
    assert ParseInt("REF").Err?;
    AvailabilityRoundTrip(Some(DistributedAvailability), Entries([]), false, ["REF", "", ""]);
  }

  /** As written, a distribution whose days are exactly 0, 1 and >1 takes
      the layout of S, without a count, so the parser reads its first amount
      as the count and the next two fields as one day; the corrected fields
      read back all three days. */
  lemma SimpleLookingDistributionMisread()
    ensures var e := [("0", AmountValue(1)), ("1", AmountValue(2)), (">1", AmountValue(3))];
            AvailabilityFieldsAsWritten(Entries(e), false) == ["1", "2", "3"]
            && AvailabilityOf(Some(DistributedAvailability), AvailabilityFieldsAsWritten(Entries(e), false))
                 == Ok((Entries([("2", AmountValue(3))]), []))
            && AvailabilityOf(Some(DistributedAvailability), AvailabilityFields(Some(DistributedAvailability), Entries(e), false))
                 == Ok((Entries(e), []))
  {
    var e := [("0", AmountValue(1)), ("1", AmountValue(2)), (">1", AmountValue(3))];
    SimpleLookingWritten(e);
    CountOneMisread();
    assert ReadsBack(Some(DistributedAvailability), Entries(e), false);
    AvailabilityRoundTrip(Some(DistributedAvailability), Entries(e), false, []);
    assert AvailabilityFields(Some(DistributedAvailability), Entries(e), false) + [] ==
           AvailabilityFields(Some(DistributedAvailability), Entries(e), false);
  }

  /** The days 0, 1 and >1 are written in the layout of S: three amounts. */
  lemma SimpleLookingWritten(e: seq<(string, AvailValue)>)
    requires e == [("0", AmountValue(1)), ("1", AmountValue(2)), (">1", AmountValue(3))]
    ensures AvailabilityFieldsAsWritten(Entries(e), false) == ["1", "2", "3"]
  {
    assert Keys(e) == ["0", "1", ">1"];
    assert FixedLayout(e);
    assert ValueTexts(e, false) == ["1", "2", "3"];
  }

  /** Read as a distribution, the amounts 1, 2, 3 are a count of one and
      the one day "2" with amount 3. */
  lemma CountOneMisread()
    ensures AvailabilityOf(Some(DistributedAvailability), ["1", "2", "3"]) == Ok((Entries([("2", AmountValue(3))]), []))
  {
    assert ParseInt("1") == Ok(1) && ParseInt("3") == Ok(3);
    assert Distributions([], ["2", "3"], 1) == Ok(([("2", AmountValue(3))], []));
    assert ["1", "2", "3"][1..] == ["2", "3"];
    DistributedOf(["1", "2", "3"], 1);
  }

  /** Outside the 'date' and 'time' keys a date or a time is written by
      `str`: YYYY-MM-DD and HH:MM:SS, with microseconds for `time.max`,
      whether the keys are those of S or of a distribution. */
  lemma StrFormOutsideDateTimeKeys()
    ensures ExpandAvailability([("7", DateValue(Some(Date(2015, 10, 1)))), ("8", TimeValue(Some(Clock(13, 5, 0))))], false)
              == ["2", "7", "2015-10-01", "8", "13:05:00"]
    ensures ExpandAvailability([("0", DateValue(Some(Date(2015, 10, 1)))), ("1", TimeValue(Some(EndOfDay))), (">1", AmountValue(5))], true)
              == ["2015-10-01", "23:59:59.999999", "5"]
    ensures ExpandAvailability([("date", DateValue(Some(Date(2015, 10, 1))))], false) == ["1", "date", "2015-10-01"]
  {
    SampleTexts();
    var d := [("7", DateValue(Some(Date(2015, 10, 1)))), ("8", TimeValue(Some(Clock(13, 5, 0))))];
    assert Keys(d) == ["7", "8"];
    assert DayAmounts(d[1..]) == ["8", "13:05:00"];
    assert DayAmounts(d) == ["7", "2015-10-01"] + ["8", "13:05:00"];
    var s := [("0", DateValue(Some(Date(2015, 10, 1)))), ("1", TimeValue(Some(EndOfDay))), (">1", AmountValue(5))];
    assert Keys(s) == ["0", "1", ">1"];
    assert ValueTexts(s, true) == ["2015-10-01", "23:59:59.999999", "5"];
    var v := [("date", DateValue(Some(Date(2015, 10, 1))))];
    assert Keys(v) == ["date"];
    assert DayAmounts(v) == ["date", "2015-10-01"];
  }

  /** Under 'date' and 'time' a false value (None, or the amount 0) is
      blank, and a time under 'date' is strftime's "000101". */
  lemma FalseValuesBlank()
    ensures ExpandAvailability([("date", AmountValue(0)), ("time", TimeValue(Some(Clock(13, 5, 0))))], false) == ["", "1305"]
    ensures ExpandAvailability([("date", TimeValue(Some(Clock(13, 5, 0)))), ("time", TimeValue(None))], true) == ["000101", ""]
  {
    SampleTexts();
    var a := [("date", AmountValue(0)), ("time", TimeValue(Some(Clock(13, 5, 0))))];
    assert Keys(a) == ["date", "time"];
    assert ValueTexts(a, false) == ["", "1305"];
    var b := [("date", TimeValue(Some(Clock(13, 5, 0)))), ("time", TimeValue(None))];
    assert Keys(b) == ["date", "time"];
    assert ValueTexts(b, true) == ["000101", ""];
  }

  /** The texts of the sample date 2015-10-01 and time 13:05:00. */
  lemma SampleTexts()
    ensures IsoDate(Date(2015, 10, 1)) == "2015-10-01"
    ensures IsoTime(Clock(13, 5, 0)) == "13:05:00"
    ensures WriteMilitaryTime(Clock(13, 5, 0)) == "1305"
  {
    assert TwoDigits(20) == "20" && TwoDigits(15) == "15" && TwoDigits(10) == "10";
    assert TwoDigits(13) == "13" && TwoDigits(5) == "05" && TwoDigits(1) == "01" && TwoDigits(0) == "00";
  }

  /** A date written by `str` reads back neither as an amount nor as a
      BAI2 date. */
  lemma StrDateUnreadable(d: CalendarDate)
    ensures ParseInt(StrText(DateValue(Some(d)))).Err?
    ensures OptionalDate(StrText(DateValue(Some(d)))).Err?
  {
    var s := StrText(DateValue(Some(d)));
    assert s[..4][0] == s[0];
    assert !IsDigit(s[4]);
  }
}
