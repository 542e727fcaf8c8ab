/** Field decoding of bai2/parsers.py: positional fields with blank values
    read as None, the availability sub-grammar (S, V, D) that follows a
    funds type, the repeating summary items of an account identifier (03)
    record, and the text of a transaction detail (16) record. */
module Decoding {
  import opened Outcomes
  import opened Strings
  import opened Constants
  import opened Utils
  import opened Models

  // ----- one field -----

  /** A text field is kept as it is. */
  function Text(s: string): Result<string> { Ok(s) }

  /** `_parse_field_from_config` on `values[i]`: past the end an IndexError,
      a blank value None, any other value through the field's decoder. */
  function DecodeField<T>(values: seq<string>, i: nat, decode: string -> Result<T>): (r: Result<Option<T>>)
    ensures i >= |values| ==> r == Err(DecodeFailure)
    ensures i < |values| && values[i] == "" ==> r == Ok(None)
    ensures i < |values| && values[i] != "" ==> r.Ok? == decode(values[i]).Ok?
    ensures r.Ok? && r.value.Some? ==> i < |values| && decode(values[i]) == Ok(r.value.value)
  {
    if i >= |values| then Err(DecodeFailure)
    else if values[i] == "" then Ok(None)
    else
      var v :- decode(values[i]);
      Ok(Some(v))
  }

  /** `values[:n]`. */
  function Take(values: seq<string>, n: nat): (t: seq<string>)
    ensures |t| == if |values| < n then |values| else n
    ensures t == values[..|t|]
  {
    if |values| < n then values else values[..n]
  }

  /** `values[n:]`. */
  function Drop(values: seq<string>, n: nat): (t: seq<string>)
    ensures |values| >= n ==> t == values[n..]
    ensures |values| < n ==> t == []
  {
    if |values| < n then [] else values[n..]
  }

  // ----- availability -----

  /** `day = rest.pop(0); amount = int(rest.pop(0)); availability[day] = amount`,
      `count` times. */
  function Distributions(entries: seq<(string, AvailValue)>, rest: seq<string>, count: nat): (r: Result<(seq<(string, AvailValue)>, seq<string>)>)
    ensures r.Err? ==> r.error == DecodeFailure
    decreases count
  {
    if count == 0 then Ok((entries, rest))
    else if |rest| < 2 then Err(DecodeFailure)
    else
      var amount :- ParseInt(rest[1]);
      Distributions(Insert(entries, rest[0], AmountValue(amount)), rest[2..], count - 1)
  }

  /** The number of distributions announced by a count: `range(n)` is empty
      for a negative n. */
  function DistributionCount(n: int): nat {
    if n < 0 then 0 else n
  }

  /** A blank date or time field is None. */
  function OptionalDate(s: string): Result<Option<CalendarDate>> {
    if s == "" then Ok(None) else var d :- ParseDate(s); Ok(Some(d))
  }

  function OptionalTime(s: string): Result<Option<TimeOfDay>> {
    if s == "" then Ok(None) else var t :- ParseTime(s); Ok(Some(t))
  }

  /** `_parse_availability`: the availability fields that follow a funds
      type and the fields left after them. */
  function AvailabilityOf(fundsType: Option<FundsType>, rest: seq<string>): (r: Result<(Availability, seq<string>)>)
    ensures r.Ok? ==> |r.value.1| <= |rest|
    ensures r.Err? ==> r.error == DecodeFailure
  {
    match fundsType
    case Some(DistributedAvailabilitySimple) =>
      if |rest| < 3 then Err(DecodeFailure)
      else
        var v0 :- ParseInt(rest[0]);
        var v1 :- ParseInt(rest[1]);
        var v2 :- ParseInt(rest[2]);
        Ok((Entries([("0", AmountValue(v0)), ("1", AmountValue(v1)), (">1", AmountValue(v2))]), rest[3..]))
    case Some(ValueDated) =>
      if |rest| < 2 then Err(DecodeFailure)
      else
        var date :- OptionalDate(rest[0]);
        var time :- OptionalTime(rest[1]);
        Ok((Entries([("date", DateValue(date)), ("time", TimeValue(time))]), rest[2..]))
    case Some(DistributedAvailability) =>
      if |rest| < 1 then Err(DecodeFailure)
      else
        var n :- ParseInt(rest[0]);
        DistributionsConsume([], rest[1..], DistributionCount(n));
        var d :- Distributions([], rest[1..], DistributionCount(n));
        Ok((Entries(d.0), d.1))
    case _ => Ok((NoAvailability, rest))
  }

  /** The first of several distributions: a day and a whole amount, then
      the others after them. */
  lemma DistributionsStep(entries: seq<(string, AvailValue)>, rest: seq<string>, count: nat)
    requires count > 0 && Distributions(entries, rest, count).Ok?
    ensures |rest| >= 2 && ParseInt(rest[1]).Ok?
    ensures Distributions(entries, rest, count) ==
      Distributions(Insert(entries, rest[0], AmountValue(ParseInt(rest[1]).value)), rest[2..], count - 1)
  {
  }

  /** D consumes two fields per announced distribution. */
  lemma {:induction false} DistributionsConsume(entries: seq<(string, AvailValue)>, rest: seq<string>, count: nat)
    ensures Distributions(entries, rest, count).Ok? ==>
      |rest| >= 2 * count && Distributions(entries, rest, count).value.1 == rest[2 * count..]
    decreases count
  {
    if count > 0 && Distributions(entries, rest, count).Ok? {
      DistributionsStep(entries, rest, count);
      var next := Insert(entries, rest[0], AmountValue(ParseInt(rest[1]).value));
      DistributionsConsume(next, rest[2..], count - 1);
      assert rest[2..][2 * (count - 1)..] == rest[2 * count..];
    }
  }

  /** How many fields each kind of availability takes: 3 for S, 2 for V,
      1 + 2N for D with N distributions, none otherwise. */
  lemma AvailabilityConsumes(fundsType: Option<FundsType>, rest: seq<string>)
    requires AvailabilityOf(fundsType, rest).Ok?
    ensures fundsType == Some(DistributedAvailabilitySimple) ==> AvailabilityOf(fundsType, rest).value.1 == rest[3..]
    ensures fundsType == Some(ValueDated) ==> AvailabilityOf(fundsType, rest).value.1 == rest[2..]
    ensures fundsType == Some(DistributedAvailability) ==>
      |rest| >= 1 && ParseInt(rest[0]).Ok? &&
      |rest| >= 1 + 2 * DistributionCount(ParseInt(rest[0]).value) &&
      AvailabilityOf(fundsType, rest).value.1 == rest[1 + 2 * DistributionCount(ParseInt(rest[0]).value)..]
    ensures fundsType !in {Some(DistributedAvailabilitySimple), Some(ValueDated), Some(DistributedAvailability)} ==>
      AvailabilityOf(fundsType, rest) == Ok((NoAvailability, rest))
  {
    if fundsType == Some(DistributedAvailability) {
      var n := ParseInt(rest[0]).value;
      assert Distributions([], rest[1..], DistributionCount(n)).Ok?;
      DistributionsConsume([], rest[1..], DistributionCount(n));
      assert rest[1..][2 * DistributionCount(n)..] == rest[1 + 2 * DistributionCount(n)..];
    }
  }

  /** `_parse_availability`, popping the availability fields off `rest`. */
  method ParseAvailability(fundsType: Option<FundsType>, rest: seq<string>) returns (r: Result<(Availability, seq<string>)>)
    ensures r == AvailabilityOf(fundsType, rest)
  {
    var fields := rest;
    if fundsType == Some(DistributedAvailabilitySimple) {
      if |fields| < 3 { return Err(DecodeFailure); }
      var v0 :- ParseInt(fields[0]);
      var v1 :- ParseInt(fields[1]);
      var v2 :- ParseInt(fields[2]);
      return Ok((Entries([("0", AmountValue(v0)), ("1", AmountValue(v1)), (">1", AmountValue(v2))]), fields[3..]));
    } else if fundsType == Some(ValueDated) {
      if |fields| < 2 { return Err(DecodeFailure); }
      var date :- OptionalDate(fields[0]);
      var time :- OptionalTime(fields[1]);
      return Ok((Entries([("date", DateValue(date)), ("time", TimeValue(time))]), fields[2..]));
    } else if fundsType == Some(DistributedAvailability) {
      if |fields| < 1 { return Err(DecodeFailure); }
      var n :- ParseInt(fields[0]);
      var d :- ParseDistributions(fields[1..], DistributionCount(n));
      return Ok((Entries(d.0), d.1));
    }
    return Ok((NoAvailability, fields));
  }

  /** The loop of `_parse_availability` for funds type D: `count` times a
      day and a whole amount popped off `rest`. */
  method ParseDistributions(rest: seq<string>, count: nat) returns (r: Result<(seq<(string, AvailValue)>, seq<string>)>)
    ensures r == Distributions([], rest, count)
  {
    var fields := rest;
    var entries: seq<(string, AvailValue)> := [];
    for index := 0 to count
      invariant Distributions([], rest, count) == Distributions(entries, fields, count - index)
    {
      if |fields| < 2 { return Err(DecodeFailure); }
      var day := fields[0];
      var amount :- ParseInt(fields[1]);
      entries := Insert(entries, day, AmountValue(amount));
      fields := fields[2..];
    }
    return Ok((entries, fields));
  }

  // ----- transaction detail (16) -----

  /** The fields of a 16 record after its availability: bank reference,
      customer reference, and the text made of every remaining field joined
      by commas. */
  function TailFields(rest: seq<string>): seq<string> {
    Take(rest, 2) + [Join(Drop(rest, 2), ',')]
  }

  /** `TransactionDetailParser._parse_fields`. */
  function DecodeTransactionDetail(rec: Record): (r: Result<TransactionDetail>)
    ensures r.Ok? ==> r.value.rows == rec.rows && |rec.fields| >= 3
  {
    var head := Take(rec.fields, 3);
    var typeCode :- DecodeField(head, 0, ParseTypeCode);
    var amount :- DecodeField(head, 1, ParseInt);
    var fundsType :- DecodeField(head, 2, ParseFundsType);
    var av :- AvailabilityOf(fundsType, Drop(rec.fields, 3));
    var tail := TailFields(av.1);
    var bankReference :- DecodeField(tail, 0, Text);
    var customerReference :- DecodeField(tail, 1, Text);
    var text :- DecodeField(tail, 2, Text);
    Ok(TransactionDetail(rec.rows, typeCode, amount, fundsType, av.0, bankReference, customerReference, text))
  }

  /** The text keeps every comma of the fields it is made of: it is the
      comma-join of all fields after the two references. */
  lemma TransactionTextJoin(rec: Record)
    requires DecodeTransactionDetail(rec).Ok?
    ensures var head := Take(rec.fields, 3);
            var fundsType := DecodeField(head, 2, ParseFundsType).value;
            var rest := AvailabilityOf(fundsType, Drop(rec.fields, 3)).value.1;
            |rest| >= 2 &&
            DecodeTransactionDetail(rec).value.text == (if Join(rest[2..], ',') == "" then None else Some(Join(rest[2..], ',')))
  {
  }

  /** `TransactionDetailParser._parse_fields`, popping availability fields. */
  method DecodeTransactionFields(rec: Record) returns (r: Result<TransactionDetail>)
    ensures r == DecodeTransactionDetail(rec)
  {
    var head := Take(rec.fields, 3);
    var typeCode :- DecodeField(head, 0, ParseTypeCode);
    var amount :- DecodeField(head, 1, ParseInt);
    var fundsType :- DecodeField(head, 2, ParseFundsType);
    var av :- ParseAvailability(fundsType, Drop(rec.fields, 3));
    var tail := TailFields(av.1);
    var bankReference :- DecodeField(tail, 0, Text);
    var customerReference :- DecodeField(tail, 1, Text);
    var text :- DecodeField(tail, 2, Text);
    return Ok(TransactionDetail(rec.rows, typeCode, amount, fundsType, av.0, bankReference, customerReference, text));
  }

  // ----- account identifier (03) -----

  /** A summary item keeps a non-empty parsed availability; otherwise it has
      the default empty mapping. */
  function SummaryAvailability(a: Availability): (s: Availability)
    ensures s.Entries?
    ensures a.Entries? && |a.entries| > 0 ==> s == a
  {
    if a.NoAvailability? || a.entries == [] then Entries([]) else a
  }

  /** The summary items of a 03 record: (type code, amount, item count,
      funds type) and its availability, repeated until the fields run out;
      a lone trailing blank field ends the list. */
  function SummaryItems(rest: seq<string>): (r: Result<seq<Summary>>)
    decreases |rest|
  {
    if |rest| == 0 || (|rest| == 1 && rest[0] == "") then Ok([])
    else
      var item :- SummaryItemAt(rest);
      var more :- SummaryItems(item.1);
      Ok([item.0] + more)
  }

  /** One summary item: (type code, amount, item count, funds type) and its
      availability, with the fields after it. */
  function SummaryItemAt(rest: seq<string>): (r: Result<(Summary, seq<string>)>)
    ensures r.Ok? ==> |rest| >= 4 && |r.value.1| <= |rest| - 4
  {
    var typeCode :- DecodeField(rest, 0, ParseTypeCode);
    var amount :- DecodeField(rest, 1, ParseInt);
    var itemCount :- DecodeField(rest, 2, ParseInt);
    var fundsType :- DecodeField(rest, 3, ParseFundsType);
    var av :- AvailabilityOf(fundsType, rest[4..]);
    Ok((Summary(typeCode, amount, itemCount, fundsType, SummaryAvailability(av.0)), av.1))
  }

  /** The items parsed so far in front of the outcome of the rest. */
  function PrependItems(items: seq<Summary>, r: Result<seq<Summary>>): Result<seq<Summary>> {
    if r.Ok? then Ok(items + r.value) else r
  }

  /** `AccountIdentifierParser._parse_fields`. */
  function DecodeAccountIdentifier(rec: Record): (r: Result<AccountIdentifier>)
    ensures r.Ok? ==> r.value.rows == rec.rows && |rec.fields| >= 2
  {
    var common := Take(rec.fields, 2);
    var accountNumber :- DecodeField(common, 0, Text);
    var currency :- DecodeField(common, 1, Text);
    var items :- SummaryItems(Drop(rec.fields, 2));
    Ok(AccountIdentifier(rec.rows, accountNumber, currency, items))
  }

  /** One pass of the summary loop of `AccountIdentifierParser._parse_fields`. */
  method ParseSummaryItem(rest: seq<string>) returns (r: Result<(Summary, seq<string>)>)
    ensures r == SummaryItemAt(rest)
  {
    var typeCode :- DecodeField(rest, 0, ParseTypeCode);
    var amount :- DecodeField(rest, 1, ParseInt);
    var itemCount :- DecodeField(rest, 2, ParseInt);
    var fundsType :- DecodeField(rest, 3, ParseFundsType);
    var av :- ParseAvailability(fundsType, rest[4..]);
    return Ok((Summary(typeCode, amount, itemCount, fundsType, SummaryAvailability(av.0)), av.1));
  }

  /** Items parsed before a step stay in front of it. */
  lemma PrependItemsStep(items: seq<Summary>, item: Summary, r: Result<seq<Summary>>)
    ensures PrependItems(items, PrependItems([item], r)) == PrependItems(items + [item], r)
  {
    if r.Ok? {
      assert items + ([item] + r.value) == (items + [item]) + r.value;
    }
  }

  /** The summary loop of `AccountIdentifierParser._parse_fields`. */
  method ParseSummaryItems(fields: seq<string>) returns (r: Result<seq<Summary>>)
    ensures r == SummaryItems(fields)
  {
    var rest := fields;
    var items: seq<Summary> := [];
    assert SummaryItems(fields).Ok? ==> [] + SummaryItems(fields).value == SummaryItems(fields).value;
    while |rest| > 0
      invariant SummaryItems(fields) == PrependItems(items, SummaryItems(rest))
      decreases |rest|
    {
      if |rest| == 1 && rest[0] == "" {
        break;
      }
      var step :- ParseSummaryItem(rest);
      PrependItemsStep(items, step.0, SummaryItems(step.1));
      items := items + [step.0];
      rest := step.1;
    }
    assert items + [] == items;
    return Ok(items);
  }

  /** `AccountIdentifierParser._parse_fields`, with the summary loop. */
  method DecodeAccountIdentifierFields(rec: Record) returns (r: Result<AccountIdentifier>)
    ensures r == DecodeAccountIdentifier(rec)
  {
    var common := Take(rec.fields, 2);
    var accountNumber :- DecodeField(common, 0, Text);
    var currency :- DecodeField(common, 1, Text);
    var items :- ParseSummaryItems(Drop(rec.fields, 2));
    return Ok(AccountIdentifier(rec.rows, accountNumber, currency, items));
  }

  // ----- headers and trailers -----

  /** `Bai2FileHeaderParser` fields: sender, receiver, creation date and
      time, file id, physical record length, block size, version. */
  function DecodeFileHeader(rec: Record): (r: Result<FileHeader>)
    ensures r.Ok? ==> r.value.rows == rec.rows && |rec.fields| >= 8
  {
    var f := rec.fields;
    var senderId :- DecodeField(f, 0, Text);
    var receiverId :- DecodeField(f, 1, Text);
    var creationDate :- DecodeField(f, 2, ParseDate);
    var creationTime :- DecodeField(f, 3, ParseTime);
    var fileId :- DecodeField(f, 4, Text);
    var physicalRecordLength :- DecodeField(f, 5, ParseInt);
    var blockSize :- DecodeField(f, 6, ParseInt);
    var versionNumber :- DecodeField(f, 7, ParseInt);
    Ok(FileHeader(rec.rows, senderId, receiverId, creationDate, creationTime, fileId,
                  physicalRecordLength, blockSize, versionNumber))
  }

  /** `Bai2FileHeaderParser.validate`: only version 2 is supported. */
  function CheckedFileHeader(rec: Record): (r: Result<FileHeader>)
    ensures r.Ok? ==> r.value.versionNumber == Some(2)
    ensures DecodeFileHeader(rec).Ok? && DecodeFileHeader(rec).value.versionNumber != Some(2) ==> r == Err(NotSupportedYetException)
    ensures r.Ok? ==> r == DecodeFileHeader(rec)
  {
    var h :- DecodeFileHeader(rec);
    if h.versionNumber != Some(2) then Err(NotSupportedYetException) else Ok(h)
  }

  function DecodeFileTrailer(rec: Record): (r: Result<FileTrailer>)
    ensures r.Ok? ==> r.value.rows == rec.rows && |rec.fields| >= 3
  {
    var f := rec.fields;
    var fileControlTotal :- DecodeField(f, 0, ParseInt);
    var numberOfGroups :- DecodeField(f, 1, ParseInt);
    var numberOfRecords :- DecodeField(f, 2, ParseInt);
    Ok(FileTrailer(rec.rows, fileControlTotal, numberOfGroups, numberOfRecords))
  }

  /** `GroupHeaderParser._parse_fields`: a blank currency becomes USD. */
  function DecodeGroupHeader(rec: Record): (r: Result<GroupHeader>)
    ensures r.Ok? ==> r.value.rows == rec.rows && |rec.fields| >= 7
    ensures r.Ok? && rec.fields[5] == "" ==> r.value.currency == Some("USD")
    ensures r.Ok? && rec.fields[5] != "" ==> r.value.currency == Some(rec.fields[5])
  {
    var f := rec.fields;
    var ultimateReceiverId :- DecodeField(f, 0, Text);
    var originatorId :- DecodeField(f, 1, Text);
    var groupStatus :- DecodeField(f, 2, ParseGroupStatus);
    var asOfDate :- DecodeField(f, 3, ParseDate);
    var asOfTime :- DecodeField(f, 4, ParseTime);
    var currency :- DecodeField(f, 5, Text);
    var asOfDateModifier :- DecodeField(f, 6, ParseAsOfDateModifier);
    Ok(GroupHeader(rec.rows, ultimateReceiverId, originatorId, groupStatus, asOfDate, asOfTime,
                   if currency.None? then Some("USD") else currency, asOfDateModifier))
  }

  function DecodeGroupTrailer(rec: Record): (r: Result<GroupTrailer>)
    ensures r.Ok? ==> r.value.rows == rec.rows && |rec.fields| >= 3
  {
    var f := rec.fields;
    var groupControlTotal :- DecodeField(f, 0, ParseInt);
    var numberOfAccounts :- DecodeField(f, 1, ParseInt);
    var numberOfRecords :- DecodeField(f, 2, ParseInt);
    Ok(GroupTrailer(rec.rows, groupControlTotal, numberOfAccounts, numberOfRecords))
  }

  function DecodeAccountTrailer(rec: Record): (r: Result<AccountTrailer>)
    ensures r.Ok? ==> r.value.rows == rec.rows && |rec.fields| >= 2
  {
    var f := rec.fields;
    var accountControlTotal :- DecodeField(f, 0, ParseInt);
    var numberOfRecords :- DecodeField(f, 1, ParseInt);
    Ok(AccountTrailer(rec.rows, accountControlTotal, numberOfRecords))
  }
}
