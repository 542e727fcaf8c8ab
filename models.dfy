/** The tree of bai2/models.py: raw rows and assembled records, the
    single-record models (headers, trailers, account identifier with its
    summary items, transaction detail) and the three section models
    (Bai2File, Group, Account) whose `update_totals` rewrites their trailer. */
module Models {
  import opened Outcomes
  import opened Strings
  import opened Constants
  import opened Utils

  // ----- rows and records -----

  /** One input line: its record code and the text after "NN,". */
  datatype Row = Row(code: RecordCode, payload: string)

  /** A logical record: a line with its 88 continuations and the flat field list. */
  datatype Record = Record(code: RecordCode, fields: seq<string>, rows: seq<Row>)

  /** `"{0},{1}".format(code.value, payload)`. */
  function RowText(r: Row): string {
    CodeValue(r.code) + "," + r.payload
  }

  function RowTexts(rows: seq<Row>): (ts: seq<string>)
    ensures |ts| == |rows|
    ensures forall i :: 0 <= i < |rows| ==> ts[i] == RowText(rows[i])
  {
    if |rows| == 0 then [] else RowTexts(rows[..|rows| - 1]) + [RowText(rows[|rows| - 1])]
  }

  /** `as_string`: every row as "code,payload", joined by newlines. */
  function AsString(rows: seq<Row>): (s: string)
    ensures s == "" <==> |rows| == 0
    ensures |rows| == 1 ==> s == RowText(rows[0])
  {
    var ts := RowTexts(rows);
    if |ts| <= 1 then Join(ts, '\n')
    else
      assert Join(ts, '\n') == ts[0] + ['\n'] + Join(ts[1..], '\n');
      Join(ts, '\n')
  }

  lemma RowTextFree(r: Row)
    requires Free(r.payload, '\n')
    ensures Free(RowText(r), '\n')
  {
    var t := RowText(r);
    forall i | 0 <= i < |t|
      ensures t[i] != '\n'
    {
      if i >= 3 { assert t[i] == r.payload[i - 3]; }
    }
  }

  /** Splitting `as_string` at the newlines gives back one text per row, in
      order, as long as no payload holds a newline. */
  lemma AsStringLines(rows: seq<Row>)
    requires |rows| > 0
    requires forall i :: 0 <= i < |rows| ==> Free(rows[i].payload, '\n')
    ensures Split(AsString(rows), '\n') == RowTexts(rows)
  {
    var ts := RowTexts(rows);
    forall k | 0 <= k < |ts|
      ensures Free(ts[k], '\n')
    {
      RowTextFree(rows[k]);
    }
    SplitJoin(ts, '\n');
  }

  // ----- availability -----

  /** A value of an availability mapping: an amount (S and D), a date or a
      time (V; blank fields are None). */
  datatype AvailValue = AmountValue(amount: int) | DateValue(date: Option<CalendarDate>) | TimeValue(time: Option<TimeOfDay>)

  /** The `availability` attribute: None, or an ordered mapping from keys
      ('0', '1', '>1', 'date', 'time' or a distribution day) to values. */
  datatype Availability = NoAvailability | Entries(entries: seq<(string, AvailValue)>)

  /** The keys of a mapping, in insertion order. */
  function Keys(entries: seq<(string, AvailValue)>): (ks: seq<string>)
    ensures |ks| == |entries|
  {
    seq(|entries|, i requires 0 <= i < |entries| => entries[i].0)
  }

  /** The keys of two mappings laid end to end. */
  lemma KeysAppend(a: seq<(string, AvailValue)>, b: seq<(string, AvailValue)>)
    ensures Keys(a + b) == Keys(a) + Keys(b)
  {
    assert forall i :: 0 <= i < |a + b| ==> Keys(a + b)[i] == (Keys(a) + Keys(b))[i];
  }

  /** `mapping[key] = value` on an ordered dict: an existing key keeps its
      place and takes the new value, a new key goes to the end. */
  function Insert(entries: seq<(string, AvailValue)>, key: string, v: AvailValue): (r: seq<(string, AvailValue)>)
    ensures key in Keys(entries) ==> Keys(r) == Keys(entries)
    ensures key !in Keys(entries) ==> Keys(r) == Keys(entries) + [key]
    ensures (key, v) in r
  {
    assert Keys([(key, v)]) == [key];
    if |entries| == 0 then [(key, v)]
    else
      assert entries == [entries[0]] + entries[1..];
      KeysAppend([entries[0]], entries[1..]);
      assert Keys([entries[0]]) == [entries[0].0];
      if entries[0].0 == key then
        KeysAppend([(key, v)], entries[1..]);
        [(key, v)] + entries[1..]
      else
        var rest := Insert(entries[1..], key, v);
        KeysAppend([entries[0]], rest);
        [entries[0]] + rest
  }

  // ----- single-record models -----

  /** Bai2FileHeader; `version_number` defaults to 2. */
  datatype FileHeader = FileHeader(
    rows: seq<Row>,
    senderId: Option<string>,
    receiverId: Option<string>,
    creationDate: Option<CalendarDate>,
    creationTime: Option<TimeOfDay>,
    fileId: Option<string>,
    physicalRecordLength: Option<int>,
    blockSize: Option<int>,
    versionNumber: Option<int>)

  datatype FileTrailer = FileTrailer(
    rows: seq<Row>,
    fileControlTotal: Option<int>,
    numberOfGroups: Option<int>,
    numberOfRecords: Option<int>)

  datatype GroupHeader = GroupHeader(
    rows: seq<Row>,
    ultimateReceiverId: Option<string>,
    originatorId: Option<string>,
    groupStatus: Option<GroupStatus>,
    asOfDate: Option<CalendarDate>,
    asOfTime: Option<TimeOfDay>,
    currency: Option<string>,
    asOfDateModifier: Option<AsOfDateModifier>)

  datatype GroupTrailer = GroupTrailer(
    rows: seq<Row>,
    groupControlTotal: Option<int>,
    numberOfAccounts: Option<int>,
    numberOfRecords: Option<int>)

  /** One summary item of an account identifier (03) record. */
  datatype Summary = Summary(
    typeCode: Option<TypeCode>,
    amount: Option<int>,
    itemCount: Option<int>,
    fundsType: Option<FundsType>,
    availability: Availability)

  datatype AccountIdentifier = AccountIdentifier(
    rows: seq<Row>,
    customerAccountNumber: Option<string>,
    currency: Option<string>,
    summaryItems: seq<Summary>)

  datatype AccountTrailer = AccountTrailer(
    rows: seq<Row>,
    accountControlTotal: Option<int>,
    numberOfRecords: Option<int>)

  datatype TransactionDetail = TransactionDetail(
    rows: seq<Row>,
    typeCode: Option<TypeCode>,
    amount: Option<int>,
    fundsType: Option<FundsType>,
    availability: Availability,
    bankReference: Option<string>,
    customerReference: Option<string>,
    text: Option<string>)

  /** The models built from no rows and no fields: what a section
      constructor substitutes for a missing header or trailer. */
  const EmptyFileHeader := FileHeader([], None, None, None, None, None, None, None, Some(2))
  const EmptyFileTrailer := FileTrailer([], None, None, None)
  const EmptyGroupHeader := GroupHeader([], None, None, None, None, None, None, None)
  const EmptyGroupTrailer := GroupTrailer([], None, None, None)
  const EmptyAccountIdentifier := AccountIdentifier([], None, None, [])
  const EmptyAccountTrailer := AccountTrailer([], None, None)

  // ----- section values -----

  /** The content of an Account: identifier, transactions, trailer. */
  datatype AccountValue = AccountValue(header: AccountIdentifier, trailer: AccountTrailer, children: seq<TransactionDetail>)

  /** The content of a Group, its accounts as values. */
  datatype GroupValue = GroupValue(header: GroupHeader, trailer: GroupTrailer, children: seq<AccountValue>)

  /** The content of a Bai2File, its groups as values. */
  datatype FileValue = FileValue(header: FileHeader, trailer: FileTrailer, children: seq<GroupValue>)

  // ----- sums -----

  function OrZero(o: Option<int>): int {
    if o.Some? then o.value else 0
  }

  predicate AllPresent(xs: seq<Option<int>>) {
    forall i :: 0 <= i < |xs| ==> xs[i].Some?
  }

  /** `sum(x or 0 for x in xs)`. */
  function SumOrZero(xs: seq<Option<int>>): int {
    if |xs| == 0 then 0 else SumOrZero(xs[..|xs| - 1]) + OrZero(xs[|xs| - 1])
  }

  /** Summing a concatenation sums the parts. */
  lemma {:induction false} SumOrZeroAppend(xs: seq<Option<int>>, ys: seq<Option<int>>)
    ensures SumOrZero(xs + ys) == SumOrZero(xs) + SumOrZero(ys)
  {
    if |ys| == 0 {
      assert xs + ys == xs;
    } else {
      var ys' := ys[..|ys| - 1];
      assert (xs + ys)[..|xs + ys| - 1] == xs + ys';
      assert (xs + ys)[|xs + ys| - 1] == ys[|ys| - 1];
      SumOrZeroAppend(xs, ys');
    }
  }

  /** Absent values count as nothing: the sum is that of the present values. */
  lemma {:induction false} SumOrZeroOfAbsent(xs: seq<Option<int>>)
    requires forall i :: 0 <= i < |xs| ==> xs[i].None?
    ensures SumOrZero(xs) == 0
  {
    if |xs| > 0 {
      SumOrZeroOfAbsent(xs[..|xs| - 1]);
    }
  }

  function TransactionAmounts(ts: seq<TransactionDetail>): (xs: seq<Option<int>>)
    ensures |xs| == |ts| && forall i :: 0 <= i < |ts| ==> xs[i] == ts[i].amount
  {
    seq(|ts|, i requires 0 <= i < |ts| => ts[i].amount)
  }

  function SummaryAmounts(ss: seq<Summary>): (xs: seq<Option<int>>)
    ensures |xs| == |ss| && forall i :: 0 <= i < |ss| ==> xs[i] == ss[i].amount
  {
    seq(|ss|, i requires 0 <= i < |ss| => ss[i].amount)
  }

  function AccountTotals(accounts: seq<AccountValue>): (xs: seq<Option<int>>)
    ensures |xs| == |accounts|
    ensures forall i :: 0 <= i < |accounts| ==> xs[i] == accounts[i].trailer.accountControlTotal
  {
    seq(|accounts|, i requires 0 <= i < |accounts| => accounts[i].trailer.accountControlTotal)
  }

  function GroupTotals(groups: seq<GroupValue>): (xs: seq<Option<int>>)
    ensures |xs| == |groups|
    ensures forall i :: 0 <= i < |groups| ==> xs[i] == groups[i].trailer.groupControlTotal
  {
    seq(|groups|, i requires 0 <= i < |groups| => groups[i].trailer.groupControlTotal)
  }

  /** The account control total: transaction amounts plus summary amounts. */
  function AccountTotal(a: AccountValue): int {
    SumOrZero(TransactionAmounts(a.children)) + SumOrZero(SummaryAmounts(a.header.summaryItems))
  }

  /** An account after `update_totals`: only the control total changes. */
  function WithAccountTotals(a: AccountValue): (r: AccountValue)
    ensures r.header == a.header && r.children == a.children
    ensures r.trailer.rows == a.trailer.rows && r.trailer.numberOfRecords == a.trailer.numberOfRecords
    ensures r.trailer.accountControlTotal == Some(AccountTotal(a))
  {
    a.(trailer := a.trailer.(accountControlTotal := Some(AccountTotal(a))))
  }

  /** A group after `update_totals`: control total and account count change. */
  function WithGroupTotals(g: GroupValue): (r: GroupValue)
    ensures r.header == g.header && r.children == g.children
    ensures r.trailer.rows == g.trailer.rows && r.trailer.numberOfRecords == g.trailer.numberOfRecords
    ensures r.trailer.numberOfAccounts == Some(|g.children|)
    ensures r.trailer.groupControlTotal == Some(SumOrZero(AccountTotals(g.children)))
  {
    g.(trailer := g.trailer.(groupControlTotal := Some(SumOrZero(AccountTotals(g.children))),
                             numberOfAccounts := Some(|g.children|)))
  }

  /** A file after `update_totals`: control total and group count change. */
  function WithFileTotals(f: FileValue): (r: FileValue)
    ensures r.header == f.header && r.children == f.children
    ensures r.trailer.rows == f.trailer.rows && r.trailer.numberOfRecords == f.trailer.numberOfRecords
    ensures r.trailer.numberOfGroups == Some(|f.children|)
    ensures r.trailer.fileControlTotal == Some(SumOrZero(GroupTotals(f.children)))
  {
    f.(trailer := f.trailer.(fileControlTotal := Some(SumOrZero(GroupTotals(f.children))),
                             numberOfGroups := Some(|f.children|)))
  }

  /** `update_totals` reads nothing it writes: running it twice is running it once. */
  lemma {:induction false} UpdateTotalsIdempotent(a: AccountValue, g: GroupValue, f: FileValue)
    ensures WithAccountTotals(WithAccountTotals(a)) == WithAccountTotals(a)
    ensures WithGroupTotals(WithGroupTotals(g)) == WithGroupTotals(g)
    ensures WithFileTotals(WithFileTotals(f)) == WithFileTotals(f)
  {
    assert AccountTotal(WithAccountTotals(a)) == AccountTotal(a);
  }

  /** The account of the writer tests: transactions 2599 and 1000 with summary
      amounts 10000 and 10000 total 23599. */
  lemma AccountTotalExample(a: AccountValue)
    requires TransactionAmounts(a.children) == [Some(2599), Some(1000)]
    requires SummaryAmounts(a.header.summaryItems) == [Some(10000), Some(10000)]
    ensures WithAccountTotals(a).trailer.accountControlTotal == Some(23599)
  {
    var ts: seq<Option<int>> := [Some(2599), Some(1000)];
    var ss: seq<Option<int>> := [Some(10000), Some(10000)];
    assert ts[..1] == [Some(2599)] && ts[..1][..0] == [];
    assert ss[..1] == [Some(10000)] && ss[..1][..0] == [];
    assert SumOrZero(ts) == 3599;
    assert SumOrZero(ss) == 20000;
  }

  // ----- rows of a section -----

  function TransactionRows(ts: seq<TransactionDetail>): seq<Row> {
    if |ts| == 0 then [] else TransactionRows(ts[..|ts| - 1]) + ts[|ts| - 1].rows
  }

  /** Account `rows`: identifier rows, each transaction's rows, trailer rows. */
  function AccountRows(a: AccountValue): seq<Row> {
    a.header.rows + TransactionRows(a.children) + a.trailer.rows
  }

  function AccountsRows(accounts: seq<AccountValue>): seq<Row> {
    if |accounts| == 0 then [] else AccountsRows(accounts[..|accounts| - 1]) + AccountRows(accounts[|accounts| - 1])
  }

  function GroupRows(g: GroupValue): seq<Row> {
    g.header.rows + AccountsRows(g.children) + g.trailer.rows
  }

  function GroupsRows(groups: seq<GroupValue>): seq<Row> {
    if |groups| == 0 then [] else GroupsRows(groups[..|groups| - 1]) + GroupRows(groups[|groups| - 1])
  }

  function FileRows(f: FileValue): seq<Row> {
    f.header.rows + GroupsRows(f.children) + f.trailer.rows
  }

  /** The rows of a run of records, in order. */
  function RecordRows(rs: seq<Record>): seq<Row> {
    if |rs| == 0 then [] else RecordRows(rs[..|rs| - 1]) + rs[|rs| - 1].rows
  }

  lemma {:induction false} RecordRowsAppend(xs: seq<Record>, ys: seq<Record>)
    ensures RecordRows(xs + ys) == RecordRows(xs) + RecordRows(ys)
    decreases |ys|
  {
    if |ys| == 0 {
      assert xs + ys == xs;
    } else {
      AppendFront(xs, ys);
      RecordRowsAppend(xs, ys[..|ys| - 1]);
      AppendAssoc(RecordRows(xs), RecordRows(ys[..|ys| - 1]), ys[|ys| - 1].rows);
    }
  }

  lemma {:induction false} TransactionRowsAppend(xs: seq<TransactionDetail>, ys: seq<TransactionDetail>)
    ensures TransactionRows(xs + ys) == TransactionRows(xs) + TransactionRows(ys)
    decreases |ys|
  {
    if |ys| == 0 {
      assert xs + ys == xs;
    } else {
      AppendFront(xs, ys);
      TransactionRowsAppend(xs, ys[..|ys| - 1]);
      AppendAssoc(TransactionRows(xs), TransactionRows(ys[..|ys| - 1]), ys[|ys| - 1].rows);
    }
  }

  lemma {:induction false} AccountsRowsAppend(xs: seq<AccountValue>, ys: seq<AccountValue>)
    ensures AccountsRows(xs + ys) == AccountsRows(xs) + AccountsRows(ys)
    decreases |ys|
  {
    if |ys| == 0 {
      assert xs + ys == xs;
    } else {
      AppendFront(xs, ys);
      AccountsRowsAppend(xs, ys[..|ys| - 1]);
      AppendAssoc(AccountsRows(xs), AccountsRows(ys[..|ys| - 1]), AccountRows(ys[|ys| - 1]));
    }
  }

  lemma {:induction false} GroupsRowsAppend(xs: seq<GroupValue>, ys: seq<GroupValue>)
    ensures GroupsRows(xs + ys) == GroupsRows(xs) + GroupsRows(ys)
    decreases |ys|
  {
    if |ys| == 0 {
      assert xs + ys == xs;
    } else {
      AppendFront(xs, ys);
      GroupsRowsAppend(xs, ys[..|ys| - 1]);
      AppendAssoc(GroupsRows(xs), GroupsRows(ys[..|ys| - 1]), GroupRows(ys[|ys| - 1]));
    }
  }

  /** Row counts of children, as the record-count check adds them up. */
  function TransactionRowCount(ts: seq<TransactionDetail>): nat {
    if |ts| == 0 then 0 else TransactionRowCount(ts[..|ts| - 1]) + |ts[|ts| - 1].rows|
  }

  function AccountsRowCount(accounts: seq<AccountValue>): nat {
    if |accounts| == 0 then 0 else AccountsRowCount(accounts[..|accounts| - 1]) + |AccountRows(accounts[|accounts| - 1])|
  }

  function GroupsRowCount(groups: seq<GroupValue>): nat {
    if |groups| == 0 then 0 else GroupsRowCount(groups[..|groups| - 1]) + |GroupRows(groups[|groups| - 1])|
  }

  lemma {:induction false} TransactionRowsLength(ts: seq<TransactionDetail>)
    ensures |TransactionRows(ts)| == TransactionRowCount(ts)
  {
    if |ts| > 0 { TransactionRowsLength(ts[..|ts| - 1]); }
  }

  lemma {:induction false} AccountsRowsLength(accounts: seq<AccountValue>)
    ensures |AccountsRows(accounts)| == AccountsRowCount(accounts)
  {
    if |accounts| > 0 { AccountsRowsLength(accounts[..|accounts| - 1]); }
  }

  lemma {:induction false} GroupsRowsLength(groups: seq<GroupValue>)
    ensures |GroupsRows(groups)| == GroupsRowCount(groups)
  {
    if |groups| > 0 { GroupsRowsLength(groups[..|groups| - 1]); }
  }

  /** A section's number of rows is the sum of its parts' numbers of rows. */
  lemma SectionRowCounts(a: AccountValue, g: GroupValue, f: FileValue)
    ensures |AccountRows(a)| == |a.header.rows| + |a.trailer.rows| + TransactionRowCount(a.children)
    ensures |GroupRows(g)| == |g.header.rows| + |g.trailer.rows| + AccountsRowCount(g.children)
    ensures |FileRows(f)| == |f.header.rows| + |f.trailer.rows| + GroupsRowCount(f.children)
  {
    TransactionRowsLength(a.children);
    AccountsRowsLength(g.children);
    GroupsRowsLength(f.children);
  }

  // ----- section objects -----

  /** An Account: its trailer is rewritten in place by `update_totals`. */
  class Account {
    var header: AccountIdentifier
    var trailer: AccountTrailer
    var children: seq<TransactionDetail>

    /** A missing header or trailer is replaced by an empty one. */
    constructor(header: Option<AccountIdentifier>, trailer: Option<AccountTrailer>, children: seq<TransactionDetail>)
      ensures this.header == (if header.Some? then header.value else EmptyAccountIdentifier)
      ensures this.trailer == (if trailer.Some? then trailer.value else EmptyAccountTrailer)
      ensures this.children == children
    {
      this.header := if header.Some? then header.value else EmptyAccountIdentifier;
      this.trailer := if trailer.Some? then trailer.value else EmptyAccountTrailer;
      this.children := children;
    }

    function Value(): AccountValue
      reads this
    {
      AccountValue(header, trailer, children)
    }

    /** Sum transaction amounts, then summary amounts, into the control
        total. A missing amount is a TypeError in the source, hence the
        precondition. */
    method UpdateTotals()
      requires AllPresent(TransactionAmounts(children)) && AllPresent(SummaryAmounts(header.summaryItems))
      modifies this
      ensures Value() == WithAccountTotals(old(Value()))
    {
      var total := 0;
      var amounts := TransactionAmounts(children);
      for k := 0 to |children|
        invariant total == SumOrZero(amounts[..k])
      {
        assert amounts[..k + 1][..k] == amounts[..k];
        total := total + children[k].amount.value;
      }
      assert amounts[..|children|] == amounts;
      var items := header.summaryItems;
      var summaryAmounts := SummaryAmounts(items);
      var summaryTotal := 0;
      for k := 0 to |items|
        invariant summaryTotal == SumOrZero(summaryAmounts[..k])
      {
        assert summaryAmounts[..k + 1][..k] == summaryAmounts[..k];
        summaryTotal := summaryTotal + items[k].amount.value;
      }
      assert summaryAmounts[..|items|] == summaryAmounts;
      trailer := trailer.(accountControlTotal := Some(total + summaryTotal));
    }
  }

  /** The values of a sequence of accounts. */
  function AccountValues(accounts: seq<Account>): (vs: seq<AccountValue>)
    reads accounts
    ensures |vs| == |accounts|
    ensures forall i :: 0 <= i < |accounts| ==> vs[i] == accounts[i].Value()
  {
    seq(|accounts|, i reads accounts requires 0 <= i < |accounts| => accounts[i].Value())
  }

  /** Accounts none of which changed keep their values. */
  twostate lemma AccountsUnchanged(accounts: seq<Account>)
    requires unchanged(accounts)
    ensures AccountValues(accounts) == old(AccountValues(accounts))
  {
  }

  /** No account object appears twice. */
  predicate DistinctAccounts(accounts: seq<Account>) {
    forall i, j :: 0 <= i < j < |accounts| ==> accounts[i] != accounts[j]
  }

  /** A Group: its accounts are objects of their own. */
  class Group {
    var header: GroupHeader
    var trailer: GroupTrailer
    var children: seq<Account>

    constructor(header: Option<GroupHeader>, trailer: Option<GroupTrailer>, children: seq<Account>)
      ensures this.header == (if header.Some? then header.value else EmptyGroupHeader)
      ensures this.trailer == (if trailer.Some? then trailer.value else EmptyGroupTrailer)
      ensures this.children == children
    {
      this.header := if header.Some? then header.value else EmptyGroupHeader;
      this.trailer := if trailer.Some? then trailer.value else EmptyGroupTrailer;
      this.children := children;
    }

    function Value(): GroupValue
      reads this, children
    {
      GroupValue(header, trailer, AccountValues(children))
    }

    /** Sum the accounts' control totals and count the accounts. */
    method UpdateTotals()
      requires AllPresent(AccountTotals(AccountValues(children)))
      modifies this
      ensures children == old(children)
      ensures Value() == WithGroupTotals(old(Value()))
    {
      var total := 0;
      var totals := AccountTotals(AccountValues(children));
      for k := 0 to |children|
        invariant total == SumOrZero(totals[..k])
      {
        assert totals[..k + 1][..k] == totals[..k];
        total := total + children[k].trailer.accountControlTotal.value;
      }
      assert totals[..|children|] == totals;
      trailer := trailer.(groupControlTotal := Some(total), numberOfAccounts := Some(|children|));
    }
  }

  /** The account objects under the given groups, as the frame of their values. */
  function AccountSet(groups: seq<Group>): set<Account>
    reads groups
  {
    set g, a | g in groups && a in g.children :: a
  }

  /** The values of a sequence of groups. */
  function GroupValues(groups: seq<Group>): (vs: seq<GroupValue>)
    reads groups, AccountSet(groups)
    ensures |vs| == |groups|
    ensures forall i :: 0 <= i < |groups| ==> vs[i] == groups[i].Value()
  {
    seq(|groups|, i reads groups, (if 0 <= i < |groups| then set a | a in groups[i].children else {})
                    requires 0 <= i < |groups| => groups[i].Value())
  }


  /** One more group adds its value. */
  lemma GroupValuesSnoc(groups: seq<Group>, g: Group)
    ensures GroupValues(groups + [g]) == GroupValues(groups) + [g.Value()]
  {
    var gs := groups + [g];
    assert forall i :: 0 <= i < |groups| ==> gs[i] == groups[i];
  }

  /** The groups' control totals as their trailers hold them. */
  function TrailerTotals(groups: seq<Group>): (xs: seq<Option<int>>)
    reads groups
    ensures |xs| == |groups|
    ensures forall i :: 0 <= i < |groups| ==> xs[i] == groups[i].trailer.groupControlTotal
  {
    seq(|groups|, i reads groups requires 0 <= i < |groups| => groups[i].trailer.groupControlTotal)
  }

  /** The trailers' totals are the totals of the groups' values. */
  lemma TrailerTotalsOfValues(groups: seq<Group>)
    ensures GroupTotals(GroupValues(groups)) == TrailerTotals(groups)
  {
  }

  /** Groups that did not change keep their accounts and their shape. */
  twostate lemma GroupsShapeUnchanged(groups: seq<Group>)
    requires unchanged(groups)
    ensures AccountSet(groups) == old(AccountSet(groups))
    ensures DisjointGroups(groups) == old(DisjointGroups(groups))
  {
  }

  /** Groups none of whose objects changed keep their values. */
  twostate lemma GroupValuesUnchanged(groups: seq<Group>)
    requires unchanged(groups) && unchanged(AccountSet(groups))
    ensures GroupValues(groups) == old(GroupValues(groups))
  {
  }

  /** The loop of `Bai2File.update_totals`: the groups' control totals added up. */
  method SumGroupTotals(groups: seq<Group>) returns (total: int)
    requires AllPresent(TrailerTotals(groups))
    ensures total == SumOrZero(TrailerTotals(groups))
  {
    total := 0;
    var totals := TrailerTotals(groups);
    for k := 0 to |groups|
      invariant total == SumOrZero(totals[..k])
    {
      assert totals[..k + 1][..k] == totals[..k];
      total := total + groups[k].trailer.groupControlTotal.value;
    }
    assert totals[..|groups|] == totals;
  }

  /** No group object appears twice. */
  predicate DistinctGroups(groups: seq<Group>) {
    forall i, j :: 0 <= i < j < |groups| ==> groups[i] != groups[j]
  }

  /** Groups and their accounts form a tree: no group object appears twice,
      no account object appears twice in a group, and no two groups share an
      account object. */
  predicate DisjointGroups(groups: seq<Group>)
    reads groups
  {
    DistinctGroups(groups) &&
    (forall i :: 0 <= i < |groups| ==> DistinctAccounts(groups[i].children)) &&
    (forall i, j, a :: 0 <= i < j < |groups| && a in groups[i].children ==> a !in groups[j].children)
  }

  /** One more group adds its accounts. */
  lemma AccountSetSnoc(groups: seq<Group>, g: Group)
    ensures AccountSet(groups + [g]) == AccountSet(groups) + set a | a in g.children
  {
    assert forall h :: h in groups + [g] <==> h in groups || h == g;
  }

  /** One more group keeps the tree shape when neither it nor its accounts
      are already there. */
  lemma DisjointSnoc(groups: seq<Group>, g: Group)
    requires DisjointGroups(groups) && DistinctAccounts(g.children) && g !in groups
    requires forall a :: a in g.children ==> a !in AccountSet(groups)
    ensures DisjointGroups(groups + [g])
  {
    var gs := groups + [g];
    forall i, j, a | 0 <= i < j < |gs| && a in gs[i].children
      ensures a !in gs[j].children
    {
      if j == |groups| {
        assert gs[i] == groups[i] && a in AccountSet(groups);
      }
    }
  }

  /** A Bai2File: its groups are objects of their own. */
  class Bai2File {
    var header: FileHeader
    var trailer: FileTrailer
    var children: seq<Group>

    constructor(header: Option<FileHeader>, trailer: Option<FileTrailer>, children: seq<Group>)
      ensures this.header == (if header.Some? then header.value else EmptyFileHeader)
      ensures this.trailer == (if trailer.Some? then trailer.value else EmptyFileTrailer)
      ensures this.children == children
    {
      this.header := if header.Some? then header.value else EmptyFileHeader;
      this.trailer := if trailer.Some? then trailer.value else EmptyFileTrailer;
      this.children := children;
    }

    function Value(): FileValue
      reads this, children, AccountSet(children)
    {
      FileValue(header, trailer, GroupValues(children))
    }

    /** Sum the groups' control totals and count the groups. */
    method UpdateTotals()
      requires AllPresent(GroupTotals(GroupValues(children)))
      modifies this
      ensures children == old(children)
      ensures Value() == WithFileTotals(old(Value()))
    {
      TrailerTotalsOfValues(children);
      var total := SumGroupTotals(children);
      trailer := trailer.(fileControlTotal := Some(total), numberOfGroups := Some(|children|));
      GroupValuesUnchanged(children);
    }
  }
}
