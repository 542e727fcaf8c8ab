/** The recursive-descent parser of bai2/parsers.py. One parser per level
    shares the record cursor: a section parses its header, then children
    while the child parser can parse the current record, then its trailer,
    then validates.

    Each level is given twice: a specification function over the record
    list and a start position, returning the parsed value and the position
    after it, and a method that does the same on an `IteratorHelper`,
    building the `Account`, `Group` and `Bai2File` objects, proved to agree
    with the specification. */
module Parsers {
  import opened Outcomes
  import opened Models
  import opened Helpers
  import opened Decoding

  /** The field decoding of each single-record parser (its `fields_config`
      and `_parse_fields`), one per record type: a section parser is generic
      in the parsers of its header, children and trailer. */
  datatype Decoders = Decoders(
    fileHeader: Record -> Result<FileHeader>,
    groupHeader: Record -> Result<GroupHeader>,
    accountIdentifier: Record -> Result<AccountIdentifier>,
    transaction: Record -> Result<TransactionDetail>,
    accountTrailer: Record -> Result<AccountTrailer>,
    groupTrailer: Record -> Result<GroupTrailer>,
    fileTrailer: Record -> Result<FileTrailer>)

  /** The parsers of bai2/parsers.py; the file header parser also refuses
      versions other than 2. */
  const Bai2Decoders := Decoders(CheckedFileHeader, DecodeGroupHeader, DecodeAccountIdentifier,
                                 DecodeTransactionDetail, DecodeAccountTrailer, DecodeGroupTrailer, DecodeFileTrailer)

  // ----- the cursor -----

  /** The code of the current record; None at the end of input. */
  function CodeAt(recs: seq<Record>, pos: nat): (c: Option<RecordCode>)
    ensures c.Some? <==> pos < |recs|
    ensures c.Some? ==> c.value == recs[pos].code
  {
    if pos < |recs| then Some(recs[pos].code) else None
  }

  /** `_check_record_code`: the current record when it has the expected
      code, otherwise "Expected X, got Y". */
  function CheckCode(recs: seq<Record>, pos: nat, expected: RecordCode): (r: Result<Record>)
    ensures r.Ok? <==> CodeAt(recs, pos) == Some(expected)
    ensures r.Ok? ==> pos < |recs| && r.value == recs[pos]
    ensures r.Err? ==> r.error == ParsingException(UnexpectedCode(expected, CodeAt(recs, pos)))
  {
    if CodeAt(recs, pos) == Some(expected) then Ok(recs[pos])
    else Err(ParsingException(UnexpectedCode(expected, CodeAt(recs, pos))))
  }

  // ----- single records -----

  /** `BaseSingleParser.parse`: check the code, decode the fields (and
      validate), advance. */
  function SingleAt<T>(recs: seq<Record>, pos: nat, code: RecordCode, decode: Record -> Result<T>): (r: Result<(T, nat)>)
    ensures r.Ok? ==> CodeAt(recs, pos) == Some(code) && r.value.1 == pos + 1 && decode(recs[pos]) == Ok(r.value.0)
    ensures CodeAt(recs, pos) != Some(code) ==> r == Err(ParsingException(UnexpectedCode(code, CodeAt(recs, pos))))
  {
    var rec :- CheckCode(recs, pos, code);
    var v :- decode(rec);
    Ok((v, pos + 1))
  }

  /** A method result agrees with a specification result: the same error,
      or the same value with the cursor where the specification says. */
  ghost predicate Agrees<T>(spec: Result<(T, nat)>, r: Result<T>, pos: nat) {
    if spec.Ok? then r == Ok(spec.value.0) && pos == spec.value.1 else r == Err(spec.error)
  }

  /** Items parsed so far in front of the outcome of parsing the rest. */
  function Prepend<T>(xs: seq<T>, r: Result<(seq<T>, nat)>): Result<(seq<T>, nat)> {
    if r.Ok? then Ok((xs + r.value.0, r.value.1)) else r
  }

  lemma PrependNothing<T>(r: Result<(seq<T>, nat)>)
    ensures Prepend([], r) == r
  {
    if r.Ok? {
      assert [] + r.value.0 == r.value.0;
    }
  }

  lemma PrependPrepend<T>(xs: seq<T>, ys: seq<T>, r: Result<(seq<T>, nat)>)
    ensures Prepend(xs, Prepend(ys, r)) == Prepend(xs + ys, r)
  {
    if r.Ok? {
      assert xs + (ys + r.value.0) == (xs + ys) + r.value.0;
    }
  }

  // ----- can_parse -----

  /** `AccountParser.can_parse`: its header, its trailer or a transaction. */
  predicate AccountCanParse(recs: seq<Record>, pos: nat) {
    CodeAt(recs, pos) in {Some(AccountIdentifierCode), Some(AccountTrailerCode), Some(TransactionDetailCode)}
  }

  /** `GroupParser.can_parse`: its header, its trailer or an account. */
  predicate GroupCanParse(recs: seq<Record>, pos: nat) {
    CodeAt(recs, pos) in {Some(GroupHeaderCode), Some(GroupTrailerCode)} || AccountCanParse(recs, pos)
  }

  // ----- validation -----

  /** `OptionSum`: `sum` of the trailer totals; a None among them is a
      TypeError. */
  function OptionSum(xs: seq<Option<int>>): (r: Result<int>)
    ensures r.Ok? <==> AllPresent(xs)
    ensures r.Ok? ==> r.value == SumOrZero(xs)
  {
    if AllPresent(xs) then Ok(SumOrZero(xs)) else Err(SumOfNone)
  }

  /** The trailer of an account agrees with its content. */
  predicate AccountConsistent(a: AccountValue) {
    a.trailer.numberOfRecords == Some(|AccountRows(a)|) &&
    a.trailer.accountControlTotal == Some(AccountTotal(a))
  }

  /** The trailer of a group agrees with its content (its accounts' own
      trailers are not looked at). */
  predicate GroupConsistent(g: GroupValue) {
    g.trailer.numberOfRecords == Some(|GroupRows(g)|) &&
    g.trailer.numberOfAccounts == Some(|g.children|) &&
    AllPresent(AccountTotals(g.children)) &&
    g.trailer.groupControlTotal == Some(SumOrZero(AccountTotals(g.children)))
  }

  predicate FileConsistent(f: FileValue) {
    f.trailer.numberOfRecords == Some(|FileRows(f)|) &&
    f.trailer.numberOfGroups == Some(|f.children|) &&
    AllPresent(GroupTotals(f.children)) &&
    f.trailer.fileControlTotal == Some(SumOrZero(GroupTotals(f.children)))
  }

  /** `AccountParser.validate`: the record count, then the control total,
      both only when integrity is checked. */
  function ValidatedAccount(a: AccountValue, check: bool): (r: Result<AccountValue>)
    ensures r.Ok? ==> r.value == a
    ensures r.Ok? <==> !check || AccountConsistent(a)
    ensures check && a.trailer.numberOfRecords != Some(|AccountRows(a)|) ==>
      r == Err(IntegrityException(NumberOfRecords(AccountLevel), a.trailer.numberOfRecords, |AccountRows(a)|))
  {
    TransactionRowsLength(a.children);
    var count := |a.header.rows| + |a.trailer.rows| + TransactionRowCount(a.children);
    if check && a.trailer.numberOfRecords != Some(count) then
      Err(IntegrityException(NumberOfRecords(AccountLevel), a.trailer.numberOfRecords, count))
    else if check && a.trailer.accountControlTotal != Some(AccountTotal(a)) then
      Err(IntegrityException(AccountControlTotal, a.trailer.accountControlTotal, AccountTotal(a)))
    else Ok(a)
  }

  /** `GroupParser.validate`: the record count when integrity is checked,
      then, whatever the setting, a group without accounts is refused, then
      the account count and the control total when integrity is checked. */
  function ValidatedGroup(g: GroupValue, check: bool): (r: Result<GroupValue>)
    ensures r.Ok? ==> r.value == g
    ensures r.Ok? <==> |g.children| > 0 && (!check || GroupConsistent(g))
    ensures |g.children| == 0 && (!check || g.trailer.numberOfRecords == Some(|GroupRows(g)|)) ==>
      r == Err(ParsingException(GroupWithoutAccounts))
    ensures check && g.trailer.numberOfRecords != Some(|GroupRows(g)|) ==>
      r == Err(IntegrityException(NumberOfRecords(GroupLevel), g.trailer.numberOfRecords, |GroupRows(g)|))
  {
    AccountsRowsLength(g.children);
    var count := |g.header.rows| + |g.trailer.rows| + AccountsRowCount(g.children);
    if check && g.trailer.numberOfRecords != Some(count) then
      Err(IntegrityException(NumberOfRecords(GroupLevel), g.trailer.numberOfRecords, count))
    else if |g.children| == 0 then Err(ParsingException(GroupWithoutAccounts))
    else if !check then Ok(g)
    else if g.trailer.numberOfAccounts != Some(|g.children|) then
      Err(IntegrityException(NumberOfAccounts, g.trailer.numberOfAccounts, |g.children|))
    else
      var total :- OptionSum(AccountTotals(g.children));
      if g.trailer.groupControlTotal != Some(total) then
        Err(IntegrityException(GroupControlTotal, g.trailer.groupControlTotal, total))
      else Ok(g)
  }

  /** `Bai2FileParser.validate`, as for a group one level up. */
  function ValidatedFile(f: FileValue, check: bool): (r: Result<FileValue>)
    ensures r.Ok? ==> r.value == f
    ensures r.Ok? <==> |f.children| > 0 && (!check || FileConsistent(f))
    ensures |f.children| == 0 && (!check || f.trailer.numberOfRecords == Some(|FileRows(f)|)) ==>
      r == Err(ParsingException(FileWithoutGroups))
    ensures check && f.trailer.numberOfRecords != Some(|FileRows(f)|) ==>
      r == Err(IntegrityException(NumberOfRecords(FileLevel), f.trailer.numberOfRecords, |FileRows(f)|))
  {
    GroupsRowsLength(f.children);
    var count := |f.header.rows| + |f.trailer.rows| + GroupsRowCount(f.children);
    if check && f.trailer.numberOfRecords != Some(count) then
      Err(IntegrityException(NumberOfRecords(FileLevel), f.trailer.numberOfRecords, count))
    else if |f.children| == 0 then Err(ParsingException(FileWithoutGroups))
    else if !check then Ok(f)
    else if f.trailer.numberOfGroups != Some(|f.children|) then
      Err(IntegrityException(NumberOfGroups, f.trailer.numberOfGroups, |f.children|))
    else
      var total :- OptionSum(GroupTotals(f.children));
      if f.trailer.fileControlTotal != Some(total) then
        Err(IntegrityException(FileControlTotal, f.trailer.fileControlTotal, total))
      else Ok(f)
  }

  // ----- sections, as functions of the record list -----

  /** `_parse_children` of an account: transactions while the current
      record is a 16. */
  function TransactionsAt(recs: seq<Record>, pos: nat, d: Decoders): (r: Result<(seq<TransactionDetail>, nat)>)
    requires pos <= |recs|
    ensures r.Ok? ==> pos + |r.value.0| == r.value.1 <= |recs|
    ensures r.Ok? ==> CodeAt(recs, r.value.1) != Some(TransactionDetailCode)
    decreases |recs| - pos
  {
    if CodeAt(recs, pos) != Some(TransactionDetailCode) then Ok(([], pos))
    else
      var t :- SingleAt(recs, pos, TransactionDetailCode, d.transaction);
      var more :- TransactionsAt(recs, t.1, d);
      Ok(([t.0] + more.0, more.1))
  }

  /** `AccountParser.parse`. */
  function AccountAt(recs: seq<Record>, pos: nat, check: bool, d: Decoders): (r: Result<(AccountValue, nat)>)
    requires pos <= |recs|
    ensures r.Ok? ==> pos < r.value.1 <= |recs|
  {
    var h :- SingleAt(recs, pos, AccountIdentifierCode, d.accountIdentifier);
    var cs :- TransactionsAt(recs, h.1, d);
    var t :- SingleAt(recs, cs.1, AccountTrailerCode, d.accountTrailer);
    var a :- ValidatedAccount(AccountValue(h.0, t.0, cs.0), check);
    Ok((a, t.1))
  }

  /** `_parse_children` of a group: accounts while `AccountParser.can_parse`. */
  function AccountsAt(recs: seq<Record>, pos: nat, check: bool, d: Decoders): (r: Result<(seq<AccountValue>, nat)>)
    requires pos <= |recs|
    ensures r.Ok? ==> pos <= r.value.1 <= |recs| && !AccountCanParse(recs, r.value.1)
    decreases |recs| - pos
  {
    if !AccountCanParse(recs, pos) then Ok(([], pos))
    else
      var a :- AccountAt(recs, pos, check, d);
      var more :- AccountsAt(recs, a.1, check, d);
      Ok(([a.0] + more.0, more.1))
  }

  /** `GroupParser.parse`. */
  function GroupAt(recs: seq<Record>, pos: nat, check: bool, d: Decoders): (r: Result<(GroupValue, nat)>)
    requires pos <= |recs|
    ensures r.Ok? ==> pos < r.value.1 <= |recs|
  {
    var h :- SingleAt(recs, pos, GroupHeaderCode, d.groupHeader);
    var cs :- AccountsAt(recs, h.1, check, d);
    var t :- SingleAt(recs, cs.1, GroupTrailerCode, d.groupTrailer);
    var g :- ValidatedGroup(GroupValue(h.0, t.0, cs.0), check);
    Ok((g, t.1))
  }

  /** `_parse_children` of a file: groups while `GroupParser.can_parse`. */
  function GroupsAt(recs: seq<Record>, pos: nat, check: bool, d: Decoders): (r: Result<(seq<GroupValue>, nat)>)
    requires pos <= |recs|
    ensures r.Ok? ==> pos <= r.value.1 <= |recs| && !GroupCanParse(recs, r.value.1)
    decreases |recs| - pos
  {
    if !GroupCanParse(recs, pos) then Ok(([], pos))
    else
      var g :- GroupAt(recs, pos, check, d);
      var more :- GroupsAt(recs, g.1, check, d);
      Ok(([g.0] + more.0, more.1))
  }

  /** `Bai2FileParser.parse`; the header parser refuses versions other than 2. */
  function FileAt(recs: seq<Record>, pos: nat, check: bool, d: Decoders): (r: Result<(FileValue, nat)>)
    requires pos <= |recs|
    ensures r.Ok? ==> pos < r.value.1 <= |recs|
  {
    var h :- SingleAt(recs, pos, FileHeaderCode, d.fileHeader);
    var cs :- GroupsAt(recs, h.1, check, d);
    FileTailAt(recs, cs.1, check, d, h.0, cs.0)
  }

  /** The end of a file parse, once its header and groups are known: the
      trailer, then validation. */
  function FileTailAt(recs: seq<Record>, pos: nat, check: bool, d: Decoders,
                      header: FileHeader, groups: seq<GroupValue>): (r: Result<(FileValue, nat)>)
    requires pos <= |recs|
    ensures r.Ok? ==> pos < r.value.1 <= |recs|
  {
    var t :- SingleAt(recs, pos, FileTrailerCode, d.fileTrailer);
    var f :- ValidatedFile(FileValue(header, t.0, groups), check);
    Ok((f, t.1))
  }

  /** One more account in the loop of `_parse_children`: the specification
      advances past it, and a fresh account keeps the accounts distinct.
      Only `children` is read in the earlier state; the other parameters are
      values or objects created since. */
  twostate lemma AccountsStep(new recs: seq<Record>, new first: nat, new before: nat, new after: nat, new check: bool, new d: Decoders,
                              children: seq<Account>, new account: Account)
    requires first <= |recs| && before <= |recs| && AccountCanParse(recs, before)
    requires unchanged(children)
    requires AccountsAt(recs, first, check, d) == Prepend(old(AccountValues(children)), AccountsAt(recs, before, check, d))
    requires AccountAt(recs, before, check, d) == Ok((account.Value(), after))
    requires DistinctAccounts(children) && fresh(account)
    ensures AccountsAt(recs, first, check, d) == Prepend(AccountValues(children + [account]), AccountsAt(recs, after, check, d))
    ensures DistinctAccounts(children + [account])
  {
    AccountsUnchanged(children);
    assert AccountValues(children + [account]) == AccountValues(children) + [account.Value()];
    assert AccountsAt(recs, before, check, d) == Prepend([account.Value()], AccountsAt(recs, after, check, d));
    PrependPrepend(AccountValues(children), [account.Value()], AccountsAt(recs, after, check, d));
  }

  /** One more group in the loop of `_parse_children`: the specification
      advances past it, and a fresh group of fresh accounts keeps the tree. */
  twostate lemma GroupsStep(new recs: seq<Record>, new first: nat, new before: nat, new after: nat, new check: bool, new d: Decoders,
                            children: seq<Group>, new group: Group)
    requires first <= |recs| && before <= |recs| && GroupCanParse(recs, before)
    requires unchanged(children) && unchanged(AccountSet(children))
    requires GroupsAt(recs, first, check, d) == Prepend(old(GroupValues(children)), GroupsAt(recs, before, check, d))
    requires GroupAt(recs, before, check, d) == Ok((group.Value(), after))
    requires old(DisjointGroups(children)) && DistinctAccounts(group.children)
    requires fresh(group) && forall a :: a in group.children ==> fresh(a)
    ensures GroupsAt(recs, first, check, d) == Prepend(GroupValues(children + [group]), GroupsAt(recs, after, check, d))
    ensures AccountSet(children + [group]) == old(AccountSet(children)) + set a | a in group.children
    ensures DisjointGroups(children + [group])
  {
    GroupValuesUnchanged(children);
    GroupsShapeUnchanged(children);
    GroupValuesSnoc(children, group);
    assert GroupsAt(recs, before, check, d) == Prepend([group.Value()], GroupsAt(recs, after, check, d));
    PrependPrepend(GroupValues(children), [group.Value()], GroupsAt(recs, after, check, d));
    assert old(allocated(AccountSet(children)));
    AccountSetSnoc(children, group);
    DisjointSnoc(children, group);
  }

  /** A file built over groups that did not change since they were parsed
      has their values, their accounts and their shape. */
  twostate lemma NewFileOver(children: seq<Group>, new file: Bai2File)
    requires unchanged(children) && unchanged(AccountSet(children)) && file.children == children
    requires fresh(file)
    ensures file.Value() == FileValue(file.header, file.trailer, old(GroupValues(children)))
    ensures AccountSet(file.children) == old(AccountSet(children))
    ensures DisjointGroups(file.children) == old(DisjointGroups(children))
  {
    GroupValuesUnchanged(children);
    GroupsShapeUnchanged(children);
  }

  // ----- the parsers on the shared cursor -----

  /** `BaseSingleParser.parse`: check the record code, decode the fields,
      advance the cursor. */
  method ParseSingle<T>(it: IteratorHelper, code: RecordCode, decode: Record -> Result<T>) returns (r: Result<T>)
    requires it.pos <= |it.records|
    modifies it
    ensures it.pos <= |it.records|
    ensures Agrees(SingleAt(it.records, old(it.pos), code, decode), r, it.pos)
  {
    var rec :- CheckCode(it.records, it.pos, code);
    var v :- decode(rec);
    it.Advance();
    return Ok(v);
  }

  /** `_parse_children` of an account: transactions while the current
      record is a 16. */
  method ParseTransactions(it: IteratorHelper, d: Decoders) returns (r: Result<seq<TransactionDetail>>)
    requires it.pos <= |it.records|
    modifies it
    ensures it.pos <= |it.records|
    ensures Agrees(TransactionsAt(it.records, old(it.pos), d), r, it.pos)
  {
    ghost var first := it.pos;
    var children: seq<TransactionDetail> := [];
    PrependNothing(TransactionsAt(it.records, first, d));
    while CodeAt(it.records, it.pos) == Some(TransactionDetailCode)
      invariant first <= it.pos <= |it.records|
      invariant TransactionsAt(it.records, first, d) == Prepend(children, TransactionsAt(it.records, it.pos, d))
      decreases |it.records| - it.pos
    {
      ghost var before := it.pos;
      var t :- ParseSingle(it, TransactionDetailCode, d.transaction);
      assert SingleAt(it.records, before, TransactionDetailCode, d.transaction) == Ok((t, it.pos));
      assert TransactionsAt(it.records, before, d) == Prepend([t], TransactionsAt(it.records, it.pos, d));
      PrependPrepend(children, [t], TransactionsAt(it.records, it.pos, d));
      children := children + [t];
    }
    assert children + [] == children;
    return Ok(children);
  }

  /** `AccountParser.parse`: a fresh Account equal to the specification's. */
  method ParseAccount(it: IteratorHelper, check: bool, d: Decoders) returns (r: Result<Account>)
    requires it.pos <= |it.records|
    modifies it
    ensures it.pos <= |it.records|
    ensures r.Ok? ==> fresh(r.value)
    ensures var spec := AccountAt(it.records, old(it.pos), check, d);
            r.Ok? == spec.Ok? && (r.Err? ==> r.error == spec.error) &&
            (r.Ok? ==> r.value.Value() == spec.value.0 && it.pos == spec.value.1)
  {
    ghost var start := it.pos;
    var header :- ParseSingle(it, AccountIdentifierCode, d.accountIdentifier);
    ghost var first := it.pos;
    var children :- ParseTransactions(it, d);
    ghost var last := it.pos;
    var trailer :- ParseSingle(it, AccountTrailerCode, d.accountTrailer);
    assert SingleAt(it.records, start, AccountIdentifierCode, d.accountIdentifier) == Ok((header, first));
    assert TransactionsAt(it.records, first, d) == Ok((children, last));
    assert SingleAt(it.records, last, AccountTrailerCode, d.accountTrailer) == Ok((trailer, it.pos));
    var account := new Account(Some(header), Some(trailer), children);
    assert account.Value() == AccountValue(header, trailer, children);
    var valid :- ValidatedAccount(account.Value(), check);
    return Ok(account);
  }

  /** `_parse_children` of a group: fresh, distinct accounts while
      `AccountParser.can_parse`. */
  method ParseAccounts(it: IteratorHelper, check: bool, d: Decoders) returns (r: Result<seq<Account>>)
    requires it.pos <= |it.records|
    modifies it
    ensures it.pos <= |it.records|
    ensures r.Ok? ==> (forall a :: a in r.value ==> fresh(a)) && DistinctAccounts(r.value)
    ensures var spec := AccountsAt(it.records, old(it.pos), check, d);
            r.Ok? == spec.Ok? && (r.Err? ==> r.error == spec.error) &&
            (r.Ok? ==> AccountValues(r.value) == spec.value.0 && it.pos == spec.value.1)
  {
    ghost var first := it.pos;
    var children: seq<Account> := [];
    PrependNothing(AccountsAt(it.records, first, check, d));
    while AccountCanParse(it.records, it.pos)
      invariant first <= it.pos <= |it.records|
      invariant forall a :: a in children ==> fresh(a)
      invariant DistinctAccounts(children)
      invariant AccountsAt(it.records, first, check, d) == Prepend(AccountValues(children), AccountsAt(it.records, it.pos, check, d))
      decreases |it.records| - it.pos
    {
      ghost var before := it.pos;
      label Before:
      var account :- ParseAccount(it, check, d);
      AccountsStep@Before(it.records, first, before, it.pos, check, d, children, account);
      children := children + [account];
    }
    assert AccountValues(children) + [] == AccountValues(children);
    return Ok(children);
  }

  /** `GroupParser.parse`: a fresh Group of fresh, distinct Accounts, equal
      to the specification's. */
  method ParseGroup(it: IteratorHelper, check: bool, d: Decoders) returns (r: Result<Group>)
    requires it.pos <= |it.records|
    modifies it
    ensures it.pos <= |it.records|
    ensures r.Ok? ==> fresh(r.value) && (forall a :: a in r.value.children ==> fresh(a)) && DistinctAccounts(r.value.children)
    ensures var spec := GroupAt(it.records, old(it.pos), check, d);
            r.Ok? == spec.Ok? && (r.Err? ==> r.error == spec.error) &&
            (r.Ok? ==> r.value.Value() == spec.value.0 && it.pos == spec.value.1)
  {
    ghost var start := it.pos;
    var header :- ParseSingle(it, GroupHeaderCode, d.groupHeader);
    ghost var first := it.pos;
    var children :- ParseAccounts(it, check, d);
    ghost var last := it.pos;
    ghost var values := AccountValues(children);
    var trailer :- ParseSingle(it, GroupTrailerCode, d.groupTrailer);
    assert AccountValues(children) == values;
    assert SingleAt(it.records, start, GroupHeaderCode, d.groupHeader) == Ok((header, first));
    assert AccountsAt(it.records, first, check, d) == Ok((values, last));
    assert SingleAt(it.records, last, GroupTrailerCode, d.groupTrailer) == Ok((trailer, it.pos));
    var group := new Group(Some(header), Some(trailer), children);
    assert group.Value() == GroupValue(header, trailer, values);
    var valid :- ValidatedGroup(group.Value(), check);
    return Ok(group);
  }

  /** `_parse_children` of a file: fresh groups forming a tree while
      `GroupParser.can_parse`. */
  method ParseGroups(it: IteratorHelper, check: bool, d: Decoders) returns (r: Result<seq<Group>>)
    requires it.pos <= |it.records|
    modifies it
    ensures it.pos <= |it.records|
    ensures r.Ok? ==> (forall g :: g in r.value ==> fresh(g)) && fresh(AccountSet(r.value)) && DisjointGroups(r.value)
    ensures var spec := GroupsAt(it.records, old(it.pos), check, d);
            r.Ok? == spec.Ok? && (r.Err? ==> r.error == spec.error) &&
            (r.Ok? ==> GroupValues(r.value) == spec.value.0 && it.pos == spec.value.1)
  {
    ghost var first := it.pos;
    var children: seq<Group> := [];
    PrependNothing(GroupsAt(it.records, first, check, d));
    while GroupCanParse(it.records, it.pos)
      invariant first <= it.pos <= |it.records|
      invariant forall g :: g in children ==> fresh(g)
      invariant fresh(AccountSet(children))
      invariant DisjointGroups(children)
      invariant GroupsAt(it.records, first, check, d) == Prepend(GroupValues(children), GroupsAt(it.records, it.pos, check, d))
      decreases |it.records| - it.pos
    {
      ghost var before := it.pos;
      label Before:
      var group :- ParseGroup(it, check, d);
      GroupsStep@Before(it.records, first, before, it.pos, check, d, children, group);
      children := children + [group];
    }
    assert GroupValues(children) + [] == GroupValues(children);
    return Ok(children);
  }

  /** The end of `Bai2FileParser.parse`: the trailer, then a fresh Bai2File
      over the groups already parsed, validated. */
  method FinishFile(it: IteratorHelper, check: bool, d: Decoders, header: FileHeader, children: seq<Group>)
    returns (r: Result<Bai2File>)
    requires it.pos <= |it.records|
    modifies it
    ensures it.pos <= |it.records|
    ensures r.Ok? ==> fresh(r.value) && r.value.children == children &&
                      AccountSet(children) == old(AccountSet(children)) &&
                      DisjointGroups(children) == old(DisjointGroups(children))
    ensures var spec := FileTailAt(it.records, old(it.pos), check, d, header, old(GroupValues(children)));
            r.Ok? == spec.Ok? && (r.Err? ==> r.error == spec.error) &&
            (r.Ok? ==> r.value.Value() == spec.value.0 && it.pos == spec.value.1)
  {
    var values := GroupValues(children);
    label Groups:
    var trailer :- ParseSingle(it, FileTrailerCode, d.fileTrailer);
    var valid :- ValidatedFile(FileValue(header, trailer, values), check);
    var file := new Bai2File(Some(header), Some(trailer), children);
    NewFileOver@Groups(children, file);
    return Ok(file);
  }

  /** `Bai2FileParser.parse`: a fresh Bai2File whose groups and accounts
      are fresh and form a tree, equal to the specification's. */
  method ParseFile(it: IteratorHelper, check: bool, d: Decoders) returns (r: Result<Bai2File>)
    requires it.pos <= |it.records|
    modifies it
    ensures it.pos <= |it.records|
    ensures r.Ok? ==> fresh(r.value) && (forall g :: g in r.value.children ==> fresh(g)) &&
                      fresh(AccountSet(r.value.children)) && DisjointGroups(r.value.children)
    ensures var spec := FileAt(it.records, old(it.pos), check, d);
            r.Ok? == spec.Ok? && (r.Err? ==> r.error == spec.error) &&
            (r.Ok? ==> r.value.Value() == spec.value.0 && it.pos == spec.value.1)
  {
    var header :- ParseSingle(it, FileHeaderCode, d.fileHeader);
    var children :- ParseGroups(it, check, d);
    r := FinishFile(it, check, d, header, children);
  }
}
