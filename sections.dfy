/** The section writers of bai2/writers.py (`BaseSectionWriter.write`):
    the header's lines, every child's lines, then the totals are recomputed
    in place, the record count is set to the number of lines written, and
    the trailer's line closes the section. */
module Sections {
  import opened Outcomes
  import opened Models
  import opened Writers

  // ----- what the writers can write -----

  /** Every text can be wrapped: a text needs more than "88," per line. */
  predicate TextsFit(ts: seq<TransactionDetail>, cfg: WriterConfig) {
    forall i :: 0 <= i < |ts| ==> (HasText(ts[i].text) ==> cfg.lineLength > 3)
  }

  /** `update_totals` adds every amount: a missing one is a TypeError. */
  predicate Summable(a: AccountValue) {
    AllPresent(TransactionAmounts(a.children)) && AllPresent(SummaryAmounts(a.header.summaryItems))
  }

  predicate WritableAccount(a: AccountValue, cfg: WriterConfig) {
    Summable(a) && TextsFit(a.children, cfg)
  }

  predicate WritableAccounts(accounts: seq<AccountValue>, cfg: WriterConfig) {
    forall i :: 0 <= i < |accounts| ==> WritableAccount(accounts[i], cfg)
  }

  predicate WritableGroups(groups: seq<GroupValue>, cfg: WriterConfig) {
    forall i :: 0 <= i < |groups| ==> WritableAccounts(groups[i].children, cfg)
  }

  // ----- accounts -----

  /** The lines of the transactions, one after the other. */
  function TransactionsLines(ts: seq<TransactionDetail>, cfg: WriterConfig): seq<string>
    requires TextsFit(ts, cfg)
  {
    if |ts| == 0 then [] else TransactionsLines(ts[..|ts| - 1], cfg) + TransactionLines(ts[|ts| - 1], cfg, AsWritten)
  }

  /** Header lines, transaction lines and the one trailer line. */
  function AccountRecordCount(a: AccountValue, cfg: WriterConfig): nat
    requires TextsFit(a.children, cfg)
  {
    |AccountIdentifierLines(a.header, cfg, AsWritten)| + |TransactionsLines(a.children, cfg)| + 1
  }

  /** The account once written: control total recomputed, record count set. */
  function WrittenAccount(a: AccountValue, cfg: WriterConfig): AccountValue
    requires TextsFit(a.children, cfg)
  {
    var t := WithAccountTotals(a);
    t.(trailer := t.trailer.(numberOfRecords := Some(AccountRecordCount(a, cfg))))
  }

  function AccountLines(a: AccountValue, cfg: WriterConfig): seq<string>
    requires TextsFit(a.children, cfg)
  {
    AccountIdentifierLines(a.header, cfg, AsWritten) + TransactionsLines(a.children, cfg)
      + [Line(AccountTrailerCode, AccountTrailerFields(WrittenAccount(a, cfg).trailer))]
  }

  /** The child loop of `AccountWriter.write`. */
  method WriteTransactions(ts: seq<TransactionDetail>, cfg: WriterConfig) returns (lines: seq<string>)
    requires TextsFit(ts, cfg)
    ensures lines == TransactionsLines(ts, cfg)
  {
    lines := [];
    for k := 0 to |ts|
      invariant lines == TransactionsLines(ts[..k], cfg)
    {
      assert ts[..k + 1][..k] == ts[..k];
      assert HasText(ts[k].text) ==> cfg.lineLength > 3;
      var c := WriteTransactionDetail(ts[k], cfg);
      lines := lines + c;
    }
    assert ts[..|ts|] == ts;
  }

  /** `AccountWriter.write`. */
  method WriteAccount(account: Account, cfg: WriterConfig) returns (lines: seq<string>)
    requires WritableAccount(account.Value(), cfg)
    modifies account
    ensures lines == AccountLines(old(account.Value()), cfg)
    ensures account.Value() == WrittenAccount(old(account.Value()), cfg)
  {
    var header := WriteAccountIdentifier(account.header, cfg);
    var children := WriteTransactions(account.children, cfg);
    var trailer := CloseAccount(account, cfg, account.Value(), |header| + |children| + 1);
    lines := header + children + trailer;
  }

  /** The end of `AccountWriter.write` once `n` lines of the account whose
      value is `a` are out: totals, record count, trailer line. */
  method CloseAccount(account: Account, cfg: WriterConfig, ghost a: AccountValue, n: nat) returns (lines: seq<string>)
    requires account.Value() == a && WritableAccount(a, cfg) && n == AccountRecordCount(a, cfg)
    modifies account
    ensures account.Value() == WrittenAccount(a, cfg)
    ensures lines == [Line(AccountTrailerCode, AccountTrailerFields(WrittenAccount(a, cfg).trailer))]
  {
    account.UpdateTotals();
    assert account.Value() == WithAccountTotals(a);
    account.trailer := account.trailer.(numberOfRecords := Some(n));
    assert account.Value() == WrittenAccount(a, cfg);
    lines := WriteSingle(AccountTrailerCode, AccountTrailerFields(account.trailer));
  }

  // ----- groups -----

  predicate AccountsFit(accounts: seq<AccountValue>, cfg: WriterConfig) {
    forall i :: 0 <= i < |accounts| ==> TextsFit(accounts[i].children, cfg)
  }

  /** The accounts once written. */
  function WrittenAccounts(accounts: seq<AccountValue>, cfg: WriterConfig): seq<AccountValue>
    requires AccountsFit(accounts, cfg)
  {
    seq(|accounts|, i requires 0 <= i < |accounts| && TextsFit(accounts[i].children, cfg) => WrittenAccount(accounts[i], cfg))
  }

  /** The lines of the accounts, one after the other. */
  function AccountsLines(accounts: seq<AccountValue>, cfg: WriterConfig): seq<string>
    requires AccountsFit(accounts, cfg)
  {
    if |accounts| == 0 then []
    else AccountsLines(accounts[..|accounts| - 1], cfg) + AccountLines(accounts[|accounts| - 1], cfg)
  }

  /** The header line, the account lines and the trailer line. */
  function GroupRecordCount(g: GroupValue, cfg: WriterConfig): nat
    requires AccountsFit(g.children, cfg)
  {
    1 + |AccountsLines(g.children, cfg)| + 1
  }

  /** The group once written: its accounts written, its totals recomputed
      from theirs, its record count set. */
  function WrittenGroup(g: GroupValue, cfg: WriterConfig): GroupValue
    requires AccountsFit(g.children, cfg)
  {
    WithGroupRecords(WithGroupTotals(g.(children := WrittenAccounts(g.children, cfg))), GroupRecordCount(g, cfg))
  }

  /** The group with its record count set. */
  function WithGroupRecords(g: GroupValue, n: nat): GroupValue {
    g.(trailer := g.trailer.(numberOfRecords := Some(n)))
  }

  function GroupLines(g: GroupValue, cfg: WriterConfig): seq<string>
    requires AccountsFit(g.children, cfg)
  {
    [Line(GroupHeaderCode, GroupHeaderFields(g.header, cfg.clockFormatForIntraDay))]
      + AccountsLines(g.children, cfg)
      + [Line(GroupTrailerCode, GroupTrailerFields(WrittenGroup(g, cfg).trailer))]
  }

  lemma AccountsLinesSnoc(vs: seq<AccountValue>, k: nat, cfg: WriterConfig)
    requires k < |vs| && AccountsFit(vs, cfg)
    ensures AccountsLines(vs[..k + 1], cfg) == AccountsLines(vs[..k], cfg) + AccountLines(vs[k], cfg)
  {
    assert vs[..k + 1][..k] == vs[..k];
  }

  /** Writing one more account replaces its value by the written one. */
  lemma WrittenAccountsSnoc(vs: seq<AccountValue>, k: nat, cfg: WriterConfig)
    requires k < |vs| && AccountsFit(vs, cfg)
    ensures WrittenAccounts(vs[..k + 1], cfg) + vs[k + 1..]
         == (WrittenAccounts(vs[..k], cfg) + vs[k..])[k := WrittenAccount(vs[k], cfg)]
  {
  }

  /** One step of the child loop: the k-th account is written, and of the
      distinct accounts only its value changes. */
  method WriteAccountAt(accounts: seq<Account>, k: nat, cfg: WriterConfig) returns (lines: seq<string>)
    requires k < |accounts| && DistinctAccounts(accounts)
    requires WritableAccount(accounts[k].Value(), cfg)
    modifies accounts[k]
    ensures lines == AccountLines(old(accounts[k].Value()), cfg)
    ensures AccountValues(accounts) == old(AccountValues(accounts))[k := WrittenAccount(old(accounts[k].Value()), cfg)]
  {
    lines := WriteAccount(accounts[k], cfg);
  }

  /** The child loop of `GroupWriter.write`. */
  method WriteAccounts(accounts: seq<Account>, cfg: WriterConfig) returns (lines: seq<string>)
    requires DistinctAccounts(accounts)
    requires WritableAccounts(AccountValues(accounts), cfg)
    modifies accounts
    ensures lines == AccountsLines(old(AccountValues(accounts)), cfg)
    ensures AccountValues(accounts) == WrittenAccounts(old(AccountValues(accounts)), cfg)
  {
    ghost var vs := AccountValues(accounts);
    SplitEnds(WrittenAccounts(vs[..0], cfg), vs);
    lines := [];
    for k := 0 to |accounts|
      invariant lines == AccountsLines(vs[..k], cfg)
      invariant AccountValues(accounts) == WrittenAccounts(vs[..k], cfg) + vs[k..]
    {
      var c := WriteNextAccount(accounts, k, cfg, vs);
      lines := lines + c;
    }
    SplitEnds(WrittenAccounts(vs, cfg), vs);
  }

  /** A loop over `vs` starts with nothing done and ends with nothing left. */
  lemma SplitEnds<T>(done: seq<T>, vs: seq<T>)
    ensures vs[..0] == [] && vs[0..] == vs && [] + vs == vs
    ensures vs[..|vs|] == vs && vs[|vs|..] == [] && done + [] == done
  {
  }

  /** One turn of the child loop, in terms of the accounts' values before
      the loop: the k-th account is written and takes its written value. */
  method WriteNextAccount(accounts: seq<Account>, k: nat, cfg: WriterConfig, ghost vs: seq<AccountValue>)
      returns (lines: seq<string>)
    requires k < |accounts| == |vs| && DistinctAccounts(accounts) && WritableAccounts(vs, cfg)
    requires AccountValues(accounts) == WrittenAccounts(vs[..k], cfg) + vs[k..]
    modifies accounts
    ensures AccountsLines(vs[..k + 1], cfg) == AccountsLines(vs[..k], cfg) + lines
    ensures AccountValues(accounts) == WrittenAccounts(vs[..k + 1], cfg) + vs[k + 1..]
  {
    AccountsLinesSnoc(vs, k, cfg);
    WrittenAccountsSnoc(vs, k, cfg);
    assert accounts[k].Value() == vs[k];
    lines := WriteAccountAt(accounts, k, cfg);
  }

  /** Written accounts carry their control totals, which the group sums. */
  lemma WrittenAccountsTotals(vs: seq<AccountValue>, cfg: WriterConfig)
    requires AccountsFit(vs, cfg)
    ensures AllPresent(AccountTotals(WrittenAccounts(vs, cfg)))
  {
  }

  /** The end of `GroupWriter.write`: totals, record count, trailer line. */
  method CloseGroup(group: Group, n: nat) returns (lines: seq<string>)
    requires AllPresent(AccountTotals(AccountValues(group.children)))
    modifies group
    ensures group.children == old(group.children)
    ensures group.Value() == WithGroupRecords(WithGroupTotals(old(group.Value())), n)
    ensures lines == [Line(GroupTrailerCode, GroupTrailerFields(group.trailer))]
  {
    group.UpdateTotals();
    group.trailer := group.trailer.(numberOfRecords := Some(n));
    lines := WriteSingle(GroupTrailerCode, GroupTrailerFields(group.trailer));
  }

  /** The child loop of `GroupWriter.write`, seen from the group whose
      value is `g`. */
  method WriteGroupAccounts(group: Group, cfg: WriterConfig, ghost g: GroupValue) returns (lines: seq<string>)
    requires group.Value() == g && DistinctAccounts(group.children)
    requires WritableAccounts(g.children, cfg)
    modifies group.children
    ensures unchanged(group)
    ensures AccountsFit(g.children, cfg)
    ensures lines == AccountsLines(g.children, cfg)
    ensures group.Value() == g.(children := WrittenAccounts(g.children, cfg))
  {
    lines := WriteAccounts(group.children, cfg);
  }

  /** `GroupWriter.write`. */
  method WriteGroup(group: Group, cfg: WriterConfig) returns (lines: seq<string>)
    requires DistinctAccounts(group.children)
    requires WritableAccounts(AccountValues(group.children), cfg)
    modifies group, group.children
    ensures group.children == old(group.children)
    ensures lines == GroupLines(old(group.Value()), cfg)
    ensures group.Value() == WrittenGroup(old(group.Value()), cfg)
  {
    ghost var g := group.Value();
    var header := WriteSingle(GroupHeaderCode, GroupHeaderFields(group.header, cfg.clockFormatForIntraDay));
    var children := WriteGroupAccounts(group, cfg, g);
    var trailer := CloseWrittenGroup(group, cfg, g, |header| + |children| + 1);
    lines := header + children + trailer;
  }

  /** The end of `GroupWriter.write` once the accounts of the group whose
      value was `g` are written and `n` lines are out: the written group and
      its trailer line. */
  method CloseWrittenGroup(group: Group, cfg: WriterConfig, ghost g: GroupValue, n: nat) returns (lines: seq<string>)
    requires AccountsFit(g.children, cfg) && n == GroupRecordCount(g, cfg)
    requires group.Value() == g.(children := WrittenAccounts(g.children, cfg))
    modifies group
    ensures group.children == old(group.children)
    ensures group.Value() == WrittenGroup(g, cfg)
    ensures lines == [Line(GroupTrailerCode, GroupTrailerFields(WrittenGroup(g, cfg).trailer))]
  {
    WrittenAccountsTotals(g.children, cfg);
    lines := CloseGroup(group, n);
  }

  // ----- files -----

  predicate GroupsFit(groups: seq<GroupValue>, cfg: WriterConfig) {
    forall i :: 0 <= i < |groups| ==> AccountsFit(groups[i].children, cfg)
  }

  /** The groups once written. */
  function WrittenGroups(groups: seq<GroupValue>, cfg: WriterConfig): (ws: seq<GroupValue>)
    requires GroupsFit(groups, cfg)
    ensures |ws| == |groups|
  {
    if |groups| == 0 then []
    else WrittenGroups(groups[..|groups| - 1], cfg) + [WrittenGroup(groups[|groups| - 1], cfg)]
  }

  /** The lines of the groups, one after the other. */
  function GroupsLines(groups: seq<GroupValue>, cfg: WriterConfig): seq<string>
    requires GroupsFit(groups, cfg)
  {
    if |groups| == 0 then []
    else GroupsLines(groups[..|groups| - 1], cfg) + GroupLines(groups[|groups| - 1], cfg)
  }

  /** The header line, the group lines and the trailer line. */
  function FileRecordCount(f: FileValue, cfg: WriterConfig): nat
    requires GroupsFit(f.children, cfg)
  {
    1 + |GroupsLines(f.children, cfg)| + 1
  }

  /** The file with its record count set. */
  function WithFileRecords(f: FileValue, n: nat): FileValue {
    f.(trailer := f.trailer.(numberOfRecords := Some(n)))
  }

  /** The file once written: its groups written, its totals recomputed from
      theirs, its record count set. */
  function WrittenFile(f: FileValue, cfg: WriterConfig): FileValue
    requires GroupsFit(f.children, cfg)
  {
    WithFileRecords(WithFileTotals(f.(children := WrittenGroups(f.children, cfg))), FileRecordCount(f, cfg))
  }

  function FileLines(f: FileValue, cfg: WriterConfig): seq<string>
    requires GroupsFit(f.children, cfg)
  {
    [Line(FileHeaderCode, FileHeaderFields(f.header, cfg.clockFormatForIntraDay))]
      + GroupsLines(f.children, cfg)
      + [Line(FileTrailerCode, FileTrailerFields(WrittenFile(f, cfg).trailer))]
  }

  lemma GroupsLinesSnoc(vs: seq<GroupValue>, k: nat, cfg: WriterConfig)
    requires k < |vs| && GroupsFit(vs, cfg)
    ensures GroupsLines(vs[..k + 1], cfg) == GroupsLines(vs[..k], cfg) + GroupLines(vs[k], cfg)
  {
    assert vs[..k + 1][..k] == vs[..k];
  }

  /** Writing one more group appends its written value. */
  lemma WrittenGroupsSnoc(vs: seq<GroupValue>, k: nat, cfg: WriterConfig)
    requires k < |vs| && GroupsFit(vs, cfg)
    ensures WrittenGroups(vs[..k + 1], cfg) == WrittenGroups(vs[..k], cfg) + [WrittenGroup(vs[k], cfg)]
  {
    assert vs[..k + 1][..k] == vs[..k];
  }

  /** Replacing the next element of what is still to do moves it to what is done. */
  lemma ReplaceNext<T>(done: seq<T>, vs: seq<T>, k: nat, w: T)
    requires |done| == k < |vs|
    ensures done + [w] + vs[k + 1..] == (done + vs[k..])[k := w]
  {
  }

  /** What one step of the child loop adds and replaces. */
  lemma WriteGroupsStep(vs: seq<GroupValue>, k: nat, cfg: WriterConfig)
    requires k < |vs| && GroupsFit(vs, cfg)
    ensures GroupsLines(vs[..k + 1], cfg) == GroupsLines(vs[..k], cfg) + GroupLines(vs[k], cfg)
    ensures WrittenGroups(vs[..k + 1], cfg) + vs[k + 1..] == (WrittenGroups(vs[..k], cfg) + vs[k..])[k := WrittenGroup(vs[k], cfg)]
  {
    GroupsLinesSnoc(vs, k, cfg);
    WrittenGroupsSnoc(vs, k, cfg);
    ReplaceNext(WrittenGroups(vs[..k], cfg), vs, k, WrittenGroup(vs[k], cfg));
  }

  /** Which accounts each group holds. */
  function Shape(groups: seq<Group>): (s: seq<seq<Account>>)
    reads groups
    ensures |s| == |groups|
    ensures forall i :: 0 <= i < |groups| ==> s[i] == groups[i].children
  {
    seq(|groups|, i reads groups requires 0 <= i < |groups| => groups[i].children)
  }

  /** Groups that hold the same accounts keep their tree shape. */
  twostate lemma ShapeKeepsTree(groups: seq<Group>)
    requires Shape(groups) == old(Shape(groups))
    ensures DisjointGroups(groups) == old(DisjointGroups(groups))
    ensures AccountSet(groups) == old(AccountSet(groups))
  {
    assert forall i :: 0 <= i < |groups| ==> groups[i].children == old(groups[i].children);
  }

  /** The accounts of one group are among those of all groups. */
  lemma ChildrenInAccountSet(groups: seq<Group>, k: nat)
    requires k < |groups|
    ensures forall a :: a in groups[k].children ==> a in AccountSet(groups)
  {
  }

  /** The groups other than the k-th. */
  function OtherGroups(groups: seq<Group>, k: nat): set<Group> {
    set j | 0 <= j < |groups| && j != k :: groups[j]
  }

  /** The accounts of the groups other than the k-th. */
  function OtherAccounts(groups: seq<Group>, k: nat): set<Account>
    reads groups
  {
    set j, a | 0 <= j < |groups| && j != k && a in groups[j].children :: a
  }

  /** When no other group and no account of another group changed, only the
      k-th group's value did. */
  twostate lemma OthersKeepValues(groups: seq<Group>, new k: nat)
    requires k < |groups| && groups[k].children == old(groups[k].children)
    requires unchanged(OtherGroups(groups, k)) && unchanged(old(OtherAccounts(groups, k)))
    ensures Shape(groups) == old(Shape(groups))
    ensures GroupValues(groups) == old(GroupValues(groups))[k := groups[k].Value()]
  {
    forall j | 0 <= j < |groups| && j != k
      ensures groups[j].children == old(groups[j].children)
      ensures groups[j].Value() == old(groups[j].Value())
    {
      assert groups[j] in OtherGroups(groups, k);
      assert forall a :: a in groups[j].children ==> a in old(OtherAccounts(groups, k));
    }
  }

  /** One step of the child loop of `Bai2FileWriter.write`: the k-th group is
      written, and of the disjoint groups only its value changes. */
  method WriteGroupAt(groups: seq<Group>, k: nat, cfg: WriterConfig) returns (lines: seq<string>)
    requires k < |groups| && DisjointGroups(groups)
    requires WritableAccounts(AccountValues(groups[k].children), cfg)
    modifies groups[k], groups[k].children
    ensures Shape(groups) == old(Shape(groups))
    ensures lines == GroupLines(old(groups[k].Value()), cfg)
    ensures GroupValues(groups) == old(GroupValues(groups))[k := WrittenGroup(old(groups[k].Value()), cfg)]
  {
    ghost var others := OtherGroups(groups, k);
    ghost var accounts := OtherAccounts(groups, k);
    assert groups[k] !in others;
    assert forall a :: a in groups[k].children ==> a !in accounts;
    label before:
    lines := WriteGroup(groups[k], cfg);
    OthersKeepValues@before(groups, k);
  }

  /** The child loop of `Bai2FileWriter.write`. */
  method WriteGroups(groups: seq<Group>, cfg: WriterConfig) returns (lines: seq<string>)
    requires DisjointGroups(groups)
    requires WritableGroups(GroupValues(groups), cfg)
    modifies groups, AccountSet(groups)
    ensures Shape(groups) == old(Shape(groups))
    ensures lines == GroupsLines(old(GroupValues(groups)), cfg)
    ensures GroupValues(groups) == WrittenGroups(old(GroupValues(groups)), cfg)
  {
    ghost var vs := GroupValues(groups);
    ghost var accounts := AccountSet(groups);
    SplitEnds(WrittenGroups(vs[..0], cfg), vs);
    lines := [];
    for k := 0 to |groups|
      invariant Shape(groups) == old(Shape(groups))
      invariant lines == GroupsLines(vs[..k], cfg)
      invariant GroupValues(groups) == WrittenGroups(vs[..k], cfg) + vs[k..]
    {
      ShapeKeepsTree(groups);
      var c := WriteNextGroup(groups, k, cfg, vs, accounts);
      lines := lines + c;
    }
    SplitEnds(WrittenGroups(vs, cfg), vs);
  }

  /** One turn of the child loop, in terms of the groups' values before
      the loop: the k-th group is written and takes its written value, and
      the tree keeps its shape. */
  method WriteNextGroup(groups: seq<Group>, k: nat, cfg: WriterConfig, ghost vs: seq<GroupValue>, ghost accounts: set<Account>)
      returns (lines: seq<string>)
    requires k < |groups| == |vs| && WritableGroups(vs, cfg) && DisjointGroups(groups)
    requires AccountSet(groups) == accounts
    requires GroupValues(groups) == WrittenGroups(vs[..k], cfg) + vs[k..]
    modifies groups, accounts
    ensures Shape(groups) == old(Shape(groups))
    ensures GroupsLines(vs[..k + 1], cfg) == GroupsLines(vs[..k], cfg) + lines
    ensures GroupValues(groups) == WrittenGroups(vs[..k + 1], cfg) + vs[k + 1..]
  {
    WriteGroupsStep(vs, k, cfg);
    assert groups[k].Value() == vs[k];
    ChildrenInAccountSet(groups, k);
    lines := WriteGroupAt(groups, k, cfg);
  }

  /** Written groups carry their control totals, which the file sums. */
  lemma {:induction false} WrittenGroupsTotals(vs: seq<GroupValue>, cfg: WriterConfig)
    requires GroupsFit(vs, cfg)
    ensures AllPresent(GroupTotals(WrittenGroups(vs, cfg)))
  {
    if |vs| > 0 {
      WrittenGroupsTotals(vs[..|vs| - 1], cfg);
    }
  }

  /** The child loop of `Bai2FileWriter.write`, seen from the file whose
      value is `f`. */
  method WriteFileGroups(file: Bai2File, cfg: WriterConfig, ghost f: FileValue) returns (lines: seq<string>)
    requires file.Value() == f
    requires DisjointGroups(file.children)
    requires WritableGroups(f.children, cfg)
    modifies file.children, AccountSet(file.children)
    ensures unchanged(file)
    ensures DisjointGroups(file.children)
    ensures lines == GroupsLines(f.children, cfg)
    ensures file.Value() == f.(children := WrittenGroups(f.children, cfg))
  {
    label before:
    lines := WriteGroups(file.children, cfg);
    ShapeKeepsTree@before(file.children);
  }

  /** The end of `Bai2FileWriter.write` for the file whose value is `f`:
      totals, record count, trailer line. */
  method CloseFile(file: Bai2File, n: nat, ghost f: FileValue) returns (lines: seq<string>)
    requires file.Value() == f
    requires AllPresent(GroupTotals(f.children))
    modifies file
    ensures file.children == old(file.children) && unchanged(file.children)
    ensures file.Value() == WithFileRecords(WithFileTotals(f), n)
    ensures lines == [Line(FileTrailerCode, FileTrailerFields(file.Value().trailer))]
  {
    file.UpdateTotals();
    file.trailer := file.trailer.(numberOfRecords := Some(n));
    lines := WriteSingle(FileTrailerCode, FileTrailerFields(file.trailer));
  }

  /** The end of `Bai2FileWriter.write` once the groups of the file whose
      value was `f` are written and `n` lines are out: the written file and
      its trailer line. */
  method CloseWrittenFile(file: Bai2File, cfg: WriterConfig, ghost f: FileValue, n: nat) returns (lines: seq<string>)
    requires GroupsFit(f.children, cfg) && n == FileRecordCount(f, cfg)
    requires file.Value() == f.(children := WrittenGroups(f.children, cfg))
    modifies file
    ensures file.children == old(file.children) && unchanged(file.children)
    ensures file.Value() == WrittenFile(f, cfg)
    ensures lines == [Line(FileTrailerCode, FileTrailerFields(WrittenFile(f, cfg).trailer))]
  {
    WrittenGroupsTotals(f.children, cfg);
    lines := CloseFile(file, n, file.Value());
  }

  /** `Bai2FileWriter.write` on the file whose value is `f`. */
  method WriteFileOf(file: Bai2File, cfg: WriterConfig, ghost f: FileValue) returns (lines: seq<string>)
    requires file.Value() == f
    requires DisjointGroups(file.children)
    requires WritableGroups(f.children, cfg)
    modifies file, file.children, AccountSet(file.children)
    ensures file.children == old(file.children) && DisjointGroups(file.children)
    ensures lines == FileLines(f, cfg)
    ensures file.Value() == WrittenFile(f, cfg)
  {
    var header := WriteSingle(FileHeaderCode, FileHeaderFields(file.header, cfg.clockFormatForIntraDay));
    var children := WriteFileGroups(file, cfg, f);
    var trailer := CloseWrittenFile(file, cfg, f, |header| + |children| + 1);
    lines := header + children + trailer;
  }

  /** `Bai2FileWriter.write` corrected: the configuration reaches every
      record writer below the file. */
  method WriteFile(file: Bai2File, cfg: WriterConfig) returns (lines: seq<string>)
    requires DisjointGroups(file.children)
    requires WritableGroups(GroupValues(file.children), cfg)
    modifies file, file.children, AccountSet(file.children)
    ensures file.children == old(file.children) && DisjointGroups(file.children)
    ensures lines == FileLines(old(file.Value()), cfg)
    ensures file.Value() == WrittenFile(old(file.Value()), cfg)
  {
    lines := WriteFileOf(file, cfg, file.Value());
  }

  // ----- the section writers as written -----

  /* `BaseSectionWriter.write` builds its header, child and trailer writers
     from the object alone, so the configuration given to a section writer
     reaches none of them: every line is written with the default one. */

  /** `AccountWriter(account, **config).write()` as written. */
  method WriteAccountAsWritten(account: Account, cfg: WriterConfig) returns (lines: seq<string>)
    requires Summable(account.Value())
    modifies account
    ensures lines == AccountLines(old(account.Value()), DefaultConfig)
    ensures account.Value() == WrittenAccount(old(account.Value()), DefaultConfig)
  {
    lines := WriteAccount(account, DefaultConfig);
  }

  /** `GroupWriter(group, **config).write()` as written. */
  method WriteGroupAsWritten(group: Group, cfg: WriterConfig) returns (lines: seq<string>)
    requires DistinctAccounts(group.children)
    requires forall i :: 0 <= i < |group.children| ==> Summable(group.children[i].Value())
    modifies group, group.children
    ensures group.children == old(group.children)
    ensures lines == GroupLines(old(group.Value()), DefaultConfig)
    ensures group.Value() == WrittenGroup(old(group.Value()), DefaultConfig)
  {
    lines := WriteGroup(group, DefaultConfig);
  }

  /** `Bai2FileWriter(file, **config).write()` as written. */
  method WriteFileAsWritten(file: Bai2File, cfg: WriterConfig) returns (lines: seq<string>)
    requires DisjointGroups(file.children)
    requires WritableGroups(GroupValues(file.children), DefaultConfig)
    modifies file, file.children, AccountSet(file.children)
    ensures file.children == old(file.children) && DisjointGroups(file.children)
    ensures lines == FileLines(old(file.Value()), DefaultConfig)
    ensures file.Value() == WrittenFile(old(file.Value()), DefaultConfig)
  {
    lines := WriteFile(file, DefaultConfig);
  }
}
