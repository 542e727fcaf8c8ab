/** What the section writers promise about what they write: the trailers'
    record counts are the numbers of lines written, the control totals add
    up every amount of the section, and writing a section that was already
    written gives the same lines and leaves it as it was. */
module SectionLaws {
  import opened Outcomes
  import opened Models
  import opened Writers
  import opened Sections

  // ----- record counts -----

  /** Every written trailer counts the lines of its own section, trailer
      included (`number_of_records = len(header) + len(children) + 1`). */
  lemma RecordCountsAreLineCounts(a: AccountValue, g: GroupValue, f: FileValue, cfg: WriterConfig)
    requires TextsFit(a.children, cfg) && AccountsFit(g.children, cfg) && GroupsFit(f.children, cfg)
    ensures WrittenAccount(a, cfg).trailer.numberOfRecords == Some(|AccountLines(a, cfg)|)
    ensures WrittenGroup(g, cfg).trailer.numberOfRecords == Some(|GroupLines(g, cfg)|)
    ensures WrittenFile(f, cfg).trailer.numberOfRecords == Some(|FileLines(f, cfg)|)
    ensures WrittenGroup(g, cfg).trailer.numberOfAccounts == Some(|g.children|)
    ensures WrittenFile(f, cfg).trailer.numberOfGroups == Some(|f.children|)
  {
    assert |AccountLines(a, cfg)| == AccountRecordCount(a, cfg);
    assert |GroupLines(g, cfg)| == GroupRecordCount(g, cfg);
    assert |FileLines(f, cfg)| == FileRecordCount(f, cfg);
  }

  /** The lines of a group are its header line, the lines of each account
      in turn, and its trailer line; so a group writes at least two. */
  lemma {:induction false} AccountsLinesLength(cs: seq<AccountValue>, cfg: WriterConfig)
    requires AccountsFit(cs, cfg)
    ensures |AccountsLines(cs, cfg)| >= 2 * |cs|
  {
    if |cs| > 0 {
      AccountsLinesLength(cs[..|cs| - 1], cfg);
      FieldLinesNonEmpty("03", AccountIdentifierFields(cs[|cs| - 1].header, cfg.clockFormatForIntraDay, AsWritten), cfg.lineLength);
    }
  }

  /** The 03 record takes at least one line. */
  lemma {:induction false} FieldLinesNonEmpty(cur: string, fields: seq<string>, lineLength: int)
    ensures |FieldLines(cur, fields, lineLength)| >= 1
    decreases |fields|
  {
    if |fields| > 0 {
      var f0 := fields[0];
      if |cur| + |f0| + 2 >= lineLength {
        FieldLinesNonEmpty("88," + f0, fields[1..], lineLength);
      } else {
        FieldLinesNonEmpty(cur + "," + f0, fields[1..], lineLength);
      }
    }
  }

  // ----- control totals -----

  /** The amounts of the accounts added up, each as `update_totals` adds it. */
  function AccountsTotal(cs: seq<AccountValue>): int {
    if |cs| == 0 then 0 else AccountsTotal(cs[..|cs| - 1]) + AccountTotal(cs[|cs| - 1])
  }

  /** The amounts of every account of every group added up. */
  function GroupsTotal(gs: seq<GroupValue>): int {
    if |gs| == 0 then 0 else GroupsTotal(gs[..|gs| - 1]) + AccountsTotal(gs[|gs| - 1].children)
  }

  /** The written accounts of a prefix are the prefix of the written accounts. */
  lemma WrittenAccountsPrefix(cs: seq<AccountValue>, n: nat, cfg: WriterConfig)
    requires n <= |cs| && AccountsFit(cs, cfg)
    ensures AccountsFit(cs[..n], cfg)
    ensures WrittenAccounts(cs, cfg)[..n] == WrittenAccounts(cs[..n], cfg)
  {
  }

  /** The control totals of a sequence of accounts, the last one apart. */
  lemma AccountTotalsSnoc(ws: seq<AccountValue>)
    requires |ws| > 0
    ensures AccountTotals(ws) == AccountTotals(ws[..|ws| - 1]) + [ws[|ws| - 1].trailer.accountControlTotal]
  {
  }

  /** The control totals of a sequence of groups, the last one apart. */
  lemma GroupTotalsSnoc(ws: seq<GroupValue>)
    requires |ws| > 0
    ensures GroupTotals(ws) == GroupTotals(ws[..|ws| - 1]) + [ws[|ws| - 1].trailer.groupControlTotal]
  {
  }

  /** The group total sums the written accounts' control totals: every amount
      of every account. */
  lemma {:induction false} WrittenAccountsTotal(cs: seq<AccountValue>, cfg: WriterConfig)
    requires AccountsFit(cs, cfg)
    ensures SumOrZero(AccountTotals(WrittenAccounts(cs, cfg))) == AccountsTotal(cs)
  {
    if |cs| > 0 {
      WrittenAccountsTotalSnoc(cs, cfg);
      WrittenAccountsTotal(cs[..|cs| - 1], cfg);
    }
  }

  /** The group total of the written accounts, the last one apart. */
  lemma WrittenAccountsTotalSnoc(cs: seq<AccountValue>, cfg: WriterConfig)
    requires |cs| > 0 && AccountsFit(cs, cfg)
    ensures AccountsFit(cs[..|cs| - 1], cfg)
    ensures SumOrZero(AccountTotals(WrittenAccounts(cs, cfg)))
         == SumOrZero(AccountTotals(WrittenAccounts(cs[..|cs| - 1], cfg))) + AccountTotal(cs[|cs| - 1])
  {
    WrittenAccountsPrefix(cs, |cs| - 1, cfg);
    AccountTotalsSum(WrittenAccounts(cs, cfg));
  }

  /** The sum of the control totals of a sequence of accounts, the last one
      apart. */
  lemma AccountTotalsSum(ws: seq<AccountValue>)
    requires |ws| > 0
    ensures SumOrZero(AccountTotals(ws))
         == SumOrZero(AccountTotals(ws[..|ws| - 1])) + OrZero(ws[|ws| - 1].trailer.accountControlTotal)
  {
    AccountTotalsSnoc(ws);
    assert AccountTotals(ws)[..|ws| - 1] == AccountTotals(ws[..|ws| - 1]);
  }

  /** A written group's control total adds up every amount of its accounts. */
  lemma WrittenGroupTotal(g: GroupValue, cfg: WriterConfig)
    requires AccountsFit(g.children, cfg)
    ensures WrittenGroup(g, cfg).trailer.groupControlTotal == Some(AccountsTotal(g.children))
  {
    WrittenAccountsTotal(g.children, cfg);
  }

  /** The file total sums the written groups' control totals. */
  lemma {:induction false} WrittenGroupsTotal(gs: seq<GroupValue>, cfg: WriterConfig)
    requires GroupsFit(gs, cfg)
    ensures SumOrZero(GroupTotals(WrittenGroups(gs, cfg))) == GroupsTotal(gs)
  {
    if |gs| > 0 {
      var n := |gs| - 1;
      var init := WrittenGroups(gs[..n], cfg);
      var last := WrittenGroup(gs[n], cfg);
      WrittenGroupsTotal(gs[..n], cfg);
      WrittenGroupTotal(gs[n], cfg);
      assert WrittenGroups(gs, cfg) == init + [last];
      GroupTotalsSnoc(init + [last]);
      assert (init + [last])[..n] == init;
      SumOrZeroAppend(GroupTotals(init), [last.trailer.groupControlTotal]);
    }
  }

  /** The written trailers' control totals: an account's amounts, every
      amount of a group, every amount of a file. */
  lemma ControlTotals(a: AccountValue, g: GroupValue, f: FileValue, cfg: WriterConfig)
    requires TextsFit(a.children, cfg) && AccountsFit(g.children, cfg) && GroupsFit(f.children, cfg)
    ensures WrittenAccount(a, cfg).trailer.accountControlTotal == Some(AccountTotal(a))
    ensures WrittenGroup(g, cfg).trailer.groupControlTotal == Some(AccountsTotal(g.children))
    ensures WrittenFile(f, cfg).trailer.fileControlTotal == Some(GroupsTotal(f.children))
  {
    WrittenGroupTotal(g, cfg);
    WrittenGroupsTotal(f.children, cfg);
  }

  // ----- writing twice -----

  /** An account written again: the same lines, the same account. */
  lemma AccountWrittenTwice(a: AccountValue, cfg: WriterConfig)
    requires TextsFit(a.children, cfg)
    ensures TextsFit(WrittenAccount(a, cfg).children, cfg)
    ensures AccountLines(WrittenAccount(a, cfg), cfg) == AccountLines(a, cfg)
    ensures WrittenAccount(WrittenAccount(a, cfg), cfg) == WrittenAccount(a, cfg)
  {
  }

  /** One more account at the end: it fits, adds its lines and its written value. */
  lemma AccountsAppend(init: seq<AccountValue>, last: AccountValue, cfg: WriterConfig)
    requires AccountsFit(init, cfg) && TextsFit(last.children, cfg)
    ensures AccountsFit(init + [last], cfg)
    ensures AccountsLines(init + [last], cfg) == AccountsLines(init, cfg) + AccountLines(last, cfg)
    ensures WrittenAccounts(init + [last], cfg) == WrittenAccounts(init, cfg) + [WrittenAccount(last, cfg)]
  {
    var all := init + [last];
    assert forall i :: 0 <= i < |init| ==> all[i] == init[i];
    assert all[..|init|] == init;
    WrittenAccountsAppend(init, last, cfg);
  }

  /** The written accounts of one more account. */
  lemma WrittenAccountsAppend(init: seq<AccountValue>, last: AccountValue, cfg: WriterConfig)
    requires AccountsFit(init, cfg) && TextsFit(last.children, cfg) && AccountsFit(init + [last], cfg)
    ensures WrittenAccounts(init + [last], cfg) == WrittenAccounts(init, cfg) + [WrittenAccount(last, cfg)]
  {
    var all := init + [last];
    var w := WrittenAccounts(init, cfg) + [WrittenAccount(last, cfg)];
    forall i | 0 <= i < |all|
      ensures WrittenAccounts(all, cfg)[i] == w[i]
    {
      if i < |init| {
        assert all[i] == init[i];
      }
    }
  }

  /** Accounts written again: the same lines, the same accounts. */
  lemma {:induction false} AccountsWrittenTwice(cs: seq<AccountValue>, cfg: WriterConfig)
    requires AccountsFit(cs, cfg)
    ensures AccountsFit(WrittenAccounts(cs, cfg), cfg)
    ensures AccountsLines(WrittenAccounts(cs, cfg), cfg) == AccountsLines(cs, cfg)
    ensures WrittenAccounts(WrittenAccounts(cs, cfg), cfg) == WrittenAccounts(cs, cfg)
  {
    if |cs| > 0 {
      var n := |cs| - 1;
      assert cs == cs[..n] + [cs[n]];
      AccountsAppend(cs[..n], cs[n], cfg);
      AccountsWrittenTwice(cs[..n], cfg);
      AccountWrittenTwice(cs[n], cfg);
      AccountsAppend(WrittenAccounts(cs[..n], cfg), WrittenAccount(cs[n], cfg), cfg);
    }
  }

  /** A group written again: the same lines, the same group. */
  lemma GroupWrittenTwice(g: GroupValue, cfg: WriterConfig)
    requires AccountsFit(g.children, cfg)
    ensures AccountsFit(WrittenGroup(g, cfg).children, cfg)
    ensures GroupLines(WrittenGroup(g, cfg), cfg) == GroupLines(g, cfg)
    ensures WrittenGroup(WrittenGroup(g, cfg), cfg) == WrittenGroup(g, cfg)
  {
    var w := WrittenGroup(g, cfg);
    AccountsWrittenTwice(g.children, cfg);
    assert w.header == g.header && w.children == WrittenAccounts(g.children, cfg);
    assert GroupRecordCount(w, cfg) == GroupRecordCount(g, cfg);
    assert WrittenGroup(w, cfg) == w;
  }

  /** One more group at the end: it fits, adds its lines and its written value. */
  lemma GroupsAppend(init: seq<GroupValue>, last: GroupValue, cfg: WriterConfig)
    requires GroupsFit(init, cfg) && AccountsFit(last.children, cfg)
    ensures GroupsFit(init + [last], cfg)
    ensures GroupsLines(init + [last], cfg) == GroupsLines(init, cfg) + GroupLines(last, cfg)
    ensures WrittenGroups(init + [last], cfg) == WrittenGroups(init, cfg) + [WrittenGroup(last, cfg)]
  {
    assert (init + [last])[..|init|] == init;
  }

  /** Groups written again: the same lines, the same groups. */
  lemma {:induction false} GroupsWrittenTwice(gs: seq<GroupValue>, cfg: WriterConfig)
    requires GroupsFit(gs, cfg)
    ensures GroupsFit(WrittenGroups(gs, cfg), cfg)
    ensures GroupsLines(WrittenGroups(gs, cfg), cfg) == GroupsLines(gs, cfg)
    ensures WrittenGroups(WrittenGroups(gs, cfg), cfg) == WrittenGroups(gs, cfg)
  {
    if |gs| > 0 {
      GroupsPrefixFit(gs, cfg);
      GroupsWrittenTwice(gs[..|gs| - 1], cfg);
      GroupsWrittenTwiceStep(gs, cfg);
    }
  }

  /** The groups but the last fit when all of them do. */
  lemma GroupsPrefixFit(gs: seq<GroupValue>, cfg: WriterConfig)
    requires |gs| > 0 && GroupsFit(gs, cfg)
    ensures GroupsFit(gs[..|gs| - 1], cfg) && AccountsFit(gs[|gs| - 1].children, cfg)
  {
    var init := gs[..|gs| - 1];
    forall i | 0 <= i < |init|
      ensures AccountsFit(init[i].children, cfg)
    {
      assert init[i] == gs[i];
    }
  }

  /** Writing groups twice is writing them once, given that it is so for all
      of them but the last. */
  lemma GroupsWrittenTwiceStep(gs: seq<GroupValue>, cfg: WriterConfig)
    requires |gs| > 0 && GroupsFit(gs, cfg) && GroupsFit(gs[..|gs| - 1], cfg)
    requires GroupsFit(WrittenGroups(gs[..|gs| - 1], cfg), cfg)
    requires GroupsLines(WrittenGroups(gs[..|gs| - 1], cfg), cfg) == GroupsLines(gs[..|gs| - 1], cfg)
    requires WrittenGroups(WrittenGroups(gs[..|gs| - 1], cfg), cfg) == WrittenGroups(gs[..|gs| - 1], cfg)
    ensures GroupsFit(WrittenGroups(gs, cfg), cfg)
    ensures GroupsLines(WrittenGroups(gs, cfg), cfg) == GroupsLines(gs, cfg)
    ensures WrittenGroups(WrittenGroups(gs, cfg), cfg) == WrittenGroups(gs, cfg)
  {
    var init, last := gs[..|gs| - 1], gs[|gs| - 1];
    assert AccountsFit(last.children, cfg);
    assert WrittenGroups(gs, cfg) == WrittenGroups(init, cfg) + [WrittenGroup(last, cfg)];
    assert GroupsLines(gs, cfg) == GroupsLines(init, cfg) + GroupLines(last, cfg);
    GroupWrittenTwice(last, cfg);
    GroupsAppend(WrittenGroups(init, cfg), WrittenGroup(last, cfg), cfg);
  }

  /** A file written again: the same lines, the same file. */
  lemma FileWrittenTwice(f: FileValue, cfg: WriterConfig)
    requires GroupsFit(f.children, cfg)
    ensures GroupsFit(WrittenFile(f, cfg).children, cfg)
    ensures FileLines(WrittenFile(f, cfg), cfg) == FileLines(f, cfg)
    ensures WrittenFile(WrittenFile(f, cfg), cfg) == WrittenFile(f, cfg)
  {
    var w := WrittenFile(f, cfg);
    GroupsWrittenTwice(f.children, cfg);
    assert w.header == f.header && w.children == WrittenGroups(f.children, cfg);
    assert FileRecordCount(w, cfg) == FileRecordCount(f, cfg);
    assert WrittenFile(w, cfg) == w;
  }

  // ----- the configuration under the section writers -----

  /** The configuration `text_on_new_line=True`, the rest left at its default. */
  const TextOnNewLine := DefaultConfig.(textOnNewLine := true)

  /** A file of one group of one account of one transaction whose only field
      is the short text "BILLS", with the empty availability mapping that
      `TransactionDetail` defaults to. */
  function OneTextFile(): (f: FileValue)
    ensures |f.children| == 1 && |f.children[0].children| == 1
    ensures f.children[0].children[0].children == [TransactionDetail([], None, None, None, Entries([]), None, None, Some("BILLS"))]
  {
    var t := TransactionDetail([], None, None, None, Entries([]), None, None, Some("BILLS"));
    var a := AccountValue(EmptyAccountIdentifier, EmptyAccountTrailer, [t]);
    var g := GroupValue(EmptyGroupHeader, EmptyGroupTrailer, [a]);
    FileValue(EmptyFileHeader, EmptyFileTrailer, [g])
  }

  /** Blank fields leave only their commas. */
  lemma {:induction false} BlankCommas(fields: seq<string>)
    requires forall i :: 0 <= i < |fields| ==> fields[i] == ""
    ensures |Commas(fields)| == |fields|
  {
    if |fields| > 0 {
      BlankCommas(fields[..|fields| - 1]);
    }
  }

  /** The short text goes on the detail's own line by default, and on a
      continuation line of its own under `text_on_new_line`. */
  lemma OneTextLines(t: TransactionDetail)
    requires t == TransactionDetail([], None, None, None, Entries([]), None, None, Some("BILLS"))
    ensures |TransactionLines(t, DefaultConfig, AsWritten)| == 1
    ensures |TransactionLines(t, TextOnNewLine, AsWritten)| == 2
  {
    var head := TransactionHead(t, false, AsWritten);
    assert head == ["", "", "", "", ""];
    BlankCommas(head);
    assert |"16" + Commas(head)| == 7;
  }

  /** The written file's line count, one level at a time. */
  lemma OneTextFileLength(cfg: WriterConfig)
    requires cfg.lineLength > 3
    ensures GroupsFit(OneTextFile().children, cfg)
    ensures |FileLines(OneTextFile(), cfg)|
         == 5 + |AccountIdentifierLines(EmptyAccountIdentifier, cfg, AsWritten)|
              + |TransactionLines(OneTextFile().children[0].children[0].children[0], cfg, AsWritten)|
  {
    var f := OneTextFile();
    var g := f.children[0];
    var a := g.children[0];
    assert TextsFit(a.children, cfg);
    assert AccountsFit(g.children, cfg);
    assert |TransactionsLines(a.children, cfg)| == |TransactionLines(a.children[0], cfg, AsWritten)| by {
      assert a.children[..0] == [];
    }
    assert |AccountsLines(g.children, cfg)| == |AccountLines(a, cfg)| by {
      assert g.children[..0] == [];
    }
    assert |GroupsLines(f.children, cfg)| == |GroupLines(g, cfg)| by {
      assert f.children[..0] == [];
    }
  }

  /** Writing a file through the section writers as written ignores the
      configuration: with `text_on_new_line=True` the one file above would
      take one line more than the writers, which use the default, produce. */
  lemma ConfigIgnoredChangesOutput()
    ensures GroupsFit(OneTextFile().children, DefaultConfig)
    ensures GroupsFit(OneTextFile().children, TextOnNewLine)
    ensures |FileLines(OneTextFile(), TextOnNewLine)| == |FileLines(OneTextFile(), DefaultConfig)| + 1
  {
    var t := OneTextFile().children[0].children[0].children[0];
    OneTextLines(t);
    OneTextFileLength(DefaultConfig);
    OneTextFileLength(TextOnNewLine);
  }
}
