/** What the parsers of bai2/parsers.py promise, stated on the
    specification functions of module Parsers: integrity checking only ever
    refuses a file (it never changes what is parsed), an unsupported
    version and an empty group or file are refused whatever the setting,
    and every parsed section holds exactly the rows of the records it
    consumed. */
module ParserLaws {
  import opened Outcomes
  import opened Strings
  import opened Models
  import opened Decoding
  import opened Parsers

  // ----- check_integrity only refuses -----

  predicate AccountsConsistent(accounts: seq<AccountValue>) {
    forall a :: a in accounts ==> AccountConsistent(a)
  }

  /** A group's trailer and those of all its accounts agree with their content. */
  predicate GroupTreeConsistent(g: GroupValue) {
    GroupConsistent(g) && AccountsConsistent(g.children)
  }

  predicate GroupsConsistent(groups: seq<GroupValue>) {
    forall g :: g in groups ==> GroupTreeConsistent(g)
  }

  /** Every trailer of the file agrees with its content. */
  predicate FileTreeConsistent(f: FileValue) {
    FileConsistent(f) && GroupsConsistent(f.children)
  }

  lemma AccountsConsistentCons(a: AccountValue, more: seq<AccountValue>)
    ensures AccountsConsistent([a] + more) <==> AccountConsistent(a) && AccountsConsistent(more)
  {
    assert forall x :: x in [a] + more <==> x == a || x in more;
  }

  lemma GroupsConsistentCons(g: GroupValue, more: seq<GroupValue>)
    ensures GroupsConsistent([g] + more) <==> GroupTreeConsistent(g) && GroupsConsistent(more)
  {
    assert forall x :: x in [g] + more <==> x == g || x in more;
  }

  /** An account parses with integrity checks exactly when it parses
      without them and its trailer agrees with its content, and then to the
      same account. */
  lemma AccountIntegrity(recs: seq<Record>, pos: nat, d: Decoders)
    requires pos <= |recs|
    ensures var on := AccountAt(recs, pos, true, d);
            var off := AccountAt(recs, pos, false, d);
            (on.Ok? <==> off.Ok? && AccountConsistent(off.value.0)) && (on.Ok? ==> on == off)
  {
  }

  lemma {:induction false} AccountsIntegrity(recs: seq<Record>, pos: nat, d: Decoders)
    requires pos <= |recs|
    ensures var on := AccountsAt(recs, pos, true, d);
            var off := AccountsAt(recs, pos, false, d);
            (on.Ok? <==> off.Ok? && AccountsConsistent(off.value.0)) && (on.Ok? ==> on == off)
    decreases |recs| - pos
  {
    if AccountCanParse(recs, pos) {
      AccountIntegrity(recs, pos, d);
      var a := AccountAt(recs, pos, false, d);
      if a.Ok? {
        AccountsIntegrity(recs, a.value.1, d);
        var more := AccountsAt(recs, a.value.1, false, d);
        if more.Ok? {
          AccountsConsistentCons(a.value.0, more.value.0);
        }
      }
    }
  }

  /** A group parses with integrity checks exactly when it parses without
      them and all its trailers agree with their content. */
  lemma GroupIntegrity(recs: seq<Record>, pos: nat, d: Decoders)
    requires pos <= |recs|
    ensures var on := GroupAt(recs, pos, true, d);
            var off := GroupAt(recs, pos, false, d);
            (on.Ok? <==> off.Ok? && GroupTreeConsistent(off.value.0)) && (on.Ok? ==> on == off)
  {
    var h := SingleAt(recs, pos, GroupHeaderCode, d.groupHeader);
    if h.Ok? {
      AccountsIntegrity(recs, h.value.1, d);
      var off := AccountsAt(recs, h.value.1, false, d);
      var on := AccountsAt(recs, h.value.1, true, d);
      if off.Ok? {
        var t := SingleAt(recs, off.value.1, GroupTrailerCode, d.groupTrailer);
        if t.Ok? {
          var g := GroupValue(h.value.0, t.value.0, off.value.0);
          assert GroupAt(recs, pos, false, d) == if |g.children| > 0 then Ok((g, t.value.1)) else Err(ValidatedGroup(g, false).error);
          if on.Ok? {
            assert GroupAt(recs, pos, true, d) == if ValidatedGroup(g, true).Ok? then Ok((g, t.value.1)) else Err(ValidatedGroup(g, true).error);
          }
        }
      }
    }
  }

  lemma {:induction false} GroupsIntegrity(recs: seq<Record>, pos: nat, d: Decoders)
    requires pos <= |recs|
    ensures var on := GroupsAt(recs, pos, true, d);
            var off := GroupsAt(recs, pos, false, d);
            (on.Ok? <==> off.Ok? && GroupsConsistent(off.value.0)) && (on.Ok? ==> on == off)
    decreases |recs| - pos
  {
    if GroupCanParse(recs, pos) {
      GroupIntegrity(recs, pos, d);
      var g := GroupAt(recs, pos, false, d);
      if g.Ok? {
        GroupsIntegrity(recs, g.value.1, d);
        var more := GroupsAt(recs, g.value.1, false, d);
        if more.Ok? {
          GroupsConsistentCons(g.value.0, more.value.0);
        }
      }
    }
  }

  /** `check_integrity` never changes the parsed file: with it, a file
      parses exactly when it parses without it and every trailer in it
      agrees with its content. */
  lemma FileIntegrity(recs: seq<Record>, pos: nat, d: Decoders)
    requires pos <= |recs|
    ensures var on := FileAt(recs, pos, true, d);
            var off := FileAt(recs, pos, false, d);
            (on.Ok? <==> off.Ok? && FileTreeConsistent(off.value.0)) && (on.Ok? ==> on == off)
  {
    var h := SingleAt(recs, pos, FileHeaderCode, d.fileHeader);
    if h.Ok? {
      GroupsIntegrity(recs, h.value.1, d);
      var on := GroupsAt(recs, h.value.1, true, d);
      var off := GroupsAt(recs, h.value.1, false, d);
      if on.Ok? {
        assert FileAt(recs, pos, true, d) == FileTailAt(recs, on.value.1, true, d, h.value.0, on.value.0);
      }
      if off.Ok? {
        assert FileAt(recs, pos, false, d) == FileTailAt(recs, off.value.1, false, d, h.value.0, off.value.0);
        FileTailIntegrity(recs, off.value.1, d, h.value.0, off.value.0);
      }
    }
  }

  /** The trailer of a file parses with integrity checks exactly when it
      parses without them and agrees with the file's content. */
  lemma FileTailIntegrity(recs: seq<Record>, pos: nat, d: Decoders, header: FileHeader, groups: seq<GroupValue>)
    requires pos <= |recs|
    ensures var on := FileTailAt(recs, pos, true, d, header, groups);
            var off := FileTailAt(recs, pos, false, d, header, groups);
            (off.Ok? ==> off.value.0.children == groups)
            && (on.Ok? <==> off.Ok? && FileConsistent(off.value.0)) && (on.Ok? ==> on == off)
  {
  }

  // ----- errors raised whatever the setting -----

  /** A file header whose version is not 2 is refused with
      NotSupportedYetException, and every parsed file has version 2. */
  lemma UnsupportedVersion(recs: seq<Record>, pos: nat, check: bool)
    requires pos <= |recs|
    ensures pos < |recs| && recs[pos].code == FileHeaderCode &&
            DecodeFileHeader(recs[pos]).Ok? && DecodeFileHeader(recs[pos]).value.versionNumber != Some(2) ==>
            FileAt(recs, pos, check, Bai2Decoders) == Err(NotSupportedYetException)
    ensures FileAt(recs, pos, check, Bai2Decoders).Ok? ==>
            FileAt(recs, pos, check, Bai2Decoders).value.0.header.versionNumber == Some(2)
  {
  }

  /** A group header followed at once by its trailer is refused as a group
      without accounts, with or without integrity checks, unless the record
      count check fails first. */
  lemma EmptyGroupRefused(recs: seq<Record>, pos: nat, check: bool, d: Decoders)
    requires pos + 1 < |recs| && recs[pos].code == GroupHeaderCode && recs[pos + 1].code == GroupTrailerCode
    requires d.groupHeader(recs[pos]).Ok? && d.groupTrailer(recs[pos + 1]).Ok?
    ensures var count := |d.groupHeader(recs[pos]).value.rows| + |d.groupTrailer(recs[pos + 1]).value.rows|;
            var stated := d.groupTrailer(recs[pos + 1]).value.numberOfRecords;
            GroupAt(recs, pos, check, d) ==
              if check && stated != Some(count) then Err(IntegrityException(NumberOfRecords(GroupLevel), stated, count))
              else Err(ParsingException(GroupWithoutAccounts))
  {
    var h := d.groupHeader(recs[pos]).value;
    var t := d.groupTrailer(recs[pos + 1]).value;
    assert AccountsAt(recs, pos + 1, check, d) == Ok(([], pos + 1));
    assert GroupRows(GroupValue(h, t, [])) == h.rows + t.rows;
  }

  /** A file header followed at once by its trailer is refused as a file
      without groups, unless the record count check fails first. */
  lemma EmptyFileRefused(recs: seq<Record>, pos: nat, check: bool, d: Decoders)
    requires pos + 1 < |recs| && recs[pos].code == FileHeaderCode && recs[pos + 1].code == FileTrailerCode
    requires d.fileHeader(recs[pos]).Ok? && d.fileTrailer(recs[pos + 1]).Ok?
    ensures var count := |d.fileHeader(recs[pos]).value.rows| + |d.fileTrailer(recs[pos + 1]).value.rows|;
            var stated := d.fileTrailer(recs[pos + 1]).value.numberOfRecords;
            FileAt(recs, pos, check, d) ==
              if check && stated != Some(count) then Err(IntegrityException(NumberOfRecords(FileLevel), stated, count))
              else Err(ParsingException(FileWithoutGroups))
  {
    var h := d.fileHeader(recs[pos]).value;
    var t := d.fileTrailer(recs[pos + 1]).value;
    assert GroupsAt(recs, pos + 1, check, d) == Ok(([], pos + 1));
    assert FileRows(FileValue(h, t, [])) == h.rows + t.rows;
  }

  // ----- parsed sections keep the rows they consumed -----

  /** Every field decoder keeps the rows of the record it decodes. */
  ghost predicate KeepsRows(d: Decoders) {
    (forall rec :: d.fileHeader(rec).Ok? ==> d.fileHeader(rec).value.rows == rec.rows) &&
    (forall rec :: d.groupHeader(rec).Ok? ==> d.groupHeader(rec).value.rows == rec.rows) &&
    (forall rec :: d.accountIdentifier(rec).Ok? ==> d.accountIdentifier(rec).value.rows == rec.rows) &&
    (forall rec :: d.transaction(rec).Ok? ==> d.transaction(rec).value.rows == rec.rows) &&
    (forall rec :: d.accountTrailer(rec).Ok? ==> d.accountTrailer(rec).value.rows == rec.rows) &&
    (forall rec :: d.groupTrailer(rec).Ok? ==> d.groupTrailer(rec).value.rows == rec.rows) &&
    (forall rec :: d.fileTrailer(rec).Ok? ==> d.fileTrailer(rec).value.rows == rec.rows)
  }

  lemma Bai2KeepsRows()
    ensures KeepsRows(Bai2Decoders)
  {
  }

  lemma RecordRowsSplit(recs: seq<Record>, i: nat, j: nat, k: nat)
    requires i <= j <= k <= |recs|
    ensures RecordRows(recs[i..k]) == RecordRows(recs[i..j]) + RecordRows(recs[j..k])
  {
    assert recs[i..k] == recs[i..j] + recs[j..k];
    RecordRowsAppend(recs[i..j], recs[j..k]);
  }

  lemma RecordRowsOne(recs: seq<Record>, i: nat)
    requires i < |recs|
    ensures RecordRows(recs[i..i + 1]) == recs[i].rows
  {
    assert recs[i..i + 1][..0] == [];
  }

  /** The rows of a header record, a run of records and a trailer record. */
  lemma SectionRecordRows(recs: seq<Record>, pos: nat, m: nat, end: nat)
    requires pos < m < |recs| && end == m + 1
    ensures RecordRows(recs[pos..end]) == recs[pos].rows + RecordRows(recs[pos + 1..m]) + recs[m].rows
  {
    RecordRowsSplit(recs, pos, pos + 1, end);
    RecordRowsSplit(recs, pos + 1, m, end);
    RecordRowsOne(recs, pos);
    RecordRowsOne(recs, m);
    AppendAssoc(recs[pos].rows, RecordRows(recs[pos + 1..m]), recs[m].rows);
  }

  /** The rows of one record followed by a run of records. */
  lemma ConsRecordRows(recs: seq<Record>, pos: nat, end: nat)
    requires pos < end <= |recs|
    ensures RecordRows(recs[pos..end]) == recs[pos].rows + RecordRows(recs[pos + 1..end])
  {
    RecordRowsSplit(recs, pos, pos + 1, end);
    RecordRowsOne(recs, pos);
  }

  /** What a successful `AccountAt` is made of. */
  lemma AccountAtParts(recs: seq<Record>, pos: nat, check: bool, d: Decoders)
    requires pos <= |recs| && AccountAt(recs, pos, check, d).Ok?
    ensures var r := AccountAt(recs, pos, check, d).value;
            var cs := TransactionsAt(recs, pos + 1, d);
            pos < |recs| && d.accountIdentifier(recs[pos]) == Ok(r.0.header) &&
            cs.Ok? && cs.value.0 == r.0.children && pos < cs.value.1 < |recs| && r.1 == cs.value.1 + 1 &&
            d.accountTrailer(recs[cs.value.1]) == Ok(r.0.trailer)
  {
  }

  lemma GroupAtParts(recs: seq<Record>, pos: nat, check: bool, d: Decoders)
    requires pos <= |recs| && GroupAt(recs, pos, check, d).Ok?
    ensures var r := GroupAt(recs, pos, check, d).value;
            var cs := AccountsAt(recs, pos + 1, check, d);
            pos < |recs| && d.groupHeader(recs[pos]) == Ok(r.0.header) &&
            cs.Ok? && cs.value.0 == r.0.children && pos < cs.value.1 < |recs| && r.1 == cs.value.1 + 1 &&
            d.groupTrailer(recs[cs.value.1]) == Ok(r.0.trailer)
  {
  }

  lemma FileAtParts(recs: seq<Record>, pos: nat, check: bool, d: Decoders)
    requires pos <= |recs| && FileAt(recs, pos, check, d).Ok?
    ensures var r := FileAt(recs, pos, check, d).value;
            var cs := GroupsAt(recs, pos + 1, check, d);
            pos < |recs| && d.fileHeader(recs[pos]) == Ok(r.0.header) &&
            cs.Ok? && cs.value.0 == r.0.children && pos < cs.value.1 < |recs| && r.1 == cs.value.1 + 1 &&
            d.fileTrailer(recs[cs.value.1]) == Ok(r.0.trailer)
  {
  }

  /** The transactions of an account hold the rows of the records they consumed. */
  lemma {:induction false} TransactionsRows(recs: seq<Record>, pos: nat, d: Decoders)
    requires pos <= |recs| && KeepsRows(d) && TransactionsAt(recs, pos, d).Ok?
    ensures var r := TransactionsAt(recs, pos, d).value;
            TransactionRows(r.0) == RecordRows(recs[pos..r.1])
    decreases |recs| - pos
  {
    var r := TransactionsAt(recs, pos, d).value;
    if CodeAt(recs, pos) == Some(TransactionDetailCode) {
      var t := d.transaction(recs[pos]).value;
      var more := TransactionsAt(recs, pos + 1, d).value;
      TransactionsRows(recs, pos + 1, d);
      TransactionRowsAppend([t], more.0);
      assert [t][..0] == [];
      ConsRecordRows(recs, pos, r.1);
    } else {
      assert recs[pos..r.1] == [];
    }
  }

  /** A parsed account holds exactly the rows of the records it consumed. */
  lemma AccountRowsConsumed(recs: seq<Record>, pos: nat, check: bool, d: Decoders)
    requires pos <= |recs| && KeepsRows(d) && AccountAt(recs, pos, check, d).Ok?
    ensures var r := AccountAt(recs, pos, check, d).value;
            AccountRows(r.0) == RecordRows(recs[pos..r.1])
  {
    AccountAtParts(recs, pos, check, d);
    TransactionsRows(recs, pos + 1, d);
    SectionRecordRows(recs, pos, TransactionsAt(recs, pos + 1, d).value.1, AccountAt(recs, pos, check, d).value.1);
  }

  /** What a successful `AccountsAt` that parsed an account is made of. */
  lemma AccountsAtCons(recs: seq<Record>, pos: nat, check: bool, d: Decoders)
    requires pos <= |recs| && AccountsAt(recs, pos, check, d).Ok? && AccountCanParse(recs, pos)
    ensures AccountAt(recs, pos, check, d).Ok?
    ensures var a := AccountAt(recs, pos, check, d).value;
            var more := AccountsAt(recs, a.1, check, d);
            more.Ok? && AccountsAt(recs, pos, check, d).value == ([a.0] + more.value.0, more.value.1)
  {
  }

  lemma AccountsRowsOne(a: AccountValue)
    ensures AccountsRows([a]) == AccountRows(a)
  {
    assert [a][..0] == [];
  }

  lemma {:induction false} AccountsRowsConsumed(recs: seq<Record>, pos: nat, check: bool, d: Decoders)
    requires pos <= |recs| && KeepsRows(d) && AccountsAt(recs, pos, check, d).Ok?
    ensures var r := AccountsAt(recs, pos, check, d).value;
            AccountsRows(r.0) == RecordRows(recs[pos..r.1])
    decreases |recs| - pos
  {
    var r := AccountsAt(recs, pos, check, d).value;
    if AccountCanParse(recs, pos) {
      AccountsAtCons(recs, pos, check, d);
      var a := AccountAt(recs, pos, check, d).value;
      var more := AccountsAt(recs, a.1, check, d).value;
      AccountRowsConsumed(recs, pos, check, d);
      AccountsRowsConsumed(recs, a.1, check, d);
      AccountsRowsAppend([a.0], more.0);
      AccountsRowsOne(a.0);
      RecordRowsSplit(recs, pos, a.1, r.1);
    } else {
      assert recs[pos..r.1] == [];
    }
  }

  /** A parsed group holds exactly the rows of the records it consumed. */
  lemma GroupRowsConsumed(recs: seq<Record>, pos: nat, check: bool, d: Decoders)
    requires pos <= |recs| && KeepsRows(d) && GroupAt(recs, pos, check, d).Ok?
    ensures var r := GroupAt(recs, pos, check, d).value;
            GroupRows(r.0) == RecordRows(recs[pos..r.1])
  {
    GroupAtParts(recs, pos, check, d);
    AccountsRowsConsumed(recs, pos + 1, check, d);
    SectionRecordRows(recs, pos, AccountsAt(recs, pos + 1, check, d).value.1, GroupAt(recs, pos, check, d).value.1);
  }

  /** What a successful `GroupsAt` that parsed a group is made of. */
  lemma GroupsAtCons(recs: seq<Record>, pos: nat, check: bool, d: Decoders)
    requires pos <= |recs| && GroupsAt(recs, pos, check, d).Ok? && GroupCanParse(recs, pos)
    ensures GroupAt(recs, pos, check, d).Ok?
    ensures var g := GroupAt(recs, pos, check, d).value;
            var more := GroupsAt(recs, g.1, check, d);
            more.Ok? && GroupsAt(recs, pos, check, d).value == ([g.0] + more.value.0, more.value.1)
  {
  }

  lemma GroupsRowsOne(g: GroupValue)
    ensures GroupsRows([g]) == GroupRows(g)
  {
    assert [g][..0] == [];
  }

  lemma {:induction false} GroupsRowsConsumed(recs: seq<Record>, pos: nat, check: bool, d: Decoders)
    requires pos <= |recs| && KeepsRows(d) && GroupsAt(recs, pos, check, d).Ok?
    ensures var r := GroupsAt(recs, pos, check, d).value;
            GroupsRows(r.0) == RecordRows(recs[pos..r.1])
    decreases |recs| - pos
  {
    var r := GroupsAt(recs, pos, check, d).value;
    if GroupCanParse(recs, pos) {
      GroupsAtCons(recs, pos, check, d);
      var g := GroupAt(recs, pos, check, d).value;
      var more := GroupsAt(recs, g.1, check, d).value;
      GroupRowsConsumed(recs, pos, check, d);
      GroupsRowsConsumed(recs, g.1, check, d);
      GroupsRowsAppend([g.0], more.0);
      GroupsRowsOne(g.0);
      RecordRowsSplit(recs, pos, g.1, r.1);
    } else {
      assert recs[pos..r.1] == [];
    }
  }

  /** The rows of a file made of a header record, groups holding a run of
      records and a trailer record. */
  lemma FileRowsOfParts(recs: seq<Record>, pos: nat, m: nat, end: nat, f: FileValue)
    requires pos < m < |recs| && end == m + 1
    requires f.header.rows == recs[pos].rows && f.trailer.rows == recs[m].rows
    requires GroupsRows(f.children) == RecordRows(recs[pos + 1..m])
    ensures FileRows(f) == RecordRows(recs[pos..end])
  {
    SectionRecordRows(recs, pos, m, end);
  }

  /** A parsed file holds exactly the rows of the records it consumed. */
  lemma FileRowsConsumed(recs: seq<Record>, pos: nat, check: bool, d: Decoders, f: FileValue, end: nat)
    requires pos <= |recs| && KeepsRows(d) && FileAt(recs, pos, check, d) == Ok((f, end))
    ensures pos < end <= |recs| && FileRows(f) == RecordRows(recs[pos..end])
  {
    FileAtParts(recs, pos, check, d);
    var m := GroupsAt(recs, pos + 1, check, d).value.1;
    GroupsRowsConsumed(recs, pos + 1, check, d);
    FileRowsOfParts(recs, pos, m, end, f);
  }
}
