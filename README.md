# BAI2 parser and writer, modelled in Dafny

This project models the core of the `bai2` Python package. The package reads
and writes files in the BAI2 cash-management reporting format.

- **Lines and records.** A file is a list of text lines. Each line is a
  two-digit record code (01 file header, 02 group header, 03 account
  identifier, 16 transaction detail, 88 continuation, 49 account trailer,
  98 group trailer, 99 file trailer), a comma and a payload. A record is a
  line together with the 88 lines that follow it.
- **The tree.** Records form a tree: File → Group → Account →
  TransactionDetail. Every section has a header, children and a trailer that
  carries control totals and a record count.

The model follows the package module by module:

| Dafny module (file) | package module | form |
|---|---|---|
| `Utils` (utils.dfy) | `bai2/utils.py` | pure functions |
| `Models` (models.dfy) | `bai2/models.py` | values for records and headers; classes `Account`, `Group`, `Bai2File` with `update_totals` as methods |
| `Helpers` (helpers.dfy) | `bai2/helpers.py` | functions for `_build_record`; a method for the `record_generator` loop; class `IteratorHelper` with a cursor |
| `Decoding`, `Parsers` (decoding.dfy, parsers.dfy) | `bai2/parsers.py` | specification functions on (records, position); methods on the shared `IteratorHelper` proved equal to them |
| `Writers`, `Sections` (writers.dfy, sections.dfy) | `bai2/writers.py` | methods with the writers' loops, proved equal to functions; section writers that update the trailers of the objects in place |
| `Bai2` (bai2.dfy) | `bai2/bai2.py` | `parse_from_lines` and `write` on lines |
| `Constants`, `Strings`, `Outcomes` | enumerations, `int`/`str`/`split`/`join`, exceptions | support |

The laws live in `RecordLaws`, `AvailabilityLaws`, `WrapLaws`, `ParserLaws`
and `SectionLaws`:

- what a writer produces reads back through the record assembler and the
  parser: always in the corrected availability layout, and in the layout of
  bai2/writers.py exactly where the two agree;
- integrity checking never changes a parsed tree, it can only refuse it;
- a parsed section holds exactly the rows it consumed;
- written trailers count their own lines and sum their children;
- writing a tree twice yields the same lines;
- wrapped 03 and 16 records keep every field and every character of text.

Every field list of a writer takes a `Writers.Layout`. `AsWritten` is the
availability layout of bai2/writers.py, and every writer method and section
writer uses it. `Readable` is the corrected layout: the fields the parser
reads for the funds type. The second finding below shows where the two
differ.

Outcomes are a `Result`. Its error is a `ParsingException` (expected and
found codes), an `IntegrityException` (which check, expected, found), a
`NotSupportedYetException`, or a decode failure. The decode failure stands
for Python's `IndexError`/`ValueError` on a missing or non-numeric field.
The cursor has an explicit end-of-input position. There, no `can_parse`
holds and every code check fails with `ParsingException`.

## Model

| member | source | states |
|---|---|---|
| Utils.CenturyOf | bai2/utils.py:11 | `%y` maps 69..99 to 1969..1999 and 00..68 to 2000..2068, keeping the last two digits |
| Utils.ParseDate | bai2/utils.py:7-11 | only six digits naming an existing date parse; the year falls in the `%y` window |
| Utils.WriteDate | bai2/utils.py:14-15 | a date is written as six digits |
| Utils.WriteParsedDate | bai2/utils.py:7-15 | `write_date(parse_date(s)) == s` for every YYMMDD string that parses |
| Utils.ParseWrittenDate | bai2/utils.py:7-15 | `parse_date(write_date(d)) == d` for every date of the `%y` window |
| Utils.ParseClockTime | bai2/utils.py:27-28 | only HH:MM:SS naming a valid time parses, to a time with seconds |
| Utils.ParseMilitaryTime | bai2/utils.py:31-45 | the end-of-day sentinel exactly for '9999' and '2400'; any other success is four digits with no seconds |
| Utils.ParseTime | bai2/utils.py:18-24 | clock format when the value starts like dd:dd:dd, military otherwise; only a clock value carries seconds |
| Utils.WriteClockTime | bai2/utils.py:55-59 | always eight characters of the HH:MM:SS pattern |
| Utils.WriteMilitaryTime | bai2/utils.py:62-67 | four digits; '2400' exactly for the sentinel |
| Utils.WriteTime | bai2/utils.py:48-52 | the sentinel is always '2400'; otherwise HH:MM:SS with the flag and four digits other than '2400' without it |
| Utils.MilitaryExamples | bai2/utils.py:43-45 | '9999' and '2400' give the same sentinel; '2145' is 21:45 and '0000' is 00:00 |
| Utils.ParseWrittenMilitaryTime | bai2/utils.py:43-67 | HHMM written from the sentinel or a time without seconds reads back as that time |
| Utils.WriteParsedMilitaryTime | bai2/utils.py:43-67 | every military value except '9999' is written back unchanged |
| Utils.ParseWrittenClockTime | bai2/utils.py:18-59 | HH:MM:SS written from an intra-day time reads back through `parse_time` as the same time |
| Utils.ParseWrittenTime | bai2/utils.py:18-67 | `parse_time(write_time(t, flag)) == t` whenever the written form keeps all of t |
| Utils.ParseTypeCode | bai2/utils.py:70-71 | succeeds exactly for keys of the type-code table, with that code; otherwise an unknown-type-code error |
| Utils.IntField | bai2/utils.py:74-78 | '' exactly for None; otherwise text that `int()` reads back as the number |
| Utils.TextField | bai2/utils.py:74-78 | '' for None, the text itself otherwise |
| Strings.NatToString | bai2/utils.py:78 | `str` of a natural number is digits without a leading zero |
| Strings.ParseInt | bai2/parsers.py:209 | `int()` succeeds exactly on an optionally signed digit string; a negative result has a '-' |
| Strings.ParseIntOfString | bai2/utils.py:74-78 | `int(str(i)) == i` for every integer |
| Strings.NatToStringRoundTrip | bai2/utils.py:78 | the digits of `str(n)` have the value n |
| Strings.Split | bai2/helpers.py:15 | `split` gives at least one piece, none holding the separator |
| Strings.SplitJoin | bai2/helpers.py:15 | `split` undoes `join` when no piece holds the separator |
| Strings.JoinSplit | bai2/parsers.py:237 | `join` undoes `split` on every text, so a transaction text keeps its commas |
| Constants.CodeValue | bai2/writers.py:79 | every record code is written as two digits |
| Constants.ParseRecordCode | bai2/helpers.py:21 | `RecordCode(value)` gives the code whose value is the text, or an unknown-code error |
| Constants.ParseRecordCodeOfValue | bai2/helpers.py:21 | every record code is recognised from its own value |
| Constants.FundsTypeValue | bai2/writers.py:113 | a funds type is written as one character |
| Constants.ParseFundsType | bai2/parsers.py:210 | `FundsType(value)` gives the type whose value is the text, or a decode failure |
| Constants.ParseGroupStatus | bai2/parsers.py:328 | `GroupStatus(value)` succeeds exactly on '1' and writes it back |
| Constants.ParseAsOfDateModifier | bai2/parsers.py:332 | `AsOfDateModifier(value)` succeeds exactly on '2' and writes it back |
| Models.RowTexts | bai2/models.py:20 | one "code,payload" text per row, in order |
| Models.AsString | bai2/models.py:18-22 | empty exactly without rows; a single row renders as its own text |
| Models.AsStringLines | bai2/models.py:18-22 | splitting `as_string` at newlines gives back each row's text, in order |
| Models.Insert | bai2/parsers.py:181 | `mapping[key] = value`: a new key is appended to the keys, a known key keeps the key order |
| Models.SumOrZeroAppend | bai2/parsers.py:307-308 | the `x or 0` sum of a concatenation is the sum of the parts |
| Models.WithAccountTotals | bai2/models.py:171-178 | `update_totals` sets the account control total to the transaction amounts plus the summary amounts and changes nothing else |
| Models.WithGroupTotals | bai2/models.py:116-122 | sets the group control total to the sum of the accounts' control totals and `number_of_accounts` to the child count; nothing else changes |
| Models.WithFileTotals | bai2/models.py:62-68 | sets the file control total to the sum of the groups' control totals and `number_of_groups` to the child count; nothing else changes |
| Models.UpdateTotalsIdempotent | bai2/models.py:62-178 | running `update_totals` twice is running it once, at every level |
| Models.AccountTotalExample | tests/test_writers.py:291-304 | transactions 2599 and 1000 with summaries 10000 and 10000 give the control total 23599 |
| Models.RecordRowsAppend | bai2/models.py:43-51 | the rows of consecutive records concatenate |
| Models.TransactionRowsLength | bai2/models.py:43-51 | the transactions' rows are as many as their row counts add up to |
| Models.AccountsRowsLength | bai2/models.py:43-51 | the same for accounts |
| Models.GroupsRowsLength | bai2/models.py:43-51 | the same for groups |
| Models.SectionRowCounts | bai2/models.py:43-51 | a section has as many rows as its header, its trailer and its children together |
| Models.Account.constructor | bai2/models.py:166-169 | a missing header or trailer is replaced by an empty one; the children are kept |
| Models.Account.UpdateTotals | bai2/models.py:171-178 | the account's new value is `WithAccountTotals` of its old value |
| Models.Group.constructor | bai2/models.py:111-114 | as for accounts |
| Models.Group.UpdateTotals | bai2/models.py:116-122 | the group's new value is `WithGroupTotals` of its old value; the children are the same objects |
| Models.SumGroupTotals | bai2/models.py:63-65 | the loop adds up every group's trailer total |
| Models.Bai2File.constructor | bai2/models.py:57-60 | as for accounts |
| Models.Bai2File.UpdateTotals | bai2/models.py:62-68 | the file's new value is `WithFileTotals` of its old value |
| Helpers.ParseRow | bai2/helpers.py:21 | the code is the record code whose value is the first two characters; the payload is everything from index 3; otherwise an unknown-code error |
| Helpers.ParseRowText | bai2/helpers.py:20-22 | a row rendered by `as_string` parses back to itself |
| Helpers.RowTextOfLine | bai2/models.py:18-22 | a parsed line with its comma at index 2 renders back exactly |
| Helpers.ParseRows | bai2/helpers.py:20-22 | one row per line, each the row of its line |
| Helpers.ParseRowsFirstError | bai2/helpers.py:20-22 | a failing list fails with the error of one of its lines |
| Helpers.ParsedPayloads | bai2/helpers.py:10 | lines longer than "NN," give non-empty payloads, as `field_str[-1]` needs |
| Helpers.Segment | bai2/helpers.py:8-13 | a payload adds at least its own length to the field text |
| Helpers.FieldsText | bai2/helpers.py:6-13 | every row adds at least one character |
| Helpers.BuildRecord | bai2/helpers.py:5-16 | the record has the code of its first row, keeps its rows and has at least one field |
| Helpers.FieldsTextSingle | bai2/helpers.py:7-13 | the field text of one row is that row's segment |
| Helpers.SingleTerminatedRowFields | bai2/helpers.py:10-15 | a lone line 'X/' yields the fields `split(X, ',')` |
| Helpers.SingleOpenRowFields | bai2/helpers.py:12-15 | a lone unterminated line 'X' yields `split(X, ',')` as well |
| Helpers.FieldsTextOfTerminated | bai2/helpers.py:6-15 | '/'-terminated rows of comma-joined fields fold to all their fields joined, plus ',' |
| Helpers.BuildRecordOfTerminated | bai2/helpers.py:5-16 | such rows, with comma-free fields, build back exactly the fields that were written |
| Helpers.Chunks | bai2/helpers.py:24-37 | the rows of each record are non-empty and the first starts at the first row |
| Helpers.ChunksFlatten | bai2/helpers.py:24-37 | the records' rows put together are the rows, in order |
| Helpers.ChunksBoundaries | bai2/helpers.py:31-35 | inside a record only 88 rows follow the first row; every later record starts at a non-88 row |
| Helpers.ChunksPayloads | bai2/helpers.py:10 | every record's rows have non-empty payloads |
| Helpers.GeneratedRecords | bai2/helpers.py:19-37 | a successful generation yields at least one record |
| Helpers.BuildRecordsRows | bai2/helpers.py:16 | the built records hold the grouped rows, in order |
| Helpers.GeneratedRows | bai2/helpers.py:19-37 | the rows of all generated records concatenate to the row list of the lines |
| Helpers.ChunksStep | bai2/helpers.py:31-35 | an 88 row joins the last record; any other row starts a new one |
| Helpers.GeneratorStep | bai2/helpers.py:25-35 | the loop step keeps "records so far plus the open one" equal to the grouping of the rows read so far |
| Helpers.CollectRecords | bai2/helpers.py:24-37 | the loop yields exactly the records of the grouping of all rows |
| Helpers.RecordGenerator | bai2/helpers.py:19-37 | `record_generator` yields exactly `GeneratedRecords` |
| Helpers.IteratorHelper.constructor | bai2/helpers.py:41-44 | the cursor starts on the first record |
| Helpers.IteratorHelper.Current | bai2/helpers.py:43-47 | the current record is the one at the cursor; there is none at the end of input |
| Helpers.IteratorHelper.Advance | bai2/helpers.py:46-47 | moves to the next record; stays at the end of input |
| Decoding.DecodeField | bai2/parsers.py:138-156 | past the end a decode failure; a blank value is None; otherwise the decoder's result |
| Decoding.Distributions | bai2/parsers.py:176-181 | every failure of the day/amount loop is a decode failure |
| Decoding.AvailabilityOf | bai2/parsers.py:163-183 | never consumes more than it is given; every failure is a decode failure |
| Decoding.DistributionsStep | bai2/parsers.py:178-181 | one distribution pops a day and a whole amount and inserts them |
| Decoding.DistributionsConsume | bai2/parsers.py:175-181 | N distributions consume exactly 2N fields |
| Decoding.AvailabilityConsumes | bai2/parsers.py:163-183 | S consumes 3 fields, V 2, D 1+2N and any other funds type none |
| Decoding.ParseAvailability | bai2/parsers.py:163-183 | the popping method computes `AvailabilityOf` |
| Decoding.ParseDistributions | bai2/parsers.py:175-181 | the loop for D computes `Distributions` |
| Decoding.DecodeTransactionDetail | bai2/parsers.py:219-242 | a decoded 16 keeps the record's rows and had at least the three head fields |
| Decoding.TransactionTextJoin | bai2/parsers.py:234-240 | the text is the ','-join of every field after the two references |
| Decoding.DecodeTransactionFields | bai2/parsers.py:219-242 | the popping method computes `DecodeTransactionDetail` |
| Decoding.SummaryAvailability | bai2/parsers.py:280-281 | an item keeps a non-empty availability; otherwise it has the empty default |
| Decoding.SummaryItemAt | bai2/parsers.py:273-282 | one item consumes its four fields and its availability |
| Decoding.DecodeAccountIdentifier | bai2/parsers.py:259-285 | a decoded 03 keeps the record's rows and had both common fields |
| Decoding.ParseSummaryItem | bai2/parsers.py:273-282 | one pass of the loop computes `SummaryItemAt` |
| Decoding.ParseSummaryItems | bai2/parsers.py:265-283 | the while loop computes `SummaryItems`, including the lone trailing blank it drops |
| Decoding.DecodeAccountIdentifierFields | bai2/parsers.py:259-285 | the method computes `DecodeAccountIdentifier` |
| Decoding.DecodeFileHeader | bai2/parsers.py:397-406 | a decoded 01 keeps its rows and had eight fields |
| Decoding.CheckedFileHeader | bai2/parsers.py:408-414 | only version 2 passes; another version is a `NotSupportedYetException` |
| Decoding.DecodeFileTrailer | bai2/parsers.py:420-424 | a decoded 99 keeps its rows and had three fields |
| Decoding.DecodeGroupHeader | bai2/parsers.py:325-342 | a blank currency becomes USD; any other currency is kept |
| Decoding.DecodeGroupTrailer | bai2/parsers.py:348-352 | a decoded 98 keeps its rows and had three fields |
| Decoding.DecodeAccountTrailer | bai2/parsers.py:291-294 | a decoded 49 keeps its rows and had two fields |
| Parsers.CodeAt | bai2/parsers.py:32 | the current code exists exactly before the end of input |
| Parsers.CheckCode | bai2/parsers.py:31-38 | succeeds exactly on the expected code; otherwise 'Expected X, got Y', with Y None at the end |
| Parsers.SingleAt | bai2/parsers.py:185-199 | a single parse checks the code, decodes and advances by one; a wrong code is the `ParsingException` |
| Parsers.OptionSum | bai2/parsers.py:378-381 | `sum` succeeds exactly when every total is present, and is then their sum |
| Parsers.ValidatedAccount | bai2/parsers.py:303-319 | passes exactly when integrity is off or the count and total agree; a wrong record count is reported first |
| Parsers.ValidatedGroup | bai2/parsers.py:361-391 | passes exactly for a non-empty group that, when checked, agrees; an empty group fails after the record count |
| Parsers.ValidatedFile | bai2/parsers.py:433-463 | as for a group, one level up |
| Parsers.TransactionsAt | bai2/parsers.py:76-84 | one record per transaction, stopping before the first non-16 |
| Parsers.AccountAt | bai2/parsers.py:113-122 | a parsed account consumes at least one record |
| Parsers.AccountsAt | bai2/parsers.py:76-84 | the loop stops exactly where `AccountParser.can_parse` fails |
| Parsers.GroupAt | bai2/parsers.py:113-122 | a parsed group consumes at least one record |
| Parsers.GroupsAt | bai2/parsers.py:76-84 | the loop stops exactly where `GroupParser.can_parse` fails |
| Parsers.FileAt | bai2/parsers.py:113-122 | a parsed file consumes at least one record |
| Parsers.FileTailAt | bai2/parsers.py:116-122 | the trailer and validation consume at least one record |
| Parsers.ParseSingle | bai2/parsers.py:185-199 | the method on the shared cursor agrees with `SingleAt` |
| Parsers.ParseTransactions | bai2/parsers.py:76-84 | the child loop agrees with `TransactionsAt` |
| Parsers.ParseAccount | bai2/parsers.py:113-122 | a fresh Account equal to `AccountAt`, with the same error otherwise |
| Parsers.ParseAccounts | bai2/parsers.py:76-84 | fresh, distinct accounts equal to `AccountsAt` |
| Parsers.ParseGroup | bai2/parsers.py:113-122 | a fresh Group of fresh accounts equal to `GroupAt` |
| Parsers.ParseGroups | bai2/parsers.py:76-84 | fresh groups forming a tree, equal to `GroupsAt` |
| Parsers.FinishFile | bai2/parsers.py:116-122 | a fresh file over the parsed groups, equal to `FileTailAt` |
| Parsers.ParseFile | bai2/parsers.py:113-122 | a fresh file tree equal to `FileAt`, with the same error otherwise |
| ParserLaws.AccountIntegrity | bai2/parsers.py:303-319 | with checks an account parses exactly when it parses without them and its trailer agrees, to the same value |
| ParserLaws.AccountsIntegrity | bai2/parsers.py:76-84 | the same for the accounts of a group |
| ParserLaws.GroupIntegrity | bai2/parsers.py:361-391 | the same for a group and all its accounts |
| ParserLaws.GroupsIntegrity | bai2/parsers.py:76-84 | the same for the groups of a file |
| ParserLaws.FileIntegrity | bai2/parsers.py:433-463 | `check_integrity` never changes a parsed file: it only refuses files whose trailers disagree |
| ParserLaws.FileTailIntegrity | bai2/parsers.py:433-463 | the same for the end of a file parse |
| ParserLaws.UnsupportedVersion | bai2/parsers.py:408-414 | a header of another version is refused with `NotSupportedYetException`, whatever the check; a parsed file has version 2 |
| ParserLaws.EmptyGroupRefused | bai2/parsers.py:361-365 | a group header followed by its trailer fails: on a wrong record count when checked, otherwise as an empty group |
| ParserLaws.EmptyFileRefused | bai2/parsers.py:433-437 | the same for a file |
| ParserLaws.Bai2KeepsRows | bai2/parsers.py:187-190 | every decoder of the package keeps the record's rows |
| ParserLaws.TransactionsRows | bai2/models.py:43-51 | parsed transactions hold the rows of the records they consumed |
| ParserLaws.AccountRowsConsumed | bai2/models.py:43-51 | a parsed account holds exactly the rows it consumed |
| ParserLaws.AccountsRowsConsumed | bai2/models.py:43-51 | the same for the accounts of a group |
| ParserLaws.GroupRowsConsumed | bai2/models.py:43-51 | the same for a group |
| ParserLaws.GroupsRowsConsumed | bai2/models.py:43-51 | the same for the groups of a file |
| ParserLaws.FileRowsConsumed | bai2/models.py:43-51 | a parsed file holds exactly the rows it consumed, so `as_string` reproduces them |
| Writers.DateText | bai2/writers.py:230 | '' exactly for a missing date |
| Writers.TimeText | bai2/writers.py:231 | '' exactly for a missing time |
| Writers.IsoDate | bai2/utils.py:74-78 | `str` of a date: ten characters, YYYY-MM-DD |
| Writers.IsoTime | bai2/utils.py:74-78 | `str` of a time: HH:MM:SS, longer exactly for `time.max` (its microseconds) |
| Writers.StrText | bai2/utils.py:74-78 | `convert_to_string`: '' exactly for None; an amount as its decimal digits |
| Writers.FixedValueText | bai2/writers.py:91-97 | a date under 'date' is `write_date`, a time under 'time' is `write_time`, '' for a false value; under '0', '1' and '>1' the value is `convert_to_string(value)` |
| Writers.DayAmounts | bai2/writers.py:100-103 | two fields per distribution: the i-th day, then `convert_to_string` of its value |
| Writers.ExpandAvailability | bai2/writers.py:87-104 | nothing exactly for an empty mapping; one field per key for the S and V key lists; otherwise the count first, then each day and `convert_to_string` of its value |
| AvailabilityLaws.StrFormOutsideDateTimeKeys | bai2/writers.py:87-104 | a date or time outside the 'date' and 'time' keys is written by `str` (2015-10-01, 13:05:00, 23:59:59.999999), with S keys or in a distribution, and `{'date': date(2015, 10, 1)}` alone is written "1,date,2015-10-01" |
| AvailabilityLaws.FalseValuesBlank | bai2/writers.py:91-96 | under 'date' and 'time' the amount 0 and None are blank, and a time under 'date' is "000101" |
| AvailabilityLaws.StrDateUnreadable | bai2/writers.py:100-103 | a date written by `str` reads back neither as an amount nor as a BAI2 date |
| Writers.WriteSingle | bai2/writers.py:75-84 | exactly one line: the code, ','+field for each field, then '/' |
| Writers.WrapText | bai2/writers.py:127-144 | the text loop gives the earlier lines, then the text wrapped from the current line, or from a new 88 line after '/' with `text_on_new_line` |
| Writers.FillText | bai2/writers.py:134-144 | the `text_cursor` loop yields exactly `TextLines` |
| Writers.WriteTransactionDetail | bai2/writers.py:120-148 | the writer yields exactly `TransactionLines` in the layout of writers.py: a missing availability is one blank field, a D mapping with no days or with the keys of S has no count, and values are rendered as `expand_availability` renders them |
| Writers.PackDetail | bai2/writers.py:124-148 | the field loop yields exactly `DetailLines` |
| Writers.WriteAccountIdentifier | bai2/writers.py:190-204 | the writer yields exactly `AccountIdentifierLines` in the layout of writers.py, with the summary items' values rendered as `expand_availability` renders them |
| Writers.PackFields | bai2/writers.py:194-204 | the field loop yields exactly `FieldLines` |
| Sections.WriteTransactions | bai2/writers.py:42-44 | the child loop yields each transaction's lines in turn, as `TransactionDetailWriter` writes them |
| Sections.WriteAccount | bai2/writers.py:39-50 | the account's lines, and the account becomes its written value (control total and record count set) |
| Sections.CloseAccount | bai2/writers.py:46-48 | totals, then the record count n, then the one trailer line |
| Sections.WriteAccountAt | bai2/writers.py:43-44 | writing the k-th account replaces only its value |
| Sections.WriteAccounts | bai2/writers.py:42-44 | every account written in order: their lines, and each account replaced by its written value |
| Sections.WriteNextAccount | bai2/writers.py:43-44 | one loop turn extends the lines and the written prefix by one account |
| Sections.CloseGroup | bai2/writers.py:46-48 | `update_totals`, the record count n, the trailer line |
| Sections.WriteGroupAccounts | bai2/writers.py:42-44 | the group's accounts are written; the group object itself is untouched |
| Sections.WriteGroup | bai2/writers.py:39-50 | the group's lines, and the group becomes its written value |
| Sections.CloseWrittenGroup | bai2/writers.py:46-48 | after its accounts are written, the group's trailer is recomputed from them |
| Sections.WriteGroupAt | bai2/writers.py:43-44 | writing the k-th group replaces only its value; every group keeps its accounts |
| Sections.WriteGroups | bai2/writers.py:42-44 | every group written in order, and each replaced by its written value |
| Sections.WriteNextGroup | bai2/writers.py:43-44 | one loop turn extends the lines and the written prefix by one group |
| Sections.WriteFileGroups | bai2/writers.py:42-44 | the file's groups are written and keep their tree shape |
| Sections.CloseFile | bai2/writers.py:46-48 | `update_totals`, the record count n, the trailer line |
| Sections.CloseWrittenFile | bai2/writers.py:46-48 | after its groups are written, the file's trailer is recomputed from them |
| Sections.WriteFileOf | bai2/writers.py:39-50 | the file's lines, and the file becomes its written value |
| Sections.WriteFile | bai2/writers.py:39-50 | the section writers with the configuration passed down, the corrected half of the first finding: the lines of the file's old value under `cfg`, in the availability layout of writers.py; the tree becomes its written value |
| Sections.WriteAccountAsWritten | bai2/writers.py:39-50 | as written, the account's lines are those of the default configuration, whatever is passed, in the availability layout of writers.py |
| Sections.WriteGroupAsWritten | bai2/writers.py:39-50 | the same for a group |
| Sections.WriteFileAsWritten | bai2/writers.py:39-50 | the same for a file |
| SectionLaws.RecordCountsAreLineCounts | bai2/writers.py:46-50 | each written trailer's record count is the number of lines of its section; the group and file counts are their numbers of children |
| SectionLaws.WrittenAccountsTotal | bai2/models.py:116-122 | the written accounts' control totals add up to every amount of those accounts |
| SectionLaws.WrittenGroupTotal | bai2/models.py:116-122 | a written group's total adds up every amount of its accounts |
| SectionLaws.WrittenGroupsTotal | bai2/models.py:62-68 | the written groups' totals add up every amount of every account |
| SectionLaws.ControlTotals | bai2/writers.py:42-48 | the written totals depend only on the children's amounts, never on earlier trailer values |
| SectionLaws.AccountWrittenTwice | bai2/writers.py:39-50 | writing a written account again gives the same lines and the same account |
| SectionLaws.AccountsWrittenTwice | bai2/writers.py:39-50 | the same for a sequence of accounts |
| SectionLaws.GroupWrittenTwice | bai2/writers.py:39-50 | the same for a group |
| SectionLaws.GroupsWrittenTwice | bai2/writers.py:39-50 | the same for a sequence of groups |
| SectionLaws.FileWrittenTwice | bai2/writers.py:39-50 | the same for a file: writing a tree twice yields the same lines |
| SectionLaws.OneTextLines | bai2/writers.py:127-146 | a short text stays on the 16 line by default and moves to an 88 line with `text_on_new_line` |
| SectionLaws.OneTextFileLength | bai2/writers.py:39-50 | a file of one group, one account and one transaction has five section lines besides its 03 and 16 lines |
| SectionLaws.ConfigIgnoredChangesOutput | bai2/writers.py:39-50 | with the configuration passed down, `text_on_new_line` changes the file's output by one line |
| RecordLaws.LineRow | bai2/writers.py:75-84 | a written single line parses to its code and the fields joined, plus '/' |
| RecordLaws.LineRecord | bai2/writers.py:75-84 | `record_generator` reads that line back as one record holding exactly the written fields |
| RecordLaws.OneLineRecords | bai2/helpers.py:19-37 | a lone line makes a lone record |
| RecordLaws.FieldRead | bai2/parsers.py:138-144 | a field written as `convert_to_string` decodes back to its optional value |
| RecordLaws.TextFieldRead | bai2/parsers.py:138-144 | the same for text fields that are not blank |
| RecordLaws.IntFieldRead | bai2/parsers.py:138-144 | the same for integer fields |
| RecordLaws.DateFieldRead | bai2/parsers.py:138-144 | the same for dates of the `%y` window |
| RecordLaws.TimeFieldRead | bai2/parsers.py:138-144 | the same for times the chosen format keeps |
| RecordLaws.StatusFieldRead | bai2/parsers.py:138-144 | the same for the group status |
| RecordLaws.ModifierFieldRead | bai2/parsers.py:138-144 | the same for the as-of-date modifier |
| RecordLaws.FileHeaderRoundTrip | bai2/writers.py:254-266 | a written 01 line reads back as the same header, with the line's rows |
| RecordLaws.FileTrailerRoundTrip | bai2/writers.py:269-276 | the same for a 99 line |
| RecordLaws.GroupHeaderRoundTrip | bai2/writers.py:223-234 | the same for a 02 line with a non-blank currency |
| RecordLaws.GroupTrailerRoundTrip | bai2/writers.py:237-244 | the same for a 98 line |
| RecordLaws.AccountTrailerRoundTrip | bai2/writers.py:207-213 | the same for a 49 line |
| AvailabilityLaws.LayoutsAgreeExactly | bai2/writers.py:61-104 | the layout of writers.py writes the corrected fields exactly when there is an availability and, for D, it has days that are not the keys of S or V |
| AvailabilityLaws.ReadableLayoutFields | bai2/writers.py:61-104 | where the layouts agree, the written availability fields are the ones the parser reads |
| AvailabilityLaws.AvailabilityRoundTrip | bai2/writers.py:87-104 | the corrected availability fields read back as the same availability, leaving what follows |
| AvailabilityLaws.SimpleRoundTrip | bai2/parsers.py:165-168 | the three S amounts read back |
| AvailabilityLaws.ValueDatedRoundTrip | bai2/parsers.py:169-174 | the V date and time read back |
| AvailabilityLaws.DistributedRoundTrip | bai2/parsers.py:175-181 | distinct D days with their amounts read back, count first |
| AvailabilityLaws.TypeCodeFieldRead | bai2/parsers.py:207-209 | a written type code decodes back |
| AvailabilityLaws.FundsTypeFieldRead | bai2/parsers.py:210 | a written funds type decodes back |
| AvailabilityLaws.SummaryRoundTrip | bai2/parsers.py:273-282 | one summary item reads back from its fields, leaving the fields after it, in the corrected layout and in the written one where the layouts agree |
| AvailabilityLaws.SummaryAvailabilityRead | bai2/parsers.py:277-281 | a summary item's availability fields read back as its availability |
| AvailabilityLaws.SummaryItemsRoundTrip | bai2/writers.py:151-170 | the summary fields read back as the same items in the corrected layout; `expand_summary_items` output does so when every item's layouts agree |
| AvailabilityLaws.AccountIdentifierRoundTrip | bai2/parsers.py:259-285 | the fields of an account identifier decode to the same identifier, in either layout where it reads back |
| AvailabilityLaws.TransactionRoundTrip | bai2/parsers.py:219-242 | the fields of a transaction, text split at its commas, decode to the same transaction, in the corrected layout and in the written one where the layouts agree |
| AvailabilityLaws.HeadRoundTrip | bai2/parsers.py:219-232 | the type code, amount, funds type and availability read back |
| AvailabilityLaws.TailRoundTrip | bai2/parsers.py:234-240 | the references and the rejoined text read back |
| AvailabilityLaws.MissingAvailabilityShiftsFields | bai2/writers.py:56-67 | as written, funds type 0 with no availability gives the line '16,399,,0,,REF,,'; its blank shifts the references and turns the text into ',' |
| AvailabilityLaws.EmptyDistributionLosesCount | bai2/writers.py:87-90 | as written, an empty distribution loses its count and fails to parse; the corrected fields read back |
| AvailabilityLaws.SimpleLookingDistributionMisread | bai2/writers.py:91-98 | as written, a distribution of days 0, 1, >1 loses its count and is misread; the corrected fields read back |
| AvailabilityLaws.SimpleLookingWritten | bai2/writers.py:91-98 | those days are written in the S layout: three bare amounts |
| AvailabilityLaws.CountOneMisread | bai2/parsers.py:175-181 | read as a distribution, 1, 2, 3 is one day "2" with amount 3 |
| WrapLaws.TextLinesShape | bai2/writers.py:134-144 | the first line continues the current line, every later line is an 88 line, and no line exceeds `line_length` |
| WrapLaws.TextLinesCarry | bai2/writers.py:134-141 | the chunks carried by the lines concatenate to exactly the text |
| WrapLaws.DetailLinesLaws | bai2/writers.py:120-148 | a 16 with text: the wrapped lines carry the whole text, from a new 88 line with `text_on_new_line` |
| WrapLaws.DetailLinesNoText | bai2/writers.py:145-146 | without text, one line ending in an empty field |
| WrapLaws.OpenLineRecord | bai2/helpers.py:12-15 | an unterminated line reads back as one record of exactly its fields |
| WrapLaws.OpenLineRow | bai2/helpers.py:21 | such a line parses to the row of its code and joined fields |
| WrapLaws.OneDetailLine | bai2/writers.py:134-141 | a text that fits goes on the 16 line after its fields |
| WrapLaws.TransactionLineRoundTrip | bai2/writers.py:120-148 | a transaction written on one line reads back, through the assembler and the parser, as the same transaction, in the corrected layout and in the layout of writers.py where the two agree |
| WrapLaws.DetailLineRecord | bai2/helpers.py:5-16 | that one line assembles to the fields and the text's pieces |
| WrapLaws.FieldLinesShape | bai2/writers.py:196-203 | every 03 line ends in '/'; the first continues the current line and the rest start with 88 |
| WrapLaws.FieldLinesFit | bai2/writers.py:196-203 | fields of at most `line_length` − 5 characters keep every line shorter than `line_length` |
| WrapLaws.AccountIdentifierLinesFit | bai2/writers.py:190-204 | the same for the whole account identifier |
| WrapLaws.FieldLinesGroups | bai2/writers.py:196-203 | each line holds one non-empty group of whole fields, and the groups concatenate to the fields |
| WrapLaws.ChunksOfContinued | bai2/helpers.py:31-35 | rows that are all 88 after the first make one record |
| WrapLaws.ContinuedRecords | bai2/helpers.py:24-37 | lines of such rows assemble to one record |
| WrapLaws.IdentifierLinesReassemble | bai2/writers.py:196-203 | the 03 lines of comma-free fields assemble back to exactly those fields |
| WrapLaws.AccountIdentifierLinesRoundTrip | bai2/writers.py:190-204 | an account identifier written over as many lines as it needs reads back as itself, in the corrected layout and in the layout of writers.py where every item's layouts agree |
| Bai2.ParseFromLines | bai2/bai2.py:8-11 | the records of the lines read by the file parser from a fresh cursor: a fresh tree equal to `FileAt`, or its error |
| Bai2.Write | bai2/bai2.py:22-23 | the corrected file writer (configuration passed down): its lines joined by newlines |
| Bai2.WriteAsWritten | bai2/bai2.py:22-23 | `bai2.write` as written: the text is that of the default configuration, whatever is passed |

## Left out

- Reading a file or a string and splitting it into lines
  (`parse_from_file`, `parse_from_string`, bai2/bai2.py:14-19) is I/O. It is
  not modelled; `Bai2.ParseFromLines` starts from the lines.
- Environment configuration (bai2/conf.py) is not part of this model.
  `check_integrity` is a boolean parameter.
- `bai2/constants.py` is not part of this model. Record codes, funds types,
  group status, as-of-date modifier and type codes are finite enumerations
  holding the values the repository's tests use.
- Python `datetime` is reduced to its fields:
  - a date is (year, month, day) of the proleptic calendar;
  - a time is (hour, minute, second) or the end-of-day sentinel for
    `time.max`;
  - microseconds, the `datetime.now()` carrier of the time writers and
    the leniency of `strptime` (one-digit hours, for example) are left out.
- The end-of-day sentinel is kept distinct: `parse_military_time` returns
  `time.max`. The repository's tests expect 23:59
  (tests/test_utils.py:28-42); the code is followed.
- `int()` accepts surrounding whitespace and '_' separators; the model
  accepts an optionally signed digit string only.
- Exception messages are kept as data: the expected and found codes, the
  failing check, and the stated and computed values. On input that stops
  before its closing trailers, the codes differ from the source's (see the
  end-of-input line below).
- The shared mutable defaults (`summary_items=[]`, `availability={}`) are
  fresh values. The `_rows` cache of a section and its in-place extension of
  `header.rows` (bai2/models.py:45-50) are modelled as plain concatenation.
- End of input. `advance` raises `StopIteration` after the last record.
  `BaseSingleParser.parse` swallows it (bai2/parsers.py:194-197), so the
  cursor stays on the last record and every later check sees that record
  again. The model has an explicit end-of-input position instead: there no
  `can_parse` holds, and the next code check fails with
  `UnexpectedCode(expected, None)`. On input missing its closing trailers
  the source and the model therefore fail differently:
  - input ending with a 49: the source re-offers the 49 to the account
    parser and raises "Expected 03, got 49"; the model gives
    `UnexpectedCode(98, None)`;
  - input ending with a 98: the source raises "Expected 02, got 98"; the
    model gives `UnexpectedCode(99, None)`;
  - input ending with a 16: the source re-parses the 16 forever in
    `_parse_children` (bai2/parsers.py:81-82); the model gives
    `UnexpectedCode(49, None)`.
  The stale cursor is not modelled; well-formed input, which ends with a
  99, is parsed the same way by both.
- Helpers.GeneratedRecords: a line of three characters or fewer has an empty
  payload, on which `_build_record` raises `IndexError`
  (bai2/helpers.py:10). Lines longer than three characters are a
  precondition of the assembler and of `Bai2.ParseFromLines`.
- Writers.ExpandAvailability: a value of the wrong kind under 'date' or
  'time' that makes `write_date` or `write_time` raise `AttributeError`
  (a nonzero amount under either key, a date under 'time') is not
  modelled; the model writes it in the BAI2 form of its own kind. Every
  other value is written as the source writes it.
- Writers.WriteTransactionDetail and Writers.WriteAccountIdentifier
  inherit that gap from `Writers.ExpandAvailability`: the `AttributeError`
  cases are not modelled.
- Writers.WriteAccountIdentifier: see the `Writers.ExpandAvailability` line
  above.
- Writers.TextLines: the text loop needs `line_length` > 3 to terminate, so
  this is a precondition of the transaction writers.
- Models.Account.UpdateTotals: summing a missing amount is a `TypeError` in
  the source. Present amounts are a precondition, as they are for
  `Models.Group.UpdateTotals`, `Models.Bai2File.UpdateTotals` and the
  section writers.
- Sections.WriteFile: the section writers require the accounts of a file to
  form a tree: no account or group object appears twice. The source does not
  check this. Shared objects would be written twice and are not modelled.
- WrapLaws.TransactionLineRoundTrip: proved for a transaction that fits on
  one line. A text wrapped onto 88 lines gains a space at every line break
  when reassembled (bai2/writers.py:140-143 against bai2/helpers.py:13), so
  the wrapped case is stated as `WrapLaws.TextLinesCarry` on the lines
  instead.
- AvailabilityLaws.TransactionRoundTrip: a text ending in '/' loses the '/'
  on reassembly (bai2/helpers.py:10-11). The round trip requires a text
  that does not end in '/', and `RecordLaws.CommaFree` fields elsewhere.
- WrapLaws.IdentifierLinesReassemble: a first field too long for the first
  line makes the writer close "03" with nothing after it (bai2/writers.py:198-200).
  The law requires the first field to fit.
- RecordLaws.GroupHeaderRoundTrip: a blank currency reads back as USD, so
  the round trip requires a currency.
- The trailing empty field of some exports is dropped by the parser
  (bai2/parsers.py:268-271) but not written back by the writer. No
  round-trip law covers it.
- WrapLaws.TransactionLineRoundTrip, AvailabilityLaws.TransactionRoundTrip
  and WrapLaws.AccountIdentifierLinesRoundTrip: for the layout of
  bai2/writers.py they hold only where `AvailabilityLaws.LayoutsAgree`
  holds. A 16 with funds type 0, 1, 2 or Z has no availability once
  parsed, so the source's own 16 lines for those funds types do not read
  back (second finding).
- Writer and parser together are not the identity for arbitrary trees, for
  the reasons above and the findings below.

## Findings

| source | as written | input that shows it | evidently intended | confidence | as-written member | corrected member |
|---|---|---|---|---|---|---|
| bai2/writers.py:40 | `BaseSectionWriter.write` builds its header, child and trailer writers from the object alone (also lines 44 and 48), so `line_length`, `text_on_new_line` and `clock_format_for_intra_day` reach no writer below a section writer | a file of one group, one account and one transaction with text "BILLS", written with `text_on_new_line=True`: the output equals that of the default configuration | the configuration passed to the file writer applies to every record of the file, as in `Sections.WriteFile` | not executed | Sections.WriteFileAsWritten | SectionLaws.ConfigIgnoredChangesOutput |
| bai2/writers.py:87-104 | `expand_availability` picks its layout from the mapping's keys, and a missing availability writes one blank field (lines 61-67); the parser picks the layout from the funds type (bai2/parsers.py:163-183) | funds type 0 with no availability, written '16,399,,0,,REF,,'; funds type D with no days; funds type D with days 0, 1 and >1 | the written availability fields are those the parser reads for the funds type | not executed | AvailabilityLaws.SimpleLookingDistributionMisread | AvailabilityLaws.AvailabilityRoundTrip |
