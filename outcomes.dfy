/** Outcomes of parsing and decoding: the exceptions the parser raises
    (ParsingException, IntegrityException, NotSupportedYetException) and the
    lower-level failures of field decoding (an IndexError or ValueError from a
    record with too few or malformed fields, a KeyError from an unknown type
    code, an unknown record code). */
module Outcomes {

  datatype Option<+T> = None | Some(value: T)

  /** The two-character record codes of a BAI2 file. */
  datatype RecordCode =
    | FileHeaderCode          // 01
    | GroupHeaderCode         // 02
    | AccountIdentifierCode   // 03
    | TransactionDetailCode   // 16
    | ContinuationCode        // 88
    | AccountTrailerCode      // 49
    | GroupTrailerCode        // 98
    | FileTrailerCode         // 99

  /** The section whose trailer failed a check. */
  datatype Level = AccountLevel | GroupLevel | FileLevel

  /** Why a ParsingException was raised. `found == None` is the end of input. */
  datatype ParseProblem =
    | UnexpectedCode(expected: RecordCode, found: Option<RecordCode>)
    | GroupWithoutAccounts
    | FileWithoutGroups

  /** Which integrity check failed. */
  datatype IntegrityCheck =
    | NumberOfRecords(level: Level)
    | AccountControlTotal
    | NumberOfAccounts
    | GroupControlTotal
    | NumberOfGroups
    | FileControlTotal

  datatype Error =
    | ParsingException(problem: ParseProblem)
    | IntegrityException(check: IntegrityCheck, expected: Option<int>, found: int)
    | NotSupportedYetException
    | UnknownRecordCode(raw: string)      // RecordCode(...) of an unknown value
    | UnknownTypeCode(raw: string)        // TypeCodes[...] of an unknown key
    | DecodeFailure                       // IndexError / ValueError while decoding fields
    | SumOfNone                           // TypeError: a None inside a control-total sum
    | EmptyInput                          // no line at all

  datatype Result<+T> = Ok(value: T) | Err(error: Error) {
    predicate IsFailure() { Err? }

    function PropagateFailure<U>(): Result<U>
      requires Err?
    {
      Err(error)
    }

    function Extract(): T
      requires Ok?
    {
      value
    }
  }
}
