/** The enumerations of BAI2 the core relies on: record codes, funds types,
    group status, as-of-date modifier and the type-code table. Only the
    members the repository's fixtures use are listed. */
module Constants {
  import opened Outcomes

  /** The text value of a record code. */
  function CodeValue(c: RecordCode): (s: string)
    ensures |s| == 2 && '0' <= s[0] <= '9' && '0' <= s[1] <= '9'
  {
    match c
    case FileHeaderCode => "01"
    case GroupHeaderCode => "02"
    case AccountIdentifierCode => "03"
    case TransactionDetailCode => "16"
    case ContinuationCode => "88"
    case AccountTrailerCode => "49"
    case GroupTrailerCode => "98"
    case FileTrailerCode => "99"
  }

  /** `RecordCode(value)`: the code whose value is `s`, or an error. */
  function ParseRecordCode(s: string): (r: Result<RecordCode>)
    ensures r.Ok? ==> CodeValue(r.value) == s
    ensures r.Err? ==> r.error == UnknownRecordCode(s)
  {
    if s == "01" then Ok(FileHeaderCode)
    else if s == "02" then Ok(GroupHeaderCode)
    else if s == "03" then Ok(AccountIdentifierCode)
    else if s == "16" then Ok(TransactionDetailCode)
    else if s == "88" then Ok(ContinuationCode)
    else if s == "49" then Ok(AccountTrailerCode)
    else if s == "98" then Ok(GroupTrailerCode)
    else if s == "99" then Ok(FileTrailerCode)
    else Err(UnknownRecordCode(s))
  }

  /** Every record code is recognised from its own value. */
  lemma ParseRecordCodeOfValue(c: RecordCode)
    ensures ParseRecordCode(CodeValue(c)) == Ok(c)
  {
  }

  /** How and when funds become available; decides the availability sub-grammar. */
  datatype FundsType =
    | ImmediateAvailability          // 0
    | OneDayAvailability             // 1
    | DistributedAvailabilitySimple  // S
    | ValueDated                     // V
    | DistributedAvailability        // D
    | UnknownAvailability            // Z

  function FundsTypeValue(f: FundsType): (s: string)
    ensures |s| == 1
  {
    match f
    case ImmediateAvailability => "0"
    case OneDayAvailability => "1"
    case DistributedAvailabilitySimple => "S"
    case ValueDated => "V"
    case DistributedAvailability => "D"
    case UnknownAvailability => "Z"
  }

  /** `FundsType(value)`: a ValueError (DecodeFailure) for an unknown value. */
  function ParseFundsType(s: string): (r: Result<FundsType>)
    ensures r.Ok? ==> FundsTypeValue(r.value) == s
    ensures r.Err? ==> r.error == DecodeFailure
  {
    if s == "0" then Ok(ImmediateAvailability)
    else if s == "1" then Ok(OneDayAvailability)
    else if s == "S" then Ok(DistributedAvailabilitySimple)
    else if s == "V" then Ok(ValueDated)
    else if s == "D" then Ok(DistributedAvailability)
    else if s == "Z" then Ok(UnknownAvailability)
    else Err(DecodeFailure)
  }

  datatype GroupStatus = Update   // 1

  function GroupStatusValue(g: GroupStatus): string { "1" }

  function ParseGroupStatus(s: string): (r: Result<GroupStatus>)
    ensures r.Ok? <==> s == "1"
    ensures r.Ok? ==> GroupStatusValue(r.value) == s
  {
    if s == "1" then Ok(Update) else Err(DecodeFailure)
  }

  datatype AsOfDateModifier = FinalPreviousDay   // 2

  function AsOfDateModifierValue(m: AsOfDateModifier): string { "2" }

  function ParseAsOfDateModifier(s: string): (r: Result<AsOfDateModifier>)
    ensures r.Ok? <==> s == "2"
    ensures r.Ok? ==> AsOfDateModifierValue(r.value) == s
  {
    if s == "2" then Ok(FinalPreviousDay) else Err(DecodeFailure)
  }

  /** The keys of the type-code table that the fixtures use. */
  const TypeCodeKeys: set<string> :=
    {"010", "015", "040", "045", "072", "074", "075", "100",
     "115", "165", "190", "191", "399", "400"}

  /** An entry of the type-code table, identified by its 3-digit code. */
  datatype TypeCode = TypeCode(code: string)
}
