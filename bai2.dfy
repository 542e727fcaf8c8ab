/** The package's entry points on lines (bai2/bai2.py): `parse_from_lines`
    and `write`. Reading a file or a string and splitting it into lines is
    I/O left to the caller. */
module Bai2 {
  import opened Outcomes
  import opened Strings
  import opened Models
  import opened Helpers
  import opened Parsers
  import opened Writers
  import opened Sections

  /** `parse_from_lines`: the records of the lines, read by the file parser
      from the first record on with a fresh cursor; a list with no line has
      no records to read. */
  method ParseFromLines(lines: seq<string>, check: bool) returns (r: Result<Bai2File>)
    requires forall i :: 0 <= i < |lines| ==> |lines[i]| > 3
    ensures GeneratedRecords(lines).Err? ==> r == Err(GeneratedRecords(lines).error)
    ensures GeneratedRecords(lines).Ok? ==>
      var spec := FileAt(GeneratedRecords(lines).value, 0, check, Bai2Decoders);
      r.Ok? == spec.Ok? && (r.Err? ==> r.error == spec.error)
      && (r.Ok? ==> fresh(r.value) && r.value.Value() == spec.value.0)
  {
    var records := RecordGenerator(lines);
    if records.Err? {
      return Err(records.error);
    }
    var it := new IteratorHelper(records.value);
    r := ParseFile(it, check, Bai2Decoders);
  }

  /** `write` with the corrected file writer: its lines, one per text line. */
  method Write(file: Bai2File, cfg: WriterConfig) returns (text: string)
    requires DisjointGroups(file.children)
    requires WritableGroups(GroupValues(file.children), cfg)
    modifies file, file.children, AccountSet(file.children)
    ensures text == Join(FileLines(old(file.Value()), cfg), '\n')
    ensures file.Value() == WrittenFile(old(file.Value()), cfg)
  {
    var lines := WriteFile(file, cfg);
    text := Join(lines, '\n');
  }

  /** `write(file, **config)` as written: the configuration reaches no
      writer below the file writer, so the text is that of the default
      configuration. */
  method WriteAsWritten(file: Bai2File, cfg: WriterConfig) returns (text: string)
    requires DisjointGroups(file.children)
    requires WritableGroups(GroupValues(file.children), DefaultConfig)
    modifies file, file.children, AccountSet(file.children)
    ensures text == Join(FileLines(old(file.Value()), DefaultConfig), '\n')
    ensures file.Value() == WrittenFile(old(file.Value()), DefaultConfig)
  {
    var lines := WriteFileAsWritten(file, cfg);
    text := Join(lines, '\n');
  }
}
