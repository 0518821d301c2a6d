/** The log file: one JSON record per line, and loading it back. */
module LogFile {
  import opened Common
  import opened JsonText
  import opened PlainText

  datatype Fields = Fields(members: seq<Member>)

  /** The file grows by whole lines. */
  class LogWriter {
    var text: string

    constructor ()
      ensures text == ""
    {
      text := "";
    }

    method WriteLine(line: string)
      modifies this
      ensures text == old(text) + line + "\n"
    {
      text := text + line + "\n";
    }

    method WriteRecord(record: Fields)
      modifies this
      ensures text == old(text) + TextOf(record) + "\n"
    {
      WriteLine(TextOf(record));
    }
  }

  function TextOf(record: Fields): string {
    RecordText(record.members)
  }

  function FileText(records: seq<Fields>): string {
    if records == [] then ""
    else FileText(records[..|records| - 1]) + TextOf(records[|records| - 1]) + "\n"
  }

  method WriteAll(records: seq<Fields>) returns (text: string)
    ensures text == FileText(records)
  {
    var writer := new LogWriter();
    for i := 0 to |records|
      invariant writer.text == FileText(records[..i])
    {
      assert records[..i + 1][..i] == records[..i];
      writer.WriteRecord(records[i]);
    }
    assert records[..|records|] == records;
    return writer.text;
  }

  // ---------- loading ----------

  /** `line` counts from one. */
  datatype LoadError = InvalidJson(line: nat)

  predicate IsLineEnd(c: char) {
    c == '\n' || c == '\r'
  }

  /** The lines of a text; a carriage return, a line feed or the two together end a line, and what follows the last
      line end is a line too. */
  function LinesOf(text: string): (lines: seq<string>)
    ensures lines != []
  {
    if text == "" then [""]
    else if |text| >= 2 && text[0] == '\r' && text[1] == '\n' then [""] + LinesOf(text[2..])
    else
      var rest := LinesOf(text[1..]);
      if IsLineEnd(text[0]) then [""] + rest else [[text[0]] + rest[0]] + rest[1..]
  }

  predicate IsStripped(c: char) {
    IsSpace(c) || c as int == 0x85 || c as int == 0xA0 || c as int == 0x2007 || c as int == 0x202F
  }

  function StripLeft(s: string): string {
    if s != "" && IsStripped(s[0]) then StripLeft(s[1..]) else s
  }

  function StripRight(s: string): string {
    if s != "" && IsStripped(s[|s| - 1]) then StripRight(s[..|s| - 1]) else s
  }

  function Strip(s: string): string {
    StripRight(StripLeft(s))
  }

  /** The records of the lines; blank lines are skipped, and the first line that is no record is an error. */
  function Loaded(lines: seq<string>, number: nat): Result<seq<Fields>, LoadError> {
    if lines == [] then Ok([])
    else
      var line := Strip(lines[0]);
      if line == "" then Loaded(lines[1..], number + 1)
      else
        match DecodeObject(line)
        case None => Err(InvalidJson(number))
        case Some(record) =>
          match Loaded(lines[1..], number + 1)
          case Err(e) => Err(e)
          case Ok(others) => Ok([Fields(record)] + others)
  }

  method LoadEvents(text: string) returns (result: Result<seq<Fields>, LoadError>)
    ensures result == Loaded(LinesOf(text), 1)
  {
    var lines := LinesOf(text);
    var records: seq<Fields> := [];
    assert lines[0..] == lines;
    if Loaded(lines, 1).Ok? {
      assert records + Loaded(lines, 1).value == Loaded(lines, 1).value;
    }
    for i := 0 to |lines|
      invariant Loaded(lines, 1) ==
        match Loaded(lines[i..], i + 1) case Err(e) => Err(e) case Ok(others) => Ok(records + others)
    {
      var line := Strip(lines[i]);
      assert lines[i..][1..] == lines[i + 1..];
      if line == "" {
        continue;
      }
      var record := DecodeObject(line);
      if record.None? {
        return Err(InvalidJson(i + 1));
      }
      if Loaded(lines[i + 1..], i + 2).Ok? {
        ConcatAssociative(records, [Fields(record.value)], Loaded(lines[i + 1..], i + 2).value);
      }
      records := records + [Fields(record.value)];
    }
    assert lines[|lines|..] == [];
    assert records + [] == records;
    return Ok(records);
  }

  // ---------- what is written is loaded ----------

  predicate OnOneLine(s: string) {
    forall c <- s :: !IsLineEnd(c)
  }

  lemma LinesOneMore(c: char, text: string)
    requires !IsLineEnd(c)
    ensures LinesOf([c] + text) == [[c] + LinesOf(text)[0]] + LinesOf(text)[1..]
  {
    assert ([c] + text)[1..] == text;
  }

  lemma {:induction false} FirstLine(line: string, rest: string)
    requires OnOneLine(line)
    ensures LinesOf(line + "\n" + rest) == [line] + LinesOf(rest)
  {
    var text := line + "\n" + rest;
    if line == "" {
      assert text[1..] == rest;
    } else {
      var others := line[1..] + "\n" + rest;
      assert line == [line[0]] + line[1..] && line[0] in line;
      assert text == [line[0]] + others;
      FirstLine(line[1..], rest);
      LinesOneMore(line[0], others);
    }
  }

  /** The texts of the records, and the empty rest behind the last line end. */
  function FileLines(records: seq<Fields>): seq<string> {
    if records == [] then [""] else [TextOf(records[0])] + FileLines(records[1..])
  }

  lemma ValueIsOnOneLine(value: Json)
    ensures OnOneLine(ValueText(value))
  {
    match value
    case Text(s) => EscapedHasNoBreak(s);
    case Number(n) => DigitsRead(if n < 0 then -n else n);
    case Flag(b) =>
  }

  lemma {:induction false} MembersAreOnOneLine(members: seq<Member>)
    requires members != []
    ensures OnOneLine(MembersText(members))
    decreases |members|
  {
    EscapedHasNoBreak(members[0].name);
    ValueIsOnOneLine(members[0].value);
    if |members| > 1 {
      MembersAreOnOneLine(members[1..]);
    }
  }

  /** A record begins and ends with a brace, on one line, so stripping leaves it as it is. */
  lemma RecordKeepsItsText(record: Fields)
    ensures OnOneLine(TextOf(record)) && Strip(TextOf(record)) == TextOf(record) && TextOf(record) != ""
  {
    if record.members != [] {
      MembersAreOnOneLine(record.members);
      MembersEnd(record.members);
    }
  }

  lemma {:induction false} MembersEnd(members: seq<Member>)
    requires members != []
    ensures MembersText(members) != "" && MembersText(members)[|MembersText(members)| - 1] == '}'
    decreases |members|
  {
    if |members| > 1 {
      MembersEnd(members[1..]);
    }
  }

  /** The file, put together from its first record on. */
  lemma {:induction false} FileFromFront(first: Fields, rest: seq<Fields>)
    ensures FileText([first] + rest) == TextOf(first) + "\n" + FileText(rest)
  {
    var all := [first] + rest;
    if rest == [] {
      assert all[..0] == [];
    } else {
      var n := |rest| - 1;
      assert all[..|all| - 1] == [first] + rest[..n];
      FileFromFront(first, rest[..n]);
      ConcatRegroup(TextOf(first) + "\n", FileText(rest[..n]), TextOf(rest[n]), "\n");
    }
  }

  /** Splitting the file on line ends gives exactly the texts of the records written, and an empty rest. */
  lemma {:induction false} FileSplits(records: seq<Fields>)
    ensures LinesOf(FileText(records)) == FileLines(records)
  {
    if records != [] {
      assert records == [records[0]] + records[1..];
      FileFromFront(records[0], records[1..]);
      FileSplits(records[1..]);
      RecordKeepsItsText(records[0]);
      FirstLine(TextOf(records[0]), FileText(records[1..]));
    }
  }

  /** The first record that cannot be encoded, or the number of records. */
  function FirstBad(records: seq<Fields>): (i: nat)
    ensures i <= |records|
    ensures i < |records| ==> !EncodableRecord(records[i].members)
    ensures forall k | 0 <= k < i :: EncodableRecord(records[k].members)
  {
    if records == [] || !EncodableRecord(records[0].members) then 0 else 1 + FirstBad(records[1..])
  }

  /** What loading comes to, record by record. */
  function LoadedFrom(records: seq<Fields>, number: nat): Result<seq<Fields>, LoadError> {
    if records == [] then Ok([])
    else if !EncodableRecord(records[0].members) then Err(InvalidJson(number))
    else
      match LoadedFrom(records[1..], number + 1)
      case Err(e) => Err(e)
      case Ok(others) => Ok([records[0]] + others)
  }

  lemma {:induction false} TextsLoad(records: seq<Fields>, number: nat)
    ensures Loaded(FileLines(records), number) == LoadedFrom(records, number)
    decreases |records|
  {
    if records == [] {
      NothingLoads(number);
    } else {
      TextsLoad(records[1..], number + 1);
      LoadOneMore(records[0], FileLines(records[1..]), number);
    }
  }

  lemma {:induction false} LoadingStopsAtFirstBad(records: seq<Fields>, number: nat)
    ensures LoadedFrom(records, number) ==
      if FirstBad(records) == |records| then Ok(records) else Err(InvalidJson(number + FirstBad(records)))
    decreases |records|
  {
    if records != [] {
      LoadingStopsAtFirstBad(records[1..], number + 1);
      assert records == [records[0]] + records[1..];
    }
  }

  lemma NothingLoads(number: nat)
    ensures Loaded([""], number) == Ok([])
  {
    assert [""][1..] == [];
  }

  lemma LoadOneMore(first: Fields, rest: seq<string>, number: nat)
    ensures Loaded([TextOf(first)] + rest, number) ==
      if !EncodableRecord(first.members) then Err(InvalidJson(number))
      else
        match Loaded(rest, number + 1)
        case Err(e) => Err(e)
        case Ok(others) => Ok([first] + others)
  {
    RecordKeepsItsText(first);
    RecordIsDecoded(first.members);
    assert ([TextOf(first)] + rest)[1..] == rest;
  }

  /** Loading the file gives back exactly the records written if none holds a control character that the
      writer leaves raw; otherwise loading fails at the line of the first one that does. */
  lemma FileRoundTrip(records: seq<Fields>)
    ensures Loaded(LinesOf(FileText(records)), 1) ==
      if forall record <- records :: EncodableRecord(record.members) then Ok(records)
      else Err(InvalidJson(1 + FirstBad(records)))
  {
    FileSplits(records);
    TextsLoad(records, 1);
    LoadingStopsAtFirstBad(records, 1);
    assert forall i | 0 <= i < |records| :: records[i] in records;
  }
}
