/** The JSONL dataset loader: it reads a file of one JSON record per line,
    skips blank lines, validates each remaining line as a `DatasetModel`,
    drops (and logs) the lines that fail validation, and keeps the valid
    records in file order. The loader object holds the configured file, the
    pending stream of records and the list materialised from it.

    Files are values of a `FileSystem` map; a path missing from the map is a
    missing file. The record streams the source produces lazily are modelled
    by what one complete pull of them yields (`Run`). */
module DatasetLoaderService {
  import opened Wrappers
  import opened Json
  import opened Dataset
  import opened PyStrings
  import opened PyPaths

  const DefaultFolder := "./data/input"
  const DefaultFileName := ""
  const DownloadUnsupported := "Azure Blob Storage functionality is not implemented yet."

  /** A text file as iterating over it hands it out: its physical lines (each
      still ending in its line terminator), and possibly an error raised when
      reading past them (a decoding or other I/O error; for a path that names
      a directory it is raised before any line). */
  datatype FileContent = FileContent(lines: seq<string>, readError: Option<string>)

  type FileSystem = map<PurePath, FileContent>

  /** The exceptions that leave the loader. */
  datatype LoadError =
    | FileNotFound(path: PurePath)
    | ReadFailed(path: PurePath, message: string)
    | NotImplemented(message: string)

  /** How a pull of a record stream ends: exhausted normally, or by raising. */
  datatype Outcome = Completed | Raised(error: LoadError)

  /** A line handed on by `read_from_jsonl_file`, with its 1-based physical
      line number. */
  datatype NumberedLine = NumberedLine(number: nat, text: string)

  /** Everything one complete pull of a record stream produces: the records
      yielded (in order), the lines reported as validation errors in the log,
      and how the pull ended. */
  datatype Run = Run(records: seq<DatasetModel>, rejected: seq<NumberedLine>, outcome: Outcome)

  /** The `file_path` property: `Path(os.path.join(folder, file_name))`. */
  function FilePathOf(folder: string, fileName: string): (p: PurePath)
    ensures p == if IsAbsolute(fileName) then ParsePath(fileName)
                 else PurePath(Root(folder), Parts(folder) + Parts(fileName))
  {
    JoinedPath(folder, fileName);
    ParsePath(Join(folder, fileName))
  }

  lemma InputFolderParts()
    ensures Parts("data" + "/" + "input") == ["data", "input"]
  {
    PartsAtSeparator("data", "input");
    PartsOfPlainName("data");
    PartsOfPlainName("input");
  }

  lemma DefaultFolderParts()
    ensures Root(DefaultFolder) == "" && Parts(DefaultFolder) == ["data", "input"]
  {
    var inner := "data" + "/" + "input";
    assert DefaultFolder == "." + "/" + inner;
    PartsAtSeparator(".", inner);
    PartsOfPlainName(".");
    InputFolderParts();
  }

  /** With the default folder, a file name without separators resolves to
      the components "data", "input" and the name itself (an empty name adds
      nothing), relative to the working directory. */
  lemma DefaultFolderPath(name: string)
    requires forall c | c in name :: c != '/'
    ensures FilePathOf(DefaultFolder, name) ==
              PurePath("", ["data", "input"] + if name == "" || name == "." then [] else [name])
  {
    DefaultFolderParts();
    PartsOfPlainName(name);
    assert !IsAbsolute(name) by {
      if name != [] { assert name[0] in name; }
    }
  }

  /** `not line.strip()`. */
  predicate IsBlank(line: string)
  {
    Strip(line) == ""
  }

  /** What `read_from_jsonl_file` yields for a file with these lines: every
      line that is not blank, numbered from 1 by physical position. */
  function NonBlankLines(lines: seq<string>): seq<NumberedLine>
  {
    if lines == [] then []
    else
      var last := lines[|lines| - 1];
      var prefix := NonBlankLines(lines[..|lines| - 1]);
      prefix + (if IsBlank(last) then [] else [NumberedLine(|lines|, last)])
  }

  /** `try_parse_json`: parse and validate one line; any failure becomes
      `None` instead of an exception. */
  function TryParseJson(decode: Decoder, jsonString: string): Option<DatasetModel>
  {
    match decode(jsonString)
    case None => None
    case Some(v) => Validate(v)
  }

  /** A line gives a record exactly when it is JSON that conforms to the
      schema, and the record carries the line's field values. */
  lemma TryParseJsonSucceedsIffConforms(decode: Decoder, jsonString: string)
    ensures TryParseJson(decode, jsonString).Some? <==>
              decode(jsonString).Some? && Conforms(decode(jsonString).value)
  {
    if decode(jsonString).Some? {
      ValidateAcceptsIffConforms(decode(jsonString).value);
    }
  }

  /** The records obtained from numbered lines, in order, skipping the lines
      that fail validation. */
  function Records(decode: Decoder, numbered: seq<NumberedLine>): seq<DatasetModel>
  {
    if numbered == [] then []
    else
      var last := numbered[|numbered| - 1];
      Records(decode, numbered[..|numbered| - 1])
        + match TryParseJson(decode, last.text) { case Some(m) => [m] case None => [] }
  }

  /** The numbered lines that fail validation, in order: the lines
      `try_parse_json` reports in the log. */
  function Rejected(decode: Decoder, numbered: seq<NumberedLine>): seq<NumberedLine>
  {
    if numbered == [] then []
    else
      var last := numbered[|numbered| - 1];
      Rejected(decode, numbered[..|numbered| - 1])
        + if TryParseJson(decode, last.text).None? then [last] else []
  }

  /** The records a file's lines load to, stated line by line: each physical
      line contributes its own record, or nothing when it is blank or does
      not validate. */
  function LoadRecords(decode: Decoder, lines: seq<string>): seq<DatasetModel>
  {
    if lines == [] then []
    else LineRecords(decode, lines[0]) + LoadRecords(decode, lines[1..])
  }

  /** The records one physical line contributes. */
  function LineRecords(decode: Decoder, line: string): seq<DatasetModel>
  {
    if IsBlank(line) then []
    else match TryParseJson(decode, line) { case Some(m) => [m] case None => [] }
  }

  /** How reading a present file ends. */
  function EndOfFile(path: PurePath, file: FileContent): Outcome
  {
    match file.readError
    case None => Completed
    case Some(message) => Raised(ReadFailed(path, message))
  }

  /** One complete pull of `load_from_jsonl_file(path)`: a missing file raises
      before anything is yielded; otherwise the valid records of the lines
      read come out, and a read error is re-raised after them. */
  function LoadRun(fs: FileSystem, decode: Decoder, path: PurePath): Run
  {
    if path !in fs then Run([], [], Raised(FileNotFound(path)))
    else
      var numbered := NonBlankLines(fs[path].lines);
      Run(Records(decode, numbered), Rejected(decode, numbered), EndOfFile(path, fs[path]))
  }

  // ---------------------------------------------------------------------
  // Properties of the line filter

  /** Each line handed on is a non-blank line of the file, under its own
      physical line number, and the numbers strictly increase. */
  lemma {:induction false} NonBlankLinesSound(lines: seq<string>)
    ensures |NonBlankLines(lines)| <= |lines|
    ensures forall k | 0 <= k < |NonBlankLines(lines)| ::
              var e := NonBlankLines(lines)[k];
              1 <= e.number <= |lines| && lines[e.number - 1] == e.text && !IsBlank(e.text)
    ensures forall j, k | 0 <= j < k < |NonBlankLines(lines)| ::
              NonBlankLines(lines)[j].number < NonBlankLines(lines)[k].number
  {
    if lines != [] {
      var init := lines[..|lines| - 1];
      NonBlankLinesSound(init);
      forall k | 0 <= k < |NonBlankLines(init)|
        ensures lines[NonBlankLines(init)[k].number - 1] == NonBlankLines(init)[k].text
      {
        assert init[NonBlankLines(init)[k].number - 1] == NonBlankLines(init)[k].text;
      }
    }
  }

  /** Every non-blank line is handed on, with its physical line number. */
  lemma {:induction false} NonBlankLinesComplete(lines: seq<string>, i: nat)
    requires i < |lines| && !IsBlank(lines[i])
    ensures NumberedLine(i + 1, lines[i]) in NonBlankLines(lines)
    decreases |lines|
  {
    var prefix := lines[..|lines| - 1];
    if i < |lines| - 1 {
      assert prefix[i] == lines[i];
      NonBlankLinesComplete(prefix, i);
    }
  }

  /** Whitespace-only lines are never handed on. */
  lemma BlankLinesSkipped(lines: seq<string>, i: nat)
    requires i < |lines| && AllSpace(lines[i])
    ensures forall k | 0 <= k < |NonBlankLines(lines)| :: NonBlankLines(lines)[k].number != i + 1
  {
    StripEmptyIffAllSpace(lines[i]);
    NonBlankLinesSound(lines);
  }

  // ---------------------------------------------------------------------
  // Properties of parse-or-skip

  lemma {:induction false} RecordsConcat(decode: Decoder, xs: seq<NumberedLine>, ys: seq<NumberedLine>)
    ensures Records(decode, xs + ys) == Records(decode, xs) + Records(decode, ys)
    ensures Rejected(decode, xs + ys) == Rejected(decode, xs) + Rejected(decode, ys)
    decreases |ys|
  {
    if ys == [] {
      assert xs + ys == xs;
    } else {
      var init := ys[..|ys| - 1];
      assert (xs + ys)[..|xs + ys| - 1] == xs + init;
      assert (xs + ys)[|xs + ys| - 1] == ys[|ys| - 1];
      RecordsConcat(decode, xs, init);
    }
  }

  /** Each line either yields a record or is reported, never both. */
  lemma {:induction false} RecordsPlusRejected(decode: Decoder, numbered: seq<NumberedLine>)
    ensures |Records(decode, numbered)| + |Rejected(decode, numbered)| == |numbered|
  {
    if numbered != [] {
      RecordsPlusRejected(decode, numbered[..|numbered| - 1]);
    }
  }

  /** Every line that fails validation is reported. */
  lemma {:induction false} RejectedComplete(decode: Decoder, numbered: seq<NumberedLine>, k: nat)
    requires k < |numbered| && TryParseJson(decode, numbered[k].text).None?
    ensures numbered[k] in Rejected(decode, numbered)
  {
    if k < |numbered| - 1 {
      var init := numbered[..|numbered| - 1];
      assert init[k] == numbered[k];
      RejectedComplete(decode, init, k);
    }
  }

  /** Only yielded lines that fail validation are logged: a valid line never
      appears in the log. */
  lemma {:induction false} RejectedSound(decode: Decoder, numbered: seq<NumberedLine>)
    ensures forall e | e in Rejected(decode, numbered) :: e in numbered && TryParseJson(decode, e.text).None?
  {
    if numbered != [] {
      var init := numbered[..|numbered| - 1];
      RejectedSound(decode, init);
      assert forall e | e in init :: e in numbered;
    }
  }

  /** When every line validates, one record per line comes out, each the
      validated content of its line, in order. */
  lemma {:induction false} AllValidLinesLoaded(decode: Decoder, numbered: seq<NumberedLine>)
    requires forall k | 0 <= k < |numbered| :: TryParseJson(decode, numbered[k].text).Some?
    ensures |Records(decode, numbered)| == |numbered|
    ensures forall k | 0 <= k < |numbered| ::
              Records(decode, numbered)[k] == TryParseJson(decode, numbered[k].text).value
  {
    if numbered != [] {
      AllValidLinesLoaded(decode, numbered[..|numbered| - 1]);
    }
  }

  /** Reading then parsing, as the generators compose them, loads exactly
      what the line-by-line statement says. */
  lemma {:induction false} ComposedLoadIsLineByLine(decode: Decoder, lines: seq<string>)
    ensures Records(decode, NonBlankLines(lines)) == LoadRecords(decode, lines)
  {
    if lines != [] {
      var init, last := lines[..|lines| - 1], lines[|lines| - 1];
      ComposedLoadIsLineByLine(decode, init);
      var tail := if IsBlank(last) then [] else [NumberedLine(|lines|, last)];
      RecordsConcat(decode, NonBlankLines(init), tail);
      assert init + [last] == lines;
      LoadRecordsAppend(decode, init, last);
    }
  }

  /** Loading distributes over splitting the file: each line's contribution
      depends on that line alone. */
  lemma {:induction false} LoadRecordsConcat(decode: Decoder, a: seq<string>, b: seq<string>)
    ensures LoadRecords(decode, a + b) == LoadRecords(decode, a) + LoadRecords(decode, b)
  {
    if a == [] {
      assert a + b == b;
    } else {
      assert (a + b)[0] == a[0];
      assert (a + b)[1..] == a[1..] + b;
      LoadRecordsConcat(decode, a[1..], b);
    }
  }

  lemma LoadRecordsAppend(decode: Decoder, lines: seq<string>, line: string)
    ensures LoadRecords(decode, lines + [line]) == LoadRecords(decode, lines) + LineRecords(decode, line)
  {
    LoadRecordsConcat(decode, lines, [line]);
    assert [line][1..] == [];
  }

  /** A malformed (or blank) line drops only itself: the other lines load as
      if it were not there. */
  lemma MalformedLineDropsOnlyItself(decode: Decoder, before: seq<string>, line: string, after: seq<string>)
    requires IsBlank(line) || TryParseJson(decode, line).None?
    ensures LoadRecords(decode, before + [line] + after) == LoadRecords(decode, before + after)
  {
    LoadRecordsConcat(decode, before + [line], after);
    LoadRecordsAppend(decode, before, line);
    LoadRecordsConcat(decode, before, after);
  }

  /** The JSON parser is never called on a blank line: two parsers that agree
      on the non-blank lines give the same records and the same log. */
  lemma {:induction false} BlankLinesNeverParsed(d1: Decoder, d2: Decoder, lines: seq<string>)
    requires forall line | line in lines && !IsBlank(line) :: d1(line) == d2(line)
    ensures Records(d1, NonBlankLines(lines)) == Records(d2, NonBlankLines(lines))
    ensures Rejected(d1, NonBlankLines(lines)) == Rejected(d2, NonBlankLines(lines))
  {
    var numbered := NonBlankLines(lines);
    NonBlankLinesSound(lines);
    forall k | 0 <= k < |numbered| ensures d1(numbered[k].text) == d2(numbered[k].text) {
      assert numbered[k].text == lines[numbered[k].number - 1];
    }
    ParsersAgree(d1, d2, numbered);
  }

  lemma {:induction false} ParsersAgree(d1: Decoder, d2: Decoder, numbered: seq<NumberedLine>)
    requires forall k | 0 <= k < |numbered| :: d1(numbered[k].text) == d2(numbered[k].text)
    ensures Records(d1, numbered) == Records(d2, numbered)
    ensures Rejected(d1, numbered) == Rejected(d2, numbered)
  {
    if numbered != [] {
      var init := numbered[..|numbered| - 1];
      assert forall k | 0 <= k < |init| :: init[k] == numbered[k];
      ParsersAgree(d1, d2, init);
    }
  }

  lemma SplitAround(lines: seq<string>, i: nat)
    requires i < |lines|
    ensures lines == (lines[..i] + [lines[i]]) + lines[i + 1..]
  {
    assert lines[i..] == [lines[i]] + lines[i + 1..];
    assert lines == lines[..i] + lines[i..];
  }

  /** A non-blank line of the file that validates yields its record, so
      nothing valid is lost. */
  lemma ValidLineLoaded(decode: Decoder, lines: seq<string>, i: nat)
    requires i < |lines| && !IsBlank(lines[i]) && TryParseJson(decode, lines[i]).Some?
    ensures TryParseJson(decode, lines[i]).value in LoadRecords(decode, lines)
  {
    var line := lines[i];
    var m := TryParseJson(decode, line).value;
    assert LineRecords(decode, line) == [m];
    var before, after := lines[..i], lines[i + 1..];
    SplitAround(lines, i);
    LoadRecordsConcat(decode, before + [line], after);
    LoadRecordsAppend(decode, before, line);
    assert LoadRecords(decode, lines) == LoadRecords(decode, before) + [m] + LoadRecords(decode, after);
  }

  // ---------------------------------------------------------------------
  // The generator loops

  /** `read_from_jsonl_file`: open the file and hand on its non-blank lines
      with their physical line numbers. */
  method ReadFromJsonlFile(fs: FileSystem, path: PurePath) returns (numbered: seq<NumberedLine>, outcome: Outcome)
    ensures path !in fs ==> numbered == [] && outcome == Raised(FileNotFound(path))
    ensures path in fs ==> numbered == NonBlankLines(fs[path].lines) && outcome == EndOfFile(path, fs[path])
  {
    if path !in fs {
      return [], Raised(FileNotFound(path));
    }
    var file := fs[path];
    numbered := [];
    var idx := 0;
    while idx < |file.lines|
      invariant idx <= |file.lines|
      invariant numbered == NonBlankLines(file.lines[..idx])
    {
      var line := file.lines[idx];
      idx := idx + 1;
      if Strip(line) != "" {
        numbered := numbered + [NumberedLine(idx, line)];
      }
      assert file.lines[..idx][..idx - 1] == file.lines[..idx - 1];
    }
    assert file.lines[..idx] == file.lines;
    outcome := EndOfFile(path, file);
  }

  /** The process-wide "dataset.loaded" counter. */
  class LoadedCounter {
    var total: nat

    constructor ()
      ensures total == 0
    {
      total := 0;
    }

    method Add(n: nat)
      modifies this
      ensures total == old(total) + n
    {
      total := total + n;
    }
  }

  /** `load_from_jsonl_file`: yield the records of the valid lines, bumping
      the counter once per record; a missing file or a read error is
      re-raised, never turned into a skip. */
  method LoadFromJsonlFile(fs: FileSystem, decode: Decoder, path: PurePath, counter: LoadedCounter) returns (run: Run)
    modifies counter
    ensures run == LoadRun(fs, decode, path)
    ensures counter.total == old(counter.total) + |run.records|
  {
    var numbered, readOutcome := ReadFromJsonlFile(fs, path);
    var records: seq<DatasetModel> := [];
    var rejected: seq<NumberedLine> := [];
    var k := 0;
    while k < |numbered|
      invariant k <= |numbered|
      invariant records == Records(decode, numbered[..k])
      invariant rejected == Rejected(decode, numbered[..k])
      invariant counter.total == old(counter.total) + |records|
    {
      var entry := numbered[k];
      var dataset := TryParseJson(decode, entry.text);
      if dataset.Some? {
        counter.Add(1);
        records := records + [dataset.value];
      } else {
        rejected := rejected + [entry];
      }
      k := k + 1;
      assert numbered[..k][..k - 1] == numbered[..k - 1];
    }
    assert numbered[..k] == numbered;
    run := Run(records, rejected, readOutcome);
  }

  /** What `_items` holds: the empty list a new loader starts with, or a
      `load_from_jsonl_file` generator, which a pull exhausts. */
  class RecordStream {
    const source: Option<PurePath>
    var exhausted: bool

    constructor EmptyList()
      ensures source == None && !exhausted
    {
      source := None;
      exhausted := false;
    }

    constructor Generator(path: PurePath)
      ensures source == Some(path) && !exhausted
    {
      source := Some(path);
      exhausted := false;
    }

    /** What pulling the whole stream now would produce. */
    function Pending(fs: FileSystem, decode: Decoder): Run
      reads this
    {
      if source.None? || exhausted then Run([], [], Completed)
      else LoadRun(fs, decode, source.value)
    }

    /** `list(stream)`: pull everything. A generator reads its file only now,
      and is exhausted afterwards, whether it completed or raised. */
    method Drain(fs: FileSystem, decode: Decoder, counter: LoadedCounter) returns (run: Run)
      modifies this, counter
      ensures run == old(Pending(fs, decode))
      ensures exhausted == (old(exhausted) || source.Some?)
      ensures counter.total == old(counter.total) + |run.records|
    {
      if source.None? || exhausted {
        return Run([], [], Completed);
      }
      exhausted := true;
      run := LoadFromJsonlFile(fs, decode, source.value, counter);
    }
  }

  /** The `DatasetLoader` dataclass. */
  class DatasetLoader {
    var fileName: string
    var folder: string
    var items: RecordStream
    var data: seq<DatasetModel>

    /** The dataclass constructor. */
    constructor (fileName: string, folder: string)
      ensures this.fileName == fileName && this.folder == folder
      ensures fresh(items) && items.source == None && !items.exhausted
      ensures data == []
    {
      this.fileName := fileName;
      this.folder := folder;
      items := new RecordStream.EmptyList();
      data := [];
    }

    /** `DatasetLoader()` with every field at its default. */
    constructor Default()
      ensures fileName == DefaultFileName && folder == DefaultFolder
      ensures fresh(items) && items.source == None && !items.exhausted
      ensures data == []
    {
      fileName := DefaultFileName;
      folder := DefaultFolder;
      items := new RecordStream.EmptyList();
      data := [];
    }

    function FilePath(): PurePath
      reads this
    {
      FilePathOf(folder, fileName)
    }

    /** The `data` property: while the materialised list is empty, drain
      `_items` into it; once it is non-empty, return it untouched. An
      exception from the drain leaves the list as it was. */
    method Data(fs: FileSystem, decode: Decoder, counter: LoadedCounter) returns (r: Result<seq<DatasetModel>, LoadError>)
      modifies this, items, counter
      ensures fileName == old(fileName) && folder == old(folder) && items == old(items)
      ensures old(data) != [] ==>
                r == Success(old(data)) && data == old(data) && unchanged(items) && counter.total == old(counter.total)
      ensures old(data) == [] ==>
                var run := old(items.Pending(fs, decode));
                && items.exhausted == (old(items.exhausted) || items.source.Some?)
                && counter.total == old(counter.total) + |run.records|
                && (run.outcome.Completed? ==> r == Success(run.records) && data == run.records)
                && (run.outcome.Raised? ==> r == Failure(run.outcome.error) && data == [])
    {
      if data == [] {
        var run := items.Drain(fs, decode, counter);
        if run.outcome.Raised? {
          return Failure(run.outcome.error);
        }
        data := run.records;
      }
      r := Success(data);
    }

    /** `load_from_local_jsonl_file`: a non-empty name replaces the configured
      one; a new (not yet started) stream over the resulting path is stored
      as `_items` and returned. The materialised list is not touched. */
    method LoadFromLocalJsonlFile(fileName: Option<string>) returns (stream: RecordStream)
      modifies this
      ensures this.fileName == if fileName.Some? && fileName.value != "" then fileName.value else old(this.fileName)
      ensures folder == old(folder) && data == old(data)
      ensures fresh(stream) && items == stream
      ensures stream.source == Some(FilePathOf(folder, this.fileName)) && !stream.exhausted
    {
      if fileName.Some? && fileName.value != "" {
        this.fileName := fileName.value;
      }
      stream := new RecordStream.Generator(FilePath());
      items := stream;
    }

    /** `download_jsonl_file`: not implemented; it always raises. */
    method DownloadJsonlFile(fileName: Option<string>) returns (outcome: Outcome)
      ensures outcome == Raised(NotImplemented(DownloadUnsupported))
    {
      outcome := Raised(NotImplemented(DownloadUnsupported));
    }

    /** `load_from_remote_jsonl_file`: after the optional rename, a file that
      is already present is loaded exactly as the local load does; otherwise
      the download is attempted, and it raises. */
    method LoadFromRemoteJsonlFile(fs: FileSystem, fileName: Option<string>) returns (r: Result<RecordStream, LoadError>)
      modifies this
      ensures this.fileName == if fileName.Some? && fileName.value != "" then fileName.value else old(this.fileName)
      ensures folder == old(folder) && data == old(data)
      ensures r.Success? <==> FilePathOf(folder, this.fileName) in fs
      ensures r.Success? ==>
                fresh(r.value) && items == r.value
                && r.value.source == Some(FilePathOf(folder, this.fileName)) && !r.value.exhausted
      ensures r.Failure? ==> r.error == NotImplemented(DownloadUnsupported) && items == old(items)
    {
      if fileName.Some? && fileName.value != "" {
        this.fileName := fileName.value;
      }
      if FilePath() !in fs {
        var outcome := DownloadJsonlFile(None);
        return Failure(outcome.error);
      }
      var stream := LoadFromLocalJsonlFile(None);
      r := Success(stream);
    }
  }
}
