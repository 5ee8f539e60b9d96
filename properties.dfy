/** Properties of the loader that span several calls: the documented example
    file, and how the loader object behaves across loads and reads of
    `data`. Each method works on a freshly constructed loader, as the
    dependency-injection container builds it, and states what the caller
    observes. */
module LoaderProperties {
  import opened Wrappers
  import opened Json
  import opened Dataset
  import opened PyStrings
  import opened PyPaths
  import opened DatasetLoaderService

  // The example file: a valid record, a blank line, a record without
  // `ground_truth`, and a valid record with context (no final newline).
  // The opening brace is a separate literal so that the verifier sees each
  // line's first character without expanding the whole string.
  const Line1 := "{" + "\"query\":\"hi\",\"ground_truth\":\"hello\"}\n"
  const Line2 := "\n"
  const Line3 := "{" + "\"query\":\"bad\"}\n"
  const Line4 := "{" + "\"query\":\"temp?\",\"ground_truth\":\"72F\",\"context\":\"weather\"}"

  lemma ExampleLinesBlankness()
    ensures !IsBlank(Line1) && IsBlank(Line2) && !IsBlank(Line3) && !IsBlank(Line4)
  {
    StripEmptyIffAllSpace(Line1);
    StripEmptyIffAllSpace(Line2);
    StripEmptyIffAllSpace(Line3);
    StripEmptyIffAllSpace(Line4);
    assert !IsSpace(Line1[0]) && !IsSpace(Line3[0]) && !IsSpace(Line4[0]);
  }

  lemma ExampleNumbering()
    ensures NonBlankLines([Line1, Line2, Line3, Line4])
            == [NumberedLine(1, Line1), NumberedLine(3, Line3), NumberedLine(4, Line4)]
  {
    ExampleLinesBlankness();
    assert [Line1][..0] == [];
    assert NonBlankLines([Line1]) == [NumberedLine(1, Line1)];
    assert [Line1, Line2][..1] == [Line1];
    assert NonBlankLines([Line1, Line2]) == [NumberedLine(1, Line1)];
    assert [Line1, Line2, Line3][..2] == [Line1, Line2];
    assert NonBlankLines([Line1, Line2, Line3]) == [NumberedLine(1, Line1), NumberedLine(3, Line3)];
    assert [Line1, Line2, Line3, Line4][..3] == [Line1, Line2, Line3];
  }

  /** The example loads to exactly two records, the first without context,
      and only line 3 (counting the blank line 2) is reported. */
  lemma ExampleFileLoads(decode: Decoder)
    requires decode(Line1) == Some(JObject(map[QueryKey := JString("hi"), GroundTruthKey := JString("hello")]))
    requires decode(Line3) == Some(JObject(map[QueryKey := JString("bad")]))
    requires decode(Line4) == Some(JObject(map[QueryKey := JString("temp?"), GroundTruthKey := JString("72F"),
                                               ContextKey := JString("weather")]))
    ensures Records(decode, NonBlankLines([Line1, Line2, Line3, Line4]))
            == [DatasetModel("hi", "hello", None), DatasetModel("temp?", "72F", Some("weather"))]
    ensures Rejected(decode, NonBlankLines([Line1, Line2, Line3, Line4])) == [NumberedLine(3, Line3)]
  {
    ExampleNumbering();
    var numbered := [NumberedLine(1, Line1), NumberedLine(3, Line3), NumberedLine(4, Line4)];
    AbsentContextIsNone("hi", "hello");
    MissingGroundTruthRejected(map[QueryKey := JString("bad")]);
    ExampleWithContext();
    var first, second := NumberedLine(1, Line1), NumberedLine(3, Line3);
    assert [first][..0] == [];
    assert Records(decode, [first]) == [DatasetModel("hi", "hello", None)];
    assert Rejected(decode, [first]) == [];
    assert [first, second][..1] == [first];
    assert Records(decode, [first, second]) == [DatasetModel("hi", "hello", None)];
    assert Rejected(decode, [first, second]) == [second];
    assert numbered[..2] == [first, second];
  }

  lemma ExampleWithContext()
    ensures Validate(JObject(map[QueryKey := JString("temp?"), GroundTruthKey := JString("72F"),
                                 ContextKey := JString("weather")]))
            == Some(DatasetModel("temp?", "72F", Some("weather")))
  {
    ValidateToJson(DatasetModel("temp?", "72F", Some("weather")));
  }

  /** Loading does no I/O: a missing file surfaces only when `data` is read.
      The failed pull exhausts the stream, so the next read returns an empty
      list without looking at the file again. */
  method MissingFileSurfacesOnData(fs: FileSystem, decode: Decoder, name: string)
    returns (first: Result<seq<DatasetModel>, LoadError>, second: Result<seq<DatasetModel>, LoadError>)
    requires name != "" && FilePathOf(DefaultFolder, name) !in fs
    ensures first == Failure(FileNotFound(FilePathOf(DefaultFolder, name)))
    ensures second == Success([])
  {
    var loader := new DatasetLoader.Default();
    var counter := new LoadedCounter();
    var _ := loader.LoadFromLocalJsonlFile(Some(name));
    first := loader.Data(fs, decode, counter);
    second := loader.Data(fs, decode, counter);
  }

  /** Once `data` holds records it is returned as it is: loading another file
      replaces the pending stream but not the materialised list. */
  method CachedDataSurvivesReload(fs: FileSystem, decode: Decoder, name: string, other: string)
    returns (first: Result<seq<DatasetModel>, LoadError>, second: Result<seq<DatasetModel>, LoadError>)
    requires name != "" && other != ""
    requires FilePathOf(DefaultFolder, name) in fs && fs[FilePathOf(DefaultFolder, name)].readError.None?
    requires LoadRecords(decode, fs[FilePathOf(DefaultFolder, name)].lines) != []
    ensures first == Success(LoadRecords(decode, fs[FilePathOf(DefaultFolder, name)].lines))
    ensures second == first
  {
    ComposedLoadIsLineByLine(decode, fs[FilePathOf(DefaultFolder, name)].lines);
    var loader := new DatasetLoader.Default();
    var counter := new LoadedCounter();
    var _ := loader.LoadFromLocalJsonlFile(Some(name));
    first := loader.Data(fs, decode, counter);
    var _ := loader.LoadFromLocalJsonlFile(Some(other));
    second := loader.Data(fs, decode, counter);
  }

  /** A file with no valid record leaves `data` empty, so the next read
      drains again; but the stream is exhausted, so it yields nothing even if
      the file has gained records in the meantime. */
  method ExhaustedStreamNotReread(fs: FileSystem, later: FileSystem, decode: Decoder, name: string)
    returns (first: Result<seq<DatasetModel>, LoadError>, second: Result<seq<DatasetModel>, LoadError>)
    requires name != ""
    requires FilePathOf(DefaultFolder, name) in fs && fs[FilePathOf(DefaultFolder, name)].readError.None?
    requires LoadRecords(decode, fs[FilePathOf(DefaultFolder, name)].lines) == []
    ensures first == Success([]) && second == Success([])
  {
    ComposedLoadIsLineByLine(decode, fs[FilePathOf(DefaultFolder, name)].lines);
    var loader := new DatasetLoader.Default();
    var counter := new LoadedCounter();
    var _ := loader.LoadFromLocalJsonlFile(Some(name));
    first := loader.Data(fs, decode, counter);
    second := loader.Data(later, decode, counter);
  }

  /** Reading `data` after a load bumps the counter once per record it
      materialises; a read error after some records still counts those. */
  method CounterCountsRecords(fs: FileSystem, decode: Decoder, name: string)
    returns (result: Result<seq<DatasetModel>, LoadError>, loaded: nat)
    requires name != "" && FilePathOf(DefaultFolder, name) in fs
    ensures loaded == |LoadRecords(decode, fs[FilePathOf(DefaultFolder, name)].lines)|
    ensures result.Success? <==> fs[FilePathOf(DefaultFolder, name)].readError.None?
    ensures result.Success? ==> result.value == LoadRecords(decode, fs[FilePathOf(DefaultFolder, name)].lines)
  {
    ComposedLoadIsLineByLine(decode, fs[FilePathOf(DefaultFolder, name)].lines);
    var loader := new DatasetLoader.Default();
    var counter := new LoadedCounter();
    var _ := loader.LoadFromLocalJsonlFile(Some(name));
    result := loader.Data(fs, decode, counter);
    loaded := counter.total;
  }

  /** For a file that is already present, the remote load gives the same
      `data` as the local load. */
  method RemoteLoadOfPresentFile(fs: FileSystem, decode: Decoder, name: string)
    returns (remote: Result<seq<DatasetModel>, LoadError>, local: Result<seq<DatasetModel>, LoadError>)
    requires name != "" && FilePathOf(DefaultFolder, name) in fs
    ensures remote == local
  {
    var remoteLoader := new DatasetLoader.Default();
    var counter := new LoadedCounter();
    var loaded := remoteLoader.LoadFromRemoteJsonlFile(fs, Some(name));
    remote := remoteLoader.Data(fs, decode, counter);
    var localLoader := new DatasetLoader.Default();
    var _ := localLoader.LoadFromLocalJsonlFile(Some(name));
    local := localLoader.Data(fs, decode, counter);
  }

  /** For a missing file the remote load fails with the download's error,
      after recording the new file name, and `data` stays empty. */
  method RemoteLoadOfMissingFile(fs: FileSystem, decode: Decoder, name: string)
    returns (error: Option<LoadError>, fileName: string, data: Result<seq<DatasetModel>, LoadError>)
    requires name != "" && FilePathOf(DefaultFolder, name) !in fs
    ensures error == Some(NotImplemented(DownloadUnsupported))
    ensures fileName == name
    ensures data == Success([])
  {
    var loader := new DatasetLoader.Default();
    var counter := new LoadedCounter();
    var loaded := loader.LoadFromRemoteJsonlFile(fs, Some(name));
    error := if loaded.Failure? then Some(loaded.error) else None;
    fileName := loader.fileName;
    data := loader.Data(fs, decode, counter);
  }
}
