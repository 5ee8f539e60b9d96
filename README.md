# JSONL dataset loader — a verified model

This project models the dataset loader of the prompt runner. The loader
reads a JSONL file (one JSON record per line) from a configured folder and
file name. It skips the blank lines and validates every other line as a
`DatasetModel` record: a required `query` string, a required `ground_truth`
string and an optional `context` string. Lines that fail validation are
logged and dropped. The valid records come out in file order, and a
"dataset.loaded" counter goes up once per record. A missing file or any
other read error is re-raised. The loader object holds the file name, the
folder, the pending record stream (`_items`) and the materialised list
(`_data`). The `data` property fills that list from the stream only while
the list is empty.

Modules:

- `Wrappers`: `Option` and `Result`.
- `Json`: decoded JSON values, and the `Decoder` type of the JSON text parser.
- `Dataset`: the record schema, and validation of a decoded JSON value against it.
- `PyStrings`: Python's `str.strip()`.
- `PyPaths`: `os.path.join` and `pathlib.Path` parsing on POSIX.
- `DatasetLoaderService`: the loader.
  - Specification functions over a file's lines (`NonBlankLines`, `Records`, `Rejected`, `LoadRecords`, `LoadRun`) and lemmas about them.
  - The two generator loops as methods proved against those functions.
  - The classes `LoadedCounter`, `RecordStream` and `DatasetLoader`.
- `LoaderProperties`: a worked example file, and scenarios that call the loader object several times.

External effects are parameters:

- The file system is a map from parsed paths to file contents. A path missing from the map is a missing file. A file's contents are its physical lines plus an optional error raised after the last line.
- The JSON text parser is a `Decoder` function passed in by the caller.

Where the code and its documentation differ, the model follows the code:

- `query` may be the empty string. The schema has no minimum length.
- Loading another file does not clear the cached `_data`. Once `_data` is non-empty, `data` keeps returning it.
- A stream that has been pulled once is exhausted. When `_data` is still empty, reading `data` again yields `[]` and does not re-read the file.

## Model

| member | source | states |
|---|---|---|
| Dataset.RequiredString | python/a2a-prompt-runner-py/src/a2a_prompt_runner/models/dataset.py:7-9 | computes a required `str` field: the string when the key is present and holds a JSON string, otherwise a validation failure (no coercion) |
| Dataset.OptionalString | python/a2a-prompt-runner-py/src/a2a_prompt_runner/models/dataset.py:11 | computes `Optional[str] = None`: None when the key is absent or null, the string for a JSON string, a validation failure for anything else |
| Dataset.Validate | python/a2a-prompt-runner-py/src/a2a_prompt_runner/models/dataset.py:6-11 | an accepted value is a JSON object whose `query` and `ground_truth` are the record's strings; `context` is None exactly when the key is absent or null, otherwise the key holds that string |
| Dataset.Conforms | python/a2a-prompt-runner-py/src/a2a_prompt_runner/models/dataset.py:6-11 | the schema stated declaratively: an object with string `query`, string `ground_truth`, and a `context` that is absent, null or a string; the independent partner of `Validate` |
| Dataset.ToJson | python/a2a-prompt-runner-py/src/a2a_prompt_runner/models/dataset.py:6-11 | computes the JSON object `model_dump_json` writes for a record, with an absent context written as null; the inverse partner of `Validate` |
| Dataset.ValidateAcceptsIffConforms | python/a2a-prompt-runner-py/src/a2a_prompt_runner/models/dataset.py:6-11 | validation succeeds if and only if the value is an object with string `query`, string `ground_truth`, and a `context` that is absent, null or a string |
| Dataset.MissingQueryRejected | python/a2a-prompt-runner-py/src/a2a_prompt_runner/models/dataset.py:7 | a record without `query`, or whose `query` is not a string, is rejected |
| Dataset.MissingGroundTruthRejected | python/a2a-prompt-runner-py/src/a2a_prompt_runner/models/dataset.py:9 | a record without `ground_truth`, or whose `ground_truth` is not a string, is rejected |
| Dataset.AbsentContextIsNone | python/a2a-prompt-runner-py/src/a2a_prompt_runner/models/dataset.py:11 | an absent `context` is accepted as None, while `"context": ""` gives Some("") |
| Dataset.ValidateToJson | python/a2a-prompt-runner-py/src/a2a_prompt_runner/models/dataset.py:6-11 | validating the dump of a record gives back the same record (values carried unchanged) |
| Dataset.ExtraKeysIgnored | python/a2a-prompt-runner-py/src/a2a_prompt_runner/models/dataset.py:6 | adding a key outside the schema never changes the result of validation |
| PyStrings.IsSpace | python/a2a-prompt-runner-py/src/a2a_prompt_runner/services/dataset_loader/service.py:78 | the characters `str.isspace` accepts, listed one by one |
| PyStrings.LStrip | python/a2a-prompt-runner-py/src/a2a_prompt_runner/services/dataset_loader/service.py:78 | computes `s.lstrip()`: drops leading whitespace one character at a time |
| PyStrings.RStrip | python/a2a-prompt-runner-py/src/a2a_prompt_runner/services/dataset_loader/service.py:78 | computes `s.rstrip()`: drops trailing whitespace one character at a time |
| PyStrings.Strip | python/a2a-prompt-runner-py/src/a2a_prompt_runner/services/dataset_loader/service.py:78 | computes `line.strip()` as `rstrip` after `lstrip`; characterised by the three lemmas below |
| PyStrings.LStripDropsLeadingSpace | python/a2a-prompt-runner-py/src/a2a_prompt_runner/services/dataset_loader/service.py:78 | `lstrip` keeps a suffix that does not start with whitespace, and what it drops is all whitespace |
| PyStrings.RStripDropsTrailingSpace | python/a2a-prompt-runner-py/src/a2a_prompt_runner/services/dataset_loader/service.py:78 | `rstrip` keeps a prefix that does not end with whitespace, and what it drops is all whitespace |
| PyStrings.StripEmptyIffAllSpace | python/a2a-prompt-runner-py/src/a2a_prompt_runner/services/dataset_loader/service.py:78 | `line.strip()` is empty if and only if every character of the line is whitespace |
| PyPaths.Join | python/a2a-prompt-runner-py/src/a2a_prompt_runner/services/dataset_loader/service.py:56 | computes `os.path.join(folder, file_name)` on POSIX: an absolute name replaces the folder, otherwise the name is appended after one separator unless the folder is empty or already ends with one |
| PyPaths.Split | python/a2a-prompt-runner-py/src/a2a_prompt_runner/services/dataset_loader/service.py:56 | computes `s.split("/")`, which always has at least one piece |
| PyPaths.Keep | python/a2a-prompt-runner-py/src/a2a_prompt_runner/services/dataset_loader/service.py:56 | keeps the components pathlib keeps: every piece that is neither empty nor "."; the kept pieces are among the input pieces and no more numerous |
| PyPaths.Parts | python/a2a-prompt-runner-py/src/a2a_prompt_runner/services/dataset_loader/service.py:56 | computes the components of `Path(s)` |
| PyPaths.Root | python/a2a-prompt-runner-py/src/a2a_prompt_runner/services/dataset_loader/service.py:56 | computes the root of `Path(s)`: "" for a relative path, "//" for exactly two leading slashes, "/" otherwise |
| PyPaths.ParsePath | python/a2a-prompt-runner-py/src/a2a_prompt_runner/services/dataset_loader/service.py:56 | computes `Path(s)` as its root and components; two strings with equal results name the same file |
| PyPaths.SplitAtSeparator | python/a2a-prompt-runner-py/src/a2a_prompt_runner/services/dataset_loader/service.py:56 | splitting `a/b` on the separator gives the pieces of `a` followed by the pieces of `b` |
| PyPaths.KeepConcat | python/a2a-prompt-runner-py/src/a2a_prompt_runner/services/dataset_loader/service.py:56 | dropping empty and "." components distributes over concatenation |
| PyPaths.PartsAtSeparator | python/a2a-prompt-runner-py/src/a2a_prompt_runner/services/dataset_loader/service.py:56 | the components of `a/b` are those of `a` followed by those of `b` |
| PyPaths.RootOfExtension | python/a2a-prompt-runner-py/src/a2a_prompt_runner/services/dataset_loader/service.py:56 | appending to a non-empty path keeps its root, unless an absolute piece follows a trailing separator |
| PyPaths.PartsTrailingSeparator | python/a2a-prompt-runner-py/src/a2a_prompt_runner/services/dataset_loader/service.py:56 | a trailing separator adds no component |
| PyPaths.JoinedPath | python/a2a-prompt-runner-py/src/a2a_prompt_runner/services/dataset_loader/service.py:56 | `Path(os.path.join(folder, name))` is `Path(name)` for an absolute name, otherwise the folder's root with the folder's components followed by the name's |
| PyPaths.SplitPlainName | python/a2a-prompt-runner-py/src/a2a_prompt_runner/services/dataset_loader/service.py:56 | a name without separators splits into itself |
| PyPaths.PartsOfPlainName | python/a2a-prompt-runner-py/src/a2a_prompt_runner/services/dataset_loader/service.py:56 | a name without separators is one component, or none when it is "" or "." |
| DatasetLoaderService.FilePathOf | python/a2a-prompt-runner-py/src/a2a_prompt_runner/services/dataset_loader/service.py:53-56 | `file_path` is the path named by joining `folder` and `file_name`: the name alone if absolute, otherwise the folder's root and components followed by the name's |
| DatasetLoaderService.InputFolderParts | python/a2a-prompt-runner-py/src/a2a_prompt_runner/services/dataset_loader/service.py:39 | "data/input" has the components "data" and "input" |
| DatasetLoaderService.DefaultFolderParts | python/a2a-prompt-runner-py/src/a2a_prompt_runner/services/dataset_loader/service.py:39 | the default folder "./data/input" is relative, with components "data" and "input" |
| DatasetLoaderService.DefaultFolderPath | python/a2a-prompt-runner-py/src/a2a_prompt_runner/services/dataset_loader/service.py:37-56 | with the default folder, a plain file name resolves to data/input/name relative to the working directory; the default empty name resolves to the folder itself |
| DatasetLoaderService.IsBlank | python/a2a-prompt-runner-py/src/a2a_prompt_runner/services/dataset_loader/service.py:78 | computes the test `not line.strip()` |
| DatasetLoaderService.NonBlankLines | python/a2a-prompt-runner-py/src/a2a_prompt_runner/services/dataset_loader/service.py:73-79 | computes what `read_from_jsonl_file` yields for a file: every non-blank line with its 1-based physical number; characterised by `NonBlankLinesSound` and `NonBlankLinesComplete` |
| DatasetLoaderService.TryParseJson | python/a2a-prompt-runner-py/src/a2a_prompt_runner/services/dataset_loader/service.py:58-71 | computes `try_parse_json`: decode the line, then validate; a decoding or validation failure is None, never an error; characterised by `TryParseJsonSucceedsIffConforms` |
| DatasetLoaderService.Records | python/a2a-prompt-runner-py/src/a2a_prompt_runner/services/dataset_loader/service.py:91-95 | computes the records the loop yields for a sequence of numbered lines: each line that validates, in order |
| DatasetLoaderService.Rejected | python/a2a-prompt-runner-py/src/a2a_prompt_runner/services/dataset_loader/service.py:68-69 | computes the lines logged as validation errors: each numbered line that fails validation, in order |
| DatasetLoaderService.LoadRecords | python/a2a-prompt-runner-py/src/a2a_prompt_runner/services/dataset_loader/service.py:81-95 | the independent line-by-line reference: each physical line contributes its own record, or nothing when it is blank or invalid |
| DatasetLoaderService.LineRecords | python/a2a-prompt-runner-py/src/a2a_prompt_runner/services/dataset_loader/service.py:78-95 | computes one physical line's contribution: nothing for a blank line, its record if it validates, nothing otherwise |
| DatasetLoaderService.EndOfFile | python/a2a-prompt-runner-py/src/a2a_prompt_runner/services/dataset_loader/service.py:97-107 | computes how reading a present file ends: normally, or by re-raising its read error as ReadFailed |
| DatasetLoaderService.LoadRun | python/a2a-prompt-runner-py/src/a2a_prompt_runner/services/dataset_loader/service.py:81-109 | computes one complete pull of `load_from_jsonl_file`: a missing file raises FileNotFound with nothing yielded; otherwise the records and log of the non-blank lines, then the read outcome |
| DatasetLoaderService.TryParseJsonSucceedsIffConforms | python/a2a-prompt-runner-py/src/a2a_prompt_runner/services/dataset_loader/service.py:58-71 | `try_parse_json` returns a record if and only if the line decodes to JSON that conforms to the schema; every other case is None, never an error |
| DatasetLoaderService.NonBlankLinesSound | python/a2a-prompt-runner-py/src/a2a_prompt_runner/services/dataset_loader/service.py:73-79 | each yielded pair is a non-blank line under its 1-based physical number, with its raw text; numbers strictly increase; no more pairs than lines |
| DatasetLoaderService.NonBlankLinesComplete | python/a2a-prompt-runner-py/src/a2a_prompt_runner/services/dataset_loader/service.py:73-79 | every non-blank line is yielded with its physical number |
| DatasetLoaderService.BlankLinesSkipped | python/a2a-prompt-runner-py/src/a2a_prompt_runner/services/dataset_loader/service.py:78-79 | a whitespace-only line is never yielded |
| DatasetLoaderService.ReadFromJsonlFile | python/a2a-prompt-runner-py/src/a2a_prompt_runner/services/dataset_loader/service.py:73-79 | the loop yields exactly the non-blank numbered lines of the file; a missing file raises FileNotFound with nothing yielded; a read error is raised after the lines |
| DatasetLoaderService.RecordsConcat | python/a2a-prompt-runner-py/src/a2a_prompt_runner/services/dataset_loader/service.py:91-95 | the records and the rejected lines of two runs of lines concatenate |
| DatasetLoaderService.RecordsPlusRejected | python/a2a-prompt-runner-py/src/a2a_prompt_runner/services/dataset_loader/service.py:91-95 | each non-blank line gives either a record or a logged rejection, so there are at most as many records as non-blank lines |
| DatasetLoaderService.RejectedComplete | python/a2a-prompt-runner-py/src/a2a_prompt_runner/services/dataset_loader/service.py:68-71 | every line that fails validation is logged |
| DatasetLoaderService.RejectedSound | python/a2a-prompt-runner-py/src/a2a_prompt_runner/services/dataset_loader/service.py:68-69 | only yielded lines that fail validation are logged, so a valid or blank line never appears in the log (the converse of `RejectedComplete`) |
| DatasetLoaderService.AllValidLinesLoaded | python/a2a-prompt-runner-py/src/a2a_prompt_runner/services/dataset_loader/service.py:91-95 | when every line validates, the k-th record is the validated content of the k-th line |
| DatasetLoaderService.ComposedLoadIsLineByLine | python/a2a-prompt-runner-py/src/a2a_prompt_runner/services/dataset_loader/service.py:81-95 | reading then parsing gives exactly the valid records of the non-blank lines, in file order |
| DatasetLoaderService.LoadRecordsConcat | python/a2a-prompt-runner-py/src/a2a_prompt_runner/services/dataset_loader/service.py:91-95 | the records of a file split in two are the records of each part, concatenated |
| DatasetLoaderService.LoadRecordsAppend | python/a2a-prompt-runner-py/src/a2a_prompt_runner/services/dataset_loader/service.py:91-95 | appending a line appends exactly that line's contribution |
| DatasetLoaderService.MalformedLineDropsOnlyItself | python/a2a-prompt-runner-py/src/a2a_prompt_runner/services/dataset_loader/service.py:91-95 | a blank or invalid line drops only itself: the other lines load as if it were absent |
| DatasetLoaderService.BlankLinesNeverParsed | python/a2a-prompt-runner-py/src/a2a_prompt_runner/services/dataset_loader/service.py:77-92 | the parser is never applied to a blank line: parsers that agree on the non-blank lines give the same records and the same log |
| DatasetLoaderService.ParsersAgree | python/a2a-prompt-runner-py/src/a2a_prompt_runner/services/dataset_loader/service.py:91-95 | parsers that agree on every yielded line give the same records and the same log |
| DatasetLoaderService.ValidLineLoaded | python/a2a-prompt-runner-py/src/a2a_prompt_runner/services/dataset_loader/service.py:91-95 | the record of every valid non-blank line is among the loaded records |
| DatasetLoaderService.LoadFromJsonlFile | python/a2a-prompt-runner-py/src/a2a_prompt_runner/services/dataset_loader/service.py:81-109 | the loop yields the specified records in file order and logs the specified rejections; a missing file or read error is re-raised; the counter grows by exactly the number of records |
| DatasetLoaderService.LoadedCounter.constructor | python/a2a-prompt-runner-py/src/a2a_prompt_runner/services/dataset_loader/service.py:21 | the counter starts at zero |
| DatasetLoaderService.LoadedCounter.Add | python/a2a-prompt-runner-py/src/a2a_prompt_runner/services/dataset_loader/service.py:94 | adding n increases the total by n |
| DatasetLoaderService.RecordStream.EmptyList | python/a2a-prompt-runner-py/src/a2a_prompt_runner/services/dataset_loader/service.py:41 | the initial `_items` is an empty list, not yet pulled |
| DatasetLoaderService.RecordStream.Generator | python/a2a-prompt-runner-py/src/a2a_prompt_runner/services/dataset_loader/service.py:123 | a new generator over a path, not yet pulled, does no I/O |
| DatasetLoaderService.RecordStream.Pending | python/a2a-prompt-runner-py/src/a2a_prompt_runner/services/dataset_loader/service.py:49 | computes what `list(self._items)` would produce now: nothing for the empty list or an exhausted generator, otherwise one complete pull of the file as it is at that moment |
| DatasetLoaderService.RecordStream.Drain | python/a2a-prompt-runner-py/src/a2a_prompt_runner/services/dataset_loader/service.py:49 | `list(stream)` gives what the stream had pending (the file's load read now, or nothing for an exhausted generator or the empty list) and leaves a generator exhausted |
| DatasetLoaderService.DatasetLoader.constructor | python/a2a-prompt-runner-py/src/a2a_prompt_runner/services/dataset_loader/service.py:37-43 | a new loader holds the given name and folder, an empty `_items` list and an empty `_data` |
| DatasetLoaderService.DatasetLoader.Default | python/a2a-prompt-runner-py/src/a2a_prompt_runner/services/dataset_loader/service.py:37-43 | the defaults are file name "" and folder "./data/input", with empty `_items` and `_data` |
| DatasetLoaderService.DatasetLoader.FilePath | python/a2a-prompt-runner-py/src/a2a_prompt_runner/services/dataset_loader/service.py:53-56 | computes the `file_path` property from the current `folder` and `file_name`, as `FilePathOf` states |
| DatasetLoaderService.DatasetLoader.Data | python/a2a-prompt-runner-py/src/a2a_prompt_runner/services/dataset_loader/service.py:45-51 | a non-empty `_data` is returned as it is without touching `_items`; an empty one is refilled by draining `_items`, and an error from the drain propagates and leaves `_data` empty |
| DatasetLoaderService.DatasetLoader.LoadFromLocalJsonlFile | python/a2a-prompt-runner-py/src/a2a_prompt_runner/services/dataset_loader/service.py:111-124 | a non-empty name replaces `file_name` and None or "" keep it; `_items` becomes a new generator over the current `file_path` and is returned; `folder` and `_data` are unchanged |
| DatasetLoaderService.DatasetLoader.DownloadJsonlFile | python/a2a-prompt-runner-py/src/a2a_prompt_runner/services/dataset_loader/service.py:126-132 | the download always raises NotImplementedError with its fixed message |
| DatasetLoaderService.DatasetLoader.LoadFromRemoteJsonlFile | python/a2a-prompt-runner-py/src/a2a_prompt_runner/services/dataset_loader/service.py:153-172 | after the optional rename, it succeeds if and only if `file_path` exists, and then installs the same stream as the local load; otherwise the download's error propagates and `_items` is unchanged |
| LoaderProperties.ExampleLinesBlankness | python/a2a-prompt-runner-py/src/a2a_prompt_runner/services/dataset_loader/service.py:78 | in the example file only the line holding just a newline is blank |
| LoaderProperties.ExampleNumbering | python/a2a-prompt-runner-py/src/a2a_prompt_runner/services/dataset_loader/service.py:76-79 | the example's lines are numbered 1, 3 and 4, with the blank line 2 still counted |
| LoaderProperties.ExampleFileLoads | python/a2a-prompt-runner-py/src/a2a_prompt_runner/services/dataset_loader/service.py:81-95 | the example loads to its two valid records, the first without context, and only line 3 is logged |
| LoaderProperties.ExampleWithContext | python/a2a-prompt-runner-py/src/a2a_prompt_runner/models/dataset.py:11 | a record with a context string keeps it |
| LoaderProperties.MissingFileSurfacesOnData | python/a2a-prompt-runner-py/src/a2a_prompt_runner/services/dataset_loader/service.py:97-101 | loading a missing file succeeds; the first read of `data` raises FileNotFound, and the next read returns [] |
| LoaderProperties.CachedDataSurvivesReload | python/a2a-prompt-runner-py/src/a2a_prompt_runner/services/dataset_loader/service.py:48-51 | once `data` holds records, loading another file does not change what `data` returns |
| LoaderProperties.ExhaustedStreamNotReread | python/a2a-prompt-runner-py/src/a2a_prompt_runner/services/dataset_loader/service.py:48-49 | a file with no valid record leaves `data` empty, and the next read returns [] even if the file has changed since |
| LoaderProperties.CounterCountsRecords | python/a2a-prompt-runner-py/src/a2a_prompt_runner/services/dataset_loader/service.py:91-107 | reading `data` counts every record yielded, including those before a read error; it succeeds exactly when the file reads cleanly, and then holds the file's valid records |
| LoaderProperties.RemoteLoadOfPresentFile | python/a2a-prompt-runner-py/src/a2a_prompt_runner/services/dataset_loader/service.py:166-172 | for a file that exists, the remote load gives the same `data` as the local load |
| LoaderProperties.RemoteLoadOfMissingFile | python/a2a-prompt-runner-py/src/a2a_prompt_runner/services/dataset_loader/service.py:160-168 | for a missing file, the remote load raises the download's error after recording the new name, and `data` stays empty |

## Left out

- The JSON grammar and pydantic's parser are foreign code. The caller passes the parser as a `Decoder` function. Schema validation on the decoded value is modelled.
- Opening files, UTF-8 decoding, closing handles and newline translation are left out. A file is given as its lines, which keep their terminators, plus an optional error raised after them.
- OpenTelemetry spans, `record_exception`, `set_status` and the logger are observability only. The list of rejected lines stands in for the validation-error log. The metric counter is a `LoadedCounter` object.
- Laziness: each generator is modelled by one complete pull (`RecordStream.Drain`). Records that a consumer pulls one at a time before an error are not modelled separately. `list()` discards them anyway, and the counter still counts them.
- `__repr__` (service.py:174-178) is left out. It only formats the first three records through pydantic's `str`.
- The Blob Storage download in the comments (service.py:134-151) is not code, so it is not modelled.
- The interface in `protocol.py` has no behaviour and is not part of this model.
