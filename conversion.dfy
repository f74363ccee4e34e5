/** `convert_jsonl_file_into_json`: reads a line-delimited JSON file and writes every line that parses
    as JSON, in order, into one JSON array in a file next to it named after the file's stem. */
module Conversion {
  import opened Basics
  import opened Json
  import Seqs
  import Paths
  import MessageSaver

  type Message = MessageSaver.Message

  datatype InvalidPathError = NoFileStem(path: Paths.Path) | NoParentDir(path: Paths.Path)

  /** The I/O errors carry the path of the file involved; `SerializeJsonlItems` stands for a failure of
      the pretty printer. */
  datatype FileConversionError =
    | ReadFileContents(path: Paths.Path)
    | WriteIntoFile(path: Paths.Path)
    | InvalidPath(error: InvalidPathError)
    | CreateOutputFile(path: Paths.Path)
    | SerializeJsonlItems

  /** The path of the JSON file: the parent directory of `path`, pushed with the file stem and
      `.json`. A path without a file stem is refused; every path with a file stem has a parent. */
  function JsonPathFor(path: Paths.Path): (r: Result<Paths.Path, InvalidPathError>)
    ensures r.Err? <==> Paths.FileStem(path).None?
    ensures r.Err? ==> r.error == NoFileStem(path)
    ensures r.Ok? ==> (
      && |path.components| > 0 && r.value.absolute == path.absolute
      && r.value.components == path.components[..|path.components| - 1] + [Paths.FileStem(path).value + ".json"])
  {
    match Paths.FileStem(path)
    case None => Err(NoFileStem(path))
    case Some(stem) =>
      match Paths.Parent(path)
      case None => Err(NoParentDir(path))
      case Some(dir) => Ok(Paths.Push(dir, stem + ".json"))
  }

  /** The file a crawl writes, `<name>.jsonl` in the working directory, converts into `<name>.json`
      next to it. */
  lemma {:induction false} JsonPathForChannelFile(name: string)
    requires name != [] && forall k :: 0 <= k < |name| ==> name[k] != '/'
    ensures JsonPathFor(Paths.FromString(name + ".jsonl")) == Ok(Paths.Path(false, [name + ".json"]))
  {
    var file := name + ".jsonl";
    ChannelFileName(name);
    Paths.FromPlainName(file);
    Paths.LastDotIs(file, |name|);
    assert file[..|name|] == name;
    StemInWorkingDirectory(file, name);
  }

  /** A relative path of one component converts next to itself. */
  lemma {:induction false} StemInWorkingDirectory(file: string, stem: string)
    requires Paths.FileStem(Paths.Path(false, [file])) == Some(stem)
    ensures JsonPathFor(Paths.Path(false, [file])) == Ok(Paths.Path(false, [stem + ".json"]))
  {
    assert [file][..0] == [];
    assert Paths.Parent(Paths.Path(false, [file])) == Some(Paths.Path(false, []));
    assert [] + [stem + ".json"] == [stem + ".json"];
  }

  /** `<name>.jsonl` has no slash, and its last dot is the one before `jsonl`. */
  lemma {:induction false} ChannelFileName(name: string)
    requires forall k :: 0 <= k < |name| ==> name[k] != '/'
    ensures var file := name + ".jsonl";
      && (forall k :: 0 <= k < |file| ==> file[k] != '/')
      && file[|name|] == '.' && (forall k :: |name| < k < |file| ==> file[k] != '.')
  {
    var file := name + ".jsonl";
    forall k | 0 <= k < |file|
      ensures file[k] != '/' && (k > |name| ==> file[k] != '.')
    {
      if k >= |name| {
        assert file[k] == ".jsonl"[k - |name|];
      }
    }
  }

  /** A channel without a name writes `.jsonl`, whose only dot is the leading one: the whole name is
      the stem, and the JSON file is `.jsonl.json`. */
  lemma {:induction false} JsonPathForUnnamedChannel()
    ensures JsonPathFor(Paths.FromString(".jsonl")) == Ok(Paths.Path(false, [".jsonl.json"]))
  {
    UnnamedChannelFile();
    StemInWorkingDirectory(".jsonl", ".jsonl");
    UnnamedJsonName();
  }

  lemma {:induction false} UnnamedJsonName()
    ensures ".jsonl" + ".json" == ".jsonl.json"
  {
  }

  /** `.jsonl` is a relative path of one component, and its own stem. */
  lemma {:induction false} UnnamedChannelFile()
    ensures Paths.FromString(".jsonl") == Paths.Path(false, [".jsonl"])
    ensures Paths.FileStem(Paths.Path(false, [".jsonl"])) == Some(".jsonl")
  {
    ChannelFileName("");
    assert "" + ".jsonl" == ".jsonl";
    Paths.FromPlainName(".jsonl");
    Paths.LastDotIs(".jsonl", 0);
  }

  /** The faults the file system presents to one conversion: the JSONL file cannot be opened, the
      JSON file cannot be created, reading stops with an error before the given line, the JSON file
      cannot be written. */
  datatype ConversionFaults = ConversionFaults(openFails: bool, createFails: bool, readFailsAt: Option<nat>,
                                               writeFails: bool)

  const NoConversionFaults := ConversionFaults(false, false, None, false)

  /** The lines the `while let Ok(Some(line))` loop sees: all of them, or those before the read error
      that ends it. */
  function LinesRead(lines: seq<string>, readFailsAt: Option<nat>): (r: seq<string>)
    ensures r <= lines
    ensures |r| < |lines| <==> readFailsAt.Some? && readFailsAt.value < |lines|
  {
    if readFailsAt.Some? && readFailsAt.value < |lines| then lines[..readFailsAt.value] else lines
  }

  /** The specification of the conversion: open the file, work out the JSON path, create the JSON
      file, collect every line that `parse` (serde_json's parser) accepts, write them. The result is
      the JSON path with the values written. */
  function Conversion(path: Paths.Path, text: string, faults: ConversionFaults, parse: string -> Option<Json>)
    : (r: Result<(Paths.Path, seq<Json>), FileConversionError>)
    ensures r.Ok? <==> !faults.openFails && Paths.FileStem(path).Some? && !faults.createFails && !faults.writeFails
    ensures faults.openFails ==> r == Err(ReadFileContents(path))
    ensures !faults.openFails && Paths.FileStem(path).None? ==> r == Err(InvalidPath(NoFileStem(path)))
    ensures !faults.openFails && JsonPathFor(path).Ok? && faults.createFails ==>
      r == Err(CreateOutputFile(JsonPathFor(path).value))
    ensures !faults.openFails && JsonPathFor(path).Ok? && !faults.createFails && faults.writeFails ==>
      r == Err(WriteIntoFile(JsonPathFor(path).value))
    ensures r.Ok? ==> r.value.0 == JsonPathFor(path).value && |r.value.1| <= |MessageSaver.Lines(text)|
  {
    if faults.openFails then Err(ReadFileContents(path))
    else
      match JsonPathFor(path)
      case Err(e) => Err(InvalidPath(e))
      case Ok(jsonPath) =>
        if faults.createFails then Err(CreateOutputFile(jsonPath))
        else if faults.writeFails then Err(WriteIntoFile(jsonPath))
        else Ok((jsonPath, Seqs.FilterMap(LinesRead(MessageSaver.Lines(text), faults.readFailsAt), parse)))
  }

  /** `convert_jsonl_file_into_json` over the text of the file: the same steps in the same order, the
      lines read one at a time. */
  method ConvertJsonlFileIntoJson(path: Paths.Path, text: string, faults: ConversionFaults,
                                  parse: string -> Option<Json>)
    returns (r: Result<(Paths.Path, seq<Json>), FileConversionError>)
    ensures r == Conversion(path, text, faults, parse)
  {
    if faults.openFails {
      return Err(ReadFileContents(path));
    }
    var jsonPath := JsonPathFor(path);
    if jsonPath.Err? {
      return Err(InvalidPath(jsonPath.error));
    }
    var jsonlLines := MessageSaver.Lines(text);
    if faults.createFails {
      return Err(CreateOutputFile(jsonPath.value));
    }
    var jsonValueData: seq<Json> := [];
    var i := 0;
    while i < |jsonlLines| && (faults.readFailsAt.None? || i < faults.readFailsAt.value)
      invariant i <= |LinesRead(jsonlLines, faults.readFailsAt)|
      invariant jsonValueData == Seqs.FilterMap(jsonlLines[..i], parse)
    {
      Seqs.FilterMapSnoc(jsonlLines[..i], jsonlLines[i], parse);
      assert jsonlLines[..i + 1] == jsonlLines[..i] + [jsonlLines[i]];
      var value := parse(jsonlLines[i]);
      if value.Some? {
        jsonValueData := jsonValueData + [value.value];
      }
      i := i + 1;
    }
    assert jsonlLines[..i] == LinesRead(jsonlLines, faults.readFailsAt);
    if faults.writeFails {
      return Err(WriteIntoFile(jsonPath.value));
    }
    return Ok((jsonPath.value, jsonValueData));
  }

  /** A parser that reads every serialised message back as its JSON value, as serde_json's does. */
  ghost predicate ReadsMessages(parse: string -> Option<Json>)
  {
    forall m: Message :: parse(MessageSaver.ToJsonLine(m)) == Some(MessageSaver.ToJsonValue(m))
  }

  function JsonValues(messages: seq<Message>): (values: seq<Json>)
    ensures |values| == |messages|
  {
    seq(|messages|, i requires 0 <= i < |messages| => MessageSaver.ToJsonValue(messages[i]))
  }

  lemma {:induction false} ParsedJsonLines(messages: seq<Message>, parse: string -> Option<Json>)
    requires ReadsMessages(parse)
    ensures Seqs.FilterMap(MessageSaver.JsonLines(messages), parse) == JsonValues(messages)
  {
    var lines := MessageSaver.JsonLines(messages);
    forall i | 0 <= i < |lines|
      ensures parse(lines[i]) == Some(MessageSaver.ToJsonValue(messages[i]))
    {
      assert lines[i] == MessageSaver.ToJsonLine(messages[i]);
    }
    Seqs.FilterMapAllKept(lines, parse);
  }

  /** Converting a file the line-delimited sink wrote, with nothing failing, writes every message it
      holds into the JSON array, in file order. */
  lemma {:induction false} ConvertingSavedMessages(path: Paths.Path, messages: seq<Message>, parse: string -> Option<Json>)
    requires ReadsMessages(parse)
    requires Paths.FileStem(path).Some?
    ensures Conversion(path, MessageSaver.JsonlText(messages), NoConversionFaults, parse)
         == Ok((JsonPathFor(path).value, JsonValues(messages)))
  {
    MessageSaver.LinesOfJsonlText(messages);
    ParsedJsonLines(messages, parse);
  }

  /** Lines that do not parse are skipped and the rest keep their order: the written values are the
      parses of the accepted lines, and a line is accepted exactly when it parses. */
  lemma {:induction false} ConversionSkipsUnparsableLines(path: Paths.Path, text: string, parse: string -> Option<Json>)
    requires Paths.FileStem(path).Some?
    ensures var lines := MessageSaver.Lines(text);
      var kept := Seqs.KeptIndices(lines, parse);
      var values := Conversion(path, text, NoConversionFaults, parse).value.1;
      && |values| == |kept|
      && (forall j :: 0 <= j < |kept| ==> Some(values[j]) == parse(lines[kept[j]]))
      && (forall j, k :: 0 <= j < k < |kept| ==> kept[j] < kept[k])
      && (forall i :: 0 <= i < |lines| ==> (i in kept <==> parse(lines[i]).Some?))
  {
    Seqs.FilterMapExact(MessageSaver.Lines(text), parse);
  }
}
