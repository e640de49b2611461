/**
 * `OutputManager.store_output` (src/apollo/output.py; the same code is
 * `_OutputManager.store_output` in src/apollo/reddit.py): lowercase the
 * format, pick the file's extension and serialiser, open the file, write or
 * raise, then report. The file system is a class whose map the method
 * updates; the serialised forms of the data are given, not computed.
 */
module Output {
  import opened Wrappers

  /** The directory every output file goes to. */
  const OutputDir: string := "output/"

  /** Python's `str.lower` on one character, for ASCII letters. */
  function LowerChar(c: char): char
  {
    if 'A' <= c <= 'Z' then (c as int + 32) as char else c
  }

  /** The upper-case partner of a lower-case ASCII letter. */
  function UpperChar(c: char): char
  {
    if 'a' <= c <= 'z' then (c as int - 32) as char else c
  }

  function Lower(s: string): string
  {
    seq(|s|, i requires 0 <= i < |s| => LowerChar(s[i]))
  }

  /** No upper-case ASCII letter in `s`. */
  predicate IsLower(s: string)
  {
    forall i :: 0 <= i < |s| ==> !('A' <= s[i] <= 'Z')
  }

  /** Lowercasing yields a lower-case text, and a second pass changes nothing. */
  lemma LowerIdempotent(s: string)
    ensures IsLower(Lower(s))
    ensures Lower(Lower(s)) == Lower(s)
  {
  }

  /** Comparing the lowercased text with a lower-case word is comparing
      letter by letter, ignoring case. */
  lemma LowerEqualsIff(t: string, u: string)
    requires IsLower(u)
    ensures Lower(t) == u <==> |t| == |u| && forall i :: 0 <= i < |u| ==> t[i] == u[i] || t[i] == UpperChar(u[i])
  {
  }

  /** The file's extension: "json" for the JSON format, "txt" for anything else. */
  function Extension(outputType: string): string
  {
    if Lower(outputType) == "json" then "json" else "txt"
  }

  /** The file id: the first eight characters of the generated identifier. */
  function FileId(uuidText: string): string
  {
    if |uuidText| <= 8 then uuidText else uuidText[..8]
  }

  function FilePath(uuidText: string, outputType: string): string
  {
    OutputDir + FileId(uuidText) + "." + Extension(outputType)
  }

  /** How the data is written: `json.dump`, or the data's string form. */
  datatype Serializer = JsonDump | WriteStr

  /** The serialiser for a format, or None for an unknown format. */
  function SerializerFor(outputType: string): Option<Serializer>
  {
    var t := Lower(outputType);
    if t == "json" then Some(JsonDump)
    else if t == "dataclass" then Some(WriteStr)
    else None
  }

  /** Every decision is made on the lowercased format: giving the format
      already lowercased changes neither the path nor the serialiser. */
  lemma DispatchIgnoresCase(outputType: string, uuidText: string)
    ensures SerializerFor(Lower(outputType)) == SerializerFor(outputType)
    ensures FilePath(uuidText, Lower(outputType)) == FilePath(uuidText, outputType)
  {
  }

  /** The extension is "json" exactly for the four letters j, s, o, n in any
      case, and then the JSON serialiser is used; every other format,
      including an unknown one, gets a ".txt" file. */
  lemma ExtensionIff(outputType: string, uuidText: string)
    ensures Extension(outputType) == "json" <==>
              |outputType| == 4 && outputType[0] in "jJ" && outputType[1] in "sS" &&
              outputType[2] in "oO" && outputType[3] in "nN"
    ensures Extension(outputType) == "json" <==> SerializerFor(outputType) == Some(JsonDump)
    ensures Extension(outputType) != "json" ==> Extension(outputType) == "txt"
    ensures FilePath(uuidText, outputType)[..|OutputDir|] == OutputDir
  {
    LowerEqualsIff(outputType, "json");
    assert UpperChar('j') == 'J' && UpperChar('s') == 'S' && UpperChar('o') == 'O' && UpperChar('n') == 'N';
  }

  /** The string form is written exactly for "dataclass" spelt in any mix
      of cases, and an unknown format is anything that is neither word. */
  lemma SerializerIff(outputType: string)
    ensures SerializerFor(outputType) == Some(WriteStr) <==>
              |outputType| == 9 &&
              forall i :: 0 <= i < 9 ==> outputType[i] == "dataclass"[i] || outputType[i] == UpperChar("dataclass"[i])
    ensures SerializerFor(outputType) == None <==>
              Extension(outputType) == "txt" && Lower(outputType) != "dataclass"
  {
  }

  /** The serialised forms of the data being stored: what `json.dump`
      writes and what `f"{result}"` gives. */
  datatype Payload = Payload(json: string, text: string)

  /** What the file holds once the `with` block is left. An unknown format
      raises after the file was opened, so the file exists and is empty. */
  function Written(result: Payload, outputType: string): string
  {
    match SerializerFor(outputType)
    case Some(JsonDump) => result.json
    case Some(WriteStr) => result.text
    case None => ""
  }

  /** The files written so far and the lines printed to the console. */
  class FileSystem {
    var files: map<string, string>
    var console: seq<string>

    constructor ()
      ensures files == map[] && console == []
    {
      files, console := map[], [];
    }
  }

  /** Stores `result` under a fresh name; returns the message of the
      ValueError raised for an unknown format, if any. */
  method StoreOutput(fs: FileSystem, result: Payload, outputType: string, uuidText: string)
    returns (raised: Option<string>)
    modifies fs
    ensures raised.Some? <==> SerializerFor(outputType).None?
    ensures raised.Some? ==> raised.value == "Invalid output type: " + Lower(outputType)
    ensures fs.files == old(fs.files)[FilePath(uuidText, outputType) := Written(result, outputType)]
    ensures fs.console == old(fs.console) +
              if raised.None? then ["Successfully stored command output in ./" + FilePath(uuidText, outputType)] else []
  {
    var t := Lower(outputType);
    var fileId := FileId(uuidText);
    var ext := if t == "json" then "json" else "txt";
    var path := OutputDir + fileId + "." + ext;
    fs.files := fs.files[path := ""];
    if t == "json" {
      fs.files := fs.files[path := result.json];
    } else if t == "dataclass" {
      fs.files := fs.files[path := result.text];
    } else {
      return Some("Invalid output type: " + t);
    }
    fs.console := fs.console + ["Successfully stored command output in ./" + path];
    raised := None;
  }
}
