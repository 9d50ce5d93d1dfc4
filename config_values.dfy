/**
 * Agent configuration documents: JSON values as `json.load` returns them,
 * Python truthiness, `dict.get` with a default, the four agent settings with
 * their defaults, and the file store the loaders read and write.
 */
module ConfigValues {
  import opened Wrappers

  /**
   * A JSON value. Numbers are kept as Dafny `int` and `real`; the binary
   * rounding of Python floats is not part of the model.
   */
  datatype Value =
    | Null
    | Bool(b: bool)
    | Int(i: int)
    | Float(f: real)
    | Str(s: string)
    | Arr(items: seq<Value>)
    | Obj(fields: map<string, Value>)

  /** A JSON object once loaded: a Python `dict` with string keys. */
  type Dict = map<string, Value>

  /** Python's truth value of a loaded JSON value. */
  predicate Truthy(v: Value) {
    match v
    case Null => false
    case Bool(b) => b
    case Int(i) => i != 0
    case Float(f) => f != 0.0
    case Str(s) => s != ""
    case Arr(items) => items != []
    case Obj(fields) => fields != map[]
  }

  /** `d.get(key, default)`. */
  function GetOr(d: Dict, key: string, default: Value): (r: Value)
    ensures key in d ==> r == d[key]
    ensures key !in d ==> r == default
  {
    if key in d then d[key] else default
  }

  const DefaultVoice: string := "en-US-Andrew:DragonHDLatestNeural"
  const DefaultTemperature: real := 0.7
  const DefaultMaxTokens: int := 800
  const DefaultInstructions: string := ""

  /** The `voice` property: the stored value, or the default voice. */
  function VoiceOf(d: Dict): (r: Value)
    ensures "voice" in d ==> r == d["voice"]
    ensures "voice" !in d ==> r == Str("en-US-Andrew:DragonHDLatestNeural")
  {
    GetOr(d, "voice", Str(DefaultVoice))
  }

  /** The `temperature` property: the stored value, or 0.7. */
  function TemperatureOf(d: Dict): (r: Value)
    ensures "temperature" in d ==> r == d["temperature"]
    ensures "temperature" !in d ==> r == Float(0.7)
  {
    GetOr(d, "temperature", Float(DefaultTemperature))
  }

  /** The `max_tokens` property: the stored value, or 800. */
  function MaxTokensOf(d: Dict): (r: Value)
    ensures "max_tokens" in d ==> r == d["max_tokens"]
    ensures "max_tokens" !in d ==> r == Int(800)
  {
    GetOr(d, "max_tokens", Int(DefaultMaxTokens))
  }

  /** The `instructions` property: the stored value, or the empty text. */
  function InstructionsOf(d: Dict): (r: Value)
    ensures "instructions" in d ==> r == d["instructions"]
    ensures "instructions" !in d ==> r == Str("")
  {
    GetOr(d, "instructions", Str(DefaultInstructions))
  }

  /** What a file holds: a JSON object, or text `json.load` refuses. */
  datatype Content = Document(fields: Dict) | Malformed

  /** Why a configuration could not be read. */
  datatype LoadError =
    | FileNotFound(message: string)
    | JsonDecodeError(path: string)
    /** A configuration built from a dictionary has no file: reading `None` raises. */
    | NoPath

  /** The message of the `FileNotFoundError` the loaders raise. */
  function NotFoundMessage(path: string): (r: string)
    ensures |r| > |path| && r[|r| - |path|..] == path
  {
    "Arquivo de configuração não encontrado: " + path
  }

  /** `_load_config`: a missing file raises `FileNotFoundError`, otherwise the file is parsed. */
  function LoadConfig(files: map<string, Content>, path: string): (r: Result<Dict, LoadError>)
    ensures path !in files ==> r == Failure(FileNotFound(NotFoundMessage(path)))
    ensures r.Success? <==> path in files && files[path].Document?
    ensures r.Success? ==> r.value == files[path].fields
  {
    if path !in files then Failure(FileNotFound(NotFoundMessage(path)))
    else match files[path]
      case Document(fields) => Success(fields)
      case Malformed => Failure(JsonDecodeError(path))
  }

  /** The file system the loaders read and `_save_config` writes, as a map from path to content. */
  class Disk {
    var files: map<string, Content>

    constructor (initial: map<string, Content>)
      ensures files == initial
    {
      files := initial;
    }

    /** `json.dump` of a dictionary to `path`; what is written loads back as the same dictionary. */
    method Save(path: string, d: Dict)
      modifies this
      ensures files == old(files)[path := Document(d)]
      ensures LoadConfig(files, path) == Success(d)
    {
      files := files[path := Document(d)];
    }
  }
}
