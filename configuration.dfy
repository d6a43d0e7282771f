/** The configuration document, its loading, and its one-line rendering. */
module Configuration {
  import opened Wrappers

  /** The `rotation` block, passed through to the rotating file sink. */
  datatype RotationConfig = RotationConfig(maxSize: int, maxBackups: int, maxAge: int, compress: bool)

  /** zap's SamplingConfig as the document gives it (its hook is never set here). */
  datatype SamplingConfig = SamplingConfig(initial: int, thereafter: int)

  /** The decoded document; `sampling` is a Go pointer, absent when the document has no block. */
  datatype Config = Config(
    level: string,
    development: bool,
    encoding: string,
    outputPath: string,
    sampling: Option<SamplingConfig>,
    rotation: RotationConfig)

  /** The two ways loading fails; `cause` is the message of the error being wrapped. */
  datatype LoadError = ReadError(cause: string) | ParseError(cause: string)

  const READ_PREFIX: string := "error reading log config: "
  const PARSE_PREFIX: string := "error parsing log config: "

  /** The text of the wrapped error: a fixed prefix naming the failing step, then the cause. */
  function Message(e: LoadError): (m: string)
    ensures |m| == 26 + |e.cause|
    ensures m[26..] == e.cause
    ensures e.ReadError? <==> m[..26] == READ_PREFIX
    ensures e.ParseError? <==> m[..26] == PARSE_PREFIX
  {
    match e
    case ReadError(cause) => READ_PREFIX + cause
    case ParseError(cause) => PARSE_PREFIX + cause
  }

  /** No read error has the same text as a parse error, whatever their causes. */
  lemma MessagesTellKindsApart(e1: LoadError, e2: LoadError)
    requires e1.ReadError? && e2.ParseError?
    ensures Message(e1) != Message(e2)
  {
  }

  /** os.ReadFile: the file's bytes, or the message of the failure. */
  type FileReader = string -> Result<seq<bv8>, string>

  /** yaml.Unmarshal into a zero Config: the decoded value, or the message of the failure. */
  type Decoder = seq<bv8> -> Result<Config, string>

  /** loadConfig: read the file, then decode it; each failure is wrapped with its own prefix. */
  function LoadConfig(readFile: FileReader, unmarshal: Decoder, path: string): (r: Result<Config, LoadError>)
    ensures readFile(path).Failure? ==> r == Failure(ReadError(readFile(path).error))
    ensures readFile(path).Success? && unmarshal(readFile(path).value).Failure? ==>
      r == Failure(ParseError(unmarshal(readFile(path).value).error))
    ensures readFile(path).Success? && unmarshal(readFile(path).value).Success? ==>
      r == Success(unmarshal(readFile(path).value).value)
  {
    match readFile(path)
    case Failure(err) => Failure(ReadError(err))
    case Success(yamlData) =>
      match unmarshal(yamlData)
      case Failure(err) => Failure(ParseError(err))
      case Success(cfg) => Success(cfg)
  }

  /** When the file cannot be read the decoder is never consulted: any decoder gives the same result. */
  lemma ReadFailureSkipsDecoding(readFile: FileReader, u1: Decoder, u2: Decoder, path: string)
    requires readFile(path).Failure?
    ensures LoadConfig(readFile, u1, path) == LoadConfig(readFile, u2, path)
  {
  }

  /** Go's %t verb. */
  function BoolText(b: bool): string {
    if b then "true" else "false"
  }

  /** Config.String: "Level: <level>, Development: <true|false>, OutputPath: <path>". */
  function ToString(c: Config): (s: string)
    ensures |s| == 36 + |c.level| + |BoolText(c.development)| + |c.outputPath|
    ensures s[..7] == "Level: "
    ensures s[7..7 + |c.level|] == c.level
    ensures s[7 + |c.level|..22 + |c.level|] == ", Development: "
    ensures s[22 + |c.level|..|s| - 14 - |c.outputPath|] == (if c.development then "true" else "false")
    ensures s[|s| - 14 - |c.outputPath|..|s| - |c.outputPath|] == ", OutputPath: "
    ensures s[|s| - |c.outputPath|..] == c.outputPath
  {
    var head := "Level: " + c.level;
    var mid := head + ", Development: ";
    assert mid[|head|..] == ", Development: ";
    mid + BoolText(c.development) + ", OutputPath: " + c.outputPath
  }

  /** The rendering determines the three fields it shows, once the level's length is known
      (a level label may itself contain ", Development: "). */
  lemma ToStringDeterminesFields(c1: Config, c2: Config)
    requires ToString(c1) == ToString(c2)
    requires |c1.level| == |c2.level|
    ensures c1.level == c2.level
    ensures c1.development == c2.development
    ensures c1.outputPath == c2.outputPath
  {
    var s := ToString(c1);
    var k := 22 + |c1.level|;
    assert s[k] == s[k..|s| - 14 - |c1.outputPath|][0] == BoolText(c1.development)[0];
    assert s[k] == s[k..|s| - 14 - |c2.outputPath|][0] == BoolText(c2.development)[0];
  }
}
