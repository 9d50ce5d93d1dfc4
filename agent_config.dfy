/**
 * The environment-aware agent configuration: the configuration file is
 * chosen by environment (`agent_config.staging.json` beside
 * `agent_config.json`), read once, queried through properties with
 * defaults, and rewritten after every single-key update.
 *
 * Paths are strings in normal form (`/`-separated, no trailing `/`); the
 * `parent`, `stem` and `suffix` of pathlib are modelled on the last
 * component.
 */
module AgentConfigLoader {
  import opened Wrappers
  import opened ConfigValues
  import Strings

  /**
   * A path split at its last `/`: the directory part keeps that `/` (it is
   * empty for a bare file name, pathlib's `.` parent), the name is the last
   * component.
   */
  datatype Path = Path(dir: string, name: string) {
    /** `str(path)`. */
    function Text(): string {
      dir + name
    }
  }

  /** `Path(text)`. */
  function ParsePath(text: string): (r: Path)
    ensures r.Text() == text
    ensures '/' !in r.name
    ensures r.dir == [] || r.dir[|r.dir| - 1] == '/'
  {
    match Strings.LastIndexOf(text, '/')
    case None => Path("", text)
    case Some(i) =>
      assert text[..i + 1] + text[i + 1..] == text;
      Path(text[..i + 1], text[i + 1..])
  }

  /** Where the suffix of a name starts: its last `.`, when neither first nor last character. */
  function SuffixStart(name: string): (r: Option<nat>)
    ensures r.Some? ==> 0 < r.value < |name| - 1 && name[r.value] == '.'
    ensures r.Some? ==> '.' !in name[r.value + 1..]
  {
    match Strings.LastIndexOf(name, '.')
    case Some(i) => if 0 < i < |name| - 1 then Some(i) else None
    case None => None
  }

  /** `Path.suffix`: from the last `.` on, or nothing. */
  function Suffix(name: string): (r: string)
    ensures r == [] || (r[0] == '.' && '.' !in r[1..] && 2 <= |r| < |name|)
  {
    match SuffixStart(name)
    case None => ""
    case Some(i) => name[i..]
  }

  /** `Path.stem`: the name without its suffix. */
  function Stem(name: string): (r: string)
    ensures r + Suffix(name) == name
    ensures r != [] || name == []
  {
    match SuffixStart(name)
    case None => name
    case Some(i) => assert name[..i] + name[i..] == name; name[..i]
  }

  /** `base_path.parent / f"{base_path.stem}.{env}{base_path.suffix}"`. */
  function EnvPath(defaultPath: Path, env: string): (r: Path)
    ensures r.dir == defaultPath.dir
    ensures Stem(defaultPath.name) != [] ==> |r.name| > |defaultPath.name|
  {
    Path(defaultPath.dir, Stem(defaultPath.name) + "." + env + Suffix(defaultPath.name))
  }

  /** A name made of a front, a `.` and a tail without `.` splits into that front and that suffix. */
  lemma SuffixAfterLastDot(front: string, tail: string)
    requires front != [] && tail != [] && '.' !in tail
    ensures Suffix(front + ['.'] + tail) == ['.'] + tail
    ensures Stem(front + ['.'] + tail) == front
  {
    var n := front + ['.'] + tail;
    Strings.LastIndexOfAfter(front, '.', tail);
    assert SuffixStart(n) == Some(|front|);
    assert n[|front|..] == ['.'] + tail;
    assert n[..|front|] == front;
  }

  /** The environment file keeps the extension of the default file. */
  lemma EnvPathKeepsSuffix(defaultPath: Path, env: string)
    requires Suffix(defaultPath.name) != []
    ensures Suffix(EnvPath(defaultPath, env).name) == Suffix(defaultPath.name)
  {
    var suffix := Suffix(defaultPath.name);
    var tail := suffix[1..];
    assert suffix == ['.'] + tail;
    var front := Stem(defaultPath.name) + "." + env;
    assert EnvPath(defaultPath, env).name == front + ['.'] + tail;
    SuffixAfterLastDot(front, tail);
  }

  /** A path splits at its last `/`. */
  lemma ParseAtLastSlash(a: string, b: string)
    requires '/' !in b
    ensures ParsePath(a + ['/'] + b) == Path(a + ['/'], b)
  {
    var t := a + ['/'] + b;
    Strings.LastIndexOfAfter(a, '/', b);
    assert t[..|a| + 1] == a + ['/'];
    assert t[|a| + 1..] == b;
  }

  /**
   * The environment name goes between stem and extension: with `stem.ext` as
   * the default name (`agent_config.json`), the environment file is
   * `stem.env.ext` (`agent_config.staging.json`) in the same directory.
   */
  lemma EnvPathInsertsEnv(dir: string, stem: string, ext: string, env: string)
    requires stem != [] && ext != [] && '.' !in ext
    ensures EnvPath(Path(dir, stem + "." + ext), env) == Path(dir, stem + "." + env + "." + ext)
  {
    var name := stem + "." + ext;
    assert name == stem + ['.'] + ext;
    SuffixAfterLastDot(stem, ext);
  }

  /**
   * `_resolve_config_path`: development always uses the default file;
   * other environments use their own file when it exists, and fall back to
   * the default otherwise.
   */
  function ResolveConfigPath(files: map<string, Content>, defaultPath: string, env: string): (r: Path)
    ensures env == "development" ==> r == ParsePath(defaultPath)
    ensures env != "development" ==>
      var candidate := EnvPath(ParsePath(defaultPath), env);
      r == (if candidate.Text() in files then candidate else ParsePath(defaultPath))
  {
    var base := ParsePath(defaultPath);
    if env == "development" then base
    else
      var candidate := EnvPath(base, env);
      if candidate.Text() in files then candidate else base
  }

  /** The resolved file exists whenever the default file does. */
  lemma ResolvedExistsWithDefault(files: map<string, Content>, defaultPath: string, env: string)
    requires defaultPath in files
    ensures ResolveConfigPath(files, defaultPath, env).Text() in files
  {
  }

  class AgentConfig {
    var env: string
    var defaultConfigPath: Option<Path>
    var configPath: Option<Path>
    var config: Dict

    /** `from_dict`: the dictionary as given, no file behind it. */
    constructor FromDict(d: Dict, env: string := "production")
      ensures this.env == env && config == d
      ensures defaultConfigPath == None && configPath == None
    {
      this.env := env;
      defaultConfigPath := None;
      configPath := None;
      config := d;
    }

    constructor Loaded(env: string, defaultPath: Path, path: Path, d: Dict)
      ensures this.env == env && config == d
      ensures defaultConfigPath == Some(defaultPath) && configPath == Some(path)
    {
      this.env := env;
      defaultConfigPath := Some(defaultPath);
      configPath := Some(path);
      config := d;
    }

    /**
     * `AgentConfig(config_path, env)`: resolve the path for the environment,
     * then load it; a missing or unreadable file is an error.
     */
    static method Load(disk: Disk, configPath: string := "agent_config.json", env: string := "development")
      returns (r: Result<AgentConfig, LoadError>)
      ensures var path := ResolveConfigPath(disk.files, configPath, env);
        match LoadConfig(disk.files, path.Text())
        case Failure(e) => r == Failure(e)
        case Success(d) =>
          r.Success? && fresh(r.value) && r.value.config == d && r.value.env == env
          && r.value.configPath == Some(path) && r.value.defaultConfigPath == Some(ParsePath(configPath))
    {
      var path := ResolveConfigPath(disk.files, configPath, env);
      var loaded := LoadConfig(disk.files, path.Text());
      if loaded.Failure? {
        return Failure(loaded.error);
      }
      var c := new AgentConfig.Loaded(env, ParsePath(configPath), path, loaded.value);
      return Success(c);
    }

    /** `reload`: the whole configuration is replaced by the file's; on an error nothing changes. */
    method Reload(disk: Disk) returns (err: Option<LoadError>)
      modifies this`config
      ensures configPath.None? ==> err == Some(NoPath) && config == old(config)
      ensures configPath.Some? ==> match LoadConfig(disk.files, configPath.value.Text())
        case Failure(e) => err == Some(e) && config == old(config)
        case Success(d) => err == None && config == d
    {
      if configPath.None? {
        return Some(NoPath);
      }
      var loaded := LoadConfig(disk.files, configPath.value.Text());
      if loaded.Failure? {
        return Some(loaded.error);
      }
      config := loaded.value;
      return None;
    }

    function Voice(): Value
      reads this
    {
      VoiceOf(config)
    }

    function Temperature(): Value
      reads this
    {
      TemperatureOf(config)
    }

    function MaxTokens(): Value
      reads this
    {
      MaxTokensOf(config)
    }

    function Instructions(): Value
      reads this
    {
      InstructionsOf(config)
    }

    /**
     * Sets one key and saves. The key is set before saving, so it stays set
     * when there is no file to save to (`open(None)` raises).
     */
    method Update(key: string, v: Value, disk: Disk) returns (err: Option<LoadError>)
      modifies this`config, disk
      ensures config == old(config)[key := v]
      ensures configPath.None? ==> err == Some(NoPath) && disk.files == old(disk.files)
      ensures configPath.Some? ==>
        err == None
        && disk.files == old(disk.files)[configPath.value.Text() := Document(config)]
        && LoadConfig(disk.files, configPath.value.Text()) == Success(config)
    {
      config := config[key := v];
      if configPath.None? {
        return Some(NoPath);
      }
      disk.Save(configPath.value.Text(), config);
      return None;
    }

    method UpdateVoice(voice: string, disk: Disk) returns (err: Option<LoadError>)
      modifies this`config, disk
      ensures config == old(config)["voice" := Str(voice)]
      ensures Voice() == Str(voice)
      ensures Temperature() == old(Temperature()) && MaxTokens() == old(MaxTokens())
        && Instructions() == old(Instructions())
      ensures configPath.Some? <==> err.None?
      ensures configPath.None? ==> disk.files == old(disk.files)
      ensures configPath.Some? ==> disk.files == old(disk.files)[configPath.value.Text() := Document(config)]
      ensures configPath.Some? ==> LoadConfig(disk.files, configPath.value.Text()) == Success(config)
    {
      err := Update("voice", Str(voice), disk);
    }

    method UpdateTemperature(temperature: real, disk: Disk) returns (err: Option<LoadError>)
      modifies this`config, disk
      ensures config == old(config)["temperature" := Float(temperature)]
      ensures Temperature() == Float(temperature)
      ensures Voice() == old(Voice()) && MaxTokens() == old(MaxTokens())
        && Instructions() == old(Instructions())
      ensures configPath.Some? <==> err.None?
      ensures configPath.None? ==> disk.files == old(disk.files)
      ensures configPath.Some? ==> disk.files == old(disk.files)[configPath.value.Text() := Document(config)]
      ensures configPath.Some? ==> LoadConfig(disk.files, configPath.value.Text()) == Success(config)
    {
      err := Update("temperature", Float(temperature), disk);
    }

    method UpdateMaxTokens(maxTokens: int, disk: Disk) returns (err: Option<LoadError>)
      modifies this`config, disk
      ensures config == old(config)["max_tokens" := Int(maxTokens)]
      ensures MaxTokens() == Int(maxTokens)
      ensures Voice() == old(Voice()) && Temperature() == old(Temperature())
        && Instructions() == old(Instructions())
      ensures configPath.Some? <==> err.None?
      ensures configPath.None? ==> disk.files == old(disk.files)
      ensures configPath.Some? ==> disk.files == old(disk.files)[configPath.value.Text() := Document(config)]
      ensures configPath.Some? ==> LoadConfig(disk.files, configPath.value.Text()) == Success(config)
    {
      err := Update("max_tokens", Int(maxTokens), disk);
    }

    method UpdateInstructions(instructions: string, disk: Disk) returns (err: Option<LoadError>)
      modifies this`config, disk
      ensures config == old(config)["instructions" := Str(instructions)]
      ensures Instructions() == Str(instructions)
      ensures Voice() == old(Voice()) && Temperature() == old(Temperature())
        && MaxTokens() == old(MaxTokens())
      ensures configPath.Some? <==> err.None?
      ensures configPath.None? ==> disk.files == old(disk.files)
      ensures configPath.Some? ==> disk.files == old(disk.files)[configPath.value.Text() := Document(config)]
      ensures configPath.Some? ==> LoadConfig(disk.files, configPath.value.Text()) == Success(config)
    {
      err := Update("instructions", Str(instructions), disk);
    }
  }
}
