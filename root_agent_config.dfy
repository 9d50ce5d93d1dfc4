/**
 * The single-file agent configuration at the repository root: one JSON file,
 * loaded when the object is built, queried through properties with defaults,
 * rewritten after every single-key update.
 */
module RootAgentConfig {
  import opened Wrappers
  import opened ConfigValues

  class AgentConfig {
    const configPath: string
    var config: Dict

    constructor Loaded(path: string, d: Dict)
      ensures configPath == path && config == d
    {
      configPath := path;
      config := d;
    }

    /** `AgentConfig(config_path)`: a missing file raises `FileNotFoundError`. */
    static method Load(disk: Disk, configPath: string := "agent_config.json") returns (r: Result<AgentConfig, LoadError>)
      ensures configPath !in disk.files ==> r == Failure(FileNotFound(NotFoundMessage(configPath)))
      ensures match LoadConfig(disk.files, configPath)
        case Failure(e) => r == Failure(e)
        case Success(d) => r.Success? && fresh(r.value) && r.value.configPath == configPath && r.value.config == d
    {
      var loaded := LoadConfig(disk.files, configPath);
      if loaded.Failure? {
        return Failure(loaded.error);
      }
      var c := new AgentConfig.Loaded(configPath, loaded.value);
      return Success(c);
    }

    /** `reload`: the whole configuration is replaced by the file's; on an error nothing changes. */
    method Reload(disk: Disk) returns (err: Option<LoadError>)
      modifies this`config
      ensures match LoadConfig(disk.files, configPath)
        case Failure(e) => err == Some(e) && config == old(config)
        case Success(d) => err == None && config == d
    {
      var loaded := LoadConfig(disk.files, configPath);
      if loaded.Failure? {
        return Some(loaded.error);
      }
      config := loaded.value;
      return None;
    }

    function Voice(): Value
      reads this
    {
      VoiceOf(config)
    }

    function Temperature(): Value
      reads this
    {
      TemperatureOf(config)
    }

    function MaxTokens(): Value
      reads this
    {
      MaxTokensOf(config)
    }

    function Instructions(): Value
      reads this
    {
      InstructionsOf(config)
    }

    /** Sets one key, then writes the whole configuration back to its file. */
    method Update(key: string, v: Value, disk: Disk)
      modifies this`config, disk
      ensures config == old(config)[key := v]
      ensures disk.files == old(disk.files)[configPath := Document(config)]
      ensures LoadConfig(disk.files, configPath) == Success(config)
    {
      config := config[key := v];
      disk.Save(configPath, config);
    }

    method UpdateVoice(voice: string, disk: Disk)
      modifies this`config, disk
      ensures config == old(config)["voice" := Str(voice)]
      ensures Voice() == Str(voice)
      ensures Temperature() == old(Temperature()) && MaxTokens() == old(MaxTokens())
        && Instructions() == old(Instructions())
      ensures disk.files == old(disk.files)[configPath := Document(config)]
      ensures LoadConfig(disk.files, configPath) == Success(config)
    {
      Update("voice", Str(voice), disk);
    }

    method UpdateTemperature(temperature: real, disk: Disk)
      modifies this`config, disk
      ensures config == old(config)["temperature" := Float(temperature)]
      ensures Temperature() == Float(temperature)
      ensures Voice() == old(Voice()) && MaxTokens() == old(MaxTokens())
        && Instructions() == old(Instructions())
      ensures disk.files == old(disk.files)[configPath := Document(config)]
      ensures LoadConfig(disk.files, configPath) == Success(config)
    {
      Update("temperature", Float(temperature), disk);
    }

    method UpdateMaxTokens(maxTokens: int, disk: Disk)
      modifies this`config, disk
      ensures config == old(config)["max_tokens" := Int(maxTokens)]
      ensures MaxTokens() == Int(maxTokens)
      ensures Voice() == old(Voice()) && Temperature() == old(Temperature())
        && Instructions() == old(Instructions())
      ensures disk.files == old(disk.files)[configPath := Document(config)]
      ensures LoadConfig(disk.files, configPath) == Success(config)
    {
      Update("max_tokens", Int(maxTokens), disk);
    }

    method UpdateInstructions(instructions: string, disk: Disk)
      modifies this`config, disk
      ensures config == old(config)["instructions" := Str(instructions)]
      ensures Instructions() == Str(instructions)
      ensures Voice() == old(Voice()) && Temperature() == old(Temperature())
        && MaxTokens() == old(MaxTokens())
      ensures disk.files == old(disk.files)[configPath := Document(config)]
      ensures LoadConfig(disk.files, configPath) == Success(config)
    {
      Update("instructions", Str(instructions), disk);
    }
  }
}
