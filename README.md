# Voice agent bridge: a Dafny model

This project models the core of a multi-tenant voice agent server. The server
bridges telephone calls to a realtime speech service. A call arrives as a
WebSocket carrying base64 audio for a SIP number. The server looks up the
tenant that owns the number in a database and caches the result with a
time-to-live. It then starts a session worker, which connects to the speech
service, sends the session options from the tenant's configuration and
dispatches the service's events. Audio is relayed both ways; the transcoder
converts between telephony mu-law at 8 kHz and PCM16 at 24 kHz. Around this
core sit the agent configuration loaders, the application settings, the
logging formatter and filters, the friendly error messages, the
standard-error filter and the `.env` checker of the test suite.

Every module is one source file:

| module | file | form |
|---|---|---|
| `Wrappers` | wrappers.dfy | `Option`, `Result`, octets |
| `Strings` | strings.dfy | the Python string operations the code relies on (`strip`, `in`, `startswith`, `lower`, `find`, `rfind`) |
| `Base64` | base64.dfy | the encoder of section 4 of RFC 4648 |
| `ConfigValues` | config_values.dfy | loaded JSON values, `dict.get`, the configuration accessors, `_load_config`, and a `Disk` class for the file system |
| `Transcoder` | transcoder.dfy | input sanitizing as functions; `AudioTranscoder` as a class whose two resampler states are fields |
| `AudioPlayback` | audio_processor.dfy | the playback queue as a class; the device callback's loop as a method proved against `Fill` |
| `Settings` | settings.dfy | the `APP_ENV` validator, environment predicates and log level |
| `AgentConfigLoader` | agent_config.dfy | the environment-aware loader: path resolution as functions, `AgentConfig` as a class |
| `RootAgentConfig` | root_agent_config.dfy | the older loader at the repository root, as a class |
| `ClientManagement` | client_manager.dfy | the database lookup as functions; `ClientManager` as a class with its cache map |
| `VoiceAssistant` | voice_assistant.dfy | event dispatch as functions; `Worker` as a class whose event loop is a method |
| `Routes` | routes.dfy | `/health` and the `/ws/audio/{sip_number}` bridge, as the sequence of actions the bridge performs |
| `Logging` | logger.dfy | colour stripping, the formatter, the Azure filter and the friendly error messages |
| `EnvironmentTester` | env_tester.dfy | `load_env_file` and `validate_required_vars` as loop methods proved against functions |
| `StderrFiltering` | stderr_filter.dfy | `StderrFilter` as a class around a wrapped stream |

Library calls that the code does not implement are parameters of the model:
the database queries (`Backend`), `float()`/`int()` on strings
(`NumberParsing`), and base64 decoding, mu-law companding and resampling
(`Codec`). The clock is an `int` argument. The order in which concurrent
tasks interleave is a sequence argument. Each parameter is described where it
is declared.

## Model

| member | source | states |
|---|---|---|
| Strings.StripStart | tests/test_all_environments.py:61 | the result is a suffix of the text, everything removed is Python whitespace, and it does not start with whitespace |
| Strings.StripEnd | tests/test_all_environments.py:61 | the result is a prefix of the text, everything removed is Python whitespace, and it does not end with whitespace |
| Strings.Strip | tests/test_all_environments.py:61 | `str.strip()`: the result has no Python whitespace at either end |
| Strings.IndexOf | tests/test_all_environments.py:63 | the first occurrence of a character: it is at the returned index and nowhere before it; `None` exactly when the character is absent |
| Strings.LastIndexOf | src/core/config/agent_config_loader.py:62-63 | the last occurrence of a character: it is at the returned index and nowhere after it |
| Strings.LastIndexOfAfter | src/core/config/agent_config_loader.py:62-63 | a character absent from a tail makes the last occurrence in `a + [c] + b` the one just before `b` |
| Strings.Lower | src/core/logging/logger.py:236 | lower-casing keeps the length and maps each character through the ASCII case mapping |
| Base64.Encode | src/services/transcoder.py:47 | the encoding has a length that is a multiple of four, is empty exactly for empty input, uses only alphabet letters and `=`, and has padding only in its last two places and only when the input length is not a multiple of three; `DecodeEncode` shows it loses nothing |
| Base64.EncodeLength | src/services/transcoder.py:82 | the encoding has exactly four characters per started group of three octets |
| Base64.SextetValue | src/services/transcoder.py:37 | a letter has a 6-bit value exactly when it is in the alphabet |
| Base64.SextetRoundTrip | src/services/transcoder.py:37 | the value of the letter for a 6-bit value is that value |
| Base64.DecodeGroup | src/services/transcoder.py:37 | four letters decode to three octets |
| Base64.DecodeLast | src/services/transcoder.py:37 | the last group, padded or not, decodes to one to three octets |
| Base64.Decode | src/services/transcoder.py:65 | `base64.b64decode` of a padded encoding; text that is not one decodes to `None` |
| Base64.GroupRoundTrip | src/services/transcoder.py:82 | a group of three octets, encoded, decodes back to them, as an inner or as the last group |
| Base64.TailRoundTrip | src/services/transcoder.py:82 | one or two octets, encoded with padding, decode back to them |
| Base64.DecodeCons | src/services/transcoder.py:65 | decoding a full group followed by more text is the group's octets followed by the rest's |
| Base64.DecodeEncode | src/services/transcoder.py:47 | decoding the encoding of any octets gives back exactly those octets |
| Transcoder.StripBytes | src/services/transcoder.py:100 | `bytes.strip()`: no ASCII whitespace octet remains at either end |
| Transcoder.AsciiBytes | src/services/transcoder.py:97-98 | `encode('ascii', 'ignore')`: every resulting octet is below 128, and ASCII-only text is kept octet for octet |
| Transcoder.NonAsciiDroppedAnywhere | src/services/transcoder.py:97-98 | a non-ASCII character is dropped wherever it stands in the text |
| Transcoder.Padding | src/services/transcoder.py:106-109 | fewer than four `=` octets that complete the length to a multiple of four |
| Transcoder.Sanitize | src/services/transcoder.py:88-111 | refused exactly when the cleaned length is 4k+1; otherwise the cleaned octets followed by the padding, of a length that is a multiple of four |
| Transcoder.SanitizeKeepsAligned | src/services/transcoder.py:100-111 | trimmed octets of a length that is a multiple of four pass sanitizing unchanged |
| Transcoder.SanitizeIdempotent | src/services/transcoder.py:88-111 | sanitizing the result of sanitizing changes nothing |
| Transcoder.SanitizeAcceptsEncodings | src/services/transcoder.py:95-111 | any base64 encoding, such as the conversions return, passes sanitizing as its own ASCII octets |
| Transcoder.Uplink | src/services/transcoder.py:25-51 | a refused or empty payload yields `None` and keeps the state; a result exists exactly when the payload is usable, decodes, and resamples, it comes with the resampler's new state, and it decodes back to the resampled 24 kHz audio; any failure keeps the state |
| Transcoder.AlignFrames | src/services/transcoder.py:69-70 | exactly one trailing octet is dropped from an odd length, leaving a prefix of even length |
| Transcoder.Downsampled | src/services/transcoder.py:69-82 | a result exists exactly when there are at least two octets and the resampler succeeds on the whole frames; it comes with the new state and decodes back to the μ-law of the 8 kHz audio |
| Transcoder.Downlink | src/services/transcoder.py:53-86 | a refused or empty payload or one that does not decode yields `None` and keeps the state; a decoded payload gives exactly `Downsampled` of its octets |
| Transcoder.DownlinkDropsLoneOctet | src/services/transcoder.py:69-73 | a payload that decodes to a single octet yields `None` and leaves the state alone |
| Transcoder.AudioTranscoder.constructor | src/services/transcoder.py:19-23 | both resampler states start empty |
| Transcoder.AudioTranscoder.TwilioToAzure | src/services/transcoder.py:25-51 | the result and the new uplink state are those of `Uplink`; the downlink state is untouched |
| Transcoder.AudioTranscoder.AzureToTwilio | src/services/transcoder.py:53-86 | the result and the new downlink state are those of `Downlink`; the uplink state is untouched |
| AudioPlayback.Played | src/services/audio_processor.py:88-91 | an empty queue plays nothing; `PlayedAppend` and `StalePacketNeverPlays` state the order and the filtering |
| AudioPlayback.PlayedAppend | src/services/audio_processor.py:88-91 | what two stretches of queue play is what each plays, concatenated |
| AudioPlayback.StalePacketNeverPlays | src/services/audio_processor.py:90 | a packet numbered below the playback base contributes nothing, wherever it is queued |
| AudioPlayback.StaleQueuePlaysNothing | src/services/audio_processor.py:116-121 | a queue of packets all older than the base plays nothing |
| AudioPlayback.Drain | src/services/audio_processor.py:88-93 | the rest of the queue is a suffix of it; the loop stops with enough octets or an empty queue; a full carry buffer takes nothing |
| AudioPlayback.DrainAppendsPlayed | src/services/audio_processor.py:88-93 | the new carry buffer is the old one followed by exactly what the consumed packets play |
| AudioPlayback.Silence | src/services/audio_processor.py:84 | `bytearray(n)`: n zero octets |
| AudioPlayback.Fill | src/services/audio_processor.py:80-99 | every device buffer holds exactly two octets per frame; the queue left is the drained one |
| AudioPlayback.FillShape | src/services/audio_processor.py:95-97 | the buffer is the head of the carry then silence once the carry runs out; the carry keeps exactly the unwritten octets |
| AudioPlayback.FillConserves | src/services/audio_processor.py:80-99 | no octet is lost, duplicated or reordered: written octets plus new carry are old carry plus what was drained |
| AudioPlayback.FillFromFullCarry | src/services/audio_processor.py:88 | a carry that already fills the buffer leaves the queue untouched |
| AudioPlayback.OrderedSuffix | src/services/audio_processor.py:111-114 | dropping packets from the head keeps the queue ordered |
| AudioPlayback.DrainKeepsOrder | src/services/audio_processor.py:88-93 | what the fill loop leaves of an ordered queue is ordered |
| AudioPlayback.Closing | src/services/audio_processor.py:123-129 | a stream that exists ends closed; one never opened stays unopened |
| AudioPlayback.AudioProcessor.constructor | src/services/audio_processor.py:33-53 | empty queue, base and counter at zero, not speaking, no streams |
| AudioPlayback.AudioProcessor.Open | src/services/audio_processor.py:33-35 | without the audio library the constructor fails with "PyAudio não está instalado."; otherwise a fresh, valid processor |
| AudioPlayback.AudioProcessor.StartPlayback | src/services/audio_processor.py:76-78 | the output stream runs with an empty carry buffer |
| AudioPlayback.AudioProcessor.QueueAudio | src/services/audio_processor.py:111-114 | the packet is appended under the next number, which moves on by one; the queue stays ordered |
| AudioPlayback.AudioProcessor.SkipPendingAudio | src/services/audio_processor.py:116-121 | the queue is emptied, the base becomes the next number, no packet queued before can ever play, and the agent is no longer speaking |
| AudioPlayback.AudioProcessor.FillOutput | src/services/audio_processor.py:80-99 | the callback's output, queue and carry buffer are those of `Fill`; the queue stays ordered |
| AudioPlayback.AudioProcessor.Shutdown | src/services/audio_processor.py:123-132 | each stream that exists is closed and the library is terminated |
| ConfigValues.GetOr | src/services/client_manager.py:130-150 | `dict.get`: the stored value when the key is present, the default otherwise |
| ConfigValues.VoiceOf | src/core/config/agent_config_loader.py:91-94 | the stored voice, or `en-US-Andrew:DragonHDLatestNeural` |
| ConfigValues.TemperatureOf | src/core/config/agent_config_loader.py:96-99 | the stored temperature, or 0.7 |
| ConfigValues.MaxTokensOf | src/core/config/agent_config_loader.py:101-104 | the stored token limit, or 800 |
| ConfigValues.InstructionsOf | src/core/config/agent_config_loader.py:106-109 | the stored instructions, or the empty text |
| ConfigValues.Truthy | src/services/voice_assistant.py:102-112 | Python's truth value of a loaded value: false for null, false, zero, and empty text, list or object |
| ConfigValues.NotFoundMessage | src/core/config/agent_config_loader.py:79-82 | the error message ends with the path |
| ConfigValues.LoadConfig | src/core/config/agent_config_loader.py:77-85 | a missing file is `FileNotFoundError` with that message; success exactly when the file holds a JSON object, whose fields are returned |
| ConfigValues.Disk.Save | src/core/config/agent_config_loader.py:151-154 | the file is replaced, and what is written loads back as the same dictionary |
| Settings.Join | src/core/config/settings.py:45 | `", ".join`: empty for no items, the item itself for one |
| Settings.InvalidEnvMessageText | src/core/config/settings.py:43-45 | the error message lists `development, staging, production` in that order |
| Settings.ValidateEnvironment | src/core/config/settings.py:39-46 | accepted exactly for the three environments, unchanged; otherwise `ValueError` with that message |
| Settings.ExactlyOneEnvironment | src/core/config/settings.py:48-58 | an accepted environment satisfies exactly one of the three predicates |
| Settings.IsDevelopment | src/core/config/settings.py:48-50 | true exactly for `development` |
| Settings.IsStaging | src/core/config/settings.py:52-54 | true exactly for `staging` |
| Settings.IsProduction | src/core/config/settings.py:56-58 | true exactly for `production` |
| Settings.DefaultEnvironmentIsValid | src/core/config/settings.py:8 | the default `development` passes the validator |
| Settings.LogLevel | src/core/config/settings.py:60-67 | DEBUG exactly in development, INFO everywhere else |
| AgentConfigLoader.ParsePath | src/core/config/agent_config_loader.py:23 | `Path(text)` prints back as the same text; the name holds no `/` and the directory ends with one |
| AgentConfigLoader.SuffixStart | src/core/config/agent_config_loader.py:63 | the suffix starts at a `.` that is neither first nor last, with no `.` after it |
| AgentConfigLoader.Suffix | src/core/config/agent_config_loader.py:63 | `Path.suffix`: empty, or a `.` followed by at least one character and no other `.` |
| AgentConfigLoader.Stem | src/core/config/agent_config_loader.py:63 | `Path.stem`: stem followed by suffix is the name; a non-empty name has a non-empty stem |
| AgentConfigLoader.EnvPath | src/core/config/agent_config_loader.py:62-63 | the environment file lives in the same directory and has a longer name |
| AgentConfigLoader.EnvPathKeepsSuffix | src/core/config/agent_config_loader.py:63 | the environment file keeps the default file's extension |
| AgentConfigLoader.ParseAtLastSlash | src/core/config/agent_config_loader.py:62-63 | a path splits into directory and name at its last `/` |
| AgentConfigLoader.EnvPathInsertsEnv | src/core/config/agent_config_loader.py:63 | `dir/stem.ext` becomes `dir/stem.env.ext` |
| AgentConfigLoader.ResolveConfigPath | src/core/config/agent_config_loader.py:46-75 | development uses the default path; elsewhere the environment file when it exists, else the default |
| AgentConfigLoader.ResolvedExistsWithDefault | src/core/config/agent_config_loader.py:46-75 | whenever the default file exists, the resolved file exists |
| AgentConfigLoader.AgentConfig.FromDict | src/core/config/agent_config_loader.py:27-44 | the dictionary as given, environment `production` by default, no paths |
| AgentConfigLoader.AgentConfig.Loaded | src/core/config/agent_config_loader.py:14-25 | a loader holding the given environment, paths and configuration |
| AgentConfigLoader.AgentConfig.Load | src/core/config/agent_config_loader.py:14-25 | the configuration read from the resolved path, or that path's load error |
| AgentConfigLoader.AgentConfig.Reload | src/core/config/agent_config_loader.py:87-89 | the configuration is replaced by the file's; on an error, or with no path, nothing changes |
| AgentConfigLoader.AgentConfig.Update | src/core/config/agent_config_loader.py:151-154 | one key is set and the whole configuration is written back, so the file reloads to it; with no path nothing is written; no file other than the configuration's own is written |
| AgentConfigLoader.AgentConfig.UpdateVoice | src/core/config/agent_config_loader.py:111-119 | the voice reads back as set, the other properties are unchanged, and the file reloads to the configuration; no file other than the configuration's own is written |
| AgentConfigLoader.AgentConfig.UpdateTemperature | src/core/config/agent_config_loader.py:121-129 | as `UpdateVoice`, for the temperature; no file other than the configuration's own is written |
| AgentConfigLoader.AgentConfig.UpdateMaxTokens | src/core/config/agent_config_loader.py:131-139 | as `UpdateVoice`, for the token limit; no file other than the configuration's own is written |
| AgentConfigLoader.AgentConfig.UpdateInstructions | src/core/config/agent_config_loader.py:141-149 | as `UpdateVoice`, for the instructions; no file other than the configuration's own is written |
| RootAgentConfig.AgentConfig.Loaded | agent_config_loader.py:11-19 | a loader holding the given path and configuration |
| RootAgentConfig.AgentConfig.Load | agent_config_loader.py:11-29 | a missing file fails with `FileNotFoundError`; otherwise the file's configuration or its decode error |
| RootAgentConfig.AgentConfig.Reload | agent_config_loader.py:31-33 | the configuration is replaced by the file's; on an error nothing changes |
| RootAgentConfig.AgentConfig.Update | agent_config_loader.py:95-99 | one key is set and the file then reloads to the whole configuration; no other file is written |
| RootAgentConfig.AgentConfig.UpdateVoice | agent_config_loader.py:55-63 | the voice reads back as set, the other properties are unchanged, the file reloads to it; no other file is written |
| RootAgentConfig.AgentConfig.UpdateTemperature | agent_config_loader.py:65-73 | as `UpdateVoice`, for the temperature; no other file is written |
| RootAgentConfig.AgentConfig.UpdateMaxTokens | agent_config_loader.py:75-83 | as `UpdateVoice`, for the token limit; no other file is written |
| RootAgentConfig.AgentConfig.UpdateInstructions | agent_config_loader.py:85-93 | as `UpdateVoice`, for the instructions; no other file is written |
| ClientManagement.ToFloat | src/services/client_manager.py:132 | `float(v)`: floats as they are, integers converted, null, lists and objects raise |
| ClientManagement.Truncate | src/services/client_manager.py:133 | `int(f)` rounds toward zero, for either sign |
| ClientManagement.ToInt | src/services/client_manager.py:133 | `int(v)`: integers as they are, null, lists and objects raise |
| ClientManagement.ConvertRow | src/services/client_manager.py:119-151 | conversion succeeds exactly when the six numeric fields, stored or defaulted, convert; temperature, token limit, silence duration, threshold and the frequency and presence penalties are each the stored value or its default, converted |
| ClientManagement.ToDictKeys | src/services/client_manager.py:129-151 | the converted dictionary has exactly the listed keys, with text and audio modalities |
| ClientManagement.ToDictFields | src/services/client_manager.py:129-151 | the agent's properties read the converted fields back, and `audio` is the row's `audio_config` |
| ClientManagement.EmptyRowGivesDefaults | src/services/client_manager.py:129-151 | an empty row converts to the default voice, 0.7, 800, the default instructions and audio settings |
| ClientManagement.FindClient | src/services/client_manager.py:57-74 | a raising query raises; no row means no client; a client is returned only when it is active |
| ClientManagement.FetchConfig | src/services/client_manager.py:76-97 | a raising query raises; a configuration is returned exactly when the row is a non-empty object that converts; a client row without `client_name` raises after the cache is filled |
| ClientManagement.Fetch | src/services/client_manager.py:55-101 | a missing client is `None`, a failing first query raises, and a configuration comes only from an active client |
| ClientManagement.QueryCount | src/services/client_manager.py:57-85 | a miss asks twice exactly when the client is active, once otherwise |
| ClientManagement.MissingRowsAreNotErrors | src/services/client_manager.py:83-85 | an active client with no configuration row gives `None`, not an exception |
| ClientManagement.FreshKeys | src/services/client_manager.py:188-192 | the fresh entries are among the entries counted |
| ClientManagement.ExpiredKeys | src/services/client_manager.py:188-192 | the expired entries are among the entries counted |
| ClientManagement.CountStep | src/services/client_manager.py:188-192 | counting one more entry adds one to exactly one of the two counts |
| ClientManagement.FreshAndExpiredPartition | src/services/client_manager.py:188-199 | every entry is fresh or expired, never both, and the two counts add up to the size of the cache |
| ClientManagement.StoreAfterDelete | src/services/client_manager.py:103-116 | storing over a deleted entry is storing over the original one |
| ClientManagement.ClientManager.constructor | src/services/client_manager.py:19-30 | an empty cache, time-to-live 300 seconds by default |
| ClientManagement.ClientManager.GetFromCache | src/services/client_manager.py:103-112 | a fresh entry is returned and the cache is unchanged; otherwise `None` and any expired entry is removed |
| ClientManagement.ClientManager.StoreInCache | src/services/client_manager.py:114-117 | the entry is set with the current time, replacing any earlier one |
| ClientManagement.ClientManager.GetClientConfig | src/services/client_manager.py:33-101 | a hit is answered without a query; a miss makes `QueryCount` queries and returns `None`, raises, or stores and returns the fetched configuration, which is then a hit |
| ClientManagement.ClientManager.InvalidateCache | src/services/client_manager.py:153-167 | a non-empty number removes only its entry; `None` or an empty number clears the cache |
| ClientManagement.ClientManager.RefreshCache | src/services/client_manager.py:169-180 | a non-empty number always goes to the database with the query count of a miss; a missing or failing row leaves the cache without the number, and a found row is cached fresh under it as a production configuration, returned unless the call raises after storing; no other entry changes |
| ClientManagement.ClientManager.GetCacheStats | src/services/client_manager.py:182-199 | total, fresh and expired counts, which add up, and the time-to-live; the cache is unchanged |
| VoiceAssistant.Nested | src/services/voice_assistant.py:96-102 | `config[outer][inner]` is defined exactly when both keys exist, and is that value |
| VoiceAssistant.SessionOptionsOf | src/services/voice_assistant.py:91-116 | options exist exactly when the five nested keys exist; the turn-detection values are copied, echo cancellation and noise reduction follow the truth of their values, and the other fields are the agent's properties |
| VoiceAssistant.Dispatch | src/services/voice_assistant.py:131-162 | speech start cancels the response, after skipping queued audio when a processor exists; a delta goes to the handler, else to the processor, else nowhere; other events ask nothing |
| VoiceAssistant.AudioDeliveredOnce | src/services/voice_assistant.py:145-151 | an audio delta is delivered at most once, never to both the handler and the processor |
| VoiceAssistant.Step | src/services/voice_assistant.py:121-162 | a stopped loop ignores everything; a shutdown call sets the flag and sends the processor's shutdown when there is a processor; an event after the flag ends the loop without dispatching; otherwise the event is dispatched |
| VoiceAssistant.RunAppend | src/services/voice_assistant.py:123 | processing two stretches of arrivals is processing their concatenation |
| VoiceAssistant.Run | src/services/voice_assistant.py:121-162 | a stopped loop is inert, the shutdown flag stays set, and commands are only ever appended |
| VoiceAssistant.RunStopped | src/services/voice_assistant.py:124-125 | once the loop has ended, later arrivals change nothing |
| VoiceAssistant.EventAfterShutdownEndsLoop | src/services/voice_assistant.py:124-125 | the first event after a shutdown call ends the loop and sends nothing more |
| VoiceAssistant.DispatchAll | src/services/voice_assistant.py:123-162 | dispatching no events asks nothing |
| VoiceAssistant.RunWithoutShutdown | src/services/voice_assistant.py:121-162 | without a shutdown every event is dispatched in order and the loop runs to the end of the stream |
| VoiceAssistant.Worker.constructor | src/services/voice_assistant.py:35-50 | not connected, no processor, no shutdown requested, nothing sent |
| VoiceAssistant.Worker.Shutdown | src/services/voice_assistant.py:164-168 | the flag is set and the processor, when there is one, is shut down |
| VoiceAssistant.Worker.ProcessEvents | src/services/voice_assistant.py:121-162 | the loop's commands, flag and end are those of `Run` on the arrivals |
| VoiceAssistant.Worker.ConnectAndRun | src/services/voice_assistant.py:54-89 | a failed connection sends nothing; a local processor exists only in development with audio available; a session update is sent first, then the events are processed |
| Routes.WorkerStatus | src/api/routes.py:60-66 | `connected` or `initializing` in development by the worker's connection, `ready` elsewhere |
| Routes.Health | src/api/routes.py:57-73 | status `ok`, the environment, the worker status and the agent's voice |
| Routes.Forwarded | src/api/routes.py:152-166 | the receive loop's forwards; `ForwardedIsTextPrefix` states what they are |
| Routes.ForwardedIsTextPrefix | src/api/routes.py:152-166 | exactly the leading run of text frames is forwarded, unchanged and in order, and the frame that stops it is a disconnect or an error |
| Routes.StreamTrace | src/api/routes.py:84-189 | every bridge accepts the socket first and performs at least one more action |
| Routes.TenantMissCloses4004 | src/api/routes.py:112-117 | an unknown tenant gets close 4004 with its message, and no worker or task is ever created or torn down |
| Routes.NoConnectionCloses1011 | src/api/routes.py:139-147 | a worker still unconnected after the wait gets close 1011, nothing is forwarded, and the worker is torn down |
| Routes.TeardownRunsLast | src/api/routes.py:175-187 | a worker was created exactly when the trace ends with its shutdown followed by the asyncio task's cancellation |
| Routes.SendAudioToClient | src/api/routes.py:122-129 | one text frame exactly when the send succeeds, nothing otherwise; the frame is the base64 text of the audio, of length 4k, and decodes back to the audio |
| Routes.SentAudioPassesSanitize | src/api/routes.py:122-127 | what is sent to the client passes the transcoder's sanitizing unchanged and has four characters per started group of three octets |
| Routes.AudioStream | src/api/routes.py:84-189 | the actions of the bridge are `StreamTrace` of the database outcome, whatever the lookup path through the client manager |
| Routes.RunSession | src/api/routes.py:131-187 | the worker session and teardown are `SessionTrace`: create, start, forward or close 1011, shut down, cancel |
| Routes.SessionTrace | src/api/routes.py:131-187 | worker creation and task start come first, its shutdown and the asyncio task's cancellation last, and nothing is forwarded without a connection |
| Logging.Sgr | src/core/logging/logger.py:11-26 | an SGR sequence is the escape character, `[`, the code and `m` |
| Logging.EscapeLength | src/core/logging/logger.py:32 | a match starts at an escape character and spans at least two characters |
| Logging.EscapeLengthMatches | src/core/logging/logger.py:32 | a length it finds is that of `ESC` with an `Fe` byte, or of a control sequence whose parameters are the greedy run |
| Logging.ParameterRun | src/core/logging/logger.py:32 | the leading run of parameter bytes: all of them are parameters and the next byte is not |
| Logging.IntermediateRun | src/core/logging/logger.py:32 | the leading run of intermediate bytes: all of them are intermediates and the next byte is not |
| Logging.IsCsi | src/core/logging/logger.py:32 | the control-sequence alternative of the pattern: `ESC [`, parameters, intermediates and a final byte |
| Logging.PatternMatch | src/core/logging/logger.py:32 | the stripping pattern matches a prefix of the given length |
| Logging.EscapeLengthExact | src/core/logging/logger.py:32 | `EscapeLength` gives a length exactly when the pattern matches a prefix of that length |
| Logging.StripColors | src/core/logging/logger.py:28-33 | stripping never lengthens the text; with `UnmatchedEscKept` and the lemmas below, what is removed and what is kept |
| Logging.UnmatchedEscKept | src/core/logging/logger.py:28-33 | an escape character that starts no match is kept and the scan goes on after it |
| Logging.LoneEscKept | src/core/logging/logger.py:32-33 | `ESC` before a byte that is neither `Fe` nor `[` is kept |
| Logging.UnterminatedCsiKept | src/core/logging/logger.py:32-33 | `ESC [` and parameter bytes with no final byte are kept |
| Logging.NoEscapeUnchanged | src/core/logging/logger.py:28-33 | text without an escape character is left as it is |
| Logging.StripSplitsAtEsc | src/core/logging/logger.py:32-33 | stripping distributes over a split made just before an escape character |
| Logging.SgrStrips | src/core/logging/logger.py:28-33 | an SGR sequence in front of any text is removed whole |
| Logging.EmojiFor | src/core/logging/logger.py:44-51 | no emoji contains an escape character |
| Logging.ColorStrips | src/core/logging/logger.py:53-60 | every level colour, CRITICAL's two sequences included, is removed by stripping |
| Logging.ColorFor | src/core/logging/logger.py:53-60 | `COLOR_MAP.get`: the level's colour, CRITICAL's two sequences, or nothing for other levels; `ColorStrips` states that stripping removes it |
| Logging.RecordEmoji | src/core/logging/logger.py:84-88 | the level's emoji only when both emoji and detail are on, empty otherwise |
| Logging.ColorsOnlyWrap | src/core/logging/logger.py:93-96 | a coloured line, stripped, is the plain line stripped |
| Logging.Formatted | src/core/logging/logger.py:82-98 | what `format` returns; `ColorsOnlyWrap` and `PlainLinesHaveNoEscape` state its properties |
| Logging.PlainLinesHaveNoEscape | src/core/logging/logger.py:82-98 | without colours a line holds no escape character the rendering did not, so stripping leaves it unchanged |
| Logging.FormatterFor | src/core/logging/logger.py:153-162 | development is coloured with emoji and detail, staging has emoji and detail, everything else is minimal |
| Logging.ProductionLinesArePlain | src/core/logging/logger.py:160-162 | production output is the rendered line itself |
| Logging.DevelopmentIsColouredStaging | src/core/logging/logger.py:154-159 | development output, stripped, is staging output, stripped |
| Logging.CustomFormatter.constructor | src/core/logging/logger.py:62-80 | the three switches as given, all on by default |
| Logging.CustomFormatter.Format | src/core/logging/logger.py:82-98 | the record's emoji is set by `RecordEmoji` and the result is the decorated rendering |
| Logging.AzureFilter | src/core/logging/logger.py:112-123 | records not from Azure, and everything in development, pass; other Azure records pass exactly at WARNING and above |
| Logging.AzureFilterMonotone | src/core/logging/logger.py:122-123 | a record that passes still passes at any higher level |
| Logging.FirstApplying | src/core/logging/logger.py:234-237 | the returned entry applies and none before it does; `None` only when no entry applies |
| Logging.UserFriendlyError | src/core/logging/logger.py:211-243 | the message of the first entry that applies, in table order, or the generic text |
| Logging.ConnectionErrorsComeFirst | src/core/logging/logger.py:226-237 | a type name containing `ConnectionError` always gets the connection message |
| Logging.GenericErrorHidesDetails | src/core/logging/logger.py:239-243 | outside development the generic text is the same whatever the error's type and message |
| EnvironmentTester.RequiredFor | tests/test_all_environments.py:15-25 | a list exists exactly for `all`, `staging` and `production`, and `all` is the common list |
| EnvironmentTester.ParseLine | tests/test_all_environments.py:60-64 | one line of a `.env` file; `ParseLineKeeps` and `ValueKeepsEquals` state what it keeps |
| EnvironmentTester.ParseLineKeeps | tests/test_all_environments.py:61-62 | a line is kept exactly when, stripped, it is non-empty, not a comment and holds an `=` |
| EnvironmentTester.ValueKeepsEquals | tests/test_all_environments.py:63-64 | a line splits at its first `=`, so the value keeps any later `=` |
| EnvironmentTester.LastStoreWins | tests/test_all_environments.py:63-64 | the last store of a key decides its value |
| EnvironmentTester.LastOccurrenceWins | tests/test_all_environments.py:60-64 | the last line setting a key decides its value |
| EnvironmentTester.ParseEnv | tests/test_all_environments.py:51-66 | the dictionary of a file's lines; `LastOccurrenceWins` and `KeysComeFromLines` state its properties |
| EnvironmentTester.KeysComeFromStores | tests/test_all_environments.py:63-64 | every key of the dictionary was stored by some entry |
| EnvironmentTester.KeysComeFromLines | tests/test_all_environments.py:60-64 | every key of the dictionary comes from a kept line |
| EnvironmentTester.LoadEnvFile | tests/test_all_environments.py:51-66 | a missing file gives an empty dictionary; otherwise the dictionary its lines build |
| EnvironmentTester.MissingOf | tests/test_all_environments.py:76-81 | never more names than are required |
| EnvironmentTester.MissingOfExactly | tests/test_all_environments.py:76-81 | a name is reported exactly when it is required and absent, empty or a `your-` placeholder |
| EnvironmentTester.MissingOfAppend | tests/test_all_environments.py:76-81 | checking two lists of names reports the first's missing names, then the second's, in order |
| EnvironmentTester.NothingSetMissesAll | tests/test_all_environments.py:78-81 | with no variables, every required name is reported, in order |
| EnvironmentTester.RequiredNames | tests/test_all_environments.py:70-74 | the common list, followed by the name's own list when it has one |
| EnvironmentTester.ValidateRequiredVars | tests/test_all_environments.py:68-83 | the missing names in required order, and valid exactly when there are none |
| StderrFiltering.Kept | src/main.py:19-24 | never more messages than were written |
| StderrFiltering.KeptExactly | src/main.py:21-24 | a message gets through exactly when it mentions neither `NNPACK` nor `Unsupported hardware` |
| StderrFiltering.KeptAppend | src/main.py:19-24 | two batches of writes pass on what each passes, in order |
| StderrFiltering.Suppressed | src/main.py:21-22 | a message mentioning `NNPACK` or `Unsupported hardware` is dropped |
| StderrFiltering.StderrFilter.constructor | src/main.py:16-17 | the filter wraps the given stream |
| StderrFiltering.StderrFilter.Write | src/main.py:19-24 | a suppressed message is dropped; any other is written unchanged |
| StderrFiltering.StderrFilter.Flush | src/main.py:26-27 | the flush is passed on |
| StderrFiltering.StderrFilter.WriteAll | src/main.py:19-24 | successive writes reach the stream as the kept messages, in call order |

## Left out

- Mu-law companding and resampling (`audioop.ulaw2lin`, `lin2ulaw`, `ratecv`) are library code; the model takes them as the `Codec` parameter and proves nothing about their output beyond what the transcoder does with it. The transcoder's own decoding of incoming payloads (`base64.b64decode`, which also skips characters outside the alphabet) is the parameter's `b64decode` too; `Base64.Decode` is the strict decoder of RFC 4648 that the outgoing encodings are proved to decode under.
- The database client (`create_client`, the query builder) is the `Backend` parameter; errors raised while creating the client are not modelled.
- `float()` and `int()` applied to strings are the `NumberParsing` parameter; bools are treated as the integers 1 and 0 as in Python.
- Floating point is modelled with `real`; no rounding is modelled.
- `time.time()` is an `int` argument (`now`, `storeTime`) rather than a float clock.
- Concurrency: the worker's event loop and the `shutdown` calls from other tasks are one interleaved sequence of arrivals. The two-second wait before the bridge checks the worker's connection is the `connects` argument.
- Exceptions raised by collaborators inside the event loop and the receive loop (the output handler, `response.cancel`, `input_audio_buffer.append`) are not modelled. Neither is a failing `websocket.close`.
- VoiceAssistant.Worker: the audio processor calls are recorded as commands, not wired to `AudioPlayback.AudioProcessor`.
- `start_capture` (the microphone callback) is not modelled; it sends captured audio and changes no state the model keeps.
- The root route `/` is left out: it returns a constant.
- The `lifespan` hook is left out. It starts the development-only global worker task.
- Python's `pathlib` normalisation is not modelled. `Path` is split at its last `/` only; redundant separators and `.` components are kept as written.
- `json.load` returning a non-object top level is treated like a decode error.
- Strings.Lower: lower-cases ASCII letters only. Python's full Unicode case mapping (for example the Kelvin sign) is not modelled.
- `setup_logging`'s handler bookkeeping and `configure_third_party_loggers` only set levels on library loggers; they are not modelled.
- `logging.Formatter.format` (timestamp, level name, logger name) is the `rendered` argument of `CustomFormatter.Format`.
- `StderrFiltering.Stream` stands in for the original `sys.stderr`; only what the filter does with it is modelled.
- Settings.LogLevel follows the code, which returns INFO in production. The repository's environment test expects WARNING there (tests/test_environments.py:88-95).
- The fields of `Settings` that pydantic loads from the process environment are not modelled; only the validator, the environment predicates and the log level are.
- The `.env` tester's other checks (importing settings, loading the agent configuration, the ports table) and its printing are not modelled.
