/**
 * The session worker: it connects to the realtime voice service, sends the
 * session options built from the agent configuration, and then dispatches
 * the server events it receives until the stream ends or a shutdown is
 * requested.
 *
 * The connection, the audio output handler and the local audio processor
 * are collaborators: what the worker asks of them is recorded as a
 * sequence of `Command`s. The event stream and the `shutdown` calls made
 * by other tasks are one interleaved sequence of `Arrival`s.
 */
module VoiceAssistant {
  import opened Wrappers
  import opened ConfigValues

  /** The server events the worker tells apart; every other type is `OtherEvent`. */
  datatype Event =
    | SpeechStarted
    | SpeechStopped
    | AudioDelta(delta: seq<Byte>)
    | ServerError(message: string)
    | TranscriptDone(transcript: string)
    | InputTranscriptionCompleted(transcript: string)
    | OtherEvent(kind: string)

  /** What the event stream delivers next: an event, or a `shutdown` call from another task. */
  datatype Arrival = Received(event: Event) | ShutdownCalled

  /** `ServerVad`: the turn-detection values, copied from the configuration. */
  datatype Vad = Vad(threshold: Value, prefixPaddingMs: Value, silenceDurationMs: Value)

  /** `RequestSession`: text and audio modalities, PCM16 in and out. */
  datatype SessionOptions = SessionOptions(
    instructions: Value, voice: Value, turnDetection: Vad, echoCancellation: bool,
    noiseReduction: Option<Value>, temperature: Value, maxTokens: Value)

  /** A request the worker makes of a collaborator. */
  datatype Command =
    /** `connection.session.update(session=...)`. */
    | SessionUpdate(options: SessionOptions)
    /** `audio_processor.skip_pending_audio()`. */
    | SkipPendingAudio
    /** `connection.response.cancel()`. */
    | ResponseCancel
    /** `audio_output_handler(delta)`. */
    | HandleAudio(data: seq<Byte>)
    /** `audio_processor.queue_audio(delta)`. */
    | QueueAudio(data: seq<Byte>)
    /** `audio_processor.shutdown()`. */
    | ProcessorShutdown

  /** `config[outer][inner]`, `None` where Python raises (`KeyError` or `TypeError`). */
  function Nested(d: Dict, outer: string, inner: string): (r: Option<Value>)
    ensures r.Some? <==> outer in d && d[outer].Obj? && inner in d[outer].fields
    ensures r.Some? ==> r.value == d[outer].fields[inner]
  {
    if outer in d && d[outer].Obj? && inner in d[outer].fields then Some(d[outer].fields[inner]) else None
  }

  /**
   * `_configure_session`: the options built from the agent configuration.
   * Noise reduction is requested with the configured type when that type
   * is truthy, echo cancellation when its flag is truthy; there is no
   * result when one of the five nested keys is missing.
   */
  function SessionOptionsOf(config: Dict): (r: Option<SessionOptions>)
    ensures r.Some? <==>
      && Nested(config, "turn_detection", "threshold").Some?
      && Nested(config, "turn_detection", "prefix_padding_ms").Some?
      && Nested(config, "turn_detection", "silence_duration_ms").Some?
      && Nested(config, "audio", "noise_reduction").Some?
      && Nested(config, "audio", "echo_cancellation").Some?
    ensures r.Some? ==>
      var audio := config["audio"].fields;
      && (r.value.noiseReduction.Some? <==> Truthy(audio["noise_reduction"]))
      && (r.value.noiseReduction.Some? ==> r.value.noiseReduction.value == audio["noise_reduction"])
      && (r.value.echoCancellation <==> Truthy(audio["echo_cancellation"]))
    ensures r.Some? ==>
      var vad := config["turn_detection"].fields;
      r.value.turnDetection == Vad(vad["threshold"], vad["prefix_padding_ms"], vad["silence_duration_ms"])
    ensures r.Some? ==>
      && r.value.voice == VoiceOf(config) && r.value.instructions == InstructionsOf(config)
      && r.value.temperature == TemperatureOf(config) && r.value.maxTokens == MaxTokensOf(config)
  {
    var threshold := Nested(config, "turn_detection", "threshold");
    var padding := Nested(config, "turn_detection", "prefix_padding_ms");
    var silence := Nested(config, "turn_detection", "silence_duration_ms");
    var noise := Nested(config, "audio", "noise_reduction");
    var echo := Nested(config, "audio", "echo_cancellation");
    if threshold.None? || padding.None? || silence.None? || noise.None? || echo.None? then None
    else Some(SessionOptions(
      InstructionsOf(config), VoiceOf(config),
      Vad(threshold.value, padding.value, silence.value),
      Truthy(echo.value),
      if Truthy(noise.value) then Some(noise.value) else None,
      TemperatureOf(config), MaxTokensOf(config)))
  }

  /**
   * The commands one event causes. Speech start skips the pending local
   * audio (when there is a processor) and then cancels the response; an
   * audio delta goes to the output handler when there is one, otherwise to
   * the processor when there is one, otherwise nowhere; every other event
   * is only logged.
   */
  function Dispatch(e: Event, hasHandler: bool, hasProcessor: bool): (r: seq<Command>)
    ensures ResponseCancel in r <==> e.SpeechStarted?
    ensures SkipPendingAudio in r <==> e.SpeechStarted? && hasProcessor
    ensures e.SpeechStarted? ==> r[|r| - 1] == ResponseCancel && |r| == (if hasProcessor then 2 else 1)
    ensures forall d :: HandleAudio(d) in r <==> e == AudioDelta(d) && hasHandler
    ensures forall d :: QueueAudio(d) in r <==> e == AudioDelta(d) && !hasHandler && hasProcessor
    ensures !e.SpeechStarted? && !e.AudioDelta? ==> r == []
    ensures |r| <= 2
  {
    match e
    case SpeechStarted => (if hasProcessor then [SkipPendingAudio] else []) + [ResponseCancel]
    case AudioDelta(delta) =>
      if hasHandler then [HandleAudio(delta)]
      else if hasProcessor then [QueueAudio(delta)]
      else []
    case _ => []
  }

  /** An audio delta is delivered at most once: never to both the handler and the processor. */
  lemma AudioDeliveredOnce(delta: seq<Byte>, hasHandler: bool, hasProcessor: bool)
    ensures !(HandleAudio(delta) in Dispatch(AudioDelta(delta), hasHandler, hasProcessor)
              && QueueAudio(delta) in Dispatch(AudioDelta(delta), hasHandler, hasProcessor))
    ensures |Dispatch(AudioDelta(delta), hasHandler, hasProcessor)| <= 1
  {
  }

  /** The commands of `_process_events` so far, the shutdown flag, and whether the loop has ended. */
  datatype Progress = Progress(sent: seq<Command>, shutdown: bool, stopped: bool)

  /**
   * One arrival. A `shutdown` call sets the flag and shuts the processor
   * down; an event received with the flag set ends the loop undispatched;
   * once ended, nothing more happens.
   */
  function Step(p: Progress, x: Arrival, hasHandler: bool, hasProcessor: bool): (r: Progress)
    ensures p.stopped ==> r == p
    ensures !p.stopped && x.ShutdownCalled? ==>
      r.shutdown && !r.stopped && r.sent == p.sent + (if hasProcessor then [ProcessorShutdown] else [])
    ensures !p.stopped && x.Received? && p.shutdown ==> r == Progress(p.sent, true, true)
    ensures !p.stopped && x.Received? && !p.shutdown ==>
      r == Progress(p.sent + Dispatch(x.event, hasHandler, hasProcessor), false, false)
  {
    if p.stopped then p
    else match x
      case ShutdownCalled => Progress(p.sent + (if hasProcessor then [ProcessorShutdown] else []), true, false)
      case Received(e) =>
        if p.shutdown then Progress(p.sent, true, true)
        else Progress(p.sent + Dispatch(e, hasHandler, hasProcessor), false, false)
  }

  /** The arrivals taken one after the other. */
  function Run(p: Progress, xs: seq<Arrival>, hasHandler: bool, hasProcessor: bool): (r: Progress)
    ensures p.stopped ==> r == p
    ensures p.shutdown ==> r.shutdown
    ensures |p.sent| <= |r.sent| && r.sent[..|p.sent|] == p.sent
    decreases |xs|
  {
    if xs == [] then p else Run(Step(p, xs[0], hasHandler, hasProcessor), xs[1..], hasHandler, hasProcessor)
  }

  /** Running two stretches of arrivals is running their concatenation. */
  lemma {:induction false} RunAppend(p: Progress, a: seq<Arrival>, b: seq<Arrival>, hasHandler: bool, hasProcessor: bool)
    ensures Run(p, a + b, hasHandler, hasProcessor) == Run(Run(p, a, hasHandler, hasProcessor), b, hasHandler, hasProcessor)
    decreases |a|
  {
    if a == [] {
      assert a + b == b;
    } else {
      assert (a + b)[0] == a[0];
      assert (a + b)[1..] == a[1..] + b;
      RunAppend(Step(p, a[0], hasHandler, hasProcessor), a[1..], b, hasHandler, hasProcessor);
    }
  }

  /** Once the loop has ended, further arrivals change nothing. */
  lemma {:induction false} RunStopped(p: Progress, xs: seq<Arrival>, hasHandler: bool, hasProcessor: bool)
    requires p.stopped
    ensures Run(p, xs, hasHandler, hasProcessor) == p
    decreases |xs|
  {
    if xs != [] {
      RunStopped(p, xs[1..], hasHandler, hasProcessor);
    }
  }

  /**
   * Once `shutdown` has been called, the next event ends the loop without
   * being dispatched, and nothing after it is sent.
   */
  lemma EventAfterShutdownEndsLoop(p: Progress, a: seq<Arrival>, e: Event, b: seq<Arrival>, hasHandler: bool, hasProcessor: bool)
    ensures var before := Run(p, a + [ShutdownCalled], hasHandler, hasProcessor);
      var r := Run(p, a + [ShutdownCalled, Received(e)] + b, hasHandler, hasProcessor);
      r.stopped && r.sent == before.sent
  {
    var before := Run(p, a + [ShutdownCalled], hasHandler, hasProcessor);
    assert a + [ShutdownCalled, Received(e)] + b == (a + [ShutdownCalled]) + ([Received(e)] + b);
    RunAppend(p, a + [ShutdownCalled], [Received(e)] + b, hasHandler, hasProcessor);
    RunAppend(p, a, [ShutdownCalled], hasHandler, hasProcessor);
    assert before.stopped || before.shutdown;
    var next := Step(before, Received(e), hasHandler, hasProcessor);
    assert next.stopped && next.sent == before.sent;
    RunStopped(next, b, hasHandler, hasProcessor);
    assert ([Received(e)] + b)[1..] == b;
  }

  /** The commands of a stream of events dispatched one by one, with no shutdown involved. */
  function DispatchAll(events: seq<Event>, hasHandler: bool, hasProcessor: bool): (r: seq<Command>)
    ensures events == [] ==> r == []
    decreases |events|
  {
    if events == [] then []
    else Dispatch(events[0], hasHandler, hasProcessor) + DispatchAll(events[1..], hasHandler, hasProcessor)
  }

  /** Events received one after the other, with no `shutdown` call among them. */
  function Receptions(events: seq<Event>): (xs: seq<Arrival>)
    ensures |xs| == |events| && forall i :: 0 <= i < |xs| ==> xs[i] == Received(events[i])
  {
    seq(|events|, i requires 0 <= i < |events| => Received(events[i]))
  }

  /** Before a shutdown, the first reception is dispatched and the loop goes on with the rest. */
  lemma RunFirstReception(p: Progress, events: seq<Event>, hasHandler: bool, hasProcessor: bool)
    requires !p.shutdown && !p.stopped && events != []
    ensures Run(p, Receptions(events), hasHandler, hasProcessor)
      == Run(Progress(p.sent + Dispatch(events[0], hasHandler, hasProcessor), false, false),
             Receptions(events[1..]), hasHandler, hasProcessor)
  {
    var xs := Receptions(events);
    assert xs[1..] == Receptions(events[1..]);
  }

  /** Without a shutdown, every event is dispatched, in order, and the loop runs to the end of the stream. */
  lemma {:induction false} RunWithoutShutdown(p: Progress, events: seq<Event>, hasHandler: bool, hasProcessor: bool)
    requires !p.shutdown && !p.stopped
    ensures Run(p, Receptions(events), hasHandler, hasProcessor)
      == Progress(p.sent + DispatchAll(events, hasHandler, hasProcessor), false, false)
    decreases |events|
  {
    if events != [] {
      var d := Dispatch(events[0], hasHandler, hasProcessor);
      var rest := DispatchAll(events[1..], hasHandler, hasProcessor);
      RunFirstReception(p, events, hasHandler, hasProcessor);
      RunWithoutShutdown(Progress(p.sent + d, false, false), events[1..], hasHandler, hasProcessor);
      assert (p.sent + d) + rest == p.sent + (d + rest);
    }
  }

  class Worker {
    /** `settings.is_development()`. */
    const isDevelopment: bool
    /** Whether an audio output handler was given. */
    const hasHandler: bool
    /** The injected agent configuration's dictionary. */
    const config: Dict
    /** Whether `connection` is set. */
    var connected: bool
    /** Whether `audio_processor` is set. */
    var hasProcessor: bool
    /** `_shutdown_event`. */
    var shutdownRequested: bool
    /** Everything asked of the collaborators so far, in order. */
    var sent: seq<Command>

    constructor (config: Dict, isDevelopment: bool, hasHandler: bool)
      ensures this.config == config && this.isDevelopment == isDevelopment && this.hasHandler == hasHandler
      ensures !connected && !hasProcessor && !shutdownRequested && sent == []
    {
      this.config := config;
      this.isDevelopment := isDevelopment;
      this.hasHandler := hasHandler;
      connected := false;
      hasProcessor := false;
      shutdownRequested := false;
      sent := [];
    }

    /** `shutdown`: sets the flag and shuts the audio processor down when there is one. */
    method Shutdown()
      modifies this`shutdownRequested, this`sent
      ensures shutdownRequested
      ensures sent == old(sent) + (if hasProcessor then [ProcessorShutdown] else [])
    {
      shutdownRequested := true;
      if hasProcessor {
        sent := sent + [ProcessorShutdown];
      }
    }

    /**
     * `_process_events`: takes the arrivals in order until the stream ends or
     * an event arrives after a shutdown; `consumed` is how many were taken.
     */
    method ProcessEvents(arrivals: seq<Arrival>) returns (consumed: nat)
      modifies this`shutdownRequested, this`sent
      ensures var r := Run(Progress(old(sent), old(shutdownRequested), false), arrivals, hasHandler, hasProcessor);
        sent == r.sent && shutdownRequested == r.shutdown
        && consumed <= |arrivals| && (consumed < |arrivals| ==> r.stopped)
    {
      ghost var start := Progress(sent, shutdownRequested, false);
      var i := 0;
      while i < |arrivals|
        invariant i <= |arrivals|
        invariant Run(Progress(sent, shutdownRequested, false), arrivals[i..], hasHandler, hasProcessor)
          == Run(start, arrivals, hasHandler, hasProcessor)
      {
        assert arrivals[i..][1..] == arrivals[i + 1..];
        match arrivals[i] {
          case ShutdownCalled =>
            Shutdown();
          case Received(e) =>
            if shutdownRequested {
              RunStopped(Progress(sent, true, true), arrivals[i + 1..], hasHandler, hasProcessor);
              return i + 1;
            }
            sent := sent + Dispatch(e, hasHandler, hasProcessor);
        }
        i := i + 1;
      }
      return |arrivals|;
    }

    /**
     * `connect_and_run`. A connection that fails leaves the worker
     * unconnected. Once connected, a local audio processor is set up only in
     * development with the audio library available; the session options are
     * sent, then the events are processed. Any failure ends the method
     * quietly: there is no retry.
     */
    method ConnectAndRun(connects: bool, audioAvailable: bool, arrivals: seq<Arrival>)
      modifies this`connected, this`hasProcessor, this`shutdownRequested, this`sent
      ensures connected == (old(connected) || connects)
      ensures hasProcessor == (old(hasProcessor) || (connects && isDevelopment && audioAvailable))
      ensures !connects || SessionOptionsOf(config).None? ==>
        sent == old(sent) && shutdownRequested == old(shutdownRequested)
      ensures connects && SessionOptionsOf(config).Some? ==>
        var r := Run(Progress(old(sent) + [SessionUpdate(SessionOptionsOf(config).value)], old(shutdownRequested), false),
                     arrivals, hasHandler, hasProcessor);
        sent == r.sent && shutdownRequested == r.shutdown
    {
      if !connects {
        return;
      }
      connected := true;
      if isDevelopment && audioAvailable {
        hasProcessor := true;
      }
      var options := SessionOptionsOf(config);
      if options.None? {
        return;
      }
      sent := sent + [SessionUpdate(options.value)];
      var _ := ProcessEvents(arrivals);
    }
  }
}
