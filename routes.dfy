/**
 * The HTTP and WebSocket routes: the health report, and the per-call audio
 * bridge. The bridge is modelled as the sequence of actions it performs on
 * the socket, on the session worker and on the worker's task; the tenant
 * database, the worker's connection attempt and the client's frames are
 * its inputs.
 */
module Routes {
  import opened Wrappers
  import opened ConfigValues
  import Base64
  import Transcoder
  import ClientManagement

  /** `worker_status` of the health report. */
  function WorkerStatus(isDevelopment: bool, workerConnected: bool): (r: string)
    ensures r == "connected" <==> isDevelopment && workerConnected
    ensures r == "initializing" <==> isDevelopment && !workerConnected
    ensures r == "ready" <==> !isDevelopment
  {
    if isDevelopment then (if workerConnected then "connected" else "initializing")
    else "ready"
  }

  /** The body of `GET /health`. */
  datatype HealthReport = HealthReport(status: string, env: string, workerStatus: string, voiceModel: Value)

  /** `health_check`: the status is always `ok`; the worker status depends on the environment. */
  function Health(env: string, workerConnected: bool, agentConfig: Dict): (r: HealthReport)
    ensures r.status == "ok" && r.env == env
    ensures r.workerStatus == WorkerStatus(env == "development", workerConnected)
    ensures r.voiceModel == VoiceOf(agentConfig)
  {
    HealthReport("ok", env, WorkerStatus(env == "development", workerConnected), VoiceOf(agentConfig))
  }

  /** What the client sends next on the socket. */
  datatype Frame =
    | TextFrame(data: string)
    /** `WebSocketDisconnect`. */
    | Disconnect
    /** Any other exception while receiving or forwarding. */
    | ReceiveError

  /** What the bridge does, in order. */
  datatype Action =
    | Accept
    | Close(code: int, reason: string)
    /** A session worker is created for the tenant's configuration, with the socket as its audio output. */
    | CreateWorker(config: Dict)
    /** `asyncio.create_task(session_worker.connect_and_run())`. */
    | StartTask
    /** `connection.input_audio_buffer.append(audio=...)`. */
    | Forward(audio: string)
    /** `websocket.send_text(...)`. */
    | SendText(text: string)
    | ShutdownWorker
    | CancelTask

  const TenantNotFound: string := "Cliente não encontrado no sistema"
  const VoiceServerError: string := "Erro ao conectar com servidor de voz"
  const InternalError: string := "Erro interno do servidor"

  /** The receive loop: the text frames are forwarded until a disconnect or an error. */
  function Forwarded(frames: seq<Frame>): seq<Action>
    decreases |frames|
  {
    if frames == [] || !frames[0].TextFrame? then []
    else [Forward(frames[0].data)] + Forwarded(frames[1..])
  }

  /**
   * What the receive loop forwards is exactly the leading run of text
   * frames, each unchanged and in order; the frame that ends it is a
   * disconnect or an error.
   */
  lemma {:induction false} ForwardedIsTextPrefix(frames: seq<Frame>)
    ensures var r := Forwarded(frames);
      && |r| <= |frames|
      && (forall i :: 0 <= i < |r| ==> frames[i].TextFrame? && r[i] == Forward(frames[i].data))
      && (|r| < |frames| ==> !frames[|r|].TextFrame?)
    decreases |frames|
  {
    if frames != [] && frames[0].TextFrame? {
      ForwardedIsTextPrefix(frames[1..]);
    }
  }

  /** Once the tenant's configuration is known: the worker's session, then the teardown. */
  function SessionTrace(config: Dict, connects: bool, frames: seq<Frame>): (r: seq<Action>)
    ensures |r| >= 4 && r[..2] == [CreateWorker(config), StartTask] && r[|r| - 2..] == [ShutdownWorker, CancelTask]
    ensures !connects ==> forall i :: 0 <= i < |r| ==> !r[i].Forward?
  {
    [CreateWorker(config), StartTask]
    + (if connects then Forwarded(frames) else [Close(1011, VoiceServerError)])
    + [ShutdownWorker, CancelTask]
  }

  /**
   * `audio_stream` given the outcome of the tenant lookup. A missing tenant
   * closes with 4004 and an exception from the lookup with 1011, both before
   * any worker exists; otherwise the session runs and is torn down.
   */
  function StreamTrace(lookup: ClientManagement.FetchOutcome, connects: bool, frames: seq<Frame>): (r: seq<Action>)
    ensures |r| >= 2 && r[0] == Accept
  {
    [Accept] + match lookup
      case Missing => [Close(4004, TenantNotFound)]
      case Failed => [Close(1011, InternalError)]
      case Fetched(config, raisesAfterStore) =>
        if raisesAfterStore then [Close(1011, InternalError)] else SessionTrace(config, connects, frames)
  }

  /** A tenant that is not found gets a 4004 close, and no worker or task is created or torn down. */
  lemma TenantMissCloses4004(connects: bool, frames: seq<Frame>)
    ensures var r := StreamTrace(ClientManagement.Missing, connects, frames);
      r == [Accept, Close(4004, TenantNotFound)]
      && (forall c :: CreateWorker(c) !in r)
      && StartTask !in r && ShutdownWorker !in r && CancelTask !in r
  {
  }

  /** A worker still unconnected after the wait gets a 1011 close, and nothing is forwarded. */
  lemma NoConnectionCloses1011(config: Dict, frames: seq<Frame>)
    ensures var r := StreamTrace(ClientManagement.Fetched(config, false), false, frames);
      r == [Accept, CreateWorker(config), StartTask, Close(1011, VoiceServerError), ShutdownWorker, CancelTask]
  {
  }

  /**
   * Whenever a worker was created, the trace ends with its shutdown and then
   * the cancellation of its task, after everything else.
   */
  lemma TeardownRunsLast(lookup: ClientManagement.FetchOutcome, connects: bool, frames: seq<Frame>)
    ensures var r := StreamTrace(lookup, connects, frames);
      (exists c :: CreateWorker(c) in r) <==> (|r| >= 2 && r[|r| - 2..] == [ShutdownWorker, CancelTask])
  {
    var r := StreamTrace(lookup, connects, frames);
    if lookup.Fetched? && !lookup.raisesAfterStore {
      assert r[1] == CreateWorker(lookup.config);
    } else {
      assert |r| == 2 && r[1].Close?;
      assert forall c :: CreateWorker(c) !in r;
    }
  }

  /** `send_audio_to_client`: the base64 text of the audio, or nothing when the send raises. */
  function SendAudioToClient(audio: seq<Byte>, sendSucceeds: bool): (r: seq<Action>)
    ensures |r| <= 1
    ensures r != [] <==> sendSucceeds
    ensures r != [] ==> r[0] == SendText(Base64.Encode(audio)) && |r[0].text| % 4 == 0
    ensures r != [] ==> Base64.Decode(r[0].text) == Some(audio)
  {
    Base64.DecodeEncode(audio);
    if sendSucceeds then [SendText(Base64.Encode(audio))] else []
  }

  /** What is sent to the client is exactly what the transcoder's input cleaning accepts unchanged. */
  lemma SentAudioPassesSanitize(audio: seq<Byte>)
    ensures var r := SendAudioToClient(audio, true);
      |r| == 1 && Transcoder.Sanitize(Transcoder.Text(r[0].text)) == Some(Transcoder.AsciiBytes(r[0].text))
      && |r[0].text| == 4 * ((|audio| + 2) / 3)
  {
    Transcoder.SanitizeAcceptsEncodings(audio);
    Base64.EncodeLength(audio);
  }

  /**
   * `audio_stream`, step by step. The tenant is looked up through a new
   * client manager (so the lookup always reaches the database); `connects`
   * says whether the worker's connection is up after the two-second wait.
   */
  method AudioStream(sip: string, b: ClientManagement.Backend, nums: ClientManagement.NumberParsing,
                     now: int, storeTime: int, connects: bool, frames: seq<Frame>)
    returns (trace: seq<Action>)
    ensures trace == StreamTrace(ClientManagement.Fetch(b, sip, nums), connects, frames)
  {
    trace := [Accept];
    ghost var outcome := ClientManagement.Fetch(b, sip, nums);
    var manager := new ClientManagement.ClientManager();
    assert !manager.IsHit(sip, now);
    var lookup, _ := manager.GetClientConfig(sip, b, nums, now, storeTime);
    if lookup.Raised? {
      assert outcome.Failed? || (outcome.Fetched? && outcome.raisesAfterStore);
      trace := trace + [Close(1011, InternalError)];
      return;
    }
    if lookup.NotFound? {
      assert outcome.Missing?;
      trace := trace + [Close(4004, TenantNotFound)];
      return;
    }
    assert outcome.Fetched? && !outcome.raisesAfterStore && lookup.config.config == outcome.config;
    var session := RunSession(lookup.config.config, connects, frames);
    trace := trace + session;
  }

  /** The worker's session and the teardown, once the tenant's configuration is known. */
  method RunSession(config: Dict, connects: bool, frames: seq<Frame>) returns (actions: seq<Action>)
    ensures actions == SessionTrace(config, connects, frames)
  {
    actions := [CreateWorker(config), StartTask];
    if !connects {
      actions := actions + [Close(1011, VoiceServerError)];
    } else {
      var forwarded := [];
      var i := 0;
      while i < |frames| && frames[i].TextFrame?
        invariant i <= |frames|
        invariant forwarded + Forwarded(frames[i..]) == Forwarded(frames)
      {
        assert frames[i..][1..] == frames[i + 1..];
        forwarded := forwarded + [Forward(frames[i].data)];
        i := i + 1;
      }
      assert Forwarded(frames[i..]) == [];
      actions := actions + forwarded;
    }
    actions := actions + [ShutdownWorker, CancelTask];
  }
}
