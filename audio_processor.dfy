/**
 * Local playback of the agent's audio (development only): a queue of
 * sequence-numbered packets, a barge-in skip that raises the playback base,
 * and the fill routine the audio device calls for every output buffer.
 *
 * The device callback runs on another thread in the program; here each call
 * is one sequential step. The capture side (microphone to service) is not
 * part of this model.
 */
module AudioPlayback {
  import opened Wrappers

  /** Stream format: 16-bit mono at 24 kHz, 960 frames (40 ms) per device buffer. */
  const Channels: nat := 1
  const Rate: nat := 24000
  const ChunkSize: nat := 960

  /** `AudioPlaybackPacket`: a chunk of PCM tagged with its queueing order. */
  datatype Packet = Packet(seqNum: nat, data: Option<seq<Byte>>)

  /** A packet is played when it carries some octets and is not older than the playback base. */
  predicate Playable(p: Packet, base: nat) {
    p.data.Some? && p.data.value != [] && p.seqNum >= base
  }

  /** The octets of the playable packets of `ps`, in queue order. */
  function Played(ps: seq<Packet>, base: nat): (r: seq<Byte>)
    ensures ps == [] ==> r == []
    decreases |ps|
  {
    if ps == [] then []
    else (if Playable(ps[0], base) then ps[0].data.value else []) + Played(ps[1..], base)
  }

  lemma {:induction false} PlayedAppend(a: seq<Packet>, b: seq<Packet>, base: nat)
    ensures Played(a + b, base) == Played(a, base) + Played(b, base)
    decreases |a|
  {
    if a != [] {
      assert (a + b)[1..] == a[1..] + b;
      PlayedAppend(a[1..], b, base);
    } else {
      assert a + b == b;
    }
  }

  /** A packet older than the base contributes nothing, wherever it stands in the queue. */
  lemma StalePacketNeverPlays(a: seq<Packet>, p: Packet, b: seq<Packet>, base: nat)
    requires p.seqNum < base
    ensures Played(a + [p] + b, base) == Played(a + b, base)
  {
    PlayedAppend(a + [p], b, base);
    PlayedAppend(a, [p], base);
    PlayedAppend(a, b, base);
    assert Played([p], base) == Played([p][1..], base);
  }

  /** A queue holding only packets older than the base plays nothing at all. */
  lemma {:induction false} StaleQueuePlaysNothing(ps: seq<Packet>, base: nat)
    requires forall i :: 0 <= i < |ps| ==> ps[i].seqNum < base
    ensures Played(ps, base) == []
    decreases |ps|
  {
    if ps != [] {
      StaleQueuePlaysNothing(ps[1..], base);
    }
  }

  /**
   * The `while` loop of the fill routine: take packets from the head of the
   * queue, appending the playable ones to the carry buffer, until the buffer
   * holds `needed` octets or the queue is empty. Returns the rest of the queue
   * and the new carry buffer.
   */
  function Drain(queue: seq<Packet>, carry: seq<Byte>, base: nat, needed: nat): (r: (seq<Packet>, seq<Byte>))
    ensures |r.0| <= |queue| && forall i :: 0 <= i < |r.0| ==> r.0[i] == queue[|queue| - |r.0| + i]
    ensures |r.1| >= needed || r.0 == []
    ensures |carry| >= needed ==> r == (queue, carry)
    decreases |queue|
  {
    if |carry| >= needed || queue == [] then (queue, carry)
    else
      var p := queue[0];
      Drain(queue[1..], if Playable(p, base) then carry + p.data.value else carry, base, needed)
  }

  /** Draining keeps the old carry in front and appends exactly the playable part of what it consumed. */
  lemma {:induction false} DrainAppendsPlayed(queue: seq<Packet>, carry: seq<Byte>, base: nat, needed: nat)
    ensures var r := Drain(queue, carry, base, needed);
      r.1 == carry + Played(queue[..|queue| - |r.0|], base)
    decreases |queue|
  {
    var r := Drain(queue, carry, base, needed);
    if |carry| >= needed || queue == [] {
      assert queue[..|queue| - |r.0|] == [];
    } else {
      var p := queue[0];
      var next := if Playable(p, base) then carry + p.data.value else carry;
      DrainAppendsPlayed(queue[1..], next, base, needed);
      var k := |queue| - |r.0|;
      assert queue[..k][1..] == queue[1..][..|queue[1..]| - |r.0|];
      assert queue[..k][0] == p;
    }
  }

  /** `count` zero octets: `bytearray(count)`. */
  function Silence(count: nat): (r: seq<Byte>)
    ensures |r| == count && forall i :: 0 <= i < count ==> r[i] == 0
  {
    seq(count, _ => 0)
  }

  /**
   * One device buffer of `frameCount` frames, from the queue and the carry
   * buffer: the octets written out, the rest of the queue, and the carry
   * buffer left for the next call.
   */
  function Fill(queue: seq<Packet>, carry: seq<Byte>, base: nat, frameCount: nat): (r: (seq<Byte>, seq<Packet>, seq<Byte>))
    ensures |r.0| == 2 * frameCount
    ensures r.1 == Drain(queue, carry, base, 2 * frameCount).0
  {
    var needed := 2 * frameCount;
    var d := Drain(queue, carry, base, needed);
    var valid := if |d.1| < needed then |d.1| else needed;
    (d.1[..valid] + Silence(needed - valid), d.0, d.1[valid..])
  }

  /**
   * What a device buffer holds: the head of the drained carry buffer, then
   * silence only once that buffer is used up; the carry keeps exactly the
   * octets not written, in order.
   */
  lemma FillShape(queue: seq<Packet>, carry: seq<Byte>, base: nat, frameCount: nat)
    ensures var needed := 2 * frameCount;
      var b := Drain(queue, carry, base, needed).1;
      var r := Fill(queue, carry, base, frameCount);
      (|b| >= needed ==> r.0 == b[..needed] && r.2 == b[needed..])
      && (|b| < needed ==> r.0 == b + Silence(needed - |b|) && r.2 == [])
  {
    var needed := 2 * frameCount;
    var b := Drain(queue, carry, base, needed).1;
    if |b| < needed {
      assert b[..|b|] == b;
    }
  }

  /**
   * No octet is lost or reordered by a fill: what it writes (without the
   * silence) followed by the new carry is the old carry followed by the
   * playable packets it took from the queue.
   */
  lemma FillConserves(queue: seq<Packet>, carry: seq<Byte>, base: nat, frameCount: nat)
    ensures var r := Fill(queue, carry, base, frameCount);
      var source := carry + Played(queue[..|queue| - |r.1|], base);
      (r.2 != [] ==> r.0 + r.2 == source)
      && (r.2 == [] ==> |source| <= |r.0| && r.0 == source + Silence(|r.0| - |source|))
  {
    var needed := 2 * frameCount;
    DrainAppendsPlayed(queue, carry, base, needed);
    FillShape(queue, carry, base, frameCount);
    var b := Drain(queue, carry, base, needed).1;
    if |b| >= needed {
      assert b[..needed] + b[needed..] == b;
    }
  }

  /** A carry buffer that already holds a whole device buffer is not refilled: the queue is untouched. */
  lemma FillFromFullCarry(queue: seq<Packet>, carry: seq<Byte>, base: nat, frameCount: nat)
    requires |carry| >= 2 * frameCount
    ensures var r := Fill(queue, carry, base, frameCount);
      r.1 == queue && r.0 + r.2 == carry
  {
    var needed := 2 * frameCount;
    assert carry[..needed] + carry[needed..] == carry;
  }

  /**
   * Packets wait in queueing order, each tagged below the next number to give
   * out and none older than the playback base.
   */
  predicate Ordered(queue: seq<Packet>, base: nat, next: nat) {
    base <= next
    && (forall i :: 0 <= i < |queue| ==> base <= queue[i].seqNum < next)
    && (forall i, j :: 0 <= i < j < |queue| ==> queue[i].seqNum < queue[j].seqNum)
  }

  /** Dropping packets from the head keeps a queue ordered. */
  lemma OrderedSuffix(queue: seq<Packet>, k: nat, base: nat, next: nat)
    requires Ordered(queue, base, next) && k <= |queue|
    ensures Ordered(queue[k..], base, next)
  {
    var rest := queue[k..];
    assert forall i :: 0 <= i < |rest| ==> rest[i] == queue[k + i];
  }

  /** Whatever the fill routine leaves of an ordered queue is still ordered. */
  lemma DrainKeepsOrder(queue: seq<Packet>, carry: seq<Byte>, base: nat, next: nat, needed: nat)
    requires Ordered(queue, base, next)
    ensures Ordered(Drain(queue, carry, base, needed).0, base, next)
  {
    var rest := Drain(queue, carry, base, needed).0;
    assert rest == queue[|queue| - |rest|..];
    OrderedSuffix(queue, |queue| - |rest|, base, next);
  }

  /** Where a stream stands: never opened, running, or stopped and closed. */
  datatype StreamState = NotOpened | Running | Closed

  /** Closing a stream that exists; a stream never opened stays so. */
  function Closing(s: StreamState): (r: StreamState)
    ensures r == Closed <==> s != NotOpened
    ensures r != Running
  {
    if s == NotOpened then NotOpened else Closed
  }

  class AudioProcessor {
    /** `playback_queue`, head first. */
    var queue: seq<Packet>
    var playbackBase: nat
    var nextSeqNum: nat
    var isAgentSpeaking: bool
    /** The carry buffer (`remaining`) of the running playback callback. */
    var remaining: seq<Byte>
    var inputStream: StreamState
    var outputStream: StreamState
    /** Whether the audio library instance has been terminated. */
    var terminated: bool

    /** The queue invariant over the fields: see `Ordered`. */
    predicate Valid()
      reads this
    {
      Ordered(queue, playbackBase, nextSeqNum)
    }

    constructor ()
      ensures Valid()
      ensures queue == [] && playbackBase == 0 && nextSeqNum == 0 && !isAgentSpeaking
      ensures remaining == [] && inputStream == NotOpened && outputStream == NotOpened && !terminated
    {
      queue := [];
      playbackBase := 0;
      nextSeqNum := 0;
      isAgentSpeaking := false;
      remaining := [];
      inputStream := NotOpened;
      outputStream := NotOpened;
      terminated := false;
    }

    /** The constructor's guard: without the audio library it raises `RuntimeError`. */
    static method Open(audioAvailable: bool) returns (r: Result<AudioProcessor, string>)
      ensures r.Failure? <==> !audioAvailable
      ensures r.Failure? ==> r.error == "PyAudio não está instalado."
      ensures r.Success? ==>
        fresh(r.value) && r.value.Valid() && r.value.queue == []
        && r.value.nextSeqNum == 0 && r.value.playbackBase == 0
    {
      if !audioAvailable {
        return Failure("PyAudio não está instalado.");
      }
      var p := new AudioProcessor();
      return Success(p);
    }

    /** `start_playback`: opens the output stream with a fresh, empty carry buffer. */
    method StartPlayback()
      modifies this`outputStream, this`remaining
      ensures outputStream == Running && remaining == []
    {
      remaining := [];
      outputStream := Running;
    }

    /** `queue_audio`: the packet takes the next sequence number, which then moves on. */
    method QueueAudio(data: seq<Byte>)
      requires Valid()
      modifies this`queue, this`nextSeqNum
      ensures Valid()
      ensures queue == old(queue) + [Packet(old(nextSeqNum), Some(data))]
      ensures nextSeqNum == old(nextSeqNum) + 1
    {
      queue := queue + [Packet(nextSeqNum, Some(data))];
      nextSeqNum := nextSeqNum + 1;
    }

    /**
     * `skip_pending_audio` (barge-in): drops every queued packet and raises the
     * base to the next number, so nothing queued before now is played. The
     * carry buffer is not touched: octets already drained still play.
     */
    method SkipPendingAudio()
      requires Valid()
      modifies this`queue, this`playbackBase, this`isAgentSpeaking
      ensures Valid()
      ensures queue == [] && playbackBase == nextSeqNum && !isAgentSpeaking
      ensures remaining == old(remaining)
      ensures forall p: Packet :: p.seqNum < old(nextSeqNum) ==> !Playable(p, playbackBase)
    {
      queue := [];
      playbackBase := nextSeqNum;
      isAgentSpeaking := false;
    }

    /**
     * The playback callback: exactly `frameCount` 16-bit frames of output,
     * the carry buffer first, then zeros.
     */
    method FillOutput(frameCount: nat) returns (out: seq<Byte>)
      requires Valid()
      modifies this`queue, this`remaining
      ensures Valid()
      ensures (out, queue, remaining) == Fill(old(queue), old(remaining), playbackBase, frameCount)
    {
      var needed := 2 * frameCount;
      ghost var target := Drain(queue, remaining, playbackBase, needed);
      while |remaining| < needed && queue != []
        invariant Drain(queue, remaining, playbackBase, needed) == target
        decreases |queue|
      {
        var packet := queue[0];
        queue := queue[1..];
        if packet.data.Some? && packet.data.value != [] && packet.seqNum >= playbackBase {
          remaining := remaining + packet.data.value;
        }
      }
      assert (queue, remaining) == target;
      DrainKeepsOrder(old(queue), old(remaining), playbackBase, nextSeqNum, needed);
      var validLen := if |remaining| < needed then |remaining| else needed;
      out := remaining[..validLen] + Silence(needed - validLen);
      remaining := remaining[validLen..];
      assert Ordered(queue, playbackBase, nextSeqNum);
    }

    /** `shutdown`: stops and closes whichever streams exist and terminates the library. */
    method Shutdown()
      modifies this`inputStream, this`outputStream, this`terminated
      ensures inputStream == Closing(old(inputStream)) && outputStream == Closing(old(outputStream))
      ensures terminated
    {
      if inputStream != NotOpened {
        inputStream := Closed;
      }
      if outputStream != NotOpened {
        outputStream := Closed;
      }
      terminated := true;
    }
  }
}
