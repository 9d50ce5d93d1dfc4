/**
 * The standard-error wrapper installed at start-up: it drops the noisy
 * messages of the NNPACK backend and passes everything else on to the
 * stream it wraps.
 */
module StderrFiltering {
  import Strings

  /** The wrapped stream: what has been written to it, in order, and how often it was flushed. */
  class Stream {
    var written: seq<string>
    var flushes: nat

    constructor ()
      ensures written == [] && flushes == 0
    {
      written := [];
      flushes := 0;
    }

    method Write(message: string)
      modifies this`written
      ensures written == old(written) + [message]
    {
      written := written + [message];
    }

    method Flush()
      modifies this`flushes
      ensures flushes == old(flushes) + 1
    {
      flushes := flushes + 1;
    }
  }

  /** A message the filter drops. */
  predicate Suppressed(message: string) {
    Strings.Contains(message, "NNPACK") || Strings.Contains(message, "Unsupported hardware")
  }

  /** The messages of a sequence of writes that reach the wrapped stream, in call order. */
  function Kept(messages: seq<string>): (r: seq<string>)
    ensures |r| <= |messages|
    decreases |messages|
  {
    if messages == [] then []
    else
      var front := Kept(messages[..|messages| - 1]);
      var m := messages[|messages| - 1];
      if Suppressed(m) then front else front + [m]
  }

  /** Exactly the messages that are not suppressed get through. */
  lemma {:induction false} KeptExactly(messages: seq<string>, m: string)
    ensures m in Kept(messages) <==> m in messages && !Suppressed(m)
    decreases |messages|
  {
    if messages != [] {
      var front := messages[..|messages| - 1];
      KeptExactly(front, m);
      assert messages == front + [messages[|messages| - 1]];
    }
  }

  /** Writing two batches one after the other passes on what each batch passes, in order. */
  lemma {:induction false} KeptAppend(a: seq<string>, b: seq<string>)
    ensures Kept(a + b) == Kept(a) + Kept(b)
    decreases |b|
  {
    if b == [] {
      assert a + b == a;
    } else {
      var front := b[..|b| - 1];
      assert (a + b)[..|a + b| - 1] == a + front;
      KeptAppend(a, front);
    }
  }

  class StderrFilter {
    const original: Stream

    constructor (original: Stream)
      ensures this.original == original
    {
      this.original := original;
    }

    /** `write`: a suppressed message is dropped, any other is written unchanged. */
    method Write(message: string)
      modifies original`written
      ensures original.written == old(original.written) + Kept([message])
    {
      assert [message][..0] == [];
      if Strings.Contains(message, "NNPACK") || Strings.Contains(message, "Unsupported hardware") {
        return;
      }
      original.Write(message);
    }

    /** `flush`: passed on to the wrapped stream. */
    method Flush()
      modifies original`flushes
      ensures original.flushes == old(original.flushes) + 1
    {
      original.Flush();
    }

    /** Several writes in a row: the wrapped stream receives the kept messages in call order. */
    method WriteAll(messages: seq<string>)
      modifies original`written
      ensures original.written == old(original.written) + Kept(messages)
    {
      for i := 0 to |messages|
        invariant original.written == old(original.written) + Kept(messages[..i])
      {
        KeptAppend(messages[..i], [messages[i]]);
        assert messages[..i + 1] == messages[..i] + [messages[i]];
        Write(messages[i]);
      }
      assert messages[..|messages|] == messages;
    }
  }
}
