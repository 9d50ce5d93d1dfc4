/**
 * The audio transcoder of one call: G.711 mu-law at 8 kHz (telephony side)
 * to PCM16 at 24 kHz (speech-service side) and back, on base64 text payloads.
 *
 * The G.711 codec, the resampler and base64 decoding are library calls the
 * code does not implement; they are the `Codec` oracle here. Encoding the
 * result is modelled concretely by `Base64.Encode`.
 */
module Transcoder {
  import opened Wrappers
  import Strings
  import Base64

  /** A payload as the caller hands it over: a `str` or a `bytes` object. */
  datatype Payload = Text(chars: string) | Raw(bytes: seq<Byte>)

  /** The ASCII whitespace octets `bytes.strip()` removes: space, tab, LF, VT, FF, CR. */
  predicate IsByteSpace(b: Byte) {
    b == 32 || 9 <= b <= 13
  }

  /** The octet of `=`. */
  const Pad: Byte := 61

  /** Drops leading ASCII whitespace. */
  function StripStart(s: seq<Byte>): (r: seq<Byte>)
    ensures |r| <= |s| && r == s[|s| - |r|..]
    ensures forall i :: 0 <= i < |s| - |r| ==> IsByteSpace(s[i])
    ensures r == [] || !IsByteSpace(r[0])
    decreases |s|
  {
    if |s| > 0 && IsByteSpace(s[0]) then StripStart(s[1..]) else s
  }

  /** Drops trailing ASCII whitespace. */
  function StripEnd(s: seq<Byte>): (r: seq<Byte>)
    ensures |r| <= |s| && r == s[..|r|]
    ensures forall i :: |r| <= i < |s| ==> IsByteSpace(s[i])
    ensures r == [] || !IsByteSpace(r[|r| - 1])
    decreases |s|
  {
    if |s| > 0 && IsByteSpace(s[|s| - 1]) then StripEnd(s[..|s| - 1]) else s
  }

  /** `data.strip()` on `bytes`: no whitespace octet is left at either end. */
  function StripBytes(s: seq<Byte>): (r: seq<Byte>)
    ensures r == [] || (!IsByteSpace(r[0]) && !IsByteSpace(r[|r| - 1]))
  {
    var t := StripStart(s);
    var r := StripEnd(t);
    assert r != [] ==> r[0] == t[0];
    r
  }

  /** Octets with no whitespace at either end are their own strip. */
  lemma StripBytesTrimmed(s: seq<Byte>)
    requires s == [] || (!IsByteSpace(s[0]) && !IsByteSpace(s[|s| - 1]))
    ensures StripBytes(s) == s
  {
    assert StripStart(s) == s;
    assert StripEnd(s) == s;
  }

  /** `s.encode('ascii', 'ignore')`: every code point above 127 is dropped, the rest kept in order. */
  function AsciiBytes(s: string): (r: seq<Byte>)
    ensures |r| <= |s|
    ensures forall i :: 0 <= i < |r| ==> r[i] < 128
    ensures (forall i :: 0 <= i < |s| ==> s[i] as int < 128) ==> |r| == |s| && forall i :: 0 <= i < |s| ==> r[i] == s[i] as int
    decreases |s|
  {
    if |s| == 0 then []
    else if s[0] as int < 128 then [s[0] as int] + AsciiBytes(s[1..])
    else AsciiBytes(s[1..])
  }

  lemma {:induction false} AsciiBytesAppend(a: string, b: string)
    ensures AsciiBytes(a + b) == AsciiBytes(a) + AsciiBytes(b)
    decreases |a|
  {
    if |a| > 0 {
      assert (a + b)[1..] == a[1..] + b;
      AsciiBytesAppend(a[1..], b);
    } else {
      assert a + b == b;
    }
  }

  /** A non-ASCII character is dropped wherever it stands. */
  lemma NonAsciiDroppedAnywhere(a: string, c: char, b: string)
    requires c as int >= 128
    ensures AsciiBytes(a + [c] + b) == AsciiBytes(a + b)
  {
    AsciiBytesAppend(a + [c], b);
    AsciiBytesAppend(a, [c]);
    AsciiBytesAppend(a, b);
    assert AsciiBytes([c]) == AsciiBytes([c][1..]);
  }

  /** The octets sanitizing works on: a `str` is ASCII-encoded first, `bytes` are taken as they are. */
  function InputBytes(p: Payload): seq<Byte> {
    match p
    case Text(s) => AsciiBytes(s)
    case Raw(b) => b
  }

  /** The octets left after ASCII-encoding and stripping surrounding whitespace. */
  function Stripped(p: Payload): seq<Byte> {
    StripBytes(InputBytes(p))
  }

  /** The `=` octets that complete a text of `n` octets to a multiple of four. */
  function Padding(n: nat): (r: seq<Byte>)
    ensures (n + |r|) % 4 == 0 && |r| < 4
    ensures forall i :: 0 <= i < |r| ==> r[i] == Pad
  {
    var missing := n % 4;
    if missing != 0 then seq(4 - missing, _ => Pad) else []
  }

  /** `_sanitize_base64_input`: clean, length-check and pad a payload. A length of
      4k+1 is never the length of a base64 text (section 4 of RFC 4648), so it is refused. */
  function Sanitize(p: Payload): (r: Option<seq<Byte>>)
    ensures r.None? <==> |Stripped(p)| % 4 == 1
    ensures r.Some? ==> r.value == Stripped(p) + Padding(|Stripped(p)|)
    ensures r.Some? ==> |r.value| % 4 == 0
  {
    var data := Stripped(p);
    if |data| % 4 == 1 then None
    else Some(data + Padding(|data|))
  }

  /** Trimmed octets whose length is a multiple of four pass sanitizing unchanged. */
  lemma SanitizeKeepsAligned(b: seq<Byte>)
    requires |b| % 4 == 0
    requires b == [] || (!IsByteSpace(b[0]) && !IsByteSpace(b[|b| - 1]))
    ensures Sanitize(Raw(b)) == Some(b)
  {
    StripBytesTrimmed(b);
    assert InputBytes(Raw(b)) == b;
    assert Stripped(Raw(b)) == b;
    assert Padding(|b|) == [];
    assert b + Padding(|b|) == b;
  }

  /** Padding trimmed octets leaves them trimmed: `=` is not whitespace. */
  lemma PaddedStaysTrimmed(data: seq<Byte>)
    requires data == [] || (!IsByteSpace(data[0]) && !IsByteSpace(data[|data| - 1]))
    ensures var out := data + Padding(|data|);
      out == [] || (!IsByteSpace(out[0]) && !IsByteSpace(out[|out| - 1]))
  {
    var pad := Padding(|data|);
    var out := data + pad;
    if out != [] {
      if data == [] {
        assert out == pad && out[0] == Pad && out[|out| - 1] == Pad;
      } else if pad == [] {
        assert out == data;
      } else {
        assert out[0] == data[0];
        assert out[|out| - 1] == pad[|pad| - 1] == Pad;
      }
    }
  }

  /** Sanitizing a sanitized payload changes nothing. */
  lemma SanitizeIdempotent(p: Payload)
    requires Sanitize(p).Some?
    ensures Sanitize(Raw(Sanitize(p).value)) == Sanitize(p)
  {
    var data := Stripped(p);
    var out := data + Padding(|data|);
    assert Sanitize(p) == Some(out);
    PaddedStaysTrimmed(data);
    SanitizeKeepsAligned(out);
  }

  /** A well-formed base64 text, such as either conversion returns, passes sanitizing unchanged. */
  lemma SanitizeAcceptsEncodings(x: seq<Byte>)
    ensures Sanitize(Text(Base64.Encode(x))) == Some(AsciiBytes(Base64.Encode(x)))
  {
    var e := Base64.Encode(x);
    assert forall i :: 0 <= i < |e| ==> Base64.IsEncodingChar(e[i]);
    assert forall i :: 0 <= i < |e| ==> e[i] as int < 128;
    var b := AsciiBytes(e);
    assert |b| == |e|;
    if b != [] {
      assert b[0] == e[0] as int && Base64.IsEncodingChar(e[0]);
      assert b[|b| - 1] == e[|e| - 1] as int && Base64.IsEncodingChar(e[|e| - 1]);
    }
    SanitizeKeepsAligned(b);
    assert InputBytes(Text(e)) == b;
    assert Sanitize(Text(e)) == Sanitize(Raw(b));
  }

  /** Which way the resampler converts: 8000 to 24000 Hz, or 24000 to 8000 Hz. */
  datatype Direction = Upsample | Downsample

  /** The filter memory `audioop.ratecv` returns and takes back on the next call. */
  datatype RateState = RateState(d: int, history: seq<(int, int)>)

  /**
   * The library calls of the conversions, as opaque functions. `None` stands
   * for the exception the call raises (`binascii.Error` from decoding,
   * `audioop.error` from resampling). `ulaw2lin` and `lin2ulaw` never raise on
   * what they are given here: any octet string is mu-law, and the resampler
   * returns whole 16-bit frames.
   */
  datatype Codec = Codec(
    b64decode: seq<Byte> -> Option<seq<Byte>>,
    ulaw2lin: seq<Byte> -> seq<Byte>,
    ratecv: (seq<Byte>, Direction, Option<RateState>) -> Option<(seq<Byte>, RateState)>,
    lin2ulaw: seq<Byte> -> seq<Byte>)

  /** What one conversion returns, with the resampler state of its direction afterwards. */
  datatype Conversion = Conversion(output: Option<string>, state: Option<RateState>)

  /** Payloads that stop a conversion before any decoding: refused, or empty after sanitizing. */
  predicate Unusable(p: Payload) {
    Sanitize(p).None? || Sanitize(p).value == []
  }

  /** `twilio_to_azure` as a function of the payload and the uplink state. */
  function Uplink(c: Codec, p: Payload, st: Option<RateState>): (r: Conversion)
    ensures Unusable(p) ==> r == Conversion(None, st)
    ensures r.output.None? ==> r.state == st
    ensures r.output.Some? ==> r.state.Some? && |r.output.value| % 4 == 0
    ensures r.output.Some? <==>
      && !Unusable(p) && c.b64decode(Sanitize(p).value).Some?
      && c.ratecv(c.ulaw2lin(c.b64decode(Sanitize(p).value).value), Upsample, st).Some?
    ensures r.output.Some? ==>
      var res := c.ratecv(c.ulaw2lin(c.b64decode(Sanitize(p).value).value), Upsample, st).value;
      r.state == Some(res.1) && Base64.Decode(r.output.value) == Some(res.0)
  {
    match Sanitize(p)
    case None => Conversion(None, st)
    case Some(bytes) =>
      if bytes == [] then Conversion(None, st)
      else match c.b64decode(bytes)
        case None => Conversion(None, st)
        case Some(ulaw) =>
          match c.ratecv(c.ulaw2lin(ulaw), Upsample, st)
          case None => Conversion(None, st)
          case Some(res) =>
      Base64.DecodeEncode(res.0);
      Conversion(Some(Base64.Encode(res.0)), Some(res.1))
  }

  /** Drops a trailing odd octet, so that only whole 16-bit samples are resampled. */
  function AlignFrames(pcm: seq<Byte>): (r: seq<Byte>)
    ensures |r| % 2 == 0
    ensures |r| <= |pcm| && r == pcm[..|r|]
    ensures |pcm| - |r| == |pcm| % 2
  {
    if |pcm| % 2 != 0 then pcm[..|pcm| - 1] else pcm
  }

  /** The downlink after decoding: align, resample, compand and encode the PCM octets. */
  function Downsampled(c: Codec, pcm: seq<Byte>, st: Option<RateState>): (r: Conversion)
    ensures |pcm| < 2 ==> r == Conversion(None, st)
    ensures r.output.None? ==> r.state == st
    ensures r.output.Some? ==> r.state.Some? && |r.output.value| % 4 == 0
    ensures r.output.Some? <==> |pcm| >= 2 && c.ratecv(AlignFrames(pcm), Downsample, st).Some?
    ensures r.output.Some? ==>
      var res := c.ratecv(AlignFrames(pcm), Downsample, st).value;
      r.state == Some(res.1) && Base64.Decode(r.output.value) == Some(c.lin2ulaw(res.0))
  {
    var aligned := AlignFrames(pcm);
    if aligned == [] then Conversion(None, st)
    else match c.ratecv(aligned, Downsample, st)
      case None => Conversion(None, st)
      case Some(res) =>
        Base64.DecodeEncode(c.lin2ulaw(res.0));
        Conversion(Some(Base64.Encode(c.lin2ulaw(res.0))), Some(res.1))
  }

  /** `azure_to_twilio` as a function of the payload and the downlink state. */
  function Downlink(c: Codec, p: Payload, st: Option<RateState>): (r: Conversion)
    ensures Unusable(p) ==> r == Conversion(None, st)
    ensures r.output.None? ==> r.state == st
    ensures r.output.Some? ==> r.state.Some? && |r.output.value| % 4 == 0
    ensures !Unusable(p) && c.b64decode(Sanitize(p).value).None? ==> r == Conversion(None, st)
    ensures !Unusable(p) && c.b64decode(Sanitize(p).value).Some? ==>
      r == Downsampled(c, c.b64decode(Sanitize(p).value).value, st)
  {
    match Sanitize(p)
    case None => Conversion(None, st)
    case Some(bytes) =>
      if bytes == [] then Conversion(None, st)
      else match c.b64decode(bytes)
        case None => Conversion(None, st)
        case Some(pcm) => Downsampled(c, pcm, st)
  }

  /** A single decoded octet is not a sample: the downlink returns nothing and keeps its state. */
  lemma DownlinkDropsLoneOctet(c: Codec, p: Payload, st: Option<RateState>, b: Byte)
    requires Sanitize(p).Some? && Sanitize(p).value != []
    requires c.b64decode(Sanitize(p).value) == Some([b])
    ensures Downlink(c, p, st) == Conversion(None, st)
  {
  }

  class AudioTranscoder {
    /** Resampler memory of the Twilio to Azure direction. */
    var stateIn: Option<RateState>
    /** Resampler memory of the Azure to Twilio direction. */
    var stateOut: Option<RateState>

    constructor ()
      ensures stateIn == None && stateOut == None
    {
      stateIn := None;
      stateOut := None;
    }

    /** Mu-law 8 kHz to PCM16 24 kHz; only the uplink state is read and written. */
    method TwilioToAzure(c: Codec, p: Payload) returns (r: Option<string>)
      modifies this`stateIn
      ensures Conversion(r, stateIn) == Uplink(c, p, old(stateIn))
      ensures stateOut == old(stateOut)
    {
      var bytes := Sanitize(p);
      if bytes.None? || bytes.value == [] {
        return None;
      }
      var ulaw := c.b64decode(bytes.value);
      if ulaw.None? {
        return None;
      }
      var pcm8k := c.ulaw2lin(ulaw.value);
      var resampled := c.ratecv(pcm8k, Upsample, stateIn);
      if resampled.None? {
        return None;
      }
      stateIn := Some(resampled.value.1);
      r := Some(Base64.Encode(resampled.value.0));
    }

    /** PCM16 24 kHz to mu-law 8 kHz; only the downlink state is read and written. */
    method AzureToTwilio(c: Codec, p: Payload) returns (r: Option<string>)
      modifies this`stateOut
      ensures Conversion(r, stateOut) == Downlink(c, p, old(stateOut))
      ensures stateIn == old(stateIn)
    {
      var bytes := Sanitize(p);
      if bytes.None? || bytes.value == [] {
        return None;
      }
      var pcm24k := c.b64decode(bytes.value);
      if pcm24k.None? {
        return None;
      }
      // an odd trailing octet is not a whole 16-bit sample
      var pcm := AlignFrames(pcm24k.value);
      ghost var expected := Downsampled(c, pcm24k.value, stateOut);
      assert Downlink(c, p, stateOut) == expected;
      if pcm == [] {
        return None;
      }
      var resampled := c.ratecv(pcm, Downsample, stateOut);
      if resampled.None? {
        return None;
      }
      stateOut := Some(resampled.value.1);
      var ulaw := c.lin2ulaw(resampled.value.0);
      r := Some(Base64.Encode(ulaw));
      assert Conversion(r, stateOut) == expected;
    }
  }
}
