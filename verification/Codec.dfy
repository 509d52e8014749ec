/** packages/protocol/src/codec.ts: validated messages over frames. CBOR and the schema check are a parameter. */
module Codec {
  import opened Common
  import opened Framing
  import FrameDecoding

  /**
   * `encode` is encodeCbor with its size limit, `decode` is decodeCbor, `accepts` is the protocol-value and schema
   * check.
   */
  datatype Wire<!T(!new)> = Wire(encode: (T, nat) -> Option<seq<Byte>>, decode: seq<Byte> -> Option<T>,
                                 accepts: T -> bool)
  {
    /** What the decoder makes of one frame. */
    function Read(frame: seq<Byte>): Option<T> {
      match decode(frame)
      case None => None
      case Some(value) => if accepts(value) then Some(value) else None
    }

    ghost predicate RoundTrips(max: nat) {
      forall value: T :: accepts(value) && encode(value, max).Some? ==> decode(encode(value, max).value) == Some(value)
    }
  }

  datatype CodecFault = InvalidMessage | CannotEncode | InvalidFrame | InvalidFraming | DecoderHasFailed

  function EncodeMessage<T(!new)>(wire: Wire<T>, value: T, max: nat): Result<seq<Byte>, CodecFault> {
    if !wire.accepts(value) then Err(InvalidMessage)
    else
      match wire.encode(value, max)
      case None => Err(CannotEncode)
      case Some(bytes) =>
        match EncodeFrame(bytes)
        case Err(_) => Err(CannotEncode)
        case Ok(frame) => if AssertCompleteFrame(frame, max).Ok? then Ok(frame) else Err(CannotEncode)
  }

  /** What a message decoder holds: its own failure flag and the frame decoder below it. */
  datatype MessageView = MessageView(failed: bool, frames: View)

  type Messages<T> = Result<seq<T>, CodecFault>

  function ReadAll<T(!new)>(wire: Wire<T>, frames: seq<seq<Byte>>): Option<seq<T>> {
    if frames == [] then Some([])
    else
      match wire.Read(frames[0])
      case None => None
      case Some(m) =>
        match ReadAll(wire, frames[1..])
        case None => None
        case Some(ms) => Some([m] + ms)
  }

  function PushMessages<T(!new)>(wire: Wire<T>, v: MessageView, chunk: seq<Byte>, max: nat)
    : (MessageView, Messages<T>)
  {
    if v.failed then (v, Err(DecoderHasFailed))
    else
      var (frames, r) := PushView(v.frames, chunk, max);
      if r.Err? then (MessageView(true, frames), Err(InvalidFrame))
      else
        match ReadAll(wire, r.value)
        case None => (MessageView(true, frames), Err(InvalidFrame))
        case Some(ms) => (MessageView(false, frames), Ok(ms))
  }

  function EndMessages(v: MessageView): (MessageView, Result<(), CodecFault>) {
    if v.failed then (v, Err(DecoderHasFailed))
    else
      var (frames, r) := EndView(v.frames);
      if r.Ok? then (MessageView(false, frames), Ok(())) else (MessageView(true, frames), Err(InvalidFraming))
  }

  class MessageDecoder<T(!new)> {
    const wire: Wire<T>
    const frames: FrameDecoding.FrameDecoder
    var failed: bool

    ghost predicate Valid()
      reads this, frames, frames.header, frames.payloadBlocks
    {
      frames.Valid() && this !in frames.Repr
    }

    ghost function View(): MessageView
      reads this, frames, frames.header, frames.payloadBlocks
      requires Valid()
    {
      MessageView(failed, frames.View())
    }

    constructor (wire: Wire<T>, max: nat)
      requires max <= MAX_UINT32
      ensures Valid() && View() == MessageView(false, Live([])) && frames.maxFrameLength == max
      ensures this.wire == wire && fresh(frames.Repr)
    {
      this.wire := wire;
      frames := new FrameDecoding.FrameDecoder(max);
      failed := false;
    }

    method Push(chunk: seq<Byte>) returns (r: Messages<T>)
      requires Valid()
      modifies this, frames.Repr
      ensures Valid() && fresh(frames.Repr - old(frames.Repr))
      ensures (View(), r) == PushMessages(wire, old(View()), chunk, frames.maxFrameLength)
    {
      if failed { return Err(DecoderHasFailed); }
      var found := frames.Push(chunk);
      if found.Err? {
        failed := true;
        return Err(InvalidFrame);
      }
      var messages := ReadFrames(wire, found.value);
      if messages.None? {
        failed := true;
        return Err(InvalidFrame);
      }
      return Ok(messages.value);
    }

    method End() returns (r: Result<(), CodecFault>)
      requires Valid()
      modifies this, frames
      ensures Valid() && frames.Repr == old(frames.Repr)
      ensures (View(), r) == EndMessages(old(View()))
    {
      if failed { return Err(DecoderHasFailed); }
      var done := frames.End();
      if done.Err? {
        failed := true;
        return Err(InvalidFraming);
      }
      return Ok(());
    }
  }

  /** Reads frames in order and gives up at the first one that does not read. */
  method ReadFrames<T(!new)>(wire: Wire<T>, all: seq<seq<Byte>>) returns (r: Option<seq<T>>)
    ensures r == ReadAll(wire, all)
  {
    var messages: seq<T> := [];
    for k := 0 to |all|
      invariant ReadAll(wire, all[..k]) == Some(messages)
    {
      ReadAllSplit(wire, all, k);
      var m := wire.Read(all[k]);
      if m.None? { return None; }
      messages := messages + [m.value];
    }
    assert all[..|all|] == all;
    return Some(messages);
  }

  lemma {:induction false} ReadAllAppend<T(!new)>(wire: Wire<T>, a: seq<seq<Byte>>, b: seq<seq<Byte>>)
    ensures var (x, y) := (ReadAll(wire, a), ReadAll(wire, b));
            ReadAll(wire, a + b) == if x.Some? && y.Some? then Some(x.value + y.value) else None
  {
    if a == [] {
      assert a + b == b;
      if ReadAll(wire, b).Some? { assert [] + ReadAll(wire, b).value == ReadAll(wire, b).value; }
    } else {
      assert (a + b)[1..] == a[1..] + b;
      ReadAllAppend(wire, a[1..], b);
      var (m, x, y) := (wire.Read(a[0]), ReadAll(wire, a[1..]), ReadAll(wire, b));
      if m.Some? && x.Some? && y.Some? {
        assert [m.value] + (x.value + y.value) == ([m.value] + x.value) + y.value;
      }
    }
  }

  lemma ReadAllSplit<T(!new)>(wire: Wire<T>, all: seq<seq<Byte>>, k: nat)
    requires k < |all|
    ensures var (x, m) := (ReadAll(wire, all[..k]), wire.Read(all[k]));
            ReadAll(wire, all[..k + 1]) == if x.Some? && m.Some? then Some(x.value + [m.value]) else None
    ensures wire.Read(all[k]).None? ==> ReadAll(wire, all).None?
  {
    assert all[..k + 1] == all[..k] + [all[k]];
    ReadAllAppend(wire, all[..k], [all[k]]);
    var one: seq<seq<Byte>> := [all[k]];
    assert one[1..] == [];
    var m := wire.Read(all[k]);
    assert ReadAll(wire, one) == if m.Some? then Some([m.value] + []) else None;
    if m.Some? { assert [m.value] + [] == [m.value]; }
    assert all == all[..k + 1] + all[k + 1..];
    ReadAllAppend(wire, all[..k + 1], all[k + 1..]);
  }

  function PushAllMessages<T(!new)>(wire: Wire<T>, v: MessageView, chunks: seq<seq<Byte>>, max: nat)
    : (r: (MessageView, seq<Messages<T>>))
    ensures |r.1| == |chunks|
    decreases |chunks|
  {
    if chunks == [] then (v, [])
    else
      var (v1, out) := PushMessages(wire, v, chunks[0], max);
      var (v2, outs) := PushAllMessages(wire, v1, chunks[1..], max);
      (v2, [out] + outs)
  }

  function Delivered<T>(outs: seq<Messages<T>>): seq<T> {
    if outs == [] then [] else (if outs[0].Ok? then outs[0].value else []) + Delivered(outs[1..])
  }

  /** Whenever the whole stream parses and every frame reads, the pushes deliver exactly the messages, in order. */
  lemma {:induction false} DeliversWholeStream<T(!new)>(
    wire: Wire<T>, pending: seq<Byte>, chunks: seq<seq<Byte>>, max: nat, ms: seq<T>)
    requires ParseStream(pending, max) == Parsed([], pending)
    requires var p := ParseStream(pending + Flatten(chunks), max); p.Parsed? && ReadAll(wire, p.frames) == Some(ms)
    ensures var (v, outs) := PushAllMessages(wire, MessageView(false, Live(pending)), chunks, max);
            && v == MessageView(false, Live(ParseStream(pending + Flatten(chunks), max).rest))
            && (forall i :: 0 <= i < |outs| ==> outs[i].Ok?)
            && Delivered(outs) == ms
    decreases |chunks|
  {
    if chunks == [] {
      assert pending + Flatten(chunks) == pending;
    } else {
      var c, cs := chunks[0], chunks[1..];
      assert pending + Flatten(chunks) == (pending + c) + Flatten(cs);
      ParseAppend(pending + c, Flatten(cs), max);
      RestIsUnparsed(pending + c, max);
      var p := ParseStream(pending + c, max);
      var q := ParseStream(p.rest + Flatten(cs), max);
      ReadAllAppend(wire, p.frames, q.frames);
      DeliversWholeStream(wire, p.rest, cs, max, ReadAll(wire, q.frames).value);
      var outs := PushAllMessages(wire, MessageView(false, Live(pending)), chunks, max).1;
      assert outs[1..] == PushAllMessages(wire, MessageView(false, Live(p.rest)), cs, max).1;
    }
  }

  /** The frame decodes, to a value that passes the check. */
  predicate Readable<T(!new)>(wire: Wire<T>, frame: seq<Byte>) {
    wire.decode(frame).Some? && wire.accepts(wire.decode(frame).value)
  }

  ghost predicate AllReadable<T(!new)>(wire: Wire<T>, frames: seq<seq<Byte>>) {
    forall i :: 0 <= i < |frames| ==> Readable(wire, frames[i])
  }

  /** Frames read exactly if each of them is readable, each as the value it decodes to. */
  lemma {:induction false} ReadsExactly<T(!new)>(wire: Wire<T>, frames: seq<seq<Byte>>)
    ensures var r := ReadAll(wire, frames);
            && (r.Some? <==> AllReadable(wire, frames))
            && (r.Some? ==> |r.value| == |frames| &&
                            forall i :: 0 <= i < |frames| ==> wire.decode(frames[i]) == Some(r.value[i]))
  {
    if frames != [] {
      var rest := frames[1..];
      ReadsExactly(wire, rest);
      assert wire.Read(frames[0]).Some? <==> Readable(wire, frames[0]);
      forall i | 0 < i < |frames| ensures frames[i] == rest[i - 1] {}
      if ReadAll(wire, rest).None? {
        var i :| 0 <= i < |rest| && !Readable(wire, rest[i]);
        assert !Readable(wire, frames[i + 1]);
      }
    }
  }

  /**
   * A push fails exactly if the decoder has failed before, its chunk is refused by the frame decoder, or one of the
   * frames it completes is unreadable; then the decoder has failed.
   */
  lemma PushFailsExactly<T(!new)>(wire: Wire<T>, v: MessageView, chunk: seq<Byte>, max: nat)
    ensures var (w, r) := PushMessages(wire, v, chunk, max); var f := PushView(v.frames, chunk, max).1;
            && (r.Err? <==> v.failed || f.Err? || !AllReadable(wire, f.value))
            && (w.failed <==> r.Err?)
            && (r.Ok? ==> |r.value| == |f.value| &&
                          forall i :: 0 <= i < |f.value| ==> wire.decode(f.value[i]) == Some(r.value[i]))
  {
    var f := PushView(v.frames, chunk, max).1;
    if f.Ok? { ReadsExactly(wire, f.value); }
  }

  ghost predicate AllSucceed<T>(outs: seq<Messages<T>>) {
    forall i :: 0 <= i < |outs| ==> outs[i].Ok?
  }

  /**
   * However the stream is cut, all pushes succeed exactly if no header in it is oversize and every frame in it is
   * readable.
   */
  lemma {:induction false} SucceedsExactly<T(!new)>(wire: Wire<T>, pending: seq<Byte>, chunks: seq<seq<Byte>>, max: nat)
    requires ParseStream(pending, max) == Parsed([], pending)
    ensures var outs := PushAllMessages(wire, MessageView(false, Live(pending)), chunks, max).1;
            var p := ParseStream(pending + Flatten(chunks), max);
            AllSucceed(outs) <==> p.Parsed? && AllReadable(wire, p.frames)
    decreases |chunks|
  {
    if chunks == [] {
      assert pending + Flatten(chunks) == pending;
    } else {
      var c, cs := chunks[0], chunks[1..];
      assert pending + Flatten(chunks) == (pending + c) + Flatten(cs);
      ParseAppend(pending + c, Flatten(cs), max);
      RestIsUnparsed(pending + c, max);
      var p := ParseStream(pending + c, max);
      PushFailsExactly(wire, MessageView(false, Live(pending)), c, max);
      var (v1, out) := PushMessages(wire, MessageView(false, Live(pending)), c, max);
      var outs, rest := PushAllMessages(wire, MessageView(false, Live(pending)), chunks, max).1,
        PushAllMessages(wire, v1, cs, max).1;
      assert outs == [out] + rest;
      if out.Ok? {
        SucceedsExactly(wire, p.rest, cs, max);
        assert outs[1..] == rest;
        AllReadableAppend(wire, p.frames, ParseStream(p.rest + Flatten(cs), max));
      } else {
        assert outs[0].Err?;
        if p.Parsed? { AllReadableAppend(wire, p.frames, ParseStream(p.rest + Flatten(cs), max)); }
      }
    }
  }

  lemma AllReadableAppend<T(!new)>(wire: Wire<T>, a: seq<seq<Byte>>, q: Parse)
    ensures q.Parsed? ==> (AllReadable(wire, a + q.frames) <==> AllReadable(wire, a) && AllReadable(wire, q.frames))
  {
    if q.Parsed? {
      var all := a + q.frames;
      if AllReadable(wire, all) {
        forall i | 0 <= i < |a| ensures Readable(wire, a[i]) { assert all[i] == a[i]; }
        forall i | 0 <= i < |q.frames| ensures Readable(wire, q.frames[i]) { assert all[|a| + i] == q.frames[i]; }
      }
    }
  }

  function EncodeMessages<T(!new)>(wire: Wire<T>, ms: seq<T>, max: nat): seq<Byte>
    requires forall i :: 0 <= i < |ms| ==> EncodeMessage(wire, ms[i], max).Ok?
  {
    if ms == [] then [] else EncodeMessage(wire, ms[0], max).value + EncodeMessages(wire, ms[1..], max)
  }

  function Payloads<T(!new)>(wire: Wire<T>, ms: seq<T>, max: nat): seq<seq<Byte>>
    requires forall i :: 0 <= i < |ms| ==> EncodeMessage(wire, ms[i], max).Ok?
  {
    if ms == [] then []
    else
      assert EncodeMessage(wire, ms[0], max).Ok?;
      [wire.encode(ms[0], max).value] + Payloads(wire, ms[1..], max)
  }

  lemma {:induction false} EncodingsAreFrames<T(!new)>(wire: Wire<T>, ms: seq<T>, max: nat)
    requires max <= MAX_UINT32 && wire.RoundTrips(max)
    requires forall i :: 0 <= i < |ms| ==> EncodeMessage(wire, ms[i], max).Ok?
    ensures var ps := Payloads(wire, ms, max);
            AllWithin(ps, max) && EncodeMessages(wire, ms, max) == EncodeAll(ps) && ReadAll(wire, ps) == Some(ms)
  {
    if ms != [] {
      EncodingsAreFrames(wire, ms[1..], max);
      EncodingIsFrame(wire, ms[0], max);
      var p, ps := wire.encode(ms[0], max).value, Payloads(wire, ms[1..], max);
      assert ([p] + ps)[1..] == ps;
      assert [ms[0]] + ms[1..] == ms;
    }
  }

  lemma EncodingIsFrame<T(!new)>(wire: Wire<T>, m: T, max: nat)
    requires max <= MAX_UINT32 && wire.RoundTrips(max) && EncodeMessage(wire, m, max).Ok?
    ensures var p := wire.encode(m, max);
            && p.Some? && |p.value| <= max && EncodeMessage(wire, m, max).value == HeaderBytes(|p.value|) + p.value
            && wire.Read(p.value) == Some(m)
  {
    var p := wire.encode(m, max).value;
    CompleteFrameIsOneEncoding(EncodeFrame(p).value, max);
    HeaderRoundTrip(|p|);
    assert (HeaderBytes(|p|) + p)[..4] == HeaderBytes(|p|);
  }

  /** Messages that encode come back exactly, whatever the chunking, and the stream ends cleanly. */
  lemma MessageRoundTrip<T(!new)>(wire: Wire<T>, ms: seq<T>, chunks: seq<seq<Byte>>, max: nat)
    requires max <= MAX_UINT32 && wire.RoundTrips(max)
    requires forall i :: 0 <= i < |ms| ==> EncodeMessage(wire, ms[i], max).Ok?
    requires Flatten(chunks) == EncodeMessages(wire, ms, max)
    ensures var (v, outs) := PushAllMessages(wire, MessageView(false, Live([])), chunks, max);
            && (forall i :: 0 <= i < |outs| ==> outs[i].Ok?)
            && Delivered(outs) == ms
            && EndMessages(v).1 == Ok(())
  {
    EncodingsAreFrames(wire, ms, max);
    ParseOfEncodings(Payloads(wire, ms, max), max);
    assert [] + Flatten(chunks) == EncodeMessages(wire, ms, max);
    DeliversWholeStream(wire, [], chunks, max, ms);
  }

  /** A decoder that has failed once never delivers again. */
  lemma {:induction false} MessageFailureIsSticky<T(!new)>(wire: Wire<T>, v: MessageView, chunks: seq<seq<Byte>>,
                                                           max: nat)
    requires v.failed
    ensures var (w, outs) := PushAllMessages(wire, v, chunks, max);
            w == v && Delivered(outs) == [] && EndMessages(w).1.Err?
    decreases |chunks|
  {
    if chunks != [] {
      MessageFailureIsSticky(wire, v, chunks[1..], max);
      var outs := PushAllMessages(wire, v, chunks, max).1;
      assert outs[1..] == PushAllMessages(wire, v, chunks[1..], max).1;
    }
  }
}
