/** packages/protocol/src/framing.ts: length-prefixed frames and the incremental decoder. */
module Framing {
  import opened Common

  type Byte = b: int | 0 <= b < 256

  const FRAME_HEADER_LENGTH := 4
  const MAX_UINT32 := 0xffff_ffff
  const PAYLOAD_BLOCK_SIZE := 65536

  datatype Fault =
    | PayloadTooLong
    | NoLengthPrefix
    | NotOneFrame
    | LimitExceeded(length: nat)
    | DecoderEnded
    | DecoderFailed
    | Truncated

  // ---------------------------------------------------------------- wire format

  function HeaderValue(h: seq<Byte>): (n: nat)
    requires |h| == FRAME_HEADER_LENGTH
    ensures n <= MAX_UINT32
  {
    var (a: int, b: int, c: int, d: int) := (h[0], h[1], h[2], h[3]);
    a * 0x1_000_000 + b * 0x1_0000 + c * 0x100 + d
  }

  /** Storing `length >>> 8`, `>>> 16`, `>>> 24` into bytes keeps the low eight bits of each shift. */
  function HeaderBytes(length: nat): (h: seq<Byte>)
    ensures |h| == FRAME_HEADER_LENGTH
  {
    var q := length / 0x100;
    var r := q / 0x100;
    var s := r / 0x100;
    [s % 0x100, r % 0x100, q % 0x100, length % 0x100]
  }

  lemma HeaderRoundTrip(length: nat)
    requires length <= MAX_UINT32
    ensures HeaderValue(HeaderBytes(length)) == length
  {
    var q := length / 0x100;
    var r := q / 0x100;
    assert length == q * 0x100 + length % 0x100 && q == r * 0x100 + q % 0x100;
  }

  /** Byte order: the header of the smaller length is smaller at the first byte in which they differ. */
  lemma HeaderOrder(m: nat, n: nat) returns (k: nat)
    requires m < n <= MAX_UINT32
    ensures k < FRAME_HEADER_LENGTH && HeaderBytes(m)[..k] == HeaderBytes(n)[..k]
    ensures HeaderBytes(m)[k] < HeaderBytes(n)[k]
  {
    var g, h := HeaderBytes(m), HeaderBytes(n);
    HeaderRoundTrip(m);
    HeaderRoundTrip(n);
    k := if g[0] != h[0] then 0 else if g[1] != h[1] then 1 else if g[2] != h[2] then 2 else 3;
  }

  lemma HeaderInjective(h: seq<Byte>)
    requires |h| == FRAME_HEADER_LENGTH
    ensures HeaderBytes(HeaderValue(h)) == h
  {
    var (a: int, b: int, c: int, d: int) := (h[0], h[1], h[2], h[3]);
    var s := a;
    var r := s * 0x100 + b;
    var q := r * 0x100 + c;
    var n := q * 0x100 + d;
    assert n == HeaderValue(h);
    assert n / 0x100 == q && q / 0x100 == r && r / 0x100 == s;
  }

  function EncodeFrame(payload: seq<Byte>): (r: Result<seq<Byte>, Fault>)
    ensures r.Ok? <==> |payload| <= MAX_UINT32
  {
    if |payload| > MAX_UINT32 then Err(PayloadTooLong) else Ok(HeaderBytes(|payload|) + payload)
  }

  function AssertCompleteFrame(frame: seq<Byte>, max: nat): Result<(), Fault> {
    if |frame| < FRAME_HEADER_LENGTH then Err(NoLengthPrefix)
    else
      var length := HeaderValue(frame[..4]);
      if length > max then Err(LimitExceeded(length))
      else if |frame| != FRAME_HEADER_LENGTH + length then Err(NotOneFrame)
      else Ok(())
  }

  /** A byte string is accepted exactly when it is the encoding of one payload within the limit. */
  lemma CompleteFrameIsOneEncoding(frame: seq<Byte>, max: nat)
    requires max <= MAX_UINT32
    ensures AssertCompleteFrame(frame, max).Ok? <==>
            exists p: seq<Byte> :: |p| <= max && EncodeFrame(p) == Ok(frame)
  {
    if AssertCompleteFrame(frame, max).Ok? {
      var p := frame[4..];
      HeaderInjective(frame[..4]);
      assert HeaderBytes(|p|) + p == frame;
      assert EncodeFrame(p) == Ok(frame);
    }
    forall p: seq<Byte> | |p| <= max && EncodeFrame(p) == Ok(frame)
      ensures AssertCompleteFrame(frame, max).Ok?
    {
      HeaderRoundTrip(|p|);
      assert frame[..4] == HeaderBytes(|p|);
    }
  }

  // ---------------------------------------------------------------- whole-stream reference parser

  datatype Parse = Parsed(frames: seq<seq<Byte>>, rest: seq<Byte>) | Oversize(length: nat)

  function After(frames: seq<seq<Byte>>, p: Parse): Parse {
    match p
    case Parsed(fs, rest) => Parsed(frames + fs, rest)
    case Oversize(_) => p
  }

  function ParseStream(s: seq<Byte>, max: nat): Parse
    decreases |s|
  {
    if |s| < FRAME_HEADER_LENGTH then Parsed([], s)
    else
      var n := HeaderValue(s[..4]);
      if n > max then Oversize(n)
      else if |s| < 4 + n then Parsed([], s)
      else After([s[4..4 + n]], ParseStream(s[4 + n..], max))
  }

  lemma {:induction false} ParseAppend(a: seq<Byte>, b: seq<Byte>, max: nat)
    ensures var p := ParseStream(a, max);
            ParseStream(a + b, max) == if p.Parsed? then After(p.frames, ParseStream(p.rest + b, max)) else p
    decreases |a|
  {
    if |a| >= 4 {
      var n := HeaderValue(a[..4]);
      assert (a + b)[..4] == a[..4];
      if n <= max && |a| >= 4 + n {
        assert (a + b)[4..4 + n] == a[4..4 + n];
        assert (a + b)[4 + n..] == a[4 + n..] + b;
        ParseAppend(a[4 + n..], b, max);
        var p := ParseStream(a[4 + n..], max);
        if p.Parsed? { AfterAfter([a[4..4 + n]], p.frames, ParseStream(p.rest + b, max)); }
      } else {
        AfterNothing(ParseStream(a + b, max));
      }
    } else {
      AfterNothing(ParseStream(a + b, max));
    }
  }

  lemma AfterNothing(p: Parse)
    ensures After([], p) == p
  {
    if p.Parsed? { assert [] + p.frames == p.frames; }
  }

  lemma AfterAfter(f: seq<seq<Byte>>, g: seq<seq<Byte>>, p: Parse)
    ensures After(f, After(g, p)) == After(f + g, p)
  {
    if p.Parsed? { assert f + (g + p.frames) == f + g + p.frames; }
  }

  function EncodeAll(payloads: seq<seq<Byte>>): seq<Byte> {
    if payloads == [] then [] else HeaderBytes(|payloads[0]|) + payloads[0] + EncodeAll(payloads[1..])
  }

  ghost predicate AllWithin(payloads: seq<seq<Byte>>, max: nat) {
    forall i :: 0 <= i < |payloads| ==> |payloads[i]| <= max
  }

  lemma {:induction false} ParseOfEncodings(payloads: seq<seq<Byte>>, max: nat)
    requires max <= MAX_UINT32 && AllWithin(payloads, max)
    ensures ParseStream(EncodeAll(payloads), max) == Parsed(payloads, [])
  {
    if payloads != [] {
      var p, s := payloads[0], EncodeAll(payloads);
      HeaderRoundTrip(|p|);
      assert s[..4] == HeaderBytes(|p|);
      assert s[4..4 + |p|] == p && s[4 + |p|..] == EncodeAll(payloads[1..]);
      ParseOfEncodings(payloads[1..], max);
      assert [p] + payloads[1..] == payloads;
    }
  }

  lemma EncodeAllCons(s: seq<Byte>, n: nat, fs: seq<seq<Byte>>, rest: seq<Byte>)
    requires 4 + n <= |s| && HeaderValue(s[..4]) == n && s[4 + n..] == EncodeAll(fs) + rest
    ensures s == EncodeAll([s[4..4 + n]] + fs) + rest
  {
    var p, e := s[4..4 + n], EncodeAll(fs);
    HeaderInjective(s[..4]);
    assert ([p] + fs)[1..] == fs;
    assert EncodeAll([p] + fs) == s[..4] + p + e;
    assert s == s[..4] + p + s[4 + n..];
  }

  /** Parsing loses no byte: what it returns re-encodes to what it consumed, and it leaves no whole frame. */
  lemma {:induction false} ParseIsLossless(s: seq<Byte>, max: nat)
    ensures var p := ParseStream(s, max);
            if p.Parsed? then s == EncodeAll(p.frames) + p.rest && AllWithin(p.frames, max) else p.length > max
    ensures var p := ParseStream(s, max);
            p.Parsed? && |p.rest| >= 4 ==> HeaderValue(p.rest[..4]) <= max && |p.rest| < 4 + HeaderValue(p.rest[..4])
    decreases |s|
  {
    if |s| >= 4 {
      var n := HeaderValue(s[..4]);
      if n <= max && |s| >= 4 + n {
        var tail := s[4 + n..];
        ParseIsLossless(tail, max);
        var p := ParseStream(tail, max);
        if p.Parsed? {
          EncodeAllCons(s, n, p.frames, p.rest);
        }
      }
    }
  }

  // ---------------------------------------------------------------- specification of the decoder object

  /** What a decoder holds, as a client sees it: the bytes it has not yet turned into frames. */
  datatype View = Live(pending: seq<Byte>) | Finished | Broken

  type Frames = Result<seq<seq<Byte>>, Fault>

  function PushView(v: View, chunk: seq<Byte>, max: nat): (View, Frames) {
    match v
    case Finished => (Finished, Err(DecoderEnded))
    case Broken => (Broken, Err(DecoderFailed))
    case Live(pending) =>
      match ParseStream(pending + chunk, max)
      case Parsed(fs, rest) => (Live(rest), Ok(fs))
      case Oversize(n) => (Broken, Err(LimitExceeded(n)))
  }

  function EndView(v: View): (View, Result<(), Fault>) {
    match v
    case Finished => (Finished, Err(DecoderEnded))
    case Broken => (Broken, Err(DecoderFailed))
    case Live(pending) => if pending == [] then (Finished, Ok(())) else (Broken, Err(Truncated))
  }

  function PushAll(v: View, chunks: seq<seq<Byte>>, max: nat): (r: (View, seq<Frames>))
    ensures |r.1| == |chunks|
    decreases |chunks|
  {
    if chunks == [] then (v, [])
    else
      var (v1, out) := PushView(v, chunks[0], max);
      var (v2, outs) := PushAll(v1, chunks[1..], max);
      (v2, [out] + outs)
  }

  function Returned(outs: seq<Frames>): seq<seq<Byte>> {
    if outs == [] then [] else (if outs[0].Ok? then outs[0].value else []) + Returned(outs[1..])
  }

  ghost predicate AllOk(outs: seq<Frames>) {
    forall i :: 0 <= i < |outs| ==> outs[i].Ok?
  }

  /** How the stream is cut into chunks does not matter. */
  lemma {:induction false} ChunkingIrrelevant(pending: seq<Byte>, chunks: seq<seq<Byte>>, max: nat)
    requires ParseStream(pending, max) == Parsed([], pending)
    ensures var (v, outs) := PushAll(Live(pending), chunks, max);
            var p := ParseStream(pending + Flatten(chunks), max);
            if p.Parsed? then AllOk(outs) && Returned(outs) == p.frames && v == Live(p.rest) else v == Broken
    decreases |chunks|
  {
    if chunks == [] {
      assert pending + Flatten(chunks) == pending;
    } else {
      var c, cs := chunks[0], chunks[1..];
      assert pending + Flatten(chunks) == (pending + c) + Flatten(cs);
      ParseAppend(pending + c, Flatten(cs), max);
      var p := ParseStream(pending + c, max);
      if p.Parsed? {
        RestIsUnparsed(pending + c, max);
        ChunkingIrrelevant(p.rest, cs, max);
        var (v, outs) := PushAll(Live(p.rest), cs, max);
        var all := [Ok(p.frames)] + outs;
        assert all[1..] == outs;
        assert Returned(all) == p.frames + Returned(outs);
      } else {
        FailureIsSticky(cs, max);
      }
    }
  }

  lemma {:induction false} RestIsUnparsed(s: seq<Byte>, max: nat)
    ensures var p := ParseStream(s, max);
            p.Parsed? ==> ParseStream(p.rest, max) == Parsed([], p.rest)
    decreases |s|
  {
    if |s| >= 4 {
      var n := HeaderValue(s[..4]);
      if n <= max && |s| >= 4 + n { RestIsUnparsed(s[4 + n..], max); }
    }
  }

  lemma {:induction false} FailureIsSticky(chunks: seq<seq<Byte>>, max: nat)
    ensures var (v, outs) := PushAll(Broken, chunks, max);
            v == Broken && forall i :: 0 <= i < |outs| ==> outs[i] == Err(DecoderFailed)
    ensures EndView(Broken) == (Broken, Err(DecoderFailed))
    decreases |chunks|
  {
    if chunks != [] { FailureIsSticky(chunks[1..], max); }
  }

  /** Push number k is the first to fail exactly when its chunk completes the first oversize header. */
  lemma PushFailsExactlyAtOversizeHeader(chunks: seq<seq<Byte>>, k: nat, max: nat)
    requires k < |chunks|
    ensures var (_, outs) := PushAll(Live([]), chunks, max);
            (AllOk(outs[..k]) && outs[k].Err?) <==>
            (ParseStream(Flatten(chunks[..k]), max).Parsed? && ParseStream(Flatten(chunks[..k + 1]), max).Oversize?)
  {
    var outs := PushAll(Live([]), chunks, max).1;
    PrefixOk(chunks, k, max);
    PrefixOk(chunks, k + 1, max);
    assert outs[..k + 1][..k] == outs[..k];
    if AllOk(outs[..k]) && outs[k].Ok? {
      assert outs[..k + 1] == outs[..k] + [outs[k]];
    }
    if AllOk(outs[..k + 1]) {
      assert outs[..k + 1][k] == outs[k];
    }
  }

  lemma PrefixOk(chunks: seq<seq<Byte>>, k: nat, max: nat)
    requires k <= |chunks|
    ensures AllOk(PushAll(Live([]), chunks, max).1[..k]) <==> ParseStream(Flatten(chunks[..k]), max).Parsed?
  {
    PushAllPrefix(Live([]), chunks, k, max);
    ChunkingIrrelevant([], chunks[..k], max);
    assert [] + Flatten(chunks[..k]) == Flatten(chunks[..k]);
    var (v, outs) := PushAll(Live([]), chunks[..k], max);
    if v == Broken { FailureHasCause(Live([]), chunks[..k], max); }
  }

  lemma {:induction false} PushAllPrefix(v: View, chunks: seq<seq<Byte>>, k: nat, max: nat)
    requires k <= |chunks|
    ensures PushAll(v, chunks[..k], max).1 == PushAll(v, chunks, max).1[..k]
    decreases k
  {
    if k > 0 {
      var v1 := PushView(v, chunks[0], max).0;
      assert chunks[..k][1..] == chunks[1..][..k - 1];
      PushAllPrefix(v1, chunks[1..], k - 1, max);
    }
  }

  lemma {:induction false} FailureHasCause(v: View, chunks: seq<seq<Byte>>, max: nat)
    requires v.Live? && PushAll(v, chunks, max).0 == Broken
    ensures !AllOk(PushAll(v, chunks, max).1)
    decreases |chunks|
  {
    var (v1, out) := PushView(v, chunks[0], max);
    var outs := PushAll(v, chunks, max).1;
    if out.Ok? {
      FailureHasCause(v1, chunks[1..], max);
      var later := PushAll(v1, chunks[1..], max).1;
      var i :| 0 <= i < |later| && !later[i].Ok?;
      assert outs[i + 1] == later[i];
    } else {
      assert outs[0] == out;
    }
  }

  /**
   * Encoding payloads, cutting the bytes anywhere and decoding gives the payloads back, and the stream ends cleanly.
   */
  lemma RoundTrip(payloads: seq<seq<Byte>>, chunks: seq<seq<Byte>>, max: nat)
    requires max <= MAX_UINT32 && AllWithin(payloads, max)
    requires Flatten(chunks) == EncodeAll(payloads)
    ensures var (v, outs) := PushAll(Live([]), chunks, max);
            AllOk(outs) && Returned(outs) == payloads && EndView(v) == (Finished, Ok(()))
  {
    ParseOfEncodings(payloads, max);
    ChunkingIrrelevant([], chunks, max);
    assert [] + Flatten(chunks) == EncodeAll(payloads);
  }

  /** After any chunks, `end` succeeds exactly at a frame boundary: the bytes are whole encoded frames. */
  lemma EndSucceedsExactlyAtBoundary(chunks: seq<seq<Byte>>, max: nat)
    requires max <= MAX_UINT32
    ensures EndView(PushAll(Live([]), chunks, max).0).1.Ok? <==>
            exists fs :: AllWithin(fs, max) && Flatten(chunks) == EncodeAll(fs)
  {
    var s := Flatten(chunks);
    ChunkingIrrelevant([], chunks, max);
    assert [] + s == s;
    ParseIsLossless(s, max);
    if EndView(PushAll(Live([]), chunks, max).0).1.Ok? {
      var fs := ParseStream(s, max).frames;
      assert AllWithin(fs, max) && s == EncodeAll(fs);
    }
    forall fs | AllWithin(fs, max) && s == EncodeAll(fs)
      ensures EndView(PushAll(Live([]), chunks, max).0).1.Ok?
    {
      ParseOfEncodings(fs, max);
    }
  }
}
