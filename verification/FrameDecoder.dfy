/** The FrameDecoder object of packages/protocol/src/framing.ts, with its header and block buffers filled in place. */
module FrameDecoding {
  import opened Common
  import opened Framing

  datatype DecoderState = Open | Ended | Failed

  function Min(a: nat, b: nat): nat { if a < b then a else b }

  function Joined(blocks: seq<array<Byte>>): seq<Byte>
    reads blocks
  {
    if blocks == [] then [] else Joined(blocks[..|blocks| - 1]) + blocks[|blocks| - 1][..]
  }

  class FrameDecoder {
    const header: array<Byte>
    const maxFrameLength: nat
    var headerLength: nat
    var payloadBlocks: seq<array<Byte>>
    var currentPayloadBlock: array?<Byte>
    var currentPayloadBlockLength: nat
    var expectedPayloadLength: Option<nat>
    var payloadLength: nat
    var state: DecoderState
    ghost var Repr: set<object>
    ghost var received: seq<Byte>  // payload bytes of the frame being read
    ghost var reserved: nat  // bytes of buffer allocated for it

    /** The blocks before the one being filled. */
    ghost function FullBlocks(): seq<array<Byte>>
      reads this
    {
      if payloadBlocks == [] then [] else payloadBlocks[..|payloadBlocks| - 1]
    }

    /** The blocks hold exactly the bytes received, in order. */
    ghost predicate BlocksValid()
      reads this, payloadBlocks
    {
      && this in Repr && header in Repr
      && (forall i :: 0 <= i < |payloadBlocks| ==> payloadBlocks[i] in Repr && payloadBlocks[i] != header)
      && payloadLength == |received|
      && reserved == |Joined(payloadBlocks)|
      && if payloadBlocks == [] then
           currentPayloadBlock == null && currentPayloadBlockLength == 0 && received == []
         else
           && currentPayloadBlock == payloadBlocks[|payloadBlocks| - 1]
           && currentPayloadBlock !in FullBlocks()
           && currentPayloadBlockLength <= currentPayloadBlock.Length
           && received == Joined(FullBlocks()) + currentPayloadBlock[..currentPayloadBlockLength]
    }

    ghost predicate Valid()
      reads this, header, payloadBlocks
    {
      && header.Length == FRAME_HEADER_LENGTH
      && maxFrameLength <= MAX_UINT32
      && headerLength < FRAME_HEADER_LENGTH
      && BlocksValid()
      && (expectedPayloadLength.None? ==> payloadBlocks == [])
      && (state != Open ==> headerLength == 0 && expectedPayloadLength.None?)
      && (expectedPayloadLength.Some? ==>
            && headerLength == 0
            && HeaderValue(header[..]) == expectedPayloadLength.value <= maxFrameLength
            && payloadLength < expectedPayloadLength.value
            && Bounded(expectedPayloadLength.value))
    }

    /** Buffer space stays within the announced length and less than one block ahead of what arrived. */
    ghost predicate Bounded(expected: nat)
      reads this
    {
      reserved <= expected && (payloadBlocks != [] ==> reserved < payloadLength + PAYLOAD_BLOCK_SIZE)
    }

    /** The unparsed tail of the input, as the fields represent it. */
    ghost function Pending(): seq<Byte>
      reads this, header
      requires header.Length == FRAME_HEADER_LENGTH && headerLength <= FRAME_HEADER_LENGTH
    {
      if expectedPayloadLength.None? then header[..headerLength] else header[..] + received
    }

    ghost function View(): Framing.View
      reads this, header, payloadBlocks
      requires Valid()
    {
      match state
      case Open => Live(Pending())
      case Ended => Finished
      case Failed => Broken
    }

    constructor (max: nat)
      requires max <= MAX_UINT32
      ensures Valid() && View() == Live([]) && maxFrameLength == max && fresh(Repr)
    {
      header := new Byte[4];
      maxFrameLength := max;
      headerLength, payloadBlocks, currentPayloadBlock, currentPayloadBlockLength := 0, [], null, 0;
      expectedPayloadLength, payloadLength, state := None, 0, Open;
      Repr, received, reserved := {this, header}, [], 0;
    }

    method Push(chunk: seq<Byte>) returns (r: Frames)
      requires Valid()
      modifies Repr
      ensures Valid() && fresh(Repr - old(Repr))
      ensures (View(), r) == PushView(old(View()), chunk, maxFrameLength)
    {
      if state == Ended { return Err(DecoderEnded); }
      if state == Failed { return Err(DecoderFailed); }
      ghost var before := Pending();
      var frames: seq<seq<Byte>> := [];
      var offset := 0;
      PendingIsUnparsed();
      assert before + chunk[..0] == before;
      while offset < |chunk|
        invariant 0 <= offset <= |chunk|
        invariant Valid() && state == Open && fresh(Repr - old(Repr))
        invariant ParseStream(before + chunk[..offset], maxFrameLength) == Parsed(frames, Pending())
      {
        var got: Result<seq<seq<Byte>>, nat>;
        offset, got := Advance(chunk, offset, before, frames);
        if got.Err? { return Err(LimitExceeded(got.error)); }
        frames := frames + got.value;
      }
      assert chunk[..|chunk|] == chunk;
      return Ok(frames);
    }

    /** One pass of the loop: bytes of a header, or bytes of a payload. */
    method Advance(chunk: seq<Byte>, offset: nat, ghost before: seq<Byte>, ghost frames: seq<seq<Byte>>)
      returns (next: nat, got: Result<seq<seq<Byte>>, nat>)
      requires Valid() && state == Open && offset < |chunk|
      requires ParseStream(before + chunk[..offset], maxFrameLength) == Parsed(frames, Pending())
      modifies Repr
      ensures Valid() && fresh(Repr - old(Repr)) && offset < next <= |chunk|
      ensures state == if got.Ok? then Open else Failed
      ensures got.Ok? ==> ParseStream(before + chunk[..next], maxFrameLength) == Parsed(frames + got.value, Pending())
      ensures got.Err? ==> ParseStream(before + chunk, maxFrameLength) == Oversize(got.error)
    {
      ghost var pending := Pending();
      if expectedPayloadLength.None? {
        next, got := TakeHeader(chunk, offset);
      } else {
        next, got := TakePayload(chunk, offset);
      }
      ParseFurther(before, chunk, offset, next, pending, frames, maxFrameLength);
      if got.Err? {
        ParseFurther(before, chunk, next, |chunk|, pending, frames, maxFrameLength);
        assert chunk[..|chunk|] == chunk;
      }
    }

    lemma PendingIsUnparsed()
      requires Valid() && state == Open
      ensures ParseStream(Pending(), maxFrameLength) == Parsed([], Pending())
    {
      if expectedPayloadLength.Some? {
        assert Pending()[..4] == header[..];
      }
    }

    /** Copies header bytes; a complete header starts a payload, yields an empty frame, or fails the decoder. */
    method TakeHeader(chunk: seq<Byte>, offset: nat) returns (next: nat, got: Result<seq<seq<Byte>>, nat>)
      requires Valid() && state == Open && expectedPayloadLength.None? && offset < |chunk|
      modifies this, header
      ensures Valid() && Repr == old(Repr)
      ensures offset < next <= |chunk|
      ensures state == if got.Ok? then Open else Failed
      ensures ParseStream(old(Pending()) + chunk[offset..next], maxFrameLength) ==
              if got.Ok? then Parsed(got.value, Pending()) else Oversize(got.error)
    {
      var n := Min(FRAME_HEADER_LENGTH - headerLength, |chunk| - offset);
      CopyInto(chunk, offset, n, header, headerLength);
      headerLength := headerLength + n;
      next := offset + n;
      assert header[..headerLength] == old(Pending()) + chunk[offset..next];
      if headerLength < FRAME_HEADER_LENGTH {
        return next, Ok([]);
      }
      assert header[..headerLength] == header[..];
      got := StartFrame();
    }

    /** A complete header starts a payload, yields an empty frame, or fails the decoder. */
    method StartFrame() returns (got: Result<seq<seq<Byte>>, nat>)
      requires header.Length == FRAME_HEADER_LENGTH == headerLength && maxFrameLength <= MAX_UINT32
      requires BlocksValid() && state == Open && expectedPayloadLength.None? && payloadBlocks == []
      modifies this
      ensures Valid() && Repr == old(Repr)
      ensures state == if got.Ok? then Open else Failed
      ensures ParseStream(header[..], maxFrameLength) ==
              if got.Ok? then Parsed(got.value, Pending()) else Oversize(got.error)
    {
      HeaderParse(header[..], maxFrameLength);
      var frameLength := HeaderValue(header[..]);
      headerLength := 0;
      if frameLength > maxFrameLength {
        Fail();
        return Err(frameLength);
      }
      if frameLength == 0 {
        return Ok([[]]);
      }
      expectedPayloadLength := Some(frameLength);
      payloadBlocks, currentPayloadBlock, currentPayloadBlockLength, payloadLength := [], null, 0, 0;
      received, reserved := [], 0;
      assert header[..] + [] == header[..];
      return Ok([]);
    }

    /** Fills blocks from the chunk; a complete payload becomes a frame. */
    method TakePayload(chunk: seq<Byte>, offset: nat) returns (next: nat, got: Result<seq<seq<Byte>>, nat>)
      requires Valid() && state == Open && expectedPayloadLength.Some? && offset < |chunk|
      modifies Repr
      ensures Valid() && state == Open && fresh(Repr - old(Repr))
      ensures offset < next <= |chunk|
      ensures got.Ok?
      ensures ParseStream(old(Pending()) + chunk[offset..next], maxFrameLength) == Parsed(got.value, Pending())
    {
      var expected := expectedPayloadLength.value;
      ghost var had := received;
      next := FillPayload(chunk, offset, expected);
      PayloadParse(header[..], had, chunk[offset..next], maxFrameLength);
      if payloadLength < expected {
        return next, Ok([]);
      }
      var payload := FinishFrame(expected);
      return next, Ok([payload]);
    }

    /** Hands out the complete payload and resets the payload fields. */
    method FinishFrame(expected: nat) returns (payload: seq<Byte>)
      requires header.Length == FRAME_HEADER_LENGTH && maxFrameLength <= MAX_UINT32 && headerLength == 0
      requires BlocksValid() && payloadLength == expected && reserved <= expected
      modifies this
      ensures payload == old(received)
      ensures Valid() && Pending() == [] && Repr == old(Repr) && state == old(state)
    {
      payload := JoinBlocks(expected);
      payloadBlocks, currentPayloadBlock, currentPayloadBlockLength := [], null, 0;
      expectedPayloadLength, payloadLength := None, 0;
      received, reserved := [], 0;
    }

    method FillPayload(chunk: seq<Byte>, offset: nat, expected: nat) returns (next: nat)
      requires BlocksValid() && Bounded(expected)
      requires offset < |chunk| && payloadLength < expected
      modifies this`payloadBlocks, this`currentPayloadBlock, this`currentPayloadBlockLength, this`payloadLength
      modifies this`received, this`reserved, this`Repr
      modifies Repr - {this, header}
      ensures BlocksValid() && Bounded(expected) && fresh(Repr - old(Repr))
      ensures offset < next <= |chunk|
      ensures payloadLength <= expected && (next < |chunk| ==> payloadLength == expected)
      ensures received == old(received) + chunk[offset..next]
    {
      next := offset;
      while next < |chunk| && payloadLength < expected
        invariant offset <= next <= |chunk| && (next == offset ==> payloadLength < expected)
        invariant BlocksValid() && Bounded(expected) && fresh(Repr - old(Repr))
        invariant payloadLength <= expected
        invariant received == old(received) + chunk[offset..next]
      {
        EnsureRoom(expected);
        ghost var from := next;
        next := FillBlock(chunk, next, expected);
        SliceExtend(old(received), chunk, offset, from, next);
      }
    }

    /** Allocates the next block when there is none or it is full. */
    method EnsureRoom(expected: nat)
      requires BlocksValid() && payloadLength < expected && Bounded(expected)
      modifies this`payloadBlocks, this`currentPayloadBlock, this`currentPayloadBlockLength, this`reserved, this`Repr
      ensures BlocksValid() && fresh(Repr - old(Repr))
      ensures currentPayloadBlock != null && currentPayloadBlockLength < currentPayloadBlock.Length
      ensures reserved <= expected && reserved <= payloadLength + PAYLOAD_BLOCK_SIZE
    {
      var block := currentPayloadBlock;
      if block == null || currentPayloadBlockLength == block.Length {
        assert received == Joined(payloadBlocks) by {
          if block != null { assert block[..block.Length] == block[..]; }
        }
        block := new Byte[Min(PAYLOAD_BLOCK_SIZE, expected - payloadLength)];
        payloadBlocks := payloadBlocks + [block];
        currentPayloadBlock, currentPayloadBlockLength := block, 0;
        reserved, Repr := reserved + block.Length, Repr + {block};
        assert FullBlocks() == old(payloadBlocks);
        assert block[..0] == [];
        assert Joined(payloadBlocks) == received + block[..];
      }
    }

    /** Copies what fits into the current block. */
    method FillBlock(chunk: seq<Byte>, offset: nat, expected: nat) returns (next: nat)
      requires BlocksValid() && offset < |chunk|
      requires currentPayloadBlock != null && currentPayloadBlockLength < currentPayloadBlock.Length
      requires reserved <= expected && reserved <= payloadLength + PAYLOAD_BLOCK_SIZE
      modifies this`currentPayloadBlockLength, this`payloadLength, this`received, currentPayloadBlock
      ensures BlocksValid() && Bounded(expected)
      ensures offset < next <= |chunk| && payloadLength <= expected
      ensures received == old(received) + chunk[offset..next]
    {
      var block := currentPayloadBlock;
      var n := Min(block.Length - currentPayloadBlockLength, |chunk| - offset);
      ghost var full, part := Joined(FullBlocks()), block[..currentPayloadBlockLength];
      CopyInto(chunk, offset, n, block, currentPayloadBlockLength);
      next := offset + n;
      ghost var more := chunk[offset..next];
      assert Joined(FullBlocks()) == full;
      currentPayloadBlockLength := currentPayloadBlockLength + n;
      payloadLength := payloadLength + n;
      received := received + more;
      BlockGrows(full, part, more, block[..currentPayloadBlockLength]);
    }

    /** The frame handed out: the only block itself, or a copy of all blocks end to end. */
    method JoinBlocks(expected: nat) returns (payload: seq<Byte>)
      requires BlocksValid() && payloadLength == expected && reserved <= expected
      ensures payload == received
    {
      assert received == Joined(payloadBlocks) by {
        if payloadBlocks != [] {
          assert Joined(payloadBlocks) == Joined(FullBlocks()) + currentPayloadBlock[..];
          assert currentPayloadBlock[..currentPayloadBlock.Length] == currentPayloadBlock[..];
        }
      }
      if |payloadBlocks| == 1 {
        assert Joined(payloadBlocks[..0]) == [];
        return payloadBlocks[0][..];
      }
      payload := Concatenate(payloadBlocks, expected);
    }

    method End() returns (r: Result<(), Fault>)
      requires Valid()
      modifies this
      ensures Valid() && Repr == old(Repr)
      ensures (View(), r) == EndView(old(View()))
    {
      if state == Ended { return Err(DecoderEnded); }
      if state == Failed { return Err(DecoderFailed); }
      if headerLength != 0 || expectedPayloadLength.Some? {
        Fail();
        return Err(Truncated);
      }
      state := Ended;
      return Ok(());
    }

    method Fail()
      requires header.Length == FRAME_HEADER_LENGTH && maxFrameLength <= MAX_UINT32 && this in Repr && header in Repr
      modifies this
      ensures Valid() && View() == Broken && Repr == old(Repr)
    {
      state, headerLength := Failed, 0;
      payloadBlocks, currentPayloadBlock, currentPayloadBlockLength := [], null, 0;
      expectedPayloadLength, payloadLength := None, 0;
      received, reserved := [], 0;
    }
  }

  /** `target.set(source.subarray(from, from + n), at)` */
  method CopyInto(source: seq<Byte>, from: nat, n: nat, target: array<Byte>, at: nat)
    requires from + n <= |source| && at + n <= target.Length
    modifies target
    ensures target[..at + n] == old(target[..at]) + source[from..from + n]
    ensures target[at + n..] == old(target[at + n..])
  {
    forall i | 0 <= i < n { target[at + i] := source[from + i]; }
  }

  /** Copies the blocks end to end into one new buffer. */
  method Concatenate(blocks: seq<array<Byte>>, total: nat) returns (payload: seq<Byte>)
    requires total == |Joined(blocks)|
    ensures payload == Joined(blocks)
  {
    var joined := new Byte[total];
    var offset := 0;
    for k := 0 to |blocks|
      invariant forall i :: 0 <= i < |blocks| ==> blocks[i] != joined
      invariant total == |Joined(blocks)|
      invariant offset == |Joined(blocks[..k])| <= total
      invariant joined[..offset] == Joined(blocks[..k])
    {
      JoinedNext(blocks, k);
      assert blocks[k][..][0..blocks[k].Length] == blocks[k][..];
      CopyInto(blocks[k][..], 0, blocks[k].Length, joined, offset);
      offset := offset + blocks[k].Length;
    }
    assert blocks[..|blocks|] == blocks;
    return joined[..];
  }

  lemma BlockGrows(full: seq<Byte>, part: seq<Byte>, more: seq<Byte>, block: seq<Byte>)
    requires block == part + more
    ensures full + part + more == full + block
  {
  }

  lemma SliceExtend(had: seq<Byte>, chunk: seq<Byte>, i: nat, j: nat, k: nat)
    requires i <= j <= k <= |chunk|
    ensures had + chunk[i..j] + chunk[j..k] == had + chunk[i..k]
  {
  }

  lemma HeaderParse(h: seq<Byte>, max: nat)
    requires |h| == FRAME_HEADER_LENGTH
    ensures ParseStream(h, max) ==
            if HeaderValue(h) > max then Oversize(HeaderValue(h))
            else if HeaderValue(h) == 0 then Parsed([[]], [])
            else Parsed([], h)
  {
    assert h[..4] == h && h[4..4] == [] && h[4..] == [];
  }

  /** Parsing a header followed by at most the payload it announces. */
  lemma PayloadParse(h: seq<Byte>, had: seq<Byte>, more: seq<Byte>, max: nat)
    requires |h| == FRAME_HEADER_LENGTH && |had + more| <= HeaderValue(h) <= max
    ensures ParseStream(h + had + more, max) ==
            if |had + more| < HeaderValue(h) then Parsed([], h + (had + more)) else Parsed([had + more], [])
  {
    var s := h + had + more;
    assert s == h + (had + more);
    assert s[..4] == h && s[4..] == had + more;
    if |had + more| == HeaderValue(h) {
      assert s[4..4 + HeaderValue(h)] == had + more && s[4 + HeaderValue(h)..] == [];
    }
  }

  lemma JoinedNext(blocks: seq<array<Byte>>, k: nat)
    requires k < |blocks|
    ensures Joined(blocks[..k + 1]) == Joined(blocks[..k]) + blocks[k][..]
    ensures |Joined(blocks[..k])| + blocks[k].Length <= |Joined(blocks)|
  {
    assert blocks[..k + 1][..k] == blocks[..k];
    JoinedPrefix(blocks, k + 1);
  }

  lemma {:induction false} JoinedPrefix(blocks: seq<array<Byte>>, k: nat)
    requires k <= |blocks|
    ensures |Joined(blocks[..k])| <= |Joined(blocks)|
  {
    if k == |blocks| {
      assert blocks[..k] == blocks;
    } else {
      JoinedPrefix(blocks[..|blocks| - 1], k);
      assert blocks[..|blocks| - 1][..k] == blocks[..k];
    }
  }

  /** Extending a prefix that parses to `known` frames and `pending` bytes. */
  lemma ParseFurther(before: seq<Byte>, chunk: seq<Byte>, i: nat, j: nat,
                     pending: seq<Byte>, known: seq<seq<Byte>>, max: nat)
    requires i <= j <= |chunk|
    ensures var p := ParseStream(before + chunk[..i], max);
            var q := ParseStream(before + chunk[..j], max);
            (p == Parsed(known, pending) ==> q == After(known, ParseStream(pending + chunk[i..j], max))) &&
            (p.Oversize? ==> q == p)
  {
    ParseAppend(before + chunk[..i], chunk[i..j], max);
    assert before + chunk[..i] + chunk[i..j] == before + chunk[..j];
  }

  /** The fields of an open decoder in mid-frame: announced length, payload so far, and how much buffer they hold. */
  lemma ReservationBounded(d: FrameDecoder)
    requires d.Valid() && d.expectedPayloadLength.Some?
    ensures d.Pending() == HeaderBytes(d.expectedPayloadLength.value) + d.received && |d.received| == d.payloadLength
    ensures d.received <= Joined(d.payloadBlocks)
    ensures |Joined(d.payloadBlocks)| <= d.expectedPayloadLength.value
    ensures |Joined(d.payloadBlocks)| <= d.payloadLength + (PAYLOAD_BLOCK_SIZE - 1)
  {
    HeaderInjective(d.header[..]);
    if d.payloadBlocks != [] {
      assert Joined(d.payloadBlocks) == Joined(d.FullBlocks()) + d.currentPayloadBlock[..];
    }
  }
}
