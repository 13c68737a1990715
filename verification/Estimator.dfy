/** The extension object the host talks to. Besides activation and the command
    channel it holds a single-fetch frame grabber: once armed by a fetch
    request, the next raw buffer of the selected buffer number has one frame
    copied out of it into one of two rotating copy buffers, and that copy is
    handed on (to the estimation engine) with its dimensions. Signals are
    appended, in order, to an event log. */
module Estimator {
  import opened Common

  /** `NUMBER_OF_BUFFERS`: the copy buffers grabbed frames rotate through. */
  const NUMBER_OF_BUFFERS: nat := 2

  datatype EstimatorEvent =
    | WaitingForData
    | MaxFrames(max: int)
    | MaxBuffers(max: int)
    | DimensionsError
    | NewFrame(slot: nat, frame: seq<byte>, bitDepth: u32, samplesPerLine: u32, linesPerFrame: u32)

  /** What the host reports with each raw buffer. */
  datatype BufferInfo = BufferInfo(
    bitDepth: u32,
    samplesPerLine: u32,
    linesPerFrame: u32,
    framesPerBuffer: u32,
    buffersPerVolume: u32,
    currentBufferNr: u32)

  /** The grabber's fields. A copy buffer is `None` while it was never allocated. */
  datatype GrabberState = GrabberState(
    frameNr: int,
    bufferNr: int,
    active: bool,
    isCalculating: bool,
    singleFetch: bool,
    rawGrabbingAllowed: bool,
    frameBuffersRaw: seq<Option<seq<byte>>>,
    copyBufferId: int,
    bytesPerFrameProcessed: nat,
    framesPerBuffer: u32,
    buffersPerVolume: u32)
  {
    /** Two copy buffers, a ring index that is -1 (nothing copied yet) or a slot,
        a frame number the frame selector allows, and every allocated copy
        buffer exactly one recorded frame size long. */
    ghost predicate Valid()
    {
      && frameNr >= 0
      && |frameBuffersRaw| == NUMBER_OF_BUFFERS
      && -1 <= copyBufferId < NUMBER_OF_BUFFERS
      && forall k :: 0 <= k < |frameBuffersRaw| && frameBuffersRaw[k].Some? ==>
           |frameBuffersRaw[k].value| == bytesPerFrameProcessed
    }
  }

  // ---------------------------------------------------------------------------
  // One raw buffer (specification)
  // ---------------------------------------------------------------------------

  /** `samplesPerLine * linesPerFrame * bytesPerSample`: the first product is
      taken in 32-bit unsigned arithmetic and wraps; the last one is `size_t`. */
  function BytesPerFrame(info: BufferInfo): (r: nat)
    ensures info.samplesPerLine * info.linesPerFrame < TWO_POW_32 ==>
              r == info.samplesPerLine * info.linesPerFrame * BytesPerSample(info.bitDepth)
    ensures r <= (TWO_POW_32 - 1) * BytesPerSample(info.bitDepth)
  {
    var samples := (info.samplesPerLine * info.linesPerFrame) % TWO_POW_32;
    MulLeq(samples, TWO_POW_32 - 1, BytesPerSample(info.bitDepth));
    samples * BytesPerSample(info.bitDepth)
  }

  /** The sample count of a frame wraps at 2^32: a frame of 65536 lines of
      65536 8-bit samples, with no dimension zero, counts as 0 bytes. */
  lemma FrameSizeWrapsAt32Bits()
    ensures var info := BufferInfo(8, 65536, 65536, 1, 1, 0);
            !HasZeroDimension(info) && BytesPerFrame(info) == 0
  {
    var info := BufferInfo(8, 65536, 65536, 1, 1, 0);
    assert info.samplesPerLine * info.linesPerFrame == TWO_POW_32;
  }

  /** A fetch is pending and nothing else is being copied. */
  predicate Armed(g: GrabberState)
  {
    g.active && !g.isCalculating && g.singleFetch && g.rawGrabbingAllowed
  }

  /** `if (index > static_cast<int>(count - 1)) index = static_cast<int>(count - 1)`. */
  function ClampIndex(index: int, count: u32): (r: int)
    ensures r <= index && r <= LastIndex(count)
    ensures r == index || r == LastIndex(count)
    ensures 0 < count <= 0x8000_0000 && index >= 0 ==> 0 <= r < count
  {
    if index > LastIndex(count) then LastIndex(count) else index
  }

  /** The buffer is the selected one, or every buffer is (`-1`). */
  predicate Selected(bufferNr: int, currentBufferNr: u32)
  {
    bufferNr == -1 || bufferNr == AsInt32(currentBufferNr)
  }

  /** No copy buffers yet, or ones of another frame size. */
  predicate NeedsAllocation(g: GrabberState, bytesPerFrame: nat)
    requires |g.frameBuffersRaw| > 0
  {
    g.frameBuffersRaw[0].None? || g.bytesPerFrameProcessed != bytesPerFrame
  }

  predicate HasZeroDimension(info: BufferInfo)
  {
    info.bitDepth == 0 || info.samplesPerLine == 0 || info.linesPerFrame == 0 || info.framesPerBuffer == 0
  }

  /** The grab gets as far as copying a frame. */
  predicate Copies(g: GrabberState, info: BufferInfo)
    requires |g.frameBuffersRaw| > 0
  {
    && Armed(g)
    && Selected(ClampIndex(g.bufferNr, info.buffersPerVolume), info.currentBufferNr)
    && !(NeedsAllocation(g, BytesPerFrame(info)) && HasZeroDimension(info))
  }

  /** The next slot of the copy-buffer ring. */
  function NextSlot(copyBufferId: int): int
  {
    (copyBufferId + 1) % NUMBER_OF_BUFFERS
  }

  /** A freshly allocated copy buffer. Its contents are never read before a
      frame is copied over them; zeros stand in for them. */
  function FreshBuffer(size: nat): (b: seq<byte>)
    ensures |b| == size
  {
    seq(size, _ => 0)
  }

  /** Frame `frameNr` of a host buffer of back-to-back frames. */
  function FrameAt(buffer: seq<byte>, bytesPerFrame: nat, frameNr: nat): (frame: seq<byte>)
    requires (frameNr + 1) * bytesPerFrame <= |buffer|
    ensures |frame| == bytesPerFrame
  {
    buffer[bytesPerFrame * frameNr .. bytesPerFrame * frameNr + bytesPerFrame]
  }

  /** The host buffer holds `framesPerBuffer` frames. */
  predicate HostBuffer(info: BufferInfo, buffer: seq<byte>)
  {
    |buffer| >= info.framesPerBuffer * BytesPerFrame(info)
  }

  /** The signals announcing changed buffer dimensions, in order. */
  function DimensionNotices(g: GrabberState, info: BufferInfo): seq<EstimatorEvent>
  {
    (if g.framesPerBuffer != info.framesPerBuffer then [MaxFrames(LastIndex(info.framesPerBuffer))] else [])
      + (if g.buffersPerVolume != info.buffersPerVolume then [MaxBuffers(LastIndex(info.buffersPerVolume))] else [])
  }

  datatype Grab = Grab(state: GrabberState, events: seq<EstimatorEvent>)

  /** The state and the signals after one raw buffer arrives. */
  function Received(g: GrabberState, info: BufferInfo, buffer: seq<byte>): (r: Grab)
    requires g.Valid() && HostBuffer(info, buffer)
    requires Copies(g, info) ==> 0 < info.framesPerBuffer <= 0x8000_0000
    ensures r.state.Valid()
  {
    if !Armed(g) then Grab(g, [])
    else
      var bufferNr := ClampIndex(g.bufferNr, info.buffersPerVolume);
      if !Selected(bufferNr, info.currentBufferNr) then Grab(g.(bufferNr := bufferNr), [])
      else Fetched(g.(bufferNr := bufferNr), info, buffer)
  }

  /** A buffer of the selected number: a copy is in progress, the dimension
      cache is refreshed with notices for what changed, and the frame is stored. */
  function Fetched(g: GrabberState, info: BufferInfo, buffer: seq<byte>): (r: Grab)
    requires g.Valid() && HostBuffer(info, buffer)
    requires !(NeedsAllocation(g, BytesPerFrame(info)) && HasZeroDimension(info)) ==>
               0 < info.framesPerBuffer <= 0x8000_0000
    ensures r.state.Valid()
  {
    var t := Stored(Refreshed(g, info), info, buffer);
    Grab(t.state, DimensionNotices(g, info) + t.events)
  }

  /** A copy in progress, with the host's dimensions cached. */
  function Refreshed(g: GrabberState, info: BufferInfo): (g1: GrabberState)
    requires g.Valid()
    ensures g1.Valid()
  {
    g.(isCalculating := true, framesPerBuffer := info.framesPerBuffer, buffersPerVolume := info.buffersPerVolume)
  }

  /** The copy buffers are (re)allocated if needed and the frame is copied, or
      an error is signalled when a reallocation is due and a dimension is zero. */
  function Stored(g: GrabberState, info: BufferInfo, buffer: seq<byte>): (r: Grab)
    requires g.Valid() && HostBuffer(info, buffer)
    requires !(NeedsAllocation(g, BytesPerFrame(info)) && HasZeroDimension(info)) ==>
               0 < info.framesPerBuffer <= 0x8000_0000
    ensures r.state.Valid()
  {
    if NeedsAllocation(g, BytesPerFrame(info)) && HasZeroDimension(info) then Grab(g, [DimensionsError])
    else CopiedFrame(Prepared(g, info), info, buffer)
  }

  /** The copy buffers, reallocated when needed. */
  function Prepared(g: GrabberState, info: BufferInfo): (g2: GrabberState)
    requires g.Valid()
    requires !(NeedsAllocation(g, BytesPerFrame(info)) && HasZeroDimension(info))
    ensures g2.Valid() && g2.bytesPerFrameProcessed == BytesPerFrame(info)
    ensures g2 == g.(frameBuffersRaw := g2.frameBuffersRaw, bytesPerFrameProcessed := g2.bytesPerFrameProcessed)
  {
    if NeedsAllocation(g, BytesPerFrame(info)) then Allocate(g, BytesPerFrame(info)) else g
  }

  /** The state the copy starts from once the buffer was found to be the selected one. */
  function BeforeCopy(g: GrabberState, info: BufferInfo): (g2: GrabberState)
    requires g.Valid()
    requires !(NeedsAllocation(g, BytesPerFrame(info)) && HasZeroDimension(info))
    ensures g2.Valid() && g2.bytesPerFrameProcessed == BytesPerFrame(info)
    ensures g2.copyBufferId == g.copyBufferId && g2.frameNr == g.frameNr
    ensures g2.framesPerBuffer == info.framesPerBuffer && g2.buffersPerVolume == info.buffersPerVolume
  {
    Prepared(Refreshed(g, info), info)
  }

  /** The copy itself: the next ring slot receives frame `frameNr`, clamped to
      the last frame of the buffer, and the fetch is complete. */
  function CopiedFrame(g: GrabberState, info: BufferInfo, buffer: seq<byte>): (r: Grab)
    requires g.Valid() && HostBuffer(info, buffer)
    requires 0 < info.framesPerBuffer <= 0x8000_0000 && g.bytesPerFrameProcessed == BytesPerFrame(info)
    ensures r.state.Valid()
  {
    var bytesPerFrame := BytesPerFrame(info);
    var slot := NextSlot(g.copyBufferId);
    var frameNr := ClampIndex(g.frameNr, info.framesPerBuffer);
    MulLeq(frameNr + 1, info.framesPerBuffer, bytesPerFrame);
    var frame := FrameAt(buffer, bytesPerFrame, frameNr);
    Grab(g.(copyBufferId := slot, frameNr := frameNr, frameBuffersRaw := g.frameBuffersRaw[slot := Some(frame)],
            isCalculating := false, singleFetch := false),
         [NewFrame(slot, frame, info.bitDepth, info.samplesPerLine, info.linesPerFrame)])
  }

  /** Every copy buffer replaced by a fresh one of `size` bytes. */
  function Allocate(g: GrabberState, size: nat): (r: GrabberState)
    ensures r == g.(frameBuffersRaw := r.frameBuffersRaw, bytesPerFrameProcessed := size)
    ensures |r.frameBuffersRaw| == |g.frameBuffersRaw|
    ensures forall k :: 0 <= k < |r.frameBuffersRaw| ==> r.frameBuffersRaw[k] == Some(FreshBuffer(size))
  {
    g.(frameBuffersRaw := seq(|g.frameBuffersRaw|, _ => Some(FreshBuffer(size))), bytesPerFrameProcessed := size)
  }

  // ---------------------------------------------------------------------------
  // Properties of one raw buffer
  // ---------------------------------------------------------------------------

  /** Nothing happens unless the extension is active, a fetch is pending, no
      copy is in progress and raw grabbing is allowed. */
  lemma IdleUnlessArmed(g: GrabberState, info: BufferInfo, buffer: seq<byte>)
    requires g.Valid() && HostBuffer(info, buffer)
    requires Copies(g, info) ==> 0 < info.framesPerBuffer <= 0x8000_0000
    requires !Armed(g)
    ensures Received(g, info, buffer) == Grab(g, [])
  {
  }

  /** A buffer other than the selected one is discarded: the buffer number is
      clamped to the last buffer of a volume, nothing is signalled, and the
      fetch stays pending for the next buffer. */
  lemma UnselectedBufferKeepsFetchPending(g: GrabberState, info: BufferInfo, buffer: seq<byte>)
    requires g.Valid() && HostBuffer(info, buffer)
    requires Copies(g, info) ==> 0 < info.framesPerBuffer <= 0x8000_0000
    requires Armed(g) && !Selected(ClampIndex(g.bufferNr, info.buffersPerVolume), info.currentBufferNr)
    ensures var r := Received(g, info, buffer);
            && r.events == []
            && r.state == g.(bufferNr := ClampIndex(g.bufferNr, info.buffersPerVolume))
            && r.state.bufferNr <= LastIndex(info.buffersPerVolume)
            && Armed(r.state)
  {
  }

  /** The copy writes frame `min(frameNr, framesPerBuffer - 1)` of the host
      buffer into the next slot of the ring, hands it on, and completes the fetch. */
  lemma CopiedFrameFacts(g: GrabberState, info: BufferInfo, buffer: seq<byte>)
    requires g.Valid() && HostBuffer(info, buffer)
    requires 0 < info.framesPerBuffer <= 0x8000_0000 && g.bytesPerFrameProcessed == BytesPerFrame(info)
    ensures var r := CopiedFrame(g, info, buffer);
            var bytesPerFrame := BytesPerFrame(info);
            var frameNr := r.state.frameNr;
            var slot := NextSlot(g.copyBufferId);
            && frameNr == Min(g.frameNr, info.framesPerBuffer - 1)
            && 0 <= frameNr < info.framesPerBuffer
            && (frameNr + 1) * bytesPerFrame <= |buffer|
            && r.state.copyBufferId == slot
            && r.state.frameBuffersRaw[slot] == Some(FrameAt(buffer, bytesPerFrame, frameNr))
            && r.events == [NewFrame(slot, FrameAt(buffer, bytesPerFrame, frameNr),
                                     info.bitDepth, info.samplesPerLine, info.linesPerFrame)]
            && !r.state.singleFetch && !r.state.isCalculating
  {
    var frameNr := ClampIndex(g.frameNr, info.framesPerBuffer);
    MulLeq(frameNr + 1, info.framesPerBuffer, BytesPerFrame(info));
  }

  /** A grab that gets as far as the copy ends with the copy's state, after the
      dimension notices. */
  lemma ReceivedCopies(g: GrabberState, info: BufferInfo, buffer: seq<byte>)
    requires g.Valid() && HostBuffer(info, buffer)
    requires Copies(g, info) && 0 < info.framesPerBuffer <= 0x8000_0000
    ensures var c := CopiedFrame(BeforeCopy(Selecting(g, info), info), info, buffer);
            Received(g, info, buffer) == Grab(c.state, DimensionNotices(g, info) + c.events)
  {
  }

  /** The state with the buffer number clamped to the last buffer of a volume. */
  function Selecting(g: GrabberState, info: BufferInfo): (g1: GrabberState)
    requires g.Valid()
    ensures g1.Valid() && g1 == g.(bufferNr := g1.bufferNr)
  {
    g.(bufferNr := ClampIndex(g.bufferNr, info.buffersPerVolume))
  }

  /** A frame is handed on exactly when the grab gets as far as the copy. */
  lemma FrameHandedOnIffCopied(g: GrabberState, info: BufferInfo, buffer: seq<byte>)
    requires g.Valid() && HostBuffer(info, buffer)
    requires Copies(g, info) ==> 0 < info.framesPerBuffer <= 0x8000_0000
    ensures var r := Received(g, info, buffer);
            (exists k :: 0 <= k < |r.events| && r.events[k].NewFrame?) <==> Copies(g, info)
  {
    var r := Received(g, info, buffer);
    if Copies(g, info) {
      ReceivedCopies(g, info, buffer);
      CopiedFrameFacts(BeforeCopy(Selecting(g, info), info), info, buffer);
      assert r.events[|r.events| - 1].NewFrame?;
    } else if Armed(g) && Selected(ClampIndex(g.bufferNr, info.buffersPerVolume), info.currentBufferNr) {
      assert r.events == DimensionNotices(g, info) + [DimensionsError];
      assert forall k :: 0 <= k < |r.events| ==> !r.events[k].NewFrame?;
    }
  }

  /** The frame handed on is frame `min(frameNr, framesPerBuffer - 1)` of the
      host buffer, the bytes `[bytesPerFrame * frameNr, bytesPerFrame * (frameNr + 1))`;
      it is copied into the next slot of the ring, and the fetch is then complete. */
  lemma FrameIsCopied(g: GrabberState, info: BufferInfo, buffer: seq<byte>)
    requires g.Valid() && HostBuffer(info, buffer)
    requires Copies(g, info) && 0 < info.framesPerBuffer <= 0x8000_0000
    ensures var r := Received(g, info, buffer);
            var bytesPerFrame := BytesPerFrame(info);
            var frameNr := r.state.frameNr;
            var slot := NextSlot(g.copyBufferId);
            && frameNr == Min(g.frameNr, info.framesPerBuffer - 1)
            && 0 <= frameNr < info.framesPerBuffer
            && (frameNr + 1) * bytesPerFrame <= |buffer|
            && r.state.copyBufferId == slot
            && r.state.frameBuffersRaw[slot] == Some(FrameAt(buffer, bytesPerFrame, frameNr))
            && r.events == DimensionNotices(g, info)
                           + [NewFrame(slot, FrameAt(buffer, bytesPerFrame, frameNr),
                                       info.bitDepth, info.samplesPerLine, info.linesPerFrame)]
            && !r.state.singleFetch && !r.state.isCalculating
  {
    ReceivedCopies(g, info, buffer);
    CopiedFrameFacts(BeforeCopy(Selecting(g, info), info), info, buffer);
  }

  /** The `maxFrames` and `maxBuffers` signals go out only when the host's
      dimension differs from the cached one, and the cache then holds it. */
  lemma DimensionCacheUpdated(g: GrabberState, info: BufferInfo, buffer: seq<byte>)
    requires g.Valid() && HostBuffer(info, buffer)
    requires Copies(g, info) ==> 0 < info.framesPerBuffer <= 0x8000_0000
    requires Armed(g) && Selected(ClampIndex(g.bufferNr, info.buffersPerVolume), info.currentBufferNr)
    ensures var r := Received(g, info, buffer);
            && r.state.framesPerBuffer == info.framesPerBuffer
            && r.state.buffersPerVolume == info.buffersPerVolume
            && (MaxFrames(LastIndex(info.framesPerBuffer)) in r.events <==> g.framesPerBuffer != info.framesPerBuffer)
            && (MaxBuffers(LastIndex(info.buffersPerVolume)) in r.events <==> g.buffersPerVolume != info.buffersPerVolume)
  {
    var gs := Selecting(g, info);
    assert Received(g, info, buffer) == Fetched(gs, info, buffer);
    FetchedEndsWithOutcome(gs, info, buffer);
  }

  /** After the selection check, the dimension notices come first and one
      outcome signal, the copied frame or the error, ends the grab. */
  lemma FetchedEndsWithOutcome(g: GrabberState, info: BufferInfo, buffer: seq<byte>)
    requires g.Valid() && HostBuffer(info, buffer)
    requires !(NeedsAllocation(g, BytesPerFrame(info)) && HasZeroDimension(info)) ==>
               0 < info.framesPerBuffer <= 0x8000_0000
    ensures var r := Fetched(g, info, buffer);
            && r.state.framesPerBuffer == info.framesPerBuffer
            && r.state.buffersPerVolume == info.buffersPerVolume
            && r.events == DimensionNotices(g, info) + [r.events[|r.events| - 1]]
            && (r.events[|r.events| - 1].NewFrame? || r.events[|r.events| - 1].DimensionsError?)
  {
    if !(NeedsAllocation(g, BytesPerFrame(info)) && HasZeroDimension(info)) {
      CopiedFrameFacts(BeforeCopy(g, info), info, buffer);
    }
  }

  /** Copy buffers are allocated only when there are none or the frame size
      changed; afterwards the recorded size is the frame size. A slot the copy
      does not write keeps its old contents unless everything was reallocated. */
  lemma AllocationOnlyOnSizeChange(g: GrabberState, info: BufferInfo, buffer: seq<byte>)
    requires g.Valid() && HostBuffer(info, buffer)
    requires Copies(g, info) ==> 0 < info.framesPerBuffer <= 0x8000_0000
    requires Copies(g, info)
    ensures var r := Received(g, info, buffer);
            var other := 1 - NextSlot(g.copyBufferId);
            && r.state.bytesPerFrameProcessed == BytesPerFrame(info)
            && (NeedsAllocation(g, BytesPerFrame(info)) ==> r.state.frameBuffersRaw[other] == Some(FreshBuffer(BytesPerFrame(info))))
            && (!NeedsAllocation(g, BytesPerFrame(info)) ==> r.state.frameBuffersRaw[other] == g.frameBuffersRaw[other])
  {
  }

  /** The ring index is a slot after every copy; the first copy uses slot 0 and
      consecutive copies alternate. */
  lemma SlotRing(copyBufferId: int)
    requires -1 <= copyBufferId < NUMBER_OF_BUFFERS
    ensures 0 <= NextSlot(copyBufferId) < NUMBER_OF_BUFFERS
    ensures copyBufferId == -1 ==> NextSlot(copyBufferId) == 0
    ensures NextSlot(NextSlot(copyBufferId)) != NextSlot(copyBufferId)
  {
  }

  /** A completed grab disarms the fetch: every later buffer is ignored until
      the next fetch request, so one request yields at most one frame. */
  lemma OneFramePerFetch(g: GrabberState, info: BufferInfo, buffer: seq<byte>,
                         info2: BufferInfo, buffer2: seq<byte>)
    requires g.Valid() && HostBuffer(info, buffer)
    requires Copies(g, info) ==> 0 < info.framesPerBuffer <= 0x8000_0000
    requires Copies(g, info)
    requires HostBuffer(info2, buffer2)
    ensures var r := Received(g, info, buffer);
            var r2 := Received(r.state, info2, buffer2);
            r2 == Grab(r.state, [])
  {
  }

  /** When a reallocation is due and a dimension is zero, the grab signals an
      error and stops with `isCalculating` set; nothing clears it again, so every
      later buffer is ignored, whatever its dimensions. */
  lemma ZeroDimensionBlocksGrabbing(g: GrabberState, info: BufferInfo, buffer: seq<byte>,
                                    info2: BufferInfo, buffer2: seq<byte>)
    requires g.Valid() && HostBuffer(info, buffer)
    requires Copies(g, info) ==> 0 < info.framesPerBuffer <= 0x8000_0000
    requires Armed(g) && Selected(ClampIndex(g.bufferNr, info.buffersPerVolume), info.currentBufferNr)
    requires NeedsAllocation(g, BytesPerFrame(info)) && HasZeroDimension(info)
    requires HostBuffer(info2, buffer2)
    ensures var r := Received(g, info, buffer);
            && r.events == DimensionNotices(g, info) + [DimensionsError]
            && r.state.isCalculating && r.state.singleFetch
            && Received(r.state.(singleFetch := true), info2, buffer2) == Grab(r.state.(singleFetch := true), [])
  {
  }

  // ---------------------------------------------------------------------------
  // The extension object
  // ---------------------------------------------------------------------------

  class DispersionEstimator {
    var frameNr: int
    var bufferNr: int
    var active: bool
    var isCalculating: bool
    var singleFetch: bool
    /** Set by the host. */
    var rawGrabbingAllowed: bool
    var frameBuffersRaw: seq<Option<seq<byte>>>
    var copyBufferId: int
    var bytesPerFrameProcessed: nat
    var framesPerBuffer: u32
    var buffersPerVolume: u32
    var events: seq<EstimatorEvent>

    ghost function State(): GrabberState
      reads this
    {
      GrabberState(frameNr, bufferNr, active, isCalculating, singleFetch, rawGrabbingAllowed,
                   frameBuffersRaw, copyBufferId, bytesPerFrameProcessed, framesPerBuffer, buffersPerVolume)
    }

    ghost predicate Valid()
      reads this
    {
      State().Valid()
    }

    /** The fields the source leaves uninitialised (`bufferNr`, the cached
        dimensions) and the host's grabbing permission are arguments. Both copy
        buffers start unallocated. */
    constructor (bufferNr: int, framesPerBuffer: u32, buffersPerVolume: u32, rawGrabbingAllowed: bool)
      ensures State() == GrabberState(0, bufferNr, false, false, false, rawGrabbingAllowed,
                                      [None, None], -1, 0, framesPerBuffer, buffersPerVolume)
      ensures events == []
      ensures Valid()
    {
      frameNr := 0;
      this.bufferNr := bufferNr;
      active := false;
      isCalculating := false;
      singleFetch := false;
      this.rawGrabbingAllowed := rawGrabbingAllowed;
      copyBufferId := -1;
      bytesPerFrameProcessed := 0;
      this.framesPerBuffer := framesPerBuffer;
      this.buffersPerVolume := buffersPerVolume;
      frameBuffersRaw := seq(NUMBER_OF_BUFFERS, _ => None);
      events := [];
    }

    method ActivateExtension()
      modifies this
      ensures State() == old(State()).(active := true) && events == old(events)
    {
      active := true;
    }

    method DeactivateExtension()
      modifies this
      ensures State() == old(State()).(active := false) && events == old(events)
    {
      active := false;
    }

    /** The frame selector's value; its range starts at 0. */
    method SetFrameNr(n: int)
      requires n >= 0
      modifies this
      ensures State() == old(State()).(frameNr := n) && events == old(events)
    {
      frameNr := n;
    }

    method SetBufferNr(n: int)
      modifies this
      ensures State() == old(State()).(bufferNr := n) && events == old(events)
    {
      bufferNr := n;
    }

    /** Arms the grabber for one frame. It does not clear `isCalculating`. */
    method SingleFetchRequested()
      modifies this
      ensures State() == old(State()).(singleFetch := true)
      ensures events == old(events) + [WaitingForData]
    {
      singleFetch := true;
      events := events + [WaitingForData];
    }

    /** The host's command channel: only `startSingleFetch` is understood. */
    method ReceiveCommand(command: string)
      modifies this
      ensures command == "startSingleFetch" ==>
                State() == old(State()).(singleFetch := true) && events == old(events) + [WaitingForData]
      ensures command != "startSingleFetch" ==> State() == old(State()) && events == old(events)
    {
      if command == "startSingleFetch" {
        SingleFetchRequested();
      }
    }

    /** One raw buffer from the host. */
    method RawDataReceived(buffer: seq<byte>, info: BufferInfo)
      requires Valid() && HostBuffer(info, buffer)
      requires Copies(State(), info) ==> 0 < info.framesPerBuffer <= 0x8000_0000
      modifies this
      ensures Valid()
      ensures var r := Received(old(State()), info, buffer);
              State() == r.state && events == old(events) + r.events
    {
      ghost var g := State();
      if active {
        if !isCalculating && singleFetch && rawGrabbingAllowed {
          if bufferNr > LastIndex(info.buffersPerVolume) {
            bufferNr := LastIndex(info.buffersPerVolume);
          }
          if !(bufferNr == -1 || bufferNr == AsInt32(info.currentBufferNr)) {
            return;
          }

          FetchFrame(buffer, info);
        }
      }
    }

    /** The part of `RawDataReceived` after the buffer was found to be the selected one. */
    method FetchFrame(buffer: seq<byte>, info: BufferInfo)
      requires Valid() && HostBuffer(info, buffer)
      requires !(NeedsAllocation(State(), BytesPerFrame(info)) && HasZeroDimension(info)) ==>
                 0 < info.framesPerBuffer <= 0x8000_0000
      modifies this
      ensures var r := Fetched(old(State()), info, buffer);
              State() == r.state && events == old(events) + r.events
    {
      ghost var g := State();
      isCalculating := true;
      UpdateDimensions(info);
      assert State() == Refreshed(g, info);
      ghost var t := Stored(State(), info, buffer);
      StoreFrame(buffer, info);
      Associative(old(events), DimensionNotices(g, info), t.events);
    }

    /** Reallocates the copy buffers if needed and copies the frame, or signals
        an error when a reallocation is due and a dimension is zero. */
    method StoreFrame(buffer: seq<byte>, info: BufferInfo)
      requires Valid() && HostBuffer(info, buffer)
      requires !(NeedsAllocation(State(), BytesPerFrame(info)) && HasZeroDimension(info)) ==>
                 0 < info.framesPerBuffer <= 0x8000_0000
      modifies this
      ensures var r := Stored(old(State()), info, buffer);
              State() == r.state && events == old(events) + r.events
    {
      var bytesPerFrame := BytesPerFrame(info);
      if frameBuffersRaw[0].None? || bytesPerFrameProcessed != bytesPerFrame {
        if info.bitDepth == 0 || info.samplesPerLine == 0 || info.linesPerFrame == 0 || info.framesPerBuffer == 0 {
          events := events + [DimensionsError];
          return;
        }
        ReallocateFrameBuffers(bytesPerFrame);
      }
      CopyFrame(buffer, info, bytesPerFrame);
    }

    /** Refreshes the cached dimensions, signalling each one that changed. */
    method UpdateDimensions(info: BufferInfo)
      modifies this
      ensures State() == old(State()).(framesPerBuffer := info.framesPerBuffer, buffersPerVolume := info.buffersPerVolume)
      ensures events == old(events) + DimensionNotices(old(State()), info)
    {
      if framesPerBuffer != info.framesPerBuffer {
        events := events + [MaxFrames(LastIndex(info.framesPerBuffer))];
        framesPerBuffer := info.framesPerBuffer;
      }
      if buffersPerVolume != info.buffersPerVolume {
        events := events + [MaxBuffers(LastIndex(info.buffersPerVolume))];
        buffersPerVolume := info.buffersPerVolume;
      }
    }

    /** The copy at the end of `RawDataReceived`. */
    method CopyFrame(buffer: seq<byte>, info: BufferInfo, bytesPerFrame: nat)
      requires Valid() && HostBuffer(info, buffer)
      requires 0 < info.framesPerBuffer <= 0x8000_0000
      requires bytesPerFrame == BytesPerFrame(info) && bytesPerFrameProcessed == bytesPerFrame
      modifies this
      ensures var r := CopiedFrame(old(State()), info, buffer);
              State() == r.state && events == old(events) + r.events
    {
      ghost var r := CopiedFrame(State(), info, buffer);
      ghost var slot := NextSlot(copyBufferId);
      ghost var clamped := ClampIndex(frameNr, info.framesPerBuffer);
      copyBufferId := (copyBufferId + 1) % NUMBER_OF_BUFFERS;
      if frameNr > LastIndex(info.framesPerBuffer) {
        frameNr := LastIndex(info.framesPerBuffer);
      }
      assert copyBufferId == slot && frameNr == clamped;
      MulLeq(frameNr + 1, info.framesPerBuffer, bytesPerFrame);
      var frame := FrameAt(buffer, bytesPerFrame, frameNr);
      frameBuffersRaw := frameBuffersRaw[copyBufferId := Some(frame)];
      events := events + [NewFrame(copyBufferId, frame, info.bitDepth, info.samplesPerLine, info.linesPerFrame)];

      isCalculating := false;
      singleFetch := false;
      assert State() == r.state;
    }

    /** Replaces every copy buffer by a fresh one of `size` bytes and records
        the size. */
    method ReallocateFrameBuffers(size: nat)
      modifies this
      ensures State() == Allocate(old(State()), size) && events == old(events)
    {
      for i := 0 to |frameBuffersRaw|
        invariant State() == old(State()).(frameBuffersRaw := frameBuffersRaw) && events == old(events)
        invariant |frameBuffersRaw| == |old(frameBuffersRaw)|
        invariant forall k :: 0 <= k < i ==> frameBuffersRaw[k] == Some(FreshBuffer(size))
        invariant forall k :: i <= k < |frameBuffersRaw| ==> frameBuffersRaw[k] == old(frameBuffersRaw[k])
      {
        frameBuffersRaw := frameBuffersRaw[i := Some(FreshBuffer(size))];
      }
      assert frameBuffersRaw == Allocate(old(State()), size).frameBuffersRaw;
      bytesPerFrameProcessed := size;
    }
  }
}
