/** The packet fan-out engine of one flow (mainloop/mainloop.go): the single
    execution context that receives packets, detects discontinuities, keeps
    the statistics and owns the registry of outputs.

    The source runs `receiveLoop` as a goroutine around a `select`; here
    each turn of that loop is one call of `Step` (or of the per-case method
    it dispatches to) on a `Mainloop` object whose fields are the loop's
    state. Time is a parameter in nanoseconds. */
module Mainloop {
  import opened Wrappers

  type Byte = bv8

  /** Go's `uint16` and `uint32`. */
  type Uint16 = x: int | 0 <= x < 0x1_0000
  type Uint32 = x: int | 0 <= x < 0x1_0000_0000

  /** Size of an MPEG-TS packet and its sync byte (ISO/IEC 13818-1,
      section 2.4.3.2). */
  const TsPacketSize: nat := 188
  const TsSyncByte: Byte := 0x47

  /** Discontinuities are reported at most once per five seconds. */
  const ReportInterval: int := 5_000_000_000

  /** A block delivered by the RIST receiver. */
  datatype RistDataBlock = RistDataBlock(seqNo: Uint32, discontinuity: bool, data: seq<Byte>)

  /** A packet delivered by a UDP/RTP input; `data` is `None` for a nil slice. */
  datatype InputPacket = InputPacket(data: Option<seq<Byte>>, timestamp: int, source: string)

  /** `inputstatus`: the statistics of the primary input. */
  datatype InputStatus = InputStatus(
    packetCount: nat,
    packetCountSince: nat,
    bytesSince: nat,
    discontinuityCount: nat,
    lastPacketTime: int)

  /** A point in time; `ZeroTime` is Go's zero `time.Time`, from which more
      than five seconds have always passed. */
  datatype Instant = ZeroTime | At(ns: int)

  /** An output adapter, compared by identity. */
  datatype OutputRef = OutputRef(id: nat)

  /** A registered output (`out`): the adapter that receives its packets. */
  datatype Out = Out(w: OutputRef)

  /** The case of the `select` taken in one turn of the receive loop. */
  datatype Event =
    | RistBlock(rb: RistDataBlock)   // a block from the RIST receiver
    | UdpPacket(pkt: InputPacket)    // a packet from the UDP channel
    | OutputAdded                    // a message on the add-output channel
    | IndexRemoved                   // a message on the remove-by-index channel
    | OutputRemoved                  // a message on the remove-output channel
    | ContextDone                    // the flow's context was cancelled
    | RistClosed                     // the RIST data channel was closed

  // ---------------------------------------------------------------------
  // MPEG-TS continuity counter
  // ---------------------------------------------------------------------

  /** A packet the continuity check looks at: a full TS packet that starts
      with the sync byte. */
  predicate IsTsPacket(pkt: seq<Byte>) {
    |pkt| >= TsPacketSize && pkt[0] == TsSyncByte
  }

  /** The 4-bit `continuity_counter` in the low bits of the fourth header
      byte (ISO/IEC 13818-1, section 2.4.3.3). */
  function ContinuityCounter(pkt: seq<Byte>): (cc: int)
    requires |pkt| >= 4
    ensures 0 <= cc < 16
  {
    (pkt[3] & 0x0F) as int
  }

  /** `detectTsDiscontinuity`: the discontinuity verdict and the new value
      of the one stream-wide `lastCC` (written through a pointer in the
      source). PID and `adaptation_field_control` are ignored; `-1` means no
      packet seen yet. */
  function DetectTsDiscontinuity(pkt: seq<Byte>, lastCC: int): (r: (bool, int))
    ensures !IsTsPacket(pkt) ==> r == (false, lastCC)
    ensures IsTsPacket(pkt) && lastCC == -1 ==> r == (false, ContinuityCounter(pkt))
    ensures IsTsPacket(pkt) && lastCC != -1 ==>
              r.1 == ContinuityCounter(pkt) && (r.0 <==> ContinuityCounter(pkt) != (lastCC + 1) % 16)
    ensures -1 <= lastCC < 16 ==> -1 <= r.1 < 16
  {
    if |pkt| < TsPacketSize then (false, lastCC)
    else if pkt[0] != TsSyncByte then (false, lastCC)
    else
      var cc := ContinuityCounter(pkt);
      if lastCC == -1 then (false, cc)
      else
        // `(lastCC + 1) & 0x0F` on a two's-complement int is the Euclidean
        // remainder modulo 16
        var expected := (lastCC + 1) % 16;
        (cc != expected, cc)
  }

  /** The number of discontinuities the check reports over a stream of UDP
      payloads, starting from `lastCC`. */
  function TsDiscontinuities(lastCC: int, pkts: seq<seq<Byte>>): nat
    decreases |pkts|
  {
    if |pkts| == 0 then 0
    else
      var r := DetectTsDiscontinuity(pkts[0], lastCC);
      (if r.0 then 1 else 0) + TsDiscontinuities(r.1, pkts[1..])
  }

  /** TS packets whose counters go up by one (modulo 16) from `lastCC` never
      report a discontinuity. */
  lemma {:induction false} ContinuousTsStreamIsClean(lastCC: int, pkts: seq<seq<Byte>>)
    requires 0 <= lastCC < 16
    requires forall i :: 0 <= i < |pkts| ==>
               IsTsPacket(pkts[i]) && ContinuityCounter(pkts[i]) == (lastCC + 1 + i) % 16
    ensures TsDiscontinuities(lastCC, pkts) == 0
    decreases |pkts|
  {
    if |pkts| > 0 {
      var next := ContinuityCounter(pkts[0]);
      forall i | 0 <= i < |pkts| - 1
        ensures IsTsPacket(pkts[1..][i]) && ContinuityCounter(pkts[1..][i]) == (next + 1 + i) % 16
      {
        assert pkts[1..][i] == pkts[i + 1];
      }
      ContinuousTsStreamIsClean(next, pkts[1..]);
    }
  }

  /** Packets the check does not recognise never count and never move the
      counter. */
  lemma {:induction false} UnrecognisedPacketsAreIgnored(lastCC: int, pkts: seq<seq<Byte>>)
    requires forall i :: 0 <= i < |pkts| ==> !IsTsPacket(pkts[i])
    ensures TsDiscontinuities(lastCC, pkts) == 0
    decreases |pkts|
  {
    if |pkts| > 0 {
      assert forall i :: 0 <= i < |pkts| - 1 ==> pkts[1..][i] == pkts[i + 1];
      UnrecognisedPacketsAreIgnored(lastCC, pkts[1..]);
    }
  }

  // ---------------------------------------------------------------------
  // RIST sequence numbers
  // ---------------------------------------------------------------------

  /** A RIST block is a discontinuity when the receiver flags one or when
      its sequence number is not the expected one. */
  predicate IsRistDiscontinuity(expectedSec: Uint16, rb: RistDataBlock) {
    rb.discontinuity || rb.seqNo != expectedSec
  }

  /** `uint16(rb.SeqNo) + 1`: truncate to 16 bits, then add with wrap-around. */
  function NextExpectedSec(seqNo: Uint32): (r: Uint16)
    ensures r == (seqNo + 1) % 0x1_0000
  {
    (seqNo % 0x1_0000 + 1) % 0x1_0000
  }

  /** A sequence number beyond 16 bits can never equal the expected one. */
  lemma WideSeqNoIsDiscontinuity(expectedSec: Uint16, rb: RistDataBlock)
    requires rb.seqNo >= 0x1_0000
    ensures IsRistDiscontinuity(expectedSec, rb)
  {
  }

  /** Discontinuities counted over a run of RIST blocks. */
  function RistDiscontinuities(expectedSec: Uint16, blocks: seq<RistDataBlock>): nat
    decreases |blocks|
  {
    if |blocks| == 0 then 0
    else
      (if IsRistDiscontinuity(expectedSec, blocks[0]) then 1 else 0)
      + RistDiscontinuities(NextExpectedSec(blocks[0].seqNo), blocks[1..])
  }

  /** The expected sequence number after a run of RIST blocks. */
  function ExpectedAfter(expectedSec: Uint16, blocks: seq<RistDataBlock>): Uint16
    decreases |blocks|
  {
    if |blocks| == 0 then expectedSec else ExpectedAfter(NextExpectedSec(blocks[0].seqNo), blocks[1..])
  }

  /** Counting over two runs in a row adds up. */
  lemma {:induction false} RistDiscontinuitiesAppend(expectedSec: Uint16, a: seq<RistDataBlock>, b: seq<RistDataBlock>)
    ensures RistDiscontinuities(expectedSec, a + b)
            == RistDiscontinuities(expectedSec, a) + RistDiscontinuities(ExpectedAfter(expectedSec, a), b)
    ensures ExpectedAfter(expectedSec, a + b) == ExpectedAfter(ExpectedAfter(expectedSec, a), b)
    decreases |a|
  {
    if |a| == 0 {
      assert a + b == b;
    } else {
      assert (a + b)[0] == a[0] && (a + b)[1..] == a[1..] + b;
      RistDiscontinuitiesAppend(NextExpectedSec(a[0].seqNo), a[1..], b);
    }
  }

  /** Blocks numbered `start, start + 1, ...` (wrapping at 65536) and
      not flagged by the receiver. */
  predicate Consecutive(start: int, blocks: seq<RistDataBlock>) {
    forall i :: 0 <= i < |blocks| ==>
      !blocks[i].discontinuity && blocks[i].seqNo == (start + i) % 0x1_0000
  }

  /** Consecutive sequence numbers, wrapping at 65535, report no
      discontinuity. */
  lemma {:induction false} ConsecutiveBlocksAreClean(start: Uint16, blocks: seq<RistDataBlock>)
    requires Consecutive(start, blocks)
    ensures RistDiscontinuities(start, blocks) == 0
    ensures ExpectedAfter(start, blocks) == (start + |blocks|) % 0x1_0000
    decreases |blocks|
  {
    if |blocks| > 0 {
      var next := NextExpectedSec(blocks[0].seqNo);
      assert next == (start + 1) % 0x1_0000;
      forall i | 0 <= i < |blocks| - 1
        ensures !blocks[1..][i].discontinuity && blocks[1..][i].seqNo == (next + i) % 0x1_0000
      {
        assert blocks[1..][i] == blocks[i + 1];
      }
      ConsecutiveBlocksAreClean(next, blocks[1..]);
      ReduceThenShift(start + 1, |blocks| - 1);
    }
  }

  /** A run that starts one past the expected number and is consecutive
      from there reports exactly one discontinuity, at its first block. */
  lemma {:induction false} GapThenConsecutive(expectedSec: Uint16, blocks: seq<RistDataBlock>)
    requires |blocks| > 0 && Consecutive(expectedSec + 1, blocks)
    ensures RistDiscontinuities(expectedSec, blocks) == 1
  {
    assert blocks[0].seqNo == (expectedSec + 1) % 0x1_0000;
    var next := NextExpectedSec(blocks[0].seqNo);
    assert next == (expectedSec + 2) % 0x1_0000;
    forall i | 0 <= i < |blocks| - 1
      ensures !blocks[1..][i].discontinuity && blocks[1..][i].seqNo == (next + i) % 0x1_0000
    {
      assert blocks[1..][i] == blocks[i + 1];
    }
    ConsecutiveBlocksAreClean(next, blocks[1..]);
  }

  /** Adding the same offset keeps two numbers congruent modulo 65536. */
  lemma ShiftModulo(a: int, b: int, i: int)
    requires a % 0x1_0000 == b % 0x1_0000
    ensures (a + i) % 0x1_0000 == (b + i) % 0x1_0000
  {
    var d := a / 0x1_0000 - b / 0x1_0000;
    assert a + i == (b + i) + d * 0x1_0000;
  }

  /** Reducing modulo 65536 before adding an offset changes nothing. */
  lemma ReduceThenShift(a: int, i: int)
    ensures (a % 0x1_0000 + i) % 0x1_0000 == (a + i) % 0x1_0000
  {
    var r := a % 0x1_0000;
    assert r % 0x1_0000 == r;
    ShiftModulo(a, r, i);
  }

  /** Consecutive numbering depends only on the start modulo 65536. */
  lemma ConsecutiveShift(start: int, start': int, blocks: seq<RistDataBlock>)
    requires start % 0x1_0000 == start' % 0x1_0000
    requires Consecutive(start, blocks)
    ensures Consecutive(start', blocks)
  {
    forall i | 0 <= i < |blocks|
      ensures blocks[i].seqNo == (start' + i) % 0x1_0000
    {
      ShiftModulo(start, start', i);
    }
  }

  /** Skipping a single sequence number in a consecutive run reports
      exactly one discontinuity. */
  lemma SingleGapCountsOnce(start: Uint16, before: seq<RistDataBlock>, after: seq<RistDataBlock>)
    requires Consecutive(start, before)
    requires |after| > 0 && Consecutive(start + |before| + 1, after)
    ensures RistDiscontinuities(start, before + after) == 1
  {
    ConsecutiveBlocksAreClean(start, before);
    RistDiscontinuitiesAppend(start, before, after);
    var resumed: Uint16 := (start + |before|) % 0x1_0000;
    ReduceThenShift(start + |before|, 1);
    ConsecutiveShift(start + |before| + 1, resumed + 1, after);
    GapThenConsecutive(resumed, after);
  }

  /** Whether a discontinuity report is due at `now`. */
  predicate ReportDue(last: Instant, now: int) {
    match last
    case ZeroTime => true
    case At(t) => now - t >= ReportInterval
  }

  // ---------------------------------------------------------------------
  // The receive loop
  // ---------------------------------------------------------------------

  class Mainloop {
    /** The flow's context has been cancelled. */
    var ctxDone: bool
    /** `receiveLoop` has not left its loop yet. */
    var running: bool
    /** The output registry, keyed by index. */
    var outputs: map<nat, Out>
    /** Messages waiting on the add-output, remove-output and
        remove-by-index channels. */
    var addQueue: seq<OutputRef>
    var removeQueue: seq<OutputRef>
    var removeIdxQueue: seq<int>
    /** Indices whose output channel has been closed, in order. */
    var closedOutputs: seq<nat>
    /** The payloads handed to `writeOutputs`, in order. */
    var written: seq<seq<Byte>>
    var status: InputStatus
    var lastStatusCall: int
    // the locals of `receiveLoop`
    var outputIdx: nat
    var expectedSec: Uint16
    var lastUdpCC: int
    var lastDiscontinuityMsg: Instant
    var discontinuitiesSinceLastMsg: nat

    /** The state the loop keeps: the continuity counter stays in -1..15,
        every registered index is below the next index to hand out, and the
        windowed counter never exceeds the total. */
    ghost predicate Valid()
      reads this
    {
      && -1 <= lastUdpCC < 16
      && (forall i :: i in outputs ==> i < outputIdx)
      && discontinuitiesSinceLastMsg <= status.discontinuityCount
    }

    /** `NewMainloop` together with the start of `receiveLoop`. */
    constructor (now: int)
      ensures Valid() && running && !ctxDone
      ensures outputs == map[] && outputIdx == 0
      ensures addQueue == [] && removeQueue == [] && removeIdxQueue == []
      ensures closedOutputs == [] && written == []
      ensures status == InputStatus(0, 0, 0, 0, now) && lastStatusCall == now
      ensures expectedSec == 0 && lastUdpCC == -1
      ensures lastDiscontinuityMsg == ZeroTime && discontinuitiesSinceLastMsg == 0
    {
      ctxDone := false;
      running := true;
      outputs := map[];
      addQueue, removeQueue, removeIdxQueue := [], [], [];
      closedOutputs := [];
      written := [];
      status := InputStatus(0, 0, 0, 0, now);
      lastStatusCall := now;
      outputIdx := 0;
      expectedSec := 0;
      lastUdpCC := -1;
      lastDiscontinuityMsg := ZeroTime;
      discontinuitiesSinceLastMsg := 0;
    }

    /** Cancels the flow's context (the flow's `cancel` function). */
    method Cancel()
      modifies this`ctxDone
      ensures ctxDone
    {
      ctxDone := true;
    }

    // -------------------------------------------------------------------
    // Requests from other goroutines: no-ops once the context is done
    // -------------------------------------------------------------------

    /** `AddOutput`. Sending on the channel after the loop has closed it
        panics in Go, hence the precondition. */
    method AddOutput(w: OutputRef)
      requires running || ctxDone
      modifies this`addQueue
      ensures ctxDone ==> addQueue == old(addQueue)
      ensures !ctxDone ==> addQueue == old(addQueue) + [w]
    {
      if ctxDone {
        return;
      }
      addQueue := addQueue + [w];
    }

    /** `RemoveOutput`. */
    method RemoveOutput(w: OutputRef)
      requires running || ctxDone
      modifies this`removeQueue
      ensures ctxDone ==> removeQueue == old(removeQueue)
      ensures !ctxDone ==> removeQueue == old(removeQueue) + [w]
    {
      if ctxDone {
        return;
      }
      removeQueue := removeQueue + [w];
    }

    /** `removeOutputByID`. */
    method RemoveOutputById(idx: int)
      requires running || ctxDone
      modifies this`removeIdxQueue
      ensures ctxDone ==> removeIdxQueue == old(removeIdxQueue)
      ensures !ctxDone ==> removeIdxQueue == old(removeIdxQueue) + [idx]
    {
      if ctxDone {
        return;
      }
      removeIdxQueue := removeIdxQueue + [idx];
    }

    /** `deleteOutput`: closes the output's channel and drops the entry. */
    method DeleteOutput(idx: nat)
      requires idx in outputs
      modifies this`outputs, this`closedOutputs
      ensures outputs == old(outputs) - {idx}
      ensures closedOutputs == old(closedOutputs) + [idx]
    {
      closedOutputs := closedOutputs + [idx];
      outputs := outputs - {idx};
    }

    // -------------------------------------------------------------------
    // One turn of the receive loop, case by case
    // -------------------------------------------------------------------

    /** Whether the `select` can take `ev` now. */
    predicate Ready(ev: Event)
      reads this
    {
      match ev
      case OutputAdded => |addQueue| > 0
      case IndexRemoved => |removeIdxQueue| > 0
      case OutputRemoved => |removeQueue| > 0
      case ContextDone => ctxDone
      case _ => true
    }

    /** A RIST block: discontinuity check, windowed report, resynchronised
        expected number, statistics, fan-out. */
    method OnRistBlock(rb: RistDataBlock, now: int)
      requires Valid() && running
      modifies this
      ensures Valid() && running && ctxDone == old(ctxDone)
      ensures var d := if IsRistDiscontinuity(old(expectedSec), rb) then 1 else 0;
              && status == InputStatus(old(status.packetCount) + 1, old(status.packetCountSince) + 1,
                                       old(status.bytesSince) + |rb.data|, old(status.discontinuityCount) + d, now)
              && (if old(discontinuitiesSinceLastMsg) + d > 0 && ReportDue(old(lastDiscontinuityMsg), now)
                  then discontinuitiesSinceLastMsg == 0 && lastDiscontinuityMsg == At(now)
                  else discontinuitiesSinceLastMsg == old(discontinuitiesSinceLastMsg) + d
                       && lastDiscontinuityMsg == old(lastDiscontinuityMsg))
      ensures expectedSec == NextExpectedSec(rb.seqNo)
      ensures written == old(written) + [rb.data]
      ensures outputs == old(outputs) && outputIdx == old(outputIdx) && lastUdpCC == old(lastUdpCC)
      ensures closedOutputs == old(closedOutputs) && lastStatusCall == old(lastStatusCall)
      ensures addQueue == old(addQueue) && removeQueue == old(removeQueue) && removeIdxQueue == old(removeIdxQueue)
    {
      var discontinuity := false;
      if rb.discontinuity {
        discontinuity := true;
      }
      if rb.seqNo != expectedSec {
        discontinuity := true;
      }
      var st, since, lastMsg := status, discontinuitiesSinceLastMsg, lastDiscontinuityMsg;
      if discontinuity {
        st := st.(discontinuityCount := st.discontinuityCount + 1);
        since := since + 1;
      }
      if since > 0 && ReportDue(lastMsg, now) {
        lastMsg := At(now);
        since := 0;
      }
      expectedSec := NextExpectedSec(rb.seqNo);
      status := st.(packetCount := st.packetCount + 1,
                    packetCountSince := st.packetCountSince + 1,
                    bytesSince := st.bytesSince + |rb.data|,
                    lastPacketTime := now);
      discontinuitiesSinceLastMsg, lastDiscontinuityMsg := since, lastMsg;
      written := written + [rb.data];
    }

    /** A UDP packet: a nil payload is skipped; otherwise the TS continuity
        check (the windowed counter grows but is not reported here),
        statistics, and fan-out of a copy. */
    method OnUdpPacket(pkt: InputPacket, now: int)
      requires Valid() && running
      modifies this
      ensures Valid() && running && ctxDone == old(ctxDone)
      ensures pkt.data.None? ==>
                && status == old(status) && lastUdpCC == old(lastUdpCC) && written == old(written)
                && discontinuitiesSinceLastMsg == old(discontinuitiesSinceLastMsg)
      ensures pkt.data.Some? ==>
                var r := DetectTsDiscontinuity(pkt.data.value, old(lastUdpCC));
                var d := if r.0 then 1 else 0;
                && lastUdpCC == r.1
                && status == InputStatus(old(status.packetCount) + 1, old(status.packetCountSince) + 1,
                                         old(status.bytesSince) + |pkt.data.value|,
                                         old(status.discontinuityCount) + d, now)
                && discontinuitiesSinceLastMsg == old(discontinuitiesSinceLastMsg) + d
                && written == old(written) + [pkt.data.value]
      ensures expectedSec == old(expectedSec) && lastDiscontinuityMsg == old(lastDiscontinuityMsg)
      ensures outputs == old(outputs) && outputIdx == old(outputIdx)
      ensures closedOutputs == old(closedOutputs) && lastStatusCall == old(lastStatusCall)
      ensures addQueue == old(addQueue) && removeQueue == old(removeQueue) && removeIdxQueue == old(removeIdxQueue)
    {
      if pkt.data.None? {
        return;
      }
      var data := pkt.data.value;
      var r := DetectTsDiscontinuity(data, lastUdpCC);
      lastUdpCC := r.1;
      if r.0 {
        status := status.(discontinuityCount := status.discontinuityCount + 1);
        discontinuitiesSinceLastMsg := discontinuitiesSinceLastMsg + 1;
      }
      status := status.(packetCount := status.packetCount + 1,
                        packetCountSince := status.packetCountSince + 1,
                        bytesSince := status.bytesSince + |data|,
                        lastPacketTime := now);
      written := written + [data];
    }

    /** An add-output message: register at the next index, then advance it. */
    method OnOutputAdded()
      requires Valid() && running && |addQueue| > 0
      modifies this
      ensures Valid() && running && ctxDone == old(ctxDone)
      ensures addQueue == old(addQueue)[1..]
      ensures old(outputIdx) !in old(outputs)
      ensures outputs == old(outputs)[old(outputIdx) := Out(old(addQueue)[0])]
      ensures outputIdx == old(outputIdx) + 1
      ensures closedOutputs == old(closedOutputs) && written == old(written) && status == old(status)
      ensures expectedSec == old(expectedSec) && lastUdpCC == old(lastUdpCC)
      ensures discontinuitiesSinceLastMsg == old(discontinuitiesSinceLastMsg)
      ensures lastDiscontinuityMsg == old(lastDiscontinuityMsg) && lastStatusCall == old(lastStatusCall)
      ensures removeQueue == old(removeQueue) && removeIdxQueue == old(removeIdxQueue)
    {
      var w := addQueue[0];
      addQueue := addQueue[1..];
      outputs := outputs[outputIdx := Out(w)];
      outputIdx := outputIdx + 1;
    }

    /** A remove-by-index message: delete exactly that entry if present,
        otherwise only log. */
    method OnIndexRemoved()
      requires Valid() && running && |removeIdxQueue| > 0
      modifies this
      ensures Valid() && running && ctxDone == old(ctxDone)
      ensures removeIdxQueue == old(removeIdxQueue)[1..]
      ensures var idx := old(removeIdxQueue)[0];
              if idx >= 0 && idx in old(outputs)
              then outputs == old(outputs) - {idx} && closedOutputs == old(closedOutputs) + [idx]
              else outputs == old(outputs) && closedOutputs == old(closedOutputs)
      ensures outputIdx == old(outputIdx) && written == old(written) && status == old(status)
      ensures expectedSec == old(expectedSec) && lastUdpCC == old(lastUdpCC)
      ensures discontinuitiesSinceLastMsg == old(discontinuitiesSinceLastMsg)
      ensures lastDiscontinuityMsg == old(lastDiscontinuityMsg) && lastStatusCall == old(lastStatusCall)
      ensures addQueue == old(addQueue) && removeQueue == old(removeQueue)
    {
      var idx := removeIdxQueue[0];
      removeIdxQueue := removeIdxQueue[1..];
      if idx >= 0 && idx in outputs {
        DeleteOutput(idx);
      }
    }

    /** A remove-output message: scan the registry in Go's unspecified map
        order and delete the first entry holding that adapter; when none
        does, only log. */
    method OnOutputRemoved()
      requires Valid() && running && |removeQueue| > 0
      modifies this
      ensures Valid() && running && ctxDone == old(ctxDone)
      ensures removeQueue == old(removeQueue)[1..]
      ensures var w := old(removeQueue)[0];
              if exists i :: i in old(outputs) && old(outputs)[i].w == w
              then exists i :: && i in old(outputs) && old(outputs)[i].w == w
                               && outputs == old(outputs) - {i} && closedOutputs == old(closedOutputs) + [i]
              else outputs == old(outputs) && closedOutputs == old(closedOutputs)
      ensures outputIdx == old(outputIdx) && written == old(written) && status == old(status)
      ensures expectedSec == old(expectedSec) && lastUdpCC == old(lastUdpCC)
      ensures discontinuitiesSinceLastMsg == old(discontinuitiesSinceLastMsg)
      ensures lastDiscontinuityMsg == old(lastDiscontinuityMsg) && lastStatusCall == old(lastStatusCall)
      ensures addQueue == old(addQueue) && removeIdxQueue == old(removeIdxQueue)
    {
      var w := removeQueue[0];
      removeQueue := removeQueue[1..];
      var found := false;
      var pending := outputs.Keys;
      while pending != {}
        invariant !found
        invariant pending <= outputs.Keys
        invariant outputs == old(outputs) && closedOutputs == old(closedOutputs)
        invariant forall i :: i in outputs && i !in pending ==> outputs[i].w != w
        decreases pending
      {
        var idx :| idx in pending;
        if outputs[idx].w == w {
          DeleteOutput(idx);
          found := true;
          break;
        }
        pending := pending - {idx};
      }
    }

    /** Leaving the loop (cancellation or a closed RIST channel): the
        message channels are closed and whatever they still hold is never
        processed. */
    method Terminate()
      requires Valid() && running
      modifies this`running
      ensures Valid() && !running
    {
      running := false;
    }

    /** One turn of `receiveLoop`: the `select` takes a ready case. */
    method Step(ev: Event, now: int)
      requires Valid() && running && Ready(ev)
      modifies this
      ensures Valid() && ctxDone == old(ctxDone)
      ensures running <==> !(ev.ContextDone? || ev.RistClosed?)
      ensures outputIdx == old(outputIdx) + (if ev.OutputAdded? then 1 else 0)
      ensures !(ev.OutputAdded? || ev.IndexRemoved? || ev.OutputRemoved?) ==> outputs == old(outputs)
      ensures !(ev.RistBlock? || ev.UdpPacket?) ==> status == old(status) && written == old(written)
    {
      match ev
      case RistBlock(rb) => OnRistBlock(rb, now);
      case UdpPacket(pkt) => OnUdpPacket(pkt, now);
      case OutputAdded => OnOutputAdded();
      case IndexRemoved => OnIndexRemoved();
      case OutputRemoved => OnOutputRemoved();
      case ContextDone => Terminate();
      case RistClosed => Terminate();
    }

    /** Blocks from the RIST receiver, processed one loop turn each, add to
        the discontinuity count exactly what `RistDiscontinuities` counts
        and are fanned out in arrival order. */
    method ReceiveRistBlocks(blocks: seq<RistDataBlock>, clock: seq<int>)
      requires Valid() && running && |clock| == |blocks|
      modifies this
      ensures Valid() && running
      ensures status.discontinuityCount == old(status.discontinuityCount) + RistDiscontinuities(old(expectedSec), blocks)
      ensures status.packetCount == old(status.packetCount) + |blocks|
      ensures expectedSec == ExpectedAfter(old(expectedSec), blocks)
      ensures |written| == |old(written)| + |blocks| && written[..|old(written)|] == old(written)
      ensures forall i :: 0 <= i < |blocks| ==> written[|old(written)| + i] == blocks[i].data
      ensures outputs == old(outputs)
    {
      ghost var start := old(expectedSec);
      for i := 0 to |blocks|
        invariant Valid() && running
        invariant status.discontinuityCount + RistDiscontinuities(expectedSec, blocks[i..])
                  == old(status.discontinuityCount) + RistDiscontinuities(start, blocks)
        invariant ExpectedAfter(expectedSec, blocks[i..]) == ExpectedAfter(start, blocks)
        invariant status.packetCount == old(status.packetCount) + i
        invariant |written| == |old(written)| + i && written[..|old(written)|] == old(written)
        invariant forall j :: 0 <= j < i ==> written[|old(written)| + j] == blocks[j].data
        invariant outputs == old(outputs)
      {
        assert blocks[i..][0] == blocks[i] && blocks[i..][1..] == blocks[i + 1..];
        OnRistBlock(blocks[i], clock[i]);
      }
    }
  }
}
