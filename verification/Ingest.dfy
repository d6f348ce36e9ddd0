/** Receiving audio: `sippy/Rtp/Ingest.py` cuts what the jitter buffer hands over into blocks for the decoder, with
    the rate arithmetic of `sippy/Rtp/Codecs/G711.py`. */
module Ingest {
  import opened Basics

  const SRATE := 8000

  /** G.711: encoded bytes to samples at the output rate, and back. */
  function E2DFrames(enframes: nat, outSr: nat): nat {
    enframes * outSr / SRATE
  }

  function D2EFrames(dnframes: nat, inSr: nat): nat
    requires inSr > 0
  {
    dnframes * SRATE / inSr
  }

  function E2T(frames: nat): real {
    frames as real / SRATE as real
  }

  /** A tenth of a second of output. */
  function ChunkSamples(outSr: nat): nat {
    outSr / 10
  }

  /** The output rates that the assertions in the codec admit. */
  predicate Multiple(outSr: nat) {
    outSr > 0 && outSr % SRATE == 0
  }

  const BLOCK := 800

  /** Whatever the output rate, a block is 800 encoded bytes and is cut exactly when that many are there. */
  lemma BlockArithmetic(outSr: nat, n: nat)
    requires Multiple(outSr)
    ensures D2EFrames(ChunkSamples(outSr), outSr) == BLOCK
    ensures E2DFrames(n, outSr) >= ChunkSamples(outSr) <==> n >= BLOCK
  {
    var k := outSr / SRATE;
    assert outSr == SRATE * k;
    DivisionIs(BLOCK * outSr, outSr, BLOCK, 0);
    DivisionIs(n * outSr, SRATE, n * k, 0) by {
      assert n * outSr == n * (SRATE * k) == SRATE * (n * k);
    }
    if n >= BLOCK {
      assert n * k == BLOCK * k + (n - BLOCK) * k;
    } else {
      assert n * k == BLOCK * k - k - (BLOCK - n - 1) * k;
    }
  }

  // ----- The stream -----

  type Byte = x: int | 0 <= x < 256

  /** What the jitter buffer hands over: an RTP frame with its arrival time, or a gap that it has given up on. */
  datatype Frame = Ers(lseqEnd: int, tsDiff: int) | Rtp(lseq: int, data: seq<Byte>, arrived: real)

  datatype Block = Block(bytes: seq<Byte>, rtime: real)

  datatype Stream = Stream(
    out_buffer: seq<Byte>, ob_rtime: real, last_output_lseq: Option<int>, blocks: seq<Block>, absorbed: seq<Frame>)

  const NEW := Stream([], 0.0, None, [], [])

  function Silence(n: int): seq<Byte> {
    if n <= 0 then [] else seq(n, _ => 255)
  }

  function Payload(f: Frame): seq<Byte> {
    match f
    case Ers(_, tsDiff) => Silence(tsDiff)
    case Rtp(_, data, _) => data
  }

  /** The assertion on the sequence number of an RTP frame. */
  predicate InOrder(last: Option<int>, f: Frame) {
    f.Ers? || last.None? || f.lseq == last.value + 1
  }

  function EndOf(f: Frame): int {
    match f
    case Ers(lseqEnd, _) => lseqEnd
    case Rtp(lseq, _, _) => lseq
  }

  function Absorb(s: Stream, f: Frame): Stream {
    s.(last_output_lseq := Some(EndOf(f)),
       ob_rtime := if f.Rtp? then f.arrived - E2T(|s.out_buffer|) else s.ob_rtime,
       out_buffer := s.out_buffer + Payload(f),
       absorbed := s.absorbed + [f])
  }

  /** The loop over the frames; the result says whether it ended without a failed assertion. */
  function AbsorbAll(s: Stream, frames: seq<Frame>): (Stream, bool)
    decreases |frames|
  {
    if frames == [] then (s, true)
    else if !InOrder(s.last_output_lseq, frames[0]) then (s, false)
    else AbsorbAll(Absorb(s, frames[0]), frames[1..])
  }

  function CutBlock(s: Stream, n: nat): Stream
    requires n <= |s.out_buffer|
  {
    s.(blocks := s.blocks + [Block(s.out_buffer[..n], s.ob_rtime)],
       ob_rtime := s.ob_rtime + E2T(n),
       out_buffer := s.out_buffer[n..])
  }

  /** The loop that cuts blocks. */
  function Drain(s: Stream, outSr: nat): Stream
    requires Multiple(outSr)
    decreases |s.out_buffer|
  {
    BlockArithmetic(outSr, |s.out_buffer|);
    if E2DFrames(|s.out_buffer|, outSr) >= ChunkSamples(outSr) then
      Drain(CutBlock(s, D2EFrames(ChunkSamples(outSr), outSr)), outSr)
    else s
  }

  datatype Action = Packet(frames: seq<Frame>) | StreamUpdate

  /** A failed assertion leaves `pkt_proc` before any block is cut. */
  function Step(s: Stream, a: Action, outSr: nat): (Stream, bool)
    requires Multiple(outSr)
  {
    match a
    case Packet(frames) =>
      var (s1, ok) := AbsorbAll(s, frames);
      (if ok then Drain(s1, outSr) else s1, ok)
    case StreamUpdate => (s.(last_output_lseq := None), true)
  }

  function Run(s: Stream, actions: seq<Action>, outSr: nat): (Stream, bool)
    requires Multiple(outSr)
    decreases |actions|
  {
    if actions == [] then (s, true)
    else
      var (s1, ok1) := Step(s, actions[0], outSr);
      var (s2, ok2) := Run(s1, actions[1..], outSr);
      (s2, ok1 && ok2)
  }

  // ----- Nothing is lost or reordered -----

  function Payloads(frames: seq<Frame>): seq<Byte> {
    if frames == [] then [] else Payloads(frames[..|frames| - 1]) + Payload(frames[|frames| - 1])
  }

  function Cut(blocks: seq<Block>): seq<Byte> {
    if blocks == [] then [] else Cut(blocks[..|blocks| - 1]) + blocks[|blocks| - 1].bytes
  }

  /** Where in the stream the latest RTP frame began, and when that frame arrived. */
  function Anchor(frames: seq<Frame>): (nat, real) {
    if frames == [] then (0, 0.0)
    else
      var n := |frames| - 1;
      if frames[n].Rtp? then (|Payloads(frames[..n])|, frames[n].arrived) else Anchor(frames[..n])
  }

  /** The arrival time of the stream's byte `pos`, reckoned at 8000 bytes a second from the latest RTP frame. */
  function TimeAt(frames: seq<Frame>, pos: int): real {
    Anchor(frames).1 + (pos - Anchor(frames).0) as real / SRATE as real
  }

  ghost predicate Inv(s: Stream) {
    && Cut(s.blocks) + s.out_buffer == Payloads(s.absorbed)
    && (forall i :: 0 <= i < |s.blocks| ==> |s.blocks[i].bytes| == BLOCK)
    && s.ob_rtime == TimeAt(s.absorbed, |Cut(s.blocks)|)
  }

  lemma AbsorbInv(s: Stream, f: Frame)
    requires Inv(s)
    ensures Inv(Absorb(s, f))
  {
    var frames := s.absorbed + [f];
    assert frames[..|s.absorbed|] == s.absorbed;
    assert Cut(s.blocks) + (s.out_buffer + Payload(f)) == (Cut(s.blocks) + s.out_buffer) + Payload(f);
    hide Cut, Payload;
  }

  lemma CutInv(s: Stream)
    requires Inv(s) && |s.out_buffer| >= BLOCK
    ensures Inv(CutBlock(s, BLOCK))
  {
    var b := Block(s.out_buffer[..BLOCK], s.ob_rtime);
    assert (s.blocks + [b])[..|s.blocks|] == s.blocks;
    assert Cut(s.blocks) + s.out_buffer == (Cut(s.blocks) + s.out_buffer[..BLOCK]) + s.out_buffer[BLOCK..];
    hide Payloads, Anchor;
  }

  lemma {:induction false} AbsorbAllInv(s: Stream, frames: seq<Frame>)
    requires Inv(s)
    ensures Inv(AbsorbAll(s, frames).0)
    ensures AbsorbAll(s, frames).1 ==> AbsorbAll(s, frames).0.absorbed == s.absorbed + frames
    decreases |frames|
  {
    hide Inv;
    if frames == [] {
      assert s.absorbed + [] == s.absorbed;
    } else if InOrder(s.last_output_lseq, frames[0]) {
      AbsorbInv(s, frames[0]);
      AbsorbAllInv(Absorb(s, frames[0]), frames[1..]);
      assert s.absorbed + frames == s.absorbed + [frames[0]] + frames[1..];
    }
  }

  lemma {:induction false} DrainInv(s: Stream, outSr: nat)
    requires Multiple(outSr) && Inv(s)
    ensures Inv(Drain(s, outSr)) && |Drain(s, outSr).out_buffer| < BLOCK
    ensures Drain(s, outSr).absorbed == s.absorbed
    decreases |s.out_buffer|
  {
    hide Inv;
    BlockArithmetic(outSr, |s.out_buffer|);
    hide E2DFrames, D2EFrames, ChunkSamples;
    if |s.out_buffer| >= BLOCK {
      CutInv(s);
      DrainInv(CutBlock(s, BLOCK), outSr);
    }
  }

  function AllFrames(actions: seq<Action>): seq<Frame> {
    if actions == [] then []
    else (if actions[0].Packet? then actions[0].frames else []) + AllFrames(actions[1..])
  }

  lemma StepInv(s: Stream, a: Action, outSr: nat)
    requires Multiple(outSr) && Inv(s)
    ensures var (s', ok) := Step(s, a, outSr);
            && Inv(s')
            && (ok && |s.out_buffer| < BLOCK ==> |s'.out_buffer| < BLOCK)
            && (ok ==> s'.absorbed == s.absorbed + AllFrames([a]))
  {
    assert AllFrames([a]) == if a.Packet? then a.frames else [] by {
      assert AllFrames([a][1..]) == [];
    }
    if a.Packet? {
      hide Inv, AllFrames;
      AbsorbAllInv(s, a.frames);
      DrainInv(AbsorbAll(s, a.frames).0, outSr);
    }
  }

  lemma {:induction false} RunInv(s: Stream, actions: seq<Action>, outSr: nat)
    requires Multiple(outSr) && Inv(s)
    ensures var (s', ok) := Run(s, actions, outSr);
            && Inv(s')
            && (ok && |s.out_buffer| < BLOCK ==> |s'.out_buffer| < BLOCK)
            && (ok ==> s'.absorbed == s.absorbed + AllFrames(actions))
    decreases |actions|
  {
    hide Inv, Step;
    if actions == [] {
      assert s.absorbed + [] == s.absorbed;
    } else {
      StepInv(s, actions[0], outSr);
      RunInv(Step(s, actions[0], outSr).0, actions[1..], outSr);
      assert AllFrames(actions) == AllFrames([actions[0]]) + AllFrames(actions[1..]);
    }
  }

  /** In every run of a receiver with an output rate that is a positive multiple of 8000: the blocks and then the
      leftover are all payloads and silence fills in order, every block has 800 bytes, and unless the jitter buffer
      broke its promise of consecutive frames, every frame is there and less than a block is left over. */
  lemma ReceivingLosesNothing(actions: seq<Action>, outSr: nat)
    requires Multiple(outSr)
    ensures var (s, ok) := Run(NEW, actions, outSr);
            && Cut(s.blocks) + s.out_buffer == Payloads(s.absorbed)
            && (forall i :: 0 <= i < |s.blocks| ==> |s.blocks[i].bytes| == BLOCK)
            && (ok ==> s.absorbed == AllFrames(actions) && |s.out_buffer| < BLOCK)
  {
    assert Inv(NEW);
    RunInv(NEW, actions, outSr);
    assert [] + AllFrames(actions) == AllFrames(actions);
  }

  // ----- Where each byte is -----

  /** How many bytes a frame stands for: those that it carries, or the time that a gap has lost. */
  function Size(f: Frame): nat {
    match f
    case Rtp(_, data, _) => |data|
    case Ers(_, tsDiff) => if tsDiff > 0 then tsDiff else 0
  }

  function Sizes(frames: seq<Frame>): nat {
    if frames == [] then 0 else Sizes(frames[..|frames| - 1]) + Size(frames[|frames| - 1])
  }

  /** The bytes of a frame are its own, those of a gap are all the encoding of silence. */
  predicate SoundsLike(bytes: seq<Byte>, f: Frame) {
    match f
    case Rtp(_, data, _) => bytes == data
    case Ers(_, _) => forall i :: 0 <= i < |bytes| ==> bytes[i] == 255
  }

  lemma {:induction false} FrameHasItsPlace(frames: seq<Frame>, i: nat)
    requires i < |frames|
    ensures Sizes(frames[..i]) + Size(frames[i]) <= Sizes(frames) == |Payloads(frames)|
    ensures SoundsLike(Payloads(frames)[Sizes(frames[..i])..][..Size(frames[i])], frames[i])
    decreases |frames|
  {
    var n := |frames| - 1;
    var before := frames[..n];
    SizesArePayloads(before);
    if i < n {
      FrameHasItsPlace(before, i);
      assert before[..i] == frames[..i];
      var from, size := Sizes(frames[..i]), Size(frames[i]);
      assert Payloads(frames)[from..][..size] == Payloads(before)[from..][..size];
    } else {
      assert Payloads(frames)[Sizes(before)..][..Size(frames[n])] == Payload(frames[n]);
    }
  }

  lemma {:induction false} SizesArePayloads(frames: seq<Frame>)
    ensures |Payloads(frames)| == Sizes(frames)
    decreases |frames|
  {
    if frames != [] {
      SizesArePayloads(frames[..|frames| - 1]);
    }
  }

  /** In every run, the blocks and the leftover together have exactly as many bytes as the RTP frames carry and the gaps
      have lost, each frame's bytes are where the frames before it end, and there is silence where a gap is. Blocks
      have 800 bytes; unless an assertion failed, every frame is there. */
  lemma EveryByteHasItsPlace(actions: seq<Action>, outSr: nat, i: nat)
    requires Multiple(outSr)
    ensures var (s, ok) := Run(NEW, actions, outSr);
            var stream := Cut(s.blocks) + s.out_buffer;
            && |stream| == Sizes(s.absorbed)
            && (i < |s.absorbed| ==>
                  && Sizes(s.absorbed[..i]) + Size(s.absorbed[i]) <= |stream|
                  && SoundsLike(stream[Sizes(s.absorbed[..i])..][..Size(s.absorbed[i])], s.absorbed[i]))
            && (i < |s.blocks| ==> |s.blocks[i].bytes| == 800)
            && (ok ==> s.absorbed == AllFrames(actions) && |s.out_buffer| < 800)
  {
    ReceivingLosesNothing(actions, outSr);
    var s := Run(NEW, actions, outSr).0;
    SizesArePayloads(s.absorbed);
    if i < |s.absorbed| {
      FrameHasItsPlace(s.absorbed, i);
    }
    hide Run, Payloads, Cut, Sizes, SoundsLike;
  }

  // ----- When the assertion fails -----

  function LastOf(f: Frame): int {
    if f.Rtp? then f.lseq else f.lseqEnd
  }

  /** The last sequence number handed over before `frames[j]`. */
  function LastBefore(s: Stream, frames: seq<Frame>, j: nat): Option<int>
    requires j <= |frames|
  {
    if j == 0 then s.last_output_lseq else Some(LastOf(frames[j - 1]))
  }

  /** An RTP frame is the next one, or the first. */
  predicate Follows(s: Stream, frames: seq<Frame>, j: nat)
    requires j < |frames|
  {
    frames[j].Rtp? && LastBefore(s, frames, j).Some? ==> frames[j].lseq == LastBefore(s, frames, j).value + 1
  }

  /** The frames before `j` were absorbed, and `frames[j]` was not. */
  ghost predicate StopsAt(s: Stream, s': Stream, frames: seq<Frame>, j: nat)
    requires j <= |frames|
  {
    && (forall i :: 0 <= i < j ==> Follows(s, frames, i))
    && (j < |frames| ==> !Follows(s, frames, j))
    && s'.absorbed == s.absorbed + frames[..j] && s'.last_output_lseq == LastBefore(s, frames, j)
  }

  lemma {:induction false} AbsorbStops(s: Stream, frames: seq<Frame>) returns (j: nat)
    ensures j <= |frames| && StopsAt(s, AbsorbAll(s, frames).0, frames, j)
    ensures AbsorbAll(s, frames).1 <==> j == |frames|
    decreases |frames|
  {
    if frames == [] {
      j := 0;
      assert s.absorbed + [] == s.absorbed;
    } else if !InOrder(s.last_output_lseq, frames[0]) {
      j := 0;
      assert frames[..0] == [] && s.absorbed + [] == s.absorbed;
    } else {
      var s1 := Absorb(s, frames[0]);
      var k := AbsorbStops(s1, frames[1..]);
      hide Payload, E2T, AbsorbAll;
      j := k + 1;
      assert frames[..j] == [frames[0]] + frames[1..][..k];
      assert s.absorbed + frames[..j] == (s.absorbed + [frames[0]]) + frames[1..][..k];
      forall i | 0 <= i < |frames| - 1
        ensures Follows(s1, frames[1..], i) == Follows(s, frames, i + 1)
      {
      }
      forall i | 0 <= i < j ensures Follows(s, frames, i) {
        if i > 0 {
          assert Follows(s1, frames[1..], i - 1);
        }
      }
    }
  }

  /** A packet is handled to its end exactly when each RTP frame is the one after the frame or gap before it, the first
      one ever or since an update excepted; the frames before the first that is not are absorbed, and then no block
      is cut. */
  lemma PacketStopsAtTheFirstMisfit(s: Stream, frames: seq<Frame>, outSr: nat)
    requires Multiple(outSr)
    ensures var (s', ok) := Step(s, Packet(frames), outSr);
            && (ok <==> forall j :: 0 <= j < |frames| ==> Follows(s, frames, j))
            && (exists j: nat :: j <= |frames| && StopsAt(s, s', frames, j) && (ok <==> j == |frames|))
            && (!ok ==> s'.blocks == s.blocks)
    ensures Step(s, StreamUpdate, outSr).0.last_output_lseq.None?
  {
    var j := AbsorbStops(s, frames);
    AbsorbKeepsBlocks(s, frames);
    DrainKeeps(AbsorbAll(s, frames).0, outSr);
    hide AbsorbAll, Drain, Follows, LastBefore;
    var (s', ok) := Step(s, Packet(frames), outSr);
    assert StopsAt(s, s', frames, j);
  }

  lemma {:induction false} DrainKeeps(s: Stream, outSr: nat)
    requires Multiple(outSr)
    ensures Drain(s, outSr).absorbed == s.absorbed && Drain(s, outSr).last_output_lseq == s.last_output_lseq
    decreases |s.out_buffer|
  {
    BlockArithmetic(outSr, |s.out_buffer|);
    hide E2DFrames, D2EFrames, ChunkSamples;
    if |s.out_buffer| >= BLOCK {
      DrainKeeps(CutBlock(s, BLOCK), outSr);
    }
  }

  lemma {:induction false} CutLength(blocks: seq<Block>)
    requires forall i :: 0 <= i < |blocks| ==> |blocks[i].bytes| == BLOCK
    ensures |Cut(blocks)| == BLOCK * |blocks|
    decreases |blocks|
  {
    if blocks != [] {
      CutLength(blocks[..|blocks| - 1]);
    }
  }

  lemma {:induction false} DrainStamps(s: Stream, outSr: nat)
    requires Multiple(outSr) && Inv(s)
    ensures var d := Drain(s, outSr);
            && s.blocks <= d.blocks
            && forall i :: |s.blocks| <= i < |d.blocks| ==> d.blocks[i].rtime == TimeAt(s.absorbed, BLOCK * i)
    decreases |s.out_buffer|
  {
    BlockArithmetic(outSr, |s.out_buffer|);
    hide E2DFrames, D2EFrames, ChunkSamples, TimeAt;
    if |s.out_buffer| >= BLOCK {
      CutLength(s.blocks);
      CutInv(s);
      DrainStamps(CutBlock(s, BLOCK), outSr);
    }
  }

  /** Every block that a packet releases is stamped with the time of the block's own first byte, reckoned from the
      latest RTP frame absorbed by then; earlier blocks stay as they were. */
  lemma BlocksAreStamped(actions: seq<Action>, frames: seq<Frame>, outSr: nat)
    requires Multiple(outSr)
    ensures var s := Run(NEW, actions, outSr).0;
            var (s', ok) := Step(s, Packet(frames), outSr);
            && s.blocks <= s'.blocks
            && forall i :: |s.blocks| <= i < |s'.blocks| ==> s'.blocks[i].rtime == TimeAt(s'.absorbed, BLOCK * i)
  {
    assert Inv(NEW);
    RunInv(NEW, actions, outSr);
    var s := Run(NEW, actions, outSr).0;
    hide Inv, Run, TimeAt;
    AbsorbAllInv(s, frames);
    AbsorbKeepsBlocks(s, frames);
    DrainInv(AbsorbAll(s, frames).0, outSr);
    DrainStamps(AbsorbAll(s, frames).0, outSr);
  }

  lemma {:induction false} AbsorbKeepsBlocks(s: Stream, frames: seq<Frame>)
    ensures AbsorbAll(s, frames).0.blocks == s.blocks
    decreases |frames|
  {
    if frames != [] {
      AbsorbKeepsBlocks(Absorb(s, frames[0]), frames[1..]);
    }
  }

  // ----- The object -----

  class RTPInStream {
    var out_buffer: seq<Byte>
    var ob_rtime: real
    var last_output_lseq: Option<int>
    var sink: seq<Block>                  // what audio_in has been given
    const out_sr: nat
    const out_chunk_sz_samples: nat
    ghost var absorbed: seq<Frame>

    ghost function View(): Stream
      reads this
    {
      Stream(out_buffer, ob_rtime, last_output_lseq, sink, absorbed)
    }

    ghost predicate Valid() {
      Multiple(out_sr) && out_chunk_sz_samples == ChunkSamples(out_sr)
    }

    constructor (out_sr: nat)
      requires Multiple(out_sr)
      ensures Valid() && this.out_sr == out_sr && View() == NEW
    {
      out_buffer, ob_rtime, last_output_lseq, sink, absorbed := [], 0.0, None, [], [];
      this.out_sr, out_chunk_sz_samples := out_sr, ChunkSamples(out_sr);
    }

    method PktProc(res: seq<Frame>) returns (ok: bool)
      requires Valid()
      modifies this
      ensures (View(), ok) == Step(old(View()), Packet(res), out_sr)
    {
      ok := AppendFrames(res);
      if ok {
        CutBlocks();
      }
    }

    /** `for pkt in res`: a failed assertion ends it. */
    method AppendFrames(res: seq<Frame>) returns (ok: bool)
      modifies this
      ensures (View(), ok) == AbsorbAll(old(View()), res)
    {
      for i := 0 to |res|
        invariant AbsorbAll(View(), res[i..]) == AbsorbAll(old(View()), res)
      {
        var rtp_data;
        match res[i] {
          case Ers(lseq_end, ts_diff) =>
            last_output_lseq := Some(lseq_end);
            rtp_data := Silence(ts_diff);
          case Rtp(lseq, data, arrived) =>
            if last_output_lseq.Some? && lseq != last_output_lseq.value + 1 {
              return false;
            }
            last_output_lseq := Some(lseq);
            rtp_data := data;
            ob_rtime := arrived - E2T(|out_buffer|);
        }
        out_buffer := out_buffer + rtp_data;
        absorbed := absorbed + [res[i]];
        assert res[i..][1..] == res[i + 1..];
      }
      return true;
    }

    method CutBlocks()
      requires Valid()
      modifies this
      ensures View() == Drain(old(View()), out_sr)
    {
      BlockArithmetic(out_sr, |out_buffer|);
      while E2DFrames(|out_buffer|, out_sr) >= out_chunk_sz_samples
        invariant Drain(View(), out_sr) == Drain(old(View()), out_sr)
        invariant E2DFrames(|out_buffer|, out_sr) >= out_chunk_sz_samples <==> |out_buffer| >= BLOCK
        decreases |out_buffer|
      {
        var decode_samples := D2EFrames(out_chunk_sz_samples, out_sr);
        hide E2DFrames, D2EFrames, ChunkSamples;
        var block := Block(out_buffer[..decode_samples], ob_rtime);
        ob_rtime := ob_rtime + E2T(decode_samples);
        out_buffer := out_buffer[decode_samples..];
        sink := sink + [block];
        BlockArithmetic(out_sr, |out_buffer|);
      }
    }

    method Update()
      requires Valid()
      modifies this
      ensures View() == Step(old(View()), StreamUpdate, out_sr).0
    {
      last_output_lseq := None;
    }
  }
}
