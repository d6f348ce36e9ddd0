/** The packetiser of `sippy/Rtp/OutputWorker.py`: audio chunks go into a queue, RTP payloads of one fixed size come
    out. Threads that call `soundout` interleave with the thread that runs `_proc_in`. */
module Packetiser {
  import opened Basics

  datatype Chunk = Chunk(audio: seq<int>, samplerate: nat)

  /** The parts of a codec that are not visible here. An encoder may depend on every sample that it was fed before
      (G.722 does, G.711 does not); at 8 kHz each of the two gives one byte per sample. */
  datatype Codec = Codec(encode: seq<int> -> int, resample: (seq<int>, nat) -> seq<int>)

  const SRATE := 8000

  /** `_out_psize`: both codecs have as many encoded bytes as samples at their own rate. */
  function PacketSize(ptime: nat): nat {
    SRATE * ptime / 1000
  }

  /** An entry of `_pending_chunks`. */
  datatype Part = Part(bytes: nat, frames: nat)

  datatype Worker = Worker(
    entering: seq<Chunk>, queue: seq<Chunk>, buf: seq<int>, pending: seq<Part>, rcvd: nat, prcsd: nat,
    crashed: bool, accepted: seq<Chunk>, taken: seq<Chunk>, fed: seq<int>, packets: seq<seq<int>>)

  const FRESH := Worker([], [], [], [], 0, 0, false, [], [], [], [])

  // ----- Encoding -----

  function EncodeAfter(codec: Codec, fed: seq<int>, audio: seq<int>): (r: seq<int>)
    ensures |r| == |audio|
  {
    seq(|audio|, i requires 0 <= i < |audio| => codec.encode(fed + audio[..i + 1]))
  }

  lemma EncodedAppend(codec: Codec, a: seq<int>, b: seq<int>)
    ensures EncodeAfter(codec, [], a + b) == EncodeAfter(codec, [], a) + EncodeAfter(codec, a, b)
  {
    var r := EncodeAfter(codec, [], a + b);
    forall i | 0 <= i < |a| + |b| ensures r[i] == (EncodeAfter(codec, [], a) + EncodeAfter(codec, a, b))[i] {
      assert [] + (a + b)[..i + 1] == if i < |a| then [] + a[..i + 1] else a + b[..i - |a| + 1];
    }
  }

  function Zeros(n: nat): (z: seq<int>)
    ensures |z| == n
  {
    seq(n, _ => 0)
  }

  function Resampled(codec: Codec, chunk: Chunk): seq<int> {
    if chunk.samplerate != SRATE then codec.resample(chunk.audio, chunk.samplerate) else chunk.audio
  }

  /** The samples a chunk puts on the wire: brought to the codec's rate, then padded. The padding is computed from
      the length before resampling. */
  function Prepared(codec: Codec, chunk: Chunk, psize: nat): seq<int>
    requires psize > 0
  {
    Resampled(codec, chunk) + Zeros(-|chunk.audio| % psize)
  }

  function PreparedAll(codec: Codec, chunks: seq<Chunk>, psize: nat): seq<int>
    requires psize > 0
  {
    if chunks == [] then []
    else PreparedAll(codec, chunks[..|chunks| - 1], psize) + Prepared(codec, chunks[|chunks| - 1], psize)
  }

  lemma PreparedSnoc(codec: Codec, chunks: seq<Chunk>, chunk: Chunk, psize: nat)
    requires psize > 0
    ensures PreparedAll(codec, chunks + [chunk], psize)
            == PreparedAll(codec, chunks, psize) + Prepared(codec, chunk, psize)
  {
    assert (chunks + [chunk])[..|chunks|] == chunks;
  }

  // ----- The worker's steps -----

  datatype Action =
    | Count(chunk: Chunk)   // soundout: the frame counter
    | Put(i: nat)           // soundout: the queue
    | Take                  // one turn of the loop in _proc_in
    | Emit                  // the rest of _proc_in

  function CountChunk(w: Worker, chunk: Chunk): Worker {
    w.(rcvd := w.rcvd + |chunk.audio|, entering := w.entering + [chunk])
  }

  function PutChunk(w: Worker, i: nat): Worker {
    if i >= |w.entering| then w
    else w.(entering := w.entering[..i] + w.entering[i + 1..],
            queue := w.queue + [w.entering[i]], accepted := w.accepted + [w.entering[i]])
  }

  predicate WantsChunk(w: Worker, psize: nat) {
    |w.buf| < psize && w.queue != []
  }

  function TakeChunk(codec: Codec, w: Worker, psize: nat): Worker
    requires psize > 0
  {
    if !WantsChunk(w, psize) then w
    else
      var chunk := w.queue[0];
      var audio := Prepared(codec, chunk, psize);
      var enc := EncodeAfter(codec, w.fed, audio);
      var w1 := w.(queue := w.queue[1..], taken := w.taken + [chunk], fed := w.fed + audio, buf := w.buf + enc);
      if enc != [] then w1.(pending := w.pending + [Part(|enc|, |chunk.audio|)])
      else w1.(prcsd := w.prcsd + |chunk.audio|)
  }

  /** `_mark_processed_bytes`: what is left of the pending parts. */
  function Mark(parts: seq<Part>, nbytes: nat): (r: seq<Part>)
    decreases |parts|
  {
    if nbytes == 0 || parts == [] then parts
    else if parts[0].bytes > nbytes then parts[0 := parts[0].(bytes := parts[0].bytes - nbytes)]
    else Mark(parts[1..], nbytes - parts[0].bytes)
  }

  /** The frames of the parts that it pops. */
  function Popped(parts: seq<Part>, nbytes: nat): nat
    decreases |parts|
  {
    if nbytes == 0 || parts == [] || parts[0].bytes > nbytes then 0
    else parts[0].frames + Popped(parts[1..], nbytes - parts[0].bytes)
  }

  function EmitPacket(w: Worker, psize: nat): Worker
    requires psize > 0
  {
    if |w.buf| < psize then w
    else if |w.buf| % psize != 0 then w.(crashed := true)     // the assertion in _proc_in fails
    else
      var rest := Mark(w.pending, psize);
      w.(packets := w.packets + [w.buf[..psize]], buf := w.buf[psize..], pending := rest,
         prcsd := w.prcsd + Popped(w.pending, psize))
  }

  function Step(codec: Codec, w: Worker, a: Action, psize: nat): Worker
    requires psize > 0
  {
    match a
    case Count(chunk) => CountChunk(w, chunk)
    case Put(i) => PutChunk(w, i)
    case Take => TakeChunk(codec, w, psize)
    case Emit => EmitPacket(w, psize)
  }

  function Run(codec: Codec, w: Worker, actions: seq<Action>, psize: nat): Worker
    requires psize > 0
    decreases |actions|
  {
    if actions == [] then w else Run(codec, Step(codec, w, actions[0], psize), actions[1..], psize)
  }

  // ----- Sums -----

  function Frames(chunks: seq<Chunk>): nat {
    if chunks == [] then 0 else |chunks[0].audio| + Frames(chunks[1..])
  }

  lemma {:induction false} FramesConcat(a: seq<Chunk>, b: seq<Chunk>)
    ensures Frames(a + b) == Frames(a) + Frames(b)
    decreases |a|
  {
    if a == [] {
      assert a + b == b;
    } else {
      assert (a + b)[1..] == a[1..] + b;
      FramesConcat(a[1..], b);
    }
  }

  function PartFrames(parts: seq<Part>): nat {
    if parts == [] then 0 else PartFrames(parts[..|parts| - 1]) + parts[|parts| - 1].frames
  }

  function PartBytes(parts: seq<Part>): nat {
    if parts == [] then 0 else PartBytes(parts[..|parts| - 1]) + parts[|parts| - 1].bytes
  }

  lemma PartsSnoc(parts: seq<Part>, p: Part)
    ensures PartFrames(parts + [p]) == PartFrames(parts) + p.frames
    ensures PartBytes(parts + [p]) == PartBytes(parts) + p.bytes
  {
    assert (parts + [p])[..|parts|] == parts;
  }

  ghost predicate AllPositive(parts: seq<Part>) {
    forall i :: 0 <= i < |parts| ==> parts[i].bytes > 0
  }

  lemma {:induction false} PartsFront(parts: seq<Part>)
    requires parts != []
    ensures PartFrames(parts) == parts[0].frames + PartFrames(parts[1..])
    ensures PartBytes(parts) == parts[0].bytes + PartBytes(parts[1..])
    decreases |parts|
  {
    var n := |parts| - 1;
    if n > 0 {
      PartsFront(parts[..n]);
      assert parts[..n][1..] == parts[1..][..n - 1];
    }
  }

  /** Marking removes exactly `n` bytes, leaves positive parts, and drops the frames of whole parts only. */
  lemma {:induction false} MarkBytes(parts: seq<Part>, n: nat)
    requires AllPositive(parts) && n <= PartBytes(parts)
    ensures AllPositive(Mark(parts, n))
    ensures PartBytes(Mark(parts, n)) == PartBytes(parts) - n
    ensures PartFrames(Mark(parts, n)) + Popped(parts, n) == PartFrames(parts)
    decreases |parts|
  {
    if n > 0 && parts != [] {
      PartsFront(parts);
      if parts[0].bytes > n {
        var cut := parts[0 := parts[0].(bytes := parts[0].bytes - n)];
        PartsFront(cut);
        assert cut[1..] == parts[1..];
      } else {
        MarkBytes(parts[1..], n - parts[0].bytes);
      }
    }
  }

  /** Marking in two portions is marking once. */
  lemma {:induction false} MarkTwice(parts: seq<Part>, m: nat, n: nat)
    requires AllPositive(parts)
    ensures Mark(Mark(parts, m), n) == Mark(parts, m + n)
    decreases |parts|
  {
    if m > 0 && n > 0 && parts != [] {
      if parts[0].bytes > m {
        var cut := parts[0 := parts[0].(bytes := parts[0].bytes - m)];
        assert cut[1..] == parts[1..];
      } else {
        MarkTwice(parts[1..], m - parts[0].bytes, n);
      }
    }
  }

  /** How a part at the end fares. */
  lemma {:induction false} MarkSnoc(parts: seq<Part>, p: Part, n: nat)
    requires AllPositive(parts) && p.bytes > 0
    ensures Mark(parts + [p], n) ==
            if n <= PartBytes(parts) then Mark(parts, n) + [p]
            else if n < PartBytes(parts) + p.bytes then [p.(bytes := p.bytes - (n - PartBytes(parts)))]
            else []
    decreases |parts|
  {
    if parts == [] {
      assert (parts + [p])[1..] == [];
    } else {
      PartsFront(parts);
      if n >= parts[0].bytes {
        assert (parts + [p])[1..] == parts[1..] + [p];
        MarkSnoc(parts[1..], p, n - parts[0].bytes);
      }
    }
  }

  // ----- When a chunk counts as processed -----

  function Sizes(codec: Codec, chunks: seq<Chunk>, psize: nat): seq<Part>
    requires psize > 0
  {
    if chunks == [] then []
    else
      var last := chunks[|chunks| - 1];
      var n := |Prepared(codec, last, psize)|;
      var init := Sizes(codec, chunks[..|chunks| - 1], psize);
      if n == 0 then init else init + [Part(n, |last.audio|)]
  }

  lemma SizesSnoc(codec: Codec, chunks: seq<Chunk>, chunk: Chunk, psize: nat)
    requires psize > 0
    ensures var n := |Prepared(codec, chunk, psize)|;
            var init := Sizes(codec, chunks, psize);
            Sizes(codec, chunks + [chunk], psize) == if n == 0 then init else init + [Part(n, |chunk.audio|)]
  {
    assert (chunks + [chunk])[..|chunks|] == chunks;
  }

  lemma {:induction false} SizesAreEncodedBytes(codec: Codec, chunks: seq<Chunk>, psize: nat)
    requires psize > 0
    ensures AllPositive(Sizes(codec, chunks, psize))
    ensures PartBytes(Sizes(codec, chunks, psize)) == |PreparedAll(codec, chunks, psize)|
    decreases |chunks|
  {
    if chunks != [] {
      var n := |chunks| - 1;
      assert chunks == chunks[..n] + [chunks[n]];
      SizesAreEncodedBytes(codec, chunks[..n], psize);
      SizesSnoc(codec, chunks[..n], chunks[n], psize);
      PreparedSnoc(codec, chunks[..n], chunks[n], psize);
      var k := |Prepared(codec, chunks[n], psize)|;
      hide Prepared, Sizes, PreparedAll, PartBytes;
      if k > 0 {
        PartsSnoc(Sizes(codec, chunks[..n], psize), Part(k, |chunks[n].audio|));
      }
    }
  }

  /** The frames of the chunks that have bytes and whose last byte lies beyond the first `sent` encoded bytes. */
  function Unfinished(codec: Codec, chunks: seq<Chunk>, psize: nat, sent: nat): nat
    requires psize > 0
  {
    if chunks == [] then 0
    else
      var last := chunks[|chunks| - 1];
      Unfinished(codec, chunks[..|chunks| - 1], psize, sent)
      + if Prepared(codec, last, psize) != [] && |PreparedAll(codec, chunks, psize)| > sent then |last.audio| else 0
  }

  /** What marking leaves pending are exactly the unfinished chunks. */
  lemma {:induction false} PendingAreUnfinished(codec: Codec, chunks: seq<Chunk>, psize: nat, sent: nat)
    requires psize > 0
    ensures PartFrames(Mark(Sizes(codec, chunks, psize), sent)) == Unfinished(codec, chunks, psize, sent)
    decreases |chunks|
  {
    if chunks != [] {
      var n := |chunks| - 1;
      var init := Sizes(codec, chunks[..n], psize);
      assert chunks == chunks[..n] + [chunks[n]];
      PendingAreUnfinished(codec, chunks[..n], psize, sent);
      SizesAreEncodedBytes(codec, chunks[..n], psize);
      SizesSnoc(codec, chunks[..n], chunks[n], psize);
      PreparedSnoc(codec, chunks[..n], chunks[n], psize);
      NothingLeft(init, sent);
      var k := |Prepared(codec, chunks[n], psize)|;
      assert Unfinished(codec, chunks, psize, sent) == Unfinished(codec, chunks[..n], psize, sent)
             + if k > 0 && |PreparedAll(codec, chunks, psize)| > sent then |chunks[n].audio| else 0;
      hide Prepared, Sizes, PreparedAll, PartBytes, Mark, Unfinished;
      if k > 0 {
        var p := Part(k, |chunks[n].audio|);
        MarkSnoc(init, p, sent);
        PartsSnoc(Mark(init, sent), p);
      }
    }
  }

  lemma {:induction false} NothingLeft(parts: seq<Part>, n: nat)
    requires AllPositive(parts)
    ensures n >= PartBytes(parts) ==> Mark(parts, n) == []
    decreases |parts|
  {
    if parts != [] {
      PartsFront(parts);
      if n >= parts[0].bytes {
        NothingLeft(parts[1..], n - parts[0].bytes);
      }
    }
  }

  // ----- Invariants -----

  function Concat(packets: seq<seq<int>>): seq<int> {
    if packets == [] then [] else Concat(packets[..|packets| - 1]) + packets[|packets| - 1]
  }

  lemma ConcatSnoc(packets: seq<seq<int>>, p: seq<int>)
    ensures Concat(packets + [p]) == Concat(packets) + p
  {
    assert (packets + [p])[..|packets|] == packets;
  }

  /** Frames and bytes are conserved, whatever the chunks. */
  ghost predicate Conserved(w: Worker) {
    && w.rcvd == w.prcsd + Frames(w.queue) + Frames(w.entering) + PartFrames(w.pending)
    && PartBytes(w.pending) == |w.buf|
    && AllPositive(w.pending)
  }

  /** Nothing is lost, repeated or reordered between the queue and the wire. */
  ghost predicate Streamed(codec: Codec, w: Worker, psize: nat)
    requires psize > 0
  {
    && w.accepted == w.taken + w.queue
    && w.fed == PreparedAll(codec, w.taken, psize)
    && Concat(w.packets) + w.buf == EncodeAfter(codec, [], w.fed)
  }

  /** What is pending is what marking all bytes sent so far leaves of all chunks taken so far. */
  ghost predicate Marked(codec: Codec, w: Worker, psize: nat)
    requires psize > 0
  {
    w.pending == Mark(Sizes(codec, w.taken, psize), |Concat(w.packets)|)
  }

  lemma PutConserved(w: Worker, i: nat)
    requires Conserved(w)
    ensures Conserved(PutChunk(w, i))
  {
    hide Frames, PartFrames, PartBytes;
    if i < |w.entering| {
      var x := [w.entering[i]];
      FramesConcat(w.queue, x);
      assert w.entering == w.entering[..i] + (x + w.entering[i + 1..]);
      FramesConcat(w.entering[..i], x + w.entering[i + 1..]);
      FramesConcat(x, w.entering[i + 1..]);
      FramesConcat(w.entering[..i], w.entering[i + 1..]);
    }
  }

  lemma StepConserved(codec: Codec, w: Worker, a: Action, psize: nat)
    requires psize > 0 && Conserved(w)
    ensures Conserved(Step(codec, w, a, psize))
  {
    hide PartFrames, PartBytes, Mark, Popped, Prepared, PutChunk;
    match a {
      case Count(chunk) =>
        FramesConcat(w.entering, [chunk]);
      case Put(i) =>
        PutConserved(w, i);
      case Take =>
        if WantsChunk(w, psize) {
          PartsSnoc(w.pending, Part(|Prepared(codec, w.queue[0], psize)|, |w.queue[0].audio|));
        }
      case Emit =>
        if |w.buf| >= psize {
          MarkBytes(w.pending, psize);
        }
    }
  }

  lemma TakeStreamed(codec: Codec, w: Worker, psize: nat)
    requires psize > 0 && Streamed(codec, w, psize)
    ensures Streamed(codec, TakeChunk(codec, w, psize), psize)
  {
    if WantsChunk(w, psize) {
      var audio := Prepared(codec, w.queue[0], psize);
      PreparedSnoc(codec, w.taken, w.queue[0], psize);
      EncodedAppend(codec, w.fed, audio);
      var enc := EncodeAfter(codec, w.fed, audio);
      hide Prepared, PreparedAll, EncodeAfter, Concat;
      assert Concat(w.packets) + (w.buf + enc) == (Concat(w.packets) + w.buf) + enc;
      assert w.taken + w.queue == w.taken + [w.queue[0]] + w.queue[1..];
    }
  }

  lemma EmitStreamed(codec: Codec, w: Worker, psize: nat)
    requires psize > 0 && Streamed(codec, w, psize)
    ensures Streamed(codec, EmitPacket(w, psize), psize)
  {
    hide PreparedAll, EncodeAfter, Concat, Mark, Popped;
    if |w.buf| >= psize {
      ConcatSnoc(w.packets, w.buf[..psize]);
      assert Concat(w.packets) + w.buf == (Concat(w.packets) + w.buf[..psize]) + w.buf[psize..];
    }
  }

  lemma TakeMarked(codec: Codec, w: Worker, psize: nat)
    requires psize > 0 && Streamed(codec, w, psize) && Marked(codec, w, psize)
    ensures Marked(codec, TakeChunk(codec, w, psize), psize)
  {
    if WantsChunk(w, psize) {
      var n := |Prepared(codec, w.queue[0], psize)|;
      SizesSnoc(codec, w.taken, w.queue[0], psize);
      SizesAreEncodedBytes(codec, w.taken, psize);
      assert |Concat(w.packets)| <= |PreparedAll(codec, w.taken, psize)|;
      hide Prepared, PreparedAll, Sizes, Mark, Concat, PartBytes, Streamed;
      if n > 0 {
        MarkSnoc(Sizes(codec, w.taken, psize), Part(n, |w.queue[0].audio|), |Concat(w.packets)|);
      }
    }
  }

  lemma EmitMarked(codec: Codec, w: Worker, psize: nat)
    requires psize > 0 && Marked(codec, w, psize)
    ensures Marked(codec, EmitPacket(w, psize), psize)
  {
    hide Sizes, Mark, Concat, Popped;
    if |w.buf| >= psize {
      SizesAreEncodedBytes(codec, w.taken, psize);
      MarkTwice(Sizes(codec, w.taken, psize), |Concat(w.packets)|, psize);
      ConcatSnoc(w.packets, w.buf[..psize]);
    }
  }

  // ----- Every interleaving -----

  ghost predicate Counted(w: Worker, psize: nat) {
    && w.rcvd == Frames(w.accepted) + Frames(w.entering)
    && forall i :: 0 <= i < |w.packets| ==> |w.packets[i]| == psize
  }

  ghost predicate Inv(codec: Codec, w: Worker, psize: nat)
    requires psize > 0
  {
    Conserved(w) && Streamed(codec, w, psize) && Marked(codec, w, psize) && Counted(w, psize)
  }

  lemma StepCounted(codec: Codec, w: Worker, a: Action, psize: nat)
    requires psize > 0 && Counted(w, psize)
    ensures Counted(Step(codec, w, a, psize), psize)
  {
    match a {
      case Count(chunk) => FramesConcat(w.entering, [chunk]);
      case Put(i) =>
        if i < |w.entering| {
          var x := [w.entering[i]];
          FramesConcat(w.accepted, x);
          assert w.entering == w.entering[..i] + (x + w.entering[i + 1..]);
          FramesConcat(w.entering[..i], x + w.entering[i + 1..]);
          FramesConcat(x, w.entering[i + 1..]);
          FramesConcat(w.entering[..i], w.entering[i + 1..]);
        }
      case Take =>
      case Emit =>
    }
    hide Prepared, EncodeAfter, Mark, Popped;
  }

  lemma StepInv(codec: Codec, w: Worker, a: Action, psize: nat)
    requires psize > 0 && Inv(codec, w, psize)
    ensures Inv(codec, Step(codec, w, a, psize), psize)
  {
    StepConserved(codec, w, a, psize);
    StepCounted(codec, w, a, psize);
    match a {
      case Count(_) =>
      case Put(i) =>
        if i < |w.entering| {
          assert w.taken + (w.queue + [w.entering[i]]) == (w.taken + w.queue) + [w.entering[i]];
        }
      case Take => TakeStreamed(codec, w, psize); TakeMarked(codec, w, psize);
      case Emit => EmitStreamed(codec, w, psize); EmitMarked(codec, w, psize);
    }
    hide Conserved, Counted, TakeChunk, EmitPacket, PreparedAll, EncodeAfter, Concat, Sizes, Mark;
  }

  lemma {:induction false} RunInv(codec: Codec, w: Worker, actions: seq<Action>, psize: nat)
    requires psize > 0 && Inv(codec, w, psize)
    ensures Inv(codec, Run(codec, w, actions, psize), psize)
    decreases |actions|
  {
    hide Step, Inv;
    if actions != [] {
      StepInv(codec, w, actions[0], psize);
      RunInv(codec, Step(codec, w, actions[0], psize), actions[1..], psize);
    }
  }

  lemma EmptyInv(codec: Codec, w: Worker, psize: nat)
    requires psize > 0
    requires w.entering == w.queue == w.accepted == w.taken == [] && w.buf == w.fed == []
    requires w.pending == [] && w.packets == [] && w.rcvd == w.prcsd == 0
    ensures Inv(codec, w, psize)
  {
    assert EncodeAfter(codec, [], []) == [];
    hide EncodeAfter;
  }

  lemma FreshRunInv(codec: Codec, actions: seq<Action>, psize: nat)
    requires psize > 0
    ensures Inv(codec, Run(codec, FRESH, actions, psize), psize)
  {
    hide Inv, Run;
    EmptyInv(codec, FRESH, psize);
    RunInv(codec, FRESH, actions, psize);
  }

  lemma ProcessedAreFinished(codec: Codec, w: Worker, psize: nat)
    requires psize > 0 && Inv(codec, w, psize)
    ensures w.prcsd + Unfinished(codec, w.taken, psize, |Concat(w.packets)|) == Frames(w.taken)
  {
    PendingAreUnfinished(codec, w.taken, psize, |Concat(w.packets)|);
    FramesConcat(w.taken, w.queue);
    hide Frames, PartFrames, PartBytes, PreparedAll, EncodeAfter, Concat, Unfinished, Sizes, Mark;
  }

  /** Frames received are processed, queued or pending, and pending bytes are the buffer; packets have one size, and
      packets and buffer in order are the encoding of the padded chunks in order; a chunk counts as processed exactly
      when its last encoded byte has been sent. */
  ghost predicate Conserving(codec: Codec, w: Worker, psize: nat)
    requires psize > 0
  {
    && w.rcvd == w.prcsd + Frames(w.queue) + Frames(w.entering) + PartFrames(w.pending)
    && PartBytes(w.pending) == |w.buf|
    && (forall i :: 0 <= i < |w.packets| ==> |w.packets[i]| == psize)
    && w.accepted == w.taken + w.queue
    && Concat(w.packets) + w.buf == EncodeAfter(codec, [], PreparedAll(codec, w.taken, psize))
    && w.prcsd + Unfinished(codec, w.taken, psize, |Concat(w.packets)|) == Frames(w.taken)
  }

  lemma InvConserving(codec: Codec, w: Worker, psize: nat)
    requires psize > 0 && Inv(codec, w, psize)
    ensures Conserving(codec, w, psize)
  {
    ProcessedAreFinished(codec, w, psize);
    hide Frames, PartFrames, PartBytes, PreparedAll, EncodeAfter, Concat, Unfinished, Sizes, Mark;
  }

  /** So it is in every interleaving of the threads, whatever the chunks. */
  lemma PacketiserConserves(codec: Codec, actions: seq<Action>, psize: nat)
    requires psize > 0
    ensures Conserving(codec, Run(codec, FRESH, actions, psize), psize)
  {
    hide Inv, Conserving, Run;
    FreshRunInv(codec, actions, psize);
    InvConserving(codec, Run(codec, FRESH, actions, psize), psize);
  }

  // ----- What is on the wire -----

  /** The samples of `chunk`, resampled if they have another rate than the codec, and then silence: fewer samples than a
      packet has, and as many as make the chunk as it came a whole number of packets. */
  predicate PieceOf(codec: Codec, chunk: Chunk, piece: seq<int>, psize: nat)
    requires psize > 0
  {
    var own := if chunk.samplerate == 8000 then chunk.audio else codec.resample(chunk.audio, chunk.samplerate);
    && own <= piece && |piece| - |own| < psize
    && (|chunk.audio| + (|piece| - |own|)) % psize == 0
    && forall k :: |own| <= k < |piece| ==> piece[k] == 0
  }

  ghost predicate PiecesOf(codec: Codec, chunks: seq<Chunk>, pieces: seq<seq<int>>, psize: nat)
    requires psize > 0
  {
    |pieces| == |chunks| && forall i :: 0 <= i < |chunks| ==> PieceOf(codec, chunks[i], pieces[i], psize)
  }

  /** Byte number `n` of the stream: packet by packet, and then the buffer. */
  predicate ByteAt(w: Worker, n: nat, byte: int, psize: nat)
    requires psize > 0
  {
    if n < psize * |w.packets| then
      n / psize < |w.packets| && n % psize < |w.packets[n / psize]| && byte == w.packets[n / psize][n % psize]
    else n - psize * |w.packets| < |w.buf| && byte == w.buf[n - psize * |w.packets|]
  }

  lemma PreparedPiece(codec: Codec, chunk: Chunk, psize: nat)
    requires psize > 0
    ensures PieceOf(codec, chunk, Prepared(codec, chunk, psize), psize)
  {
    var n := |chunk.audio|;
    var k := PaddingIs(n, psize);
    assert n + -n % psize == psize * k + 0;
    DivisionIs(n + -n % psize, psize, k, 0);
  }

  lemma {:induction false} Pieces(codec: Codec, chunks: seq<Chunk>, psize: nat) returns (pieces: seq<seq<int>>)
    requires psize > 0
    ensures PiecesOf(codec, chunks, pieces, psize) && Concat(pieces) == PreparedAll(codec, chunks, psize)
    decreases |chunks|
  {
    hide PieceOf, Prepared;
    pieces := [];
    if chunks != [] {
      var n := |chunks| - 1;
      pieces := Pieces(codec, chunks[..n], psize);
      ConcatSnoc(pieces, Prepared(codec, chunks[n], psize));
      PreparedPiece(codec, chunks[n], psize);
      pieces := pieces + [Prepared(codec, chunks[n], psize)];
    }
  }

  lemma BlockOf(n: nat, psize: nat, count: nat)
    requires psize > 0 && n < psize * count
    ensures n / psize < count && n == psize * (n / psize) + n % psize && 0 <= n % psize < psize
  {
    assert n == psize * (n / psize) + n % psize;
  }

  lemma {:induction false} InPacket(packets: seq<seq<int>>, psize: nat, q: nat, r: nat)
    requires psize > 0 && (forall i :: 0 <= i < |packets| ==> |packets[i]| == psize) && q < |packets| && r < psize
    ensures psize * q + r < |Concat(packets)| && Concat(packets)[psize * q + r] == packets[q][r]
    decreases |packets|
  {
    var m := |packets| - 1;
    ConcatLength(packets[..m], psize);
    if q < m {
      InPacket(packets[..m], psize, q, r);
    }
  }

  lemma StreamByte(w: Worker, n: nat, psize: nat)
    requires psize > 0 && forall i :: 0 <= i < |w.packets| ==> |w.packets[i]| == psize
    ensures |Concat(w.packets) + w.buf| == psize * |w.packets| + |w.buf|
    ensures n < |Concat(w.packets) + w.buf| ==> ByteAt(w, n, (Concat(w.packets) + w.buf)[n], psize)
  {
    ConcatLength(w.packets, psize);
    hide Concat;
    if n < psize * |w.packets| {
      BlockOf(n, psize, |w.packets|);
      InPacket(w.packets, psize, n / psize, n % psize);
    }
  }

  lemma EncodedByte(codec: Codec, w: Worker, all: seq<int>, psize: nat, n: nat)
    requires psize > 0 && (forall i :: 0 <= i < |w.packets| ==> |w.packets[i]| == psize)
    requires Concat(w.packets) + w.buf == EncodeAfter(codec, [], all)
    ensures |all| == psize * |w.packets| + |w.buf|
    ensures n < |all| ==> ByteAt(w, n, codec.encode(all[..n + 1]), psize)
  {
    hide Concat, ByteAt;
    StreamByte(w, n, psize);
    if n < |all| {
      assert [] + all[..n + 1] == all[..n + 1];
    }
  }

  /** In every interleaving, the stream has one byte for each sample of the pieces in the order of their chunks, and
      every byte, in the packets and then in the buffer, encodes its own sample after all those before it. */
  lemma EveryByteOnTheWire(codec: Codec, actions: seq<Action>, psize: nat, n: nat)
    requires psize > 0
    ensures var w := Run(codec, FRESH, actions, psize);
            && w.accepted == w.taken + w.queue
            && exists pieces ::
                 && PiecesOf(codec, w.taken, pieces, psize)
                 && |Concat(pieces)| == psize * |w.packets| + |w.buf|
                 && (n < |Concat(pieces)| ==> ByteAt(w, n, codec.encode(Concat(pieces)[..n + 1]), psize))
  {
    hide Run, PreparedAll, Concat, PiecesOf, ByteAt, Unfinished, Frames, PartFrames, PartBytes, EncodeAfter;
    PacketiserConserves(codec, actions, psize);
    var w := Run(codec, FRESH, actions, psize);
    var pieces := Pieces(codec, w.taken, psize);
    EncodedByte(codec, w, Concat(pieces), psize, n);
  }

  // ----- Whole packets -----

  /** By how many samples the resampler has changed the chunks so far. */
  function Drift(codec: Codec, chunks: seq<Chunk>): int {
    if chunks == [] then 0
    else
      var last := chunks[|chunks| - 1];
      Drift(codec, chunks[..|chunks| - 1]) + |Resampled(codec, last)| - |last.audio|
  }

  lemma Distribute(m: int, a: int, b: int)
    ensures m * a + m * b == m * (a + b) && m * a - m * b == m * (a - b)
  {
  }

  lemma PaddingIs(n: int, m: nat) returns (k: int)
    requires m > 0
    ensures -n % m == m * k - n
  {
    k := -(-n / m);
    assert -n == m * (-n / m) + -n % m;
    assert m * k == -(m * (-n / m));
  }

  lemma SameRemainder(a: nat, d: int, m: nat, k: int)
    requires m > 0 && a == d + m * k
    ensures a % m == d % m
  {
    var q, r := d / m, d % m;
    assert d == m * q + r;
    Distribute(m, q, k);
    DivisionIs(a, m, q + k, r);
  }

  /** The padding makes up for everything but the drift. */
  lemma {:induction false} PreparedDrift(codec: Codec, chunks: seq<Chunk>, psize: nat) returns (q: int)
    requires psize > 0
    ensures |PreparedAll(codec, chunks, psize)| == Drift(codec, chunks) + psize * q
    decreases |chunks|
  {
    q := 0;
    if chunks != [] {
      var n := |chunks| - 1;
      var p := PreparedDrift(codec, chunks[..n], psize);
      var k := PaddingIs(|chunks[n].audio|, psize);
      assert |Prepared(codec, chunks[n], psize)| == |Resampled(codec, chunks[n])| + (psize * k - |chunks[n].audio|);
      hide Prepared, Resampled;
      q := p + k;
      Distribute(psize, p, k);
    }
  }

  lemma {:induction false} ConcatLength(packets: seq<seq<int>>, psize: nat)
    requires forall i :: 0 <= i < |packets| ==> |packets[i]| == psize
    ensures |Concat(packets)| == psize * |packets|
    decreases |packets|
  {
    if packets != [] {
      ConcatLength(packets[..|packets| - 1], psize);
    }
  }

  /** In every state of every run the buffer is off by the drift. */
  lemma BufferDrift(codec: Codec, w: Worker, psize: nat)
    requires psize > 0 && Inv(codec, w, psize)
    ensures |w.buf| % psize == Drift(codec, w.taken) % psize
  {
    var q := PreparedDrift(codec, w.taken, psize);
    ConcatLength(w.packets, psize);
    assert |Concat(w.packets) + w.buf| == |PreparedAll(codec, w.taken, psize)|;
    hide Inv, Drift, Concat, PreparedAll;
    Distribute(psize, q, |w.packets|);
    SameRemainder(|w.buf|, Drift(codec, w.taken), psize, q - |w.packets|);
  }

  lemma {:induction false} RunSnoc(codec: Codec, w: Worker, actions: seq<Action>, a: Action, psize: nat)
    requires psize > 0
    ensures Run(codec, w, actions + [a], psize) == Step(codec, Run(codec, w, actions, psize), a, psize)
    decreases |actions|
  {
    hide Step;
    if actions == [] {
      assert [a][1..] == [];
    } else {
      assert (actions + [a])[1..] == actions[1..] + [a];
      RunSnoc(codec, Step(codec, w, actions[0], psize), actions[1..], a, psize);
    }
  }

  /** The `j`-th action finds a packet's worth of bytes, and the drift is no whole number of packets. */
  ghost predicate FailsAt(codec: Codec, actions: seq<Action>, psize: nat, j: nat)
    requires psize > 0
  {
    && j < |actions| && actions[j].Emit?
    && var w := Run(codec, FRESH, actions[..j], psize);
       |w.buf| >= psize && Drift(codec, w.taken) % psize != 0
  }

  lemma StepFails(codec: Codec, w: Worker, a: Action, psize: nat)
    requires psize > 0 && Inv(codec, w, psize)
    ensures Step(codec, w, a, psize).crashed <==>
            w.crashed || (a.Emit? && |w.buf| >= psize && Drift(codec, w.taken) % psize != 0)
  {
    BufferDrift(codec, w, psize);
    hide Inv, Drift, Mark, Popped, Prepared, EncodeAfter;
  }

  ghost predicate Fails(codec: Codec, actions: seq<Action>, psize: nat)
    requires psize > 0
  {
    exists j :: FailsAt(codec, actions, psize, j)
  }

  lemma FailsSnoc(codec: Codec, before: seq<Action>, a: Action, psize: nat)
    requires psize > 0
    ensures var w := Run(codec, FRESH, before, psize);
            Fails(codec, before + [a], psize) <==>
            Fails(codec, before, psize) || (a.Emit? && |w.buf| >= psize && Drift(codec, w.taken) % psize != 0)
  {
    hide Run, Drift;
    var all := before + [a];
    forall j: nat | j < |before| ensures FailsAt(codec, all, psize, j) == FailsAt(codec, before, psize, j) {
      assert all[..j] == before[..j];
    }
    assert all[..|before|] == before;
    assert FailsAt(codec, all, psize, |before|) ==
           (a.Emit? && var w := Run(codec, FRESH, before, psize);
                       |w.buf| >= psize && Drift(codec, w.taken) % psize != 0);
  }

  lemma NoActions(codec: Codec, psize: nat)
    requires psize > 0
    ensures !Run(codec, FRESH, [], psize).crashed && !Fails(codec, [], psize)
  {
  }

  /** The assertion in `_proc_in` fails exactly when somewhere in the run a packet is due while the resampler has
      changed the number of samples by no whole number of packets. */
  lemma {:induction false} AssertionFailsExactlyWhen(codec: Codec, actions: seq<Action>, psize: nat)
    requires psize > 0
    ensures Run(codec, FRESH, actions, psize).crashed <==> Fails(codec, actions, psize)
    decreases |actions|
  {
    hide *;
    if actions == [] {
      NoActions(codec, psize);
    } else {
      var before, a := actions[..|actions| - 1], actions[|actions| - 1];
      AssertionFailsExactlyWhen(codec, before, psize);
      assert actions == before + [a];
      RunSnoc(codec, FRESH, before, a, psize);
      FailsSnoc(codec, before, a, psize);
      FreshRunInv(codec, before, psize);
      StepFails(codec, Run(codec, FRESH, before, psize), a, psize);
    }
  }

  ghost predicate AtCodecRate(chunks: seq<Chunk>) {
    forall i :: 0 <= i < |chunks| ==> chunks[i].samplerate == SRATE
  }

  lemma {:induction false} NoDrift(codec: Codec, chunks: seq<Chunk>)
    requires AtCodecRate(chunks)
    ensures Drift(codec, chunks) == 0
    decreases |chunks|
  {
    if chunks != [] {
      NoDrift(codec, chunks[..|chunks| - 1]);
    }
  }

  lemma {:induction false} RunAtRate(codec: Codec, w: Worker, actions: seq<Action>, psize: nat)
    requires psize > 0 && AtCodecRate(w.entering) && AtCodecRate(w.queue) && AtCodecRate(w.taken)
    requires forall i :: 0 <= i < |actions| && actions[i].Count? ==> actions[i].chunk.samplerate == SRATE
    ensures AtCodecRate(Run(codec, w, actions, psize).taken)
    decreases |actions|
  {
    hide Mark, Popped, Prepared, EncodeAfter;
    if actions != [] {
      RunAtRate(codec, Step(codec, w, actions[0], psize), actions[1..], psize);
    }
  }

  /** When every chunk comes at the codec's rate, the assertion in `_proc_in` never fails, in any interleaving. */
  lemma CodecRateNeverFails(codec: Codec, actions: seq<Action>, psize: nat)
    requires psize > 0
    requires forall i :: 0 <= i < |actions| && actions[i].Count? ==> actions[i].chunk.samplerate == SRATE
    ensures !Run(codec, FRESH, actions, psize).crashed && |Run(codec, FRESH, actions, psize).buf| % psize == 0
  {
    hide Step, Run, Inv, Drift;
    DivisionIs(0, psize, 0, 0);
    AssertionFailsExactlyWhen(codec, actions, psize);
    forall j | 0 <= j <= |actions| ensures Drift(codec, Run(codec, FRESH, actions[..j], psize).taken) == 0 {
      RunAtRate(codec, FRESH, actions[..j], psize);
      NoDrift(codec, Run(codec, FRESH, actions[..j], psize).taken);
    }
    assert actions[..|actions|] == actions;
    FreshRunInv(codec, actions, psize);
    BufferDrift(codec, Run(codec, FRESH, actions, psize), psize);
  }

  function Twice(c: Chunk): Worker {
    Worker([], [c, c], [], [], 2 * |c.audio|, 0, false, [c, c], [], [], [])
  }

  lemma SendTwice(codec: Codec, c: Chunk, rest: seq<Action>, psize: nat)
    requires psize > 0
    ensures Run(codec, FRESH, [Count(c), Put(0), Count(c), Put(0)] + rest, psize) == Run(codec, Twice(c), rest, psize)
  {
    var acts := [Count(c), Put(0), Count(c), Put(0)] + rest;
    assert acts[1..][1..][1..][1..] == rest;
    var w1 := CountChunk(FRESH, c);
    var w2 := PutChunk(w1, 0);
    assert w2 == Worker([], [c], [], [], |c.audio|, 0, false, [c], [], [], []);
    var w3 := CountChunk(w2, c);
    var w4 := PutChunk(w3, 0);
    assert w4 == Twice(c);
    hide CountChunk, PutChunk;
    assert Run(codec, FRESH, acts, psize) == Run(codec, w1, acts[1..], psize);
    assert Run(codec, w1, acts[1..], psize) == Run(codec, w2, acts[1..][1..], psize);
    assert Run(codec, w2, acts[1..][1..], psize) == Run(codec, w3, acts[1..][1..][1..], psize);
  }

  /** With resampling it can fail: two chunks of 100 samples at 16 kHz become 50 samples each and are padded by 60
      bytes, so that 220 bytes wait when packets of 20 ms have 160. */
  lemma ResamplingCanFail(codec: Codec, a: seq<int>)
    requires |a| == 100 && |codec.resample(a, 16000)| == 50
    ensures var c := Chunk(a, 16000);
            Run(codec, FRESH, [Count(c), Put(0), Count(c), Put(0)] + [Take, Take, Emit], PacketSize(20)).crashed
  {
    var c := Chunk(a, 16000);
    SendTwice(codec, c, [Take, Take, Emit], 160);
    assert |Prepared(codec, c, 160)| == 110;
    var w1 := TakeChunk(codec, Twice(c), 160);
    var w2 := TakeChunk(codec, w1, 160);
    assert |w1.buf| == 110 && w1.queue == [c];
    assert |w2.buf| == 220;
    assert EmitPacket(w2, 160).crashed;
    hide TakeChunk, EmitPacket, Twice;
    assert [Take, Take, Emit][1..] == [Take, Emit];
    assert [Take, Emit][1..] == [Emit];
    assert [Emit][1..] == [];
  }

  // ----- One call of _proc_in -----

  function Fill(codec: Codec, w: Worker, psize: nat): Worker
    requires psize > 0
    decreases |w.queue|
  {
    if WantsChunk(w, psize) then Fill(codec, TakeChunk(codec, w, psize), psize) else w
  }

  lemma TakeShrinks(codec: Codec, w: Worker, psize: nat)
    requires psize > 0 && WantsChunk(w, psize)
    ensures |TakeChunk(codec, w, psize).queue| < |w.queue|
  {
  }

  function Takes(n: nat): seq<Action> {
    if n == 0 then [Emit] else [Take] + Takes(n - 1)
  }

  /** A call without interference is one of the interleavings above. */
  lemma {:induction false} ProcInIsRun(codec: Codec, w: Worker, n: nat, psize: nat)
    requires psize > 0 && (WantsChunk(w, psize) ==> |w.queue| <= n)
    ensures Run(codec, w, Takes(n), psize) == EmitPacket(Fill(codec, w, psize), psize)
    decreases n
  {
    hide EmitPacket;
    if n == 0 {
      assert Run(codec, w, Takes(0), psize) == Run(codec, Step(codec, w, Emit, psize), [], psize);
    } else {
      assert Takes(n)[1..] == Takes(n - 1);
      ProcInIsRun(codec, TakeChunk(codec, w, psize), n - 1, psize);
    }
  }

  /** `w'` comes of one call at `w` that takes the first `m` chunks of the queue. */
  ghost predicate Called(codec: Codec, w: Worker, w': Worker, m: nat, psize: nat)
    requires psize > 0
  {
    && m <= |w.queue| && w'.taken == w.taken + w.queue[..m] && w'.queue == w.queue[m..]
    && (m > 0 ==> |w.buf| + |PreparedAll(codec, w.queue[..m - 1], psize)| < psize)
    && (w'.packets == w.packets || exists p :: w'.packets == w.packets + [p])
    && (w'.packets == w.packets && !w'.crashed ==> m == |w.queue| && |w'.buf| < psize)
  }

  /** `v` comes of the loop at `w`. */
  ghost predicate Filled(codec: Codec, w: Worker, v: Worker, m: nat, psize: nat)
    requires psize > 0
  {
    && m <= |w.queue| && v.taken == w.taken + w.queue[..m] && v.queue == w.queue[m..]
    && v.packets == w.packets && v.crashed == w.crashed
    && (m > 0 ==> |w.buf| + |PreparedAll(codec, w.queue[..m - 1], psize)| < psize)
    && (|v.buf| >= psize || m == |w.queue|)
  }

  lemma {:induction false} PreparedCons(codec: Codec, chunks: seq<Chunk>, psize: nat)
    requires psize > 0 && chunks != []
    ensures |PreparedAll(codec, chunks, psize)|
            == |Prepared(codec, chunks[0], psize)| + |PreparedAll(codec, chunks[1..], psize)|
    decreases |chunks|
  {
    hide Prepared;
    var n := |chunks| - 1;
    if n > 0 {
      PreparedCons(codec, chunks[..n], psize);
      assert chunks[..n][1..] == chunks[1..][..n - 1];
    }
  }

  lemma FilledStep(codec: Codec, w: Worker, v: Worker, k: nat, psize: nat)
    requires psize > 0 && WantsChunk(w, psize) && Filled(codec, TakeChunk(codec, w, psize), v, k, psize)
    ensures Filled(codec, w, v, k + 1, psize)
  {
    var rest := w.queue[1..];
    hide Prepared, EncodeAfter, PreparedAll;
    TakeLength(codec, w, psize);
    assert w.queue[..k + 1] == [w.queue[0]] + rest[..k];
    assert w.taken + w.queue[..k + 1] == (w.taken + [w.queue[0]]) + rest[..k];
    assert w.queue[k + 1..] == rest[k..];
    if k > 0 {
      PreparedCons(codec, w.queue[..k], psize);
      assert w.queue[..k][1..] == rest[..k - 1];
    } else {
      NothingPrepared(codec, psize);
      assert w.queue[..0] == [];
    }
  }

  lemma TakeLength(codec: Codec, w: Worker, psize: nat)
    requires psize > 0 && WantsChunk(w, psize)
    ensures |TakeChunk(codec, w, psize).buf| == |w.buf| + |Prepared(codec, w.queue[0], psize)|
  {
    hide Prepared;
  }

  lemma NothingPrepared(codec: Codec, psize: nat)
    requires psize > 0
    ensures PreparedAll(codec, [], psize) == []
  {
  }

  lemma {:induction false} FillTakes(codec: Codec, w: Worker, psize: nat) returns (m: nat)
    requires psize > 0
    ensures Filled(codec, w, Fill(codec, w, psize), m, psize)
    decreases |w.queue|
  {
    if WantsChunk(w, psize) {
      TakeShrinks(codec, w, psize);
      var k := FillTakes(codec, TakeChunk(codec, w, psize), psize);
      hide Filled, TakeChunk;
      m := k + 1;
      FilledStep(codec, w, Fill(codec, w, psize), k, psize);
    } else {
      m := 0;
      hide PreparedAll, TakeChunk;
      assert w.queue[..0] == [] && w.taken + [] == w.taken;
    }
  }

  lemma EmitSends(w: Worker, psize: nat)
    requires psize > 0
    ensures var w' := EmitPacket(w, psize);
            && w'.taken == w.taken && w'.queue == w.queue
            && (if |w.buf| < psize then w' == w
                else if |w.buf| % psize != 0 then w'.crashed && w'.packets == w.packets
                else w'.packets == w.packets + [w.buf[..psize]])
  {
    hide Mark, Popped;
  }

  lemma CalledSo(codec: Codec, w: Worker, v: Worker, m: nat, psize: nat)
    requires psize > 0 && Filled(codec, w, v, m, psize)
    ensures Called(codec, w, EmitPacket(v, psize), m, psize)
  {
    EmitSends(v, psize);
    hide EmitPacket, PreparedAll;
    var w' := EmitPacket(v, psize);
    if |v.buf| >= psize && |v.buf| % psize == 0 {
      assert |w'.packets| == |w.packets| + 1;
    }
  }

  /** One call takes chunks from the front of the queue while there is less than a packet, and no more; it sends one
      packet, and none only if the assertion fails or the whole queue does not fill one. */
  lemma EachCallSends(codec: Codec, w: Worker, n: nat, psize: nat)
    requires psize > 0 && (WantsChunk(w, psize) ==> |w.queue| <= n)
    ensures exists m :: Called(codec, w, Run(codec, w, Takes(n), psize), m, psize)
  {
    hide Run, Fill, Takes, Filled, Called, EmitPacket;
    ProcInIsRun(codec, w, n, psize);
    var m := FillTakes(codec, w, psize);
    CalledSo(codec, w, Fill(codec, w, psize), m, psize);
  }

  class RTPOutputWorker {
    var data_queue: seq<Chunk>
    var enc_buffer: seq<int>
    var pending_chunks: seq<Part>
    var frames_rcvd: nat
    var frames_prcsd: nat
    var has_ended: bool
    const codec: Codec
    const out_ptime: nat
    var encoder: seq<int>                 // what the encoder remembers: all that it was fed
    var crashed: bool                     // the assertion in _proc_in has failed
    ghost var accepted: seq<Chunk>
    ghost var taken: seq<Chunk>
    ghost var packets: seq<seq<int>>

    ghost function View(): Worker
      reads this
    {
      Worker([], data_queue, enc_buffer, pending_chunks, frames_rcvd, frames_prcsd, crashed, accepted, taken,
             encoder, packets)
    }

    constructor (codec: Codec, ptime: nat)
      ensures View() == FRESH && this.codec == codec && out_ptime == ptime && !has_ended
    {
      data_queue, enc_buffer, pending_chunks, frames_rcvd, frames_prcsd := [], [], [], 0, 0;
      has_ended, this.codec, out_ptime, encoder := false, codec, ptime, [];
      crashed, accepted, taken, packets := false, [], [], [];
    }

    method Soundout(chunk: Chunk) returns (qsize: nat)
      requires chunk.audio != []
      modifies this
      ensures View() == PutChunk(CountChunk(old(View()), chunk), 0)
      ensures qsize == |data_queue| && has_ended == old(has_ended)
    {
      frames_rcvd := frames_rcvd + |chunk.audio|;
      data_queue := data_queue + [chunk];
      accepted := accepted + [chunk];
      qsize := |data_queue|;
    }

    method MarkProcessedBytes(bytes: nat)
      modifies this`pending_chunks, this`frames_prcsd
      ensures pending_chunks == Mark(old(pending_chunks), bytes)
      ensures frames_prcsd == old(frames_prcsd) + Popped(old(pending_chunks), bytes)
    {
      var nbytes: nat := bytes;
      while nbytes > 0 && |pending_chunks| > 0
        invariant Mark(pending_chunks, nbytes) == Mark(old(pending_chunks), bytes)
        invariant frames_prcsd + Popped(pending_chunks, nbytes)
                  == old(frames_prcsd) + Popped(old(pending_chunks), bytes)
        decreases |pending_chunks|
      {
        var first := pending_chunks[0];
        if first.bytes > nbytes {
          pending_chunks := pending_chunks[0 := first.(bytes := first.bytes - nbytes)];
          return;
        }
        nbytes := nbytes - first.bytes;
        pending_chunks := pending_chunks[1..];
        frames_prcsd := frames_prcsd + first.frames;
      }
    }

    /** The body of the loop in `_proc_in`. */
    method TakeFromQueue(psize: nat)
      requires psize > 0 && |enc_buffer| < psize && data_queue != []
      modifies this
      ensures View() == TakeChunk(codec, old(View()), psize) && has_ended == old(has_ended)
    {
      hide Prepared;
      var chunk := data_queue[0];
      data_queue, taken := data_queue[1..], taken + [chunk];
      var audio := Prepared(codec, chunk, psize);
      var audio_enc := EncodeAfter(codec, encoder, audio);
      encoder := encoder + audio;
      if |audio_enc| > 0 {
        enc_buffer := enc_buffer + audio_enc;
        pending_chunks := pending_chunks + [Part(|audio_enc|, |chunk.audio|)];
      } else {
        assert enc_buffer + [] == enc_buffer;
        frames_prcsd := frames_prcsd + |chunk.audio|;
      }
    }

    /** The part after the loop. */
    method SendPacket(psize: nat)
      requires psize > 0 && Conserved(View())
      modifies this
      ensures View() == EmitPacket(old(View()), psize) && has_ended == old(has_ended)
    {
      if |enc_buffer| >= psize {
        if |enc_buffer| % psize != 0 {
          crashed := true;
          return;
        }
        MarkBytes(pending_chunks, psize);
        packets := packets + [enc_buffer[..psize]];
        enc_buffer := enc_buffer[psize..];
        MarkProcessedBytes(psize);
      }
      hide Mark, Popped;
    }

    /** One packet per call, and when to call again: a period after the deadline, unless the stream has ended. */
    method ProcIn(now_ns: nat, deadline_ns: nat) returns (next: Option<nat>)
      requires PacketSize(out_ptime) > 0 && Conserved(View())
      requires deadline_ns == 0 ==> now_ns > 0
      modifies this
      ensures has_ended == old(has_ended)
      ensures if has_ended then View() == old(View()) && next == None
              else
                && View() == EmitPacket(Fill(codec, old(View()), PacketSize(out_ptime)), PacketSize(out_ptime))
                && next == if crashed then None
                           else Some((if deadline_ns == 0 then now_ns else deadline_ns) + out_ptime * 1000000)
    {
      if has_ended {
        return None;
      }
      var deadline := if deadline_ns == 0 then now_ns else deadline_ns;
      var psize := PacketSize(out_ptime);
      hide Conserved, TakeChunk, EmitPacket;
      while |enc_buffer| < psize && |data_queue| > 0
        invariant !has_ended && Conserved(View())
        invariant Fill(codec, View(), psize) == Fill(codec, old(View()), psize)
        decreases |data_queue|
      {
        StepConserved(codec, View(), Take, psize);
        ghost var before := View();
        TakeFromQueue(psize);
        TakeShrinks(codec, before, psize);
      }
      SendPacket(psize);
      next := if crashed then None else Some(deadline + out_ptime * 1000000);
    }
  }
}
