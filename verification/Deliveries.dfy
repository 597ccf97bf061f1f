/**
  What becomes of a completed transfer in each kind of sink. The engine hands every chunk over once, in
  order, and goes on when a write throws; which bytes are then missing from the file depends on the sink.
 */
module Deliveries {
  import opened Common
  import opened Files
  import opened Sinks
  import opened Transfer
  import TransferSafety
  import Digest

  /** The chunks whose write threw. */
  function Thrown(calls: seq<Call>): set<nat> {
    set i | 0 <= i < |calls| && !calls[i].returned
  }

  // ---- a sink that writes each chunk at its place, or throws and writes nothing ----

  function Positional(calls: seq<Call>, chunkSize: nat): Bytes {
    if calls == [] then []
    else
      var before, last := Positional(calls[..|calls| - 1], chunkSize), calls[|calls| - 1];
      if last.returned then WriteAt(before, last.sequence * chunkSize, last.bytes) else before
  }

  lemma {:induction false} PositionalKept(calls: seq<Call>, source: Bytes, chunkSize: nat, n: nat)
    requires TransferSafety.Handed(calls, source, chunkSize) && n <= |calls|
    ensures Positional(calls[..n], chunkSize) == WriteKept(source, chunkSize, Thrown(calls), n)
  {
    hide WriteAt, Chunk;
    if n > 0 {
      PositionalKept(calls, source, chunkSize, n - 1);
      assert calls[..n][..n - 1] == calls[..n - 1];
      assert n - 1 in Thrown(calls) <==> !calls[n - 1].returned;
    }
  }

  /** Such a sink holds the source exactly when every chunk that threw was empty, or all zeros and not the last. */
  lemma PositionalExact(chunkSize: nat, events: seq<TransferSafety.Event>, id: TransferId)
    requires chunkSize > 0
    ensures var w := TransferSafety.Run(chunkSize, events);
            id in w.complete ==>
              && id in w.sources
              && (Positional(w.complete[id], chunkSize) == w.sources[id] <==>
                    Harmless(w.sources[id], chunkSize, Thrown(w.complete[id])))
  {
    hide Positional, WriteKept, Harmless, ChunkCount, TransferSafety.Handed;
    TransferSafety.CompleteIsExact(chunkSize, events, id);
    var w := TransferSafety.Run(chunkSize, events);
    if id in w.complete {
      var calls, source := w.complete[id], w.sources[id];
      PositionalKept(calls, source, chunkSize, |calls|);
      assert calls[..|calls|] == calls;
      KeptIsSource(source, chunkSize, Thrown(calls));
    }
  }

  // ---- the sink that collects in memory ----

  /** The bytes of the calls that returned, one after the other. */
  function Kept(calls: seq<Call>): Bytes {
    if calls == [] then []
    else Kept(calls[..|calls| - 1]) + if calls[|calls| - 1].returned then calls[|calls| - 1].bytes else []
  }

  /** A missed chunk leaves no gap in memory: what follows it moves up. */
  method IntoMemory(calls: seq<Call>, source: Bytes, chunkSize: nat) returns (result: Bytes)
    requires TransferSafety.Handed(calls, source, chunkSize)
    ensures result == Kept(calls)
  {
    hide Joined, Chunk;
    var sink := new MemorySink();
    NothingJoined();
    for i := 0 to |calls|
      invariant sink.Valid() && fresh(sink) && |sink.chunks| <= i
      invariant Joined(sink.chunks) == Kept(calls[..i]) && sink.total == |Kept(calls[..i])|
    {
      assert calls[..i + 1][..i] == calls[..i];
      if calls[i].returned {
        JoinedNext(sink.chunks, i, calls[i].bytes);
        sink.Write(calls[i].sequence, calls[i].bytes);
      } else {
        assert Kept(calls[..i]) + [] == Kept(calls[..i]);
      }
    }
    assert calls[..|calls|] == calls;
    result := sink.Close();
    assert Joined(sink.chunks) + Zeros(0) == Joined(sink.chunks);
  }

  lemma JoinedNext(chunks: seq<Option<Bytes>>, k: nat, bytes: Bytes)
    requires |chunks| <= k
    ensures |Digest.Update(chunks, k, bytes)| == k + 1
    ensures Joined(Digest.Update(chunks, k, bytes)) == Joined(chunks) + bytes
  {
    hide Joined;
    var gaps: seq<Option<Bytes>> := seq(k - |chunks|, _ => None);
    JoinedGaps(chunks, k - |chunks|);
    JoinedMore(chunks + gaps, Some(bytes));
    assert Digest.Update(chunks, k, bytes) == (chunks + gaps) + [Some(bytes)];
  }

  /** No call that threw carried bytes. */
  ghost predicate NothingLost(calls: seq<Call>) {
    forall i :: 0 <= i < |calls| && !calls[i].returned ==> calls[i].bytes == []
  }

  lemma {:induction false} KeptLength(calls: seq<Call>, source: Bytes, chunkSize: nat, n: nat)
    requires chunkSize > 0 && TransferSafety.Handed(calls, source, chunkSize)
    requires n <= |calls| <= ChunkCount(|source|, chunkSize)
    ensures |Kept(calls[..n])| <= Upto(|source|, chunkSize, n)
    ensures NothingLost(calls[..n]) ==> Kept(calls[..n]) == source[..Upto(|source|, chunkSize, n)]
    ensures !NothingLost(calls[..n]) ==> |Kept(calls[..n])| < Upto(|source|, chunkSize, n)
  {
    hide ChunkCount, Upto, Chunk, NothingLost;
    if n == 0 {
      NothingUpto(|source|, chunkSize);
      LostMore([], Call(0, [], true));
    } else {
      var k := n - 1;
      KeptLength(calls, source, chunkSize, k);
      assert calls[..n][..k] == calls[..k];
      assert calls[..n] == calls[..k] + [calls[k]];
      LostMore(calls[..k], calls[k]);
      ChunkSpan(source, chunkSize, k, 0);
      Onward(source, chunkSize, k);
    }
  }

  lemma LostMore(calls: seq<Call>, call: Call)
    ensures NothingLost([])
    ensures NothingLost(calls + [call]) <==> NothingLost(calls) && (call.returned || call.bytes == [])
  {
    if NothingLost(calls + [call]) {
      assert (calls + [call])[|calls|] == call;
      assert forall i :: 0 <= i < |calls| ==> (calls + [call])[i] == calls[i];
    }
  }

  lemma Onward(source: Bytes, chunkSize: nat, k: nat)
    ensures var a, b := Upto(|source|, chunkSize, k), Upto(|source|, chunkSize, k + 1);
            a <= b <= |source| && source[..a] + Chunk(source, chunkSize, k) == source[..b]
  {
    UptoMonotone(|source|, chunkSize, k, k + 1);
    var a, b := Upto(|source|, chunkSize, k), Upto(|source|, chunkSize, k + 1);
    assert source[..a] + source[a..b] == source[..b];
  }

  /** The memory sink gives back the source exactly when no call that threw carried bytes. */
  lemma MemoryExact(chunkSize: nat, events: seq<TransferSafety.Event>, id: TransferId)
    requires chunkSize > 0
    ensures var w := TransferSafety.Run(chunkSize, events);
            id in w.complete ==>
              id in w.sources && (Kept(w.complete[id]) == w.sources[id] <==> NothingLost(w.complete[id]))
  {
    hide Kept, NothingLost, ChunkCount, Upto, TransferSafety.Handed;
    TransferSafety.CompleteIsExact(chunkSize, events, id);
    var w := TransferSafety.Run(chunkSize, events);
    if id in w.complete {
      var calls, source := w.complete[id], w.sources[id];
      KeptLength(calls, source, chunkSize, |calls|);
      assert calls[..|calls|] == calls;
      ChunkBounds(|source|, chunkSize, 0);
      assert source[..|source|] == source;
    }
  }

  // ---- the batching sinks ----

  /** What the batch holds when chunk k comes, on this disk: it is asked at most twice for each chunk. */
  function Batched(source: Bytes, chunkSize: nat, disk: (nat, bool) -> Disk, k: nat): Held
    requires chunkSize > 0 && k <= ChunkCount(|source|, chunkSize)
  {
    if k == 0 then Held(0, 0)
    else
      var i := k - 1;
      HeldAfter(Batched(source, chunkSize, disk, i), chunkSize, i * chunkSize, |Chunk(source, chunkSize, i)|,
                disk(i, false), disk(i, true))
  }

  predicate IsTaken(source: Bytes, chunkSize: nat, disk: (nat, bool) -> Disk, k: nat)
    requires chunkSize > 0 && k < ChunkCount(|source|, chunkSize)
  {
    Takes(Batched(source, chunkSize, disk, k), chunkSize, k * chunkSize, |Chunk(source, chunkSize, k)|, disk(k, false))
  }

  /** The chunks that did not get into a batch: a flush before them failed, or those that failed left no room. */
  function Lost(source: Bytes, chunkSize: nat, disk: (nat, bool) -> Disk, n: nat): set<nat>
    requires chunkSize > 0 && n <= ChunkCount(|source|, chunkSize)
  {
    set k | 0 <= k < n && !IsTaken(source, chunkSize, disk, k)
  }

  /** The chunks whose call threw: these, and those behind which the batch filled up and its flush failed. */
  predicate CallReturns(source: Bytes, chunkSize: nat, disk: (nat, bool) -> Disk, k: nat)
    requires chunkSize > 0 && k < ChunkCount(|source|, chunkSize)
  {
    WriteReturns(Batched(source, chunkSize, disk, k), chunkSize, k * chunkSize, |Chunk(source, chunkSize, k)|,
                 disk(k, false), disk(k, true))
  }

  lemma LostNext(source: Bytes, chunkSize: nat, disk: (nat, bool) -> Disk, k: nat)
    requires chunkSize > 0 && k < ChunkCount(|source|, chunkSize)
    ensures Lost(source, chunkSize, disk, k + 1)
            == Lost(source, chunkSize, disk, k) + if IsTaken(source, chunkSize, disk, k) then {} else {k}
  {
    hide IsTaken, ChunkCount;
  }

  /**
    A delivery to a batching sink on a disk that may fail at every write. Which calls throw and which chunks
    are lost is what the disk's answers make of the batch; a chunk is lost only if its call threw. If the sink
    closes, the file is the source exactly when the lost chunks were harmless; on a disk that works every call
    returns and none is lost.
   */
  method IntoBatches(source: Bytes, chunkSize: nat, disk: (nat, bool) -> Disk, last: Disk)
    returns (calls: seq<Call>, result: Option<Bytes>)
    requires chunkSize > 0
    ensures |calls| == ChunkCount(|source|, chunkSize) && TransferSafety.Handed(calls, source, chunkSize)
    ensures forall k :: 0 <= k < |calls| ==> calls[k].returned == CallReturns(source, chunkSize, disk, k)
    ensures Lost(source, chunkSize, disk, |calls|) <= Thrown(calls)
    ensures result.Some? <==> last.Works? || Batched(source, chunkSize, disk, |calls|).used == 0
    ensures var lost := Lost(source, chunkSize, disk, |calls|);
            result.Some? ==>
              && result.value == WriteKept(source, chunkSize, lost, |calls|)
              && (result.value == source <==> Harmless(source, chunkSize, lost))
    ensures (forall k, again :: disk(k, again).Works?) ==> Thrown(calls) == {}
  {
    hide WriteAt, Chunk, ChunkCount, Harmless, Takes, HeldAfter, WriteReturns, Lost, Readied, WriteKept,
         TransferSafety.Handed;
    var sink := new BatchSink(chunkSize);
    calls := [];
    var n := ChunkCount(|source|, chunkSize);
    NothingLostYet(source, chunkSize, disk);
    HandedNext([], source, chunkSize, true);
    for k := 0 to n
      invariant sink.Valid() && fresh(sink) && (sink.batch != null ==> fresh(sink.batch)) && sink.chunkSize == chunkSize
      invariant |calls| == k && TransferSafety.Handed(calls, source, chunkSize)
      invariant Lost(source, chunkSize, disk, k) <= Thrown(calls)
      invariant forall i :: 0 <= i < k ==> calls[i].returned == CallReturns(source, chunkSize, disk, i)
      invariant sink.Holding() == Batched(source, chunkSize, disk, k)
      invariant sink.Contents() == WriteKept(source, chunkSize, Lost(source, chunkSize, disk, k), k)
      invariant (forall j, again :: disk(j, again).Works?) ==> sink.HasRoom() && Thrown(calls) == {}
    {
      ChunkLength(source, chunkSize, k);
      var chunk := Chunk(source, chunkSize, k);
      var returned, taken := sink.Write(k, chunk, disk(k, false), disk(k, true));
      ThrownMore(calls, Call(k, chunk, returned));
      HandedNext(calls, source, chunkSize, returned);
      KeptNext(source, chunkSize, disk, k);
      calls := calls + [Call(k, chunk, returned)];
    }
    result := sink.Close(last);
    KeptIsSource(source, chunkSize, Lost(source, chunkSize, disk, n));
  }

  lemma NothingLostYet(source: Bytes, chunkSize: nat, disk: (nat, bool) -> Disk)
    requires chunkSize > 0
    ensures Lost(source, chunkSize, disk, 0) == {} && WriteKept(source, chunkSize, {}, 0) == []
  {
  }

  lemma HandedNext(calls: seq<Call>, source: Bytes, chunkSize: nat, returned: bool)
    requires TransferSafety.Handed(calls, source, chunkSize) || calls == []
    ensures TransferSafety.Handed([], source, chunkSize)
    ensures var next := Call(|calls|, Chunk(source, chunkSize, |calls|), returned);
            TransferSafety.Handed(calls + [next], source, chunkSize)
  {
    hide Chunk;
  }

  /** One more chunk: written at its place if the batch took it, and one more lost if not. */
  lemma KeptNext(source: Bytes, chunkSize: nat, disk: (nat, bool) -> Disk, k: nat)
    requires chunkSize > 0 && k < ChunkCount(|source|, chunkSize)
    ensures var before := WriteKept(source, chunkSize, Lost(source, chunkSize, disk, k), k);
            WriteKept(source, chunkSize, Lost(source, chunkSize, disk, k + 1), k + 1)
            == if IsTaken(source, chunkSize, disk, k) then WriteAt(before, k * chunkSize, Chunk(source, chunkSize, k))
               else before
    ensures Lost(source, chunkSize, disk, k + 1)
            == Lost(source, chunkSize, disk, k) + if IsTaken(source, chunkSize, disk, k) then {} else {k}
  {
    hide WriteAt, Chunk, ChunkCount, IsTaken, Lost;
    var lost := Lost(source, chunkSize, disk, k);
    LostNext(source, chunkSize, disk, k);
    NotYetLost(source, chunkSize, disk, k);
    assert lost + {} == lost;
    MissedLater(source, chunkSize, lost, k, k);
  }

  lemma NotYetLost(source: Bytes, chunkSize: nat, disk: (nat, bool) -> Disk, k: nat)
    requires chunkSize > 0 && k <= ChunkCount(|source|, chunkSize)
    ensures k !in Lost(source, chunkSize, disk, k)
  {
  }

  lemma ThrownMore(calls: seq<Call>, call: Call)
    ensures Thrown(calls + [call]) == if call.returned then Thrown(calls) else Thrown(calls) + {|calls|}
  {
  }
}
