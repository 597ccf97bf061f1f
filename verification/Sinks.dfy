/**
  The batching sinks: chunks are gathered in a buffer and reach the file in runs.
  The browser sink and the command-line sink run the same algorithm over two kinds of file.
 */
module Sinks {
  import opened Common
  import opened Files
  import Digest

  const WRITE_BATCH: nat := 4 * 1024 * 1024

  /** How a write to the file itself goes; one that fails may have written some of its bytes. */
  datatype Disk = Works | Fails(written: nat)

  // ---- what is held, without its bytes ----

  /** Where the batch begins in the file, and how much of it is used. */
  datatype Held = Held(start: nat, used: nat)

  /** A run the position does not continue is flushed first; false is that flush failing. */
  function Readied(h: Held, position: nat, disk: Disk): (Held, bool) {
    if h.used == 0 then (Held(position, 0), true)
    else if position == h.start + h.used then (h, true)
    else if disk.Works? then (Held(position, 0), true)
    else (h, false)
  }

  /** Whether a chunk of n bytes gets into the batch: the batch is ready for it and has the room. */
  predicate Takes(h: Held, chunkSize: nat, position: nat, n: nat, first: Disk) {
    var (ready, ok) := Readied(h, position, first);
    ok && ready.used + n <= WRITE_BATCH + chunkSize
  }

  /** A batch that is full behind the chunk is flushed as well. */
  function HeldAfter(h: Held, chunkSize: nat, position: nat, n: nat, first: Disk, second: Disk): Held {
    var ready := Readied(h, position, first).0;
    if !Takes(h, chunkSize, position, n, first) then ready
    else if ready.used + n >= WRITE_BATCH && second.Works? then Held(ready.start, 0)
    else Held(ready.start, ready.used + n)
  }

  /** Whether the call returns: the chunk got in, and no flush behind it failed. */
  predicate WriteReturns(h: Held, chunkSize: nat, position: nat, n: nat, first: Disk, second: Disk) {
    && Takes(h, chunkSize, position, n, first)
    && (Readied(h, position, first).0.used + n < WRITE_BATCH || second.Works?)
  }

  class BatchSink {
    const chunkSize: nat
    var batch: array?<Byte>
    var batchStart: nat
    var batchUsed: nat
    // What positional writes have put in the file so far.
    var file: Bytes

    ghost predicate Valid()
      reads this
    {
      && (batch != null ==> batch.Length == WRITE_BATCH + chunkSize)
      && batchUsed <= if batch == null then 0 else batch.Length
    }

    /** A batch that filled up is gone, so the next chunk has room; only a flush that failed leaves it held. */
    predicate HasRoom()
      reads this
    {
      batchUsed < WRITE_BATCH
    }

    function Holding(): Held
      reads this
    {
      Held(batchStart, batchUsed)
    }

    /** The file as it will be once everything held back is written. */
    ghost function Contents(): Bytes
      requires Valid()
      reads this, batch
    {
      if batch == null then file else WriteAt(file, batchStart, batch[..batchUsed])
    }

    constructor (chunkSize: nat)
      ensures Valid() && HasRoom() && Contents() == [] && this.chunkSize == chunkSize && batch == null
      ensures Holding() == Held(0, 0)
    {
      this.chunkSize := chunkSize;
      batch, batchStart, batchUsed := null, 0, 0;
      file := [];
    }

    /** A flush that fails loses nothing: the batch is held and covers whatever the disk took of it. */
    method Flush(disk: Disk) returns (flushed: bool)
      requires Valid()
      modifies this`file, this`batchUsed
      ensures Valid() && Contents() == old(Contents())
      ensures flushed <==> disk.Works? || old(batchUsed) == 0
      ensures flushed ==> batchUsed == 0 && file == Contents()
      ensures !flushed ==> batchUsed == old(batchUsed)
    {
      if batchUsed == 0 { return true; }
      ghost var held := batch[..batchUsed];
      if disk.Fails? {
        var n := Min(disk.written, batchUsed);
        assert batch[..n] == held[..n];
        WriteOver(file, batchStart, held, n);
        file := WriteAt(file, batchStart, batch[..n]);
        return false;
      }
      file := WriteAt(file, batchStart, batch[..batchUsed]);
      batchUsed := 0;
      assert batch[..batchUsed] == [];
      return true;
    }

    /** Copies a chunk behind what the batch holds; the caller has seen that there is room. */
    method Append(bytes: Bytes)
      requires batch != null && batchUsed + |bytes| <= batch.Length
      modifies this`batchUsed, batch
      ensures batchUsed == old(batchUsed) + |bytes|
      ensures batch[..batchUsed] == old(batch[..batchUsed]) + bytes
    {
      forall i | 0 <= i < |bytes| {
        batch[batchUsed + i] := bytes[i];
      }
      batchUsed := batchUsed + |bytes|;
    }

    /** Ends a run the position does not continue, and has a buffer ready for the one it does. */
    method Prepare(position: nat, disk: Disk) returns (ready: bool)
      requires Valid()
      modifies this
      ensures Valid() && (batch == old(batch) || fresh(batch)) && Contents() == old(Contents())
      ensures ready ==> batch != null && position == batchStart + batchUsed && batchUsed <= old(batchUsed)
      ensures !ready ==> disk.Fails? && batchUsed == old(batchUsed) && batch != null
      ensures (Holding(), ready) == Readied(old(Holding()), position, disk)
    {
      if batchUsed > 0 && position != batchStart + batchUsed {
        var flushed := Flush(disk);
        if !flushed { return false; }
      }
      if batchUsed == 0 {
        batchStart := position;
      }
      if batch == null {
        batch := new Byte[WRITE_BATCH + chunkSize];
      }
      return true;
    }

    /**
      Holding a chunk back is the same as writing it at its place now. `returned` says that the call did
      not throw, `taken` that the chunk is in nevertheless: a flush may fail behind it. The disk is asked
      at most twice. While it works, every chunk is taken and the buffer never overflows.
     */
    method Write(sequence: nat, bytes: Bytes, first: Disk, second: Disk) returns (returned: bool, taken: bool)
      requires Valid()
      modifies this, batch
      ensures Valid() && (batch == old(batch) || fresh(batch))
      ensures Contents() == if taken then WriteAt(old(Contents()), sequence * chunkSize, bytes) else old(Contents())
      ensures returned ==> taken && HasRoom()
      ensures old(HasRoom()) && |bytes| <= chunkSize && first.Works? ==> taken
      ensures old(HasRoom()) && |bytes| <= chunkSize && first.Works? && second.Works? ==> returned
      ensures var h, position := old(Holding()), sequence * chunkSize;
              && taken == Takes(h, chunkSize, position, |bytes|, first)
              && returned == WriteReturns(h, chunkSize, position, |bytes|, first, second)
              && Holding() == HeldAfter(h, chunkSize, position, |bytes|, first, second)
    {
      var position := sequence * chunkSize;
      returned, taken := WriteBehind(position, bytes, first, second);
    }

    method WriteBehind(position: nat, bytes: Bytes, first: Disk, second: Disk) returns (returned: bool, taken: bool)
      requires Valid()
      modifies this, batch
      ensures Valid() && (batch == old(batch) || fresh(batch))
      ensures Contents() == if taken then WriteAt(old(Contents()), position, bytes) else old(Contents())
      ensures returned ==> taken && HasRoom()
      ensures old(HasRoom()) && |bytes| <= chunkSize && first.Works? ==> taken
      ensures old(HasRoom()) && |bytes| <= chunkSize && first.Works? && second.Works? ==> returned
      ensures var h := old(Holding());
              && taken == Takes(h, chunkSize, position, |bytes|, first)
              && returned == WriteReturns(h, chunkSize, position, |bytes|, first, second)
              && Holding() == HeldAfter(h, chunkSize, position, |bytes|, first, second)
    {
      hide WriteAt;
      var ready := Prepare(position, first);
      if !ready || batchUsed + |bytes| > batch.Length { return false, false; }
      ghost var held := batch[..batchUsed];
      Append(bytes);
      WritesJoin(file, batchStart, held, bytes);
      taken := true;
      returned := true;
      if batchUsed >= WRITE_BATCH {
        returned := Flush(second);
      }
    }

    /** Closing fails, and the file is not handed over, when the last flush does. */
    method Close(disk: Disk) returns (result: Option<Bytes>)
      requires Valid()
      modifies this`file, this`batchUsed
      ensures Valid() && Contents() == old(Contents())
      ensures result == if disk.Works? || old(batchUsed) == 0 then Some(old(Contents())) else None
    {
      var flushed := Flush(disk);
      result := if flushed then Some(file) else None;
    }

    method Abort()
      requires Valid()
      modifies this`file, this`batchUsed
      ensures Valid() && HasRoom() && Contents() == []
    {
      batchUsed := 0;
      file := [];
    }
  }

  /**
    On a disk that works, a whole delivery in an arbitrary order, repeats included, ends with the
    source in the file.
   */
  method Deliver(source: Bytes, chunkSize: nat, order: seq<nat>) returns (result: Bytes)
    requires chunkSize > 0
    ensures result == WriteChunks(source, chunkSize, order)
    ensures Covers(order, ChunkCount(|source|, chunkSize)) ==> result == source
  {
    hide WriteAt, Chunk;
    var sink := new BatchSink(chunkSize);
    for i := 0 to |order|
      invariant sink.Valid() && sink.HasRoom() && fresh(sink) && (sink.batch != null ==> fresh(sink.batch))
      invariant sink.chunkSize == chunkSize && sink.Contents() == WriteChunks(source, chunkSize, order[..i])
    {
      ChunkLength(source, chunkSize, order[i]);
      assert order[..i + 1][..i] == order[..i];
      var _, _ := sink.Write(order[i], Chunk(source, chunkSize, order[i]), Works, Works);
    }
    assert order[..|order|] == order;
    var closed := sink.Close(Works);
    result := closed.value;
    if Covers(order, ChunkCount(|source|, chunkSize)) {
      AnyOrderGivesTheSource(source, chunkSize, order);
    }
  }

  // ---- the sink that collects in memory ----

  /** The chunks that came, in order of their numbers; a gap takes no room. */
  function Joined(chunks: seq<Option<Bytes>>): Bytes {
    if chunks == [] then []
    else Joined(chunks[..|chunks| - 1]) + if chunks[|chunks| - 1].Some? then chunks[|chunks| - 1].value else []
  }

  class MemorySink {
    var chunks: seq<Option<Bytes>>
    var total: nat

    /** The count is never short of what is held; it is over it by whatever was written twice. */
    ghost predicate Valid()
      reads this
    {
      |Joined(chunks)| <= total
    }

    constructor ()
      ensures Valid() && chunks == [] && total == 0
    {
      chunks, total := [], 0;
    }

    method Write(sequence: nat, bytes: Bytes)
      requires Valid()
      modifies this
      ensures Valid() && chunks == Digest.Update(old(chunks), sequence, bytes) && total == old(total) + |bytes|
    {
      JoinedUpdate(chunks, sequence, bytes);
      chunks := Digest.Update(chunks, sequence, bytes);
      total := total + |bytes|;
    }

    /** One buffer of the size counted: what no chunk covers stays zero. */
    method Close() returns (result: Bytes)
      requires Valid()
      ensures result == Joined(chunks) + Zeros(total - |Joined(chunks)|)
    {
      hide Joined;
      var out := new Byte[total](_ => 0);
      var offset := 0;
      NothingJoined();
      for i := 0 to |chunks|
        invariant offset == |Joined(chunks[..i])| && offset <= total && fresh(out)
        invariant out[..] == Joined(chunks[..i]) + Zeros(total - offset)
      {
        assert chunks[..i + 1] == chunks[..i] + [chunks[i]];
        JoinedMore(chunks[..i], chunks[i]);
        JoinedMonotone(chunks, i + 1);
        if chunks[i].Some? {
          Place(out, offset, chunks[i].value, Joined(chunks[..i]));
          offset := offset + |chunks[i].value|;
        } else {
          assert Joined(chunks[..i]) + [] == Joined(chunks[..i]);
        }
      }
      assert chunks[..|chunks|] == chunks;
      result := out[..];
    }

    /** Copies a chunk in behind what is already in place. */
    static method Place(out: array<Byte>, offset: nat, chunk: Bytes, ghost front: Bytes)
      requires |front| == offset && offset + |chunk| <= out.Length
      requires out[..] == front + Zeros(out.Length - offset)
      modifies out
      ensures out[..] == front + chunk + Zeros(out.Length - offset - |chunk|)
    {
      ghost var before := out[..];
      forall p | 0 <= p < |chunk| {
        out[offset + p] := chunk[p];
      }
      ghost var after := front + chunk + Zeros(out.Length - offset - |chunk|);
      forall q | 0 <= q < out.Length
        ensures out[q] == after[q]
      {
        assert before[q] == if q < offset then front[q] else 0;
      }
      assert out[..] == after;
    }
  }

  lemma NothingJoined()
    ensures Joined([]) == []
  {
  }

  lemma {:induction false} JoinedMonotone(chunks: seq<Option<Bytes>>, i: nat)
    requires i <= |chunks|
    ensures |Joined(chunks[..i])| <= |Joined(chunks)|
    decreases |chunks| - i
  {
    if i == |chunks| {
      assert chunks[..i] == chunks;
    } else {
      assert chunks[..i + 1][..i] == chunks[..i];
      JoinedMonotone(chunks, i + 1);
    }
  }

  lemma JoinedMore(chunks: seq<Option<Bytes>>, c: Option<Bytes>)
    ensures Joined(chunks + [c]) == Joined(chunks) + if c.Some? then c.value else []
  {
    assert (chunks + [c])[..|chunks|] == chunks;
  }

  lemma {:induction false} JoinedGaps(chunks: seq<Option<Bytes>>, n: nat)
    ensures Joined(chunks + seq(n, _ => None)) == Joined(chunks)
  {
    var gaps: seq<Option<Bytes>> := seq(n, _ => None);
    if n == 0 {
      assert chunks + gaps == chunks;
    } else {
      JoinedGaps(chunks, n - 1);
      assert chunks + gaps == (chunks + seq(n - 1, _ => None)) + [None];
      JoinedMore(chunks + seq(n - 1, _ => None), None);
    }
  }

  function LengthAt(chunks: seq<Option<Bytes>>, k: nat): nat {
    if k < |chunks| && chunks[k].Some? then |chunks[k].value| else 0
  }

  /** A chunk in place of another changes the length by the difference. */
  lemma {:induction false} JoinedUpdate(chunks: seq<Option<Bytes>>, k: nat, bytes: Bytes)
    ensures |Joined(Digest.Update(chunks, k, bytes))| == |Joined(chunks)| + |bytes| - LengthAt(chunks, k)
  {
    if k >= |chunks| {
      var gaps: seq<Option<Bytes>> := seq(k - |chunks|, _ => None);
      JoinedGaps(chunks, k - |chunks|);
      JoinedMore(chunks + gaps, Some(bytes));
      assert Digest.Update(chunks, k, bytes) == (chunks + gaps) + [Some(bytes)];
    } else {
      var front, last := chunks[..|chunks| - 1], chunks[|chunks| - 1];
      assert chunks == front + [last];
      JoinedMore(front, last);
      if k == |chunks| - 1 {
        assert Digest.Update(chunks, k, bytes) == front + [Some(bytes)];
        JoinedMore(front, Some(bytes));
      } else {
        JoinedUpdate(front, k, bytes);
        assert Digest.Update(chunks, k, bytes) == Digest.Update(front, k, bytes) + [last];
        JoinedMore(Digest.Update(front, k, bytes), last);
      }
    }
  }

  function Counted(source: Bytes, chunkSize: nat, order: seq<nat>): nat {
    if order == [] then 0
    else Counted(source, chunkSize, order[..|order| - 1]) + |Chunk(source, chunkSize, order[|order| - 1])|
  }

  /** No chunk that has bytes in it comes twice. */
  ghost predicate OnceOnly(source: Bytes, chunkSize: nat, order: seq<nat>) {
    forall i, j :: 0 <= i < j < |order| && order[i] == order[j] ==> Chunk(source, chunkSize, order[i]) == []
  }

  ghost predicate InRange(order: seq<nat>, n: nat) {
    forall i :: 0 <= i < |order| ==> order[i] < n
  }

  lemma OnceOnlyMore(source: Bytes, chunkSize: nat, front: seq<nat>, k: nat)
    ensures OnceOnly(source, chunkSize, front + [k]) <==>
              OnceOnly(source, chunkSize, front) && (k in front ==> Chunk(source, chunkSize, k) == [])
  {
    hide Chunk;
    var order := front + [k];
    if OnceOnly(source, chunkSize, order) {
      assert forall i :: 0 <= i < |front| ==> order[i] == front[i];
      if k in front {
        var i :| 0 <= i < |front| && front[i] == k;
        assert order[i] == order[|front|] == k;
      }
    }
  }

  /** The count is over what is held by exactly the bytes that came again. */
  lemma {:induction false} Surplus(source: Bytes, chunkSize: nat, order: seq<nat>)
    requires chunkSize > 0 && InRange(order, ChunkCount(|source|, chunkSize))
    ensures var held := |Joined(Digest.AfterUpdates(Chunks(source, chunkSize), order))|;
            && held <= Counted(source, chunkSize, order)
            && (held == Counted(source, chunkSize, order) <==> OnceOnly(source, chunkSize, order))
  {
    hide ChunkCount, Chunk, Joined, OnceOnly;
    if order == [] {
      NothingCounted(source, chunkSize);
      NothingJoined();
    } else {
      var front, k := order[..|order| - 1], order[|order| - 1];
      assert order == front + [k];
      Surplus(source, chunkSize, front);
      var chunks := Chunks(source, chunkSize);
      var before := Digest.AfterUpdates(chunks, front);
      Digest.UpdatesByIndex(chunks, front);
      JoinedUpdate(before, k, chunks[k]);
      assert LengthAt(before, k) == if k in front then |chunks[k]| else 0;
      OnceOnlyMore(source, chunkSize, front, k);
    }
  }

  lemma NothingCounted(source: Bytes, chunkSize: nat)
    ensures OnceOnly(source, chunkSize, [])
  {
  }

  lemma {:induction false} JoinedChunks(source: Bytes, chunkSize: nat, held: seq<Option<Bytes>>)
    requires chunkSize > 0 && |held| <= ChunkCount(|source|, chunkSize)
    requires forall i :: 0 <= i < |held| ==> held[i] == Some(Chunk(source, chunkSize, i))
    ensures Joined(held) == source[..Upto(|source|, chunkSize, |held|)]
  {
    hide ChunkCount;
    if held != [] {
      var k := |held| - 1;
      JoinedChunks(source, chunkSize, held[..k]);
      UptoMonotone(|source|, chunkSize, k, k + 1);
      var a, b := Upto(|source|, chunkSize, k), Upto(|source|, chunkSize, k + 1);
      assert source[..a] + source[a..b] == source[..b];
    }
  }

  /**
    The memory sink gives back the source exactly when no chunk with bytes in it was written twice;
    otherwise zeros follow it, as many as there were bytes repeated.
   */
  method CollectInMemory(source: Bytes, chunkSize: nat, order: seq<nat>) returns (result: Bytes)
    requires chunkSize > 0 && InRange(order, ChunkCount(|source|, chunkSize))
    ensures Covers(order, ChunkCount(|source|, chunkSize)) ==>
              && |source| <= Counted(source, chunkSize, order)
              && result == source + Zeros(Counted(source, chunkSize, order) - |source|)
              && (result == source <==> OnceOnly(source, chunkSize, order))
  {
    hide Chunk, ChunkCount, Joined, OnceOnly;
    var sink := new MemorySink();
    ghost var chunks := Chunks(source, chunkSize);
    for i := 0 to |order|
      invariant sink.Valid() && fresh(sink)
      invariant sink.chunks == Digest.AfterUpdates(chunks, order[..i])
      invariant sink.total == Counted(source, chunkSize, order[..i])
    {
      assert order[..i + 1][..i] == order[..i];
      assert chunks[order[i]] == Chunk(source, chunkSize, order[i]);
      sink.Write(order[i], Chunk(source, chunkSize, order[i]));
    }
    assert order[..|order|] == order;
    result := sink.Close();
    if Covers(order, ChunkCount(|source|, chunkSize)) {
      AllHeld(source, chunkSize, order);
      Surplus(source, chunkSize, order);
      ZerosOrNot(source, Counted(source, chunkSize, order) - |source|);
    }
  }

  lemma AllHeld(source: Bytes, chunkSize: nat, order: seq<nat>)
    requires chunkSize > 0 && InRange(order, ChunkCount(|source|, chunkSize))
    requires Covers(order, ChunkCount(|source|, chunkSize))
    ensures Joined(Digest.AfterUpdates(Chunks(source, chunkSize), order)) == source
  {
    hide Chunk, ChunkCount, Joined;
    var chunks := Chunks(source, chunkSize);
    var held := Digest.AfterUpdates(chunks, order);
    Digest.UpdatesByIndex(chunks, order);
    if chunks != [] {
      assert |chunks| - 1 in order;
    }
    assert |held| == |chunks|;
    JoinedChunks(source, chunkSize, held);
    ChunkBounds(|source|, chunkSize, 0);
    assert source[..|source|] == source;
  }

  lemma ZerosOrNot(source: Bytes, n: nat)
    ensures source + Zeros(n) == source <==> n == 0
  {
    assert |source + Zeros(n)| == |source| + n;
  }
}
