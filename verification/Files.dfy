/**
  Files as byte strings: positional writes and the fixed-size chunks a file is cut into.
  A positional write past the end leaves a hole of zeros, as a file handle does;
  a write of no bytes changes nothing.
 */
module Files {
  import opened Common

  function Zeros(n: nat): (z: Bytes)
    ensures |z| == n
  {
    seq(n, _ => 0)
  }

  /** The first n bytes, with a hole where the file is shorter. */
  function Front(file: Bytes, n: nat): (r: Bytes)
    ensures |r| == n
  {
    if |file| < n then file + Zeros(n - |file|) else file[..n]
  }

  function Back(file: Bytes, n: nat): Bytes {
    if |file| <= n then [] else file[n..]
  }

  function WriteAt(file: Bytes, position: nat, data: Bytes): Bytes {
    if data == [] then file else Front(file, position) + data + Back(file, position + |data|)
  }

  /** Two writes that follow on are one write: what lets a sink hold bytes back. */
  lemma WritesJoin(file: Bytes, position: nat, a: Bytes, b: Bytes)
    ensures WriteAt(WriteAt(file, position, a), position + |a|, b) == WriteAt(file, position, a + b)
  {
    if a == [] {
      assert a + b == b;
    } else if b == [] {
      assert a + b == a;
    } else {
      WritesJoinProper(file, position, a, b);
    }
  }

  lemma WritesJoinProper(file: Bytes, position: nat, a: Bytes, b: Bytes)
    requires a != [] && b != []
    ensures WriteAt(WriteAt(file, position, a), position + |a|, b) == WriteAt(file, position, a + b)
  {
    hide Front, Back;
    var front, end := Front(file, position) + a, position + |a|;
    var once := front + Back(file, end);
    FrontOfWritten(front, Back(file, end));
    BackOfWritten(front, file, |b|);
    assert WriteAt(file, position, a) == once;
    Rebracket(Front(file, position), a, b, Back(file, end + |b|));
  }

  lemma FrontOfWritten(front: Bytes, back: Bytes)
    ensures Front(front + back, |front|) == front
  {
  }

  lemma BackOfWritten(front: Bytes, file: Bytes, n: nat)
    ensures Back(front + Back(file, |front|), |front| + n) == Back(file, |front| + n)
  {
  }

  lemma Rebracket(front: Bytes, a: Bytes, b: Bytes, back: Bytes)
    ensures (front + a) + b + back == front + (a + b) + back
  {
    assert (front + a) + b == front + (a + b);
  }

  /** Writing the whole of something over the first n bytes of it leaves no trace of the first write. */
  lemma WriteOver(file: Bytes, position: nat, data: Bytes, n: nat)
    requires n <= |data|
    ensures WriteAt(WriteAt(file, position, data[..n]), position, data) == WriteAt(file, position, data)
  {
    var some := WriteAt(file, position, data[..n]);
    if n > 0 {
      assert Front(some, position) == Front(file, position);
      assert Back(some, position + |data|) == Back(file, position + |data|);
    }
  }

  /** The byte at every offset after a write: new inside the range, old or hole outside. */
  lemma WriteAtByte(file: Bytes, position: nat, data: Bytes, p: nat)
    requires p < |WriteAt(file, position, data)|
    ensures WriteAt(file, position, data)[p] ==
            if position <= p < position + |data| then data[p - position]
            else if p < |file| then file[p] else 0
    ensures |WriteAt(file, position, data)| == if data == [] then |file| else Max(|file|, position + |data|)
  {
  }

  // ---- cutting a file into chunks ----

  function ChunkCount(size: nat, chunkSize: nat): nat
    requires chunkSize > 0
  {
    if size == 0 then 1 else (size + chunkSize - 1) / chunkSize
  }

  function Upto(size: nat, chunkSize: nat, k: nat): nat {
    Min(k * chunkSize, size)
  }

  lemma UptoMonotone(size: nat, chunkSize: nat, i: nat, j: nat)
    requires i <= j
    ensures i * chunkSize <= j * chunkSize
    ensures Upto(size, chunkSize, i) <= Upto(size, chunkSize, j)
  {
  }

  function Chunk(source: Bytes, chunkSize: nat, i: nat): Bytes {
    UptoMonotone(|source|, chunkSize, i, i + 1);
    source[Upto(|source|, chunkSize, i)..Upto(|source|, chunkSize, i + 1)]
  }

  function Chunks(source: Bytes, chunkSize: nat): seq<Bytes>
    requires chunkSize > 0
  {
    seq(ChunkCount(|source|, chunkSize), i requires 0 <= i => Chunk(source, chunkSize, i))
  }

  /** All the chunks reach the end of the file, and every chunk but an only one starts inside it. */
  lemma ChunkBounds(size: nat, chunkSize: nat, k: nat)
    requires chunkSize > 0
    ensures Upto(size, chunkSize, ChunkCount(size, chunkSize)) == size
    ensures k < ChunkCount(size, chunkSize) ==> k * chunkSize <= size
    ensures 0 < k < ChunkCount(size, chunkSize) ==> k * chunkSize < size
  {
    var n := ChunkCount(size, chunkSize);
    if size > 0 {
      assert n * chunkSize + (size + chunkSize - 1) % chunkSize == size + chunkSize - 1;
      if k < n {
        UptoMonotone(size, chunkSize, k, n - 1);
        assert (n - 1) * chunkSize == n * chunkSize - chunkSize;
      }
    }
  }

  lemma ChunkLength(source: Bytes, chunkSize: nat, i: nat)
    ensures |Chunk(source, chunkSize, i)| <= chunkSize
  {
    assert (i + 1) * chunkSize == i * chunkSize + chunkSize;
  }

  /** Writing chunk k behind the first k chunks gives the first k + 1 chunks. */
  lemma WriteNextChunk(source: Bytes, chunkSize: nat, k: nat)
    requires chunkSize > 0
    requires k < ChunkCount(|source|, chunkSize)
    ensures WriteAt(source[..Upto(|source|, chunkSize, k)], k * chunkSize, Chunk(source, chunkSize, k))
            == source[..Upto(|source|, chunkSize, k + 1)]
  {
    ChunkBounds(|source|, chunkSize, k);
    UptoMonotone(|source|, chunkSize, k, k + 1);
    var done, upto := Upto(|source|, chunkSize, k), Upto(|source|, chunkSize, k + 1);
    assert done == k * chunkSize;
    assert source[..done] + source[done..upto] == source[..upto];
  }

  // ---- any order of chunk writes ----

  /** The file after chunk writes in the given order, each at its own position. */
  function WriteChunks(source: Bytes, chunkSize: nat, order: seq<nat>): Bytes {
    if order == [] then []
    else WriteAt(WriteChunks(source, chunkSize, order[..|order| - 1]),
                 order[|order| - 1] * chunkSize,
                 Chunk(source, chunkSize, order[|order| - 1]))
  }

  /** Every byte whose chunk was written is in place, and the file never outgrows the source. */
  lemma {:induction false} WrittenByte(source: Bytes, chunkSize: nat, order: seq<nat>, p: nat)
    requires chunkSize > 0
    ensures |WriteChunks(source, chunkSize, order)| <= |source|
    ensures p < |source| && p / chunkSize in order ==>
              p < |WriteChunks(source, chunkSize, order)| && WriteChunks(source, chunkSize, order)[p] == source[p]
  {
    if order != [] {
      var front, k := order[..|order| - 1], order[|order| - 1];
      assert order == front + [k];
      WrittenByte(source, chunkSize, front, p);
      OneMoreChunk(source, chunkSize, WriteChunks(source, chunkSize, front), k, p);
    }
  }

  lemma OneMoreChunk(source: Bytes, chunkSize: nat, before: Bytes, k: nat, p: nat)
    requires chunkSize > 0 && |before| <= |source|
    ensures var after := WriteAt(before, k * chunkSize, Chunk(source, chunkSize, k));
            && |before| <= |after| <= |source|
            && (p < |source| && (p / chunkSize == k || (p < |before| && before[p] == source[p])) ==>
                  p < |after| && after[p] == source[p])
  {
    var data := Chunk(source, chunkSize, k);
    var after := WriteAt(before, k * chunkSize, data);
    UptoMonotone(|source|, chunkSize, k, k + 1);
    if data != [] {
      assert k * chunkSize + |data| == Upto(|source|, chunkSize, k + 1);
      DivisionRange(p, chunkSize, k);
      if p < |after| {
        WriteAtByte(before, k * chunkSize, data, p);
      }
    } else if p < |source| {
      DivisionRange(p, chunkSize, k);
    }
  }

  lemma DivisionRange(p: nat, chunkSize: nat, k: nat)
    requires chunkSize > 0
    ensures p / chunkSize == k <==> k * chunkSize <= p < (k + 1) * chunkSize
  {
    var q := p / chunkSize;
    assert q * chunkSize <= p < (q + 1) * chunkSize;
    if k < q {
      UptoMonotone(0, chunkSize, k + 1, q);
    } else if q < k {
      UptoMonotone(0, chunkSize, q + 1, k);
    }
  }

  lemma ChunkOfByte(size: nat, chunkSize: nat, p: nat)
    requires chunkSize > 0 && p < size
    ensures p / chunkSize < ChunkCount(size, chunkSize)
  {
    var n, k := ChunkCount(size, chunkSize), p / chunkSize;
    ChunkBounds(size, chunkSize, 0);
    DivisionRange(p, chunkSize, k);
    if n <= k {
      UptoMonotone(size, chunkSize, n, k);
      assert false;
    }
  }

  /** Out-of-order and repeated delivery included: once every chunk was written, the file is the source. */
  lemma AnyOrderGivesTheSource(source: Bytes, chunkSize: nat, order: seq<nat>)
    requires chunkSize > 0
    requires Covers(order, ChunkCount(|source|, chunkSize))
    ensures WriteChunks(source, chunkSize, order) == source
  {
    hide WriteChunks;
    var file := WriteChunks(source, chunkSize, order);
    WrittenByte(source, chunkSize, order, 0);
    if source != [] {
      CoveredByte(source, chunkSize, order, |source| - 1);
    }
    forall p | 0 <= p < |source|
      ensures file[p] == source[p]
    {
      CoveredByte(source, chunkSize, order, p);
    }
  }

  ghost predicate Covers(order: seq<nat>, n: nat) {
    forall i :: 0 <= i < n ==> i in order
  }

  lemma CoveredByte(source: Bytes, chunkSize: nat, order: seq<nat>, p: nat)
    requires chunkSize > 0 && p < |source|
    requires Covers(order, ChunkCount(|source|, chunkSize))
    ensures p < |WriteChunks(source, chunkSize, order)| && WriteChunks(source, chunkSize, order)[p] == source[p]
  {
    hide WriteChunks;
    var k := p / chunkSize;
    assert k in order by {
      ChunkOfByte(|source|, chunkSize, p);
    }
    WrittenByte(source, chunkSize, order, p);
  }

  // ---- when some of the writes were lost ----

  /** The first n chunks in order, each at its own position, but for those that were missed. */
  function WriteKept(source: Bytes, chunkSize: nat, missed: set<nat>, n: nat): Bytes {
    if n == 0 then []
    else
      var before := WriteKept(source, chunkSize, missed, n - 1);
      if n - 1 in missed then before else WriteAt(before, (n - 1) * chunkSize, Chunk(source, chunkSize, n - 1))
  }

  /** A chunk missed at or past the n-th makes no difference to the first n. */
  lemma {:induction false} MissedLater(source: Bytes, chunkSize: nat, missed: set<nat>, n: nat, k: nat)
    requires n <= k
    ensures WriteKept(source, chunkSize, missed + {k}, n) == WriteKept(source, chunkSize, missed, n)
  {
    hide WriteAt, Chunk;
    if n > 0 {
      MissedLater(source, chunkSize, missed, n - 1, k);
    }
  }

  /** How far the file reaches then: to the end of the last chunk that was not missed. */
  function KeptEnd(size: nat, chunkSize: nat, missed: set<nat>, n: nat): nat {
    if n == 0 then 0
    else if n - 1 in missed then KeptEnd(size, chunkSize, missed, n - 1)
    else Upto(size, chunkSize, n)
  }

  lemma {:induction false} KeptEndBounds(size: nat, chunkSize: nat, missed: set<nat>, n: nat, j: nat)
    ensures KeptEnd(size, chunkSize, missed, n) <= Upto(size, chunkSize, n)
    ensures j < n && j !in missed ==> Upto(size, chunkSize, j + 1) <= KeptEnd(size, chunkSize, missed, n)
  {
    hide Upto;
    if n > 0 {
      KeptEndBounds(size, chunkSize, missed, n - 1, j);
      UptoMonotone(size, chunkSize, n - 1, n);
      UptoMonotone(size, chunkSize, if j < n then j + 1 else n, n);
    } else {
      NothingUpto(size, chunkSize);
    }
  }

  lemma NothingUpto(size: nat, chunkSize: nat)
    ensures Upto(size, chunkSize, 0) == 0
  {
  }

  /** The bytes of a kept chunk are in place, those of a missed one are zero or not there at all. */
  lemma {:induction false} KeptByte(source: Bytes, chunkSize: nat, missed: set<nat>, n: nat, p: nat)
    requires chunkSize > 0 && n <= ChunkCount(|source|, chunkSize)
    ensures |WriteKept(source, chunkSize, missed, n)| == KeptEnd(|source|, chunkSize, missed, n) <= |source|
    ensures p < |WriteKept(source, chunkSize, missed, n)| ==>
              WriteKept(source, chunkSize, missed, n)[p] == if p / chunkSize in missed then 0 else source[p]
  {
    hide ChunkCount, WriteAt, Chunk;
    if n > 0 {
      var k, before := n - 1, WriteKept(source, chunkSize, missed, n - 1);
      KeptByte(source, chunkSize, missed, k, p);
      if k !in missed {
        KeptOne(source, chunkSize, missed, k, before, p);
      }
    }
  }

  /** Where a chunk lies in its file. */
  lemma ChunkSpan(source: Bytes, chunkSize: nat, k: nat, i: nat)
    requires chunkSize > 0 && k < ChunkCount(|source|, chunkSize)
    ensures var at := k * chunkSize;
            && at + |Chunk(source, chunkSize, k)| == Upto(|source|, chunkSize, k + 1) <= |source|
            && at == Upto(|source|, chunkSize, k)
            && (i < |Chunk(source, chunkSize, k)| ==> Chunk(source, chunkSize, k)[i] == source[at + i])
  {
    hide ChunkCount;
    ChunkBounds(|source|, chunkSize, k);
    UptoMonotone(|source|, chunkSize, k, k + 1);
  }

  lemma KeptOne(source: Bytes, chunkSize: nat, missed: set<nat>, k: nat, before: Bytes, p: nat)
    requires chunkSize > 0 && k < ChunkCount(|source|, chunkSize) && k !in missed
    requires |before| == KeptEnd(|source|, chunkSize, missed, k)
    requires p < |before| ==> p < |source| && before[p] == if p / chunkSize in missed then 0 else source[p]
    ensures var after := WriteAt(before, k * chunkSize, Chunk(source, chunkSize, k));
            && |after| == Upto(|source|, chunkSize, k + 1) <= |source|
            && (p < |after| ==> after[p] == if p / chunkSize in missed then 0 else source[p])
  {
    hide ChunkCount, Chunk, Upto, KeptEnd, WriteAt, Front, Back;
    var data, at := Chunk(source, chunkSize, k), k * chunkSize;
    KeptEndBounds(|source|, chunkSize, missed, k, 0);
    ChunkSpan(source, chunkSize, k, if at <= p then p - at else 0);
    WrittenLength(before, at, data);
    if data == [] {
      EmptyChunk(source, chunkSize, k);
    }
    if at <= p < at + |data| {
      ChunkLength(source, chunkSize, k);
      InChunk(p, chunkSize, k);
    } else if |before| <= p < at {
      HoleIsMissed(|source|, chunkSize, missed, k, p);
    }
    ByteAfter(source, before, at, data, p, p / chunkSize in missed);
  }

  lemma ByteAfter(source: Bytes, before: Bytes, at: nat, data: Bytes, p: nat, missed: bool)
    requires p < |before| ==> p < |source| && before[p] == if missed then 0 else source[p]
    requires at <= p < at + |data| ==> !missed && p < |source| && data[p - at] == source[p]
    requires |before| <= p < at ==> missed
    ensures p < |WriteAt(before, at, data)| ==>
              if missed then WriteAt(before, at, data)[p] == 0
              else p < |source| && WriteAt(before, at, data)[p] == source[p]
  {
    if p < |WriteAt(before, at, data)| {
      WriteAtByte(before, at, data, p);
    }
  }

  lemma WrittenLength(file: Bytes, position: nat, data: Bytes)
    ensures |WriteAt(file, position, data)| == if data == [] then |file| else Max(|file|, position + |data|)
  {
  }

  /** Only an empty file has an empty chunk, and it is the only one. */
  lemma EmptyChunk(source: Bytes, chunkSize: nat, k: nat)
    requires chunkSize > 0 && k < ChunkCount(|source|, chunkSize) && Chunk(source, chunkSize, k) == []
    ensures k * chunkSize == 0
  {
    hide ChunkCount;
    ChunkBounds(|source|, chunkSize, k);
  }

  lemma InChunk(p: nat, chunkSize: nat, k: nat)
    requires chunkSize > 0 && k * chunkSize <= p < k * chunkSize + chunkSize
    ensures p / chunkSize == k
  {
    assert (k + 1) * chunkSize == k * chunkSize + chunkSize;
    DivisionRange(p, chunkSize, k);
  }

  lemma HoleIsMissed(size: nat, chunkSize: nat, missed: set<nat>, k: nat, p: nat)
    requires chunkSize > 0 && KeptEnd(size, chunkSize, missed, k) <= p < k * chunkSize <= size
    ensures p / chunkSize in missed
  {
    var j := p / chunkSize;
    DivisionRange(p, chunkSize, j);
    if k <= j {
      MultiplyMonotone(k, j, chunkSize);
    }
    KeptEndBounds(size, chunkSize, missed, k, j);
  }

  /** A missed chunk does no harm if it is empty, or if it is all zeros and not the last. */
  ghost predicate Harmless(source: Bytes, chunkSize: nat, missed: set<nat>)
    requires chunkSize > 0
  {
    forall k :: k in missed && k < ChunkCount(|source|, chunkSize) ==>
      var chunk := Chunk(source, chunkSize, k);
      chunk == [] || (k + 1 < ChunkCount(|source|, chunkSize) && chunk == Zeros(|chunk|))
  }

  /** Exactly when the missed chunks were harmless is the file still the source. */
  lemma KeptIsSource(source: Bytes, chunkSize: nat, missed: set<nat>)
    requires chunkSize > 0
    ensures WriteKept(source, chunkSize, missed, ChunkCount(|source|, chunkSize)) == source <==>
            Harmless(source, chunkSize, missed)
  {
    hide ChunkCount, Chunk, WriteKept;
    if Harmless(source, chunkSize, missed) {
      HarmlessKept(source, chunkSize, missed);
    }
    if WriteKept(source, chunkSize, missed, ChunkCount(|source|, chunkSize)) == source {
      forall k | k in missed && k < ChunkCount(|source|, chunkSize)
        ensures var chunk := Chunk(source, chunkSize, k);
                chunk == [] || (k + 1 < ChunkCount(|source|, chunkSize) && chunk == Zeros(|chunk|))
      {
        KeptHarmless(source, chunkSize, missed, k);
      }
    }
  }

  lemma LastChunk(source: Bytes, chunkSize: nat)
    requires chunkSize > 0 && source != []
    ensures var n := ChunkCount(|source|, chunkSize);
            && n > 0 && Upto(|source|, chunkSize, n) == |source| && Upto(|source|, chunkSize, n - 1) < |source|
            && Chunk(source, chunkSize, n - 1) != []
  {
    var n := ChunkCount(|source|, chunkSize);
    ChunkBounds(|source|, chunkSize, n - 1);
    UptoMonotone(|source|, chunkSize, n - 1, n);
  }

  lemma HarmlessKept(source: Bytes, chunkSize: nat, missed: set<nat>)
    requires chunkSize > 0 && Harmless(source, chunkSize, missed)
    ensures WriteKept(source, chunkSize, missed, ChunkCount(|source|, chunkSize)) == source
  {
    hide ChunkCount, Chunk, WriteKept, Upto;
    var n := ChunkCount(|source|, chunkSize);
    var file := WriteKept(source, chunkSize, missed, n);
    KeptByte(source, chunkSize, missed, n, 0);
    if source != [] {
      LastChunk(source, chunkSize);
      assert n - 1 !in missed;
      assert KeptEnd(|source|, chunkSize, missed, n) == Upto(|source|, chunkSize, n);
      forall p | 0 <= p < |source|
        ensures file[p] == source[p]
      {
        KeptByte(source, chunkSize, missed, n, p);
        ChunkOfByte(|source|, chunkSize, p);
        ByteOfChunk(source, chunkSize, p);
      }
    }
  }

  lemma ByteOfChunk(source: Bytes, chunkSize: nat, p: nat)
    requires chunkSize > 0 && p < |source|
    ensures var k := p / chunkSize;
            var chunk := Chunk(source, chunkSize, k);
            k * chunkSize <= p && p - k * chunkSize < |chunk| && chunk[p - k * chunkSize] == source[p]
  {
    var k := p / chunkSize;
    DivisionRange(p, chunkSize, k);
    UptoMonotone(|source|, chunkSize, k, k + 1);
  }

  lemma KeptHarmless(source: Bytes, chunkSize: nat, missed: set<nat>, k: nat)
    requires chunkSize > 0 && k in missed && k < ChunkCount(|source|, chunkSize)
    requires WriteKept(source, chunkSize, missed, ChunkCount(|source|, chunkSize)) == source
    ensures var chunk := Chunk(source, chunkSize, k);
            chunk == [] || (k + 1 < ChunkCount(|source|, chunkSize) && chunk == Zeros(|chunk|))
  {
    hide ChunkCount, Chunk, WriteKept, Upto;
    var n, chunk := ChunkCount(|source|, chunkSize), Chunk(source, chunkSize, k);
    KeptByte(source, chunkSize, missed, n, 0);
    if chunk != [] {
      ChunkInside(source, chunkSize, k, 0);
      LastChunk(source, chunkSize);
      KeptEndBounds(|source|, chunkSize, missed, n - 1, 0);
      forall i | 0 <= i < |chunk|
        ensures chunk[i] == 0
      {
        ChunkInside(source, chunkSize, k, i);
        KeptByte(source, chunkSize, missed, n, k * chunkSize + i);
      }
      assert chunk == Zeros(|chunk|);
    }
  }

  lemma ChunkInside(source: Bytes, chunkSize: nat, k: nat, i: nat)
    requires chunkSize > 0 && i < |Chunk(source, chunkSize, k)|
    ensures var p := k * chunkSize + i;
            p < |source| && p / chunkSize == k && source[p] == Chunk(source, chunkSize, k)[i]
  {
    UptoMonotone(|source|, chunkSize, k, k + 1);
    assert (k + 1) * chunkSize == k * chunkSize + chunkSize;
    DivisionRange(k * chunkSize + i, chunkSize, k);
  }
}
