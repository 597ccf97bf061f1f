/**
  The streaming digest: a hash per chunk, kept by index, and one hash over all of them in order.
  The hash itself is a parameter; all that is used of it is that its outputs have one length.
 */
module Digest {
  import opened Common
  import opened Files

  const HASH_BYTES: nat := 32

  // ---- hashes by index ----

  /** Stores by index; a gap below it stays empty. */
  function Update<T>(hashes: seq<Option<T>>, index: nat, hash: T): seq<Option<T>> {
    if index < |hashes| then hashes[index := Some(hash)]
    else hashes + seq(index - |hashes|, _ => None) + [Some(hash)]
  }

  /** All hashes in order, or nothing if one is missing. */
  function Present<T>(hashes: seq<Option<T>>): Option<seq<T>> {
    if hashes == [] then Some([])
    else if hashes[0].None? then None
    else
      var rest := Present(hashes[1..]);
      if rest.None? then None else Some([hashes[0].value] + rest.value)
  }

  lemma {:induction false} PresentMeans<T>(hashes: seq<Option<T>>)
    ensures Present(hashes).Some? <==> forall i :: 0 <= i < |hashes| ==> hashes[i].Some?
    ensures Present(hashes).Some? ==>
              && |Present(hashes).value| == |hashes|
              && forall i :: 0 <= i < |hashes| ==> hashes[i] == Some(Present(hashes).value[i])
  {
    if hashes != [] {
      PresentMeans(hashes[1..]);
      assert hashes == [hashes[0]] + hashes[1..];
    }
  }

  /** The next index in line makes the list one longer. */
  lemma UpdateNext<T>(hashes: seq<Option<T>>, hash: T)
    ensures Update(hashes, |hashes|, hash) == hashes + [Some(hash)]
  {
  }

  lemma {:induction false} PresentAppend<T>(hashes: seq<Option<T>>, hash: T)
    requires Present(hashes).Some?
    ensures Present(hashes + [Some(hash)]) == Some(Present(hashes).value + [hash])
  {
    if hashes != [] {
      assert (hashes + [Some(hash)])[1..] == hashes[1..] + [Some(hash)];
      PresentAppend(hashes[1..], hash);
      var rest := Present(hashes[1..]).value;
      assert [hashes[0].value] + (rest + [hash]) == ([hashes[0].value] + rest) + [hash];
    } else {
      var one := [Some(hash)];
      assert hashes + one == one && one[1..] == [];
      assert [hash] + [] == [] + [hash];
    }
  }

  // ---- the digest as bytes ----

  function Concat(parts: seq<Bytes>): Bytes {
    if parts == [] then [] else parts[0] + Concat(parts[1..])
  }

  function HashAll(sha: Bytes -> Bytes, chunks: seq<Bytes>): seq<Bytes> {
    seq(|chunks|, i requires 0 <= i < |chunks| => sha(chunks[i]))
  }

  /** What both ends mean by the digest of a file cut into these chunks. */
  function DigestOf(sha: Bytes -> Bytes, chunks: seq<Bytes>): Bytes {
    sha(Concat(HashAll(sha, chunks)))
  }

  class ChunkDigest {
    const sha: Bytes -> Bytes
    var hashes: seq<Option<Bytes>>

    constructor (sha: Bytes -> Bytes)
      ensures this.sha == sha && hashes == []
    {
      this.sha := sha;
      hashes := [];
    }

    method UpdateChunk(index: nat, bytes: Bytes)
      modifies this`hashes
      ensures hashes == Update(old(hashes), index, sha(bytes))
    {
      if index < |hashes| {
        hashes := hashes[index := Some(sha(bytes))];
      } else {
        hashes := hashes + seq(index - |hashes|, _ => None) + [Some(sha(bytes))];
      }
    }

    /** Nothing when a chunk is missing, however many came after it. */
    method Final() returns (digest: Option<Bytes>)
      ensures digest == match Present(hashes) case None => None case Some(hs) => Some(sha(Concat(hs)))
      ensures digest.None? <==> exists i :: 0 <= i < |hashes| && hashes[i].None?
    {
      PresentMeans(hashes);
      var present: seq<Bytes> := [];
      for i := 0 to |hashes|
        invariant |present| == i && forall j :: 0 <= j < i ==> hashes[j] == Some(present[j])
      {
        if hashes[i].None? { return None; }
        present := present + [hashes[i].value];
      }
      assert present == Present(hashes).value;
      return Some(sha(Concat(present)));
    }
  }

  /** The one-shot digest of a whole buffer; a file of no bytes is one empty chunk. */
  method DigestBytes(sha: Bytes -> Bytes, bytes: Bytes, chunkSize: nat) returns (digest: Option<Bytes>)
    requires chunkSize > 0
    ensures digest == Some(DigestOf(sha, Chunks(bytes, chunkSize)))
  {
    var d := new ChunkDigest(sha);
    var index, offset := 0, 0;
    ghost var chunks := Chunks(bytes, chunkSize);
    ChunkBounds(|bytes|, chunkSize, 0);
    while offset < |bytes|
      invariant fresh(d) && d.sha == sha && offset == index * chunkSize
      invariant index <= |chunks| && (offset >= |bytes| && bytes != [] ==> index == |chunks|)
      invariant |d.hashes| == index && forall i :: 0 <= i < index ==> d.hashes[i] == Some(sha(chunks[i]))
      decreases |bytes| - offset
    {
      NextChunk(bytes, chunkSize, index);
      d.UpdateChunk(index, bytes[offset..Min(offset + chunkSize, |bytes|)]);
      index := index + 1;
      offset := offset + chunkSize;
    }
    if index == 0 {
      d.UpdateChunk(0, []);
      assert chunks == [[]];
    }
    PresentMeans(d.hashes);
    assert Present(d.hashes).value == HashAll(sha, chunks);
    digest := d.Final();
  }

  lemma NextChunk(bytes: Bytes, chunkSize: nat, index: nat)
    requires chunkSize > 0 && index * chunkSize < |bytes|
    ensures index < ChunkCount(|bytes|, chunkSize)
    ensures (index + 1) * chunkSize == index * chunkSize + chunkSize
    ensures bytes[index * chunkSize..Min(index * chunkSize + chunkSize, |bytes|)] == Chunk(bytes, chunkSize, index)
    ensures (index + 1) * chunkSize >= |bytes| ==> index + 1 == ChunkCount(|bytes|, chunkSize)
  {
    var n := ChunkCount(|bytes|, chunkSize);
    assert (index + 1) * chunkSize == index * chunkSize + chunkSize;
    ChunkBounds(|bytes|, chunkSize, index + 1);
    if n <= index {
      MultiplyMonotone(n, index, chunkSize);
    }
  }

  // ---- any order of updates ----

  /** The hashes after updates in the given order. */
  function AfterUpdates<T>(hash: seq<T>, order: seq<nat>): seq<Option<T>>
    requires forall i :: 0 <= i < |order| ==> order[i] < |hash|
  {
    if order == [] then []
    else Update(AfterUpdates(hash, order[..|order| - 1]), order[|order| - 1], hash[order[|order| - 1]])
  }

  /** The hashes hold exactly what was updated: each seen index its hash, every gap nothing. */
  ghost predicate Holds<T>(hs: seq<Option<T>>, hash: seq<T>, order: seq<nat>) {
    && |hs| <= |hash|
    && (forall k :: k in order ==> k < |hs|)
    && (forall k :: 0 <= k < |hs| ==> hs[k] == if k in order then Some(hash[k]) else None)
    && (hs != [] ==> |hs| - 1 in order)
  }

  lemma {:induction false} UpdatesByIndex<T>(hash: seq<T>, order: seq<nat>)
    requires forall i :: 0 <= i < |order| ==> order[i] < |hash|
    ensures Holds(AfterUpdates(hash, order), hash, order)
  {
    if order != [] {
      var front, k := order[..|order| - 1], order[|order| - 1];
      UpdatesByIndex(hash, front);
      OneMoreUpdate(AfterUpdates(hash, front), hash, front, k);
      assert order == front + [k];
    }
  }

  lemma OneMoreUpdate<T>(hs: seq<Option<T>>, hash: seq<T>, order: seq<nat>, k: nat)
    requires Holds(hs, hash, order) && k < |hash|
    ensures Holds(Update(hs, k, hash[k]), hash, order + [k])
  {
  }

  /**
    Order and repetition do not matter, gaps do: the final digest exists exactly when the indices
    seen are 0 to m - 1 for some m, and then it is the digest of those m chunks.
   */
  lemma AnyOrderSameDigest(sha: Bytes -> Bytes, chunks: seq<Bytes>, order: seq<nat>)
    requires forall i :: 0 <= i < |order| ==> order[i] < |chunks|
    ensures var hs := AfterUpdates(HashAll(sha, chunks), order);
            && |hs| <= |chunks|
            && (Present(hs).Some? <==> Covers(order, |hs|))
            && (Present(hs).Some? ==> sha(Concat(Present(hs).value)) == DigestOf(sha, chunks[..|hs|]))
            && (Covers(order, |chunks|) ==> |hs| == |chunks|)
  {
    var hashes := HashAll(sha, chunks);
    var hs := AfterUpdates(hashes, order);
    UpdatesByIndex(hashes, order);
    PresentMeans(hs);
    if Present(hs).Some? {
      assert Present(hs).value == HashAll(sha, chunks[..|hs|]);
    }
    if Covers(order, |chunks|) && chunks != [] {
      assert |chunks| - 1 in order;
    }
  }

  // ---- faithfulness ----

  /** Fixed-length pieces can be read back out of their concatenation. */
  lemma {:induction false} ConcatFixed(a: seq<Bytes>, b: seq<Bytes>, width: nat)
    requires width > 0
    requires forall i :: 0 <= i < |a| ==> |a[i]| == width
    requires forall i :: 0 <= i < |b| ==> |b[i]| == width
    requires Concat(a) == Concat(b)
    ensures a == b
  {
    if a != [] && b != [] {
      assert Concat(a)[..width] == a[0] && Concat(a)[width..] == Concat(a[1..]);
      assert Concat(b)[..width] == b[0] && Concat(b)[width..] == Concat(b[1..]);
      ConcatFixed(a[1..], b[1..], width);
      assert a == [a[0]] + a[1..] && b == [b[0]] + b[1..];
    }
  }

  /**
    Equal digests come from equal chunks, or else the two computations themselves hold two different
    inputs with one hash: `x` and `y`, both among what was hashed.
   */
  lemma EqualDigestsEqualChunks(sha: Bytes -> Bytes, a: seq<Bytes>, b: seq<Bytes>)
    returns (x: Bytes, y: Bytes)
    requires forall input :: |sha(input)| == HASH_BYTES
    requires DigestOf(sha, a) == DigestOf(sha, b)
    ensures a == b || (x != y && sha(x) == sha(y))
    ensures a == b || (x == Concat(HashAll(sha, a)) && y == Concat(HashAll(sha, b))) || (x in a && y in b)
  {
    var ha, hb := HashAll(sha, a), HashAll(sha, b);
    x, y := Concat(ha), Concat(hb);
    if x == y {
      ConcatFixed(ha, hb, HASH_BYTES);
      assert |a| == |b|;
      if i :| 0 <= i < |a| && a[i] != b[i] {
        x, y := a[i], b[i];
        assert ha[i] == hb[i];
      }
    }
  }
}
