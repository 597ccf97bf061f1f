/**
  The relay pipeline, one call at a time: sealing and uploading a file part by part with retries,
  and fetching it back. Faults come from a network that decides the fate of every attempt.
 */
module Relay {
  import opened Common
  import opened Files
  import opened Store
  import Digest
  import Wire

  const PART_ATTEMPTS: nat := 6

  /** What one attempt at a part request meets; a server error counts as a lost request. */
  datatype Fate = Delivered | RequestLost | ResponseLost

  /** The fate and the arrival time of every attempt, by part and attempt, and of the control requests. */
  datatype Network = Network(
    fate: (nat, nat) -> Fate,
    clock: (nat, nat) -> nat,
    completes: bool,
    mails: bool,
    deletes: bool)

  /** One file on its way to one recipient; `ephemeral` stands for the key pair made for it. */
  datatype Parcel = Parcel(
    from: DeviceId,
    to: DeviceId,
    source: Bytes,
    partSize: nat,
    ephemeral: nat,
    prefix: Bytes,
    blobId: BlobId)

  function Parts(p: Parcel): nat
    requires p.partSize > 0
  {
    ChunkCount(|p.source|, p.partSize)
  }

  function SealPart(p: Parcel, index: nat): Sealed {
    Sealed(ContentKey(p.ephemeral, p.to), Wire.PartNonce(p.prefix, index), p.blobId, index,
           Chunk(p.source, p.partSize, index))
  }

  function Wrap(p: Parcel, digest: seq<Bytes>): Envelope
    requires p.partSize > 0
  {
    Envelope(p.blobId, ReadToken(p.blobId), Parts(p), p.partSize, |p.source|, p.ephemeral, p.prefix,
             SealedMeta(MetaKey(p.ephemeral, p.to), Metadata(|p.source|, p.partSize, digest)), p.from, p.from)
  }

  /** The digest is symbolic: it is the list of parts it was computed over. */
  function EnvelopeOf(p: Parcel): Envelope
    requires p.partSize > 0
  {
    Wrap(p, Chunks(p.source, p.partSize))
  }

  /** The hashes of the first parts of a file, in order and without a gap. */
  ghost predicate HashesOf(hashes: seq<Option<Bytes>>, source: Bytes, partSize: nat) {
    forall i :: 0 <= i < |hashes| ==> hashes[i] == Some(Chunk(source, partSize, i))
  }

  lemma NextHash(hashes: seq<Option<Bytes>>, source: Bytes, partSize: nat)
    requires HashesOf(hashes, source, partSize)
    ensures var hs := Digest.Update(hashes, |hashes|, Chunk(source, partSize, |hashes|));
            |hs| == |hashes| + 1 && HashesOf(hs, source, partSize)
  {
    hide Chunk;
    Digest.UpdateNext(hashes, Chunk(source, partSize, |hashes|));
  }

  lemma WholeDigest(hashes: seq<Option<Bytes>>, source: Bytes, partSize: nat)
    requires partSize > 0 && HashesOf(hashes, source, partSize) && |hashes| == ChunkCount(|source|, partSize)
    ensures Digest.Present(hashes) == Some(Chunks(source, partSize))
  {
    hide Chunk, ChunkCount;
    Digest.PresentMeans(hashes);
    assert Digest.Present(hashes).value == Chunks(source, partSize);
  }

  datatype Opened = Opened(contentKey: Key, metadata: Metadata, prefix: Bytes)

  /** The signature says who sent it, and only the recipient derives the keys. */
  function OpenEnvelope(me: DeviceId, peer: DeviceId, envelope: Envelope): Option<Opened> {
    if envelope.signer != peer then None
    else if envelope.meta.key != MetaKey(envelope.ephemeral, me) then None
    else Some(Opened(ContentKey(envelope.ephemeral, me), envelope.meta.metadata, envelope.prefix))
  }

  // ---- sending ----

  /** The first attempt at a part that is answered, if one of the first six is. */
  ghost predicate Answered(net: Network, index: nat, attempt: nat) {
    && 1 <= attempt <= PART_ATTEMPTS && net.fate(index, attempt) == Delivered
    && forall k :: 1 <= k < attempt ==> net.fate(index, k) != Delivered
  }

  ghost predicate InTime(net: Network, index: nat, deadline: nat) {
    exists attempt :: Answered(net, index, attempt) && net.clock(index, attempt) < deadline
  }

  ghost predicate AllInTime(net: Network, n: nat, deadline: nat) {
    forall i :: 0 <= i < n ==> InTime(net, i, deadline)
  }

  function SealedParts(p: Parcel, n: nat): map<(BlobId, nat), Sealed> {
    map k | k in PartKeys(p.blobId, n) :: SealPart(p, k.1)
  }

  /** The store once the first n parts are in, each sent once. */
  function Uploaded(s: Store, p: Parcel, now: nat, n: nat): Store
    requires p.partSize > 0
  {
    Store(
      s.blobs[p.blobId := Blob(p.from, p.to, Parts(p), false, n, WriteToken(p.blobId), ReadToken(p.blobId), now + TTL)],
      s.parts + SealedParts(p, n),
      s.mailboxes)
  }

  /** The same, and the blob declared complete. */
  function Finished(s: Store, p: Parcel, now: nat): Store
    requires p.partSize > 0
  {
    var uploaded := Uploaded(s, p, now, Parts(p));
    uploaded.(blobs := uploaded.blobs[p.blobId := uploaded.blobs[p.blobId].(complete := true)])
  }

  /** The store after an upload in which nothing was ever lost. */
  function Parked(s: Store, p: Parcel, now: nat, entry: EntryId): Store
    requires p.partSize > 0
  {
    SendMail(Finished(s, p, now), p.from, p.to, EnvelopeOf(p), entry)
  }

  ghost predicate NotThere(s: Store, id: BlobId) {
    id !in s.blobs && forall i: nat :: (id, i) !in s.parts
  }

  /** Two stores that differ in one blob at most. */
  ghost predicate SameButFor(s: Store, s': Store, id: BlobId) {
    && s'.mailboxes == s.mailboxes && s'.blobs - {id} == s.blobs - {id}
    && forall k :: k in s.parts.Keys + s'.parts.Keys && k.0 != id ==>
                     k in s.parts && k in s'.parts && s'.parts[k] == s.parts[k]
  }

  lemma {:induction false} PutFirst(s: Store, p: Parcel, now: nat, n: nat, at: nat)
    requires p.partSize > 0 && NotThere(s, p.blobId) && n < Parts(p)
    ensures PutPart(Uploaded(s, p, now, n), p.blobId, n, WriteToken(p.blobId), SealPart(p, n), at) ==
            if now + TTL <= at then (Uploaded(s, p, now, n), Gone) else (Uploaded(s, p, now, n + 1), Ok)
  {
    hide SealPart, ChunkCount;
    var before, after := Uploaded(s, p, now, n), Uploaded(s, p, now, n + 1);
    assert (p.blobId, n) !in before.parts;
    assert PartKeys(p.blobId, n + 1) == PartKeys(p.blobId, n) + {(p.blobId, n)};
    assert before.parts[(p.blobId, n) := SealPart(p, n)] == after.parts;
    assert before.blobs[p.blobId := before.blobs[p.blobId].(received := n + 1)] == after.blobs;
  }

  /** Sent again after a lost response, a part changes nothing: not the bytes, not the count. */
  lemma {:induction false} PutAgain(s: Store, p: Parcel, now: nat, n: nat, at: nat)
    requires p.partSize > 0 && NotThere(s, p.blobId) && n < Parts(p)
    ensures PutPart(Uploaded(s, p, now, n + 1), p.blobId, n, WriteToken(p.blobId), SealPart(p, n), at) ==
            (Uploaded(s, p, now, n + 1), if now + TTL <= at then Gone else Ok)
  {
    hide Chunk, Wire.PartNonce, ChunkCount;
    var before := Uploaded(s, p, now, n + 1);
    assert (p.blobId, n) in PartKeys(p.blobId, n + 1);
    assert before.parts[(p.blobId, n) := SealPart(p, n)] == before.parts;
    assert before.blobs[p.blobId := before.blobs[p.blobId]] == before.blobs;
  }

  /** One part, at most six attempts, done with the first answer. */
  method PutWithRetries(store: MemoryStore, p: Parcel, index: nat, net: Network, ghost s: Store, ghost now: nat)
    returns (accepted: bool)
    requires p.partSize > 0 && NotThere(s, p.blobId) && index < Parts(p)
    requires store.View() == Uploaded(s, p, now, index)
    modifies store
    ensures accepted <==> InTime(net, index, now + TTL)
    ensures store.View() == Uploaded(s, p, now, index + 1)
            || (!accepted && store.View() == Uploaded(s, p, now, index))
  {
    hide Uploaded, PutPart, SealPart, NotThere, ChunkCount;
    var attempt := 1;
    while true
      invariant 1 <= attempt <= PART_ATTEMPTS
      invariant forall k :: 1 <= k < attempt ==> net.fate(index, k) != Delivered
      invariant store.View() == Uploaded(s, p, now, index) || store.View() == Uploaded(s, p, now, index + 1)
      decreases PART_ATTEMPTS - attempt
    {
      var fate, at := net.fate(index, attempt), net.clock(index, attempt);
      if fate != RequestLost {
        PutFirst(s, p, now, index, at);
        PutAgain(s, p, now, index, at);
        var status := store.Put(p.blobId, index, WriteToken(p.blobId), SealPart(p, index), at);
        if fate == Delivered {
          assert Answered(net, index, attempt);
          return status == Ok;
        }
      }
      if attempt == PART_ATTEMPTS { return false; }
      attempt := attempt + 1;
    }
  }

  lemma NeverEmpty(size: nat, chunkSize: nat)
    requires chunkSize > 0
    ensures ChunkCount(size, chunkSize) >= 1
  {
    if ChunkCount(size, chunkSize) == 0 {
      ChunkBounds(size, chunkSize, 0);
    }
  }

  lemma CreatedEmpty(s: Store, p: Parcel, now: nat)
    requires p.partSize > 0 && 1 <= Parts(p) <= MAX_PARTS
    ensures CreateBlob(s, p.blobId, p.from, p.to, Parts(p), now) == (Uploaded(s, p, now, 0), Ok)
  {
    hide ChunkCount;
    assert SealedParts(p, 0) == map[];
    assert s.parts + SealedParts(p, 0) == s.parts;
  }

  /** Whatever became of the blob's own record, taking it out gives back the store as it was. */
  lemma LeftOver(s: Store, s': Store, p: Parcel, now: nat, n: nat)
    requires p.partSize > 0 && NotThere(s, p.blobId) && n <= Parts(p)
    requires p.blobId in s'.blobs && s'.blobs[p.blobId].parts == Parts(p)
    requires s'.blobs - {p.blobId} == Uploaded(s, p, now, n).blobs - {p.blobId}
    requires s'.parts == Uploaded(s, p, now, n).parts && s'.mailboxes == s.mailboxes
    ensures SameButFor(s, s', p.blobId) && Remove(s', p.blobId) == s
  {
    hide SealPart, ChunkCount;
    var keys := PartKeys(p.blobId, Parts(p));
    assert PartKeys(p.blobId, n) <= keys;
    assert forall k :: k in s.parts ==> k !in keys;
    assert s'.parts - keys == s.parts;
    assert s.blobs == s.blobs - {p.blobId} == s'.blobs - {p.blobId};
  }

  /**
    Succeeds exactly when every part is answered within six attempts and before the blob expires,
    and the control requests are; what it leaves is then the same whatever was lost on the way.
    Otherwise the blob is taken back, unless even that request fails.
   */
  method SendViaRelay(store: MemoryStore, p: Parcel, now: nat, entry: EntryId, net: Network) returns (sent: bool)
    requires p.partSize > 0 && NotThere(store.View(), p.blobId)
    modifies store
    ensures sent <==> Parts(p) <= MAX_PARTS && net.completes && net.mails
                      && AllInTime(net, Parts(p), now + TTL)
    ensures sent ==> store.View() == Parked(old(store.View()), p, now, entry)
    ensures !sent ==> SameButFor(old(store.View()), store.View(), p.blobId)
    ensures !sent && (net.deletes || Parts(p) > MAX_PARTS) ==> store.View() == old(store.View())
  {
    hide SealPart, InTime, Chunk, Chunks, ChunkCount, Digest.Update, Digest.Present, SealedParts;
    ghost var s := store.View();
    var parts := Parts(p);
    NeverEmpty(|p.source|, p.partSize);
    var status := store.Create(p.blobId, p.from, p.to, parts, now);
    if status != Ok { return false; }
    CreatedEmpty(s, p, now);
    var index, failed := 0, false;
    var hashes: seq<Option<Bytes>> := [];
    ghost var stored := 0;
    while index < parts
      invariant index <= parts && stored <= parts && (!failed ==> stored == index)
      invariant !failed ==> AllInTime(net, index, now + TTL)
      invariant store.View() == Uploaded(s, p, now, stored)
      invariant |hashes| == index && HashesOf(hashes, p.source, p.partSize)
    {
      NextHash(hashes, p.source, p.partSize);
      var accepted := PutWithRetries(store, p, index, net, s, now);
      stored := if store.View() == Uploaded(s, p, now, index + 1) then index + 1 else index;
      if !accepted {
        failed := true;
        break;
      }
      hashes := Digest.Update(hashes, index, Chunk(p.source, p.partSize, index));
      index := index + 1;
    }
    if !failed && net.completes {
      status := store.Finish(p.from, p.blobId);
      if status == Ok && net.mails {
        WholeDigest(hashes, p.source, p.partSize);
        store.Push(p.from, p.to, Wrap(p, Digest.Present(hashes).value), entry);
        return true;
      }
    }
    LeftOver(s, store.View(), p, now, stored);
    if net.deletes {
      var _ := store.Delete(p.from, p.blobId);
    }
    return false;
  }

  // ---- receiving ----

  /** What a part request gets at one moment, decrypted under the part's own nonce and place. */
  function PlainPart(s: Store, envelope: Envelope, o: Opened, index: nat, at: nat): Option<Bytes> {
    match GetPart(s, envelope.blobId, index, envelope.readToken, at)
    case NoPart(_) => None
    case PartBytes(bytes) => Open(o.contentKey, Wire.PartNonce(o.prefix, index), envelope.blobId, index, bytes)
  }

  ghost predicate Fetches(s: Store, envelope: Envelope, o: Opened, net: Network, index: nat, plain: Bytes) {
    exists attempt :: Answered(net, index, attempt)
                      && PlainPart(s, envelope, o, index, net.clock(index, attempt)) == Some(plain)
  }

  ghost predicate FetchesNothing(s: Store, envelope: Envelope, o: Opened, net: Network, index: nat) {
    forall b :: !Fetches(s, envelope, o, net, index, b)
  }

  /** The host's sink, which may refuse to be created, to take a part, or to be closed. */
  datatype SinkHealth = SinkHealth(opens: bool, writes: nat -> bool, closes: bool)

  /** The file once these parts are written in order, each at its own place. */
  function Assembled(parts: seq<Bytes>, partSize: nat): Bytes {
    if parts == [] then []
    else WriteAt(Assembled(parts[..|parts| - 1], partSize), (|parts| - 1) * partSize, parts[|parts| - 1])
  }

  ghost predicate Arrives(s: Store, envelope: Envelope, o: Opened, net: Network, sink: SinkHealth, i: nat) {
    i < |o.metadata.digest| && Fetches(s, envelope, o, net, i, o.metadata.digest[i]) && sink.writes(i)
  }

  /** Every part arrives, opens, is taken by the sink, and is the part the signed metadata describes. */
  ghost predicate Receives(s: Store, envelope: Envelope, me: DeviceId, peer: DeviceId, net: Network, sink: SinkHealth) {
    && OpenEnvelope(me, peer, envelope).Some? && sink.opens && sink.closes
    && var o := OpenEnvelope(me, peer, envelope).value;
       && |o.metadata.digest| == envelope.parts
       && forall i :: 0 <= i < envelope.parts ==> Arrives(s, envelope, o, net, sink, i)
  }

  /** Five attempts that come to nothing are forgiven, a sixth is not. */
  lemma SixAttempts(net: Network, index: nat)
    ensures (exists attempt :: Answered(net, index, attempt)) <==>
              exists k :: 1 <= k <= 6 && net.fate(index, k) == Delivered
  {
    if k :| 1 <= k <= 6 && net.fate(index, k) == Delivered {
      var first := 1;
      while net.fate(index, first) != Delivered
        invariant 1 <= first <= k && forall j :: 1 <= j < first ==> net.fate(index, j) != Delivered
        decreases k - first
      {
        first := first + 1;
      }
      assert Answered(net, index, first);
    }
  }

  method GetWithRetries(store: MemoryStore, envelope: Envelope, o: Opened, index: nat, net: Network)
    returns (plain: Option<Bytes>)
    ensures plain.Some? ==> Fetches(store.View(), envelope, o, net, index, plain.value)
    ensures plain.None? ==> FetchesNothing(store.View(), envelope, o, net, index)
  {
    hide GetPart, Open, Wire.PartNonce;
    var attempt := 1;
    while true
      invariant 1 <= attempt <= PART_ATTEMPTS
      invariant forall k :: 1 <= k < attempt ==> net.fate(index, k) != Delivered
      decreases PART_ATTEMPTS - attempt
    {
      if net.fate(index, attempt) == Delivered {
        var answer := store.Get(envelope.blobId, index, envelope.readToken, net.clock(index, attempt));
        plain := if answer.NoPart? then None
                 else Open(o.contentKey, Wire.PartNonce(o.prefix, index), envelope.blobId, index, answer.bytes);
        assert Answered(net, index, attempt);
        return;
      }
      if attempt == PART_ATTEMPTS { return None; }
      attempt := attempt + 1;
    }
  }

  lemma OneMorePart(parts: seq<Bytes>, part: Bytes, partSize: nat)
    ensures Assembled(parts + [part], partSize) == WriteAt(Assembled(parts, partSize), |parts| * partSize, part)
  {
    assert (parts + [part])[..|parts|] == parts;
  }

  lemma FetchesOne(s: Store, envelope: Envelope, o: Opened, net: Network, index: nat, a: Bytes, b: Bytes)
    requires Fetches(s, envelope, o, net, index, a) && Fetches(s, envelope, o, net, index, b)
    ensures a == b
  {
    hide PlainPart;
  }

  /** The first parts, as they came. */
  ghost predicate Came(s: Store, envelope: Envelope, o: Opened, net: Network, sink: SinkHealth, plains: seq<Bytes>) {
    forall i :: 0 <= i < |plains| ==> Fetches(s, envelope, o, net, i, plains[i]) && sink.writes(i)
  }

  /** Once all parts have come, they are the ones described exactly when the digests agree. */
  lemma DigestDecides(s: Store, envelope: Envelope, o: Opened, net: Network, sink: SinkHealth, plains: seq<Bytes>)
    requires Came(s, envelope, o, net, sink, plains) && |plains| == envelope.parts
    ensures plains == o.metadata.digest <==>
              && |o.metadata.digest| == envelope.parts
              && forall i :: 0 <= i < envelope.parts ==> Arrives(s, envelope, o, net, sink, i)
  {
    hide Fetches;
    var digest := o.metadata.digest;
    if |digest| == envelope.parts && forall i :: 0 <= i < envelope.parts ==> Arrives(s, envelope, o, net, sink, i) {
      forall i | 0 <= i < |plains|
        ensures plains[i] == digest[i]
      {
        assert Arrives(s, envelope, o, net, sink, i);
        FetchesOne(s, envelope, o, net, i, plains[i], digest[i]);
      }
    }
  }

  lemma NoPartNoFile(s: Store, envelope: Envelope, me: DeviceId, peer: DeviceId, net: Network, sink: SinkHealth, i: nat)
    requires OpenEnvelope(me, peer, envelope).Some? && i < envelope.parts
    requires var o := OpenEnvelope(me, peer, envelope).value;
             FetchesNothing(s, envelope, o, net, i) || !sink.writes(i)
    ensures !Receives(s, envelope, me, peer, net, sink)
  {
    hide Fetches;
    assert !Arrives(s, envelope, OpenEnvelope(me, peer, envelope).value, net, sink, i);
  }

  /** A file is handed over exactly when everything held, and is then the one the sender described. */
  method ReceiveViaRelay(store: MemoryStore, envelope: Envelope, me: DeviceId, peer: DeviceId, net: Network,
                         sink: SinkHealth)
    returns (result: Option<Bytes>)
    ensures result.Some? <==> Receives(store.View(), envelope, me, peer, net, sink)
    ensures result.Some? ==> var m := envelope.meta.metadata; result.value == Assembled(m.digest, m.partSize)
  {
    hide Fetches, FetchesNothing, Arrives, WriteAt, Assembled, Digest.Update, Digest.Present;
    var unsealed := OpenEnvelope(me, peer, envelope);
    if unsealed.None? { return None; }
    if !sink.opens { return None; }
    var o := unsealed.value;
    var hashes: seq<Option<Bytes>>, file: Bytes := [], [];
    ghost var s, plains: seq<Bytes> := store.View(), [];
    NothingAssembled(o.metadata.partSize);
    for index := 0 to envelope.parts
      invariant |plains| == |hashes| == index && file == Assembled(plains, o.metadata.partSize)
      invariant Came(s, envelope, o, net, sink, plains)
      invariant forall i :: 0 <= i < index ==> hashes[i] == Some(plains[i])
    {
      var plain := GetWithRetries(store, envelope, o, index, net);
      if plain.None? {
        NoPartNoFile(s, envelope, me, peer, net, sink, index);
        return None;
      }
      Digest.UpdateNext(hashes, plain.value);
      hashes := Digest.Update(hashes, index, plain.value);
      if !sink.writes(index) {
        NoPartNoFile(s, envelope, me, peer, net, sink, index);
        return None;
      }
      OneMorePart(plains, plain.value, o.metadata.partSize);
      file := WriteAt(file, index * o.metadata.partSize, plain.value);
      plains := plains + [plain.value];
    }
    Digest.PresentMeans(hashes);
    var ours := Digest.Present(hashes);
    assert ours.Some? && ours.value == plains;
    DigestDecides(s, envelope, o, net, sink, plains);
    if ours != Some(o.metadata.digest) { return None; }
    if !sink.closes { return None; }
    return Some(file);
  }

  lemma NothingAssembled(partSize: nat)
    ensures Assembled([], partSize) == []
  {
  }

  // ---- there and back ----

  lemma {:induction false} AssembledChunks(source: Bytes, partSize: nat, n: nat)
    requires partSize > 0 && n <= ChunkCount(|source|, partSize)
    ensures Assembled(Chunks(source, partSize)[..n], partSize) == source[..Upto(|source|, partSize, n)]
  {
    hide ChunkCount, Chunk, WriteAt;
    if n > 0 {
      var chunks := Chunks(source, partSize);
      AssembledChunks(source, partSize, n - 1);
      assert chunks[..n] == chunks[..n - 1] + [Chunk(source, partSize, n - 1)];
      OneMorePart(chunks[..n - 1], Chunk(source, partSize, n - 1), partSize);
      WriteNextChunk(source, partSize, n - 1);
    }
  }

  lemma ParkedPart(s: Store, p: Parcel, now: nat, entry: EntryId, index: nat, at: nat)
    requires p.partSize > 0 && index < Parts(p)
    ensures var parked, o := Parked(s, p, now, entry), OpenEnvelope(p.to, p.from, EnvelopeOf(p));
            o.Some? && PlainPart(parked, EnvelopeOf(p), o.value, index, at) ==
                       if at < now + TTL then Some(Chunk(p.source, p.partSize, index)) else None
  {
    hide ChunkCount, Chunk, Chunks, Wire.PartNonce;
    assert (p.blobId, index) in PartKeys(p.blobId, Parts(p));
  }

  /**
    A file that was parked is received exactly as it was sent, whatever either side had to repeat:
    the recipient gets it if and only if its own requests are answered in time and its sink holds up.
   */
  lemma SentIsReceived(s: Store, p: Parcel, now: nat, entry: EntryId, net: Network, sink: SinkHealth)
    requires p.partSize > 0
    ensures Receives(Parked(s, p, now, entry), EnvelopeOf(p), p.to, p.from, net, sink) <==>
              && sink.opens && sink.closes && AllInTime(net, Parts(p), now + TTL)
              && forall i :: 0 <= i < Parts(p) ==> sink.writes(i)
    ensures Described(EnvelopeOf(p)) == p.source
    ensures var e := EnvelopeOf(p);
            && |Described(e)| == e.size == e.meta.metadata.size && e.partSize == e.meta.metadata.partSize > 0
            && e.parts == |e.meta.metadata.digest| == ChunkCount(e.size, e.partSize)
  {
    hide Parked, Assembled, Chunk, ChunkCount, Arrives;
    var parked, envelope, deadline := Parked(s, p, now, entry), EnvelopeOf(p), now + TTL;
    var o := OpenEnvelope(p.to, p.from, envelope).value;
    assert |o.metadata.digest| == envelope.parts == Parts(p);
    if Receives(parked, envelope, p.to, p.from, net, sink) {
      forall i | 0 <= i < Parts(p)
        ensures InTime(net, i, deadline) && sink.writes(i)
      {
        assert Arrives(parked, envelope, o, net, sink, i);
        PartArrives(s, p, now, entry, net, sink, i);
      }
    }
    if AllInTime(net, Parts(p), deadline) && forall i :: 0 <= i < Parts(p) ==> sink.writes(i) {
      forall i | 0 <= i < Parts(p)
        ensures Arrives(parked, envelope, o, net, sink, i)
      {
        assert InTime(net, i, deadline);
        PartArrives(s, p, now, entry, net, sink, i);
      }
    }
    WholeFile(p);
  }

  lemma PartArrives(s: Store, p: Parcel, now: nat, entry: EntryId, net: Network, sink: SinkHealth, i: nat)
    requires p.partSize > 0 && i < Parts(p)
    ensures var o := OpenEnvelope(p.to, p.from, EnvelopeOf(p)).value;
            Arrives(Parked(s, p, now, entry), EnvelopeOf(p), o, net, sink, i) <==>
              InTime(net, i, now + TTL) && sink.writes(i)
  {
    hide Parked, PlainPart, Chunk, ChunkCount;
    var o := OpenEnvelope(p.to, p.from, EnvelopeOf(p)).value;
    assert o.metadata.digest[i] == Chunk(p.source, p.partSize, i);
    forall at: nat
      ensures PlainPart(Parked(s, p, now, entry), EnvelopeOf(p), o, i, at) ==
              if at < now + TTL then Some(Chunk(p.source, p.partSize, i)) else None
    {
      ParkedPart(s, p, now, entry, i, at);
    }
  }

  lemma WholeFile(p: Parcel)
    requires p.partSize > 0
    ensures var m := EnvelopeOf(p).meta.metadata; Assembled(m.digest, m.partSize) == p.source
  {
    hide Assembled, Chunk, ChunkCount;
    var chunks := Chunks(p.source, p.partSize);
    AssembledChunks(p.source, p.partSize, |chunks|);
    ChunkBounds(|p.source|, p.partSize, 0);
    assert chunks[..|chunks|] == chunks;
  }

  // ---- draining a mailbox ----

  /** What befalls one entry of a listing; `acks` is whether its acknowledgement gets through. */
  datatype Visit = Visit(net: Network, sink: SinkHealth, acks: bool)

  function Described(envelope: Envelope): Bytes {
    Assembled(envelope.meta.metadata.digest, envelope.meta.metadata.partSize)
  }

  /** Strangers' mail is deleted; a partner's is received, and acknowledged only once its file is closed. */
  ghost function CollectOne(s: Store, me: DeviceId, paired: set<DeviceId>, e: Entry, v: Visit): (Store, seq<Bytes>) {
    if e.envelope.sender !in paired then (if v.acks then AckMail(s, me, e.id).0 else s, [])
    else if !Receives(s, e.envelope, me, e.envelope.sender, v.net, v.sink) || !v.acks then (s, [])
    else (AckMail(s, me, e.id).0, if AckMail(s, me, e.id).1 == Ok then [Described(e.envelope)] else [])
  }

  ghost function CollectAll(s: Store, me: DeviceId, paired: set<DeviceId>, entries: seq<Entry>,
                            visits: seq<Visit>): (Store, seq<Bytes>)
    requires |visits| == |entries|
  {
    if entries == [] then (s, [])
    else
      var n := |entries| - 1;
      var before := CollectAll(s, me, paired, entries[..n], visits[..n]);
      var last := CollectOne(before.0, me, paired, entries[n], visits[n]);
      (last.0, before.1 + last.1)
  }

  method CollectEntry(store: MemoryStore, me: DeviceId, paired: set<DeviceId>, e: Entry,
                      v: Visit) returns (got: seq<Bytes>)
    modifies store
    ensures (store.View(), got) == CollectOne(old(store.View()), me, paired, e, v)
  {
    hide Receives, Assembled, AckMail;
    if e.envelope.sender !in paired {
      if v.acks {
        var _ := store.Ack(me, e.id);
      }
      return [];
    }
    var received := ReceiveViaRelay(store, e.envelope, me, e.envelope.sender, v.net, v.sink);
    if received.None? || !v.acks { return []; }
    var status := store.Ack(me, e.id);
    return if status == Ok then [received.value] else [];
  }

  method CollectMailbox(store: MemoryStore, me: DeviceId, paired: set<DeviceId>, entries: seq<Entry>,
                        visits: seq<Visit>)
    returns (results: seq<Bytes>)
    requires |visits| == |entries|
    modifies store
    ensures (store.View(), results) == CollectAll(old(store.View()), me, paired, entries, visits)
  {
    hide CollectOne;
    results := [];
    for i := 0 to |entries|
      invariant (store.View(), results) == CollectAll(old(store.View()), me, paired, entries[..i], visits[..i])
    {
      assert entries[..i + 1][..i] == entries[..i] && visits[..i + 1][..i] == visits[..i];
      var got := CollectEntry(store, me, paired, entries[i], visits[i]);
      results := results + got;
    }
    assert entries[..|entries|] == entries && visits[..|visits|] == visits;
  }

  /** Every listed entry of the mailbox is listed as it stands there. */
  ghost predicate ListedFrom(entries: seq<Entry>, box: map<EntryId, Entry>) {
    forall i :: 0 <= i < |entries| ==> entries[i].id in box ==> box[entries[i].id] == entries[i]
  }

  lemma AckTakesOne(s: Store, me: DeviceId, id: EntryId, other: EntryId)
    ensures var s' := AckMail(s, me, id).0;
            && (other in Mailbox(s', me) <==> other in Mailbox(s, me) && other != id)
            && (other in Mailbox(s', me) ==> Mailbox(s', me)[other] == Mailbox(s, me)[other])
    ensures AckMail(s, me, id).1 == if id in Mailbox(s, me) then Ok else NotFound
  {
  }

  /** An entry leaves the mailbox only as a stranger's, or because the file it described is among the results. */
  lemma {:induction false} GoneMeansReceived(s: Store, me: DeviceId, paired: set<DeviceId>, entries: seq<Entry>,
                                             visits: seq<Visit>, id: EntryId)
    requires |visits| == |entries| && ListedFrom(entries, Mailbox(s, me)) && id in Mailbox(s, me)
    ensures var (after, results) := CollectAll(s, me, paired, entries, visits);
            var e := Mailbox(s, me)[id];
            if id in Mailbox(after, me) then Mailbox(after, me)[id] == e
            else e.envelope.sender !in paired || Described(e.envelope) in results
  {
    hide Receives, AckMail, Mailbox, Described;
    if entries != [] {
      var n := |entries| - 1;
      GoneMeansReceived(s, me, paired, entries[..n], visits[..n], id);
      var before := CollectAll(s, me, paired, entries[..n], visits[..n]);
      AckTakesOne(before.0, me, entries[n].id, id);
      assert entries[n].id in Mailbox(s, me) ==> Mailbox(s, me)[entries[n].id] == entries[n];
    }
  }

  /** The store when a listed entry's turn comes. */
  ghost function AtTurn(s: Store, me: DeviceId, paired: set<DeviceId>, entries: seq<Entry>, visits: seq<Visit>,
                        i: nat): Store
    requires |visits| == |entries| && i <= |entries|
  {
    CollectAll(s, me, paired, entries[..i], visits[..i]).0
  }

  /** Signed by the paired device it names as its sender, for this device's eyes. */
  predicate Authentic(e: Entry, me: DeviceId, paired: set<DeviceId>) {
    && e.envelope.sender in paired && e.envelope.signer == e.envelope.sender
    && e.envelope.meta.key == MetaKey(e.envelope.ephemeral, me)
  }

  /**
    At its turn the entry is there, authentic, and received in full, and its acknowledgement gets through.
   */
  ghost predicate TakenAtTurn(s: Store, me: DeviceId, paired: set<DeviceId>, entries: seq<Entry>, visits: seq<Visit>,
                              i: nat)
    requires |visits| == |entries| && i < |entries|
  {
    var turn, e := AtTurn(s, me, paired, entries, visits, i), entries[i];
    && e.id in Mailbox(turn, me) && Authentic(e, me, paired) && visits[i].acks
    && Receives(turn, e.envelope, me, e.envelope.sender, visits[i].net, visits[i].sink)
  }

  lemma ReceivedIsAuthentic(s: Store, me: DeviceId, paired: set<DeviceId>, e: Entry, v: Visit)
    ensures e.envelope.sender in paired && Receives(s, e.envelope, me, e.envelope.sender, v.net, v.sink) ==>
              Authentic(e, me, paired)
  {
  }

  /** The listed entries that are taken, by their places in the listing. */
  ghost function Taken(s: Store, me: DeviceId, paired: set<DeviceId>, entries: seq<Entry>, visits: seq<Visit>,
                       n: nat): (places: seq<nat>)
    requires |visits| == |entries| && n <= |entries|
    ensures forall k :: 0 <= k < |places| ==> places[k] < n
  {
    if n == 0 then []
    else
      Taken(s, me, paired, entries, visits, n - 1)
      + if TakenAtTurn(s, me, paired, entries, visits, n - 1) then [n - 1] else []
  }

  lemma OneCollected(s: Store, me: DeviceId, paired: set<DeviceId>, entries: seq<Entry>, visits: seq<Visit>, i: nat)
    requires |visits| == |entries| && i < |entries|
    ensures CollectOne(AtTurn(s, me, paired, entries, visits, i), me, paired, entries[i], visits[i]).1
            == if TakenAtTurn(s, me, paired, entries, visits, i) then [Described(entries[i].envelope)] else []
  {
    hide CollectAll, AckMail, Described, Mailbox, Arrives;
    var turn := AtTurn(s, me, paired, entries, visits, i);
    AckTakesOne(turn, me, entries[i].id, entries[i].id);
  }

  lemma {:induction false} TakenSoFar(s: Store, me: DeviceId, paired: set<DeviceId>, entries: seq<Entry>,
                                      visits: seq<Visit>, n: nat)
    requires |visits| == |entries| && n <= |entries|
    ensures var places := Taken(s, me, paired, entries, visits, n);
            CollectAll(s, me, paired, entries[..n], visits[..n]).1
            == seq(|places|, k requires 0 <= k < |places| => Described(entries[places[k]].envelope))
  {
    hide CollectOne, TakenAtTurn, Described;
    if n > 0 {
      TakenSoFar(s, me, paired, entries, visits, n - 1);
      OneCollected(s, me, paired, entries, visits, n - 1);
      assert entries[..n][..n - 1] == entries[..n - 1] && visits[..n][..n - 1] == visits[..n - 1];
    }
  }

  /** The results are the files of the taken entries and no others, in the order of the listing. */
  lemma ResultsAreTaken(s: Store, me: DeviceId, paired: set<DeviceId>, entries: seq<Entry>, visits: seq<Visit>)
    requires |visits| == |entries|
    ensures var places := Taken(s, me, paired, entries, visits, |entries|);
            CollectAll(s, me, paired, entries, visits).1
            == seq(|places|, k requires 0 <= k < |places| => Described(entries[places[k]].envelope))
  {
    TakenSoFar(s, me, paired, entries, visits, |entries|);
    assert entries[..|entries|] == entries && visits[..|visits|] == visits;
  }

  /** What a mailbox lists: each of its entries at most once. */
  ghost predicate Listing(entries: seq<Entry>, box: map<EntryId, Entry>) {
    && (forall i :: 0 <= i < |entries| ==> entries[i].id in box && box[entries[i].id] == entries[i])
    && forall i, j :: 0 <= i < j < |entries| ==> entries[i].id != entries[j].id
  }

  lemma {:induction false} UntouchedUntilTurn(s: Store, me: DeviceId, paired: set<DeviceId>, entries: seq<Entry>,
                                              visits: seq<Visit>, id: EntryId)
    requires |visits| == |entries| && forall i :: 0 <= i < |entries| ==> entries[i].id != id
    ensures id in Mailbox(CollectAll(s, me, paired, entries, visits).0, me) <==> id in Mailbox(s, me)
  {
    hide Receives, AckMail, Mailbox, Described;
    if entries != [] {
      var n := |entries| - 1;
      UntouchedUntilTurn(s, me, paired, entries[..n], visits[..n], id);
      AckTakesOne(CollectAll(s, me, paired, entries[..n], visits[..n]).0, me, entries[n].id, id);
    }
  }

  /**
    Once a listing has been gone through, an entry of it is gone from the mailbox if and only if it was taken, or was
    a stranger's and its acknowledgement got through.
   */
  lemma {:induction false} CollectedExactly(s: Store, me: DeviceId, paired: set<DeviceId>, entries: seq<Entry>,
                                            visits: seq<Visit>, i: nat)
    requires |visits| == |entries| && Listing(entries, Mailbox(s, me)) && i < |entries|
    ensures var after := CollectAll(s, me, paired, entries, visits).0;
            var taken := TakenAtTurn(s, me, paired, entries, visits, i);
            entries[i].id !in Mailbox(after, me) <==>
              taken || (entries[i].envelope.sender !in paired && visits[i].acks)
  {
    hide Receives, AckMail, Mailbox, Described;
    var n := |entries| - 1;
    var front, visited := entries[..n], visits[..n];
    var before := CollectAll(s, me, paired, front, visited);
    if i < n {
      CollectedExactly(s, me, paired, front, visited, i);
      assert front[..i] == entries[..i] && visited[..i] == visits[..i];
      AckTakesOne(before.0, me, entries[n].id, entries[i].id);
    } else {
      UntouchedUntilTurn(s, me, paired, front, visited, entries[n].id);
      ReceivedIsAuthentic(before.0, me, paired, entries[n], visits[n]);
      AckTakesOne(before.0, me, entries[n].id, entries[n].id);
    }
  }
}
