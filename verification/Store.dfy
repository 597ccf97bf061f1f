/**
  The relay's storage and the requests on it. Requests are functions from the store to the store
  afterwards and an answer; the memory store is the object that carries them out.
 */
module Store {
  import opened Common

  type DeviceId = nat
  type BlobId = nat
  type EntryId = nat

  /** Content keys are agreed per transfer and recipient; encryption is symbolic and authenticated. */
  datatype Key = ContentKey(transfer: nat, recipient: DeviceId) | MetaKey(transfer: nat, recipient: DeviceId)

  /** A part sealed under a key and nonce, bound to its blob and index. */
  datatype Sealed = Sealed(key: Key, nonce: Option<Bytes>, blobId: BlobId, index: nat, plain: Bytes)

  function Open(key: Key, nonce: Option<Bytes>, blobId: BlobId, index: nat, s: Sealed): Option<Bytes> {
    if s.key == key && s.nonce == nonce && s.blobId == blobId && s.index == index then Some(s.plain) else None
  }

  /** Capability tokens: nobody has one without having been given it. */
  datatype Token = ReadToken(blobId: BlobId) | WriteToken(blobId: BlobId)

  datatype Metadata = Metadata(size: nat, partSize: nat, digest: seq<Bytes>)

  datatype SealedMeta = SealedMeta(key: Key, metadata: Metadata)

  /** The sender's signed artifact; `signer` is whose signature it carries. */
  datatype Envelope = Envelope(
    blobId: BlobId,
    readToken: Token,
    parts: nat,
    partSize: nat,
    size: nat,
    ephemeral: nat,
    prefix: Bytes,
    meta: SealedMeta,
    sender: DeviceId,
    signer: DeviceId)

  datatype Entry = Entry(id: EntryId, from: DeviceId, envelope: Envelope)

  datatype Blob = Blob(
    owner: DeviceId,
    recipient: DeviceId,
    parts: nat,
    complete: bool,
    received: nat,
    writeToken: Token,
    readToken: Token,
    expiresAt: nat)

  datatype Store = Store(
    blobs: map<BlobId, Blob>,
    parts: map<(BlobId, nat), Sealed>,
    mailboxes: map<DeviceId, map<EntryId, Entry>>)

  datatype Status = Ok | BadRequest | Forbidden | NotFound | Conflict | Gone

  const MAX_PARTS: nat := 100000
  const TTL: nat := 7 * 24 * 60 * 60 * 1000

  const EMPTY := Store(map[], map[], map[])

  // ---- the data plane ----

  function NewRecord(id: BlobId, owner: DeviceId, recipient: DeviceId, parts: nat, now: nat): Blob {
    Blob(owner, recipient, parts, false, 0, WriteToken(id), ReadToken(id), now + TTL)
  }

  function CreateBlob(s: Store, id: BlobId, owner: DeviceId, recipient: DeviceId, parts: nat, now: nat)
    : (Store, Status)
  {
    if parts < 1 || parts > MAX_PARTS then (s, BadRequest)
    else (s.(blobs := s.blobs[id := NewRecord(id, owner, recipient, parts, now)]), Ok)
  }

  /** Storing a part twice replaces the bytes and counts once. */
  function StorePart(s: Store, id: BlobId, index: nat, bytes: Sealed): Store
    requires id in s.blobs
  {
    var record := s.blobs[id];
    var counted := if (id, index) in s.parts then record else record.(received := record.received + 1);
    s.(blobs := s.blobs[id := counted], parts := s.parts[(id, index) := bytes])
  }

  function PutPart(s: Store, id: BlobId, index: nat, token: Token, bytes: Sealed, now: nat): (Store, Status) {
    if id !in s.blobs then (s, NotFound)
    else if s.blobs[id].expiresAt <= now then (s, Gone)
    else if index >= s.blobs[id].parts then (s, BadRequest)
    else if token != s.blobs[id].writeToken then (s, Forbidden)
    else if s.blobs[id].complete then (s, Conflict)
    else (StorePart(s, id, index, bytes), Ok)
  }

  datatype PartAnswer = PartBytes(bytes: Sealed) | NoPart(status: Status)

  function GetPart(s: Store, id: BlobId, index: nat, token: Token, now: nat): PartAnswer {
    if id !in s.blobs then NoPart(NotFound)
    else if s.blobs[id].expiresAt <= now then NoPart(Gone)
    else if index >= s.blobs[id].parts then NoPart(BadRequest)
    else if token != s.blobs[id].readToken then NoPart(Forbidden)
    else if (id, index) !in s.parts then NoPart(NotFound)
    else PartBytes(s.parts[(id, index)])
  }

  // ---- the control plane ----

  function Complete(s: Store, caller: DeviceId, id: BlobId): (Store, Status) {
    if id !in s.blobs then (s, NotFound)
    else if s.blobs[id].owner != caller then (s, Forbidden)
    else if s.blobs[id].received < s.blobs[id].parts then (s, Conflict)
    else (s.(blobs := s.blobs[id := s.blobs[id].(complete := true)]), Ok)
  }

  /** The indices a blob's record says it may have. */
  function PartKeys(id: BlobId, parts: nat): set<(BlobId, nat)> {
    set i | 0 <= i < parts :: (id, i)
  }

  function Remove(s: Store, id: BlobId): Store {
    if id !in s.blobs then s
    else s.(blobs := s.blobs - {id}, parts := s.parts - PartKeys(id, s.blobs[id].parts))
  }

  function DeleteBlob(s: Store, caller: DeviceId, id: BlobId): (Store, Status) {
    if id !in s.blobs then (s, NotFound)
    else if s.blobs[id].owner != caller && s.blobs[id].recipient != caller then (s, Forbidden)
    else (Remove(s, id), Ok)
  }

  function Mailbox(s: Store, device: DeviceId): map<EntryId, Entry> {
    if device in s.mailboxes then s.mailboxes[device] else map[]
  }

  function SendMail(s: Store, caller: DeviceId, to: DeviceId, envelope: Envelope, id: EntryId): Store {
    s.(mailboxes := s.mailboxes[to := Mailbox(s, to)[id := Entry(id, caller, envelope)]])
  }

  /** Taking an envelope out takes its blob with it. */
  function AckMail(s: Store, caller: DeviceId, id: EntryId): (Store, Status) {
    if id !in Mailbox(s, caller) then (s, NotFound)
    else
      var entry := Mailbox(s, caller)[id];
      (Remove(s.(mailboxes := s.mailboxes[caller := Mailbox(s, caller) - {id}]), entry.envelope.blobId), Ok)
  }

  /** Everything a sweep takes: the blobs past their time, and the parts their records name. */
  function Sweep(s: Store, now: nat): Store {
    var dead := set id | id in s.blobs && s.blobs[id].expiresAt <= now;
    var deadParts := set k | k in s.parts && k.0 in dead && k.1 < s.blobs[k.0].parts;
    s.(blobs := s.blobs - dead, parts := s.parts - deadParts)
  }

  // ---- the tally ----

  function StoredParts(s: Store, id: BlobId): set<nat> {
    set k | k in s.parts && k.0 == id :: k.1
  }

  function Below(n: nat): (r: set<nat>)
    ensures |r| == n && forall i :: i in r <==> 0 <= i < n
  {
    if n == 0 then {} else Below(n - 1) + {n - 1}
  }

  /** No part without a blob, or past the count its blob was created for. */
  ghost predicate Housed(s: Store) {
    forall k :: k in s.parts ==> k.0 in s.blobs && k.1 < s.blobs[k.0].parts
  }

  ghost predicate Counted(s: Store) {
    forall id :: id in s.blobs ==> s.blobs[id].received == |StoredParts(s, id)|
  }

  ghost predicate Full(s: Store) {
    forall id, i: nat {:trigger (id, i) in s.parts} ::
      id in s.blobs && s.blobs[id].complete && i < s.blobs[id].parts ==> (id, i) in s.parts
  }

  /** Counts are true, parts are in range, a complete blob has them all, and no part is without a blob. */
  ghost predicate Tallied(s: Store) {
    Housed(s) && Counted(s) && Full(s)
  }

/** A stored part is given to whoever has its blob's read token, until the blob expires; each refusal says why. */
  lemma GivenExactly(s: Store, id: BlobId, index: nat, token: Token, now: nat)
    requires Housed(s)
    ensures var answer := GetPart(s, id, index, token, now);
            var known := id in s.blobs;
            var inTime := known && now < s.blobs[id].expiresAt;
            && (answer.PartBytes? <==>
                  (id, index) in s.parts && inTime && token == s.blobs[id].readToken)
            && (answer.PartBytes? ==> answer.bytes == s.parts[(id, index)])
            && (answer == NoPart(Gone) <==> known && !inTime)
            && (answer == NoPart(BadRequest) <==> inTime && index >= s.blobs[id].parts)
            && (answer == NoPart(Forbidden) <==>
                  inTime && index < s.blobs[id].parts && token != s.blobs[id].readToken)
            && (answer == NoPart(NotFound) <==>
                  !known || (inTime && index < s.blobs[id].parts && token == s.blobs[id].readToken
                             && (id, index) !in s.parts))
  {
  }

    lemma EmptyTallied()
    ensures Tallied(EMPTY)
  {
  }

  lemma SameStored(s: Store, s': Store, id: BlobId)
    requires forall i: nat :: (id, i) in s.parts <==> (id, i) in s'.parts
    ensures StoredParts(s', id) == StoredParts(s, id)
  {
    assert forall i :: i in StoredParts(s, id) <==> (id, i) in s.parts;
    assert forall i :: i in StoredParts(s', id) <==> (id, i) in s'.parts;
  }

  lemma OneMoreStored(s: Store, s': Store, id: BlobId, index: nat)
    requires forall i: nat :: (id, i) in s'.parts <==> (id, i) in s.parts || i == index
    ensures |StoredParts(s', id)| == |StoredParts(s, id)| + if (id, index) in s.parts then 0 else 1
  {
    assert forall i :: i in StoredParts(s, id) <==> (id, i) in s.parts;
    assert forall i :: i in StoredParts(s', id) <==> (id, i) in s'.parts;
    assert StoredParts(s', id) == StoredParts(s, id) + {index};
  }

  /** Counts stay true when the surviving blobs keep their counts and their stored indices. */
  lemma StillCounted(s: Store, s': Store)
    requires Counted(s)
    requires forall id :: id in s'.blobs ==> id in s.blobs && s'.blobs[id].received == s.blobs[id].received
    requires forall id, i: nat :: id in s'.blobs ==> ((id, i) in s.parts <==> (id, i) in s'.parts)
    ensures Counted(s')
  {
    forall id | id in s'.blobs
      ensures s'.blobs[id].received == |StoredParts(s', id)|
    {
      SameStored(s, s', id);
    }
  }

  lemma StorePartCounted(s: Store, id: BlobId, index: nat, bytes: Sealed)
    requires Counted(s) && id in s.blobs
    ensures Counted(StorePart(s, id, index, bytes))
  {
    var s' := StorePart(s, id, index, bytes);
    forall other | other in s'.blobs
      ensures s'.blobs[other].received == |StoredParts(s', other)|
    {
      if other == id {
        OneMoreStored(s, s', id, index);
      } else {
        SameStored(s, s', other);
      }
    }
  }

  lemma StorePartTallied(s: Store, id: BlobId, index: nat, bytes: Sealed)
    requires Tallied(s) && id in s.blobs && index < s.blobs[id].parts
    ensures Tallied(StorePart(s, id, index, bytes))
  {
    hide StoredParts, Counted;
    StorePartCounted(s, id, index, bytes);
  }

  /** A count that reached the number of parts means every part is there. */
  lemma CountedAll(s: Store, id: BlobId)
    requires Tallied(s) && id in s.blobs && s.blobs[id].received >= s.blobs[id].parts
    ensures forall i: nat :: i < s.blobs[id].parts ==> (id, i) in s.parts
  {
    var n := s.blobs[id].parts;
    assert StoredParts(s, id) <= Below(n);
    if i: nat :| i < n && (id, i) !in s.parts {
      assert StoredParts(s, id) <= Below(n) - {i};
      SubsetSize(StoredParts(s, id), Below(n) - {i});
      assert false;
    }
  }

  lemma SubsetSize(a: set<nat>, b: set<nat>)
    requires a <= b
    ensures |a| <= |b|
  {
    assert |b - a| == |b| - |a|;
  }

  lemma CompleteTallied(s: Store, caller: DeviceId, id: BlobId)
    requires Tallied(s)
    ensures Tallied(Complete(s, caller, id).0)
    ensures Complete(s, caller, id).1 == Ok ==> forall i: nat :: i < s.blobs[id].parts ==> (id, i) in s.parts
  {
    if Complete(s, caller, id).1 == Ok {
      CountedAll(s, id);
      StillCounted(s, Complete(s, caller, id).0);
    }
  }

  /** Removal leaves no part behind, and touches no other blob. */
  lemma RemoveTallied(s: Store, id: BlobId)
    requires Tallied(s)
    ensures Tallied(Remove(s, id))
    ensures id !in Remove(s, id).blobs && StoredParts(Remove(s, id), id) == {}
    ensures forall k: (BlobId, nat) :: k.0 != id ==> (k in Remove(s, id).parts <==> k in s.parts)
    ensures forall k :: k in Remove(s, id).parts ==> k in s.parts && Remove(s, id).parts[k] == s.parts[k]
  {
    StillCounted(s, Remove(s, id));
  }

  lemma SweepTallied(s: Store, now: nat)
    requires Tallied(s)
    ensures Tallied(Sweep(s, now))
    ensures forall id :: id in Sweep(s, now).blobs <==> id in s.blobs && now < s.blobs[id].expiresAt
    ensures forall k :: k in Sweep(s, now).parts <==> k in s.parts && k.0 in Sweep(s, now).blobs
  {
    StillCounted(s, Sweep(s, now));
  }

  /** Every request keeps the tally true; a part of a complete blob never changes while the blob is there. */
  lemma PutPartTallied(s: Store, id: BlobId, index: nat, token: Token, bytes: Sealed, now: nat)
    requires Tallied(s)
    ensures Tallied(PutPart(s, id, index, token, bytes, now).0)
    ensures forall k :: k in s.parts && s.blobs[k.0].complete ==>
              k in PutPart(s, id, index, token, bytes, now).0.parts
              && PutPart(s, id, index, token, bytes, now).0.parts[k] == s.parts[k]
  {
    if PutPart(s, id, index, token, bytes, now).1 == Ok {
      StorePartTallied(s, id, index, bytes);
    }
  }

  lemma CreateTallied(s: Store, id: BlobId, owner: DeviceId, recipient: DeviceId, parts: nat, now: nat)
    requires Tallied(s) && id !in s.blobs
    ensures Tallied(CreateBlob(s, id, owner, recipient, parts, now).0)
  {
    var s' := CreateBlob(s, id, owner, recipient, parts, now).0;
    forall other | other in s'.blobs
      ensures s'.blobs[other].received == |StoredParts(s', other)|
    {
      SameStored(s, s', other);
    }
  }

  lemma MailTallied(s: Store, s': Store)
    requires Tallied(s) && s'.blobs == s.blobs && s'.parts == s.parts
    ensures Tallied(s')
  {
    StillCounted(s, s');
  }

  // ---- the memory store ----

  class MemoryStore {
    var blobs: map<BlobId, Blob>
    var parts: map<(BlobId, nat), Sealed>
    var mailboxes: map<DeviceId, map<EntryId, Entry>>

    function View(): Store
      reads this
    {
      Store(blobs, parts, mailboxes)
    }

    constructor ()
      ensures View() == EMPTY
    {
      blobs, parts, mailboxes := map[], map[], map[];
    }

    method Create(id: BlobId, owner: DeviceId, recipient: DeviceId, count: nat, now: nat) returns (status: Status)
      modifies this`blobs
      ensures (View(), status) == CreateBlob(old(View()), id, owner, recipient, count, now)
    {
      if count < 1 || count > MAX_PARTS { return BadRequest; }
      blobs := blobs[id := Blob(owner, recipient, count, false, 0, WriteToken(id), ReadToken(id), now + TTL)];
      return Ok;
    }

    method Put(id: BlobId, index: nat, token: Token, bytes: Sealed, now: nat) returns (status: Status)
      modifies this`blobs, this`parts
      ensures (View(), status) == PutPart(old(View()), id, index, token, bytes, now)
    {
      if id !in blobs { return NotFound; }
      var record := blobs[id];
      if record.expiresAt <= now { return Gone; }
      if index >= record.parts { return BadRequest; }
      if token != record.writeToken { return Forbidden; }
      if record.complete { return Conflict; }
      if (id, index) !in parts {
        record := record.(received := record.received + 1);
      }
      blobs := blobs[id := record];
      parts := parts[(id, index) := bytes];
      return Ok;
    }

    method Get(id: BlobId, index: nat, token: Token, now: nat) returns (answer: PartAnswer)
      ensures answer == GetPart(View(), id, index, token, now)
    {
      if id !in blobs { return NoPart(NotFound); }
      var record := blobs[id];
      if record.expiresAt <= now { return NoPart(Gone); }
      if index >= record.parts { return NoPart(BadRequest); }
      if token != record.readToken { return NoPart(Forbidden); }
      if (id, index) !in parts { return NoPart(NotFound); }
      return PartBytes(parts[(id, index)]);
    }

    method Finish(caller: DeviceId, id: BlobId) returns (status: Status)
      modifies this`blobs
      ensures (View(), status) == Complete(old(View()), caller, id)
    {
      if id !in blobs { return NotFound; }
      if blobs[id].owner != caller { return Forbidden; }
      if blobs[id].received < blobs[id].parts { return Conflict; }
      blobs := blobs[id := blobs[id].(complete := true)];
      return Ok;
    }

    /** Deletes index by index, as far as the record says there may be parts. */
    method RemoveBlob(id: BlobId)
      modifies this`blobs, this`parts
      ensures View() == Remove(old(View()), id)
    {
      if id !in blobs { return; }
      var n := blobs[id].parts;
      for i := 0 to n
        invariant parts == old(parts) - PartKeys(id, i)
        invariant blobs == old(blobs)
      {
        assert PartKeys(id, i + 1) == PartKeys(id, i) + {(id, i)};
        parts := parts - {(id, i)};
      }
      blobs := blobs - {id};
    }

    method Delete(caller: DeviceId, id: BlobId) returns (status: Status)
      modifies this`blobs, this`parts
      ensures (View(), status) == DeleteBlob(old(View()), caller, id)
    {
      if id !in blobs { return NotFound; }
      if blobs[id].owner != caller && blobs[id].recipient != caller { return Forbidden; }
      RemoveBlob(id);
      return Ok;
    }

    method Push(caller: DeviceId, to: DeviceId, envelope: Envelope, id: EntryId)
      modifies this`mailboxes
      ensures View() == SendMail(old(View()), caller, to, envelope, id)
    {
      if to !in mailboxes {
        var empty: map<EntryId, Entry> := map[];
        mailboxes := mailboxes[to := empty];
      }
      var box := mailboxes[to];
      mailboxes := mailboxes[to := box[id := Entry(id, caller, envelope)]];
    }

    method Ack(caller: DeviceId, id: EntryId) returns (status: Status)
      modifies this
      ensures (View(), status) == AckMail(old(View()), caller, id)
    {
      if caller !in mailboxes || id !in mailboxes[caller] { return NotFound; }
      var entry := mailboxes[caller][id];
      mailboxes := mailboxes[caller := mailboxes[caller] - {id}];
      RemoveBlob(entry.envelope.blobId);
      return Ok;
    }
  }

  // ---- the second implementation of the tally ----

  /** One blob as its own object: a record, and a mark for every index ever reported. */
  class BlobObject {
    var record: Option<Blob>
    var marks: set<nat>

    constructor ()
      ensures record.None? && marks == {}
    {
      record, marks := None, {};
    }

    method Create(id: BlobId, owner: DeviceId, recipient: DeviceId, count: nat, now: nat)
      modifies this`record
      ensures record == Some(NewRecord(id, owner, recipient, count, now))
    {
      record := Some(Blob(owner, recipient, count, false, 0, WriteToken(id), ReadToken(id), now + TTL));
    }

    method Received(index: nat)
      modifies this
      ensures (record, marks) == Mark(old(record), old(marks), index)
    {
      if record.None? { return; }
      if index !in marks {
        marks := marks + {index};
        record := Some(record.value.(received := record.value.received + 1));
      }
    }

    method Finish()
      modifies this`record
      ensures record == if old(record).None? then None else Some(old(record).value.(complete := true))
    {
      if record.Some? {
        record := Some(record.value.(complete := true));
      }
    }

    method Destroy()
      modifies this
      ensures record.None? && marks == {}
    {
      record, marks := None, {};
    }

    /** The routes' checks are made on the record as read, and the alarm goes off no sooner than it was set for. */
    method Answer(request: Request) returns (status: Status)
      modifies this
      ensures (record, marks, status) == ObjectAnswer(old(record), old(marks), request)
    {
      if request.Expire? {
        if record.Some? && record.value.expiresAt <= request.now {
          Destroy();
        }
        return Ok;
      }
      if record.None? { return NotFound; }
      var blob := record.value;
      match request
      case Part(index, token, _, now) =>
        if blob.expiresAt <= now { return Gone; }
        if index >= blob.parts { return BadRequest; }
        if token != blob.writeToken { return Forbidden; }
        if blob.complete { return Conflict; }
        Received(index);
        return Ok;
      case Finish(caller) =>
        if blob.owner != caller { return Forbidden; }
        if blob.received < blob.parts { return Conflict; }
        Finish();
        return Ok;
      case Discard(caller) =>
        if blob.owner != caller && blob.recipient != caller { return Forbidden; }
        Destroy();
        return Ok;
    }
  }

  function Mark(record: Option<Blob>, marks: set<nat>, index: nat): (Option<Blob>, set<nat>) {
    if record.None? || index in marks then (record, marks)
    else (Some(record.value.(received := record.value.received + 1)), marks + {index})
  }

  datatype Request =
    | Part(index: nat, token: Token, bytes: Sealed, now: nat)
    | Finish(caller: DeviceId)
    | Discard(caller: DeviceId)
    | Expire(now: nat)

  function MemoryAnswer(s: Store, id: BlobId, request: Request): (Store, Status) {
    match request
    case Part(index, token, bytes, now) => PutPart(s, id, index, token, bytes, now)
    case Finish(caller) => Complete(s, caller, id)
    case Discard(caller) => DeleteBlob(s, caller, id)
    case Expire(now) => (Sweep(s, now), Ok)
  }

  /** The same routes over the blob's own object: bytes go elsewhere, the record and the marks stay here. */
  function ObjectAnswer(record: Option<Blob>, marks: set<nat>, request: Request): (Option<Blob>, set<nat>, Status) {
    if request.Expire? then
      if record.Some? && record.value.expiresAt <= request.now then (None, {}, Ok) else (record, marks, Ok)
    else if record.None? then (record, marks, NotFound)
    else
      var blob := record.value;
      match request
      case Part(index, token, _, now) =>
        if blob.expiresAt <= now then (record, marks, Gone)
        else if index >= blob.parts then (record, marks, BadRequest)
        else if token != blob.writeToken then (record, marks, Forbidden)
        else if blob.complete then (record, marks, Conflict)
        else (Mark(record, marks, index).0, Mark(record, marks, index).1, Ok)
      case Finish(caller) =>
        if blob.owner != caller then (record, marks, Forbidden)
        else if blob.received < blob.parts then (record, marks, Conflict)
        else (Some(blob.(complete := true)), marks, Ok)
      case Discard(caller) =>
        if blob.owner != caller && blob.recipient != caller then (record, marks, Forbidden)
        else (None, {}, Ok)
  }

  function MemoryAfter(s: Store, id: BlobId, requests: seq<Request>): Store {
    if requests == [] then s
    else MemoryAnswer(MemoryAfter(s, id, requests[..|requests| - 1]), id, requests[|requests| - 1]).0
  }

  function ObjectAfter(record: Option<Blob>, marks: set<nat>, requests: seq<Request>): (Option<Blob>, set<nat>) {
    if requests == [] then (record, marks)
    else
      var before := ObjectAfter(record, marks, requests[..|requests| - 1]);
      var after := ObjectAnswer(before.0, before.1, requests[|requests| - 1]);
      (after.0, after.1)
  }

  function RecordOf(s: Store, id: BlobId): Option<Blob> {
    if id in s.blobs then Some(s.blobs[id]) else None
  }

  ghost predicate Agree(s: Store, id: BlobId, record: Option<Blob>, marks: set<nat>) {
    Housed(s) && record == RecordOf(s, id) && marks == StoredParts(s, id)
  }

  lemma PartAgrees(s: Store, id: BlobId, request: Request)
    requires Housed(s) && request.Part?
    ensures var m, o := MemoryAnswer(s, id, request), ObjectAnswer(RecordOf(s, id), StoredParts(s, id), request);
            Agree(m.0, id, o.0, o.1) && o.2 == m.1
  {
    var m := MemoryAnswer(s, id, request);
    if m.1 == Ok {
      assert forall i :: i in StoredParts(s, id) <==> (id, i) in s.parts;
      assert forall i :: i in StoredParts(m.0, id) <==> (id, i) in m.0.parts;
      assert StoredParts(m.0, id) == StoredParts(s, id) + {request.index};
    }
  }

  lemma FinishAgrees(s: Store, id: BlobId, request: Request)
    requires Housed(s) && request.Finish?
    ensures var m, o := MemoryAnswer(s, id, request), ObjectAnswer(RecordOf(s, id), StoredParts(s, id), request);
            Agree(m.0, id, o.0, o.1) && o.2 == m.1
  {
    SameStored(s, MemoryAnswer(s, id, request).0, id);
  }

  /** One request: the two hosts answer alike and keep the same record and the same marks. */
  lemma OneRequestAgrees(s: Store, id: BlobId, request: Request)
    requires Housed(s)
    ensures var m, o := MemoryAnswer(s, id, request), ObjectAnswer(RecordOf(s, id), StoredParts(s, id), request);
            Agree(m.0, id, o.0, o.1) && o.2 == m.1
  {
    if request.Part? {
      hide MemoryAnswer, ObjectAnswer, Agree;
      PartAgrees(s, id, request);
    } else if request.Finish? {
      hide MemoryAnswer, ObjectAnswer, Agree;
      FinishAgrees(s, id, request);
    } else if request.Expire? {
      hide Agree;
      ExpiryAgrees(s, id, request);
    } else {
      RemovedParts(s, id);
    }
  }

  /** A sweep and an alarm take the same blobs; the sweep takes others' as well. */
  lemma ExpiryAgrees(s: Store, id: BlobId, request: Request)
    requires Housed(s) && request.Expire?
    ensures var m, o := MemoryAnswer(s, id, request), ObjectAnswer(RecordOf(s, id), StoredParts(s, id), request);
            Agree(m.0, id, o.0, o.1) && o.2 == m.1
  {
    var m := Sweep(s, request.now);
    assert forall i :: i in StoredParts(s, id) <==> (id, i) in s.parts;
    assert forall i :: i in StoredParts(m, id) <==> (id, i) in m.parts;
    if id in m.blobs {
      assert StoredParts(m, id) == StoredParts(s, id);
    } else {
      assert StoredParts(m, id) == {};
    }
  }

  /** A blob just created is the same in both: an object with a new record and no marks. */
  lemma CreatedAgrees(s: Store, id: BlobId, owner: DeviceId, recipient: DeviceId, parts: nat, now: nat)
    requires Housed(s) && id !in s.blobs && 1 <= parts <= MAX_PARTS
    ensures Agree(CreateBlob(s, id, owner, recipient, parts, now).0, id,
                  Some(NewRecord(id, owner, recipient, parts, now)), {})
  {
    assert StoredParts(s, id) == {};
    SameStored(s, CreateBlob(s, id, owner, recipient, parts, now).0, id);
  }

  lemma RemovedParts(s: Store, id: BlobId)
    requires Housed(s)
    ensures Housed(Remove(s, id)) && StoredParts(Remove(s, id), id) == {}
  {
  }

  /** Fed the same requests, expiry included, both hosts hold the same record and the same stored indices. */
  lemma {:induction false} TalliesAgree(s: Store, id: BlobId, requests: seq<Request>)
    requires Housed(s)
    ensures var m, o := MemoryAfter(s, id, requests), ObjectAfter(RecordOf(s, id), StoredParts(s, id), requests);
            Agree(m, id, o.0, o.1)
  {
    hide MemoryAnswer, ObjectAnswer, Housed, StoredParts, RecordOf;
    if requests != [] {
      var front := requests[..|requests| - 1];
      TalliesAgree(s, id, front);
      OneRequestAgrees(MemoryAfter(s, id, front), id, requests[|requests| - 1]);
    }
  }
}
