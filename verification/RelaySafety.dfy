/**
  The relay over whole runs: any number of transfers, collection passes, crashes, lost requests and
  lost responses, sweeps and new pairings, in any order. No file that was handed to the relay is
  lost before its time, and what a recipient saves is what was sent.
 */
module RelaySafety {
  import opened Common
  import opened Files
  import opened Store
  import opened Relay
  import Digest

  /** Where a call of sendViaRelay stands; `trusted` is whether the recipient had paired when it was mailed. */
  datatype Phase =
    | Uploading(index: nat, attempt: nat)
    | Completing
    | Mailing
    | Returned(trusted: bool)
    | GivingUp
    | GaveUp(takenBack: bool)

  datatype Transfer = Transfer(parcel: Parcel, deadline: nat, phase: Phase)

  datatype Work =
    | Ready
    | Fetching(entry: Entry, index: nat, attempt: nat, hashes: seq<Option<Bytes>>, file: Bytes)
    | Acking(entry: Entry)

  /** One walk through a mailbox listing. */
  datatype Pass = Pass(device: DeviceId, rest: seq<Entry>, work: Work)

  /**
    Blob ids, entry ids and ephemeral keys are fresh random values; they are named here by the
    transfer they were drawn for. `saved` records every file a recipient's sink was closed on.
   */
  datatype World = World(
    now: nat,
    store: Store,
    paired: set<(DeviceId, DeviceId)>,
    transfers: map<nat, Transfer>,
    passes: map<nat, Pass>,
    saved: set<(DeviceId, BlobId, Bytes)>)

  datatype Event =
    | Elapse(ms: nat)
    | Pair(device: DeviceId, peer: DeviceId)
    | Send(t: nat, from: DeviceId, to: DeviceId, source: Bytes, partSize: nat, prefix: Bytes)
    | Upload(t: nat, fate: Fate)
    | Finish(t: nat, happens: bool)
    | Mail(t: nat, happens: bool)
    | TakeBack(t: nat, happens: bool)
    | List(pass: nat, device: DeviceId, order: seq<Entry>)
    | Open(pass: nat, acks: bool, opens: bool)
    | Fetch(pass: nat, fate: Fate, writes: bool)
    | Close(pass: nat, closes: bool)
    | Ack(pass: nat, happens: bool)
    | Crash(pass: nat)
    | SweepNow

  const BEGIN := World(0, EMPTY, {}, map[], map[], {})

  // ---- the sender's steps ----

  function Move(w: World, t: nat, phase: Phase): World
    requires t in w.transfers
  {
    w.(transfers := w.transfers[t := w.transfers[t].(phase := phase)])
  }

  function StartSend(w: World, t: nat, from: DeviceId, to: DeviceId, source: Bytes, partSize: nat,
                     prefix: Bytes): World {
    if t in w.transfers || (from, to) !in w.paired || partSize == 0 then w
    else
      var p := Parcel(from, to, source, partSize, t, prefix, t);
      var created := CreateBlob(w.store, t, from, to, Parts(p), w.now);
      if created.1 != Ok then w
      else w.(store := created.0, transfers := w.transfers[t := Transfer(p, w.now + TTL, Uploading(0, 1))])
  }

  function Again(index: nat, attempt: nat): Phase {
    if attempt == PART_ATTEMPTS then GivingUp else Uploading(index, attempt + 1)
  }

  function After(p: Parcel, index: nat): Phase {
    if p.partSize > 0 && index + 1 < Parts(p) then Uploading(index + 1, 1) else Completing
  }

  function UploadPart(w: World, t: nat, fate: Fate): World {
    if t !in w.transfers || !w.transfers[t].phase.Uploading? then w
    else
      var p, index, attempt := w.transfers[t].parcel, w.transfers[t].phase.index, w.transfers[t].phase.attempt;
      var put := PutPart(w.store, p.blobId, index, WriteToken(p.blobId), SealPart(p, index), w.now);
      match fate
      case Delivered => Move(w.(store := put.0), t, if put.1 == Ok then After(p, index) else GivingUp)
      case ResponseLost => Move(w.(store := put.0), t, Again(index, attempt))
      case RequestLost => Move(w, t, Again(index, attempt))
  }

  function FinishBlob(w: World, t: nat, happens: bool): World {
    if t !in w.transfers || !w.transfers[t].phase.Completing? then w
    else if !happens then Move(w, t, GivingUp)
    else
      var done := Complete(w.store, w.transfers[t].parcel.from, w.transfers[t].parcel.blobId);
      Move(w.(store := done.0), t, if done.1 == Ok then Mailing else GivingUp)
  }

  function MailEnvelope(w: World, t: nat, happens: bool): World {
    if t !in w.transfers || !w.transfers[t].phase.Mailing? || w.transfers[t].parcel.partSize == 0 then w
    else if !happens then Move(w, t, GivingUp)
    else
      var p := w.transfers[t].parcel;
      Move(w.(store := SendMail(w.store, p.from, p.to, EnvelopeOf(p), t)), t, Returned((p.to, p.from) in w.paired))
  }

  function TakeBlobBack(w: World, t: nat, happens: bool): World {
    if t !in w.transfers || !w.transfers[t].phase.GivingUp? then w
    else
      var p := w.transfers[t].parcel;
      Move(if happens then w.(store := DeleteBlob(w.store, p.from, p.blobId).0) else w, t, GaveUp(happens))
  }

  // ---- the recipient's steps ----

  /** An order in which a mailbox may be listed. */
  predicate Lists(order: seq<Entry>, box: map<EntryId, Entry>) {
    && |order| == |box|
    && (forall e :: e in order ==> e.id in box && box[e.id] == e)
    && (forall id :: id in box ==> box[id] in order)
  }

  function ListMailbox(w: World, k: nat, device: DeviceId, order: seq<Entry>): World {
    if k in w.passes || !Lists(order, Mailbox(w.store, device)) then w
    else w.(passes := w.passes[k := Pass(device, order, Ready)])
  }

  function Proceed(w: World, k: nat, rest: seq<Entry>, work: Work): World
    requires k in w.passes
  {
    w.(passes := w.passes[k := w.passes[k].(rest := rest, work := work)])
  }

  /** The next entry: strangers' mail is deleted unread, a partner's is opened and its sink created. */
  function OpenNext(w: World, k: nat, acks: bool, opens: bool): World {
    if k !in w.passes || !w.passes[k].work.Ready? || w.passes[k].rest == [] then w
    else
      var pass := w.passes[k];
      var e, rest := pass.rest[0], pass.rest[1..];
      if (pass.device, e.envelope.sender) !in w.paired then
        Proceed(if acks then w.(store := AckMail(w.store, pass.device, e.id).0) else w, k, rest, Ready)
      else if OpenEnvelope(pass.device, e.envelope.sender, e.envelope).None? || !opens then Proceed(w, k, rest, Ready)
      else Proceed(w, k, rest, Fetching(e, 0, 1, [], []))
  }

  function FetchPart(w: World, k: nat, fate: Fate, writes: bool): World {
    if k !in w.passes || !w.passes[k].work.Fetching? then w
    else
      var pass := w.passes[k];
      var f := pass.work;
      var o := OpenEnvelope(pass.device, f.entry.envelope.sender, f.entry.envelope);
      if o.None? || f.index >= f.entry.envelope.parts then w
      else if fate != Delivered then
        Proceed(w, k, pass.rest, if f.attempt == PART_ATTEMPTS then Ready else f.(attempt := f.attempt + 1))
      else
        var plain := PlainPart(w.store, f.entry.envelope, o.value, f.index, w.now);
        if plain.None? || !writes then Proceed(w, k, pass.rest, Ready)
        else Proceed(w, k, pass.rest,
                     Fetching(f.entry, f.index + 1, 1, Digest.Update(f.hashes, f.index, plain.value),
                              WriteAt(f.file, f.index * o.value.metadata.partSize, plain.value)))
  }

  function CloseFile(w: World, k: nat, closes: bool): World {
    if k !in w.passes || !w.passes[k].work.Fetching? then w
    else
      var pass := w.passes[k];
      var f := pass.work;
      if f.index < f.entry.envelope.parts then w
      else if Digest.Present(f.hashes) != Some(f.entry.envelope.meta.metadata.digest) || !closes then
        Proceed(w, k, pass.rest, Ready)
      else
        Proceed(w.(saved := w.saved + {(pass.device, f.entry.envelope.blobId, f.file)}), k, pass.rest, Acking(f.entry))
  }

  function AckEntry(w: World, k: nat, happens: bool): World {
    if k !in w.passes || !w.passes[k].work.Acking? then w
    else
      var pass := w.passes[k];
      var after := if happens then w.(store := AckMail(w.store, pass.device, pass.work.entry.id).0) else w;
      Proceed(after, k, pass.rest, Ready)
  }

  function Step(w: World, e: Event): World {
    match e
    case Elapse(ms) => w.(now := w.now + ms)
    case Pair(device, peer) => w.(paired := w.paired + {(device, peer)})
    case Send(t, from, to, source, partSize, prefix) => StartSend(w, t, from, to, source, partSize, prefix)
    case Upload(t, fate) => UploadPart(w, t, fate)
    case Finish(t, happens) => FinishBlob(w, t, happens)
    case Mail(t, happens) => MailEnvelope(w, t, happens)
    case TakeBack(t, happens) => TakeBlobBack(w, t, happens)
    case List(k, device, order) => ListMailbox(w, k, device, order)
    case Open(k, acks, opens) => OpenNext(w, k, acks, opens)
    case Fetch(k, fate, writes) => FetchPart(w, k, fate, writes)
    case Close(k, closes) => CloseFile(w, k, closes)
    case Ack(k, happens) => AckEntry(w, k, happens)
    case Crash(k) => w.(passes := w.passes - {k})
    case SweepNow => w.(store := Sweep(w.store, w.now))
  }

  function Run(w: World, events: seq<Event>): World {
    if events == [] then w else Step(Run(w, events[..|events| - 1]), events[|events| - 1])
  }

  // ---- the invariant ----

  function EntryOf(t: nat, p: Parcel): Entry
    requires p.partSize > 0
  {
    Entry(t, p.from, EnvelopeOf(p))
  }

  ghost predicate Genuine(p: Parcel, parts: map<(BlobId, nat), Sealed>) {
    forall i: nat :: (p.blobId, i) in parts ==> parts[(p.blobId, i)] == SealPart(p, i)
  }

  ghost predicate Has(p: Parcel, parts: map<(BlobId, nat), Sealed>, n: nat) {
    forall i: nat :: i < n ==> (p.blobId, i) in parts
  }

  predicate RecordFits(tr: Transfer, b: Blob)
    requires tr.parcel.partSize > 0
  {
    var p := tr.parcel;
    b.owner == p.from && b.recipient == p.to && b.parts == Parts(p) && b.expiresAt == tr.deadline
    && b.writeToken == WriteToken(p.blobId) && b.readToken == ReadToken(p.blobId)
  }

  /** The blob is there with these parts in it, unless its time is over. */
  ghost predicate Holds(w: World, tr: Transfer, complete: bool, n: nat) {
    var id := tr.parcel.blobId;
    && (id !in w.store.blobs ==> tr.deadline <= w.now)
    && (id in w.store.blobs ==> w.store.blobs[id].complete == complete && Has(tr.parcel, w.store.parts, n))
  }

  /** What the phase of a transfer says about its blob and its mail. */
  ghost predicate PhaseFits(w: World, t: nat, tr: Transfer)
    requires tr.parcel.partSize > 0
  {
    var p := tr.parcel;
    var mailed := t in Mailbox(w.store, p.to);
    match tr.phase
    case Uploading(index, attempt) => index < Parts(p) && 1 <= attempt <= PART_ATTEMPTS && Holds(w, tr, false, index)
    case Completing => Holds(w, tr, false, Parts(p))
    case Mailing => Holds(w, tr, true, Parts(p))
    case Returned(trusted) =>
      trusted ==>
        && (p.to, p.from) in w.paired
        && ((p.to, t, p.source) in w.saved || (mailed && Holds(w, tr, true, Parts(p))))
    case GivingUp => true
    case GaveUp(_) => true
  }

  ghost predicate TransferFits(w: World, t: nat) {
    t in w.transfers ==>
      var tr := w.transfers[t];
      && tr.parcel.partSize > 0 && tr.parcel.blobId == tr.parcel.ephemeral == t
      && (t in w.store.blobs ==> RecordFits(tr, w.store.blobs[t]))
      && Genuine(tr.parcel, w.store.parts)
      && PhaseFits(w, t, tr)
  }

  /** An entry a device may hold: the mail of a transfer to it that returned. */
  ghost predicate Known(transfers: map<nat, Transfer>, device: DeviceId, e: Entry) {
    && e.id in transfers
    && var tr := transfers[e.id];
       && tr.phase.Returned? && tr.parcel.to == device && tr.parcel.partSize > 0
       && tr.parcel.blobId == tr.parcel.ephemeral == e.id && e == EntryOf(e.id, tr.parcel)
  }

  ghost predicate MailFits(w: World) {
    forall d, id :: id in Mailbox(w.store, d) ==>
      Mailbox(w.store, d)[id].id == id && Known(w.transfers, d, Mailbox(w.store, d)[id])
  }

  /** A pass has hashed and written exactly the parts before the one it is on. */
  ghost predicate WorkFits(w: World, device: DeviceId, work: Work) {
    match work
    case Ready => true
    case Fetching(e, index, attempt, hashes, file) =>
      && Known(w.transfers, device, e)
      && var p := w.transfers[e.id].parcel;
         && (device, p.from) in w.paired
         && index == |hashes| <= Parts(p) && 1 <= attempt <= PART_ATTEMPTS
         && HashesOf(hashes, p.source, p.partSize)
         && file == p.source[..Upto(|p.source|, p.partSize, index)]
    case Acking(e) => Known(w.transfers, device, e) && (device, e.id, w.transfers[e.id].parcel.source) in w.saved
  }

  ghost predicate PassFits(w: World, pass: Pass) {
    && (forall e :: e in pass.rest ==> Known(w.transfers, pass.device, e))
    && WorkFits(w, pass.device, pass.work)
  }

  ghost predicate PassesFit(w: World) {
    forall k :: k in w.passes ==> PassFits(w, w.passes[k])
  }

  /** Whatever was saved is the file of a transfer to that device, whole and unchanged. */
  ghost predicate SavedFit(w: World) {
    forall s :: s in w.saved ==>
      s.1 in w.transfers && w.transfers[s.1].parcel.to == s.0 && w.transfers[s.1].parcel.source == s.2
  }

  ghost predicate StoreFits(w: World) {
    Tallied(w.store) && forall id :: id in w.store.blobs ==> id in w.transfers
  }

  ghost predicate Inv(w: World) {
    && StoreFits(w) && MailFits(w) && PassesFit(w) && SavedFit(w)
    && forall t :: TransferFits(w, t)
  }

  // ---- what does not concern a transfer or a pass leaves it alone ----

  /** Time goes on, records only grow, and a call that returned stays returned. */
  ghost predicate Onward(w: World, w': World) {
    && w.now <= w'.now && w.paired <= w'.paired && w.saved <= w'.saved
    && forall t :: t in w.transfers ==>
         && t in w'.transfers && w'.transfers[t].parcel == w.transfers[t].parcel
         && (w.transfers[t].phase.Returned? ==> w'.transfers[t].phase == w.transfers[t].phase)
  }

  /** Nothing about a transfer, its blob or its mail changed. */
  ghost predicate Quiet(w: World, w': World, t: nat) {
    && (t in w'.transfers ==>
          && t in w.transfers && w'.transfers[t] == w.transfers[t]
          && (t in Mailbox(w.store, w.transfers[t].parcel.to) <==> t in Mailbox(w'.store, w.transfers[t].parcel.to)))
    && (t in w.store.blobs <==> t in w'.store.blobs)
    && (t in w.store.blobs ==> w'.store.blobs[t] == w.store.blobs[t])
    && forall i: nat :: ((t, i) in w.store.parts <==> (t, i) in w'.store.parts)
                        && ((t, i) in w.store.parts ==> w'.store.parts[(t, i)] == w.store.parts[(t, i)])
  }

  lemma QuietFits(w: World, w': World, t: nat)
    requires TransferFits(w, t) && Onward(w, w') && Quiet(w, w', t)
    ensures TransferFits(w', t)
  {
    hide Mailbox, SealPart, Parts;
  }

  lemma KnownOnward(w: World, w': World, device: DeviceId, e: Entry)
    requires Known(w.transfers, device, e) && Onward(w, w')
    ensures Known(w'.transfers, device, e)
  {
    hide EntryOf;
  }

  lemma PassOnward(w: World, w': World, pass: Pass)
    requires PassFits(w, pass) && Onward(w, w')
    ensures PassFits(w', pass)
  {
    hide Known, HashesOf, Upto, Parts;
    forall e | e in pass.rest
      ensures Known(w'.transfers, pass.device, e)
    {
      KnownOnward(w, w', pass.device, e);
    }
    match pass.work
    case Fetching(e, _, _, _, _) => KnownOnward(w, w', pass.device, e); SameParcel(w, w', pass.device, e);
    case Acking(e) => KnownOnward(w, w', pass.device, e); SameParcel(w, w', pass.device, e);
    case Ready =>
  }

  lemma SameParcel(w: World, w': World, device: DeviceId, e: Entry)
    requires Known(w.transfers, device, e) && Onward(w, w')
    ensures e.id in w.transfers && e.id in w'.transfers && w'.transfers[e.id].parcel == w.transfers[e.id].parcel
    ensures w.transfers[e.id].parcel.partSize > 0
  {
    hide EntryOf;
  }

  ghost predicate MailNotNew(w: World, w': World) {
    forall d, id :: id in Mailbox(w'.store, d) ==>
                      id in Mailbox(w.store, d) && Mailbox(w'.store, d)[id] == Mailbox(w.store, d)[id]
  }

  lemma MailOnward(w: World, w': World)
    requires MailFits(w) && Onward(w, w') && MailNotNew(w, w')
    ensures MailFits(w')
  {
    hide Known, Onward, Mailbox;
    forall d, id | id in Mailbox(w'.store, d)
      ensures Mailbox(w'.store, d)[id].id == id && Known(w'.transfers, d, Mailbox(w'.store, d)[id])
    {
      KnownOnward(w, w', d, Mailbox(w.store, d)[id]);
    }
  }

  /**
    A step that concerns one transfer keeps the invariant if that transfer still fits, and so do the
    passes it moved.
   */
  lemma {:induction false} Assemble(w: World, w': World, t: nat)
    requires Inv(w) && Onward(w, w') && StoreFits(w') && MailFits(w') && SavedFit(w')
    requires TransferFits(w', t) && forall u: nat :: u != t ==> Quiet(w, w', u)
    requires forall k :: k in w'.passes ==> (k in w.passes && w'.passes[k] == w.passes[k]) || PassFits(w', w'.passes[k])
    ensures Inv(w')
  {
    hide Onward, TransferFits, Quiet, PassFits, StoreFits, MailFits, SavedFit;
    forall u: nat
      ensures TransferFits(w', u)
    {
      if u != t {
        assert TransferFits(w, u);
        QuietFits(w, w', u);
      }
    }
    forall k | k in w'.passes
      ensures PassFits(w', w'.passes[k])
    {
      if k in w.passes && w'.passes[k] == w.passes[k] {
        PassOnward(w, w', w.passes[k]);
      }
    }
  }

  /** A step that concerns no transfer at all. */
  lemma AssembleQuiet(w: World, w': World)
    requires Inv(w) && Onward(w, w') && w'.store == w.store && w'.transfers == w.transfers && SavedFit(w')
    requires forall k :: k in w'.passes ==> (k in w.passes && w'.passes[k] == w.passes[k]) || PassFits(w', w'.passes[k])
    ensures Inv(w')
  {
    hide TransferFits, PassFits, Tallied, SavedFit, Mailbox, Known;
    var t: nat := 0;
    assert TransferFits(w, t);
    QuietFits(w, w', t);
    MailOnward(w, w');
    Assemble(w, w', t);
  }

  // ---- steps of the surroundings ----

  lemma ElapseKeeps(w: World, ms: nat)
    requires Inv(w)
    ensures Inv(Step(w, Elapse(ms)))
  {
    hide TransferFits, PassFits, Tallied, Mailbox, Known;
    AssembleQuiet(w, Step(w, Elapse(ms)));
  }

  lemma {:induction false} PairKeeps(w: World, device: DeviceId, peer: DeviceId)
    requires Inv(w)
    ensures Inv(Step(w, Pair(device, peer)))
  {
    hide TransferFits, PassFits, Tallied, Mailbox, Known;
    AssembleQuiet(w, Step(w, Pair(device, peer)));
  }

  lemma {:induction false} CrashKeeps(w: World, k: nat)
    requires Inv(w)
    ensures Inv(Step(w, Crash(k)))
  {
    hide TransferFits, PassFits, Tallied, Mailbox, Known;
    AssembleQuiet(w, Step(w, Crash(k)));
  }

  // ---- the sender's steps keep it ----

  /** The stores differ in one blob and its parts at most. */
  ghost predicate OnlyBlob(s: Store, s': Store, t: nat) {
    && s'.mailboxes == s.mailboxes
    && (forall u :: u != t ==> (u in s.blobs <==> u in s'.blobs) && (u in s.blobs ==> s'.blobs[u] == s.blobs[u]))
    && forall u: nat, i: nat {:trigger (u, i) in s'.parts} :: u != t ==>
         ((u, i) in s.parts <==> (u, i) in s'.parts) && ((u, i) in s.parts ==> s'.parts[(u, i)] == s.parts[(u, i)])
  }

  lemma OthersQuiet(w: World, w': World, t: nat, u: nat)
    requires OnlyBlob(w.store, w'.store, t) && u != t
    requires u in w'.transfers ==> u in w.transfers && w'.transfers[u] == w.transfers[u]
    ensures Quiet(w, w', u)
  {
    forall i: nat
      ensures ((u, i) in w.store.parts <==> (u, i) in w'.store.parts)
              && ((u, i) in w.store.parts ==> w'.store.parts[(u, i)] == w.store.parts[(u, i)])
    {
      assert (u, i) in w'.store.parts <==> (u, i) in w.store.parts;
    }
  }

  lemma SameMail(w: World, w': World)
    requires MailFits(w) && Onward(w, w') && w'.store.mailboxes == w.store.mailboxes
    ensures MailFits(w')
  {
    hide Onward, MailFits;
    MailOnward(w, w');
  }

  /** A sender's step changes its own transfer's phase and blob, and that is all. */
  lemma {:induction false} SenderStep(w: World, s: Store, t: nat, phase: Phase)
    requires Inv(w) && t in w.transfers && !w.transfers[t].phase.Returned?
    requires OnlyBlob(w.store, s, t) && Tallied(s) && forall id :: id in s.blobs ==> id in w.transfers
    requires TransferFits(Move(w.(store := s), t, phase), t)
    ensures Inv(Move(w.(store := s), t, phase))
  {
    hide TransferFits, PassFits, Tallied, Quiet, MailFits, OnlyBlob;
    var w' := Move(w.(store := s), t, phase);
    forall u: nat | u != t
      ensures Quiet(w, w', u)
    {
      OthersQuiet(w, w', t, u);
    }
    assert s.mailboxes == w.store.mailboxes by {
      SameBoxes(w.store, s, t);
    }
    SameMail(w, w');
    Assemble(w, w', t);
  }

  lemma SameBoxes(s: Store, s': Store, t: nat)
    requires OnlyBlob(s, s', t)
    ensures s'.mailboxes == s.mailboxes
  {
  }

  /** A step that only moves the call on to a phase its blob allows. */
  lemma {:induction false} PhaseStep(w: World, t: nat, phase: Phase)
    requires Inv(w) && t in w.transfers && !w.transfers[t].phase.Returned?
    requires TransferFits(Move(w, t, phase), t)
    ensures Inv(Move(w, t, phase))
  {
    hide TransferFits, PassFits, Tallied, MailFits, SavedFit, PassesFit;
    assert w.(store := w.store) == w;
    SenderStep(w, w.store, t, phase);
  }

  /** Giving up asks nothing of the blob. */
  lemma GiveUpStep(w: World, t: nat, phase: Phase)
    requires Inv(w) && t in w.transfers && !w.transfers[t].phase.Returned? && (phase.GivingUp? || phase.GaveUp?)
    ensures Inv(Move(w, t, phase))
  {
    hide PassesFit, Tallied, MailFits, SavedFit, Mailbox, SealPart;
    assert TransferFits(w, t);
    PhaseStep(w, t, phase);
  }

  /** The part stored is genuine, so a blob stays what its transfer says it is. */
  lemma UploadFits(w: World, t: nat, phase: Phase)
    requires TransferFits(w, t) && t in w.transfers && w.transfers[t].phase.Uploading?
    requires var p, i := w.transfers[t].parcel, w.transfers[t].phase.index;
             PutPart(w.store, t, i, WriteToken(t), SealPart(p, i), w.now).1 == Ok
    requires phase == After(w.transfers[t].parcel, w.transfers[t].phase.index)
             || phase == Again(w.transfers[t].phase.index, w.transfers[t].phase.attempt)
    ensures var p, i := w.transfers[t].parcel, w.transfers[t].phase.index;
            var put := PutPart(w.store, t, i, WriteToken(t), SealPart(p, i), w.now);
            && TransferFits(Move(w.(store := put.0), t, phase), t) && OnlyBlob(w.store, put.0, t)
            && forall id :: id in put.0.blobs ==> id in w.store.blobs
  {
    hide ChunkCount, SealPart, Mailbox;
  }

  lemma {:induction false} UploadKeeps(w: World, t: nat, fate: Fate)
    requires Inv(w)
    ensures Inv(UploadPart(w, t, fate))
  {
    hide PassesFit, MailFits, SavedFit, SealPart, After, Tallied, OnlyBlob, PutPart;
    if t in w.transfers && w.transfers[t].phase.Uploading? {
      assert TransferFits(w, t);
      var p, i := w.transfers[t].parcel, w.transfers[t].phase.index;
      var phase := if fate == Delivered then After(p, i) else Again(i, w.transfers[t].phase.attempt);
      var put := PutPart(w.store, t, i, WriteToken(t), SealPart(p, i), w.now);
      if fate != RequestLost && put.1 == Ok {
        PutPartTallied(w.store, t, i, WriteToken(t), SealPart(p, i), w.now);
        UploadFits(w, t, phase);
        SenderStep(w, put.0, t, phase);
      } else {
        assert put.1 != Ok ==> put.0 == w.store by {
          RefusedPut(w.store, t, i, WriteToken(t), SealPart(p, i), w.now);
        }
        if fate == Delivered || w.transfers[t].phase.attempt == PART_ATTEMPTS {
          GiveUpStep(w, t, GivingUp);
        } else {
          PhaseStep(w, t, Uploading(i, w.transfers[t].phase.attempt + 1));
        }
      }
    }
  }

  lemma RefusedPut(s: Store, id: BlobId, index: nat, token: Token, bytes: Sealed, now: nat)
    ensures PutPart(s, id, index, token, bytes, now).1 != Ok ==> PutPart(s, id, index, token, bytes, now).0 == s
  {
  }

  lemma FinishFits(w: World, t: nat)
    requires TransferFits(w, t) && t in w.transfers && w.transfers[t].phase.Completing?
    requires Complete(w.store, w.transfers[t].parcel.from, t).1 == Ok
    ensures var s := Complete(w.store, w.transfers[t].parcel.from, t).0;
            && TransferFits(Move(w.(store := s), t, Mailing), t) && OnlyBlob(w.store, s, t)
            && forall id :: id in s.blobs ==> id in w.store.blobs
  {
    hide ChunkCount, SealPart, Mailbox;
  }

  lemma FinishKeeps(w: World, t: nat, happens: bool)
    requires Inv(w)
    ensures Inv(FinishBlob(w, t, happens))
  {
    hide PassesFit, MailFits, SavedFit, SealPart, Tallied, OnlyBlob, Complete;
    if t in w.transfers && w.transfers[t].phase.Completing? {
      assert TransferFits(w, t);
      var done := Complete(w.store, w.transfers[t].parcel.from, t);
      if happens && done.1 == Ok {
        CompleteTallied(w.store, w.transfers[t].parcel.from, t);
        FinishFits(w, t);
        SenderStep(w, done.0, t, Mailing);
      } else {
        assert done.1 != Ok ==> done.0 == w.store by {
          RefusedFinish(w.store, w.transfers[t].parcel.from, t);
        }
        GiveUpStep(w, t, GivingUp);
      }
    }
  }

  lemma RefusedFinish(s: Store, caller: DeviceId, id: BlobId)
    ensures Complete(s, caller, id).1 != Ok ==> Complete(s, caller, id).0 == s
  {
  }

  lemma RemovedFits(w: World, t: nat)
    requires TransferFits(w, t) && t in w.transfers && w.transfers[t].phase.GivingUp?
    ensures TransferFits(Move(w.(store := Remove(w.store, t)), t, GaveUp(true)), t)
            && OnlyBlob(w.store, Remove(w.store, t), t)
  {
    hide ChunkCount, SealPart, Mailbox;
  }

  lemma {:induction false} TakeBackKeeps(w: World, t: nat, happens: bool)
    requires Inv(w)
    ensures Inv(TakeBlobBack(w, t, happens))
  {
    hide PassesFit, MailFits, SavedFit, SealPart, Tallied, OnlyBlob, Remove;
    if t in w.transfers && w.transfers[t].phase.GivingUp? {
      assert TransferFits(w, t);
      if happens && t in w.store.blobs {
        RemoveTallied(w.store, t);
        RemovedFits(w, t);
        RemovesOnly(w.store, t);
        SenderStep(w, Remove(w.store, t), t, GaveUp(true));
      } else {
        assert w.(store := w.store) == w;
        GiveUpStep(w, t, GaveUp(happens));
      }
    }
  }

  lemma RemovesOnly(s: Store, id: BlobId)
    ensures forall other :: other in Remove(s, id).blobs <==> other in s.blobs && other != id
    ensures Remove(s, id).mailboxes == s.mailboxes
  {
  }

  lemma StartFits(w: World, t: nat, from: DeviceId, to: DeviceId, source: Bytes, partSize: nat, prefix: Bytes)
    requires StoreFits(w) && t !in w.transfers
    ensures var w' := StartSend(w, t, from, to, source, partSize, prefix);
            && TransferFits(w', t) && OnlyBlob(w.store, w'.store, t)
            && forall id :: id in w'.store.blobs ==> id in w'.transfers
  {
    hide ChunkCount, SealPart, Mailbox;
  }

  lemma {:induction false} SendKeeps(w: World, t: nat, from: DeviceId, to: DeviceId, source: Bytes, partSize: nat,
                                     prefix: Bytes)
    requires Inv(w)
    ensures Inv(StartSend(w, t, from, to, source, partSize, prefix))
  {
    hide TransferFits, PassFits, MailFits, Tallied, OnlyBlob, Quiet, Parts, CreateBlob;
    var w' := StartSend(w, t, from, to, source, partSize, prefix);
    if w' != w {
      StartFits(w, t, from, to, source, partSize, prefix);
      CreateTallied(w.store, t, from, to, Parts(w'.transfers[t].parcel), w.now);
      SameBoxes(w.store, w'.store, t);
      SameMail(w, w');
      forall u: nat | u != t
        ensures Quiet(w, w', u)
      {
        OthersQuiet(w, w', t, u);
      }
      Assemble(w, w', t);
    }
  }

  lemma Posted(s: Store, caller: DeviceId, to: DeviceId, envelope: Envelope, id: EntryId, d: DeviceId, i: EntryId)
    ensures var s' := SendMail(s, caller, to, envelope, id);
            && s'.blobs == s.blobs && s'.parts == s.parts
            && (i in Mailbox(s', d) <==> i in Mailbox(s, d) || (d == to && i == id))
            && (i in Mailbox(s', d) ==>
                  Mailbox(s', d)[i] == if d == to && i == id then Entry(id, caller, envelope) else Mailbox(s, d)[i])
  {
  }

  lemma MailFitsAfter(w: World, w': World, t: nat)
    requires MailFits(w) && Onward(w, w') && t in w'.transfers && w'.transfers[t].parcel.partSize > 0
    requires Known(w'.transfers, w'.transfers[t].parcel.to, EntryOf(t, w'.transfers[t].parcel))
    requires var p := w'.transfers[t].parcel; w'.store == SendMail(w.store, p.from, p.to, EnvelopeOf(p), t)
    ensures MailFits(w')
  {
    hide Known, Onward, Mailbox, SendMail;
    var p := w'.transfers[t].parcel;
    forall d, i | i in Mailbox(w'.store, d)
      ensures Mailbox(w'.store, d)[i].id == i && Known(w'.transfers, d, Mailbox(w'.store, d)[i])
    {
      Posted(w.store, p.from, p.to, EnvelopeOf(p), t, d, i);
      if d != p.to || i != t {
        KnownOnward(w, w', d, Mailbox(w.store, d)[i]);
      }
    }
  }

  lemma MailKeeps(w: World, t: nat, happens: bool)
    requires Inv(w)
    ensures Inv(MailEnvelope(w, t, happens))
  {
    hide PassFits, MailFits, Tallied, Quiet, Parts, SendMail, Mailbox, SealPart, Genuine, Has;
    if t in w.transfers && w.transfers[t].phase.Mailing? {
      assert TransferFits(w, t);
      if !happens {
        hide Inv;
        GiveUpStep(w, t, GivingUp);
      } else {
        var w', p := MailEnvelope(w, t, happens), w.transfers[t].parcel;
        forall u: nat
          ensures u != t ==> Quiet(w, w', u)
          ensures u == t ==> TransferFits(w', u)
        {
          var d := if u in w.transfers then w.transfers[u].parcel.to else p.to;
          Posted(w.store, p.from, p.to, EnvelopeOf(p), t, d, u);
          if u != t {
            MailQuiet(w, w', t, u);
          }
        }
        Posted(w.store, p.from, p.to, EnvelopeOf(p), t, p.to, t);
        MailTallied(w.store, w'.store);
        MailFitsAfter(w, w', t);
        Assemble(w, w', t);
      }
    }
  }

  lemma MailQuiet(w: World, w': World, t: nat, u: nat)
    requires u != t && w'.store.blobs == w.store.blobs && w'.store.parts == w.store.parts
    requires u in w'.transfers ==>
               && u in w.transfers && w'.transfers[u] == w.transfers[u]
               && (u in Mailbox(w.store, w.transfers[u].parcel.to) <==>
                 u in Mailbox(w'.store, w.transfers[u].parcel.to))
    ensures Quiet(w, w', u)
  {
    hide Mailbox;
  }

  // ---- the recipient's steps keep it ----

  /** A pass may hold what it already held, and work that fits. */
  lemma PassStep(w: World, k: nat, rest: seq<Entry>, work: Work)
    requires Inv(w) && k in w.passes && WorkFits(w, w.passes[k].device, work)
    requires forall e :: e in rest ==> e in w.passes[k].rest
    ensures Inv(Proceed(w, k, rest, work))
  {
    hide TransferFits, Tallied, Mailbox, Known, HashesOf, Upto, Parts;
    var w' := Proceed(w, k, rest, work);
    assert PassFits(w, w.passes[k]);
    assert PassFits(w, w'.passes[k]);
    PassOnward(w, w', w'.passes[k]);
    AssembleQuiet(w, w');
  }

  lemma ListKeeps(w: World, k: nat, device: DeviceId, order: seq<Entry>)
    requires Inv(w)
    ensures Inv(ListMailbox(w, k, device, order))
  {
    hide TransferFits, Tallied, Mailbox, Known;
    var w' := ListMailbox(w, k, device, order);
    if w' != w {
      assert PassFits(w', w'.passes[k]);
      AssembleQuiet(w, w');
    }
  }

  lemma Acked(s: Store, caller: DeviceId, id: EntryId, d: DeviceId, i: EntryId)
    requires id in Mailbox(s, caller) && Mailbox(s, caller)[id].envelope.blobId == id
    ensures var s' := AckMail(s, caller, id).0;
            && s'.blobs == Remove(s, id).blobs && s'.parts == Remove(s, id).parts
            && (i in Mailbox(s', d) <==> i in Mailbox(s, d) && (d != caller || i != id))
            && (i in Mailbox(s', d) ==> Mailbox(s', d)[i] == Mailbox(s, d)[i])
  {
  }

  lemma AckTallied(s: Store, caller: DeviceId, id: EntryId)
    requires Tallied(s)
    ensures Tallied(AckMail(s, caller, id).0)
  {
    hide Tallied, Remove;
    if id in Mailbox(s, caller) {
      var s1 := s.(mailboxes := s.mailboxes[caller := Mailbox(s, caller) - {id}]);
      MailTallied(s, s1);
      RemoveTallied(s1, Mailbox(s, caller)[id].envelope.blobId);
    }
  }

  lemma AckedFits(w: World, w': World, t: nat)
    requires TransferFits(w, t) && t in w.transfers && w.transfers[t].phase.Returned?
    requires w'.transfers == w.transfers && w'.paired == w.paired && w'.saved == w.saved && w'.now == w.now
    requires w'.store.blobs == Remove(w.store, t).blobs && w'.store.parts == Remove(w.store, t).parts
    requires var p := w.transfers[t].parcel; w.transfers[t].phase.trusted ==> (p.to, t, p.source) in w.saved
    ensures TransferFits(w', t)
  {
    hide ChunkCount, SealPart, Mailbox;
  }

  lemma RemoveQuiet(w: World, w': World, t: nat, u: nat)
    requires u != t && w'.transfers == w.transfers
    requires w'.store.blobs == Remove(w.store, t).blobs && w'.store.parts == Remove(w.store, t).parts
    requires u in w.transfers ==>
             (u in Mailbox(w.store, w.transfers[u].parcel.to) <==> u in Mailbox(w'.store, w.transfers[u].parcel.to))
    ensures Quiet(w, w', u)
  {
    hide Mailbox;
  }

  /** An envelope may be taken out, blob and all, once its file was saved or if it was never to be trusted. */
  lemma {:induction false} AckStep(w: World, device: DeviceId, e: Entry)
    requires Inv(w) && Known(w.transfers, device, e)
    requires var tr := w.transfers[e.id];
             tr.phase.trusted ==> (device, e.id, tr.parcel.source) in w.saved
    ensures Inv(w.(store := AckMail(w.store, device, e.id).0))
  {
    var w', t := w.(store := AckMail(w.store, device, e.id).0), e.id;
    hide PassFits, Tallied, Quiet, Parts, AckMail, Mailbox, Remove, Known, TransferFits;
    if t !in Mailbox(w.store, device) {
      NothingToAck(w.store, device, t);
      assert w' == w;
    } else {
      KnownMeans(w, device, Mailbox(w.store, device)[t]);
      KnownMeans(w, device, e);
      forall d, i
        ensures (i in Mailbox(w'.store, d) <==> i in Mailbox(w.store, d) && (d != device || i != t))
                && (i in Mailbox(w'.store, d) ==> Mailbox(w'.store, d)[i] == Mailbox(w.store, d)[i])
      {
        Acked(w.store, device, t, d, i);
      }
      Acked(w.store, device, t, device, t);
      AckTallied(w.store, device, t);
      RemovesOnly(w.store, t);
      forall u: nat | u != t
        ensures Quiet(w, w', u)
      {
        RemoveQuiet(w, w', t, u);
      }
      assert TransferFits(w, t);
      AckedFits(w, w', t);
      MailOnward(w, w');
      Assemble(w, w', t);
    }
  }

  lemma NothingToAck(s: Store, caller: DeviceId, id: EntryId)
    requires id !in Mailbox(s, caller)
    ensures AckMail(s, caller, id).0 == s
  {
  }

  lemma KnownMeans(w: World, device: DeviceId, e: Entry)
    requires Known(w.transfers, device, e)
    ensures e.id in w.transfers && var tr := w.transfers[e.id];
            && tr.phase.Returned? && tr.parcel.to == device && tr.parcel.partSize > 0
            && tr.parcel.blobId == e.id && e.envelope.blobId == e.id && e.envelope.sender == tr.parcel.from
            && e.envelope == EnvelopeOf(tr.parcel)
  {
  }

  lemma {:induction false} OpenKeeps(w: World, k: nat, acks: bool, opens: bool)
    requires Inv(w)
    ensures Inv(OpenNext(w, k, acks, opens))
  {
    hide TransferFits, Known, Mailbox, AckMail, OpenEnvelope, Parts, HashesOf;
    if k in w.passes && w.passes[k].work.Ready? && w.passes[k].rest != [] {
      var pass := w.passes[k];
      var e, rest := pass.rest[0], pass.rest[1..];
      assert PassFits(w, pass);
      KnownMeans(w, pass.device, e);
      if (pass.device, e.envelope.sender) in w.paired {
        NoHashes(w.transfers[e.id].parcel.source, w.transfers[e.id].parcel.partSize);
        PassStep(w, k, rest, if OpenEnvelope(pass.device, e.envelope.sender, e.envelope).None? || !opens then Ready
                             else Fetching(e, 0, 1, [], []));
      } else if acks {
        StrangerNotTrusted(w, e.id);
        AckStep(w, pass.device, e);
        PassStep(w.(store := AckMail(w.store, pass.device, e.id).0), k, rest, Ready);
      } else {
        PassStep(w, k, rest, Ready);
      }
    }
  }

  lemma NoHashes(source: Bytes, partSize: nat)
    ensures HashesOf([], source, partSize) && source[..Upto(|source|, partSize, 0)] == []
  {
  }

  lemma {:induction false} StrangerNotTrusted(w: World, t: nat)
    requires Inv(w) && t in w.transfers && w.transfers[t].phase.Returned?
    requires var p := w.transfers[t].parcel; (p.to, p.from) !in w.paired
    ensures !w.transfers[t].phase.trusted
  {
    hide PassesFit, MailFits, SavedFit, StoreFits, Mailbox, Holds, Parts;
    assert TransferFits(w, t);
  }

  /** Every answered request yields the genuine part. */
  lemma GenuinePart(w: World, device: DeviceId, e: Entry, index: nat, at: nat)
    requires Inv(w) && Known(w.transfers, device, e)
    ensures var p := w.transfers[e.id].parcel;
            var o := OpenEnvelope(device, e.envelope.sender, e.envelope);
            && o.Some? && o.value.metadata.partSize == p.partSize && e.envelope.parts == Parts(p)
            && e.envelope.meta.metadata.digest == Chunks(p.source, p.partSize)
            && var plain := PlainPart(w.store, e.envelope, o.value, index, at);
               plain.Some? ==> plain.value == Chunk(p.source, p.partSize, index)
  {
    hide PassesFit, MailFits, SavedFit, StoreFits, PhaseFits, ChunkCount, Chunk, Chunks;
    assert TransferFits(w, e.id);
  }

  /** One part further, in the digest and in the file. */
  lemma PartWritten(p: Parcel, hashes: seq<Option<Bytes>>, file: Bytes)
    requires p.partSize > 0 && |hashes| < Parts(p) && HashesOf(hashes, p.source, p.partSize)
    requires file == p.source[..Upto(|p.source|, p.partSize, |hashes|)]
    ensures var plain := Chunk(p.source, p.partSize, |hashes|);
            var hs := Digest.Update(hashes, |hashes|, plain);
            && |hs| == |hashes| + 1 && HashesOf(hs, p.source, p.partSize)
            && WriteAt(file, |hashes| * p.partSize, plain) == p.source[..Upto(|p.source|, p.partSize, |hashes| + 1)]
  {
    hide Chunk, WriteAt, Upto, HashesOf, Digest.Update, ChunkCount;
    NextHash(hashes, p.source, p.partSize);
    WriteNextChunk(p.source, p.partSize, |hashes|);
  }

  lemma FetchKeeps(w: World, k: nat, fate: Fate, writes: bool)
    requires Inv(w)
    ensures Inv(FetchPart(w, k, fate, writes))
  {
    hide TransferFits, Known, Mailbox, OpenEnvelope, Parts, HashesOf, PlainPart, Chunk, WriteAt, Upto, Digest.Update;
    if k in w.passes && w.passes[k].work.Fetching? {
      var pass := w.passes[k];
      var f := pass.work;
      assert PassFits(w, pass);
      GenuinePart(w, pass.device, f.entry, f.index, w.now);
      KnownMeans(w, pass.device, f.entry);
      var p := w.transfers[f.entry.id].parcel;
      if f.index < f.entry.envelope.parts {
        PartWritten(p, f.hashes, f.file);
        PassStep(w, k, pass.rest, FetchPart(w, k, fate, writes).passes[k].work);
      }
    }
  }

  lemma CloseKeeps(w: World, k: nat, closes: bool)
    requires Inv(w)
    ensures Inv(CloseFile(w, k, closes))
  {
    hide TransferFits, Known, Mailbox, OpenEnvelope, ChunkCount, HashesOf, PlainPart, Chunk, WriteAt;
    var w' := CloseFile(w, k, closes);
    if k in w.passes && w.passes[k].work.Fetching? && w.passes[k].work.index >= w.passes[k].work.entry.envelope.parts {
      var pass := w.passes[k];
      var f := pass.work;
      assert PassFits(w, pass);
      if w'.saved == w.saved {
        assert w' == Proceed(w, k, pass.rest, w'.passes[k].work);
      }
      GenuinePart(w, pass.device, f.entry, f.index, w.now);
      KnownMeans(w, pass.device, f.entry);
      var p := w.transfers[f.entry.id].parcel;
      ChunkBounds(|p.source|, p.partSize, 0);
      assert f.file == p.source;
      if w'.passes[k].work.Ready? {
        PassStep(w, k, pass.rest, Ready);
      } else {
        SavedStep(w, k, f.entry);
      }
    }
  }

  lemma SavedStep(w: World, k: nat, e: Entry)
    requires Inv(w) && k in w.passes && Known(w.transfers, w.passes[k].device, e)
    ensures var file := w.transfers[e.id].parcel.source;
            Inv(Proceed(w.(saved := w.saved + {(w.passes[k].device, e.id, file)}), k, w.passes[k].rest, Acking(e)))
  {
    hide TransferFits, Tallied, Mailbox, HashesOf, Upto, EntryOf;
    var file := w.transfers[e.id].parcel.source;
    var w1 := w.(saved := w.saved + {(w.passes[k].device, e.id, file)});
    AssembleQuiet(w, w1);
    PassStep(w1, k, w.passes[k].rest, Acking(e));
  }

  lemma AckKeeps(w: World, k: nat, happens: bool)
    requires Inv(w)
    ensures Inv(AckEntry(w, k, happens))
  {
    hide TransferFits, Known, Mailbox, AckMail, HashesOf;
    if k in w.passes && w.passes[k].work.Acking? {
      var pass := w.passes[k];
      assert PassFits(w, pass);
      if happens {
        KnownMeans(w, pass.device, pass.work.entry);
        AckStep(w, pass.device, pass.work.entry);
        PassStep(w.(store := AckMail(w.store, pass.device, pass.work.entry.id).0), k, pass.rest, Ready);
      } else {
        PassStep(w, k, pass.rest, Ready);
      }
    }
  }

  lemma SweptFits(w: World, t: nat)
    requires TransferFits(w, t) && Housed(w.store)
    ensures TransferFits(w.(store := Sweep(w.store, w.now)), t)
  {
    hide ChunkCount, SealPart;
    assert Mailbox(Sweep(w.store, w.now), 0) == Mailbox(w.store, 0);
  }

  lemma SweepKeeps(w: World)
    requires Inv(w)
    ensures Inv(w.(store := Sweep(w.store, w.now)))
  {
    hide TransferFits, PassFits, Tallied, Mailbox, Known, Sweep;
    var w' := w.(store := Sweep(w.store, w.now));
    SweepTallied(w.store, w.now);
    SweepKeepsMail(w.store, w.now);
    SameMail(w, w');
    assert Housed(w.store) by {
      TalliedHoused(w.store);
    }
    forall t: nat
      ensures TransferFits(w', t)
    {
      assert TransferFits(w, t);
      SweptFits(w, t);
    }
    forall k | k in w'.passes
      ensures PassFits(w', w'.passes[k])
    {
      PassOnward(w, w', w.passes[k]);
    }
  }

  lemma SweepKeepsMail(s: Store, now: nat)
    ensures Sweep(s, now).mailboxes == s.mailboxes
  {
  }

  lemma TalliedHoused(s: Store)
    requires Tallied(s)
    ensures Housed(s)
  {
  }

  lemma StepKeeps(w: World, e: Event)
    requires Inv(w)
    ensures Inv(Step(w, e))
  {
    hide Inv, StartSend, UploadPart, FinishBlob, MailEnvelope, TakeBlobBack, ListMailbox, OpenNext, FetchPart,
      CloseFile, AckEntry;
    match e
    case Elapse(ms) => ElapseKeeps(w, ms);
    case Pair(device, peer) => PairKeeps(w, device, peer);
    case Send(t, from, to, source, partSize, prefix) => SendKeeps(w, t, from, to, source, partSize, prefix);
    case Upload(t, fate) => UploadKeeps(w, t, fate);
    case Finish(t, happens) => FinishKeeps(w, t, happens);
    case Mail(t, happens) => MailKeeps(w, t, happens);
    case TakeBack(t, happens) => TakeBackKeeps(w, t, happens);
    case List(k, device, order) => ListKeeps(w, k, device, order);
    case Open(k, acks, opens) => OpenKeeps(w, k, acks, opens);
    case Fetch(k, fate, writes) => FetchKeeps(w, k, fate, writes);
    case Close(k, closes) => CloseKeeps(w, k, closes);
    case Ack(k, happens) => AckKeeps(w, k, happens);
    case Crash(k) => CrashKeeps(w, k);
    case SweepNow => SweepKeeps(w);
  }

  lemma BeginFits()
    ensures Inv(BEGIN)
  {
    hide Tallied;
    EmptyTallied();
  }

  lemma {:induction false} RunKeeps(events: seq<Event>)
    ensures Inv(Run(BEGIN, events))
  {
    hide Inv, Step;
    if events == [] {
      BeginFits();
    } else {
      RunKeeps(events[..|events| - 1]);
      StepKeeps(Run(BEGIN, events[..|events| - 1]), events[|events| - 1]);
    }
  }

  // ---- what follows for every run ----

  /** The envelope waits, and every part is there and unchanged. */
  ghost predicate StillParked(s: Store, t: nat, p: Parcel)
    requires p.partSize > 0
  {
    && t in Mailbox(s, p.to) && Mailbox(s, p.to)[t] == EntryOf(t, p)
    && t in s.blobs && s.blobs[t].complete
    && forall i: nat :: i < Parts(p) ==> (t, i) in s.parts && s.parts[(t, i)] == SealPart(p, i)
  }

  /**
    No file is lost: once sendViaRelay returned, and until the blob expires, the file is parked in
    full or the recipient has closed a sink on exactly the bytes that were sent. The recipient must
    have been paired with the sender when the mail arrived; a stranger's mail is thrown away.
   */
  lemma {:induction false} NoFileLost(events: seq<Event>, t: nat)
    ensures var w := Run(BEGIN, events);
            t in w.transfers && w.transfers[t].phase == Returned(true) && w.now < w.transfers[t].deadline ==>
              var p := w.transfers[t].parcel;
              p.partSize > 0 && ((p.to, t, p.source) in w.saved || StillParked(w.store, t, p))
  {
    hide PassesFit, SavedFit, Tallied, ChunkCount, SealPart, Run, EntryOf;
    RunKeeps(events);
    var w := Run(BEGIN, events);
    assert TransferFits(w, t);
    if t in w.transfers && t in Mailbox(w.store, w.transfers[t].parcel.to) {
      KnownMeans(w, w.transfers[t].parcel.to, Mailbox(w.store, w.transfers[t].parcel.to)[t]);
    }
  }

  /** Nothing but the file of a transfer to this device is ever saved, and never a part of one. */
  lemma SavedIsExact(events: seq<Event>, device: DeviceId, t: BlobId, file: Bytes)
    ensures var w := Run(BEGIN, events);
            (device, t, file) in w.saved ==>
              t in w.transfers && w.transfers[t].parcel.to == device && w.transfers[t].parcel.source == file
  {
    hide Run, TransferFits, StoreFits, MailFits, PassesFit;
    RunKeeps(events);
  }

  // ---- honest requests are not refused ----

  lemma AllStored(s: Store, id: BlobId)
    requires Tallied(s) && id in s.blobs
    requires forall i: nat :: i < s.blobs[id].parts ==> (id, i) in s.parts
    ensures s.blobs[id].received == s.blobs[id].parts
  {
    assert forall i :: i in StoredParts(s, id) <==> (id, i) in s.parts;
    assert StoredParts(s, id) == Below(s.blobs[id].parts);
  }

  /**
    However often parts were repeated, before its deadline an upload is never refused, nor told it is
    short of parts.
   */
  lemma {:induction false} NeverRefused(events: seq<Event>, t: nat)
    ensures var w := Run(BEGIN, events);
            t in w.transfers && w.now < w.transfers[t].deadline ==>
              var tr := w.transfers[t];
              && (tr.phase.Uploading? ==>
                    PutPart(w.store, t, tr.phase.index, WriteToken(t),
                            SealPart(tr.parcel, tr.phase.index), w.now).1 == Ok)
              && (tr.phase.Completing? ==> Complete(w.store, tr.parcel.from, t).1 == Ok)
  {
    hide PassesFit, SavedFit, MailFits, Tallied, ChunkCount, SealPart, Run, Mailbox;
    RunKeeps(events);
    var w := Run(BEGIN, events);
    assert TransferFits(w, t);
    if t in w.transfers && w.now < w.transfers[t].deadline && w.transfers[t].phase.Completing? {
      AllStored(w.store, t);
    }
  }

  // ---- an untroubled pass delivers ----

  function Collection(k: nat, n: nat): seq<Event> {
    if n == 0 then [Open(k, true, true)] else Collection(k, n - 1) + [Fetch(k, Delivered, true)]
  }

  lemma ParkedPartFetched(w: World, t: nat, index: nat)
    requires Inv(w) && t in w.transfers && w.transfers[t].parcel.partSize > 0 && w.now < w.transfers[t].deadline
    requires var p := w.transfers[t].parcel;
             StillParked(w.store, t, p) && p.blobId == p.ephemeral == t && index < Parts(p)
    ensures var p := w.transfers[t].parcel;
            var o := OpenEnvelope(p.to, p.from, EnvelopeOf(p));
            o.Some? && PlainPart(w.store, EnvelopeOf(p), o.value, index, w.now)
              == Some(Chunk(p.source, p.partSize, index))
  {
    hide PassesFit, SavedFit, MailFits, StoreFits, PhaseFits, ChunkCount, Chunk, Chunks, Mailbox;
    assert TransferFits(w, t);
  }

  /** A parked file whose turn it is in a pass. */
  ghost predicate Next(w: World, k: nat, t: nat) {
    && k in w.passes && w.passes[k].work.Ready? && w.passes[k].rest != [] && w.passes[k].rest[0].id == t
    && t in w.transfers && w.transfers[t].phase == Returned(true) && w.now < w.transfers[t].deadline
    && w.transfers[t].parcel.partSize > 0 && StillParked(w.store, t, w.transfers[t].parcel)
  }

  lemma NextMeans(w: World, k: nat, t: nat)
    requires Inv(w) && Next(w, k, t)
    ensures var p := w.transfers[t].parcel;
            && p.blobId == p.ephemeral == t && w.passes[k].device == p.to && w.passes[k].rest[0] == EntryOf(t, p)
            && (p.to, p.from) in w.paired
  {
    hide SavedFit, MailFits, StoreFits, ChunkCount, Chunk, Chunks, Mailbox, StillParked, SealPart;
    assert TransferFits(w, t) && PassFits(w, w.passes[k]);
    assert Known(w.transfers, w.passes[k].device, w.passes[k].rest[0]);
  }

  /** The pass with the first n parts fetched and written. */
  ghost predicate Midway(w: World, w': World, k: nat, t: nat, n: nat)
    requires Next(w, k, t)
  {
    var p := w.transfers[t].parcel;
    && k in w'.passes && w'.passes[k].work.Fetching?
    && var hashes := w'.passes[k].work.hashes;
       && |hashes| == n <= Parts(p) && HashesOf(hashes, p.source, p.partSize)
       && w' == Proceed(w, k, w.passes[k].rest[1..],
                        Fetching(EntryOf(t, p), n, 1, hashes, p.source[..Upto(|p.source|, p.partSize, n)]))
  }

  lemma OpenedNext(w: World, k: nat, t: nat)
    requires Inv(w) && Next(w, k, t)
    ensures Midway(w, OpenNext(w, k, true, true), k, t, 0)
  {
    hide Inv, StillParked, HashesOf, Upto, ChunkCount, Chunk, Chunks;
    NextMeans(w, k, t);
    NoHashes(w.transfers[t].parcel.source, w.transfers[t].parcel.partSize);
  }

  lemma FetchedNext(w: World, w': World, k: nat, t: nat, n: nat)
    requires Inv(w) && Next(w, k, t) && Midway(w, w', k, t, n) && n < Parts(w.transfers[t].parcel)
    ensures Midway(w, FetchPart(w', k, Delivered, true), k, t, n + 1)
  {
    hide Inv, StillParked, HashesOf, Upto, ChunkCount, Chunk, Chunks, PlainPart, WriteAt, Digest.Update;
    var p, f := w.transfers[t].parcel, w'.passes[k].work;
    NextMeans(w, k, t);
    ParkedPartFetched(w, t, n);
    PartWritten(p, f.hashes, f.file);
  }

  lemma {:induction false} Collecting(w: World, k: nat, t: nat, n: nat)
    requires Inv(w) && Next(w, k, t) && n <= Parts(w.transfers[t].parcel)
    ensures Midway(w, Run(w, Collection(k, n)), k, t, n)
  {
    hide StillParked, Inv, Midway, Next, FetchPart, OpenNext, ChunkCount;
    if n == 0 {
      OpenedNext(w, k, t);
      RunOneMore(w, [], Open(k, true, true));
      assert [] + [Open(k, true, true)] == Collection(k, 0);
    } else {
      Collecting(w, k, t, n - 1);
      FetchedNext(w, Run(w, Collection(k, n - 1)), k, t, n - 1);
      RunOneMore(w, Collection(k, n - 1), Fetch(k, Delivered, true));
    }
  }

  lemma ClosedNext(w: World, w': World, k: nat, t: nat)
    requires Inv(w) && Next(w, k, t) && Midway(w, w', k, t, Parts(w.transfers[t].parcel))
    ensures var p := w.transfers[t].parcel; (p.to, t, p.source) in CloseFile(w', k, true).saved
  {
    hide Inv, StillParked, HashesOf, ChunkCount, Chunk, Chunks;
    var p, f := w.transfers[t].parcel, w'.passes[k].work;
    NextMeans(w, k, t);
    WholeDigest(f.hashes, p.source, p.partSize);
    ChunkBounds(|p.source|, p.partSize, 0);
    assert p.source[..Upto(|p.source|, p.partSize, Parts(p))] == p.source;
  }

  /**
    When nothing goes wrong on the way, a parked file whose turn it is ends up saved: parked is as
    good as delivered.
   */
  lemma {:induction false} PassDelivers(events: seq<Event>, k: nat, t: nat)
    ensures var w := Run(BEGIN, events);
            Next(w, k, t) ==>
              var p := w.transfers[t].parcel;
              (p.to, t, p.source) in Run(w, Collection(k, Parts(p)) + [Close(k, true)]).saved
  {
    hide Run, Inv, Midway, CloseFile, ChunkCount, StillParked;
    var w := Run(BEGIN, events);
    if Next(w, k, t) {
      RunKeeps(events);
      var n := Parts(w.transfers[t].parcel);
      Collecting(w, k, t, n);
      ClosedNext(w, Run(w, Collection(k, n)), k, t);
      RunOneMore(w, Collection(k, n), Close(k, true));
    }
  }

  lemma RunOneMore(w: World, events: seq<Event>, e: Event)
    ensures Run(w, events + [e]) == Step(Run(w, events), e)
  {
    assert (events + [e])[..|events|] == events;
  }

  // ---- the steps add up to the call ----

  /** A transfer with the relay to itself, begun on this store at this time. */
  ghost predicate Alone(w: World, t: nat, s: Store, start: nat) {
    && t in w.transfers && NotThere(s, t)
    && var tr := w.transfers[t];
       var p := tr.parcel;
       && p.partSize > 0 && p.blobId == t
       && match tr.phase
          case Uploading(index, _) =>
            index < Parts(p) && (w.store == Uploaded(s, p, start, index) || w.store == Uploaded(s, p, start, index + 1))
          case Completing => w.store == Uploaded(s, p, start, Parts(p))
          case Mailing => w.store == Finished(s, p, start)
          case Returned(_) => w.store == Relay.Parked(s, p, start, t)
          case GivingUp => Litter(s, w.store, p)
          case GaveUp(takenBack) => if takenBack then w.store == s else Litter(s, w.store, p)
  }

  /**
    The store as it was, but for one blob of the sender's that is left lying there and whatever parts
    of it arrived.
   */
  ghost predicate Litter(s: Store, s': Store, p: Parcel) {
    && SameButFor(s, s', p.blobId) && Remove(s', p.blobId) == s
    && p.blobId in s'.blobs && s'.blobs[p.blobId].owner == p.from
  }

  predicate StepOf(t: nat, e: Event) {
    match e
    case Upload(u, _) => u == t
    case Finish(u, _) => u == t
    case Mail(u, _) => u == t
    case TakeBack(u, _) => u == t
    case Elapse(_) => true
    case _ => false
  }

  lemma UploadedLitter(s: Store, p: Parcel, start: nat, n: nat)
    requires p.partSize > 0 && NotThere(s, p.blobId) && n <= Parts(p)
    ensures Litter(s, Uploaded(s, p, start, n), p)
  {
    hide SealedParts, SameButFor, NotThere, Remove, ChunkCount;
    LeftOver(s, Uploaded(s, p, start, n), p, start, n);
  }

  lemma FinishedLitter(s: Store, p: Parcel, start: nat)
    requires p.partSize > 0 && NotThere(s, p.blobId)
    ensures Litter(s, Finished(s, p, start), p)
  {
    hide SealedParts, SameButFor, NotThere, Remove, ChunkCount;
    LeftOver(s, Finished(s, p, start), p, start, Parts(p));
  }

  lemma TakeBackAlone(w: World, t: nat, happens: bool, s: Store, start: nat)
    requires Alone(w, t, s, start)
    ensures Alone(TakeBlobBack(w, t, happens), t, s, start)
  {
    hide Uploaded, NotThere, Relay.Parked, Finished, Remove, SameButFor, ChunkCount;
  }

  lemma MailAlone(w: World, t: nat, happens: bool, s: Store, start: nat)
    requires Alone(w, t, s, start)
    ensures Alone(MailEnvelope(w, t, happens), t, s, start)
  {
    hide Uploaded, NotThere, Finished, Litter, SendMail;
    if w.transfers[t].phase.Mailing? {
      FinishedLitter(s, w.transfers[t].parcel, start);
    }
  }

  lemma UploadAlone(w: World, t: nat, fate: Fate, s: Store, start: nat)
    requires Alone(w, t, s, start)
    ensures Alone(UploadPart(w, t, fate), t, s, start)
  {
    hide Uploaded, PutPart, SealPart, NotThere, ChunkCount, Relay.Parked, Finished, Litter;
    if w.transfers[t].phase.Uploading? {
      var p, index := w.transfers[t].parcel, w.transfers[t].phase.index;
      PutFirst(s, p, start, index, w.now);
      PutAgain(s, p, start, index, w.now);
      UploadedLitter(s, p, start, index);
      UploadedLitter(s, p, start, index + 1);
    }
  }

  lemma FinishAlone(w: World, t: nat, happens: bool, s: Store, start: nat)
    requires Alone(w, t, s, start)
    ensures Alone(FinishBlob(w, t, happens), t, s, start)
  {
    hide SealPart, NotThere, ChunkCount, Relay.Parked, SealedParts, Litter;
    if w.transfers[t].phase.Completing? {
      UploadedLitter(s, w.transfers[t].parcel, start, Parts(w.transfers[t].parcel));
    }
  }

  lemma StepAlone(w: World, t: nat, e: Event, s: Store, start: nat)
    requires Alone(w, t, s, start) && StepOf(t, e)
    ensures Alone(Step(w, e), t, s, start)
  {
    hide NotThere, UploadPart, FinishBlob, MailEnvelope, TakeBlobBack, Uploaded, Finished, Litter;
    match e
    case Upload(_, fate) => UploadAlone(w, t, fate, s, start);
    case Finish(_, happens) => FinishAlone(w, t, happens, s, start);
    case Mail(_, happens) => MailAlone(w, t, happens, s, start);
    case TakeBack(_, happens) => TakeBackAlone(w, t, happens, s, start);
    case _ =>
  }

  /**
    Whatever was lost on the way, a call with nobody else at the relay leaves the store exactly as the
    call as a whole is said to leave it: parked whole when it returns, as it was when it gave up and
    took its blob back, and but for that blob as it was when even that was lost.
   */
  lemma {:induction false} StepsAddUp(w: World, t: nat, from: DeviceId, to: DeviceId, source: Bytes, partSize: nat,
                                      prefix: Bytes, events: seq<Event>)
    requires t !in w.transfers && NotThere(w.store, t) && (from, to) in w.paired && partSize > 0
    requires forall i :: 0 <= i < |events| ==> StepOf(t, events[i])
    ensures var p := Parcel(from, to, source, partSize, t, prefix, t);
            var w' := Run(StartSend(w, t, from, to, source, partSize, prefix), events);
            if Parts(p) <= MAX_PARTS
            then t in w'.transfers && w'.transfers[t].parcel == p && Alone(w', t, w.store, w.now)
            else t !in w'.transfers && w'.store == w.store
  {
    hide Alone, Step, StartSend, Run, ChunkCount;
    var p := Parcel(from, to, source, partSize, t, prefix, t);
    var w0 := StartSend(w, t, from, to, source, partSize, prefix);
    if events == [] {
      StartedAlone(w, t, from, to, source, partSize, prefix);
      NoEvents(w0);
    } else {
      var front, e := events[..|events| - 1], events[|events| - 1];
      StepsAddUp(w, t, from, to, source, partSize, prefix, front);
      assert events == front + [e];
      RunOneMore(w0, front, e);
      var before := Run(w0, front);
      if Parts(p) <= MAX_PARTS {
        StepAlone(before, t, e, w.store, w.now);
        SameTransfer(before, t, e);
      } else {
        NoSuchTransfer(before, t, e);
      }
    }
  }

  lemma NoEvents(w: World)
    ensures Run(w, []) == w
  {
  }

  lemma StartedAlone(w: World, t: nat, from: DeviceId, to: DeviceId, source: Bytes, partSize: nat, prefix: Bytes)
    requires t !in w.transfers && NotThere(w.store, t) && (from, to) in w.paired && partSize > 0
    ensures var p := Parcel(from, to, source, partSize, t, prefix, t);
            var w' := StartSend(w, t, from, to, source, partSize, prefix);
            if Parts(p) <= MAX_PARTS
            then t in w'.transfers && w'.transfers[t].parcel == p && Alone(w', t, w.store, w.now)
            else t !in w'.transfers && w'.store == w.store
  {
    hide ChunkCount, Uploaded, NotThere;
    var p := Parcel(from, to, source, partSize, t, prefix, t);
    NeverEmpty(|source|, partSize);
    if Parts(p) <= MAX_PARTS {
      CreatedEmpty(w.store, p, w.now);
    }
  }

  lemma SameTransfer(w: World, t: nat, e: Event)
    requires t in w.transfers && StepOf(t, e)
    ensures t in Step(w, e).transfers && Step(w, e).transfers[t].parcel == w.transfers[t].parcel
  {
    hide PutPart, SealPart, Complete, SendMail, EnvelopeOf, DeleteBlob, After, Again;
  }

  lemma NoSuchTransfer(w: World, t: nat, e: Event)
    requires t !in w.transfers && StepOf(t, e)
    ensures t !in Step(w, e).transfers && Step(w, e).store == w.store
  {
    hide PutPart, SealPart, Complete, SendMail, EnvelopeOf, DeleteBlob, After, Again;
  }
}
