/**
  Two sessions joined by an ordered channel, and what every run of them keeps: files arrive exactly,
  promises resolve only after that, and no message reaches a transfer other than its own, although
  stream ids come round again.
 */
module TransferSafety {
  import opened Common
  import opened Files
  import opened Transfer
  import Digest
  import Wire

  /** A message in flight. Handlers see only the message; the owner records which transfer sent it. */
  datatype Tagged = Tagged(message: Message, owner: TransferId)

  /**
    `a` sends and `b` receives. What follows `open` only records the past: every source handed to
    send(), how each promise settled, what the receiver reported complete, and whose sink threw.
   */
  datatype World = World(
    a: Session,
    b: Session,
    ab: seq<Tagged>,
    ba: seq<Tagged>,
    open: bool,
    sources: map<TransferId, Bytes>,
    resolved: set<TransferId>,
    declined: set<TransferId>,
    unsettled: set<TransferId>,
    complete: map<TransferId, seq<Call>>,
    stuck: set<TransferId>)

  datatype Event =
    | Start(id: TransferId, source: Bytes)
    | PumpTurn(streamId: nat)
    | ReadFails(streamId: nat)
    | ToReceiver(host: Host)
    | ToSender
    | Close

  function Tag(ms: seq<Message>, owner: TransferId): seq<Tagged> {
    seq(|ms|, i requires 0 <= i < |ms| => Tagged(ms[i], owner))
  }

  function Record(w: World, notice: Notice): World {
    match notice
    case Silent => w
    case Resolved(id) => w.(resolved := w.resolved + {id})
    case Declined(id) => w.(declined := w.declined + {id})
    case Unsettled(id) => w.(unsettled := w.unsettled + {id})
    case Completed(id, calls) => w.(complete := w.complete[id := calls])
    case Damaged(_) => w
    case Stuck(id) => w.(stuck := w.stuck + {id})
  }

  function OwnerAt(s: Session, streamId: nat): TransferId {
    if streamId in s.outgoing then s.outgoing[streamId].id else 0
  }

  /** A file with more chunks than a frame's sequence can count is outside this model. */
  predicate CanStart(w: World, id: TransferId, source: Bytes)
    requires w.a.chunkSize > 0
  {
    w.open && id !in w.sources && ChunkCount(|source|, w.a.chunkSize) <= Wire.U32
  }

  function Step(w: World, e: Event): World
    requires w.a.chunkSize > 0
  {
    match e
    case Start(id, source) =>
      if !CanStart(w, id, source) then w
      else
        var r := BeginSend(w.a, id, source);
        w.(a := r.session, ab := w.ab + Tag(r.sends, id), sources := w.sources[id := source])
    case PumpTurn(streamId) =>
      var r := Pump(w.a, streamId);
      w.(a := r.session, ab := w.ab + Tag(r.sends, OwnerAt(w.a, streamId)))
    case ReadFails(streamId) =>
      var r := PumpFails(w.a, streamId);
      Record(w.(a := r.session, ab := w.ab + Tag(r.sends, OwnerAt(w.a, streamId))), r.notice)
    case ToReceiver(host) =>
      if w.ab == [] then w
      else
        var r := Handle(w.b, w.ab[0].message, host);
        Record(w.(b := r.session, ab := w.ab[1..], ba := w.ba + Tag(r.sends, w.ab[0].owner)), r.notice)
    case ToSender =>
      if w.ba == [] then w
      else
        var r := Handle(w.a, w.ba[0].message, Host(false, false, false, false));
        Record(w.(a := r.session, ba := w.ba[1..], ab := w.ab + Tag(r.sends, w.ba[0].owner)), r.notice)
    case Close =>
      var ids := set s | s in w.a.outgoing :: w.a.outgoing[s].id;
      w.(a := w.a.(outgoing := map[]), b := w.b.(incoming := map[]), ab := [], ba := [], open := false,
         unsettled := w.unsettled + ids)
  }

  function Begin(chunkSize: nat): World {
    World(NewSession(chunkSize), NewSession(chunkSize), [], [], true, map[], {}, {}, {}, map[], {})
  }

  function Run(chunkSize: nat, events: seq<Event>): (w: World)
    requires chunkSize > 0
    ensures w.a.chunkSize == chunkSize
  {
    if events == [] then Begin(chunkSize)
    else
      var before := Run(chunkSize, events[..|events| - 1]);
      ChunkSizeKept(before, events[|events| - 1]);
      Step(before, events[|events| - 1])
  }

  lemma HandlersKeepChunkSize(s: Session, m: Message, host: Host)
    ensures Handle(s, m, host).session.chunkSize == s.chunkSize
  {
    hide WriteAt, Wire.DecodeChunk, Digest.Update, Digest.Present;
  }

  lemma ChunkSizeKept(w: World, e: Event)
    requires w.a.chunkSize > 0
    ensures Step(w, e).a.chunkSize == w.a.chunkSize && Step(w, e).b.chunkSize == w.b.chunkSize
  {
    hide Handle, FreeId, Chunk, Chunks, Wire.ChunkFrame, Tag;
    match e
    case ToReceiver(host) =>
      if w.ab != [] {
        HandlersKeepChunkSize(w.b, w.ab[0].message, host);
      }
    case ToSender =>
      if w.ba != [] {
        HandlersKeepChunkSize(w.a, w.ba[0].message, Host(false, false, false, false));
      }
    case _ =>
  }

  // ---- one stream at a time ----

  function StreamOf(m: Message): nat {
    match m
    case Text(c) => c.streamId
    case Binary(frame) => if Wire.DecodeChunk(frame).Frame? then Wire.DecodeChunk(frame).streamId else 0
  }

  /** The messages in flight that belong to one stream id, in order. */
  function On(q: seq<Tagged>, streamId: nat): seq<Tagged> {
    if q == [] then []
    else (if StreamOf(q[0].message) == streamId then [q[0]] else []) + On(q[1..], streamId)
  }

  lemma {:induction false} OnAppend(q: seq<Tagged>, r: seq<Tagged>, streamId: nat)
    ensures On(q + r, streamId) == On(q, streamId) + On(r, streamId)
  {
    hide StreamOf;
    if q == [] {
      assert q + r == r;
    } else {
      OnAppend(q[1..], r, streamId);
      assert (q + r)[1..] == q[1..] + r;
      var first := if StreamOf(q[0].message) == streamId then [q[0]] else [];
      Associative(first, On(q[1..], streamId), On(r, streamId));
    }
  }

  lemma OnOne(t: Tagged, streamId: nat)
    ensures On([t], streamId) == if StreamOf(t.message) == streamId then [t] else []
  {
    assert [t][1..] == [];
  }

  function Lookup<T>(m: map<nat, T>, key: nat): Option<T> {
    if key in m then Some(m[key]) else None
  }

  /** The frames for chunks k to m - 1 of a source. */
  function ChunksInFlight(streamId: nat, id: TransferId, source: Bytes, chunkSize: nat, k: nat, m: nat): seq<Tagged>
    requires k <= m
  {
    seq(m - k, i requires 0 <= i =>
      Tagged(Binary(Wire.ChunkFrame(streamId, k + i, Chunk(source, chunkSize, k + i))), id))
  }

  /** What the runs so far have recorded about transfers. */
  datatype Past = Past(
    chunkSize: nat,
    sources: map<TransferId, Bytes>,
    complete: map<TransferId, seq<Call>>,
    stuck: set<TransferId>)

  function PastOf(w: World): Past {
    Past(w.a.chunkSize, w.sources, w.complete, w.stuck)
  }

  function Count(h: Past, id: TransferId): nat
    requires h.chunkSize > 0 && id in h.sources
  {
    ChunkCount(|h.sources[id]|, h.chunkSize)
  }

  /** A sink was handed the first chunks of a source, each once, in order and with its own bytes. */
  ghost predicate Handed(calls: seq<Call>, source: Bytes, chunkSize: nat) {
    forall i :: 0 <= i < |calls| ==> calls[i].sequence == i && calls[i].bytes == Chunk(source, chunkSize, i)
  }

  /** The receiver has hashed the first k chunks and handed exactly those to its sink. */
  ghost predicate Got(h: Past, e: Incoming) {
    && h.chunkSize > 0 && e.id in h.sources && e.chunkSize == h.chunkSize
    && ChunkCount(|h.sources[e.id]|, h.chunkSize) <= Wire.U32
    && var source := h.sources[e.id];
       && |e.hashes| <= ChunkCount(|source|, h.chunkSize)
       && (forall i :: 0 <= i < |e.hashes| ==> e.hashes[i] == Some(Chunk(source, h.chunkSize, i)))
       && |e.calls| == |e.hashes| && Handed(e.calls, source, h.chunkSize)
  }

  /** Chunks up to m are on their way to the entry, and nothing else. */
  ghost predicate Feeding(h: Past, streamId: nat, e: Incoming, flight: seq<Tagged>, m: nat) {
    && Got(h, e) && |e.hashes| <= m <= Count(h, e.id)
    && flight == ChunksInFlight(streamId, e.id, h.sources[e.id], h.chunkSize, |e.hashes|, m)
  }

  /** What is left of a transfer whose sender gave up: its chunks, then the news. */
  ghost predicate LeftOver(h: Past, streamId: nat, arriving: Option<Incoming>, flight: seq<Tagged>) {
    match arriving
    case None => flight == []
    case Some(e) =>
      && flight != [] && flight[|flight| - 1] == Tagged(Text(Failed(streamId)), e.id)
      && Feeding(h, streamId, e, flight[..|flight| - 1], |e.hashes| + |flight| - 1)
  }

  /** Everything about one stream id: the two entries and the messages between them fit together. */
  ghost predicate Fits(h: Past, streamId: nat, out: Option<Outgoing>, arriving: Option<Incoming>,
                       forth: seq<Tagged>, back: seq<Tagged>) {
    match out
    case None => back == [] && LeftOver(h, streamId, arriving, forth)
    case Some(o) =>
      && h.chunkSize > 0 && o.id in h.sources && o.source == h.sources[o.id] && Count(h, o.id) <= Wire.U32
      && streamId < Wire.U16
      && match o.phase
         case Offered =>
           || (&& back == [] && forth != []
               && forth[|forth| - 1] == Tagged(Text(Offer(streamId, o.id, |o.source|, h.chunkSize)), o.id)
               && LeftOver(h, streamId, arriving, forth[..|forth| - 1]))
           || (&& forth == [] && arriving.Some? && arriving.value.id == o.id && arriving.value.hashes == []
               && Got(h, arriving.value) && back == [Tagged(Text(Accept(streamId, 0)), o.id)])
           || (&& forth == [] && arriving.None?
               && (back == [Tagged(Text(Reject(streamId)), o.id)] || (back == [] && o.id in h.stuck)))
         case Sending(next, resumeFrom) =>
           && back == [] && resumeFrom == 0
           && arriving.Some? && arriving.value.id == o.id && Feeding(h, streamId, arriving.value, forth, next)
         case Sent =>
           || (&& back == [] && arriving.Some? && arriving.value.id == o.id && forth != []
               && forth[|forth| - 1] == Tagged(Text(Done(streamId, Some(Chunks(o.source, h.chunkSize)))), o.id)
               && Feeding(h, streamId, arriving.value, forth[..|forth| - 1], Count(h, o.id)))
           || (&& forth == [] && arriving.None? && back == [Tagged(Text(Ack(streamId, true)), o.id)]
               && o.id in h.complete)
           || (forth == [] && back == [] && arriving.Some? && o.id in h.stuck)
  }

  ghost predicate FitsAt(w: World, streamId: nat) {
    Fits(PastOf(w), streamId, Lookup(w.a.outgoing, streamId), Lookup(w.b.incoming, streamId),
         On(w.ab, streamId), On(w.ba, streamId))
  }

  ghost predicate Exact(h: Past) {
    h.chunkSize > 0 && forall id :: id in h.complete ==>
      && id in h.sources
      && |h.complete[id]| == Count(h, id) && Handed(h.complete[id], h.sources[id], h.chunkSize)
  }

  ghost predicate Inv(w: World) {
    && w.a.chunkSize == w.b.chunkSize > 0
    && w.a.incoming == map[] && w.b.outgoing == map[]
    && (!w.open ==> w.a.outgoing == map[])
    && Exact(PastOf(w))
    && w.resolved <= w.complete.Keys
    && forall streamId :: FitsAt(w, streamId)
  }

  // ---- what does not concern a stream leaves it alone ----

  /** The record only grows. */
  ghost predicate Later(h: Past, h': Past) {
    && h'.chunkSize == h.chunkSize
    && (forall id :: id in h.sources ==> id in h'.sources && h'.sources[id] == h.sources[id])
    && h.complete.Keys <= h'.complete.Keys && h.stuck <= h'.stuck
  }

  lemma FitsLater(h: Past, h': Past, streamId: nat, out: Option<Outgoing>, arriving: Option<Incoming>,
                  forth: seq<Tagged>, back: seq<Tagged>)
    requires Fits(h, streamId, out, arriving, forth, back) && Later(h, h')
    ensures Fits(h', streamId, out, arriving, forth, back)
  {
  }

  /** A step that touches one stream id keeps the invariant if that id still fits. */
  lemma OneStream(w: World, w': World, streamId: nat)
    requires Inv(w) && Later(PastOf(w), PastOf(w'))
    requires w'.a.chunkSize == w'.b.chunkSize == w.a.chunkSize
    requires w'.a.incoming == map[] && w'.b.outgoing == map[] && w'.open == w.open
    requires !w'.open ==> w'.a.outgoing == map[]
    requires Exact(PastOf(w')) && w'.resolved <= w'.complete.Keys
    requires FitsAt(w', streamId)
    requires forall s: nat | s != streamId ::
               && Lookup(w'.a.outgoing, s) == Lookup(w.a.outgoing, s)
               && Lookup(w'.b.incoming, s) == Lookup(w.b.incoming, s)
               && On(w'.ab, s) == On(w.ab, s) && On(w'.ba, s) == On(w.ba, s)
    ensures Inv(w')
  {
    hide Fits;
    forall s: nat
      ensures FitsAt(w', s)
    {
      if s != streamId {
        assert FitsAt(w, s);
        FitsLater(PastOf(w), PastOf(w'), s, Lookup(w.a.outgoing, s), Lookup(w.b.incoming, s), On(w.ab, s), On(w.ba, s));
      }
    }
  }

  /** A message put into a queue shows up on its own stream only. */
  lemma Sent1(q: seq<Tagged>, t: Tagged)
    ensures forall s :: On(q + [t], s) == if s == StreamOf(t.message) then On(q, s) + [t] else On(q, s)
  {
    forall s: nat
      ensures On(q + [t], s) == if s == StreamOf(t.message) then On(q, s) + [t] else On(q, s)
    {
      OnAppend(q, [t], s);
      OnOne(t, s);
    }
  }

  /** And likewise when it is taken out. */
  lemma Taken1(q: seq<Tagged>)
    requires q != []
    ensures var s0 := StreamOf(q[0].message);
            && On(q, s0) == [q[0]] + On(q[1..], s0)
            && forall s :: s != s0 ==> On(q, s) == On(q[1..], s)
  {
  }

  // ---- the sender's own steps ----

  lemma StartKeeps(w: World, id: TransferId, source: Bytes)
    requires Inv(w) && CanStart(w, id, source)
    ensures Inv(Step(w, Start(id, source)))
  {
    hide Fits, FreeId, On;
    var w' := Step(w, Start(id, source));
    AllocationFindsAFreeId(w.a);
    var stream := AllocateStreamId(w.a);
    if stream.None? {
      assert Tag([], id) == [] && w.ab + [] == w.ab;
      NothingSent(w, w');
    } else {
      var streamId := stream.value;
      var offer := Tagged(Text(Offer(streamId, id, |source|, w.a.chunkSize)), id);
      assert w'.ab == w.ab + [offer];
      Sent1(w.ab, offer);
      assert FitsAt(w, streamId);
      FitsLater(PastOf(w), PastOf(w'), streamId, None, Lookup(w.b.incoming, streamId),
                On(w.ab, streamId), On(w.ba, streamId));
      StartFits(PastOf(w'), streamId, w'.a.outgoing[streamId], Lookup(w.b.incoming, streamId),
                On(w.ab, streamId), On(w.ba, streamId), offer);
      OneStream(w, w', streamId);
    }
  }

  lemma NothingSent(w: World, w': World)
    requires Inv(w) && Later(PastOf(w), PastOf(w')) && w'.complete == w.complete
    requires w'.a == w.a && w'.b == w.b && w'.ab == w.ab && w'.ba == w.ba && w'.open == w.open
             && w'.resolved == w.resolved
    ensures Inv(w')
  {
    hide Fits;
    assert FitsAt(w, 0);
    FitsLater(PastOf(w), PastOf(w'), 0, Lookup(w.a.outgoing, 0), Lookup(w.b.incoming, 0), On(w.ab, 0), On(w.ba, 0));
    OneStream(w, w', 0);
  }

  lemma StartFits(h: Past, streamId: nat, o: Outgoing, arriving: Option<Incoming>,
                  forth: seq<Tagged>, back: seq<Tagged>, offer: Tagged)
    requires Fits(h, streamId, None, arriving, forth, back)
    requires h.chunkSize > 0 && streamId < Wire.U16 && o.phase == Offered
    requires o.id in h.sources && o.source == h.sources[o.id] && Count(h, o.id) <= Wire.U32
    requires offer == Tagged(Text(Offer(streamId, o.id, |o.source|, h.chunkSize)), o.id)
    ensures Fits(h, streamId, Some(o), arriving, forth + [offer], back)
  {
    assert (forth + [offer])[..|forth + [offer]| - 1] == forth;
  }

  /** One more chunk at the end of what is in flight. */
  lemma OneMoreChunk(streamId: nat, id: TransferId, source: Bytes, chunkSize: nat, k: nat, m: nat)
    requires k <= m
    ensures ChunksInFlight(streamId, id, source, chunkSize, k, m + 1)
            == ChunksInFlight(streamId, id, source, chunkSize, k, m)
               + [Tagged(Binary(Wire.ChunkFrame(streamId, m, Chunk(source, chunkSize, m))), id)]
  {
  }

  lemma FrameStream(streamId: nat, sequence: nat, payload: Bytes)
    requires streamId < Wire.U16
    ensures StreamOf(Binary(Wire.ChunkFrame(streamId, sequence, payload))) == streamId
  {
    Wire.DecodeEncoded(streamId, sequence, payload);
  }

  lemma PumpFits(h: Past, streamId: nat, o: Outgoing, o': Outgoing, arriving: Option<Incoming>,
                 forth: seq<Tagged>, back: seq<Tagged>, t: Tagged)
    requires Fits(h, streamId, Some(o), arriving, forth, back) && o.phase.Sending?
    requires var index := o.phase.next;
             if index < Count(h, o.id)
             then o' == o.(phase := Sending(index + 1, 0))
                  && t == Tagged(Binary(Wire.ChunkFrame(streamId, index, Chunk(o.source, h.chunkSize, index))), o.id)
             else o' == o.(phase := Sent)
                  && t == Tagged(Text(Done(streamId, Some(Chunks(o.source, h.chunkSize)))), o.id)
    ensures Fits(h, streamId, Some(o'), arriving, forth + [t], back)
    ensures StreamOf(t.message) == streamId
  {
    hide ChunksInFlight, Chunks, Chunk, Wire.ChunkFrame;
    var e := arriving.value;
    if o.phase.next < Count(h, o.id) {
      FrameStream(streamId, o.phase.next, Chunk(o.source, h.chunkSize, o.phase.next));
      OneMoreChunk(streamId, o.id, o.source, h.chunkSize, |e.hashes|, o.phase.next);
    } else {
      assert (forth + [t])[..|forth + [t]| - 1] == forth;
    }
  }

  lemma PumpKeeps(w: World, streamId: nat)
    requires Inv(w) && streamId in w.a.outgoing && w.a.outgoing[streamId].phase.Sending?
    ensures Inv(Step(w, PumpTurn(streamId)))
  {
    hide ChunksInFlight, Chunks, Chunk, Wire.ChunkFrame, Fits;
    var w' := Step(w, PumpTurn(streamId));
    var o, index := w.a.outgoing[streamId], w.a.outgoing[streamId].phase.next;
    assert FitsAt(w, streamId);
    SendingKnown(PastOf(w), streamId, o, Lookup(w.b.incoming, streamId), On(w.ab, streamId), On(w.ba, streamId));
    var t := Tagged(if index < Count(PastOf(w), o.id)
                    then Binary(Wire.ChunkFrame(streamId, index, Chunk(o.source, w.a.chunkSize, index)))
                    else Text(Done(streamId, Some(Chunks(o.source, w.a.chunkSize)))), o.id);
    PumpFits(PastOf(w), streamId, o, w'.a.outgoing[streamId], Lookup(w.b.incoming, streamId),
             On(w.ab, streamId), On(w.ba, streamId), t);
    assert w'.ab == w.ab + [t];
    Sent1(w.ab, t);
    OneStream(w, w', streamId);
  }

  lemma SendingKnown(h: Past, streamId: nat, o: Outgoing, arriving: Option<Incoming>, forth: seq<Tagged>,
                     back: seq<Tagged>)
    requires Fits(h, streamId, Some(o), arriving, forth, back) && o.phase.Sending?
    ensures h.chunkSize > 0 && o.id in h.sources && h.sources[o.id] == o.source && o.phase.resumeFrom == 0
  {
  }

  lemma ReadFailsFits(h: Past, streamId: nat, o: Outgoing, arriving: Option<Incoming>, forth: seq<Tagged>,
                      back: seq<Tagged>)
    requires Fits(h, streamId, Some(o), arriving, forth, back) && o.phase.Sending?
    ensures Fits(h, streamId, None, arriving, forth + [Tagged(Text(Failed(streamId)), o.id)], back)
  {
    hide ChunksInFlight;
    var after := forth + [Tagged(Text(Failed(streamId)), o.id)];
    FlightLength(h, streamId, arriving.value, forth, o.phase.next);
    assert after[..|after| - 1] == forth;
  }

  lemma ReadFailsKeeps(w: World, streamId: nat)
    requires Inv(w) && streamId in w.a.outgoing && w.a.outgoing[streamId].phase.Sending?
    ensures Inv(Step(w, ReadFails(streamId)))
  {
    hide Fits;
    var w' := Step(w, ReadFails(streamId));
    var o, t := w.a.outgoing[streamId], Tagged(Text(Failed(streamId)), w.a.outgoing[streamId].id);
    assert FitsAt(w, streamId);
    ReadFailsFits(PastOf(w), streamId, o, Lookup(w.b.incoming, streamId), On(w.ab, streamId), On(w.ba, streamId));
    assert w'.ab == w.ab + [t];
    Sent1(w.ab, t);
    OneStream(w, w', streamId);
  }

  lemma FlightLength(h: Past, streamId: nat, e: Incoming, flight: seq<Tagged>, m: nat)
    requires Feeding(h, streamId, e, flight, m)
    ensures |e.hashes| + |flight| == m
  {
  }

  // ---- the receiver takes a message ----

  /** What can come next on a stream, and what it finds at the receiver. */
  ghost predicate NextIs(h: Past, streamId: nat, out: Option<Outgoing>, arriving: Option<Incoming>,
                         forth: seq<Tagged>, back: seq<Tagged>)
  {
    && forth != [] && h.chunkSize > 0 && forth[0].owner in h.sources
    && var t, source := forth[0], h.sources[forth[0].owner];
       match t.message
       case Binary(frame) =>
         && arriving.Some? && t.owner == arriving.value.id && Got(h, arriving.value)
         && var k := |arriving.value.hashes|;
            && k < Count(h, t.owner)
            && frame == Wire.ChunkFrame(streamId, k, Chunk(source, h.chunkSize, k))
       case Text(c) =>
         || (c == Failed(streamId) && arriving.Some? && t.owner == arriving.value.id)
         || (c == Offer(streamId, t.owner, |source|, h.chunkSize) && arriving.None?
             && out.Some? && out.value.id == t.owner && out.value.phase.Offered? && forth == [t] && back == [])
         || (c.Done? && c.streamId == streamId && arriving.Some? && t.owner == arriving.value.id
             && out.Some? && out.value.id == t.owner && out.value.phase.Sent? && forth == [t] && back == []
             && Got(h, arriving.value) && |arriving.value.hashes| == Count(h, t.owner)
             && c.digest == Some(Chunks(source, h.chunkSize)))
  }

  /** Whatever comes next on a stream finds the entry of the transfer that sent it, or none and is an offer. */
  lemma NextOnStream(h: Past, streamId: nat, out: Option<Outgoing>, arriving: Option<Incoming>,
                     forth: seq<Tagged>, back: seq<Tagged>)
    requires Fits(h, streamId, out, arriving, forth, back) && forth != []
    ensures NextIs(h, streamId, out, arriving, forth, back)
  {
    hide Chunk, Chunks, Wire.ChunkFrame, Handed;
  }

  /** The receiver's entry after the next chunk. */
  function AfterChunk(h: Past, e: Incoming, writes: bool): Incoming
    requires e.id in h.sources
  {
    var k := |e.hashes|;
    var chunk := Chunk(h.sources[e.id], h.chunkSize, k);
    e.(hashes := e.hashes + [Some(chunk)],
       calls := e.calls + [Call(k, chunk, writes)])
  }

  lemma ChunkHandled(s: Session, h: Past, streamId: nat, e: Incoming, host: Host)
    requires streamId in s.incoming && s.incoming[streamId] == e && Got(h, e) && |e.hashes| < Count(h, e.id)
    requires streamId < Wire.U16
    ensures var frame := Wire.ChunkFrame(streamId, |e.hashes|, Chunk(h.sources[e.id], h.chunkSize, |e.hashes|));
            HandleChunk(s, frame, host) ==
            Effect(s.(incoming := s.incoming[streamId := AfterChunk(h, e, host.writes)]), [],
                   if host.writes then Silent else Damaged(e.id))
  {
    hide Wire.ChunkFrame, Wire.DecodeChunk, WriteAt, Chunk;
    var k := |e.hashes|;
    var chunk := Chunk(h.sources[e.id], h.chunkSize, k);
    Wire.DecodeEncoded(streamId, k, chunk);
    Digest.UpdateNext(e.hashes, Some(chunk).value);
  }

  lemma ChunkGot(h: Past, e: Incoming, writes: bool)
    requires Got(h, e) && |e.hashes| < Count(h, e.id)
    ensures Got(h, AfterChunk(h, e, writes))
  {
    hide Chunk;
  }

  lemma FedOne(h: Past, streamId: nat, e: Incoming, flight: seq<Tagged>, m: nat, writes: bool)
    requires Feeding(h, streamId, e, flight, m) && flight != []
    ensures Feeding(h, streamId, AfterChunk(h, e, writes), flight[1..], m)
  {
    hide Chunk, WriteAt, Wire.ChunkFrame;
    ChunkGot(h, e, writes);
    FlightLength(h, streamId, e, flight, m);
    var source, k := h.sources[e.id], |e.hashes|;
    assert ChunksInFlight(streamId, e.id, source, h.chunkSize, k, m)[1..]
        == ChunksInFlight(streamId, e.id, source, h.chunkSize, k + 1, m);
  }

  lemma LeftOverFed(h: Past, streamId: nat, e: Incoming, flight: seq<Tagged>, writes: bool)
    requires LeftOver(h, streamId, Some(e), flight) && |flight| > 1
    ensures e.id in h.sources
    ensures LeftOver(h, streamId, Some(AfterChunk(h, e, writes)), flight[1..])
  {
    var front := flight[..|flight| - 1];
    FedOne(h, streamId, e, front, |e.hashes| + |flight| - 1, writes);
    assert flight[1..][..|flight| - 2] == front[1..];
  }

  lemma ChunkFits(h: Past, streamId: nat, out: Option<Outgoing>, e: Incoming,
                  forth: seq<Tagged>, back: seq<Tagged>, writes: bool)
    requires Fits(h, streamId, out, Some(e), forth, back) && forth != [] && forth[0].message.Binary?
    ensures e.id in h.sources
    ensures Fits(h, streamId, out, Some(AfterChunk(h, e, writes)), forth[1..], back)
  {
    hide AfterChunk, Got, Feeding, LeftOver, Chunks;
    LastNotBinary(h, streamId, out, e, forth, back);
    var n := |forth|;
    assert n > 1 ==> forth[1..][..n - 2] == forth[..n - 1][1..];
    KeepsId(h, e, writes);
    match out
    case None =>
      LeftOverFed(h, streamId, e, forth, writes);
    case Some(o) =>
      match o.phase
      case Offered =>
        LeftOverFed(h, streamId, e, forth[..n - 1], writes);
      case Sending(next, resumeFrom) =>
        FedOne(h, streamId, e, forth, next, writes);
      case Sent =>
        FedOne(h, streamId, e, forth[..n - 1], Count(h, o.id), writes);
  }

  /** Behind the last chunk comes a control message, unless the pump is still at it. */
  lemma LastNotBinary(h: Past, streamId: nat, out: Option<Outgoing>, e: Incoming,
                      forth: seq<Tagged>, back: seq<Tagged>)
    requires Fits(h, streamId, out, Some(e), forth, back) && forth != [] && forth[0].message.Binary?
    ensures e.id in h.sources
    ensures out.None? || out.value.phase.Offered? || out.value.phase.Sent? ==> |forth| > 1
    ensures out.Some? && out.value.phase.Offered? ==> |forth| > 2
  {
    hide Chunk, Chunks, ChunksInFlight;
  }

  lemma KeepsId(h: Past, e: Incoming, writes: bool)
    requires e.id in h.sources
    ensures AfterChunk(h, e, writes).id == e.id
  {
  }

  lemma FailedFits(h: Past, streamId: nat, out: Option<Outgoing>, arriving: Option<Incoming>,
                   forth: seq<Tagged>, back: seq<Tagged>)
    requires Fits(h, streamId, out, arriving, forth, back)
    requires forth != [] && forth[0].message == Text(Failed(streamId))
    ensures Fits(h, streamId, out, None, forth[1..], back)
  {
    hide Chunk, Chunks, Wire.ChunkFrame;
    var n := |forth|;
    if out.Some? {
      assert n == 2;
      assert forth[1..][..0] == [];
    } else {
      assert n == 1;
    }
  }

  /** The answers an offer can get. */
  lemma OfferFits(h: Past, h': Past, streamId: nat, o: Outgoing, forth: seq<Tagged>, host: Host,
                  arriving': Option<Incoming>, back': seq<Tagged>)
    requires Fits(h, streamId, Some(o), None, forth, []) && o.phase.Offered? && |forth| == 1
    requires h' == if host.accepts && !host.sinkOpens then h.(stuck := h.stuck + {o.id}) else h
    requires arriving' == if host.accepts && host.sinkOpens then Some(Incoming(o.id, |o.source|, h.chunkSize, [], []))
                          else None
    requires back' == if !host.accepts then [Tagged(Text(Reject(streamId)), o.id)]
                      else if !host.sinkOpens then []
                      else [Tagged(Text(Accept(streamId, 0)), o.id)]
    ensures Fits(h', streamId, Some(o), arriving', [], back')
  {
  }

  lemma DoneFits(h: Past, h': Past, streamId: nat, o: Outgoing, e: Incoming, forth: seq<Tagged>, closes: bool)
    requires Fits(h, streamId, Some(o), Some(e), forth, []) && o.phase.Sent? && |forth| == 1
    requires h' == if closes then h.(complete := h.complete[o.id := e.calls]) else h.(stuck := h.stuck + {o.id})
    ensures Fits(h', streamId, Some(o), if closes then None else Some(e), [],
                 if closes then [Tagged(Text(Ack(streamId, true)), o.id)] else [])
  {
    hide Chunk, Chunks;
  }

  /** Once every chunk was hashed, the digests agree and the sink was handed them all. */
  lemma GotAll(h: Past, e: Incoming)
    requires Got(h, e) && |e.hashes| == Count(h, e.id)
    ensures Digest.Present(e.hashes) == Some(Chunks(h.sources[e.id], h.chunkSize))
    ensures |e.calls| == Count(h, e.id) && Handed(e.calls, h.sources[e.id], h.chunkSize)
  {
    Digest.PresentMeans(e.hashes);
    assert Digest.Present(e.hashes).value == Chunks(h.sources[e.id], h.chunkSize);
  }

  lemma ReceiverKeeps(w: World, host: Host)
    requires Inv(w) && w.ab != []
    ensures Inv(Step(w, ToReceiver(host)))
  {
    var streamId := StreamOf(w.ab[0].message);
    assert FitsAt(w, streamId);
    Taken1(w.ab);
    NextOnStream(PastOf(w), streamId, Lookup(w.a.outgoing, streamId), Lookup(w.b.incoming, streamId),
                 On(w.ab, streamId), On(w.ba, streamId));
    match w.ab[0].message
    case Binary(frame) => ReceiverChunkKeeps(w, host, streamId);
    case Text(c) =>
      if c.Failed? {
        ReceiverFailedKeeps(w, host, streamId);
      } else if c.Offer? {
        ReceiverOfferKeeps(w, host, streamId);
      } else {
        ReceiverDoneKeeps(w, host, streamId);
      }
  }

  lemma ReceiverChunkKeeps(w: World, host: Host, streamId: nat)
    requires Inv(w) && w.ab != [] && StreamOf(w.ab[0].message) == streamId && w.ab[0].message.Binary?
    ensures Inv(Step(w, ToReceiver(host)))
  {
    hide Fits, AfterChunk, Wire.ChunkFrame, Wire.DecodeChunk, HandleChunk;
    var w', h := Step(w, ToReceiver(host)), PastOf(w);
    assert FitsAt(w, streamId);
    Taken1(w.ab);
    var out, arriving, forth, back :=
      Lookup(w.a.outgoing, streamId), Lookup(w.b.incoming, streamId), On(w.ab, streamId), On(w.ba, streamId);
    NextOnStream(h, streamId, out, arriving, forth, back);
    var e := arriving.value;
    InRange(w.ab[0].message);
    ChunkHandled(w.b, h, streamId, e, host);
    ChunkFits(h, streamId, out, e, forth, back, host.writes);
    assert Tag([], w.ab[0].owner) == [] && w.ba + [] == w.ba;
    assert PastOf(w') == h;
    assert forth[1..] == On(w'.ab, streamId);
    OneStream(w, w', streamId);
  }

  lemma InRange(m: Message)
    requires m.Binary?
    ensures StreamOf(m) < Wire.U16
  {
    if Wire.DecodeChunk(m.frame).Frame? {
      Wire.EncodeDecoded(m.frame);
    }
  }

  lemma ReceiverFailedKeeps(w: World, host: Host, streamId: nat)
    requires Inv(w) && w.ab != [] && w.ab[0].message == Text(Failed(streamId))
    ensures Inv(Step(w, ToReceiver(host)))
  {
    hide Fits;
    var w' := Step(w, ToReceiver(host));
    assert FitsAt(w, streamId);
    Taken1(w.ab);
    var forth := On(w.ab, streamId);
    FailedFits(PastOf(w), streamId, Lookup(w.a.outgoing, streamId), Lookup(w.b.incoming, streamId),
               forth, On(w.ba, streamId));
    assert Tag([], w.ab[0].owner) == [] && w.ba + [] == w.ba;
    assert w'.b.outgoing == map[];
    assert forth[1..] == On(w'.ab, streamId);
    OneStream(w, w', streamId);
  }

  /** The queues after the receiver took one message and answered with at most one. */
  lemma TookAndAnswered(w: World, w': World, streamId: nat, sends: seq<Tagged>)
    requires w.ab != [] && StreamOf(w.ab[0].message) == streamId && w'.ab == w.ab[1..]
    requires w'.ba == w.ba + sends && |sends| <= 1
    requires sends != [] ==> StreamOf(sends[0].message) == streamId
    ensures On(w.ab, streamId) == [w.ab[0]] + On(w'.ab, streamId)
    ensures On(w'.ba, streamId) == On(w.ba, streamId) + sends
    ensures forall s: nat | s != streamId :: On(w'.ab, s) == On(w.ab, s) && On(w'.ba, s) == On(w.ba, s)
  {
    Taken1(w.ab);
    if sends != [] {
      assert sends == [sends[0]];
      Sent1(w.ba, sends[0]);
    } else {
      assert w'.ba == w.ba;
    }
  }

  lemma ReceiverOfferKeeps(w: World, host: Host, streamId: nat)
    requires Inv(w) && w.ab != [] && StreamOf(w.ab[0].message) == streamId
    requires w.ab[0].message.Text? && w.ab[0].message.control.Offer?
    ensures Inv(Step(w, ToReceiver(host)))
  {
    hide Handed, Fits, On;
    var w', h := Step(w, ToReceiver(host)), PastOf(w);
    var forth, back := On(w.ab, streamId), On(w.ba, streamId);
    var sends := Tag(Handle(w.b, w.ab[0].message, host).sends, w.ab[0].owner);
    assert FitsAt(w, streamId);
    OfferSends(w.b, w.ab[0], host);
    TookAndAnswered(w, w', streamId, sends);
    NextOnStream(h, streamId, Lookup(w.a.outgoing, streamId), Lookup(w.b.incoming, streamId), forth, back);
    var o := w.a.outgoing[streamId];
    SendingKnownOffer(h, streamId, o, forth);
    OfferFits(h, PastOf(w'), streamId, o, forth, host, Lookup(w'.b.incoming, streamId), sends);
    assert On(w'.ab, streamId) == [] && On(w'.ba, streamId) == sends;
    OneStream(w, w', streamId);
  }

  lemma OfferSends(s: Session, t: Tagged, host: Host)
    requires t.message.Text? && t.message.control.Offer?
    ensures var c := t.message.control;
            c.streamId !in s.incoming ==>
              Tag(Handle(s, t.message, host).sends, t.owner) ==
              if !host.accepts then [Tagged(Text(Reject(c.streamId)), t.owner)]
              else if !host.sinkOpens then []
              else [Tagged(Text(Accept(c.streamId, 0)), t.owner)]
    ensures t.message.control.streamId in s.incoming ==> Tag(Handle(s, t.message, host).sends, t.owner) == []
  {
  }

  lemma SendingKnownOffer(h: Past, streamId: nat, o: Outgoing, forth: seq<Tagged>)
    requires Fits(h, streamId, Some(o), None, forth, []) && o.phase.Offered?
    ensures o.id in h.sources && h.sources[o.id] == o.source
  {
  }

  lemma {:induction false} ReceiverDoneKeeps(w: World, host: Host, streamId: nat)
    requires Inv(w) && w.ab != [] && StreamOf(w.ab[0].message) == streamId
    requires w.ab[0].message.Text? && w.ab[0].message.control.Done?
    ensures Inv(Step(w, ToReceiver(host)))
  {
    hide Handed, Fits, Chunks, On;
    var w', h := Step(w, ToReceiver(host)), PastOf(w);
    var forth, back := On(w.ab, streamId), On(w.ba, streamId);
    assert FitsAt(w, streamId);
    NextOnStreamDone(w, streamId);
    var o, e := w.a.outgoing[streamId], w.b.incoming[streamId];
    GotAll(h, e);
    var sends := if host.sinkCloses then [Tagged(Text(Ack(streamId, true)), o.id)] else [];
    assert Tag(Handle(w.b, w.ab[0].message, host).sends, w.ab[0].owner) == sends;
    TookAndAnswered(w, w', streamId, sends);
    DoneFits(h, PastOf(w'), streamId, o, e, forth, host.sinkCloses);
    assert On(w'.ab, streamId) == [] && On(w'.ba, streamId) == sends;
    OneStream(w, w', streamId);
  }

  lemma {:induction false} NextOnStreamDone(w: World, streamId: nat)
    requires FitsAt(w, streamId) && w.ab != [] && StreamOf(w.ab[0].message) == streamId
    requires w.ab[0].message.Text? && w.ab[0].message.control.Done?
    ensures var h, t, c := PastOf(w), w.ab[0], w.ab[0].message.control;
            && c.streamId == streamId && streamId in w.a.outgoing && streamId in w.b.incoming
            && w.a.outgoing[streamId].id == w.b.incoming[streamId].id == t.owner
            && w.a.outgoing[streamId].phase.Sent?
            && Got(h, w.b.incoming[streamId]) && |w.b.incoming[streamId].hashes| == Count(h, t.owner)
            && c.digest == Some(Chunks(h.sources[t.owner], h.chunkSize))
    ensures |On(w.ab, streamId)| == 1 && On(w.ba, streamId) == []
  {
    hide Fits, Chunks;
    Taken1(w.ab);
    NextOnStream(PastOf(w), streamId, Lookup(w.a.outgoing, streamId), Lookup(w.b.incoming, streamId),
                 On(w.ab, streamId), On(w.ba, streamId));
  }

  // ---- the sender takes an answer ----

  lemma NextAnswer(h: Past, streamId: nat, out: Option<Outgoing>, arriving: Option<Incoming>,
                   forth: seq<Tagged>, back: seq<Tagged>)
    requires Fits(h, streamId, out, arriving, forth, back) && back != []
    ensures out.Some? && back == [Tagged(back[0].message, out.value.id)] && forth == []
    ensures var m := back[0].message;
            || (m == Text(Accept(streamId, 0)) && out.value.phase.Offered?)
            || (m == Text(Reject(streamId)) && out.value.phase.Offered? && arriving.None?)
            || (m == Text(Ack(streamId, true)) && out.value.phase.Sent? && arriving.None? && out.value.id in h.complete)
  {
  }

  lemma AcceptFits(h: Past, streamId: nat, o: Outgoing, arriving: Option<Incoming>, back: seq<Tagged>)
    requires Fits(h, streamId, Some(o), arriving, [], back) && o.phase.Offered?
    requires back == [Tagged(Text(Accept(streamId, 0)), o.id)]
    ensures Fits(h, streamId, Some(o.(phase := Sending(0, 0))), arriving, [], [])
  {
    hide Chunk;
  }

  lemma SenderKeeps(w: World)
    requires Inv(w) && w.ba != []
    ensures Inv(Step(w, ToSender))
  {
    hide Fits;
    var w', h, streamId := Step(w, ToSender), PastOf(w), StreamOf(w.ba[0].message);
    assert FitsAt(w, streamId);
    Taken1(w.ba);
    var out, arriving := Lookup(w.a.outgoing, streamId), Lookup(w.b.incoming, streamId);
    NextAnswer(h, streamId, out, arriving, On(w.ab, streamId), On(w.ba, streamId));
    assert Tag([], w.ba[0].owner) == [] && w.ab + [] == w.ab;
    assert On(w'.ba, streamId) == [];
    if w.ba[0].message.control.Accept? {
      AcceptFits(h, streamId, out.value, arriving, On(w.ba, streamId));
    } else {
      NoneFits(h, streamId);
    }
    OneStream(w, w', streamId);
  }

  lemma NoneFits(h: Past, streamId: nat)
    ensures Fits(h, streamId, None, None, [], [])
  {
  }

  lemma CloseKeeps(w: World)
    requires Inv(w)
    ensures Inv(Step(w, Close))
  {
    hide Fits;
    var w' := Step(w, Close);
    forall s: nat
      ensures FitsAt(w', s)
    {
      NoneFits(PastOf(w'), s);
    }
  }

  // ---- every run ----

  lemma {:induction false} StepKeeps(w: World, e: Event)
    requires Inv(w)
    ensures Inv(Step(w, e))
  {
    hide FitsAt;
    match e
    case Start(id, source) =>
      if CanStart(w, id, source) {
        StartKeeps(w, id, source);
      }
    case PumpTurn(streamId) =>
      if streamId in w.a.outgoing && w.a.outgoing[streamId].phase.Sending? {
        PumpKeeps(w, streamId);
      } else {
        assert Tag([], OwnerAt(w.a, streamId)) == [] && w.ab + [] == w.ab;
        assert Step(w, e) == w;
      }
    case ReadFails(streamId) =>
      if streamId in w.a.outgoing && w.a.outgoing[streamId].phase.Sending? {
        ReadFailsKeeps(w, streamId);
      } else {
        assert Tag([], OwnerAt(w.a, streamId)) == [] && w.ab + [] == w.ab;
        assert Step(w, e) == w;
      }
    case ToReceiver(host) =>
      if w.ab != [] {
        ReceiverKeeps(w, host);
      }
    case ToSender =>
      if w.ba != [] {
        SenderKeeps(w);
      }
    case Close => CloseKeeps(w);
  }

  lemma {:induction false} RunKeeps(chunkSize: nat, events: seq<Event>)
    requires chunkSize > 0
    ensures Inv(Run(chunkSize, events))
  {
    hide Step;
    if events == [] {
      BeginFits(chunkSize);
    } else {
      RunKeeps(chunkSize, events[..|events| - 1]);
      StepKeeps(Run(chunkSize, events[..|events| - 1]), events[|events| - 1]);
    }
  }

  lemma BeginFits(chunkSize: nat)
    requires chunkSize > 0
    ensures Inv(Begin(chunkSize))
  {
    hide Fits;
    forall s: nat
      ensures FitsAt(Begin(chunkSize), s)
    {
      NoneFits(PastOf(Begin(chunkSize)), s);
    }
  }

  /**
    Exactness: whatever the interleaving of streams, of pumps and of answers, the sink of a transfer
    that was reported complete was handed exactly the chunks of the sender's file, each once, in
    order and with its own bytes. What a sink makes of calls that threw is its own affair: see Deliveries.
   */
  lemma {:induction false} CompleteIsExact(chunkSize: nat, events: seq<Event>, id: TransferId)
    requires chunkSize > 0
    ensures var w := Run(chunkSize, events);
            id in w.complete ==>
              && id in w.sources && |w.complete[id]| == ChunkCount(|w.sources[id]|, chunkSize)
              && Handed(w.complete[id], w.sources[id], chunkSize)
  {
    hide Handed, ChunkCount;
    RunKeeps(chunkSize, events);
  }

  /** A promise resolves only once the receiver has reported that very transfer complete. */
  lemma ResolvedAfterComplete(chunkSize: nat, events: seq<Event>, id: TransferId)
    requires chunkSize > 0
    ensures var w := Run(chunkSize, events); id in w.resolved ==> id in w.complete
  {
    RunKeeps(chunkSize, events);
  }

  /**
    No mix-up: the next message either way is handled by the entry of the transfer that sent it,
    although the ids are few and used again; an offer finds its id free, so it is not ignored.
   */
  lemma NoMixUp(chunkSize: nat, events: seq<Event>)
    requires chunkSize > 0
    ensures var w := Run(chunkSize, events);
            && (w.ab != [] ==>
                  var t, streamId := w.ab[0], StreamOf(w.ab[0].message);
                  if t.message.Text? && t.message.control.Offer?
                  then streamId !in w.b.incoming && t.message.control.id == t.owner
                  else streamId in w.b.incoming && w.b.incoming[streamId].id == t.owner)
            && (w.ba != [] ==>
                  var t, streamId := w.ba[0], StreamOf(w.ba[0].message);
                  streamId in w.a.outgoing && w.a.outgoing[streamId].id == t.owner)
  {
    hide Fits;
    RunKeeps(chunkSize, events);
    var w := Run(chunkSize, events);
    if w.ab != [] {
      var streamId := StreamOf(w.ab[0].message);
      assert FitsAt(w, streamId);
      Taken1(w.ab);
      NextOnStream(PastOf(w), streamId, Lookup(w.a.outgoing, streamId), Lookup(w.b.incoming, streamId),
                   On(w.ab, streamId), On(w.ba, streamId));
    }
    if w.ba != [] {
      var streamId := StreamOf(w.ba[0].message);
      assert FitsAt(w, streamId);
      Taken1(w.ba);
      NextAnswer(PastOf(w), streamId, Lookup(w.a.outgoing, streamId), Lookup(w.b.incoming, streamId),
                 On(w.ab, streamId), On(w.ba, streamId));
    }
  }

  /** Nothing hangs by itself: with nothing in flight and no pump running, only a sink that threw keeps a send open. */
  lemma {:induction false} OnlySinksHang(chunkSize: nat, events: seq<Event>, streamId: nat)
    requires chunkSize > 0
    ensures var w := Run(chunkSize, events);
            w.ab == [] && w.ba == [] && streamId in w.a.outgoing && !w.a.outgoing[streamId].phase.Sending? ==>
              w.a.outgoing[streamId].id in w.stuck
  {
    RunKeeps(chunkSize, events);
    assert FitsAt(Run(chunkSize, events), streamId);
  }

  // ---- every promise settles at most once ----

  /** Calls still open are distinct and unsettled; a settled one was made, and settled in one way. */
  ghost predicate Once(w: World) {
    && (forall k :: k in w.a.outgoing ==> Open(w, w.a.outgoing[k].id))
    && (forall j, k :: j in w.a.outgoing && k in w.a.outgoing && w.a.outgoing[j].id == w.a.outgoing[k].id ==> j == k)
    && w.resolved !! w.declined !! w.unsettled
    && w.resolved + w.declined + w.unsettled <= w.sources.Keys
  }

  predicate Open(w: World, id: TransferId) {
    id in w.sources && id !in w.resolved && id !in w.declined && id !in w.unsettled
  }

  function Settled(notice: Notice): Option<TransferId> {
    match notice
    case Resolved(id) => Some(id)
    case Declined(id) => Some(id)
    case Unsettled(id) => Some(id)
    case _ => None
  }

  /** Entries leave only with their promise's notice, and stay what they were otherwise. */
  ghost predicate Leaves(s: Session, r: Effect) {
    && (forall k :: k in r.session.outgoing ==> k in s.outgoing && r.session.outgoing[k].id == s.outgoing[k].id)
    && (Settled(r.notice).Some? ==>
          exists k :: k in s.outgoing && k !in r.session.outgoing && s.outgoing[k].id == Settled(r.notice).value)
  }

  lemma HandlingLeaves(s: Session, m: Message, host: Host)
    ensures Leaves(s, Handle(s, m, host))
  {
    hide Wire.DecodeChunk, Digest.Update, Digest.Present;
    match m
    case Binary(_) =>
    case Text(c) =>
      if (c.Reject? || c.Ack? || c.Failed?) && c.streamId in s.outgoing {
        assert c.streamId !in Handle(s, m, host).session.outgoing;
      }
  }

  lemma SettlingOnce(w: World, w': World, r: Effect)
    requires Once(w) && Leaves(w.a, r) && w'.a == r.session && w'.sources == w.sources
    requires w'.resolved == if r.notice.Resolved? then w.resolved + {r.notice.id} else w.resolved
    requires w'.declined == if r.notice.Declined? then w.declined + {r.notice.id} else w.declined
    requires w'.unsettled == if r.notice.Unsettled? then w.unsettled + {r.notice.id} else w.unsettled
    ensures Once(w')
  {
  }

  lemma {:induction false} StartOnce(w: World, id: TransferId, source: Bytes)
    requires w.a.chunkSize > 0 && Once(w) && CanStart(w, id, source)
    ensures Once(Step(w, Start(id, source)))
  {
    hide FreeId;
    AllocationFindsAFreeId(w.a);
  }

  lemma {:induction false} StepOnce(w: World, e: Event)
    requires Inv(w) && Once(w)
    ensures Once(Step(w, e))
  {
    hide Handle, FitsAt, FreeId, Tag, Leaves, Wire.ChunkFrame, Chunks, Chunk, ChunkCount;
    match e
    case Start(id, source) =>
      if CanStart(w, id, source) {
        StartOnce(w, id, source);
      }
    case PumpTurn(streamId) => PumpOnce(w, streamId);
    case ReadFails(streamId) => ReadFailsOnce(w, streamId);
    case ToReceiver(host) =>
      if w.ab != [] {
        ReceiverSettlesNothing(w.b, w.ab[0].message, host);
      }
    case ToSender =>
      if w.ba != [] {
        var r := Handle(w.a, w.ba[0].message, Host(false, false, false, false));
        HandlingLeaves(w.a, w.ba[0].message, Host(false, false, false, false));
        SettlingOnce(w, Step(w, e), r);
      }
    case Close => CloseOnce(w);
  }

  lemma PumpOnce(w: World, streamId: nat)
    requires Once(w) && w.a.chunkSize > 0
    ensures Once(Step(w, PumpTurn(streamId)))
  {
    hide Tag, Wire.ChunkFrame, Chunks, Chunk, ChunkCount;
  }

  lemma ReadFailsOnce(w: World, streamId: nat)
    requires Once(w) && w.a.chunkSize > 0
    ensures Once(Step(w, ReadFails(streamId)))
  {
    hide Tag;
    var r := PumpFails(w.a, streamId);
    assert Leaves(w.a, r) by {
      if r.notice.Unsettled? {
        assert streamId !in r.session.outgoing;
      }
    }
    SettlingOnce(w, Step(w, ReadFails(streamId)), r);
  }

  lemma ReceiverSettlesNothing(s: Session, m: Message, host: Host)
    requires s.outgoing == map[]
    ensures Settled(Handle(s, m, host).notice) == None
  {
    hide Wire.DecodeChunk, Digest.Update, Digest.Present;
  }

  lemma CloseOnce(w: World)
    requires Once(w) && w.a.chunkSize > 0
    ensures Once(Step(w, Close))
  {
  }

  lemma {:induction false} RunOnce(chunkSize: nat, events: seq<Event>)
    requires chunkSize > 0
    ensures Once(Run(chunkSize, events))
  {
    hide Step, Once, Inv;
    if events == [] {
      BeginOnce(chunkSize);
    } else {
      RunOnce(chunkSize, events[..|events| - 1]);
      RunKeeps(chunkSize, events[..|events| - 1]);
      StepOnce(Run(chunkSize, events[..|events| - 1]), events[|events| - 1]);
    }
  }

  lemma BeginOnce(chunkSize: nat)
    requires chunkSize > 0
    ensures Once(Begin(chunkSize))
  {
  }

  /** A promise is resolved, declined or rejected, never two of these, and only for a call that was made. */
  lemma {:induction false} SettledOnce(chunkSize: nat, events: seq<Event>)
    requires chunkSize > 0
    ensures var w := Run(chunkSize, events);
            && w.resolved !! w.declined !! w.unsettled
            && w.resolved + w.declined + w.unsettled <= w.sources.Keys
  {
    hide Run;
    RunOnce(chunkSize, events);
  }

  lemma StepKeepsSource(w: World, e: Event, id: TransferId)
    requires w.a.chunkSize > 0 && id in w.sources
    ensures id in Step(w, e).sources && Step(w, e).sources[id] == w.sources[id]
  {
    hide Handle, FreeId, Tag, Pump, PumpFails, BeginSend, OwnerAt;
  }

  /** The source of a call that was made is never another one afterwards. */
  lemma {:induction false} SourceStays(chunkSize: nat, before: seq<Event>, after: seq<Event>, id: TransferId)
    requires chunkSize > 0 && id in Run(chunkSize, before).sources
    ensures var w := Run(chunkSize, before + after);
            id in w.sources && w.sources[id] == Run(chunkSize, before).sources[id]
  {
    hide Step, Run;
    if after == [] {
      assert before + after == before;
    } else {
      var front, e := after[..|after| - 1], after[|after| - 1];
      SourceStays(chunkSize, before, front, id);
      assert before + after == (before + front) + [e];
      RunOneMore(chunkSize, before + front, e);
      StepKeepsSource(Run(chunkSize, before + front), e, id);
    }
  }

  // ---- why a thrown write has to be excepted ----

  lemma RunOneMore(chunkSize: nat, events: seq<Event>, e: Event)
    requires chunkSize > 0
    ensures Run(chunkSize, events + [e]) == Step(Run(chunkSize, events), e)
  {
    assert (events + [e])[..|events|] == events;
  }

  /** Where the run below stands: one transfer, id 1, of the single byte 7, on stream 2. */
  ghost predicate Scene(w: World, phase: Phase, arriving: Option<Incoming>, ab: seq<Message>, ba: seq<Message>) {
    && w.a.chunkSize == 1 && w.sources == map[1 := [7]]
    && w.a.outgoing == map[2 := Outgoing(1, [7], phase)]
    && w.b.incoming == (if arriving.Some? then map[2 := arriving.value] else map[])
    && w.ab == Tag(ab, 1) && w.ba == Tag(ba, 1)
  }

  const ALL_WELL := Host(true, true, true, true)
  const WRITE_THROWS := Host(true, true, false, true)

  lemma SceneOffered(w: World)
    requires w == Begin(1)
    ensures var w' := Step(w, Start(1, [7]));
            Scene(w', Offered, None, [Text(Offer(2, 1, 1, 1))], []) && w'.complete == map[]
  {
    assert NextId(1) == 2 && AllocateStreamId(w.a) == Some(2);
    assert ChunkCount(1, 1) == 1;
  }

  lemma {:induction false} SceneAccepted(w: World)
    requires Scene(w, Offered, None, [Text(Offer(2, 1, 1, 1))], []) && w.complete == map[]
    ensures var w' := Step(w, ToReceiver(ALL_WELL));
            Scene(w', Offered, Some(Incoming(1, 1, 1, [], [])), [], [Text(Accept(2, 0))]) && w'.complete == map[]
  {
  }

  lemma {:induction false} SceneSending(w: World)
    requires Scene(w, Offered, Some(Incoming(1, 1, 1, [], [])), [], [Text(Accept(2, 0))]) && w.complete == map[]
    ensures var w' := Step(w, ToSender);
            Scene(w', Sending(0, 0), Some(Incoming(1, 1, 1, [], [])), [], []) && w'.complete == map[]
  {
  }

  lemma {:induction false} ScenePumped(w: World)
    requires Scene(w, Sending(0, 0), Some(Incoming(1, 1, 1, [], [])), [], []) && w.complete == map[]
    ensures var w' := Step(w, PumpTurn(2));
            && Scene(w', Sending(1, 0), Some(Incoming(1, 1, 1, [], [])), [Binary(Wire.ChunkFrame(2, 0, [7]))], [])
            && w'.complete == map[]
  {
    assert ChunkCount(1, 1) == 1 && Chunk([7], 1, 0) == [7];
    hide Wire.ChunkFrame;
  }

  lemma NotWritten(s: Session, frame: Bytes)
    requires Wire.DecodeChunk(frame) == Wire.Frame(2, 0, [7]) && s.incoming == map[2 := Incoming(1, 1, 1, [], [])]
    ensures HandleChunk(s, frame, WRITE_THROWS) ==
            Effect(s.(incoming := map[2 := Incoming(1, 1, 1, [Some([7])], [Call(0, [7], false)])]), [], Damaged(1))
  {
    hide Wire.DecodeChunk;
    assert Digest.Update<Bytes>([], 0, [7]) == [Some([7])];
    assert [] + [Call(0, [7], false)] == [Call(0, [7], false)];
  }

  lemma SceneNotWritten(w: World, frame: Bytes)
    requires Scene(w, Sending(1, 0), Some(Incoming(1, 1, 1, [], [])), [Binary(frame)], []) && w.complete == map[]
    requires Wire.DecodeChunk(frame) == Wire.Frame(2, 0, [7])
    ensures var w' := Step(w, ToReceiver(WRITE_THROWS));
            && Scene(w', Sending(1, 0), Some(Incoming(1, 1, 1, [Some([7])], [Call(0, [7], false)])), [], [])
            && w'.complete == map[]
  {
    hide Wire.DecodeChunk, HandleChunk;
    NotWritten(w.b, frame);
  }

  lemma SceneDone(w: World)
    requires Scene(w, Sending(1, 0), Some(Incoming(1, 1, 1, [Some([7])], [Call(0, [7], false)])), [], [])
             && w.complete == map[]
    ensures var w' := Step(w, PumpTurn(2));
            && Scene(w', Sent, Some(Incoming(1, 1, 1, [Some([7])], [Call(0, [7], false)])),
                     [Text(Done(2, Some([[7]])))], [])
            && w'.complete == map[]
  {
    assert ChunkCount(1, 1) == 1 && Chunk([7], 1, 0) == [7];
    assert Chunks([7], 1) == [[7]];
    hide Chunks, Chunk;
  }

  lemma {:induction false} SceneComplete(w: World)
    requires Scene(w, Sent, Some(Incoming(1, 1, 1, [Some([7])], [Call(0, [7], false)])),
                   [Text(Done(2, Some([[7]])))], [])
    requires w.complete == map[]
    ensures var w' := Step(w, ToReceiver(ALL_WELL));
            Scene(w', Sent, None, [], [Text(Ack(2, true))]) && w'.complete == map[1 := [Call(0, [7], false)]]
  {
    Digest.PresentAppend([], [7]);
    assert [] + [Some([7])] == [Some([7])] && [] + [[7]] == [[7]];
    hide Digest.Present;
  }

  lemma SceneResolved(w: World)
    requires Scene(w, Sent, None, [], [Text(Ack(2, true))])
    ensures var w' := Step(w, ToSender); 1 in w'.resolved && w'.complete == w.complete && w'.sources == w.sources
  {
  }

  lemma FrameOfSeven(streamId: nat, sequence: nat, payload: Bytes)
    requires streamId < Wire.U16 && sequence < Wire.U32
    ensures Wire.DecodeChunk(Wire.ChunkFrame(streamId, sequence, payload)) == Wire.Frame(streamId, sequence, payload)
  {
    Wire.DecodeEncoded(streamId, sequence, payload);
    hide Wire.ChunkFrame, Wire.DecodeChunk;
    assert streamId % Wire.U16 == streamId && sequence % Wire.U32 == sequence;
  }

  function Then(events: seq<Event>, e: Event): seq<Event> {
    events + [e]
  }

  /**
    The hash is taken before the write and the error is swallowed, so a sink that refused the only
    chunk of a file is still closed and reported complete, and the sender's promise resolves.
   */
  lemma RefusedWriteReportedComplete()
    ensures exists events ::
              var w := Run(1, events);
              w.complete == map[1 := [Call(0, [7], false)]] && w.sources == map[1 := [7]] && 1 in w.resolved
  {
    SceneOffered(Run(1, []));
    hide Step, Run, Wire.ChunkFrame, Wire.DecodeChunk;
    RunOneMore(1, [], Start(1, [7]));
    var e1 := Then([], Start(1, [7]));
    SceneAccepted(Run(1, e1));
    RunOneMore(1, e1, ToReceiver(ALL_WELL));
    var e2 := Then(e1, ToReceiver(ALL_WELL));
    SceneSending(Run(1, e2));
    RunOneMore(1, e2, ToSender);
    var e3 := Then(e2, ToSender);
    ScenePumped(Run(1, e3));
    RunOneMore(1, e3, PumpTurn(2));
    var e4 := Then(e3, PumpTurn(2));
    FrameOfSeven(2, 0, [7]);
    SceneNotWritten(Run(1, e4), Wire.ChunkFrame(2, 0, [7]));
    RunOneMore(1, e4, ToReceiver(WRITE_THROWS));
    var e5 := Then(e4, ToReceiver(WRITE_THROWS));
    SceneDone(Run(1, e5));
    RunOneMore(1, e5, PumpTurn(2));
    var e6 := Then(e5, PumpTurn(2));
    SceneComplete(Run(1, e6));
    RunOneMore(1, e6, ToReceiver(ALL_WELL));
    var e7 := Then(e6, ToReceiver(ALL_WELL));
    SceneResolved(Run(1, e7));
    RunOneMore(1, e7, ToSender);
    assert Run(1, Then(e7, ToSender)).complete == map[1 := [Call(0, [7], false)]];
  }
}
