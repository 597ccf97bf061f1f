/**
  Why a promise of send() settles as it does: over every run of the engine, what it comes to is decided by
  one message taken or one thing gone wrong, and a refusal goes back to the receiving host's own answer.
 */
module TransferOutcomes {
  import opened Common
  import opened Files
  import opened Transfer
  import opened TransferSafety
  import Digest
  import Wire

  // ---- what happens at one moment ----

  /** The receiving host is asked about this transfer and does not accept it. */
  predicate TurnsDown(w: World, e: Event, id: TransferId) {
    && e.ToReceiver? && !e.host.accepts && w.ab != [] && w.ab[0].owner == id
    && w.ab[0].message.Text? && w.ab[0].message.control.Offer?
  }

  predicate TakesControl(w: World, e: Event, id: TransferId) {
    e.ToSender? && w.ba != [] && w.ba[0].owner == id && w.ba[0].message.Text?
  }

  /** The sender takes the answer that turns this transfer down. */
  predicate TakesRefusal(w: World, e: Event, id: TransferId) {
    TakesControl(w, e, id) && w.ba[0].message.control.Reject?
  }

  /** The sender takes the answer that acknowledges it as whole, or as damaged. */
  predicate TakesAck(w: World, e: Event, id: TransferId, ok: bool) {
    TakesControl(w, e, id) && w.ba[0].message.control.Ack? && w.ba[0].message.control.ok == ok
  }

  predicate IsOut(w: World, id: TransferId) {
    exists s :: s in w.a.outgoing && w.a.outgoing[s].id == id
  }

  /** Something goes wrong with an open call: its source cannot be read, the receiver says so, or the link closes. */
  predicate Breaks(w: World, e: Event, id: TransferId) {
    match e
    case ReadFails(s) => s in w.a.outgoing && w.a.outgoing[s].phase.Sending? && w.a.outgoing[s].id == id
    case ToSender => TakesAck(w, e, id, false) || (TakesControl(w, e, id) && w.ba[0].message.control.Failed?)
    case Close => IsOut(w, id)
    case _ => false
  }

  /** The receiver closes the sink of this transfer, its digest being right. */
  predicate Completes(w: World, e: Event, id: TransferId) {
    && e.ToReceiver? && e.host.sinkCloses && w.ab != [] && w.ab[0].owner == id
    && w.ab[0].message.Text? && w.ab[0].message.control.Done?
    && var c := w.ab[0].message.control;
       c.streamId in w.b.incoming &&
       (c.digest.None? || Digest.Present(w.b.incoming[c.streamId].hashes) == c.digest)
  }

  /** The receiver's sink throws as it is made or closed, and no answer goes back. */
  predicate Sticks(w: World, e: Event, id: TransferId) {
    && e.ToReceiver? && w.ab != [] && w.ab[0].owner == id && w.ab[0].message.Text?
    && var c := w.ab[0].message.control;
       if c.Offer? then e.host.accepts && !e.host.sinkOpens
       else
         && c.Done? && !e.host.sinkCloses && c.streamId in w.b.incoming
         && (c.digest.None? || Digest.Present(w.b.incoming[c.streamId].hashes) == c.digest)
  }

  // ---- one step ----

  /** The entry a control message meets is that of the transfer that it answers. */
  lemma MeetsItsOwn(chunkSize: nat, events: seq<Event>)
    requires chunkSize > 0
    ensures var w := Run(chunkSize, events);
            && (w.ba != [] && w.ba[0].message.Text? ==>
                  var s := w.ba[0].message.control.streamId; s in w.a.outgoing && w.a.outgoing[s].id == w.ba[0].owner)
            && (w.ab != [] && w.ab[0].message.Text? ==>
                  var c := w.ab[0].message.control;
                  if c.Offer? then c.streamId !in w.b.incoming && c.id == w.ab[0].owner
                  else c.streamId in w.b.incoming && w.b.incoming[c.streamId].id == w.ab[0].owner)
  {
    hide Run;
    NoMixUp(chunkSize, events);
  }

  /** What comes back to the sender next: an acceptance, a refusal, or the news that the file is whole. */
  lemma NextBack(chunkSize: nat, events: seq<Event>)
    requires chunkSize > 0
    ensures var w := Run(chunkSize, events);
            w.ba != [] && w.ba[0].message.Text? && w.ba[0].message.control.Ack? ==> w.ba[0].message.control.ok
    ensures var w := Run(chunkSize, events);
            w.ba != [] ==>
              && w.ba[0].message.Text?
              && var c := w.ba[0].message.control; c.Accept? || c.Reject? || c.Ack?
  {
    hide Run, Fits;
    RunKeeps(chunkSize, events);
    var w := Run(chunkSize, events);
    if w.ba != [] {
      var streamId := StreamOf(w.ba[0].message);
      assert FitsAt(w, streamId);
      Taken1(w.ba);
      NextAnswer(PastOf(w), streamId, Lookup(w.a.outgoing, streamId), Lookup(w.b.incoming, streamId),
                 On(w.ab, streamId), On(w.ba, streamId));
    }
  }

  /** Nothing goes out to the receiver but what a sender sends, and the receiver sends nothing of its own. */
  lemma OneWay(chunkSize: nat, events: seq<Event>)
    requires chunkSize > 0
    ensures var w := Run(chunkSize, events); w.a.incoming == map[] && w.b.outgoing == map[] && w.a.chunkSize > 0
  {
    RunKeeps(chunkSize, events);
  }

  /** What each call's promise comes to changes by one thing only, and so does what the receiver completes. */
  lemma StepSettles(chunkSize: nat, events: seq<Event>, e: Event, id: TransferId)
    requires chunkSize > 0
    ensures var w := Run(chunkSize, events);
            var w' := Step(w, e);
            && (id in w'.declined <==> id in w.declined || TakesRefusal(w, e, id))
            && (id in w'.resolved <==> id in w.resolved || TakesAck(w, e, id, true))
            && (id in w'.unsettled <==> id in w.unsettled || Breaks(w, e, id))
            && (id in w'.complete <==> id in w.complete || Completes(w, e, id))
            && (id in w'.stuck <==> id in w.stuck || Sticks(w, e, id))
  {
    hide Run, Pump, BeginSend, Chunk, ChunkCount, Tag, Handle, FreeId;
    MeetsItsOwn(chunkSize, events);
    NextBack(chunkSize, events);
    OneWay(chunkSize, events);
    var w := Run(chunkSize, events);
    match e
    case ToReceiver(host) =>
      if w.ab != [] {
        ReceiverSettles(w, host, id);
      }
    case ToSender =>
      if w.ba != [] {
        SenderSettles(w, id);
      }
    case _ =>
  }

  lemma ReceiverSettles(w: World, host: Host, id: TransferId)
    requires w.a.chunkSize > 0 && w.ab != [] && w.b.outgoing == map[]
    requires w.ab[0].message.Text? && !w.ab[0].message.control.Offer? ==>
               var s := w.ab[0].message.control.streamId; s in w.b.incoming && w.b.incoming[s].id == w.ab[0].owner
    requires w.ab[0].message.Text? && w.ab[0].message.control.Offer? ==>
               w.ab[0].message.control.streamId !in w.b.incoming && w.ab[0].message.control.id == w.ab[0].owner
    ensures var w' := Step(w, ToReceiver(host));
            && (id in w'.stuck <==> id in w.stuck || Sticks(w, ToReceiver(host), id))
            && w'.declined == w.declined && w'.resolved == w.resolved && w'.unsettled == w.unsettled
            && (id in w'.complete <==> id in w.complete || Completes(w, ToReceiver(host), id))
  {
    hide Tag, Digest.Present, Digest.Update, Wire.DecodeChunk;
  }

  lemma SenderSettles(w: World, id: TransferId)
    requires w.a.chunkSize > 0 && w.ba != [] && w.ba[0].message.Text?
    requires var c := w.ba[0].message.control; c.Accept? || c.Reject? || c.Ack?
    requires var s := w.ba[0].message.control.streamId; s in w.a.outgoing && w.a.outgoing[s].id == w.ba[0].owner
    ensures var w' := Step(w, ToSender);
            && (id in w'.declined <==> id in w.declined || TakesRefusal(w, ToSender, id))
            && (id in w'.resolved <==> id in w.resolved || TakesAck(w, ToSender, id, true))
            && (id in w'.unsettled <==> id in w.unsettled || TakesAck(w, ToSender, id, false))
            && w'.complete == w.complete && w'.stuck == w.stuck
  {
    hide Tag;
  }

  // ---- whole runs ----

  predicate HappensAt(chunkSize: nat, events: seq<Event>, i: nat, f: (World, Event) -> bool)
    requires chunkSize > 0 && i < |events|
  {
    f(Run(chunkSize, events[..i]), events[i])
  }

  ghost predicate Happens(chunkSize: nat, events: seq<Event>, f: (World, Event) -> bool)
    requires chunkSize > 0
  {
    exists i :: 0 <= i < |events| && HappensAt(chunkSize, events, i, f)
  }

  lemma HappensMore(chunkSize: nat, events: seq<Event>, e: Event, f: (World, Event) -> bool)
    requires chunkSize > 0
    ensures Happens(chunkSize, events + [e], f) <==> Happens(chunkSize, events, f) || f(Run(chunkSize, events), e)
  {
    hide Run;
    var all, n := events + [e], |events|;
    assert all[..n] == events;
    assert forall i :: 0 <= i < n ==> all[..i] == events[..i];
    assert forall i :: 0 <= i < n ==> HappensAt(chunkSize, all, i, f) == HappensAt(chunkSize, events, i, f);
    if f(Run(chunkSize, events), e) {
      assert HappensAt(chunkSize, all, n, f);
    }
    if Happens(chunkSize, events, f) {
      var i :| 0 <= i < n && HappensAt(chunkSize, events, i, f);
      assert HappensAt(chunkSize, all, i, f);
    }
  }

  ghost predicate WasRefused(chunkSize: nat, events: seq<Event>, id: TransferId)
    requires chunkSize > 0
  {
    Happens(chunkSize, events, (w, e) => TakesRefusal(w, e, id))
  }

  ghost predicate WasTurnedDown(chunkSize: nat, events: seq<Event>, id: TransferId)
    requires chunkSize > 0
  {
    Happens(chunkSize, events, (w, e) => TurnsDown(w, e, id))
  }

  ghost predicate WasAcked(chunkSize: nat, events: seq<Event>, id: TransferId)
    requires chunkSize > 0
  {
    Happens(chunkSize, events, (w, e) => TakesAck(w, e, id, true))
  }

  ghost predicate WasBroken(chunkSize: nat, events: seq<Event>, id: TransferId)
    requires chunkSize > 0
  {
    Happens(chunkSize, events, (w, e) => Breaks(w, e, id))
  }

  ghost predicate WasStuck(chunkSize: nat, events: seq<Event>, id: TransferId)
    requires chunkSize > 0
  {
    Happens(chunkSize, events, (w, e) => Sticks(w, e, id))
  }

  ghost predicate WasCompleted(chunkSize: nat, events: seq<Event>, id: TransferId)
    requires chunkSize > 0
  {
    Happens(chunkSize, events, (w, e) => Completes(w, e, id))
  }

  /**
    How every promise settles, over every run: it resolves if and only if the sender took the receiver's good
    acknowledgement of this transfer, is declined if and only if it took a refusal of it, and is rejected otherwise if
    and only if its source could not be read or the link closed under it. The receiver completes it if and only if it
    took the end of it with a right digest and its sink closed, and leaves it stuck if and only if its sink threw.
   */
  lemma {:induction false} SettlesExactly(chunkSize: nat, events: seq<Event>, id: TransferId)
    requires chunkSize > 0
    ensures var w := Run(chunkSize, events);
            && (id in w.resolved <==> WasAcked(chunkSize, events, id))
            && (id in w.declined <==> WasRefused(chunkSize, events, id))
            && (id in w.unsettled <==> WasBroken(chunkSize, events, id))
            && (id in w.complete <==> WasCompleted(chunkSize, events, id))
            && (id in w.stuck <==> WasStuck(chunkSize, events, id))
  {
    hide Step, TakesAck, TakesRefusal, Breaks, Completes, Sticks, Happens;
    if events == [] {
      NothingHappens(chunkSize, id);
    } else {
      var front, e := events[..|events| - 1], events[|events| - 1];
      assert events == front + [e];
      SettlesExactly(chunkSize, front, id);
      StepSettles(chunkSize, front, e, id);
      HappensMore(chunkSize, front, e, (w, e) => TakesAck(w, e, id, true));
      HappensMore(chunkSize, front, e, (w, e) => TakesRefusal(w, e, id));
      HappensMore(chunkSize, front, e, (w, e) => Breaks(w, e, id));
      HappensMore(chunkSize, front, e, (w, e) => Completes(w, e, id));
      HappensMore(chunkSize, front, e, (w, e) => Sticks(w, e, id));
    }
  }

  lemma NothingHappens(chunkSize: nat, id: TransferId)
    requires chunkSize > 0
    ensures !WasAcked(chunkSize, [], id) && !WasRefused(chunkSize, [], id) && !WasBroken(chunkSize, [], id)
    ensures !WasCompleted(chunkSize, [], id) && !WasTurnedDown(chunkSize, [], id) && !WasStuck(chunkSize, [], id)
  {
  }

  // ---- a refusal goes back to the host ----

  predicate IsRefusal(t: Tagged, id: TransferId) {
    t.owner == id && t.message.Text? && t.message.control.Reject?
  }

  /** The receiver sends a refusal of a transfer exactly when its host turns that very offer down. */
  lemma StepRefuses(chunkSize: nat, events: seq<Event>, e: Event, id: TransferId)
    requires chunkSize > 0
    ensures var w := Run(chunkSize, events);
            var w' := Step(w, e);
            (exists t :: t in w'.ba && IsRefusal(t, id)) ==>
              (exists t :: t in w.ba && IsRefusal(t, id)) || TurnsDown(w, e, id)
    ensures var w := Run(chunkSize, events);
            TurnsDown(w, e, id) ==> Step(w, e).ba == w.ba + [Tagged(Text(Reject(w.ab[0].message.control.streamId)), id)]
  {
    hide Run, Handle, IsRefusal, Tag;
    MeetsItsOwn(chunkSize, events);
    OneWay(chunkSize, events);
    var w := Run(chunkSize, events);
    if e.ToReceiver? {
      if w.ab != [] {
        ReceiverRefuses(w, e.host, id);
      }
    } else {
      OthersAnswerNothing(w, e);
    }
  }

  lemma OthersAnswerNothing(w: World, e: Event)
    requires w.a.chunkSize > 0 && !e.ToReceiver?
    ensures forall t :: t in Step(w, e).ba ==> t in w.ba
  {
    hide Pump, PumpFails, BeginSend, Handle, Chunk, ChunkCount, Tag;
  }

  lemma ReceiverRefuses(w: World, host: Host, id: TransferId)
    requires w.a.chunkSize > 0 && w.ab != []
    requires w.ab[0].message.Text? && w.ab[0].message.control.Offer? ==>
               w.ab[0].message.control.streamId !in w.b.incoming
    ensures var r := Handle(w.b, w.ab[0].message, host).sends;
            && (forall t :: t in Tag(r, w.ab[0].owner) && IsRefusal(t, id) ==> TurnsDown(w, ToReceiver(host), id))
            && (TurnsDown(w, ToReceiver(host), id) ==>
                  Tag(r, w.ab[0].owner) == [Tagged(Text(Reject(w.ab[0].message.control.streamId)), id)])
  {
    hide Digest.Present, Digest.Update, Wire.DecodeChunk;
  }

  lemma {:induction false} RefusalsComeFrom(chunkSize: nat, events: seq<Event>, id: TransferId)
    requires chunkSize > 0
    ensures forall t :: t in Run(chunkSize, events).ba && IsRefusal(t, id) ==> WasTurnedDown(chunkSize, events, id)
    ensures WasRefused(chunkSize, events, id) ==> WasTurnedDown(chunkSize, events, id)
  {
    hide Step, TakesRefusal, TurnsDown, Happens, IsRefusal;
    if events == [] {
      NothingHappens(chunkSize, id);
    } else {
      var front, e := events[..|events| - 1], events[|events| - 1];
      assert events == front + [e];
      RefusalsComeFrom(chunkSize, front, id);
      StepRefuses(chunkSize, front, e, id);
      RefusalIsOne(Run(chunkSize, front), e, id);
      HappensMore(chunkSize, front, e, (w, e) => TakesRefusal(w, e, id));
      HappensMore(chunkSize, front, e, (w, e) => TurnsDown(w, e, id));
    }
  }

  lemma RefusalIsOne(w: World, e: Event, id: TransferId)
    ensures TakesRefusal(w, e, id) ==> w.ba != [] && w.ba[0] in w.ba && IsRefusal(w.ba[0], id)
  {
  }

  /**
    A promise is declined if and only if the receiving host turned that offer down and the sender then took the
    answer while the call was open; nothing else is ever told as a refusal, and no refusal as anything else.
   */
  lemma DeclinedExactly(chunkSize: nat, events: seq<Event>, id: TransferId)
    requires chunkSize > 0
    ensures id in Run(chunkSize, events).declined <==>
              WasTurnedDown(chunkSize, events, id) && WasRefused(chunkSize, events, id)
    ensures id in Run(chunkSize, events).declined ==>
              id !in Run(chunkSize, events).resolved && id !in Run(chunkSize, events).unsettled
  {
    hide Run, WasTurnedDown, WasRefused, WasAcked, WasBroken, WasCompleted, WasStuck;
    SettlesExactly(chunkSize, events, id);
    RefusalsComeFrom(chunkSize, events, id);
    SettledOnce(chunkSize, events);
  }

  // ---- the end of a file ----

  /** The hashes taken are those of all the chunks of this file, in order and without a gap. */
  ghost predicate IsWhole(hashes: seq<Option<Bytes>>, source: Bytes, chunkSize: nat)
    requires chunkSize > 0
  {
    && |hashes| == ChunkCount(|source|, chunkSize)
    && forall i :: 0 <= i < |hashes| ==> hashes[i] == Some(Chunk(source, chunkSize, i))
  }

  lemma WholeMeans(hashes: seq<Option<Bytes>>, source: Bytes, chunkSize: nat)
    requires chunkSize > 0
    ensures IsWhole(hashes, source, chunkSize) <==> Digest.Present(hashes) == Some(Chunks(source, chunkSize))
  {
    hide Chunk, ChunkCount, Digest.Present;
    Digest.PresentMeans(hashes);
    if IsWhole(hashes, source, chunkSize) {
      assert Digest.Present(hashes).value == Chunks(source, chunkSize);
    }
  }

  /**
    Both ends at the end of a file, whatever the receiver has got: it is acknowledged as whole, and the sender's
    promise resolves on that, if and only if the hashes taken are those of all its chunks, or the sender was told to
    go on from a later chunk and so had no digest to give. A file that does not match is dropped, and the promise
    rejected without being marked as declined; one whose sink cannot be closed is left where it is, unanswered.
   */
  lemma {:induction false} DoneChecksExactly(a: Session, b: Session, streamId: nat, host: Host, other: Host)
    requires a.chunkSize > 0 && streamId in a.outgoing && streamId in b.incoming
    requires var entry := a.outgoing[streamId];
             entry.phase.Sending? && entry.phase.next >= ChunkCount(|entry.source|, a.chunkSize)
    ensures var entry, arriving, said := a.outgoing[streamId], b.incoming[streamId], Pump(a, streamId);
            var whole := entry.phase.resumeFrom > 0 || IsWhole(arriving.hashes, entry.source, a.chunkSize);
            && |said.sends| == 1
            && var checked := Handle(b, said.sends[0], host);
               if whole && !host.sinkCloses then checked == Effect(b, [], Stuck(arriving.id))
               else
                 && checked.sends == [Text(Ack(streamId, whole))]
                 && checked.session == b.(incoming := b.incoming - {streamId})
                 && checked.notice == (if whole then Completed(arriving.id, arriving.calls) else Silent)
                 && Handle(said.session, checked.sends[0], other).notice
                    == (if whole then Resolved(entry.id) else Unsettled(entry.id))
  {
    hide Chunk, Chunks, ChunkCount, Digest.Present, IsWhole;
    WholeMeans(b.incoming[streamId].hashes, a.outgoing[streamId].source, a.chunkSize);
  }

  /** What one stream's pump sends in so many turns, nothing else happening to the session. */
  function Pumped(s: Session, streamId: nat, turns: nat): (r: (Session, seq<Message>))
    requires s.chunkSize > 0
    ensures r.0.chunkSize == s.chunkSize
  {
    if turns == 0 then (s, [])
    else
      var before := Pumped(s, streamId, turns - 1);
      var r := Pump(before.0, streamId);
      (r.session, before.1 + r.sends)
  }

  lemma {:induction false} PumpedSoFar(s: Session, streamId: nat, k: nat, turns: nat)
    requires s.chunkSize > 0 && streamId in s.outgoing && s.outgoing[streamId].phase == Sending(k, k)
    requires k + turns <= ChunkCount(|s.outgoing[streamId].source|, s.chunkSize)
    ensures var source, pumped := s.outgoing[streamId].source, Pumped(s, streamId, turns);
            && streamId in pumped.0.outgoing
            && pumped.0.outgoing[streamId] == s.outgoing[streamId].(phase := Sending(k + turns, k))
            && pumped.1 == seq(turns, i requires 0 <= i < turns =>
                                 Binary(Wire.ChunkFrame(streamId, k + i, Chunk(source, s.chunkSize, k + i))))
  {
    hide Chunk, Chunks, ChunkCount, Wire.ChunkFrame;
    if turns > 0 {
      PumpedSoFar(s, streamId, k, turns - 1);
    }
  }

  /**
    A sender told to go on from chunk k sends every chunk from there, in order and once, and behind the last one the
    end, with the digest of the whole file if it began at the first.
   */
  lemma {:induction false} ResumesExactly(s: Session, streamId: nat, k: nat, host: Host, turns: nat)
    requires s.chunkSize > 0 && streamId in s.outgoing
    requires k + turns <= ChunkCount(|s.outgoing[streamId].source|, s.chunkSize)
    ensures var source := s.outgoing[streamId].source;
            var told := Handle(s, Text(Accept(streamId, k)), host).session;
            && told.chunkSize == s.chunkSize
            && var pumped := Pumped(told, streamId, turns);
               && pumped.1 == seq(turns, i requires 0 <= i < turns =>
                                    Binary(Wire.ChunkFrame(streamId, k + i, Chunk(source, s.chunkSize, k + i))))
               && (k + turns == ChunkCount(|source|, s.chunkSize) ==>
                     Pump(pumped.0, streamId).sends
                     == [Text(Done(streamId, if k == 0 then Some(Chunks(source, s.chunkSize)) else None))])
  {
    hide Chunk, Chunks, ChunkCount, Wire.ChunkFrame, Pumped;
    PumpedSoFar(Handle(s, Text(Accept(streamId, k)), host).session, streamId, k, turns);
  }

  predicate Settles(notice: Notice, id: TransferId) {
    notice == Resolved(id) || notice == Declined(id) || notice == Unsettled(id)
  }

  /**
    A promise is settled exactly when its entry goes, by a control message for its stream and by no other: a refusal,
    an acknowledgement, which resolves it if it is good, or a report that the other side failed.
   */
  lemma EntryGoesWithPromise(s: Session, m: Message, host: Host, streamId: nat)
    requires streamId in s.outgoing
    ensures var r := Handle(s, m, host);
            var id := s.outgoing[streamId].id;
            var named := m.Text? && m.control.streamId == streamId;
            && (streamId !in r.session.outgoing <==>
                  named && (m.control.Reject? || m.control.Ack? || m.control.Failed?))
            && (streamId !in r.session.outgoing ==> Settles(r.notice, id))
            && (streamId in r.session.outgoing && Settles(r.notice, id) ==>
                  exists other :: other in s.outgoing && other != streamId && s.outgoing[other].id == id)
            && (named && m.control.Failed? ==> r.notice == Unsettled(id) && streamId !in r.session.incoming)
            && (named && m.control.Ack? ==> r.notice == if m.control.ok then Resolved(id) else Unsettled(id))
            && (named && m.control.Reject? ==> r.notice == Declined(id))
  {
    hide Digest.Present, Digest.Update, Wire.DecodeChunk;
  }

  // ---- ids come round ----

  lemma {:induction false} StepsRound(last: nat, k: nat)
    requires 1 <= last <= MAX_STREAM_ID
    ensures StepsOn(last, k) == (last - 1 + k) % MAX_STREAM_ID + 1
  {
    if k > 0 {
      StepsRound(last, k - 1);
    }
  }

  /** What the search finds is the first free id on its way. */
  lemma {:induction false} FreeIdFirst(used: set<nat>, last: nat, tries: nat, k: nat)
    requires 1 <= k <= tries && StepsOn(last, k) !in used
    ensures FreeId(used, last, tries).Some?
    ensures exists j :: 1 <= j <= k && FreeId(used, last, tries).value == StepsOn(last, j)
    decreases tries
  {
    if NextId(last) in used {
      StepsOnFirst(last, k);
      FreeIdFirst(used, NextId(last), tries - 1, k - 1);
      var j :| 1 <= j <= k - 1 && FreeId(used, NextId(last), tries - 1).value == StepsOn(NextId(last), j);
      StepsOnFirst(last, j + 1);
      assert FreeId(used, last, tries).value == StepsOn(last, j + 1);
    } else {
      assert StepsOn(last, 0) == last;
      assert FreeId(used, last, tries).value == StepsOn(last, 1);
    }
  }

  lemma LastComesLast(s: Session, id: nat)
    requires 1 <= s.nextStreamId <= MAX_STREAM_ID && AllocateStreamId(s) == Some(s.nextStreamId)
    requires 1 <= id <= MAX_STREAM_ID && id != s.nextStreamId
    ensures id in s.outgoing
  {
    var last := s.nextStreamId;
    var k := if id > last then id - last else id - last + MAX_STREAM_ID;
    StepsRound(last, k);
    if id !in s.outgoing {
      FreeIdFirst(s.outgoing.Keys, last, MAX_STREAM_ID + 1, k);
      var j :| 1 <= j <= k && last == StepsOn(last, j);
      StepsRound(last, j);
      assert false;
    }
  }

  lemma NextKept(w: World, e: Event)
    requires w.a.chunkSize > 0 && !e.Start?
    ensures Step(w, e).a.nextStreamId == w.a.nextStreamId
  {
    hide Pump, Digest.Present, Digest.Update, Wire.DecodeChunk, Chunk, Chunks, ChunkCount, Tag;
    match e
    case PumpTurn(streamId) => PumpKeepsNext(w.a, streamId);
    case _ =>
  }

  lemma PumpKeepsNext(s: Session, streamId: nat)
    requires s.chunkSize > 0
    ensures Pump(s, streamId).session.nextStreamId == s.nextStreamId
  {
    hide Chunk, Chunks, ChunkCount;
  }

  lemma {:induction false} NextStays(chunkSize: nat, events: seq<Event>, more: seq<Event>)
    requires chunkSize > 0 && forall i :: 0 <= i < |more| ==> !more[i].Start?
    ensures Run(chunkSize, events + more).a.nextStreamId == Run(chunkSize, events).a.nextStreamId
  {
    hide Step;
    if more == [] {
      assert events + more == events;
    } else {
      var front, e := more[..|more| - 1], more[|more| - 1];
      NextStays(chunkSize, events, front);
      assert events + more == (events + front) + [e];
      RunOneMore(chunkSize, events + front, e);
      NextKept(Run(chunkSize, events + front), e);
    }
  }

  /**
    A stream id is the last to be handed out again: a transfer that is started, and whatever happens then short of
    another start, leaves its id to be found next only if every other one is taken.
   */
  lemma {:induction false} IdsComeRound(chunkSize: nat, events: seq<Event>, id: TransferId, source: Bytes,
                                        more: seq<Event>, other: nat)
    requires chunkSize > 0 && forall i :: 0 <= i < |more| ==> !more[i].Start?
    requires CanStart(Run(chunkSize, events), id, source)
    requires 1 <= other <= MAX_STREAM_ID
    ensures var stream := AllocateStreamId(Run(chunkSize, events).a);
            var later := Run(chunkSize, events + [Start(id, source)] + more).a;
            stream.Some? && AllocateStreamId(later) == stream && other != stream.value ==> other in later.outgoing
  {
    hide Run, FreeId, ChunkCount;
    var w := Run(chunkSize, events);
    var started := events + [Start(id, source)];
    RunOneMore(chunkSize, events, Start(id, source));
    NextStays(chunkSize, started, more);
    AllocationFindsAFreeId(w.a);
    var stream, later := AllocateStreamId(w.a), Run(chunkSize, started + more).a;
    if stream.Some? && AllocateStreamId(later) == stream && other != stream.value {
      LastComesLast(later, other);
    }
  }
}
