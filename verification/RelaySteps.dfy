/**
  The steps of the relay's runs add up to the calls: an upload, and a pass over a mailbox, gone through request by
  request with whatever is lost on the way, end as the calls as a whole are specified to end.
 */
module RelaySteps {
  import opened Common
  import opened Files
  import opened Store
  import opened Relay
  import Digest
  import R = RelaySafety

  type World = R.World
  type Event = R.Event

  // ---- the steps of one visit ----

  /** The requests for one part, up to the first that is answered or the last that is made. */
  function PartEvents(k: nat, v: Visit, i: nat, attempt: nat): seq<Event>
    requires 1 <= attempt <= PART_ATTEMPTS
    decreases PART_ATTEMPTS - attempt
  {
    [R.Fetch(k, v.net.fate(i, attempt), v.sink.writes(i))] +
    if v.net.fate(i, attempt) == Delivered || attempt == PART_ATTEMPTS then [] else PartEvents(k, v, i, attempt + 1)
  }

  function FirstParts(k: nat, v: Visit, n: nat): seq<Event> {
    if n == 0 then [R.Open(k, v.acks, v.sink.opens)] else FirstParts(k, v, n - 1) + PartEvents(k, v, n - 1, 1)
  }

  /** Everything the recipient does about an entry; once it has given up, what is left of this finds nothing to do. */
  function EntryEvents(k: nat, v: Visit, parts: nat): seq<Event> {
    FirstParts(k, v, parts) + [R.Close(k, v.sink.closes), R.Ack(k, v.acks)]
  }

  /** The requests of this visit are all made at one moment. */
  ghost predicate AtOnce(v: Visit, now: nat) {
    forall i, attempt :: v.net.clock(i, attempt) == now
  }

  function Partners(w: World, me: DeviceId): set<DeviceId> {
    set p | p in w.paired && p.0 == me :: p.1
  }

  /** The pass stands before this entry. */
  predicate AtEntry(w: World, k: nat, e: Entry) {
    k in w.passes && w.passes[k].work.Ready? && w.passes[k].rest != [] && w.passes[k].rest[0] == e
  }

  /** The entry left as it is, and the next one up. */
  function PassedBy(w: World, k: nat): World
    requires k in w.passes && w.passes[k].rest != []
  {
    R.Proceed(w, k, w.passes[k].rest[1..], R.Ready)
  }

  // ---- proofs ----

  lemma {:induction false} RunParts(w: World, first: seq<Event>, rest: seq<Event>)
    ensures R.Run(w, first + rest) == R.Run(R.Run(w, first), rest)
  {
    hide R.Step;
    if rest == [] {
      assert first + rest == first;
    } else {
      var n := |rest| - 1;
      RunParts(w, first, rest[..n]);
      assert (first + rest)[..|first + rest| - 1] == first + rest[..n];
    }
  }

  /** A pass that is between entries has nothing to fetch, close or acknowledge. */
  lemma {:induction false} NothingToDo(w: World, k: nat, events: seq<Event>)
    requires k in w.passes && w.passes[k].work.Ready?
    requires forall i :: 0 <= i < |events| ==>
               (events[i].Fetch? || events[i].Close? || events[i].Ack?) && events[i].pass == k
    ensures R.Run(w, events) == w
  {
    if events != [] {
      NothingToDo(w, k, events[..|events| - 1]);
    }
  }

  lemma {:induction false} PartEventsOf(k: nat, v: Visit, i: nat, attempt: nat)
    requires 1 <= attempt <= PART_ATTEMPTS
    ensures forall j :: 0 <= j < |PartEvents(k, v, i, attempt)| ==>
              PartEvents(k, v, i, attempt)[j].Fetch? && PartEvents(k, v, i, attempt)[j].pass == k
    decreases PART_ATTEMPTS - attempt
  {
    if attempt < PART_ATTEMPTS {
      PartEventsOf(k, v, i, attempt + 1);
    }
  }

  /** The first n parts have come and been written. */
  ghost predicate Holding(w: World, w': World, k: nat, e: Entry, v: Visit, attempt: nat, plains: seq<Bytes>)
    requires AtEntry(w, k, e)
  {
    var me := w.passes[k].device;
    var o := OpenEnvelope(me, e.envelope.sender, e.envelope);
    && o.Some? && (me, e.envelope.sender) in w.paired && v.sink.opens
    && k in w'.passes && w'.passes[k].work.Fetching?
    && var hashes := w'.passes[k].work.hashes;
       && |hashes| == |plains| <= e.envelope.parts && (forall i :: 0 <= i < |plains| ==> hashes[i] == Some(plains[i]))
       && Came(w.store, e.envelope, o.value, v.net, v.sink, plains)
       && w' == R.Proceed(w, k, w.passes[k].rest[1..],
                          R.Fetching(e, |plains|, attempt, hashes, Assembled(plains, o.value.metadata.partSize)))
  }

  /** The entry was given up on, as it had to be. */
  ghost predicate GivenUp(w: World, w': World, k: nat, e: Entry, v: Visit)
    requires AtEntry(w, k, e)
  {
    && w' == PassedBy(w, k)
    && (w.passes[k].device, e.envelope.sender) in w.paired
    && !Receives(w.store, e.envelope, w.passes[k].device, e.envelope.sender, v.net, v.sink)
  }

  lemma RunOne(w: World, e: Event)
    ensures R.Run(w, [e]) == R.Step(w, e)
  {
    assert [e][..0] == [];
    assert R.Run(w, []) == w;
  }

  lemma FetchAnswered(w: World, w': World, k: nat, e: Entry, v: Visit, attempt: nat, plains: seq<Bytes>)
    returns (plain: Option<Bytes>)
    requires AtEntry(w, k, e) && AtOnce(v, w.now) && Holding(w, w', k, e, v, attempt, plains)
    requires |plains| < e.envelope.parts && Answered(v.net, |plains|, attempt)
    ensures var after := R.FetchPart(w', k, Delivered, v.sink.writes(|plains|));
            if plain.Some? then Holding(w, after, k, e, v, 1, plains + [plain.value]) else GivenUp(w, after, k, e, v)
  {
    hide PlainPart, Assembled, WriteAt, OpenEnvelope, Receives;
    var me, n := w.passes[k].device, |plains|;
    var o := OpenEnvelope(me, e.envelope.sender, e.envelope).value;
    var f := w'.passes[k].work;
    plain := PlainPart(w.store, e.envelope, o, n, w.now);
    if plain.None? || !v.sink.writes(n) {
      if plain.None? {
        assert FetchesNothing(w.store, e.envelope, o, v.net, n) by {
          OneAnswer(w.store, e.envelope, o, v.net, n, attempt);
        }
      }
      NoPartNoFile(w.store, e.envelope, me, e.envelope.sender, v.net, v.sink, n);
      plain := None;
    } else {
      Digest.UpdateNext(f.hashes, plain.value);
      OneMorePart(plains, plain.value, o.metadata.partSize);
      assert Fetches(w.store, e.envelope, o, v.net, n, plain.value);
    }
  }

  lemma OneAnswer(s: Store, envelope: Envelope, o: Relay.Opened, net: Network, index: nat, attempt: nat)
    requires Answered(net, index, attempt) && PlainPart(s, envelope, o, index, net.clock(index, attempt)).None?
    ensures FetchesNothing(s, envelope, o, net, index)
  {
    hide PlainPart;
  }

  lemma {:induction false} PartRun(w: World, w': World, k: nat, e: Entry, v: Visit, attempt: nat, plains: seq<Bytes>)
    returns (plain: Option<Bytes>)
    requires AtEntry(w, k, e) && AtOnce(v, w.now) && Holding(w, w', k, e, v, attempt, plains)
    requires |plains| < e.envelope.parts && 1 <= attempt <= PART_ATTEMPTS
    requires forall j :: 1 <= j < attempt ==> v.net.fate(|plains|, j) != Delivered
    ensures var after := R.Run(w', PartEvents(k, v, |plains|, attempt));
            if plain.Some? then Holding(w, after, k, e, v, 1, plains + [plain.value]) else GivenUp(w, after, k, e, v)
    decreases PART_ATTEMPTS - attempt
  {
    hide PlainPart, Assembled, OpenEnvelope, Receives, R.Run, Came;
    var n := |plains|;
    var fetch := R.Fetch(k, v.net.fate(n, attempt), v.sink.writes(n));
    RunOne(w', fetch);
    if v.net.fate(n, attempt) == Delivered {
      assert Answered(v.net, n, attempt);
      assert PartEvents(k, v, n, attempt) == [fetch];
      plain := FetchAnswered(w, w', k, e, v, attempt, plains);
    } else if attempt == PART_ATTEMPTS {
      plain := None;
      assert PartEvents(k, v, n, attempt) == [fetch];
      Unanswered(w, k, e, v, n);
    } else {
      var next := R.Step(w', fetch);
      assert Holding(w, next, k, e, v, attempt + 1, plains);
      plain := PartRun(w, next, k, e, v, attempt + 1, plains);
      assert PartEvents(k, v, n, attempt) == [fetch] + PartEvents(k, v, n, attempt + 1);
      RunParts(w', [fetch], PartEvents(k, v, n, attempt + 1));
    }
  }

  lemma Unanswered(w: World, k: nat, e: Entry, v: Visit, n: nat)
    requires AtEntry(w, k, e) && n < e.envelope.parts
    requires OpenEnvelope(w.passes[k].device, e.envelope.sender, e.envelope).Some?
    requires forall j :: 1 <= j <= PART_ATTEMPTS ==> v.net.fate(n, j) != Delivered
    ensures !Receives(w.store, e.envelope, w.passes[k].device, e.envelope.sender, v.net, v.sink)
  {
    hide PlainPart, OpenEnvelope;
    var me := w.passes[k].device;
    var o := OpenEnvelope(me, e.envelope.sender, e.envelope).value;
    assert FetchesNothing(w.store, e.envelope, o, v.net, n);
    NoPartNoFile(w.store, e.envelope, me, e.envelope.sender, v.net, v.sink, n);
  }

  lemma NoneYet(w: World, k: nat, e: Entry, v: Visit)
    requires AtEntry(w, k, e) && (w.passes[k].device, e.envelope.sender) in w.paired && v.sink.opens
    requires OpenEnvelope(w.passes[k].device, e.envelope.sender, e.envelope).Some?
    ensures Holding(w, R.OpenNext(w, k, v.acks, v.sink.opens), k, e, v, 1, [])
  {
  }

  /** As far as the parts go: all of the first n have come, or the entry was given up on. */
  lemma {:induction false} PartsRun(w: World, k: nat, e: Entry, v: Visit, n: nat) returns (plains: Option<seq<Bytes>>)
    requires AtEntry(w, k, e) && AtOnce(v, w.now) && n <= e.envelope.parts
    requires (w.passes[k].device, e.envelope.sender) in w.paired
    ensures var after := R.Run(w, FirstParts(k, v, n));
            if plains.Some? then Holding(w, after, k, e, v, 1, plains.value) && |plains.value| == n
            else GivenUp(w, after, k, e, v)
  {
    hide R.Run, Holding, GivenUp, PartEvents, Receives, Arrives;
    if n == 0 {
      RunOne(w, R.Open(k, v.acks, v.sink.opens));
      OpenRun(w, k, e, v);
      if OpenEnvelope(w.passes[k].device, e.envelope.sender, e.envelope).Some? && v.sink.opens {
        plains := Some([]);
      } else {
        plains := None;
      }
    } else {
      plains := PartsRun(w, k, e, v, n - 1);
      var before := R.Run(w, FirstParts(k, v, n - 1));
      RunParts(w, FirstParts(k, v, n - 1), PartEvents(k, v, n - 1, 1));
      if plains.Some? {
        var plain := PartRun(w, before, k, e, v, 1, plains.value);
        plains := if plain.Some? then Some(plains.value + [plain.value]) else None;
      } else {
        PartEventsOf(k, v, n - 1, 1);
        PassedIsReady(w, before, k, e, v);
        NothingToDo(before, k, PartEvents(k, v, n - 1, 1));
      }
    }
  }

  lemma OpenRun(w: World, k: nat, e: Entry, v: Visit)
    requires AtEntry(w, k, e) && (w.passes[k].device, e.envelope.sender) in w.paired
    ensures var after := R.Step(w, R.Open(k, v.acks, v.sink.opens));
            if OpenEnvelope(w.passes[k].device, e.envelope.sender, e.envelope).Some? && v.sink.opens
            then Holding(w, after, k, e, v, 1, [])
            else GivenUp(w, after, k, e, v)
  {
    hide Arrives, OpenEnvelope;
    if OpenEnvelope(w.passes[k].device, e.envelope.sender, e.envelope).Some? && v.sink.opens {
      NoneYet(w, k, e, v);
    }
  }

  lemma PassedIsReady(w: World, w': World, k: nat, e: Entry, v: Visit)
    requires AtEntry(w, k, e) && GivenUp(w, w', k, e, v)
    ensures k in w'.passes && w'.passes[k].work.Ready?
  {
  }

  /** The world after a visit, as one step. */
  ghost function Visited(w: World, k: nat, e: Entry, v: Visit): World
    requires AtEntry(w, k, e)
  {
    var me := w.passes[k].device;
    var received := e.envelope.sender in Partners(w, me)
                    && Receives(w.store, e.envelope, me, e.envelope.sender, v.net, v.sink);
    PassedBy(w, k).(
      store := CollectOne(w.store, me, Partners(w, me), e, v).0,
      saved := if received then w.saved + {(me, e.envelope.blobId, Described(e.envelope))} else w.saved)
  }

  lemma PartnersMean(w: World, me: DeviceId, peer: DeviceId)
    ensures peer in Partners(w, me) <==> (me, peer) in w.paired
  {
    if (me, peer) in w.paired {
      assert (me, peer).0 == me && (me, peer).1 == peer;
    }
  }

  lemma StrangerVisited(w: World, k: nat, e: Entry, v: Visit)
    requires AtEntry(w, k, e) && (w.passes[k].device, e.envelope.sender) !in w.paired
    ensures R.Step(w, R.Open(k, v.acks, v.sink.opens)) == Visited(w, k, e, v)
    ensures var after := Visited(w, k, e, v); k in after.passes && after.passes[k].work.Ready?
  {
    hide Receives, AckMail;
    PartnersMean(w, w.passes[k].device, e.envelope.sender);
  }

  lemma FirstPartsOf(k: nat, v: Visit, n: nat)
    ensures FirstParts(k, v, n) != [] && FirstParts(k, v, n)[0] == R.Open(k, v.acks, v.sink.opens)
    ensures forall j :: 0 < j < |FirstParts(k, v, n)| ==>
              FirstParts(k, v, n)[j].Fetch? && FirstParts(k, v, n)[j].pass == k
  {
    hide PartEvents;
    if n > 0 {
      FirstPartsOf(k, v, n - 1);
      PartEventsOf(k, v, n - 1, 1);
    }
  }

  /** All parts have come: closing the file decides, and the acknowledgement goes with it. */
  lemma ClosedAndAcked(w: World, w': World, k: nat, e: Entry, v: Visit, plains: seq<Bytes>)
    requires AtEntry(w, k, e) && Holding(w, w', k, e, v, 1, plains) && |plains| == e.envelope.parts
    ensures R.AckEntry(R.CloseFile(w', k, v.sink.closes), k, v.acks) == Visited(w, k, e, v)
  {
    hide OpenEnvelope, PlainPart, Assembled, AckMail, Fetches, Arrives, Digest.Present;
    var me := w.passes[k].device;
    var o := OpenEnvelope(me, e.envelope.sender, e.envelope).value;
    var hashes := w'.passes[k].work.hashes;
    PartnersMean(w, me, e.envelope.sender);
    OpenedMetadata(me, e.envelope.sender, e.envelope);
    DigestDecides(w.store, e.envelope, o, v.net, v.sink, plains);
    Digest.PresentMeans(hashes);
    assert Digest.Present(hashes).value == plains;
  }

  lemma OpenedMetadata(me: DeviceId, peer: DeviceId, envelope: Envelope)
    requires OpenEnvelope(me, peer, envelope).Some?
    ensures OpenEnvelope(me, peer, envelope).value.metadata == envelope.meta.metadata
  {
  }

  /**
    One entry: whatever is lost of its requests, the steps taken about it amount to one visit. A stranger's mail is
    deleted, a partner's file is saved exactly when it is received, and the entry goes exactly when it then could be
    acknowledged.
   */
  lemma {:induction false} VisitAddsUp(w: World, k: nat, e: Entry, v: Visit)
    requires AtEntry(w, k, e) && AtOnce(v, w.now)
    ensures R.Run(w, EntryEvents(k, v, e.envelope.parts)) == Visited(w, k, e, v)
  {
    hide R.Run, Holding, GivenUp, Visited, FirstParts, R.CloseFile, R.AckEntry;
    var first, last := FirstParts(k, v, e.envelope.parts), [R.Close(k, v.sink.closes), R.Ack(k, v.acks)];
    RunParts(w, first, last);
    FirstPartsOf(k, v, e.envelope.parts);
    if (w.passes[k].device, e.envelope.sender) !in w.paired {
      assert first == [first[0]] + first[1..];
      RunParts(w, [first[0]], first[1..]);
      RunOne(w, first[0]);
      StrangerVisited(w, k, e, v);
      NothingToDo(Visited(w, k, e, v), k, first[1..]);
      NothingToDo(Visited(w, k, e, v), k, last);
    } else {
      var plains := PartsRun(w, k, e, v, e.envelope.parts);
      var before := R.Run(w, first);
      if plains.Some? {
        RunTwo(before, last[0], last[1]);
        ClosedAndAcked(w, before, k, e, v, plains.value);
      } else {
        PassedIsReady(w, before, k, e, v);
        NothingToDo(before, k, last);
        GivenUpVisited(w, before, k, e, v);
      }
    }
  }

  lemma RunTwo(w: World, a: Event, b: Event)
    ensures R.Run(w, [a, b]) == R.Step(R.Step(w, a), b)
  {
    assert [a, b][..1] == [a];
    RunOne(w, a);
  }

  lemma GivenUpVisited(w: World, w': World, k: nat, e: Entry, v: Visit)
    requires AtEntry(w, k, e) && GivenUp(w, w', k, e, v)
    ensures w' == Visited(w, k, e, v)
  {
    hide Receives, AckMail;
    PartnersMean(w, w.passes[k].device, e.envelope.sender);
  }

  // ---- a whole pass ----

  function PassEvents(k: nat, entries: seq<Entry>, visits: seq<Visit>, n: nat): seq<Event>
    requires |visits| == |entries| && n <= |entries|
  {
    if n == 0 then []
    else PassEvents(k, entries, visits, n - 1) + EntryEvents(k, visits[n - 1], entries[n - 1].envelope.parts)
  }

  /** The first n entries of the listing gone through, the store as visiting them leaves it, their files saved. */
  ghost predicate Through(w: World, w': World, k: nat, visits: seq<Visit>, n: nat)
    requires k in w.passes && |visits| == |w.passes[k].rest| && n <= |visits|
  {
    var pass := w.passes[k];
    var me, entries := pass.device, pass.rest;
    && w' == w.(passes := w.passes[k := pass.(rest := entries[n..])], store := w'.store, saved := w'.saved)
    && w'.store == AtTurn(w.store, me, Partners(w, me), entries, visits, n)
    && w.saved <= w'.saved
    && forall i :: 0 <= i < n && TakenAtTurn(w.store, me, Partners(w, me), entries, visits, i) ==>
         (me, entries[i].envelope.blobId, Described(entries[i].envelope)) in w'.saved
  }

  lemma NextVisited(w: World, w': World, k: nat, visits: seq<Visit>, n: nat)
    requires k in w.passes && w.passes[k].work.Ready? && |visits| == |w.passes[k].rest| && n < |visits|
    requires Through(w, w', k, visits, n) && AtEntry(w', k, w.passes[k].rest[n])
    ensures Through(w, Visited(w', k, w.passes[k].rest[n], visits[n]), k, visits, n + 1)
  {
    hide Receives, AckMail, Described;
    var me, entries := w.passes[k].device, w.passes[k].rest;
    assert entries[..n + 1][..n] == entries[..n] && visits[..n + 1][..n] == visits[..n];
    assert entries[n..][1..] == entries[n + 1..];
    assert Partners(w', me) == Partners(w, me);
  }

  lemma {:induction false} PassSoFar(w: World, k: nat, visits: seq<Visit>, n: nat)
    requires k in w.passes && w.passes[k].work.Ready? && |visits| == |w.passes[k].rest| && n <= |visits|
    requires forall i :: 0 <= i < |visits| ==> AtOnce(visits[i], w.now)
    ensures Through(w, R.Run(w, PassEvents(k, w.passes[k].rest, visits, n)), k, visits, n)
  {
    hide R.Run, Visited, EntryEvents, TakenAtTurn;
    var entries := w.passes[k].rest;
    if n == 0 {
      assert R.Run(w, []) == w by {
        R.NoEvents(w);
      }
      assert entries[0..] == entries && w.passes[k := w.passes[k].(rest := entries)] == w.passes;
      assert entries[..0] == [] && visits[..0] == [];
    } else {
      PassSoFar(w, k, visits, n - 1);
      var before := R.Run(w, PassEvents(k, entries, visits, n - 1));
      RunParts(w, PassEvents(k, entries, visits, n - 1), EntryEvents(k, visits[n - 1], entries[n - 1].envelope.parts));
      VisitAddsUp(before, k, entries[n - 1], visits[n - 1]);
      NextVisited(w, before, k, visits, n - 1);
    }
  }

  /**
    A whole pass, its requests made at one moment and any of them lost: the steps leave the store exactly as going
    through the listing is specified to, with the file of every entry taken among those saved, and nothing left to
    visit.
   */
  lemma PassAddsUp(w: World, k: nat, visits: seq<Visit>)
    requires k in w.passes && w.passes[k].work.Ready? && |visits| == |w.passes[k].rest|
    requires forall i :: 0 <= i < |visits| ==> AtOnce(visits[i], w.now)
    ensures var pass := w.passes[k];
            var me, entries := pass.device, pass.rest;
            var w' := R.Run(w, PassEvents(k, entries, visits, |visits|));
            && w'.store == CollectAll(w.store, me, Partners(w, me), entries, visits).0
            && k in w'.passes && w'.passes[k] == R.Pass(me, [], R.Ready)
            && forall i :: 0 <= i < |entries| && TakenAtTurn(w.store, me, Partners(w, me), entries, visits, i) ==>
                 (me, entries[i].envelope.blobId, Described(entries[i].envelope)) in w'.saved
  {
    hide R.Run, TakenAtTurn, PassEvents, Described, Partners;
    PassSoFar(w, k, visits, |visits|);
    var entries := w.passes[k].rest;
    assert entries[..|visits|] == entries && visits[..|visits|] == visits;
  }

  // ---- an upload ----

  /** The requests for one part, up to the first that is answered or the last that is made. */
  function UploadEvents(t: nat, net: Network, i: nat, attempt: nat): seq<Event>
    requires 1 <= attempt <= PART_ATTEMPTS
    decreases PART_ATTEMPTS - attempt
  {
    [R.Upload(t, net.fate(i, attempt))] +
    if net.fate(i, attempt) == Delivered || attempt == PART_ATTEMPTS then [] else UploadEvents(t, net, i, attempt + 1)
  }

  function UploadsOf(t: nat, net: Network, n: nat): seq<Event> {
    if n == 0 then [] else UploadsOf(t, net, n - 1) + UploadEvents(t, net, n - 1, 1)
  }

  function SendEvents(t: nat, net: Network, parts: nat): seq<Event> {
    UploadsOf(t, net, parts) + [R.Finish(t, net.completes), R.Mail(t, net.mails), R.TakeBack(t, net.deletes)]
  }

  ghost predicate AnsweredAt(net: Network, i: nat) {
    exists attempt :: Answered(net, i, attempt)
  }

  /** The call stands before attempt a at part i, its store as it is specified to be. */
  ghost predicate AtPart(w: World, t: nat, s: Store, start: nat, i: nat, attempt: nat) {
    R.Alone(w, t, s, start) && w.now == start && w.transfers[t].phase == R.Uploading(i, attempt)
  }

  ghost predicate GivingUpAt(w: World, t: nat, s: Store, start: nat) {
    R.Alone(w, t, s, start) && w.now == start && w.transfers[t].phase == R.GivingUp
  }

  /** Every part is in. */
  ghost predicate AllIn(w: World, t: nat, s: Store, start: nat) {
    R.Alone(w, t, s, start) && w.now == start && w.transfers[t].phase == R.Completing
  }

  lemma UploadStep(w: World, t: nat, s: Store, start: nat, i: nat, attempt: nat, fate: Fate)
    requires AtPart(w, t, s, start, i, attempt) && 1 <= attempt <= PART_ATTEMPTS
    ensures var w' := R.Step(w, R.Upload(t, fate));
            && t in w'.transfers && w'.transfers[t].parcel == w.transfers[t].parcel
            && if fate == Delivered then
                 if i + 1 < Parts(w.transfers[t].parcel) then AtPart(w', t, s, start, i + 1, 1)
                 else AllIn(w', t, s, start)
               else if attempt == PART_ATTEMPTS then GivingUpAt(w', t, s, start)
               else AtPart(w', t, s, start, i, attempt + 1)
  {
    hide PutPart, SealPart, NotThere, ChunkCount, Uploaded, R.Litter, Relay.Parked, Finished;
    var p := w.transfers[t].parcel;
    R.StepAlone(w, t, R.Upload(t, fate), s, start);
    PutFirst(s, p, start, i, w.now);
    PutAgain(s, p, start, i, w.now);
  }

  lemma {:induction false} PartUploads(w: World, t: nat, s: Store, start: nat, net: Network, i: nat, attempt: nat)
    requires AtPart(w, t, s, start, i, attempt) && 1 <= attempt <= PART_ATTEMPTS
    requires forall j :: 1 <= j < attempt ==> net.fate(i, j) != Delivered
    ensures var w' := R.Run(w, UploadEvents(t, net, i, attempt));
            && t in w'.transfers && w'.transfers[t].parcel == w.transfers[t].parcel
            && if !AnsweredAt(net, i) then GivingUpAt(w', t, s, start)
               else if i + 1 < Parts(w.transfers[t].parcel) then AtPart(w', t, s, start, i + 1, 1)
               else AllIn(w', t, s, start)
    decreases PART_ATTEMPTS - attempt
  {
    hide R.Run, R.Step, R.Alone, ChunkCount;
    var upload := R.Upload(t, net.fate(i, attempt));
    UploadStep(w, t, s, start, i, attempt, net.fate(i, attempt));
    RunOne(w, upload);
    if net.fate(i, attempt) == Delivered {
      assert Answered(net, i, attempt);
      assert UploadEvents(t, net, i, attempt) == [upload];
    } else if attempt == PART_ATTEMPTS {
      assert UploadEvents(t, net, i, attempt) == [upload];
      assert !AnsweredAt(net, i);
    } else {
      assert UploadEvents(t, net, i, attempt) == [upload] + UploadEvents(t, net, i, attempt + 1);
      RunParts(w, [upload], UploadEvents(t, net, i, attempt + 1));
      PartUploads(R.Step(w, upload), t, s, start, net, i, attempt + 1);
    }
  }

  /** Once the call has given up, there is nothing left to upload. */
  lemma {:induction false} NothingToUpload(w: World, t: nat, net: Network, i: nat, attempt: nat)
    requires t in w.transfers && !w.transfers[t].phase.Uploading? && 1 <= attempt <= PART_ATTEMPTS
    ensures R.Run(w, UploadEvents(t, net, i, attempt)) == w
    decreases PART_ATTEMPTS - attempt
  {
    var upload := R.Upload(t, net.fate(i, attempt));
    RunOne(w, upload);
    if net.fate(i, attempt) == Delivered || attempt == PART_ATTEMPTS {
      assert UploadEvents(t, net, i, attempt) == [upload];
    } else {
      NothingToUpload(w, t, net, i, attempt + 1);
      RunParts(w, [upload], UploadEvents(t, net, i, attempt + 1));
      assert UploadEvents(t, net, i, attempt) == [upload] + UploadEvents(t, net, i, attempt + 1);
    }
  }

  lemma {:induction false} PartsUpload(w: World, t: nat, s: Store, start: nat, net: Network, n: nat)
    requires AtPart(w, t, s, start, 0, 1) && n <= Parts(w.transfers[t].parcel)
    ensures var w' := R.Run(w, UploadsOf(t, net, n));
            && t in w'.transfers && w'.transfers[t].parcel == w.transfers[t].parcel
            && if exists i :: 0 <= i < n && !AnsweredAt(net, i) then GivingUpAt(w', t, s, start)
               else if n < Parts(w.transfers[t].parcel) then AtPart(w', t, s, start, n, 1)
               else AllIn(w', t, s, start)
  {
    hide R.Run, R.Step, R.Alone, ChunkCount, UploadEvents, AnsweredAt;
    if n == 0 {
      R.NoEvents(w);
      SomePart(w, t, s, start);
    } else {
      PartsUpload(w, t, s, start, net, n - 1);
      var before := R.Run(w, UploadsOf(t, net, n - 1));
      RunParts(w, UploadsOf(t, net, n - 1), UploadEvents(t, net, n - 1, 1));
      if exists i :: 0 <= i < n - 1 && !AnsweredAt(net, i) {
        NothingToUpload(before, t, net, n - 1, 1);
      } else {
        PartUploads(before, t, s, start, net, n - 1, 1);
      }
    }
  }

  lemma SomePart(w: World, t: nat, s: Store, start: nat)
    requires AtPart(w, t, s, start, 0, 1)
    ensures t in w.transfers && Parts(w.transfers[t].parcel) > 0
  {
    hide ChunkCount;
  }

  /**
    An upload, its requests made at one moment and any of them lost: the steps end with the call returned, and the
    file parked as specified, if and only if each part was answered within its attempts and both control requests
    happened; otherwise with the blob taken back, unless that request was lost too.
   */
  lemma {:induction false} SendAddsUp(w: World, t: nat, from: DeviceId, to: DeviceId, source: Bytes, partSize: nat,
                                      prefix: Bytes, net: Network)
    requires t !in w.transfers && NotThere(w.store, t) && (from, to) in w.paired && partSize > 0
    requires forall i, attempt :: net.clock(i, attempt) == w.now
    requires Parts(Parcel(from, to, source, partSize, t, prefix, t)) <= MAX_PARTS
    ensures var p := Parcel(from, to, source, partSize, t, prefix, t);
            var started := R.StartSend(w, t, from, to, source, partSize, prefix);
            var w' := R.Run(started, SendEvents(t, net, Parts(p)));
            var sent := net.completes && net.mails && AllInTime(net, Parts(p), w.now + TTL);
            && t in w'.transfers
            && if sent then w'.transfers[t].phase.Returned? && w'.store == Relay.Parked(w.store, p, w.now, t)
               else w'.transfers[t].phase == R.GaveUp(net.deletes) && (net.deletes ==> w'.store == w.store)
  {
    hide R.Run, R.Alone, ChunkCount, R.StartSend, UploadsOf, NotThere, Relay.Parked;
    hide R.FinishBlob, R.MailEnvelope, R.TakeBlobBack, AnsweredAt;
    var p := Parcel(from, to, source, partSize, t, prefix, t);
    var started := R.StartSend(w, t, from, to, source, partSize, prefix);
    R.StartedAlone(w, t, from, to, source, partSize, prefix);
    StartedAtPart(w, t, from, to, source, partSize, prefix);
    PartsUpload(started, t, w.store, w.now, net, Parts(p));
    var uploads := UploadsOf(t, net, Parts(p));
    var last := [R.Finish(t, net.completes), R.Mail(t, net.mails), R.TakeBack(t, net.deletes)];
    RunParts(started, uploads, last);
    var before := R.Run(started, uploads);
    assert AllInTime(net, Parts(p), w.now + TTL) <==> forall i :: 0 <= i < Parts(p) ==> AnsweredAt(net, i) by {
      AnsweredInTime(net, Parts(p), w.now);
    }
    RunThree(before, last[0], last[1], last[2]);
    ControlSteps(before, t, w.store, w.now, net);
  }

  lemma AnsweredInTime(net: Network, n: nat, now: nat)
    requires forall i, attempt :: net.clock(i, attempt) == now
    ensures AllInTime(net, n, now + TTL) <==> forall i :: 0 <= i < n ==> AnsweredAt(net, i)
  {
    hide InTime, AnsweredAt;
    var deadline := now + TTL;
    if AllInTime(net, n, deadline) {
      forall i | 0 <= i < n
        ensures AnsweredAt(net, i)
      {
        assert InTime(net, i, deadline);
        OneInTime(net, i, now);
      }
    }
    if forall i :: 0 <= i < n ==> AnsweredAt(net, i) {
      forall i | 0 <= i < n
        ensures InTime(net, i, deadline)
      {
        assert AnsweredAt(net, i);
        OneInTime(net, i, now);
      }
    }
  }

  lemma OneInTime(net: Network, i: nat, now: nat)
    requires forall i, attempt :: net.clock(i, attempt) == now
    ensures InTime(net, i, now + TTL) <==> AnsweredAt(net, i)
  {
    if AnsweredAt(net, i) {
      var attempt :| Answered(net, i, attempt);
      assert net.clock(i, attempt) < now + TTL;
    }
  }

  lemma StartedAtPart(w: World, t: nat, from: DeviceId, to: DeviceId, source: Bytes, partSize: nat, prefix: Bytes)
    requires t !in w.transfers && NotThere(w.store, t) && (from, to) in w.paired && partSize > 0
    requires Parts(Parcel(from, to, source, partSize, t, prefix, t)) <= MAX_PARTS
    ensures var p := Parcel(from, to, source, partSize, t, prefix, t);
            var started := R.StartSend(w, t, from, to, source, partSize, prefix);
            AtPart(started, t, w.store, w.now, 0, 1) && started.transfers[t].parcel == p
  {
    hide ChunkCount, R.Alone, NotThere;
    R.StartedAlone(w, t, from, to, source, partSize, prefix);
    NeverEmpty(|source|, partSize);
  }

  lemma RunThree(w: World, a: Event, b: Event, c: Event)
    ensures R.Run(w, [a, b, c]) == R.Step(R.Step(R.Step(w, a), b), c)
  {
    assert [a, b, c][..2] == [a, b];
    RunTwo(w, a, b);
  }

  lemma ControlSteps(w: World, t: nat, s: Store, start: nat, net: Network)
    requires GivingUpAt(w, t, s, start) || AllIn(w, t, s, start)
    ensures var p := w.transfers[t].parcel;
            var w' := R.TakeBlobBack(R.MailEnvelope(R.FinishBlob(w, t, net.completes), t, net.mails), t, net.deletes);
            && t in w'.transfers && p.partSize > 0
            && if AllIn(w, t, s, start) && net.completes && net.mails
               then w'.transfers[t].phase.Returned? && w'.store == Relay.Parked(s, p, start, t)
               else w'.transfers[t].phase == R.GaveUp(net.deletes) && (net.deletes ==> w'.store == s)
  {
    hide ChunkCount, NotThere, Uploaded, Finished, Relay.Parked, R.Litter, Complete, SendMail, DeleteBlob;
    R.FinishAlone(w, t, net.completes, s, start);
    var finished := R.FinishBlob(w, t, net.completes);
    R.MailAlone(finished, t, net.mails, s, start);
    var mailed := R.MailEnvelope(finished, t, net.mails);
    R.TakeBackAlone(mailed, t, net.deletes, s, start);
    if AllIn(w, t, s, start) {
      AllComplete(w, t, s, start);
    }
  }

  lemma AllComplete(w: World, t: nat, s: Store, start: nat)
    requires AllIn(w, t, s, start)
    ensures Complete(w.store, w.transfers[t].parcel.from, t).1 == Ok
  {
    hide ChunkCount, NotThere;
  }
}
