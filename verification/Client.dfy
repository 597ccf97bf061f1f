/**
  One call of send(): the direct link first, once more if a kept link proved dead, and the sealed
  relay after that. A direct attempt is a run of the transfer engine with this call's transfer in it;
  what else happens in that run, whether a link comes up, and what becomes of the connection table
  while a call waits is up to the network.
 */
module Client {
  import opened Common
  import opened Files
  import opened Store
  import opened Relay
  import Transfer
  import TransferOutcomes
  import TransferSafety

  type LinkId = nat
  type Events = seq<TransferSafety.Event>

  datatype Prefer = Auto | DirectOnly | RelayOnly

  /** How a transfer over a link that came up ends: Broken is every rejection but a refusal. */
  datatype Verdict = Sent | Declined | Broken

  /** One direct attempt: over a kept link or a new one, whether the link came up, and the engine's run if it did. */
  datatype Attempt = Attempt(reused: bool, up: bool, run: Events, verdict: Verdict)

  /**
    The weather of one call. `signalled` is whether signaling is ready once the wait for it is over,
    `online` whether the peer is known to be; attempt k finds its link up or not, its engine having
    done `before` and going on to do `after`, and leaves the table holding whatever events put there.
   */
  datatype Weather = Weather(
    canDirect: bool,
    signalled: bool,
    online: bool,
    up: nat -> bool,
    before: nat -> Events,
    after: nat -> Events,
    leaves: nat -> Option<LinkId>)

  datatype Result = ViaDirect | ViaRelay | Rejected

  /** The file a call is about, and the id it has on whichever path carries it. */
  datatype Errand = Errand(id: Transfer.TransferId, source: Bytes, chunkSize: nat)

  function RunOf(e: Errand, w: Weather, k: nat): Events {
    w.before(k) + [TransferSafety.Start(e.id, e.source)] + w.after(k)
  }

  /**
    What became of the promise of a transfer the engine took on. Broken stands for whatever is neither resolved
    nor refused: a rejection, a promise still pending when the run ends, and an id that was in use before, for
    which the engine's own record could not tell this call's outcome from the earlier one's.
   */
  function VerdictOf(e: Errand, w: Weather, k: nat): Verdict
    requires e.chunkSize > 0
  {
    var world := TransferSafety.Run(e.chunkSize, RunOf(e, w, k));
    if !TakenOn(e, w, k) then Broken
    else if e.id in world.resolved then Sent
    else if e.id in world.declined then Declined
    else Broken
  }

  function AttemptOf(e: Errand, w: Weather, k: nat, reused: bool): Attempt
    requires e.chunkSize > 0
  {
    Attempt(reused, w.up(k), RunOf(e, w, k), VerdictOf(e, w, k))
  }

  /** The receiver closed a sink that had been handed exactly the chunks of the file. */
  ghost predicate Arrived(e: Errand, run: Events)
    requires e.chunkSize > 0
  {
    var world := TransferSafety.Run(e.chunkSize, run);
    && e.id in world.resolved && e.id in world.complete
    && |world.complete[e.id]| == ChunkCount(|e.source|, e.chunkSize)
    && TransferSafety.Handed(world.complete[e.id], e.source, e.chunkSize)
  }

  /** In this run of the engine the receiving host turned this file's offer down, and the sender took the answer. */
  ghost predicate Refused(e: Errand, run: Events)
    requires e.chunkSize > 0
  {
    TransferOutcomes.WasTurnedDown(e.chunkSize, run, e.id) && TransferOutcomes.WasRefused(e.chunkSize, run, e.id)
  }

  /** The engine took this call's transfer on: the link's engine is open, and the id was not in use. */
  predicate TakenOn(e: Errand, w: Weather, k: nat)
    requires e.chunkSize > 0
  {
    TransferSafety.CanStart(TransferSafety.Run(e.chunkSize, w.before(k)), e.id, e.source)
  }

  /** Over a link that came up for attempt k, the receiving host refused this very file. */
  ghost predicate HostRefused(e: Errand, w: Weather, k: nat)
    requires e.chunkSize > 0
  {
    w.up(k) && TakenOn(e, w, k) && Refused(e, RunOf(e, w, k))
  }

  predicate Reached(a: Attempt) {
    a.up && a.verdict == Sent
  }

  predicate TurnedDown(a: Attempt) {
    a.up && a.verdict == Declined
  }

  /**
    What the promise comes to is what became of that file and no other: sent exactly when it arrived, declined
    exactly when it was refused.
   */
  lemma VerdictMeans(e: Errand, w: Weather, k: nat)
    requires e.chunkSize > 0
    ensures VerdictOf(e, w, k) == Sent <==> TakenOn(e, w, k) && Arrived(e, RunOf(e, w, k))
    ensures VerdictOf(e, w, k) == Declined <==> TakenOn(e, w, k) && Refused(e, RunOf(e, w, k))
  {
    hide TransferSafety.Run, TransferSafety.Step, TransferSafety.Handed, ChunkCount, Refused;
    var run := RunOf(e, w, k);
    TransferSafety.ResolvedAfterComplete(e.chunkSize, run, e.id);
    TransferSafety.CompleteIsExact(e.chunkSize, run, e.id);
    TransferSafety.SettledOnce(e.chunkSize, run);
    RefusedIsDeclined(e, run);
    var before := TransferSafety.Run(e.chunkSize, w.before(k));
    if TakenOn(e, w, k) {
      Started(e, w.before(k));
      TransferSafety.SourceStays(e.chunkSize, w.before(k) + [TransferSafety.Start(e.id, e.source)], w.after(k), e.id);
    }
  }

  lemma RefusedIsDeclined(e: Errand, run: Events)
    requires e.chunkSize > 0
    ensures Refused(e, run) <==> e.id in TransferSafety.Run(e.chunkSize, run).declined
  {
    hide TransferSafety.Run, TransferOutcomes.WasTurnedDown, TransferOutcomes.WasRefused;
    TransferOutcomes.DeclinedExactly(e.chunkSize, run, e.id);
  }

  lemma Started(e: Errand, before: Events)
    requires e.chunkSize > 0 && TransferSafety.CanStart(TransferSafety.Run(e.chunkSize, before), e.id, e.source)
    ensures var world := TransferSafety.Run(e.chunkSize, before + [TransferSafety.Start(e.id, e.source)]);
            e.id in world.sources && world.sources[e.id] == e.source
  {
    hide TransferSafety.Run;
    TransferSafety.RunOneMore(e.chunkSize, before, TransferSafety.Start(e.id, e.source));
  }

  /** The file arrived over the link that came up for attempt k. */
  ghost predicate HostGot(e: Errand, w: Weather, k: nat)
    requires e.chunkSize > 0
  {
    w.up(k) && TakenOn(e, w, k) && Arrived(e, RunOf(e, w, k))
  }

  /**
    The direct attempts of one call: one, and a second if the first went over the link kept from before, got up
    and broke. The second goes over a link kept only if events put another one in the table meanwhile.
   */
  function DirectTries(e: Errand, w: Weather, kept: Option<LinkId>): (tried: seq<Attempt>)
    requires e.chunkSize > 0
    ensures 1 <= |tried| <= 2
  {
    var first := AttemptOf(e, w, 1, kept.Some?);
    if kept.Some? && first.up && first.verdict == Broken
    then [first, AttemptOf(e, w, 2, w.leaves(1).Some? && w.leaves(1) != kept)]
    else [first]
  }

  /** What the attempts so far decided, if anything: the file arrived, or the receiving host refused it. */
  ghost predicate Decided(e: Errand, w: Weather, tries: nat)
    requires e.chunkSize > 0
  {
    exists k :: 1 <= k <= tries && (HostGot(e, w, k) || HostRefused(e, w, k))
  }

  /** Only the last of the attempts can have got through or been refused. */
  lemma TriesMean(e: Errand, w: Weather, kept: Option<LinkId>)
    requires e.chunkSize > 0
    ensures var tried := DirectTries(e, w, kept);
            && (Reached(tried[|tried| - 1]) <==> exists k :: 1 <= k <= |tried| && HostGot(e, w, k))
            && (TurnedDown(tried[|tried| - 1]) <==> exists k :: 1 <= k <= |tried| && HostRefused(e, w, k))
            && (|tried| == 2 <==> kept.Some? && w.up(1) && !HostGot(e, w, 1) && !HostRefused(e, w, 1))
            && tried[0].reused == kept.Some? && (|tried| == 2 ==> tried[1].reused ==> w.leaves(1) != kept)
  {
    hide VerdictOf, RunOf, Arrived, Refused, TakenOn;
    VerdictMeans(e, w, 1);
    VerdictMeans(e, w, 2);
    var tried := DirectTries(e, w, kept);
    assert HostGot(e, w, |tried|) <==> Reached(tried[|tried| - 1]);
    assert HostRefused(e, w, |tried|) <==> TurnedDown(tried[|tried| - 1]);
  }

  /** The client's dealings with one peer: the link it keeps, and what the calls so far did. */
  class PeerLink {
    var kept: Option<LinkId>
    var nextLink: LinkId
    var attempts: seq<Attempt>
    var uploads: nat

    constructor ()
      ensures kept.None? && attempts == [] && uploads == 0
    {
      kept, nextLink, attempts, uploads := None, 0, [], 0;
    }

    /** A later link than the one expected stays. */
    method Drop(expected: Option<LinkId>)
      modifies this`kept
      ensures kept == if expected.Some? && old(kept) != expected then old(kept) else None
    {
      if expected.None? || kept == expected {
        kept := None;
      }
    }

    /** Dials, or takes the link that is kept, and sends over it. */
    method TryOnce(e: Errand, w: Weather, k: nat) returns (a: Attempt, link: LinkId)
      requires e.chunkSize > 0
      modifies this
      ensures attempts == old(attempts) + [a] && uploads == old(uploads) && kept == w.leaves(k)
      ensures a == AttemptOf(e, w, k, old(kept).Some?)
      ensures old(kept).Some? ==> link == old(kept).value
    {
      hide VerdictOf, RunOf;
      var reused := kept.Some?;
      if reused {
        link := kept.value;
      } else {
        link := nextLink;
        nextLink := nextLink + 1;
        kept := Some(link);
      }
      a := AttemptOf(e, w, k, reused);
      attempts := attempts + [a];
      kept := w.leaves(k);
    }

    /** A second attempt is made exactly when the first went over a kept link, got up, and broke. */
    method SendDirect(e: Errand, w: Weather) returns (last: Attempt)
      requires e.chunkSize > 0
      modifies this
      ensures uploads == old(uploads)
      ensures var tried := DirectTries(e, w, old(kept));
              attempts == old(attempts) + tried && last == tried[|tried| - 1] && kept == w.leaves(|tried|)
    {
      hide VerdictOf, RunOf;
      var link: LinkId;
      last, link := TryOnce(e, w, 1);
      if last.up && last.verdict == Broken && last.reused {
        Drop(Some(link));
        last, link := TryOnce(e, w, 2);
      }
    }

    /**
      The direct path is tried exactly when everything speaks for it, and the relay exactly when no direct
      attempt was made or the last one broke. A resolved call means that the receiver closed a sink on exactly
      this file, chunk by chunk, or that it is parked in full on the relay, and says which; a file the receiving
      host refused is never uploaded; two direct attempts and one upload are the most.
     */
    method Send(paired: bool, prefer: Prefer, e: Errand, w: Weather, store: MemoryStore, p: Parcel, now: nat,
                entry: EntryId, net: Network)
      returns (result: Result, ghost tried: seq<Attempt>)
      requires e.chunkSize > 0 && p.source == e.source
      requires p.partSize > 0 && NotThere(store.View(), p.blobId)
      modifies this, store
      ensures attempts == old(attempts) + tried
      ensures tried == if paired && prefer != RelayOnly && w.canDirect && w.signalled && w.online
                       then DirectTries(e, w, old(kept)) else []
      ensures |tried| == 2 <==> |tried| > 0 && old(kept).Some? && w.up(1) && !Decided(e, w, 1)
      ensures uploads == old(uploads) + (if paired && prefer != DirectOnly && !Decided(e, w, |tried|) then 1 else 0)
      ensures result == ViaDirect <==> tried != [] && Reached(tried[|tried| - 1])
      ensures result == ViaDirect <==> exists k :: 1 <= k <= |tried| && HostGot(e, w, k)
      ensures result == ViaRelay ==>
                uploads == old(uploads) + 1 && store.View() == Parked(old(store.View()), p, now, entry)
      ensures uploads == old(uploads) ==> store.View() == old(store.View())
      ensures (exists k :: 1 <= k <= |tried| && HostRefused(e, w, k)) ==> result == Rejected && uploads == old(uploads)
      ensures result == Rejected && uploads > old(uploads) ==> SameButFor(old(store.View()), store.View(), p.blobId)
      ensures uploads > old(uploads) ==>
                (result == ViaRelay <==>
                   Parts(p) <= MAX_PARTS && net.completes && net.mails && AllInTime(net, Parts(p), now + TTL))
      ensures kept == if tried == [] then old(kept) else if uploads > old(uploads) then None else w.leaves(|tried|)
    {
      hide Parked, AllInTime, SameButFor, NotThere, ChunkCount, VerdictOf, RunOf, Arrived, Refused, TakenOn;
      tried := [];
      TriesMean(e, w, kept);
      if !paired { return Rejected, []; }
      if prefer != RelayOnly && w.canDirect && w.signalled && w.online {
        var last := SendDirect(e, w);
        tried := attempts[|old(attempts)|..];
        if Reached(last) { return ViaDirect, tried; }
        if prefer == DirectOnly || TurnedDown(last) { return Rejected, tried; }
        Drop(None);
      }
      if prefer == DirectOnly { return Rejected, tried; }
      uploads := uploads + 1;
      var sent := SendViaRelay(store, p, now, entry, net);
      result := if sent then ViaRelay else Rejected;
    }
  }
}
