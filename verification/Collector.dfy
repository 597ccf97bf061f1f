/**
  Who wakes whom: the notifications a relay sends a device and the re-entrant collection loop they
  start. No envelope is left lying because nobody was told, or was told at the wrong moment.
 */
module Collector {

  type EntryId = nat

  /** The two flags of the collection loop. */
  datatype Loop = Loop(collecting: bool, again: bool)

  const IDLE := Loop(false, false)

  /** A call while a pass is under way only asks for another one; the result says whether a pass begins. */
  function Call(l: Loop): (Loop, bool) {
    if l.collecting then (l.(again := true), false) else (Loop(true, false), true)
  }

  /** A pass came to its end: once more round if something arrived meanwhile. */
  function PassOver(l: Loop): (Loop, bool) {
    if l.again then (Loop(true, false), true) else (Loop(false, false), false)
  }

  /** A pass that threw ends the loop whatever was asked, and leaves the question standing. */
  function PassThrew(l: Loop): Loop {
    l.(collecting := false)
  }

  class CollectLoop {
    var collecting: bool
    var collectAgain: bool

    function View(): Loop
      reads this
    {
      Loop(collecting, collectAgain)
    }

    constructor ()
      ensures View() == IDLE
    {
      collecting, collectAgain := false, false;
    }

    method Collect() returns (begins: bool)
      modifies this
      ensures (View(), begins) == Call(old(View()))
    {
      if collecting {
        collectAgain := true;
        return false;
      }
      collecting := true;
      collectAgain := false;
      return true;
    }

    /** Only mail that is there is worth a pass. */
    method OnMail(count: nat) returns (begins: bool)
      modifies this
      ensures (View(), begins) == if count > 0 then Call(old(View())) else (old(View()), false)
      ensures begins <==> count > 0 && !old(collecting)
    {
      begins := false;
      if count > 0 {
        begins := Collect();
      }
    }

    method EndPass() returns (begins: bool)
      modifies this
      ensures (View(), begins) == PassOver(old(View()))
    {
      begins := collectAgain;
      collectAgain := false;
      collecting := begins;
    }

    method Throw()
      modifies this
      ensures View() == PassThrew(old(View()))
    {
      collecting := false;
    }
  }

  // ---- the device, its mailbox and the notifications on their way ----

  /** Where a pass stands: about to list the mailbox, or walking what it listed. */
  datatype Walk = NoPass | Listing | Walking(rest: seq<EntryId>)

  /**
    `attached` is whether the hub counts the client's live socket as the device's; `queue` holds the
    mail counts it has sent on it, a `ready` message carrying one too. `failed` records the entries
    whose latest attempt went wrong, an attempt being a try to collect the entry or to list it.
   */
  datatype World = World(
    mailbox: set<EntryId>,
    attached: bool,
    queue: seq<nat>,
    loop: Loop,
    walk: Walk,
    failed: set<EntryId>)

  datatype Event =
    | Push(id: EntryId)
    | Attach
    | Drop
    | Deliver
    | HostCollects
    | List(order: seq<EntryId>)
    | ListFails
    | Take(acked: bool)
    | EndPass
    | Crash

  const BEGIN := World({}, false, [], IDLE, NoPass, {})

  function Collect(w: World): World {
    var c := Call(w.loop);
    w.(loop := c.0, walk := if c.1 then Listing else w.walk)
  }

  predicate Lists(order: seq<EntryId>, mailbox: set<EntryId>) {
    |order| == |mailbox| && (set id | id in order) == mailbox
  }

  function Step(w: World, e: Event): World {
    match e
    case Push(id) =>
      var mailbox := w.mailbox + {id};
      w.(mailbox := mailbox, failed := w.failed - {id}, queue := if w.attached then w.queue + [|mailbox|] else w.queue)
    case Attach => if w.attached then w else w.(attached := true, queue := [|w.mailbox|])
    case Drop => w.(attached := false, queue := [])
    case Deliver =>
      if w.queue == [] then w
      else
        var popped := w.(queue := w.queue[1..]);
        if w.queue[0] > 0 then Collect(popped) else popped
    case HostCollects => Collect(w)
    case List(order) =>
      if !w.walk.Listing? || !Lists(order, w.mailbox) then w
      else w.(walk := Walking(order), failed := {})
    case ListFails =>
      if !w.walk.Listing? then w
      else w.(walk := NoPass, loop := PassThrew(w.loop), failed := w.mailbox)
    case Take(acked) =>
      if !w.walk.Walking? || w.walk.rest == [] then w
      else
        var id, walk := w.walk.rest[0], Walking(w.walk.rest[1..]);
        if acked then w.(walk := walk, mailbox := w.mailbox - {id}) else w.(walk := walk, failed := w.failed + {id})
    case EndPass =>
      if !w.walk.Walking? || w.walk.rest != [] then w
      else w.(loop := PassOver(w.loop).0, walk := if PassOver(w.loop).1 then Listing else NoPass)
    case Crash => w.(attached := false, queue := [], loop := IDLE, walk := NoPass)
  }

  function Run(events: seq<Event>): World {
    if events == [] then BEGIN else Step(Run(events[..|events| - 1]), events[|events| - 1])
  }

  /** Somebody will still look at this entry, or its latest attempt failed. */
  predicate Looked(w: World, id: EntryId) {
    || (exists i :: 0 <= i < |w.queue| && w.queue[i] > 0)
    || w.walk.Listing?
    || (w.walk.Walking? && (w.loop.again || id in w.walk.rest))
    || id in w.failed
  }

  ghost predicate Inv(w: World) {
    && (w.loop.collecting <==> w.walk != NoPass)
    && (!w.attached ==> w.queue == [])
    && (w.attached ==> forall id :: id in w.mailbox ==> Looked(w, id))
  }

  lemma PushKeeps(w: World, id: EntryId)
    requires Inv(w)
    ensures Inv(Step(w, Push(id)))
  {
    var w' := Step(w, Push(id));
    if w.attached {
      assert id in w'.mailbox && |w'.mailbox| > 0;
      assert w'.queue[|w.queue|] > 0;
    }
  }

  lemma AttachKeeps(w: World)
    requires Inv(w)
    ensures Inv(Step(w, Attach))
  {
    var w' := Step(w, Attach);
    if !w.attached && w.mailbox != {} {
      assert |w.mailbox| > 0 && w'.queue[0] > 0;
    }
  }

  lemma DeliverKeeps(w: World)
    requires Inv(w)
    ensures Inv(Step(w, Deliver))
  {
    var w' := Step(w, Deliver);
    if w.queue != [] && w.attached {
      forall id | id in w'.mailbox
        ensures Looked(w', id)
      {
        assert Looked(w, id);
        if w.queue[0] == 0 && exists i :: 0 <= i < |w.queue| && w.queue[i] > 0 {
          var i :| 0 <= i < |w.queue| && w.queue[i] > 0;
          assert w'.queue[i - 1] > 0;
        }
      }
    }
  }

  lemma StepKeeps(w: World, e: Event)
    requires Inv(w)
    ensures Inv(Step(w, e))
  {
    match e
    case Push(id) => PushKeeps(w, id);
    case Attach => AttachKeeps(w);
    case Deliver => DeliverKeeps(w);
    case Take(acked) =>
      var w' := Step(w, e);
      forall id | w'.attached && id in w'.mailbox
        ensures Looked(w', id)
      {
        assert Looked(w, id);
      }
    case _ =>
  }

  lemma {:induction false} RunKeeps(events: seq<Event>)
    ensures Inv(Run(events))
  {
    hide Inv, Step;
    if events == [] {
      assert Inv(BEGIN) by {
        BeginFits();
      }
    } else {
      RunKeeps(events[..|events| - 1]);
      StepKeeps(Run(events[..|events| - 1]), events[|events| - 1]);
    }
  }

  lemma BeginFits()
    ensures Inv(BEGIN)
  {
  }

  /** Online, nothing on the wire, and no pass under way. */
  predicate AtRest(w: World) {
    w.attached && w.queue == [] && !w.loop.collecting
  }

  /**
    No lost wake-up: a device at rest has nothing in its mailbox but entries whose latest attempt
    failed, whatever arrived when, and however often the socket dropped or the client crashed.
   */
  lemma NoLostWakeUp(events: seq<Event>)
    ensures var w := Run(events);
            AtRest(w) ==> w.mailbox <= w.failed && (w.failed == {} ==> w.mailbox == {})
  {
    hide Run;
    RunKeeps(events);
    var w := Run(events);
    if AtRest(w) {
      forall id | id in w.mailbox
        ensures id in w.failed
      {
        assert Looked(w, id);
      }
    }
  }

  /**
    A notification makes an idle client list its mailbox if and only if it speaks of mail, and taking it never
    touches the mailbox; the hub's count of nothing costs no request.
   */
  lemma ListsExactlyWhenTold(events: seq<Event>)
    ensures var w := Run(events);
            w.queue != [] && w.walk.NoPass? ==>
              && Step(w, Deliver).walk == (if w.queue[0] > 0 then Listing else NoPass)
              && Step(w, Deliver).mailbox == w.mailbox && Step(w, Deliver).queue == w.queue[1..]
  {
    hide Run, Looked;
    RunKeeps(events);
  }

  // ---- and it comes to rest ----

  /** What is left to do: every notification may cost a pass, and so may a question asked meanwhile. */
  function Work(w: World): nat {
    var pass := |w.mailbox| + 3;
    |w.queue| * (pass + 1) + (if w.loop.collecting && w.loop.again then pass else 0)
    + match w.walk
      case NoPass => 0
      case Listing => |w.mailbox| + 2
      case Walking(rest) => |rest| + 1
  }

  predicate ClientStep(e: Event) {
    e.Deliver? || e.List? || e.Take? || e.EndPass?
  }

  lemma LessMail(mailbox: set<EntryId>, id: EntryId)
    ensures |mailbox - {id}| <= |mailbox|
  {
    if id in mailbox {
      assert |mailbox - {id}| == |mailbox| - 1;
    } else {
      assert mailbox - {id} == mailbox;
    }
  }

  lemma Product(n: nat, a: nat, b: nat)
    requires a <= b
    ensures n * a <= n * b
    ensures n > 0 ==> n * b == (n - 1) * b + b
  {
  }

  /** The client cannot go on for ever by itself: each of its steps leaves less to do. */
  lemma ClientStepsEnd(events: seq<Event>, e: Event)
    requires ClientStep(e)
    ensures var w := Run(events); Step(w, e) == w || Work(Step(w, e)) < Work(w)
  {
    hide Run;
    RunKeeps(events);
    StepLessens(Run(events), e);
  }

  lemma StepLessens(w: World, e: Event)
    requires Inv(w) && ClientStep(e)
    ensures Step(w, e) == w || Work(Step(w, e)) < Work(w)
  {
    hide Looked;
    var w' := Step(w, e);
    if e.Deliver? {
      Product(|w.queue|, |w.mailbox| + 4, |w.mailbox| + 4);
    } else if e.Take? && w' != w {
      LessMail(w.mailbox, w.walk.rest[0]);
      Product(|w.queue|, |w'.mailbox| + 4, |w.mailbox| + 4);
    }
  }

  /** And until it is at rest there is a step for it to take, unless its socket is down. */
  lemma RestOrStep(events: seq<Event>, order: seq<EntryId>)
    requires Lists(order, Run(events).mailbox)
    ensures var w := Run(events);
            w.attached && !AtRest(w) ==>
              Step(w, Deliver) != w || Step(w, List(order)) != w || Step(w, Take(true)) != w || Step(w, EndPass) != w
  {
    hide Run;
    RunKeeps(events);
    var w := Run(events);
    if w.attached && w.queue == [] && w.walk.Walking? && w.walk.rest != [] {
      assert Step(w, Take(true)).walk.rest == w.walk.rest[1..];
    }
  }
}
