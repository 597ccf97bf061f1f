/**
  What every run of the pairing exchange keeps: no deadlock, agreement on who was paired with
  whom, and no false alarm unless someone started over.
 */
module PairingSafety {
  import opened Common
  import opened Confirmation
  import opened Pairing

  // ---- what is on the way from one side to the other ----

  function AsDown(u: Up): Down {
    if u.Pair? then FromPeer(u.payload) else Other
  }

  function Relayed(up: seq<Up>): seq<Down> {
    seq(|up|, i requires 0 <= i < |up| => AsDown(up[i]))
  }

  /** Everything y will still hear from x: what the hub has sent on, then what x has sent. */
  function Wire(x: Party, y: Party): seq<Down> {
    y.down + Relayed(x.up)
  }

  predicate IsHello(d: Down) {
    d.FromPeer? && d.payload.HelloMessage?
  }

  function Says(h: Hello): Down {
    FromPeer(HelloMessage(h))
  }

  function Confirms(key: PairKey, a: Hello, b: Hello): Down {
    FromPeer(ConfirmMessage(ConfirmationTag(key, a, b)))
  }

  // ---- the invariant ----

  /** Whether the socket will be in the room once the hub has taken what was sent. */
  function RoomAfter(up: seq<Up>, inRoom: bool): bool {
    if up == [] then inRoom
    else RoomAfter(up[1..], if up[0].Join? then true else if up[0].Leave? then false else inRoom)
  }

  /** An open attempt's own bookkeeping. */
  ghost predicate Tidy(x: Party, key: PairKey) {
    && (forall h :: h in x.used ==> h.deviceId == x.id)
    && (!x.online ==> x.up == [] && x.down == [] && !x.inRoom)
    && (x.attempt.Some? ==>
          var a := x.attempt.value;
          && a.outcome.Waiting? && a.hello in x.used
          && (x.online ==> RoomAfter(x.up, x.inRoom))
          && (a.theirHello.None? ==> a.myTag.None?)
          && (a.theirHello.Some? ==>
                && a.myTag == Some(ConfirmationTag(key, a.hello, a.theirHello.value))
                && (a.hello, a.theirHello.value) in x.took))
  }

  /** x computed this tag, over a hello of its own and one it had taken as y's. */
  ghost predicate MadeBy(x: Party, key: PairKey, tag: Tag) {
    exists p :: p in x.took && tag == ConfirmationTag(key, p.0, p.1)
  }

  /** What is on the wire from x really came from x. */
  ghost predicate GenuineWire(wire: seq<Down>, x: Party, key: PairKey) {
    && (forall d :: d in wire && IsHello(d) ==> d.payload.hello in x.used)
    && (forall d :: d in wire && d.FromPeer? && d.payload.ConfirmMessage? ==> MadeBy(x, key, d.payload.tag))
  }

  /** What y holds of x's really came from x. */
  ghost predicate GenuineHeld(a: Attempt, x: Party, key: PairKey) {
    && (a.theirHello.Some? ==> a.theirHello.value in x.used)
    && (a.theirTag.Some? ==> MadeBy(x, key, a.theirTag.value))
  }

  ghost predicate Genuine(x: Party, y: Party, key: PairKey) {
    && GenuineWire(Wire(x, y), x, key)
    && (y.attempt.Some? ==> GenuineHeld(y.attempt.value, x, key))
    && (forall p :: p in x.took ==> p.0 in x.used && p.1 in y.used)
  }

  /** A stored record rests on the other side having taken this side's hello. */
  ghost predicate Agreed(x: Party, y: Party) {
    && (forall p :: p in y.stored ==> (p.1, p.0) in x.took)
    && (y.refused ==> |x.used| > 1 || |y.used| > 1)
  }

  ghost predicate Knows(y: Party, h: Hello) {
    y.attempt.Some? && y.attempt.value.theirHello == Some(h)
  }

  /** Once y has x's present hello, no older one is still to come. */
  ghost predicate NoStale(wire: seq<Down>, present: Hello, known: bool) {
    && (known ==> forall i :: 0 <= i < |wire| && IsHello(wire[i]) ==> wire[i] == Says(present))
    && (forall i, j :: 0 <= i < j < |wire| && wire[i] == Says(present) && IsHello(wire[j]) ==> wire[j] == Says(present))
  }

  ghost predicate Fresher(x: Party, y: Party) {
    x.attempt.Some? ==> NoStale(Wire(x, y), x.attempt.value.hello, Knows(y, x.attempt.value.hello))
  }

  /** The attempt is open and, as far as anything in flight goes, its socket stays in the room. */
  predicate Live(x: Party) {
    x.attempt.Some? && x.online && Join !in x.up
  }

  /** y has x's hello, or it is on the way, or x is about to send it. */
  ghost predicate HelloDue(known: bool, wire: seq<Down>, told: bool, hx: Hello) {
    known || Says(hx) in wire || told
  }

  /** y's hello is at position j of what x will hear, and x's own hello gets to y before the answer. */
  ghost predicate AsksAt(known: bool, wire: seq<Down>, back: seq<Down>, hx: Hello, hy: Hello, j: int) {
    && 0 <= j < |back| && back[j] == Says(hy)
    && (known || Says(hx) in wire || Joined(2) in back[..j])
  }

  /** The right confirmation is at position p of what y will hear, with x's hello known or ahead of it. */
  ghost predicate AnswersAt(known: bool, wire: seq<Down>, hx: Hello, answer: Down, p: int) {
    && 0 <= p < |wire| && wire[p] == answer
    && (known || Says(hx) in wire[..p])
  }

  /** y's confirmation is on the way, or y's request for it is, or y is about to ask. */
  ghost predicate ConfirmDue(known: bool, wire: seq<Down>, back: seq<Down>, asking: bool, hx: Hello, hy: Hello,
                             answer: Down) {
    || asking
    || (exists j :: AsksAt(known, wire, back, hx, hy, j))
    || (exists p :: AnswersAt(known, wire, hx, answer, p))
  }

  /** The hub has told x that the room is full, and x has yet to hear it. */
  predicate Told(x: Party) {
    Joined(2) in x.down
  }

  ghost predicate Progress(x: Party, y: Party, key: PairKey) {
    Live(x) && Live(y) ==>
      var hx, hy := x.attempt.value.hello, y.attempt.value.hello;
      && HelloDue(Knows(y, hx), Wire(x, y), Told(x), hx)
      && ConfirmDue(Knows(y, hx), Wire(x, y), Wire(y, x), Told(y), hx, hy, Confirms(key, hx, hy))
  }

  ghost predicate Safe(x: Party, y: Party, key: PairKey) {
    && Tidy(x, key) && Tidy(y, key)
    && Genuine(x, y, key) && Genuine(y, x, key)
    && Agreed(x, y) && Agreed(y, x)
    && Fresher(x, y) && Fresher(y, x)
    && x.id != y.id
  }

  ghost predicate Inv(x: Party, y: Party, key: PairKey) {
    Safe(x, y, key) && Progress(x, y, key) && Progress(y, x, key)
  }

  // ---- small facts about sequences in flight ----

  lemma RelayedAppend(a: seq<Up>, b: seq<Up>)
    ensures Relayed(a + b) == Relayed(a) + Relayed(b)
  {
  }

  /** What x sends next goes to the end of the wire. */
  lemma WireSend(x: Party, y: Party, sends: seq<Up>, x': Party)
    requires x'.up == x.up + sends
    ensures Wire(x', y) == Wire(x, y) + Relayed(sends)
  {
    RelayedAppend(x.up, sends);
  }

  /** Taking the next message takes the front of the wire. */
  lemma WireTake(x: Party, y: Party, y': Party)
    requires y.down != [] && y'.down == y.down[1..]
    ensures Wire(x, y) == [y.down[0]] + Wire(x, y') && Wire(x, y') == Wire(x, y)[1..]
  {
  }

  /** The hub passing a message on changes nothing on the wire. */
  lemma WireRelay(x: Party, y: Party, x': Party, y': Party)
    requires x.up != [] && x'.up == x.up[1..] && y'.down == y.down + [AsDown(x.up[0])]
    ensures Wire(x', y') == Wire(x, y)
  {
    assert Relayed(x.up) == [AsDown(x.up[0])] + Relayed(x.up[1..]);
  }

  /** A wire whose hellos all come from another, in the same order, is no staler. */
  lemma NoStaleThinner(wire: seq<Down>, thinner: seq<Down>, f: int -> int, present: Hello, known: bool)
    requires NoStale(wire, present, known)
    requires forall i :: 0 <= i < |thinner| && IsHello(thinner[i]) ==> 0 <= f(i) < |wire| && wire[f(i)] == thinner[i]
    requires forall i, j :: 0 <= i < j < |thinner| && IsHello(thinner[i]) && IsHello(thinner[j]) ==> f(i) < f(j)
    ensures NoStale(thinner, present, known)
  {
  }

  lemma RoomAfterAppend(up: seq<Up>, inRoom: bool, u: Up)
    ensures RoomAfter(up + [u], inRoom) ==
            if u.Join? then true else if u.Leave? then false else RoomAfter(up, inRoom)
  {
    if up != [] {
      assert (up + [u])[1..] == up[1..] + [u];
    }
  }

  lemma RoomAfterPairs(up: seq<Up>, inRoom: bool, pairs: seq<Up>)
    requires forall u :: u in pairs ==> u.Pair?
    ensures RoomAfter(up + pairs, inRoom) == RoomAfter(up, inRoom)
  {
    if pairs == [] {
      assert up + pairs == up;
    } else {
      var front, last := pairs[..|pairs| - 1], pairs[|pairs| - 1];
      assert up + pairs == (up + front) + [last];
      assert last in pairs;
      RoomAfterPairs(up, inRoom, front);
      RoomAfterAppend(up + front, inRoom, last);
    }
  }

  /** With no join in flight, staying in the room means being there with no leave in flight either. */
  lemma {:induction false} SettledInRoom(up: seq<Up>, inRoom: bool)
    requires RoomAfter(up, inRoom) && Join !in up
    ensures inRoom && Leave !in up
  {
    if up != [] {
      assert up == [up[0]] + up[1..];
      if up[0].Leave? {
        NeverBack(up[1..]);
      } else {
        SettledInRoom(up[1..], inRoom);
      }
    }
  }

  lemma NeverBack(up: seq<Up>)
    requires Join !in up
    ensures !RoomAfter(up, false)
  {
    if up != [] {
      assert up == [up[0]] + up[1..];
      NeverBack(up[1..]);
    }
  }

  lemma LiveInRoom(x: Party, key: PairKey)
    requires Tidy(x, key) && Live(x)
    ensures x.inRoom && Leave !in x.up
  {
    SettledInRoom(x.up, x.inRoom);
  }

  // ---- every event keeps the invariant: starting, giving up, losing and regaining the socket ----

  ghost predicate SameButSockets(x: Party, x': Party) {
    && x'.id == x.id && x'.attempt == x.attempt && x'.used == x.used && x'.took == x.took
    && x'.stored == x.stored && x'.refused == x.refused
  }

  /** Losing messages, or mixing in some that no attempt heeds, keeps what is on the way genuine and fresh. */
  lemma Thinner(x: Party, y: Party, x': Party, y': Party, key: PairKey, f: int -> int)
    requires Genuine(x, y, key) && Fresher(x, y) && Agreed(x, y)
    requires SameButSockets(x, x') && SameButSockets(y, y')
    requires forall i :: 0 <= i < |Wire(x', y')| && Wire(x', y')[i].FromPeer? ==>
               0 <= f(i) < |Wire(x, y)| && Wire(x, y)[f(i)] == Wire(x', y')[i]
    requires forall i, j :: 0 <= i < j < |Wire(x', y')| && Wire(x', y')[i].FromPeer? && Wire(x', y')[j].FromPeer? ==>
               f(i) < f(j)
    ensures Genuine(x', y', key) && Fresher(x', y') && Agreed(x', y')
  {
    var w, w' := Wire(x, y), Wire(x', y');
    forall d | d in w' && d.FromPeer?
      ensures d in w
    {
      var i :| 0 <= i < |w'| && w'[i] == d;
      assert w[f(i)] == d;
    }
    if x.attempt.Some? {
      var h := x.attempt.value.hello;
      NoStaleThinner(w, w', f, h, Knows(y, h));
    }
  }

  lemma SameWire(x: Party, y: Party, x': Party, y': Party, key: PairKey)
    requires Genuine(x, y, key) && Fresher(x, y) && Agreed(x, y)
    requires SameButSockets(x, x') && SameButSockets(y, y') && Wire(x', y') == Wire(x, y)
    ensures Genuine(x', y', key) && Fresher(x', y') && Agreed(x', y')
  {
  }

  lemma GrownSets(s: set<Hello>, h: Hello)
    requires h !in s
    ensures |s + {h}| == |s| + 1
  {
  }

  /** A join or a leave at the end of the wire is nothing the other attempt hears. */
  lemma {:induction false} QuietlyLonger(x: Party, y: Party, wire: seq<Down>, key: PairKey, known: bool, h: Hello)
    requires GenuineWire(wire, x, key)
    ensures GenuineWire(wire + [Other], x, key)
    ensures NoStale(wire, h, known) ==> NoStale(wire + [Other], h, known)
  {
  }

  lemma IdleInv(x: Party, y: Party, key: PairKey)
    requires Safe(x, y, key) && !Live(x)
    ensures Inv(x, y, key)
  {
  }

  lemma {:induction false} BeginSafe(x: Party, y: Party, key: PairKey, hello: Hello, x': Party)
    requires Safe(x, y, key) && CanBegin(x, hello)
    requires x' == x.(attempt := Some(NewAttempt(hello)), used := x.used + {hello},
                      up := if x.online then x.up + [Join] else x.up)
    ensures Safe(x', y, key)
  {
    hide ConfirmationTag;
    var w := Wire(x, y);
    GrownSets(x.used, hello);
    RoomAfterAppend(x.up, x.inRoom, Join);
    if x.online {
      WireSend(x, y, [Join], x');
      assert Wire(x', y) == w + [Other];
    }
    QuietlyLonger(x, y, w, key, false, hello);
    assert GenuineWire(w, x', key) by {
      assert forall t :: MadeBy(x', key, t) <==> MadeBy(x, key, t);
    }
    QuietlyLonger(x', y, w, key, false, hello);
    assert Genuine(x', y, key);
    assert Wire(y, x') == Wire(y, x);
    assert Genuine(y, x', key);
    assert !Knows(y, hello) && NoStale(w, hello, false);
    assert Fresher(x', y) && Fresher(y, x');
    assert Agreed(x', y) && Agreed(y, x');
    assert Tidy(x', key);
  }

  lemma {:induction false} BeginKeeps(x: Party, y: Party, key: PairKey, hello: Hello)
    requires Inv(x, y, key) && CanBegin(x, hello)
    ensures Inv(Step(x, y, key, Begin(hello)).0, y, key)
  {
    var x' := Step(x, y, key, Begin(hello)).0;
    BeginSafe(x, y, key, hello, x');
    if x.online {
      assert x'.up[|x.up|] == Join;
    }
    IdleInv(x', y, key);
  }

  lemma AbandonSafe(x: Party, y: Party, key: PairKey, x': Party)
    requires Safe(x, y, key) && x.attempt.Some?
    requires x' == x.(attempt := None, up := if x.online then x.up + [Leave] else x.up)
    ensures Safe(x', y, key)
  {
    var w, h := Wire(x, y), x.attempt.value.hello;
    if x.online {
      WireSend(x, y, [Leave], x');
      assert Wire(x', y) == w + [Other];
    }
    QuietlyLonger(x, y, w, key, false, h);
    assert Genuine(x', y, key);
    assert Wire(y, x') == Wire(y, x);
    assert Genuine(y, x', key);
    assert Fresher(x', y) && Fresher(y, x');
  }

  lemma AbandonKeeps(x: Party, y: Party, key: PairKey)
    requires Inv(x, y, key) && x.attempt.Some?
    ensures Inv(Step(x, y, key, Abandon).0, y, key)
  {
    hide ConfirmationTag;
    var x' := Step(x, y, key, Abandon).0;
    if x.attempt.value.theirHello.Some? {
      assert x.took + {(x.attempt.value.hello, x.attempt.value.theirHello.value)} == x.took;
    }
    AbandonSafe(x, y, key, x');
    IdleInv(x', y, key);
  }

  /** A message that no attempt heeds got between the others. */
  lemma Mixed(x: Party, y: Party, x': Party, y': Party, key: PairKey, k: nat, d: Down)
    requires Genuine(x, y, key) && Fresher(x, y) && Agreed(x, y)
    requires SameButSockets(x, x') && SameButSockets(y, y')
    requires k <= |Wire(x, y)| && !d.FromPeer? && Wire(x', y') == Wire(x, y)[..k] + [d] + Wire(x, y)[k..]
    ensures Genuine(x', y', key) && Fresher(x', y') && Agreed(x', y')
  {
    Thinner(x, y, x', y', key, i => if i < k then i else i - 1);
  }

  /** One message was lost. */
  lemma {:induction false} Lost(x: Party, y: Party, x': Party, y': Party, key: PairKey, k: nat)
    requires Genuine(x, y, key) && Fresher(x, y) && Agreed(x, y)
    requires SameButSockets(x, x') && SameButSockets(y, y')
    requires k < |Wire(x, y)| && Wire(x', y') == Wire(x, y)[..k] + Wire(x, y)[k + 1..]
    ensures Genuine(x', y', key) && Fresher(x', y') && Agreed(x', y')
  {
    Thinner(x, y, x', y', key, i => if i < k then i else i + 1);
  }

  /** Everything the hub had yet to send on was lost. */
  lemma {:induction false} DownLost(x: Party, y: Party, x': Party, y': Party, key: PairKey)
    requires Genuine(x, y, key) && Fresher(x, y) && Agreed(x, y)
    requires SameButSockets(x, x') && SameButSockets(y, y')
    requires Wire(x', y') == y.down || Wire(x', y') == Relayed(x.up)
    ensures Genuine(x', y', key) && Fresher(x', y') && Agreed(x', y')
  {
    var back := if Wire(x', y') == y.down then 0 else |y.down|;
    Thinner(x, y, x', y', key, i => i + back);
  }

  lemma {:induction false} DropKeeps(x: Party, y: Party, key: PairKey)
    requires Inv(x, y, key)
    ensures Inv(Step(x, y, key, Drop).0, y, key)
  {
    var x' := Step(x, y, key, Drop).0;
    assert Wire(x', y) == y.down && Wire(y, x') == Relayed(y.up);
    DownLost(x, y, x', y, key);
    DownLost(y, x, y, x', key);
    assert Tidy(x', key) && !Live(x');
  }

  lemma ReconnectKeeps(x: Party, y: Party, key: PairKey)
    requires Inv(x, y, key) && !x.online
    ensures Inv(Step(x, y, key, Reconnect).0, y, key)
  {
    hide ConfirmationTag;
    var x' := Step(x, y, key, Reconnect).0;
    assert Wire(x, y) == y.down && Wire(y, x') == Wire(y, x);
    SameWire(y, x, y, x', key);
    if x.attempt.Some? {
      RoomAfterAppend([], false, Join);
      assert [] + [Join] == [Join];
      assert Wire(x', y) == Wire(x, y) + [Other];
      assert Wire(x, y)[..|y.down|] + [Other] + Wire(x, y)[|y.down|..] == Wire(x', y);
      Mixed(x, y, x', y, key, |y.down|, Other);
      assert x'.up[0] == Join;
    } else {
      assert Wire(x', y) == Wire(x, y);
      SameWire(x, y, x', y, key);
    }
    assert Tidy(x', key) && !Live(x');
    IdleInv(x', y, key);
  }

  // ---- the hub takes a message ----

  /** Taking x's next message off its socket takes one place out of the wire. */
  lemma WirePop(x: Party, y: Party)
    requires x.up != []
    ensures var w := Wire(x, y);
            && w[|y.down|] == AsDown(x.up[0])
            && w == y.down + [AsDown(x.up[0])] + Relayed(x.up[1..])
            && y.down + Relayed(x.up[1..]) == w[..|y.down|] + w[|y.down| + 1..]
  {
    assert Relayed(x.up) == [AsDown(x.up[0])] + Relayed(x.up[1..]);
  }

  lemma {:induction false} HubLeaveKeeps(x: Party, y: Party, key: PairKey)
    requires Inv(x, y, key) && x.up != [] && x.up[0].Leave?
    ensures Inv(HubStep(x, y).0, HubStep(x, y).1, key)
  {
    var x' := HubStep(x, y).0;
    WirePop(x, y);
    Lost(x, y, x', y, key, |y.down|);
    assert Wire(y, x') == Wire(y, x);
    if Live(x') {
      assert x.up == [x.up[0]] + x'.up;
      LiveInRoom(x', key);
    }
  }

  /** Relayed: the message moves from one queue to the next, and nothing else changes. */
  lemma {:induction false} HubRelayKeeps(x: Party, y: Party, key: PairKey)
    requires Inv(x, y, key) && x.up != [] && x.up[0].Pair? && x.inRoom && y.inRoom
    ensures Inv(HubStep(x, y).0, HubStep(x, y).1, key)
  {
    hide ConfirmationTag;
    var (x', y') := HubStep(x, y);
    WireRelay(x, y, x', y');
    assert Wire(y', x') == Wire(y, x);
    SameWire(x, y, x', y', key);
    SameWire(y, x, y', x', key);
    assert x.up == [x.up[0]] + x'.up;
    assert Told(y') == Told(y) && Live(x') == Live(x);
    assert Safe(x', y', key);
    assert Progress(x', y', key);
    assert Progress(y', x', key);
  }

  /** Not relayed: one of the two is not in the room, so it is not live. */
  lemma {:induction false} HubRefuseKeeps(x: Party, y: Party, key: PairKey)
    requires Inv(x, y, key) && x.up != [] && x.up[0].Pair? && !(x.inRoom && y.inRoom)
    ensures Inv(HubStep(x, y).0, HubStep(x, y).1, key)
  {
    var (x', y') := HubStep(x, y);
    WirePop(x, y);
    assert y' == y && Wire(x', y') == y.down + Relayed(x.up[1..]);
    Lost(x, y, x', y', key, |y.down|);
    if x.inRoom {
      assert Wire(y', x') == Wire(y, x);
      SameWire(y, x, y', x', key);
    } else {
      assert Wire(y', x') == x.down + [Other] + Relayed(y.up);
      Mixed(y, x, y', x', key, |x.down|, Other);
    }
    NotBothLive(x, y, x', y', key);
  }

  lemma NotBothLive(x: Party, y: Party, x': Party, y': Party, key: PairKey)
    requires Tidy(x, key) && Tidy(y, key) && !(x.inRoom && y.inRoom) && x.up != [] && x.up[0].Pair?
    requires x'.attempt == x.attempt && x'.online == x.online && x'.up == x.up[1..] && y' == y
    ensures !(Live(x') && Live(y'))
  {
    assert x.up == [x.up[0]] + x'.up;
    if Live(x') && Live(y') {
      LiveInRoom(x, key);
      LiveInRoom(y, key);
      assert false;
    }
  }

  /** A join that finds the other side in the room tells both; both directions start from there. */
  lemma {:induction false} HubJoinKeeps(x: Party, y: Party, key: PairKey)
    requires Inv(x, y, key) && x.up != [] && x.up[0].Join? && y.inRoom
    ensures Inv(HubStep(x, y).0, HubStep(x, y).1, key)
  {
    var (x', y') := HubStep(x, y);
    WirePop(x, y);
    assert x'.down[|x.down|] == Joined(2) && y'.down[|y.down|] == Joined(2);
    assert Wire(y', x') == x.down + [Joined(2)] + Relayed(y.up);
    Mixed(y, x, y', x', key, |x.down|, Joined(2));
    assert Wire(x', y') == y.down + [Joined(2)] + Relayed(x.up[1..]);
    Thinner(x, y, x', y', key, i => i);
    assert Told(x') && Told(y');
    assert Safe(x', y', key);
  }

  lemma {:induction false} HubJoinAloneKeeps(x: Party, y: Party, key: PairKey)
    requires Inv(x, y, key) && x.up != [] && x.up[0].Join? && !y.inRoom
    ensures Inv(HubStep(x, y).0, HubStep(x, y).1, key)
  {
    var (x', y') := HubStep(x, y);
    WirePop(x, y);
    assert Wire(y', x') == x.down + [Joined(1)] + Relayed(y.up);
    Mixed(y, x, y', x', key, |x.down|, Joined(1));
    assert Wire(x', y') == y.down + Relayed(x.up[1..]);
    Lost(x, y, x', y', key, |y.down|);
    if Live(y') {
      LiveInRoom(y, key);
    }
    assert Safe(x', y', key);
  }

  // ---- the client takes a message: what taking d and then sending `add` does to what is due ----

  lemma HelloStillDueOut(known: bool, wire: seq<Down>, xDown: seq<Down>, hx: Hello, add: seq<Down>)
    requires xDown != [] && HelloDue(known, wire, Joined(2) in xDown, hx)
    requires xDown[0] == Joined(2) ==> Says(hx) in add
    ensures HelloDue(known, wire + add, Joined(2) in xDown[1..], hx)
  {
    assert xDown == [xDown[0]] + xDown[1..];
  }

  lemma HelloStillDueIn(known: bool, known': bool, back: seq<Down>, told: bool, hy: Hello)
    requires back != [] && HelloDue(known, back, told, hy)
    requires known || back[0] == Says(hy) ==> known'
    ensures HelloDue(known', back[1..], told, hy)
  {
    assert back == [back[0]] + back[1..];
  }

  /** x answers a request it takes, and says hello when it takes the news of a full room. */
  lemma ConfirmStillDueOut(known: bool, wire: seq<Down>, back: seq<Down>, asking: bool,
                           hx: Hello, hy: Hello, answer: Down, add: seq<Down>)
    requires back != [] && ConfirmDue(known, wire, back, asking, hx, hy, answer)
    requires back[0] == Joined(2) ==> Says(hx) in add
    requires back[0] == Says(hy) ==> answer in add
    ensures ConfirmDue(known, wire + add, back[1..], asking, hx, hy, answer)
  {
    if !asking {
      if p :| AnswersAt(known, wire, hx, answer, p) {
        assert (wire + add)[..p] == wire[..p];
        assert AnswersAt(known, wire + add, hx, answer, p);
      } else {
        var j :| AsksAt(known, wire, back, hx, hy, j);
        if j > 0 {
          assert back[..j] == [back[0]] + back[1..][..j - 1];
          assert AsksAt(known, wire + add, back[1..], hx, hy, j - 1);
        } else {
          var q :| 0 <= q < |add| && add[q] == answer;
          assert (wire + add)[..|wire| + q] == wire + add[..q];
          assert AnswersAt(known, wire + add, hx, answer, |wire| + q);
        }
      }
    }
  }

  /** What x itself is waiting for: it asks when told, and settles when the answer is in its hands. */
  lemma ConfirmStillDueIn(known: bool, known': bool, xDown: seq<Down>, back: seq<Down>, wire: seq<Down>,
                          yTold: bool, hy: Hello, hx: Hello, answer: Down, add: seq<Down>)
    requires xDown != [] && xDown <= back && (yTold ==> Joined(2) in wire)
    requires ConfirmDue(known, back, wire, Joined(2) in xDown, hy, hx, answer)
    requires HelloDue(known, back, yTold, hy)
    requires xDown[0] == Joined(2) ==> Says(hx) in add
    requires known || xDown[0] == Says(hy) ==> known'
    requires !(known && xDown[0] == answer)
    ensures ConfirmDue(known', back[1..], wire + add, Joined(2) in xDown[1..], hy, hx, answer)
  {
    assert xDown == [xDown[0]] + xDown[1..] && back == [xDown[0]] + back[1..];
    if Joined(2) in xDown {
      if xDown[0] == Joined(2) {
        var q :| 0 <= q < |add| && add[q] == Says(hx);
        assert (wire + add)[..|wire| + q] == wire + add[..q];
        HelloStillDueIn(known, known', back, yTold, hy);
        assert AsksAt(known', back[1..], wire + add, hy, hx, |wire| + q);
      }
    } else if j :| AsksAt(known, back, wire, hy, hx, j) {
      assert (wire + add)[..j] == wire[..j];
      assert AsksAt(known', back[1..], wire + add, hy, hx, j);
    } else {
      var p :| AnswersAt(known, back, hy, answer, p);
      assert p > 0;
      assert back[..p] == [back[0]] + back[1..][..p - 1];
      assert AnswersAt(known', back[1..], hy, answer, p - 1);
    }
  }

  /** x took the next message and sent some; its attempt and its records changed, nothing else did. */
  ghost predicate Took(x: Party, x': Party, sends: seq<Up>) {
    && x.down != [] && x.attempt.Some?
    && x'.id == x.id && x'.online == x.online && x'.inRoom == x.inRoom && x'.used == x.used
    && x'.up == x.up + sends && x'.down == x.down[1..]
    && Join !in sends && x.took <= x'.took
    && (x'.attempt.Some? ==>
          && x'.attempt.value.hello == x.attempt.value.hello
          && forall u :: u in sends ==> u.Pair?)
  }

  lemma ProgressTaken(x: Party, y: Party, key: PairKey, x': Party, sends: seq<Up>)
    requires Inv(x, y, key) && Took(x, x', sends)
    requires Live(x') && Live(y)
    requires x.down[0] == Joined(2) ==> Says(x.attempt.value.hello) in Relayed(sends)
    requires x.down[0] == Says(y.attempt.value.hello) ==>
               Confirms(key, x.attempt.value.hello, y.attempt.value.hello) in Relayed(sends)
    requires Knows(x, y.attempt.value.hello) || x.down[0] == Says(y.attempt.value.hello) ==>
               Knows(x', y.attempt.value.hello)
    requires !(Knows(x, y.attempt.value.hello) &&
               x.down[0] == Confirms(key, y.attempt.value.hello, x.attempt.value.hello))
    ensures Progress(x', y, key) && Progress(y, x', key)
  {
    hide ConfirmationTag;
    var hx, hy := x.attempt.value.hello, y.attempt.value.hello;
    var add := Relayed(sends);
    WireSend(x, y, sends, x');
    WireTake(y, x, x');
    assert Live(x) by {
      assert forall u :: u in x.up ==> u in x'.up;
    }
    HelloStillDueOut(Knows(y, hx), Wire(x, y), x.down, hx, add);
    ConfirmStillDueOut(Knows(y, hx), Wire(x, y), Wire(y, x), Told(y), hx, hy, Confirms(key, hx, hy), add);
    HelloStillDueIn(Knows(x, hy), Knows(x', hy), Wire(y, x), Told(y), hy);
    ConfirmStillDueIn(Knows(x, hy), Knows(x', hy), x.down, Wire(y, x), Wire(x, y), Told(y), hy, hx,
                      Confirms(key, hy, hx), add);
  }

  /** What a reaction may send and keep, for the invariant's safety part to survive it. */
  lemma {:induction false} SafeTaken(x: Party, y: Party, key: PairKey, x': Party, sends: seq<Up>)
    requires Safe(x, y, key) && Took(x, x', sends)
    requires Tidy(x', key) && Agreed(y, x') && x'.stored >= x.stored
    requires forall p :: p in x'.took ==> p.0 in x.used && p.1 in y.used
    requires forall u :: u in sends && u.Pair? && u.payload.HelloMessage? ==> u.payload.hello == x.attempt.value.hello
    requires forall u :: u in sends && u.Pair? && u.payload.ConfirmMessage? ==> MadeBy(x', key, u.payload.tag)
    requires x'.attempt.Some? ==> GenuineHeld(x'.attempt.value, y, key)
    requires y.attempt.Some? && Knows(x', y.attempt.value.hello) ==>
               Knows(x, y.attempt.value.hello) || x.down[0] == Says(y.attempt.value.hello)
    ensures Safe(x', y, key)
  {
    hide ConfirmationTag;
    WireSend(x, y, sends, x');
    WireTake(y, x, x');
    GenuineAfterSends(x, y, key, x', sends);
    FresherAfterSends(x, y, x', sends);
    if y.attempt.Some? {
      var hy := y.attempt.value.hello;
      assert NoStale(Wire(y, x), hy, Knows(x, hy));
      assert Wire(y, x)[0] == x.down[0];
      assert forall i :: 0 <= i < |Wire(y, x')| ==> Wire(y, x')[i] == Wire(y, x)[i + 1];
    }
    assert Fresher(y, x');
    assert forall d :: d in Wire(y, x') ==> d in Wire(y, x);
    assert Genuine(y, x', key);
    assert Agreed(x', y);
  }

  lemma MadeByMore(x: Party, x': Party, key: PairKey, tag: Tag)
    requires x.took <= x'.took && MadeBy(x, key, tag)
    ensures MadeBy(x', key, tag)
  {
  }

  lemma GenuineAfterSends(x: Party, y: Party, key: PairKey, x': Party, sends: seq<Up>)
    requires Safe(x, y, key) && Took(x, x', sends)
    requires forall p :: p in x'.took ==> p.0 in x.used && p.1 in y.used
    requires forall u :: u in sends && u.Pair? && u.payload.HelloMessage? ==> u.payload.hello == x.attempt.value.hello
    requires forall u :: u in sends && u.Pair? && u.payload.ConfirmMessage? ==> MadeBy(x', key, u.payload.tag)
    ensures Genuine(x', y, key)
  {
    hide ConfirmationTag;
    WireSend(x, y, sends, x');
    forall d | d in Wire(x', y) && d.FromPeer?
      ensures IsHello(d) ==> d.payload.hello in x'.used
      ensures d.payload.ConfirmMessage? ==> MadeBy(x', key, d.payload.tag)
    {
      if d in Wire(x, y) {
        if d.payload.ConfirmMessage? {
          MadeByMore(x, x', key, d.payload.tag);
        }
      } else {
        assert d in Relayed(sends);
        var i :| 0 <= i < |sends| && Relayed(sends)[i] == d;
        assert sends[i] in sends;
      }
    }
    if y.attempt.Some? && y.attempt.value.theirTag.Some? {
      MadeByMore(x, x', key, y.attempt.value.theirTag.value);
    }
  }

  lemma FresherAfterSends(x: Party, y: Party, x': Party, sends: seq<Up>)
    requires Fresher(x, y) && Took(x, x', sends)
    requires forall u :: u in sends && u.Pair? && u.payload.HelloMessage? ==> u.payload.hello == x.attempt.value.hello
    ensures Fresher(x', y)
  {
    hide ConfirmationTag;
    if x'.attempt.Some? {
      WireSend(x, y, sends, x');
      var hx, w, add := x.attempt.value.hello, Wire(x, y), Relayed(sends);
      forall i | |w| <= i < |w + add| && IsHello((w + add)[i])
        ensures (w + add)[i] == Says(hx)
      {
        assert sends[i - |w|] in sends;
      }
      assert NoStale(w, hx, Knows(y, hx));
    }
  }

  // ---- the handlers, one by one ----

  lemma NoAttemptKeeps(x: Party, y: Party, key: PairKey)
    requires Inv(x, y, key) && x.down != [] && x.attempt.None?
    ensures Inv(ClientStep(x, key), y, key)
  {
    var x' := ClientStep(x, key);
    WireTake(y, x, x');
    assert Wire(y, x)[..0] + Wire(y, x)[1..] == Wire(y, x');
    Lost(y, x, y, x', key, 0);
    assert Wire(x', y) == Wire(x, y);
    SameWire(x, y, x', y, key);
    assert Tidy(x', key) && !Live(x');
  }

  /** The message changes nothing in the attempt and nothing is sent. */
  lemma UnheededKeeps(x: Party, y: Party, key: PairKey)
    requires Inv(x, y, key) && x.down != [] && x.attempt.Some?
    requires !x.down[0].FromPeer? && x.down[0] != Joined(2)
    requires ClientStep(x, key) == x.(down := x.down[1..])
    ensures Inv(ClientStep(x, key), y, key)
  {
    var x' := ClientStep(x, key);
    assert x.up + [] == x.up;
    SafeTaken(x, y, key, x', []);
    if Live(x') && Live(y) {
      ProgressTaken(x, y, key, x', []);
    }
  }

  lemma SendingPairs(x: Party, sends: seq<Up>)
    requires forall u :: u in sends ==> u.Pair?
    ensures RoomAfter(x.up + sends, x.inRoom) == RoomAfter(x.up, x.inRoom)
    ensures Join !in sends
  {
    RoomAfterPairs(x.up, x.inRoom, sends);
  }

  lemma JoinedKeeps(x: Party, y: Party, key: PairKey)
    requires Inv(x, y, key) && x.down != [] && x.attempt.Some? && x.down[0].Joined? && x.down[0].occupants >= 2
    ensures Inv(ClientStep(x, key), y, key)
  {
    hide ConfirmationTag;
    var x' := ClientStep(x, key);
    var hello := x.attempt.value.hello;
    var sends := [Pair(HelloMessage(hello))];
    SendingPairs(x, sends);
    assert x'.took == x.took;
    SafeTaken(x, y, key, x', sends);
    if Live(x') && Live(y) {
      assert Relayed(sends)[0] == Says(hello);
      ProgressTaken(x, y, key, x', sends);
    }
  }

  /** A tag that y made over x's hello and y's hello is a proof that y had taken x's hello. */
  lemma TagProvesTaken(x: Party, y: Party, key: PairKey, hx: Hello, hy: Hello)
    requires Genuine(y, x, key) && hx in x.used && hy in y.used && x.id != y.id
    requires (forall h :: h in x.used ==> h.deviceId == x.id) && (forall h :: h in y.used ==> h.deviceId == y.id)
    requires MadeBy(y, key, ConfirmationTag(key, hx, hy))
    ensures (hy, hx) in y.took
  {
    var p :| p in y.took && ConfirmationTag(key, hx, hy) == ConfirmationTag(key, p.0, p.1);
    TagFaithful(key, hx, hy, key, p.0, p.1);
    assert p == (hy, hx);
  }

  lemma OnlyOne(s: set<Hello>, a: Hello, b: Hello)
    requires a in s && b in s && a != b
    ensures |s| > 1
  {
    assert {a, b} <= s;
    assert |s - {a, b}| == |s| - |{a, b}|;
  }

  /** A tag that does not fit was computed before one of the two started over. */
  lemma MisfitMeansRestart(x: Party, y: Party, key: PairKey, hx: Hello, hy: Hello, tag: Tag)
    requires Genuine(y, x, key) && hx in x.used && hy in y.used && x.id != y.id
    requires (forall h :: h in x.used ==> h.deviceId == x.id) && (forall h :: h in y.used ==> h.deviceId == y.id)
    requires MadeBy(y, key, tag) && tag != ConfirmationTag(key, hx, hy)
    ensures |x.used| > 1 || |y.used| > 1
  {
    var p :| p in y.took && tag == ConfirmationTag(key, p.0, p.1);
    if p.0 != hy {
      OnlyOne(y.used, p.0, hy);
    } else if p.1 != hx {
      OnlyOne(x.used, p.1, hx);
    } else {
      TagSymmetric(key, hx, hy);
    }
  }

  function FirstHello(a: Attempt): seq<Up> {
    if a.sentHello then [] else [Pair(HelloMessage(a.hello))]
  }

  /** Handling a confirmation: without their hello it is only kept; with it the attempt settles. */
  lemma ConfirmEffect(x: Party, key: PairKey, x': Party, tag: Tag)
    requires x.attempt.Some? && x.attempt.value.outcome.Waiting? && x.online
    requires x.down != [] && x.down[0] == FromPeer(ConfirmMessage(tag)) && x' == ClientStep(x, key)
    requires Tidy(x, key)
    ensures var a := x.attempt.value;
            && x'.down == x.down[1..] && x'.took == x.took
            && (a.theirHello.None? ==>
                  x' == x.(down := x.down[1..], up := x.up + FirstHello(a),
                           attempt := Some(a.(sentHello := true, theirTag := Some(tag)))))
            && (a.theirHello.Some? ==>
                  var own := (a.hello, a.theirHello.value);
                  var fits := tag == ConfirmationTag(key, a.hello, a.theirHello.value);
                  x' == x.(down := x.down[1..], up := x.up + (FirstHello(a) + [Leave]), attempt := None,
                           stored := if fits then x.stored + {own} else x.stored,
                           refused := x.refused || !fits))
  {
    var a := x.attempt.value;
    assert FirstHello(a) + [] == FirstHello(a);
    if a.theirHello.Some? {
      assert x.took + {(a.hello, a.theirHello.value)} == x.took;
    }
  }

  lemma ConfirmKept(x: Party, y: Party, key: PairKey, x': Party, tag: Tag)
    requires Inv(x, y, key) && x.attempt.Some? && x.attempt.value.theirHello.None?
    requires x.down != [] && x.down[0] == FromPeer(ConfirmMessage(tag))
    requires x' == x.(down := x.down[1..], up := x.up + FirstHello(x.attempt.value),
                      attempt := Some(x.attempt.value.(sentHello := true, theirTag := Some(tag))))
    ensures Inv(x', y, key)
  {
    hide ConfirmationTag;
    var sends := FirstHello(x.attempt.value);
    assert x.down[0] in Wire(y, x);
    SendingPairs(x, sends);
    SafeTaken(x, y, key, x', sends);
    if Live(x') && Live(y) {
      ProgressTaken(x, y, key, x', sends);
    }
  }

  lemma ConfirmSettles(x: Party, y: Party, key: PairKey, x': Party, tag: Tag)
    requires Safe(x, y, key) && x.attempt.Some? && x.attempt.value.theirHello.Some?
    requires x.down != [] && x.down[0] == FromPeer(ConfirmMessage(tag))
    requires var own := (x.attempt.value.hello, x.attempt.value.theirHello.value);
             var fits := tag == ConfirmationTag(key, own.0, own.1);
             x' == x.(down := x.down[1..], up := x.up + (FirstHello(x.attempt.value) + [Leave]), attempt := None,
                      stored := if fits then x.stored + {own} else x.stored, refused := x.refused || !fits)
    ensures Inv(x', y, key)
  {
    hide ConfirmationTag;
    var sends := FirstHello(x.attempt.value) + [Leave];
    assert x.down[0] in Wire(y, x);
    SettledAgreed(x, y, key, x', tag);
    assert Join !in sends;
    assert Took(x, x', sends);
    assert Tidy(x', key);
    SafeTaken(x, y, key, x', sends);
    IdleInv(x', y, key);
  }

  lemma {:induction false} SettledAgreed(x: Party, y: Party, key: PairKey, x': Party, tag: Tag)
    requires Tidy(x, key) && Tidy(y, key) && Genuine(y, x, key) && Agreed(y, x) && x.id != y.id
    requires x.attempt.Some? && x.attempt.value.theirHello.Some? && MadeBy(y, key, tag)
    requires var own := (x.attempt.value.hello, x.attempt.value.theirHello.value);
             var fits := tag == ConfirmationTag(key, own.0, own.1);
             && x'.used == x.used
             && x'.stored == (if fits then x.stored + {own} else x.stored) && x'.refused == (x.refused || !fits)
    ensures Agreed(y, x')
  {
    var hx, hy := x.attempt.value.hello, x.attempt.value.theirHello.value;
    if tag == ConfirmationTag(key, hx, hy) {
      TagProvesTaken(x, y, key, hx, hy);
    } else {
      MisfitMeansRestart(x, y, key, hx, hy, tag);
    }
  }

  lemma ConfirmKeeps(x: Party, y: Party, key: PairKey)
    requires Inv(x, y, key) && x.down != [] && x.attempt.Some?
    requires x.down[0].FromPeer? && x.down[0].payload.ConfirmMessage?
    ensures Inv(ClientStep(x, key), y, key)
  {
    var tag := x.down[0].payload.tag;
    ConfirmEffect(x, key, ClientStep(x, key), tag);
    if x.attempt.value.theirHello.None? {
      ConfirmKept(x, y, key, ClientStep(x, key), tag);
    } else {
      ConfirmSettles(x, y, key, ClientStep(x, key), tag);
    }
  }

  /** Handling a hello, new or repeated: it is taken, and answered with the confirmation over it. */
  lemma HelloEffect(x: Party, key: PairKey, x': Party, hello: Hello)
    requires x.attempt.Some? && x.attempt.value.outcome.Waiting? && x.online
    requires x.down != [] && x.down[0] == FromPeer(HelloMessage(hello)) && x' == ClientStep(x, key)
    requires Tidy(x, key) && hello.deviceId != x.id
    ensures x'.attempt.Some?
    ensures var a := x.attempt.value;
            var tag := ConfirmationTag(key, a.hello, hello);
            x' == x.(down := x.down[1..], up := x.up + (FirstHello(a) + [Pair(ConfirmMessage(tag))]),
                     attempt := Some(a.(sentHello := true, theirHello := Some(hello), myTag := Some(tag),
                                        theirTag := x'.attempt.value.theirTag)),
                     took := x.took + {(a.hello, hello)})
            && (x'.attempt.value.theirTag == a.theirTag || x'.attempt.value.theirTag.None?)
  {
    hide ConfirmationTag;
    var tag := ConfirmationTag(key, x.attempt.value.hello, hello);
    assert [Pair(ConfirmMessage(tag))] + [] == [Pair(ConfirmMessage(tag))];
  }

  /** x' is x after it took the hello and answered it. */
  predicate AfterHello(x: Party, x': Party, key: PairKey, hello: Hello, sends: seq<Up>) {
    && x.attempt.Some? && x'.attempt.Some?
    && x.down != [] && x.down[0] == FromPeer(HelloMessage(hello))
    && var a, tag := x.attempt.value, ConfirmationTag(key, x.attempt.value.hello, hello);
       && sends == FirstHello(a) + [Pair(ConfirmMessage(tag))]
       && (x'.attempt.value.theirTag == a.theirTag || x'.attempt.value.theirTag.None?)
       && x' == x.(down := x.down[1..], up := x.up + sends,
                   attempt := Some(a.(sentHello := true, theirHello := Some(hello), myTag := Some(tag),
                                      theirTag := x'.attempt.value.theirTag)),
                   took := x.took + {(a.hello, hello)})
  }

  lemma HelloTaken(x: Party, y: Party, key: PairKey, x': Party, hello: Hello, sends: seq<Up>)
    requires Inv(x, y, key) && AfterHello(x, x', key, hello, sends)
    ensures Inv(x', y, key)
  {
    hide ConfirmationTag;
    HelloTakenSafe(x, y, key, x', hello, sends);
    if Live(x') && Live(y) {
      HelloTakenProgress(x, y, key, x', hello, sends);
    }
  }

  lemma HelloTakenSafe(x: Party, y: Party, key: PairKey, x': Party, hello: Hello, sends: seq<Up>)
    requires Safe(x, y, key) && AfterHello(x, x', key, hello, sends)
    ensures Took(x, x', sends) && Safe(x', y, key)
  {
    hide ConfirmationTag;
    var own := (x.attempt.value.hello, hello);
    var tag := ConfirmationTag(key, own.0, own.1);
    assert Wire(y, x)[0] == x.down[0] && x.down[0] in Wire(y, x);
    assert hello in y.used && own.0 in x.used;
    assert own in x'.took && MadeBy(x', key, tag);
    HelloSends(x, x', key, hello, sends);
    SendingPairs(x, sends);
    assert Tidy(x', key);
    assert GenuineHeld(x'.attempt.value, y, key);
    SafeTaken(x, y, key, x', sends);
  }

  lemma HelloSends(x: Party, x': Party, key: PairKey, hello: Hello, sends: seq<Up>)
    requires x.attempt.Some? && MadeBy(x', key, ConfirmationTag(key, x.attempt.value.hello, hello))
    requires sends == FirstHello(x.attempt.value) +
                      [Pair(ConfirmMessage(ConfirmationTag(key, x.attempt.value.hello, hello)))]
    ensures forall u :: u in sends ==> u.Pair?
    ensures forall u :: u in sends && u.payload.HelloMessage? ==> u.payload.hello == x.attempt.value.hello
    ensures forall u :: u in sends && u.payload.ConfirmMessage? ==> MadeBy(x', key, u.payload.tag)
  {
    hide ConfirmationTag;
    var a := x.attempt.value;
    var last := Pair(ConfirmMessage(ConfirmationTag(key, a.hello, hello)));
    assert forall u :: u in FirstHello(a) ==> u == Pair(HelloMessage(a.hello));
    assert forall u :: u in sends ==> u in FirstHello(a) || u == last;
  }

  lemma {:induction false} HelloTakenProgress(x: Party, y: Party, key: PairKey, x': Party, hello: Hello, sends: seq<Up>)
    requires Inv(x, y, key) && Took(x, x', sends) && Live(x') && Live(y)
    requires x.down[0] == Says(hello) && Knows(x', hello) && sends != []
    requires sends[|sends| - 1] == Pair(ConfirmMessage(ConfirmationTag(key, x.attempt.value.hello, hello)))
    ensures Progress(x', y, key) && Progress(y, x', key)
  {
    hide ConfirmationTag;
    var hy := y.attempt.value.hello;
    assert Relayed(sends)[|sends| - 1] == Confirms(key, x.attempt.value.hello, hello);
    assert Wire(y, x)[0] == x.down[0];
    if Knows(x, hy) {
      assert NoStale(Wire(y, x), hy, true);
      assert hello == hy;
    }
    ProgressTaken(x, y, key, x', sends);
  }

  lemma {:induction false} HelloKeeps(x: Party, y: Party, key: PairKey)
    requires Inv(x, y, key) && x.down != [] && x.attempt.Some?
    requires x.down[0].FromPeer? && x.down[0].payload.HelloMessage?
    ensures Inv(ClientStep(x, key), y, key)
  {
    hide ConfirmationTag;
    var a, hello := x.attempt.value, x.down[0].payload.hello;
    assert x.down[0] in Wire(y, x);
    HelloEffect(x, key, ClientStep(x, key), hello);
    HelloTaken(x, y, key, ClientStep(x, key), hello,
               FirstHello(a) + [Pair(ConfirmMessage(ConfirmationTag(key, a.hello, hello)))]);
  }

  // ---- every event, every run ----

  lemma {:induction false} ClientKeeps(x: Party, y: Party, key: PairKey)
    requires Inv(x, y, key)
    ensures Inv(ClientStep(x, key), y, key)
  {
    if x.down != [] {
      if x.attempt.None? {
        NoAttemptKeeps(x, y, key);
      } else {
        match x.down[0]
        case Joined(n) =>
          if n >= 2 {
            JoinedKeeps(x, y, key);
          } else {
            AlreadyTook(x, key);
            UnheededKeeps(x, y, key);
          }
        case FromPeer(payload) =>
          if payload.ConfirmMessage? {
            ConfirmKeeps(x, y, key);
          } else {
            HelloKeeps(x, y, key);
          }
        case Other =>
          UnheededKeeps(x, y, key);
      }
    }
  }

  lemma AlreadyTook(x: Party, key: PairKey)
    requires Tidy(x, key) && x.attempt.Some? && x.down != []
    ensures React(x.(down := x.down[1..]), Reaction(x.attempt.value, [])) == x.(down := x.down[1..])
  {
    assert x.up + [] == x.up;
    if x.attempt.value.theirHello.Some? {
      assert x.took + {(x.attempt.value.hello, x.attempt.value.theirHello.value)} == x.took;
    }
  }

  lemma HubKeeps(x: Party, y: Party, key: PairKey)
    requires Inv(x, y, key)
    ensures Inv(HubStep(x, y).0, HubStep(x, y).1, key)
  {
    if x.up != [] {
      match x.up[0]
      case Join =>
        if y.inRoom {
          HubJoinKeeps(x, y, key);
        } else {
          HubJoinAloneKeeps(x, y, key);
        }
      case Leave =>
        HubLeaveKeeps(x, y, key);
      case Pair(payload) =>
        if x.inRoom && y.inRoom {
          HubRelayKeeps(x, y, key);
        } else {
          HubRefuseKeeps(x, y, key);
        }
    }
  }

  lemma StepKeeps(x: Party, y: Party, key: PairKey, e: Event)
    requires Inv(x, y, key)
    ensures Inv(Step(x, y, key, e).0, Step(x, y, key, e).1, key)
  {
    hide ConfirmationTag;
    match e
    case Begin(hello) =>
      if CanBegin(x, hello) {
        BeginKeeps(x, y, key, hello);
      }
    case Abandon =>
      if x.attempt.Some? {
        AbandonKeeps(x, y, key);
      }
    case Drop => DropKeeps(x, y, key);
    case Reconnect =>
      if !x.online {
        ReconnectKeeps(x, y, key);
      }
    case HubReceives => HubKeeps(x, y, key);
    case ClientReceives => ClientKeeps(x, y, key);
  }

  lemma {:induction false} RunKeeps(a: Text, b: Text, key: PairKey, events: seq<(bool, Event)>)
    requires a != b
    ensures var w := Run(World(Fresh(a), Fresh(b)), key, events);
            Inv(w.left, w.right, key)
  {
    hide ConfirmationTag;
    var start := World(Fresh(a), Fresh(b));
    if events == [] {
      assert Wire(start.left, start.right) == [] && Wire(start.right, start.left) == [];
    } else {
      var front, last := events[..|events| - 1], events[|events| - 1];
      RunKeeps(a, b, key, front);
      var w := Run(start, key, front);
      if last.0 {
        StepKeeps(w.left, w.right, key, last.1);
      } else {
        StepKeeps(w.right, w.left, key, last.1);
      }
    }
  }

  predicate Quiet(x: Party) {
    x.up == [] && x.down == []
  }

  /**
    No deadlock: whatever was started, given up, dropped and regained, the two attempts are never
    both open, both in the room, with nothing left in flight to move either of them.
   */
  lemma NeverDeadlocked(a: Text, b: Text, key: PairKey, events: seq<(bool, Event)>)
    requires a != b
    ensures var w := Run(World(Fresh(a), Fresh(b)), key, events);
            !(w.left.attempt.Some? && w.right.attempt.Some? && w.left.inRoom && w.right.inRoom
              && Quiet(w.left) && Quiet(w.right))
  {
    RunKeeps(a, b, key, events);
    var w := Run(World(Fresh(a), Fresh(b)), key, events);
    QuietMeansNothingDue(w.left, w.right, key);
  }

  lemma QuietMeansNothingDue(x: Party, y: Party, key: PairKey)
    ensures x.attempt.Some? && y.attempt.Some? && x.online && y.online && Quiet(x) && Quiet(y) ==> !Progress(x, y, key)
  {
    if x.attempt.Some? && y.attempt.Some? && x.online && y.online && Quiet(x) && Quiet(y) {
      assert Wire(x, y) == [] && Wire(y, x) == [];
    }
  }

  /**
    Agreement: a record is stored only for a hello the other device really built, and only after
    that device, in the same attempt, had taken this device's own hello of that attempt.
   */
  lemma {:induction false} StoredMeansTaken(a: Text, b: Text, key: PairKey, events: seq<(bool, Event)>, mine: Hello,
                                            theirs: Hello)
    requires a != b
    ensures var w := Run(World(Fresh(a), Fresh(b)), key, events);
            (mine, theirs) in w.left.stored ==>
              mine in w.left.used && theirs in w.right.used && theirs.deviceId == b && (theirs, mine) in w.right.took
  {
    RunKeeps(a, b, key, events);
    SameIds(a, b, key, events);
    var w := Run(World(Fresh(a), Fresh(b)), key, events);
    if (mine, theirs) in w.left.stored {
      assert Agreed(w.right, w.left);
      assert Genuine(w.right, w.left, key);
      var p := (theirs, mine);
      assert p in w.right.took;
    }
  }

  lemma {:induction false} SameIds(a: Text, b: Text, key: PairKey, events: seq<(bool, Event)>)
    ensures var w := Run(World(Fresh(a), Fresh(b)), key, events);
            w.left.id == a && w.right.id == b
  {
    if events != [] {
      var front, last := events[..|events| - 1], events[|events| - 1];
      SameIds(a, b, key, front);
      var w := Run(World(Fresh(a), Fresh(b)), key, front);
      StepIds(w.left, w.right, key, last.1);
      StepIds(w.right, w.left, key, last.1);
    }
  }

  lemma StepIds(x: Party, y: Party, key: PairKey, e: Event)
    ensures Step(x, y, key, e).0.id == x.id && Step(x, y, key, e).1.id == y.id
  {
  }

  /** What makes a side refuse: the tag it is about to hear was made for another pair of hellos than the two at hand. */
  ghost predicate AboutToRefuse(x: Party, y: Party, key: PairKey) {
    && x.attempt.Some? && x.down != [] && x.down[0].FromPeer? && x.down[0].payload.ConfirmMessage?
    && var a, tag := x.attempt.value, x.down[0].payload.tag;
       && a.theirHello.Some?
       && exists p :: p in y.took && tag == ConfirmationTag(key, p.0, p.1) && p != (a.theirHello.value, a.hello)
  }

  /** Outside that moment no step makes a side refuse, its partner's steps least of all. */
  lemma OthersRefuseNothing(x: Party, y: Party, key: PairKey, e: Event)
    requires Inv(x, y, key)
    ensures Step(x, y, key, e).1.refused == y.refused
    ensures !e.ClientReceives? ==> Step(x, y, key, e).0.refused == x.refused
    ensures e.ClientReceives? && x.attempt.Some? && x.down != [] && x.down[0].FromPeer?
            && x.down[0].payload.HelloMessage? ==>
              Step(x, y, key, e).0.refused == x.refused
    ensures e.ClientReceives? && (x.attempt.None? || x.down == [] || !x.down[0].FromPeer?) ==>
              Step(x, y, key, e).0.refused == x.refused
  {
    hide ConfirmationTag;
  }

  lemma RefusesExactly(x: Party, y: Party, key: PairKey)
    requires Inv(x, y, key) && !x.refused
    ensures ClientStep(x, key).refused <==> AboutToRefuse(x, y, key)
  {
    hide ConfirmationTag, OnHello;
    OthersRefuseNothing(x, y, key, ClientReceives);
    if x.attempt.Some? && x.down != [] && x.down[0].FromPeer? && x.down[0].payload.ConfirmMessage? {
      var a, tag := x.attempt.value, x.down[0].payload.tag;
      ComingTagGenuine(x, y, key, tag);
      if a.theirHello.Some? {
        TagFits(x, y, key, tag);
      }
    }
  }

  /** The next confirmation was computed by the other device. */
  lemma ComingTagGenuine(x: Party, y: Party, key: PairKey, tag: Tag)
    requires Genuine(y, x, key) && x.down != [] && x.down[0] == FromPeer(ConfirmMessage(tag))
    ensures MadeBy(y, key, tag)
  {
    assert Wire(y, x)[0] == x.down[0];
  }

  /** It fits exactly when every pair it could have been made for is the pair at hand. */
  lemma {:induction false} TagFits(x: Party, y: Party, key: PairKey, tag: Tag)
    requires Safe(x, y, key) && x.attempt.Some? && x.attempt.value.theirHello.Some? && MadeBy(y, key, tag)
    ensures var hx, hy := x.attempt.value.hello, x.attempt.value.theirHello.value;
            tag == ConfirmationTag(key, hx, hy) <==>
              !exists p :: p in y.took && tag == ConfirmationTag(key, p.0, p.1) && p != (hy, hx)
  {
    hide ConfirmationTag, Fresher, Agreed;
    var hx, hy := x.attempt.value.hello, x.attempt.value.theirHello.value;
    TagSymmetric(key, hx, hy);
    forall p | p in y.took && tag == ConfirmationTag(key, p.0, p.1) && tag == ConfirmationTag(key, hx, hy)
      ensures p == (hy, hx)
    {
      TagFaithful(key, hx, hy, key, p.0, p.1);
    }
  }

  /** Whether this very step reports a different code, whatever was reported before. */
  ghost predicate Reports(x: Party, y: Party, key: PairKey, e: Event) {
    Step(x.(refused := false), y, key, e).0.refused
  }

  lemma Forgiven(x: Party, y: Party, key: PairKey, e: Event)
    requires Inv(x, y, key)
    ensures Inv(x.(refused := false), y, key)
    ensures Step(x, y, key, e).0.refused == (x.refused || Reports(x, y, key, e))
    ensures AboutToRefuse(x.(refused := false), y, key) == AboutToRefuse(x, y, key)
  {
    hide ConfirmationTag;
    var x0 := x.(refused := false);
    assert Wire(x0, y) == Wire(x, y) && Wire(y, x0) == Wire(y, x);
    assert forall t :: MadeBy(x0, key, t) <==> MadeBy(x, key, t);
  }

  /**
    When a different code is reported: in every reachable state and for every event, the device that
    takes the step reports it if and only if it is about to hear a tag that the other device made for
    another pair of hellos, one attempt of either having been given up since; the other never does.
   */
  lemma {:induction false} RefusedExactlyWhen(a: Text, b: Text, key: PairKey, events: seq<(bool, Event)>,
                                              onLeft: bool, e: Event)
    requires a != b
    ensures var w := Run(World(Fresh(a), Fresh(b)), key, events);
            var w' := Run(World(Fresh(a), Fresh(b)), key, events + [(onLeft, e)]);
            var (x, y) := if onLeft then (w.left, w.right) else (w.right, w.left);
            var (x', y') := if onLeft then (w'.left, w'.right) else (w'.right, w'.left);
            && (Reports(x, y, key, e) <==> e.ClientReceives? && AboutToRefuse(x, y, key))
            && x'.refused == (x.refused || Reports(x, y, key, e)) && y'.refused == y.refused
  {
    hide Inv, AboutToRefuse, Step;
    RunKeeps(a, b, key, events);
    var w := Run(World(Fresh(a), Fresh(b)), key, events);
    assert (events + [(onLeft, e)])[..|events|] == events;
    var (x, y) := if onLeft then (w.left, w.right) else (w.right, w.left);
    var x0 := x.(refused := false);
    BothWays(w, key, onLeft);
    Forgiven(x, y, key, e);
    OthersRefuseNothing(x, y, key, e);
    OthersRefuseNothing(x0, y, key, e);
    RefusesExactly(x0, y, key);
    ClientStepIs(x0, y, key);
  }

  lemma ClientStepIs(x: Party, y: Party, key: PairKey)
    ensures Step(x, y, key, ClientReceives).0 == ClientStep(x, key)
  {
  }

  lemma BothWays(w: World, key: PairKey, onLeft: bool)
    requires Inv(w.left, w.right, key)
    ensures if onLeft then Inv(w.left, w.right, key) else Inv(w.right, w.left, key)
  {
  }

  /** No false alarm: "a different code" is reported only if one of the two started over. */
  lemma {:induction false} RefusedMeansRestarted(a: Text, b: Text, key: PairKey, events: seq<(bool, Event)>)
    requires a != b
    ensures var w := Run(World(Fresh(a), Fresh(b)), key, events);
            w.left.refused || w.right.refused ==> |w.left.used| > 1 || |w.right.used| > 1
  {
    RunKeeps(a, b, key, events);
  }

  // ---- why starting over has to be excepted ----

  function Next(w: World, key: PairKey, onLeft: bool, e: Event): World {
    if onLeft then var (l, r) := Step(w.left, w.right, key, e); World(l, r)
    else var (r, l) := Step(w.right, w.left, key, e); World(l, r)
  }

  ghost predicate Reachable(a: Text, b: Text, key: PairKey, w: World) {
    exists events :: Run(World(Fresh(a), Fresh(b)), key, events) == w
  }

  lemma Go(a: Text, b: Text, key: PairKey, w: World, onLeft: bool, e: Event)
    requires Reachable(a, b, key, w)
    ensures Reachable(a, b, key, Next(w, key, onLeft, e))
  {
    hide Step;
    var start := World(Fresh(a), Fresh(b));
    var events :| Run(start, key, events) == w;
    var longer := events + [(onLeft, e)];
    assert longer[..|longer| - 1] == events;
    assert Run(start, key, longer) == Next(w, key, onLeft, e);
  }

  lemma FreshReachable(a: Text, b: Text, key: PairKey)
    ensures Reachable(a, b, key, World(Fresh(a), Fresh(b)))
  {
    assert Run(World(Fresh(a), Fresh(b)), key, []) == World(Fresh(a), Fresh(b));
  }

  /** Both in the room; the right side's first hello is on its way to the left. */
  function Met(a: Text, b: Text, l: Hello, r: Hello): World {
    World(Party(a, Some(NewAttempt(l)), true, true, [], [Joined(1), Joined(2), FromPeer(HelloMessage(r))],
                {l}, {}, {}, false),
          Party(b, Some(NewAttempt(r).(sentHello := true)), true, true, [], [], {r}, {}, {}, false))
  }

  lemma Meet(a: Text, b: Text, key: PairKey, l: Hello, r: Hello)
    requires l.deviceId == a && r.deviceId == b
    ensures Reachable(a, b, key, Met(a, b, l, r))
  {
    hide Reachable;
    FreshReachable(a, b, key);
    var w0 := World(Fresh(a), Fresh(b));
    Go(a, b, key, w0, true, Reconnect);
    var w1 := Next(w0, key, true, Reconnect);
    Go(a, b, key, w1, false, Reconnect);
    var w2 := Next(w1, key, false, Reconnect);
    Go(a, b, key, w2, true, Begin(l));
    var w3 := Next(w2, key, true, Begin(l));
    Go(a, b, key, w3, true, HubReceives);
    var w4 := Next(w3, key, true, HubReceives);
    Go(a, b, key, w4, false, Begin(r));
    var w5 := Next(w4, key, false, Begin(r));
    Go(a, b, key, w5, false, HubReceives);
    var w6 := Next(w5, key, false, HubReceives);
    Go(a, b, key, w6, false, ClientReceives);
    var w7 := Next(w6, key, false, ClientReceives);
    Go(a, b, key, w7, false, ClientReceives);
    var w8 := Next(w7, key, false, ClientReceives);
    Go(a, b, key, w8, false, HubReceives);
    assert Next(w8, key, false, HubReceives) == Met(a, b, l, r);
  }

  /** The right side started over with a new hello; the old one is still in flight. */
  function StartedOver(a: Text, b: Text, l: Hello, r: Hello, r': Hello): World {
    World(Party(a, Some(NewAttempt(l)), true, true, [], [Joined(1), Joined(2), FromPeer(HelloMessage(r)), Joined(2)],
                {l}, {}, {}, false),
          Party(b, Some(NewAttempt(r')), true, true, [], [Joined(2)], {r, r'}, {}, {}, false))
  }

  lemma StartOver(a: Text, b: Text, key: PairKey, l: Hello, r: Hello, r': Hello)
    requires l.deviceId == a && r.deviceId == b && r'.deviceId == b && r' != r
    ensures Reachable(a, b, key, StartedOver(a, b, l, r, r'))
  {
    hide Reachable;
    Meet(a, b, key, l, r);
    var w0 := Met(a, b, l, r);
    Go(a, b, key, w0, false, Abandon);
    var w1 := Next(w0, key, false, Abandon);
    Go(a, b, key, w1, false, Begin(r'));
    var w2 := Next(w1, key, false, Begin(r'));
    Go(a, b, key, w2, false, HubReceives);
    var w3 := Next(w2, key, false, HubReceives);
    Go(a, b, key, w3, false, HubReceives);
    assert Next(w3, key, false, HubReceives) == StartedOver(a, b, l, r, r');
  }

  /** The left side has answered the old hello, and its answer lies before the new attempt. */
  function Answered(a: Text, b: Text, l: Hello, r: Hello, r': Hello, tag: Tag): World {
    World(Party(a, Some(Attempt(l, Some(r), None, Some(tag), true, Waiting)), true, true, [], [Joined(2)],
                {l}, {(l, r)}, {}, false),
          Party(b, Some(NewAttempt(r')), true, true, [],
                [Joined(2), FromPeer(HelloMessage(l)), FromPeer(ConfirmMessage(tag))], {r, r'}, {}, {}, false))
  }

  lemma Answer(a: Text, b: Text, key: PairKey, l: Hello, r: Hello, r': Hello)
    requires l.deviceId == a && r.deviceId == b && r'.deviceId == b && r' != r && a != b
    ensures Reachable(a, b, key, Answered(a, b, l, r, r', ConfirmationTag(key, l, r)))
  {
    hide Reachable, ConfirmationTag;
    StartOver(a, b, key, l, r, r');
    var w0 := StartedOver(a, b, l, r, r');
    Go(a, b, key, w0, true, ClientReceives);
    var w1 := Next(w0, key, true, ClientReceives);
    Go(a, b, key, w1, true, ClientReceives);
    var w2 := Next(w1, key, true, ClientReceives);
    Go(a, b, key, w2, true, ClientReceives);
    var w3 := Next(w2, key, true, ClientReceives);
    Go(a, b, key, w3, true, HubReceives);
    var w4 := Next(w3, key, true, HubReceives);
    Go(a, b, key, w4, true, HubReceives);
    assert Next(w4, key, true, HubReceives) == Answered(a, b, l, r, r', ConfirmationTag(key, l, r));
  }

  /**
    A false alarm: two honest devices with the same code, one of which starts over while its first
    hello is on the way. The answer to the old hello meets the new attempt, which reports a different code.
   */
  lemma StartingOverCanRefuse(a: Text, b: Text, key: PairKey, l: Hello, r: Hello, r': Hello)
    requires l.deviceId == a && r.deviceId == b && r'.deviceId == b && r' != r && a != b
    ensures exists w :: Reachable(a, b, key, w) && w.right.refused && w.left.used == {l} && w.right.used == {r, r'}
  {
    hide Reachable, ConfirmationTag;
    Answer(a, b, key, l, r, r');
    var tag := ConfirmationTag(key, l, r);
    var w0 := Answered(a, b, l, r, r', tag);
    Go(a, b, key, w0, false, ClientReceives);
    var w1 := Next(w0, key, false, ClientReceives);
    Go(a, b, key, w1, false, ClientReceives);
    var w2 := Next(w1, key, false, ClientReceives);
    assert tag != ConfirmationTag(key, r', l) by {
      if tag == ConfirmationTag(key, r', l) {
        TagFaithful(key, l, r, key, r', l);
      }
    }
    Go(a, b, key, w2, false, ClientReceives);
    assert Next(w2, key, false, ClientReceives).right.refused;
  }

  // ---- which histories can end in a refusal ----

  /** A device that refused had taken some hello of the other's. */
  ghost predicate RefusedTook(x: Party) {
    x.refused ==> x.took != {}
  }

  lemma StepTook(x: Party, y: Party, key: PairKey, e: Event)
    requires RefusedTook(x) && RefusedTook(y) && Tidy(x, key)
    ensures RefusedTook(Step(x, y, key, e).0) && RefusedTook(Step(x, y, key, e).1)
  {
    hide ConfirmationTag;
    var x' := Step(x, y, key, e).0;
    if x'.refused && !x.refused {
      var a := x.attempt.value;
      assert a.theirHello.Some?;
      assert (a.hello, a.theirHello.value) in x'.took;
    }
  }

  lemma {:induction false} RunTook(a: Text, b: Text, key: PairKey, events: seq<(bool, Event)>)
    requires a != b
    ensures var w := Run(World(Fresh(a), Fresh(b)), key, events); RefusedTook(w.left) && RefusedTook(w.right)
  {
    hide Step, RefusedTook, Tidy, Genuine, Agreed, Fresher, Progress;
    if events == [] {
      FreshTook(a);
      FreshTook(b);
    } else {
      var front, last := events[..|events| - 1], events[|events| - 1];
      RunTook(a, b, key, front);
      RunKeeps(a, b, key, front);
      var w := Run(World(Fresh(a), Fresh(b)), key, front);
      StepTook(w.left, w.right, key, last.1);
      StepTook(w.right, w.left, key, last.1);
    }
  }

  lemma FreshTook(id: Text)
    ensures RefusedTook(Fresh(id))
  {
  }

  function Swap(w: World): World {
    World(w.right, w.left)
  }

  function Flip(events: seq<(bool, Event)>): seq<(bool, Event)> {
    seq(|events|, i requires 0 <= i < |events| => (!events[i].0, events[i].1))
  }

  /** The two devices play the same part. */
  lemma {:induction false} MirrorRun(start: World, key: PairKey, events: seq<(bool, Event)>)
    ensures Run(Swap(start), key, Flip(events)) == Swap(Run(start, key, events))
  {
    hide Step;
    if events != [] {
      var front := events[..|events| - 1];
      MirrorRun(start, key, front);
      assert Flip(events)[..|events| - 1] == Flip(front);
    }
  }

  lemma MirrorReachable(a: Text, b: Text, key: PairKey, w: World)
    requires Reachable(a, b, key, w)
    ensures Reachable(b, a, key, Swap(w))
  {
    hide Run, Flip;
    var start := World(Fresh(a), Fresh(b));
    var events :| Run(start, key, events) == w;
    MirrorRun(start, key, events);
    assert Run(World(Fresh(b), Fresh(a)), key, Flip(events)) == Swap(w);
  }

  /** One hello more on the left, given up again or not: what was refused stays refused. */
  lemma UseOne(a: Text, b: Text, key: PairKey, w: World, h: Hello) returns (w': World)
    requires Reachable(a, b, key, w) && h.deviceId == a && h !in w.left.used
    ensures Reachable(a, b, key, w') && w'.left.used == w.left.used + {h} && w'.right.used == w.right.used
    ensures w.left.refused ==> w'.left.refused
    ensures w.right.refused ==> w'.right.refused
  {
    hide Reachable, Run;
    assert w.left.id == a by {
      var events := EventsTo(a, b, key, w);
      SameIds(a, b, key, events);
    }
    Go(a, b, key, w, true, Abandon);
    var w1 := Next(w, key, true, Abandon);
    Go(a, b, key, w1, true, Begin(h));
    w' := Next(w1, key, true, Begin(h));
  }

  lemma EventsTo(a: Text, b: Text, key: PairKey, w: World) returns (events: seq<(bool, Event)>)
    requires Reachable(a, b, key, w)
    ensures Run(World(Fresh(a), Fresh(b)), key, events) == w
  {
    events :| Run(World(Fresh(a), Fresh(b)), key, events) == w;
  }

  ghost predicate Of(hellos: set<Hello>, id: Text) {
    forall h :: h in hellos ==> h.deviceId == id
  }

  lemma {:induction false} UseUp(a: Text, b: Text, key: PairKey, w: World, hellos: set<Hello>) returns (w': World)
    requires Reachable(a, b, key, w) && Of(hellos, a) && w.left.used <= hellos
    ensures Reachable(a, b, key, w') && w'.left.used == hellos && w'.right.used == w.right.used
    ensures w.left.refused ==> w'.left.refused
    ensures w.right.refused ==> w'.right.refused
    decreases hellos - w.left.used
  {
    hide Reachable;
    if w.left.used == hellos {
      w' := w;
    } else {
      var h :| h in hellos && h !in w.left.used;
      var w1 := UseOne(a, b, key, w, h);
      w' := UseUp(a, b, key, w1, hellos);
    }
  }

  ghost predicate CanRefuse(a: Text, b: Text, key: PairKey, l: set<Hello>, r: set<Hello>) {
    exists w :: Reachable(a, b, key, w) && (w.left.refused || w.right.refused) && w.left.used == l && w.right.used == r
  }

  lemma RefusalWithRestart(a: Text, b: Text, key: PairKey, l: set<Hello>, r: set<Hello>)
    requires a != b && Of(l, a) && Of(r, b) && l != {} && |r| > 1
    ensures CanRefuse(a, b, key, l, r)
  {
    hide Reachable;
    var h :| h in l;
    var r1 :| r1 in r;
    assert r - {r1} != {} by {
      assert |r - {r1}| == |r| - 1;
    }
    var r2 :| r2 in r - {r1};
    StartingOverCanRefuse(a, b, key, h, r1, r2);
    var w :| Reachable(a, b, key, w) && w.right.refused && w.left.used == {h} && w.right.used == {r1, r2};
    var w1 := UseUp(a, b, key, w, l);
    MirrorReachable(a, b, key, w1);
    var w2 := UseUp(b, a, key, Swap(w1), r);
    MirrorReachable(b, a, key, w2);
    assert Reachable(a, b, key, Swap(w2));
  }

  lemma MirrorCanRefuse(a: Text, b: Text, key: PairKey, l: set<Hello>, r: set<Hello>)
    requires CanRefuse(b, a, key, r, l)
    ensures CanRefuse(a, b, key, l, r)
  {
    hide Reachable;
    var w :| Reachable(b, a, key, w) && (w.left.refused || w.right.refused) && w.left.used == r && w.right.used == l;
    MirrorReachable(b, a, key, w);
    assert Reachable(a, b, key, Swap(w));
  }

  lemma RefusalNeedsRestart(a: Text, b: Text, key: PairKey, w: World)
    requires a != b && Reachable(a, b, key, w) && (w.left.refused || w.right.refused)
    ensures w.left.used != {} && w.right.used != {} && |w.left.used| + |w.right.used| > 2
  {
    hide Run, ConfirmationTag, Progress, Fresher;
    var events := EventsTo(a, b, key, w);
    RunKeeps(a, b, key, events);
    RunTook(a, b, key, events);
    RefusedMeansRestarted(a, b, key, events);
    if w.left.refused {
      var p :| p in w.left.took;
      assert Genuine(w.left, w.right, key);
    } else {
      var p :| p in w.right.took;
      assert Genuine(w.right, w.left, key);
    }
    NotEmpty(w.left.used);
    NotEmpty(w.right.used);
  }

  lemma NotEmpty(hellos: set<Hello>)
    ensures hellos != {} <==> |hellos| >= 1
  {
  }

  /**
    Which pasts can hold a false alarm: for any two sets of hellos the two devices may have built, there
    is a run that built exactly these and reported a different code if and only if each device built one
    and one of them built another, in other words started over.
   */
  lemma CanRefuseExactlyWhen(a: Text, b: Text, key: PairKey, l: set<Hello>, r: set<Hello>)
    requires a != b && Of(l, a) && Of(r, b)
    ensures CanRefuse(a, b, key, l, r) <==> l != {} && r != {} && |l| + |r| > 2
  {
    hide Reachable;
    if CanRefuse(a, b, key, l, r) {
      var w :| Reachable(a, b, key, w) && (w.left.refused || w.right.refused) && w.left.used == l && w.right.used == r;
      RefusalNeedsRestart(a, b, key, w);
    }
    if l != {} && r != {} && |l| + |r| > 2 {
      if |r| > 1 {
        RefusalWithRestart(a, b, key, l, r);
      } else {
        RefusalWithRestart(b, a, key, r, l);
        MirrorCanRefuse(a, b, key, l, r);
      }
    }
  }
}
