/**
  How an undisturbed pairing ends: each device opens one attempt, nobody gives up and no socket drops. Then,
  in whatever order messages are taken, taking them comes to an end, and each device has paired with the other.
 */
module PairingEnds {
  import opened Common
  import opened Confirmation
  import opened Pairing
  import opened PairingSafety

  /** The left device builds l, the right one r, and nothing is given up or lost. */
  predicate Undisturbed(l: Hello, r: Hello, onLeft: bool, e: Event) {
    match e
    case Begin(hello) => hello == if onLeft then l else r
    case Abandon => false
    case Drop => false
    case _ => true
  }

  ghost predicate AllUndisturbed(l: Hello, r: Hello, events: seq<(bool, Event)>) {
    forall i :: 0 <= i < |events| ==> Undisturbed(l, r, events[i].0, events[i].1)
  }

  // ---- one side ----

  /** The attempt has settled. */
  predicate Done(x: Party, hx: Hello) {
    hx in x.used && x.attempt.None?
  }

  /** The attempt has heard nothing yet. */
  predicate Fresh0(x: Party) {
    x.attempt.Some? && x.attempt.value.theirHello.None? && !x.attempt.value.sentHello
  }

  predicate Unjoined(x: Party) {
    && !x.inRoom && x.down == [] && (x.attempt.Some? ==> Fresh0(x))
    && (x.up == [] || (x.up == [Join] && x.attempt.Some?)) && (x.online && x.attempt.Some? ==> x.up == [Join])
  }

  predicate InRoom(x: Party) {
    x.attempt.Some? && x.inRoom && Join !in x.up && Leave !in x.up
  }

  predicate Ending(x: Party) {
    && x.inRoom && x.up != [] && x.up[|x.up| - 1] == Leave
    && forall i :: 0 <= i < |x.up| - 1 ==> x.up[i].Pair?
  }

  predicate Out(x: Party) {
    !x.inRoom && x.up == []
  }

  /** Where one side is on its way, and what it holds by then. */
  ghost predicate Stage(x: Party, hx: Hello, hy: Hello) {
    && x.used <= {hx} && !x.refused
    && x.stored == (if Done(x, hx) then {(hx, hy)} else {})
    && (x.attempt.Some? ==>
          var a := x.attempt.value;
          && hx in x.used && a.hello == hx && a.theirTag.None?
          && (a.theirHello == None || (a.theirHello == Some(hy) && a.sentHello)))
    && (if Done(x, hx) then Ending(x) || Out(x) else Unjoined(x) || InRoom(x))
  }

  predicate HasJoined(x: Party, hx: Hello) {
    x.inRoom || Done(x, hx)
  }

  // ---- between the two ----

  /** Nothing is on the wire but x's hello, its confirmation, and the hub's own words. */
  ghost predicate Plain(wire: seq<Down>, key: PairKey, hx: Hello, hy: Hello) {
    forall d :: d in wire ==>
      d == Says(hx) || d == Confirms(key, hx, hy) || d == Joined(1) || d == Joined(2) || d == Other
  }

  /** Before y is in the room x has said nothing, and heard nothing of y. */
  ghost predicate Alone(x: Party, hx: Hello) {
    && !Done(x, hx) && (x.attempt.Some? ==> Fresh0(x))
    && (forall u :: u in x.up ==> !u.Pair?)
    && forall d :: d in x.down ==> d == Joined(1) || d == Other
  }

  /** No confirmation of x's overtakes its hello. */
  ghost predicate HelloFirst(wire: seq<Down>, key: PairKey, hx: Hello, hy: Hello) {
    forall p :: 0 <= p < |wire| && wire[p] == Confirms(key, hx, hy) ==> Says(hx) in wire[..p]
  }

  ghost predicate Answered(known: bool, wire: seq<Down>, key: PairKey, hx: Hello, hy: Hello) {
    exists p :: AnswersAt(known, wire, hx, Confirms(key, hx, hy), p)
  }

  /** What y has still to hear from x while its attempt is open. */
  ghost predicate Owed(x: Party, y: Party, key: PairKey, hx: Hello, hy: Hello) {
    y.attempt.Some? ==>
      var known, wire := Knows(y, hx), Wire(x, y);
      && (!known ==> HelloFirst(wire, key, hx, hy))
      && (!known && (Done(x, hx) || (x.attempt.Some? && x.attempt.value.sentHello)) ==> Says(hx) in wire)
      && (Done(x, hx) || Knows(x, hy) ==> Answered(known, wire, key, hx, hy))
  }

  ghost predicate Flow(x: Party, y: Party, key: PairKey, hx: Hello, hy: Hello) {
    && Plain(Wire(x, y), key, hx, hy)
    && (!HasJoined(y, hy) ==> Alone(x, hx))
    && Owed(x, y, key, hx, hy)
  }

  ghost predicate OnCourse(x: Party, y: Party, key: PairKey, hx: Hello, hy: Hello) {
    && Inv(x, y, key) && hx.deviceId == x.id && hy.deviceId == y.id
    && Stage(x, hx, hy) && Stage(y, hy, hx)
    && Flow(x, y, key, hx, hy) && Flow(y, x, key, hy, hx)
  }

  // ---- one event of x ----

  lemma BeginOnCourse(x: Party, y: Party, key: PairKey, hx: Hello, hy: Hello)
    requires OnCourse(x, y, key, hx, hy)
    ensures OnCourse(Step(x, y, key, Begin(hx)).0, y, key, hx, hy)
  {
    hide ConfirmationTag, Inv;
    StepKeeps(x, y, key, Begin(hx));
    Tidied(x, y, key);
    if CanBegin(x, hx) {
      Opening(x, y, key, hx, hy, Step(x, y, key, Begin(hx)).0);
    }
  }

  lemma Tidied(x: Party, y: Party, key: PairKey)
    requires Inv(x, y, key)
    ensures Tidy(x, key) && Tidy(y, key) && x.id != y.id
  {
  }

  /** A side that has not joined yet opens its attempt, or gets its socket. */
  lemma Opening(x: Party, y: Party, key: PairKey, hx: Hello, hy: Hello, x': Party)
    requires Stage(x, hx, hy) && Flow(x, y, key, hx, hy) && Flow(y, x, key, hy, hx)
    requires Unjoined(x) && !Done(x, hx) && x'.down == [] && !x'.inRoom && x'.used <= {hx} && hx in x'.used
    requires x'.stored == x.stored && x'.refused == x.refused
    requires x'.attempt.Some? && Fresh0(x') && x'.attempt.value.hello == hx && x'.attempt.value.theirTag.None?
    requires x'.up == (if x'.online then [Join] else [])
    ensures Stage(x', hx, hy) && Flow(x', y, key, hx, hy) && Flow(y, x', key, hy, hx)
  {
    hide ConfirmationTag;
    assert !HasJoined(x, hx);
    assert Alone(y, hy);
    assert Relayed([Join]) == [Other];
    NoWords(y, x');
    assert forall d :: d in Wire(x', y) ==> d in y.down || d == Other;
    NoDebt(Wire(x', y), key, hx, hy);
    NoDebt(Wire(y, x'), key, hy, hx);
  }

  /** With only the hub's words on the wire there is no confirmation to come too early. */
  lemma NoDebt(wire: seq<Down>, key: PairKey, hx: Hello, hy: Hello)
    requires forall d :: d in wire ==> d == Joined(1) || d == Joined(2) || d == Other
    ensures HelloFirst(wire, key, hx, hy)
  {
    hide ConfirmationTag;
    assert forall p :: 0 <= p < |wire| ==> wire[p] in wire;
  }

  /** From a side that has said nothing there is nothing on the way. */
  lemma NoWords(y: Party, x: Party)
    requires x.down == [] && forall u :: u in y.up ==> !u.Pair?
    ensures forall d :: d in Wire(y, x) ==> d == Other
  {
  }

  lemma ReconnectOnCourse(x: Party, y: Party, key: PairKey, hx: Hello, hy: Hello)
    requires OnCourse(x, y, key, hx, hy)
    ensures OnCourse(Step(x, y, key, Reconnect).0, y, key, hx, hy)
  {
    hide ConfirmationTag, Inv;
    StepKeeps(x, y, key, Reconnect);
    Tidied(x, y, key);
    var x' := Step(x, y, key, Reconnect).0;
    if !x.online && x.attempt.Some? {
      Opening(x, y, key, hx, hy, x');
    } else {
      assert Wire(x', y) == Wire(x, y) && Wire(y, x') == Wire(y, x);
    }
  }

  // ---- the hub takes a message of x ----

  lemma JoinOnCourse(x: Party, y: Party, key: PairKey, hx: Hello, hy: Hello)
    requires OnCourse(x, y, key, hx, hy) && x.up != [] && x.up[0].Join?
    ensures var (x', y') := HubStep(x, y);
            Stage(x', hx, hy) && Stage(y', hy, hx) && Flow(x', y', key, hx, hy) && Flow(y', x', key, hy, hx)
  {
    hide ConfirmationTag, Inv;
    var (x', y') := HubStep(x, y);
    assert x.up == [Join] && x.down == [];
    assert Alone(y, hy);
    assert Relayed([Join]) == [Other];
    assert Relayed(x'.up) == [] && Wire(x', y') == y'.down;
    assert forall d :: d in y'.down ==> d in y.down || d == Joined(2);
    NoWords(y, x);
    assert Wire(y', x') == [x'.down[0]] + Relayed(y.up) && Wire(y, x) == Relayed(y.up);
    NoDebt(Wire(x', y'), key, hx, hy);
    NoDebt(Wire(y', x'), key, hy, hx);
  }

  lemma LeaveOnCourse(x: Party, y: Party, key: PairKey, hx: Hello, hy: Hello)
    requires OnCourse(x, y, key, hx, hy) && x.up != [] && x.up[0].Leave?
    ensures var (x', y') := HubStep(x, y);
            Stage(x', hx, hy) && Stage(y', hy, hx) && Flow(x', y', key, hx, hy) && Flow(y', x', key, hy, hx)
  {
    hide ConfirmationTag, Inv;
    var (x', y') := HubStep(x, y);
    assert x.up == [Leave];
    assert Relayed([Leave]) == [Other] && Wire(y', x') == Wire(y, x);
    assert Wire(x, y) == Wire(x', y') + [Other];
    assert forall d :: d in Wire(x', y') ==> d in Wire(x, y);
    if y.attempt.Some? {
      Shorter(Knows(y, hx), Wire(x', y'), key, hx, hy);
    }
  }

  lemma Shorter(known: bool, wire: seq<Down>, key: PairKey, hx: Hello, hy: Hello)
    ensures Answered(known, wire + [Other], key, hx, hy) ==> Answered(known, wire, key, hx, hy)
    ensures HelloFirst(wire + [Other], key, hx, hy) ==> HelloFirst(wire, key, hx, hy)
    ensures Says(hx) in wire + [Other] ==> Says(hx) in wire
  {
    hide ConfirmationTag;
    assert forall p :: 0 <= p < |wire| ==> (wire + [Other])[p] == wire[p] && (wire + [Other])[..p] == wire[..p];
    if Answered(known, wire + [Other], key, hx, hy) {
      var p :| AnswersAt(known, wire + [Other], hx, Confirms(key, hx, hy), p);
      assert AnswersAt(known, wire, hx, Confirms(key, hx, hy), p);
    }
  }

  /** Relayed, or dropped because y is done: then nothing is owed any more. */
  lemma PairOnCourse(x: Party, y: Party, key: PairKey, hx: Hello, hy: Hello)
    requires OnCourse(x, y, key, hx, hy) && x.up != [] && x.up[0].Pair?
    ensures var (x', y') := HubStep(x, y);
            Stage(x', hx, hy) && Stage(y', hy, hx) && Flow(x', y', key, hx, hy) && Flow(y', x', key, hy, hx)
  {
    hide ConfirmationTag, Inv;
    var (x', y') := HubStep(x, y);
    assert x.up[0] in x.up && x.up == [x.up[0]] + x'.up;
    assert HasJoined(y, hy) && x.inRoom;
    assert Wire(y', x') == Wire(y, x);
    if y.inRoom {
      assert Relayed(x.up) == [AsDown(x.up[0])] + Relayed(x'.up);
      assert Wire(x', y') == Wire(x, y);
    } else {
      assert forall d :: d in Wire(x', y') ==> d in Wire(x, y) by {
        WirePop(x, y);
      }
    }
  }

  // ---- x takes a message ----

  lemma TakeOnCourse(x: Party, y: Party, key: PairKey, hx: Hello, hy: Hello)
    requires OnCourse(x, y, key, hx, hy)
    ensures var x' := ClientStep(x, key); Stage(x', hx, hy) && Flow(x', y, key, hx, hy) && Flow(y, x', key, hy, hx)
  {
    hide ConfirmationTag, Inv, ClientStep;
    if x.down == [] {
      NothingTaken(x, key);
    } else if x.attempt.None? {
      DoneTakes(x, y, key, hx, hy);
    } else {
      Heard(x, y, key, hx, hy);
      if IsHello(x.down[0]) {
        HelloOnCourse(x, y, key, hx, hy);
      } else if x.down[0].FromPeer? {
        ConfirmOnCourse(x, y, key, hx, hy);
      } else {
        HubWordOnCourse(x, y, key, hx, hy);
      }
    }
  }

  lemma NothingTaken(x: Party, key: PairKey)
    requires x.down == []
    ensures ClientStep(x, key) == x
  {
  }

  lemma DoneTakes(x: Party, y: Party, key: PairKey, hx: Hello, hy: Hello)
    requires OnCourse(x, y, key, hx, hy) && x.down != [] && x.attempt.None?
    ensures var x' := ClientStep(x, key); Stage(x', hx, hy) && Flow(x', y, key, hx, hy) && Flow(y, x', key, hy, hx)
  {
    hide ConfirmationTag, Inv;
    var x' := ClientStep(x, key);
    WireTake(y, x, x');
    assert Wire(x', y) == Wire(x, y);
    assert forall d :: d in Wire(y, x') ==> d in Wire(y, x);
    assert forall d :: d in x'.down ==> d in x.down;
  }

  /** What x is about to hear is one of a few things, and y is in the room or done if it comes of y. */
  lemma Heard(x: Party, y: Party, key: PairKey, hx: Hello, hy: Hello)
    requires OnCourse(x, y, key, hx, hy) && x.down != [] && x.attempt.Some?
    ensures var d := x.down[0];
            && (d == Says(hy) || d == Confirms(key, hy, hx) || d == Joined(1) || d == Joined(2) || d == Other)
            && (d.FromPeer? || d == Joined(2) ==> HasJoined(y, hy))
            && (d == Confirms(key, hy, hx) ==> Knows(x, hy))
            && x.online && InRoom(x)
  {
    hide ConfirmationTag, Inv;
    Tidied(x, y, key);
    assert Wire(y, x)[0] == x.down[0] && x.down[0] in Wire(y, x) && x.down[0] in x.down;
    NeverAtOnce(Wire(y, x), key, hy, hx);
  }

  lemma NeverAtOnce(wire: seq<Down>, key: PairKey, hx: Hello, hy: Hello)
    requires wire != []
    ensures HelloFirst(wire, key, hx, hy) ==> wire[0] != Confirms(key, hx, hy)
  {
    hide ConfirmationTag;
    assert wire[..0] == [];
  }

  /** What taking one message off the front leaves owed. */
  lemma OwedAfter(wire: seq<Down>, known: bool, known': bool, key: PairKey, hx: Hello, hy: Hello)
    requires wire != [] && wire[0] != Confirms(key, hx, hy)
    requires (known ==> known') && (wire[0] == Says(hx) ==> known')
    ensures !known' && HelloFirst(wire, key, hx, hy) ==> HelloFirst(wire[1..], key, hx, hy)
    ensures !known' && Says(hx) in wire ==> Says(hx) in wire[1..]
    ensures Answered(known, wire, key, hx, hy) ==> Answered(known', wire[1..], key, hx, hy)
  {
    hide ConfirmationTag;
    assert wire == [wire[0]] + wire[1..];
    assert forall p :: 0 < p < |wire| ==> wire[1..][p - 1] == wire[p] && wire[..p] == [wire[0]] + wire[1..][..p - 1];
    if !known' && HelloFirst(wire, key, hx, hy) {
      forall p | 0 <= p < |wire[1..]| && wire[1..][p] == Confirms(key, hx, hy)
        ensures Says(hx) in wire[1..][..p]
      {
        assert Says(hx) in wire[..p + 1];
      }
    }
    if Answered(known, wire, key, hx, hy) {
      var p :| AnswersAt(known, wire, hx, Confirms(key, hx, hy), p);
      assert AnswersAt(known', wire[1..], hx, Confirms(key, hx, hy), p - 1);
    }
  }

  /** What sending more adds to what is owed. */
  lemma OwedMore(wire: seq<Down>, add: seq<Down>, known: bool, key: PairKey, hx: Hello, hy: Hello)
    ensures Answered(known, wire, key, hx, hy) ==> Answered(known, wire + add, key, hx, hy)
    ensures HelloFirst(wire, key, hx, hy) && (Says(hx) in wire || HelloFirst(add, key, hx, hy)) ==>
              HelloFirst(wire + add, key, hx, hy)
    ensures add != [] && add[|add| - 1] == Confirms(key, hx, hy) && (known || Says(hx) in wire + add[..|add| - 1]) ==>
              Answered(known, wire + add, key, hx, hy)
  {
    hide ConfirmationTag;
    var all := wire + add;
    assert forall p :: 0 <= p < |wire| ==> all[p] == wire[p] && all[..p] == wire[..p];
    assert forall p :: |wire| <= p < |all| ==> all[p] == add[p - |wire|] && all[..p] == wire + add[..p - |wire|];
    if Answered(known, wire, key, hx, hy) {
      var p :| AnswersAt(known, wire, hx, Confirms(key, hx, hy), p);
      assert AnswersAt(known, all, hx, Confirms(key, hx, hy), p);
    }
    if add != [] && add[|add| - 1] == Confirms(key, hx, hy) && (known || Says(hx) in wire + add[..|add| - 1]) {
      assert all[..|all| - 1] == wire + add[..|add| - 1];
      assert AnswersAt(known, all, hx, Confirms(key, hx, hy), |all| - 1);
    }
  }

  lemma HubWordOnCourse(x: Party, y: Party, key: PairKey, hx: Hello, hy: Hello)
    requires OnCourse(x, y, key, hx, hy) && x.down != [] && x.attempt.Some? && !x.down[0].FromPeer?
    requires x.down[0] == Joined(2) ==> HasJoined(y, hy)
    requires x.online && InRoom(x) && x.down[0] in {Joined(1), Joined(2), Other}
    ensures var x' := ClientStep(x, key); Stage(x', hx, hy) && Flow(x', y, key, hx, hy) && Flow(y, x', key, hy, hx)
  {
    hide ConfirmationTag, Inv;
    Tidied(x, y, key);
    AlreadyTook(x, key);
    var x' := ClientStep(x, key);
    var sends := if x.down[0] == Joined(2) then [Pair(HelloMessage(hx))] else [];
    assert x'.up == x.up + sends by {
      assert x.up + [] == x.up;
    }
    TalkOnCourse(x, y, key, hx, hy, x', sends);
  }

  /** x takes a message that is no confirmation and says nothing, its hello, or its hello and its confirmation. */
  lemma TalkOnCourse(x: Party, y: Party, key: PairKey, hx: Hello, hy: Hello, x': Party, sends: seq<Up>)
    requires OnCourse(x, y, key, hx, hy) && x.down != [] && InRoom(x) && x.online
    requires x.down[0] != Confirms(key, hy, hx) && (sends != [] ==> HasJoined(y, hy))
    requires x'.down == x.down[1..] && x'.up == x.up + sends && x'.inRoom && x'.online
    requires x'.used == x.used && x'.stored == x.stored && x'.refused == x.refused && x'.attempt.Some?
    requires x'.attempt.value.hello == hx && x'.attempt.value.theirTag.None?
    requires x'.attempt.value.theirHello == if x.down[0] == Says(hy) then Some(hy) else x.attempt.value.theirHello
    requires x.down[0] == Says(hy) ==> x'.attempt.value.sentHello && sends != []
    requires x.attempt.value.sentHello ==> x'.attempt.value.sentHello
    requires x'.attempt.value.sentHello && !x.attempt.value.sentHello ==> Pair(HelloMessage(hx)) in sends
    requires forall u :: u in sends ==> AsDown(u) == Says(hx) || AsDown(u) == Confirms(key, hx, hy)
    requires forall u :: u in sends ==> u.Pair?
    requires HelloFirst(Relayed(sends), key, hx, hy) || x.attempt.value.sentHello
    requires x.down[0] == Says(hy) ==> AsDown(sends[|sends| - 1]) == Confirms(key, hx, hy)
    ensures Stage(x', hx, hy) && Flow(x', y, key, hx, hy) && Flow(y, x', key, hy, hx)
  {
    hide ConfirmationTag, Inv, HelloFirst, Answered;
    WireSend(x, y, sends, x');
    WireTake(y, x, x');
    var add := Relayed(sends);
    assert forall d :: d in add ==> d == Says(hx) || d == Confirms(key, hx, hy) by {
      forall d | d in add
        ensures d == Says(hx) || d == Confirms(key, hx, hy)
      {
        var i :| 0 <= i < |add| && add[i] == d;
        assert sends[i] in sends;
      }
    }
    assert Wire(y, x)[0] == x.down[0];
    assert forall d :: d in Wire(y, x') ==> d in Wire(y, x);
    assert forall d :: d in x'.down ==> d in x.down;
    OwedAfter(Wire(y, x), Knows(x, hy), Knows(x', hy), key, hy, hx);
    assert Flow(y, x', key, hy, hx);
    if y.attempt.Some? {
      OwedMore(Wire(x, y), add, Knows(y, hx), key, hx, hy);
      SaidSoon(x, x', sends, hx);
      if x.down[0] == Says(hy) {
        assert add[|add| - 1] == Confirms(key, hx, hy);
        ConfirmBehindHello(Wire(x, y), add, Knows(y, hx), key, hx, hy);
      }
    }
    assert Owed(x', y, key, hx, hy);
  }

  lemma SaidSoon(x: Party, x': Party, sends: seq<Up>, hx: Hello)
    requires x.attempt.Some? && x'.attempt.Some?
    requires x'.attempt.value.sentHello && !x.attempt.value.sentHello ==> Pair(HelloMessage(hx)) in sends
    ensures x'.attempt.value.sentHello && !x.attempt.value.sentHello ==> Says(hx) in Relayed(sends)
  {
    if x'.attempt.value.sentHello && !x.attempt.value.sentHello {
      var i :| 0 <= i < |sends| && sends[i] == Pair(HelloMessage(hx));
      assert Relayed(sends)[i] == Says(hx);
    }
  }

  lemma ConfirmBehindHello(wire: seq<Down>, add: seq<Down>, known: bool, key: PairKey, hx: Hello, hy: Hello)
    requires add != [] && add[|add| - 1] == Confirms(key, hx, hy)
    requires known || Says(hx) in wire || HelloFirst(add, key, hx, hy)
    ensures known || Says(hx) in wire + add[..|add| - 1]
  {
    hide ConfirmationTag;
  }

  lemma HelloOnCourse(x: Party, y: Party, key: PairKey, hx: Hello, hy: Hello)
    requires OnCourse(x, y, key, hx, hy) && x.down != [] && x.attempt.Some? && x.down[0] == Says(hy)
    requires x.online && InRoom(x) && HasJoined(y, hy)
    ensures var x' := ClientStep(x, key); Stage(x', hx, hy) && Flow(x', y, key, hx, hy) && Flow(y, x', key, hy, hx)
  {
    hide ConfirmationTag, Inv;
    Tidied(x, y, key);
    var a, x' := x.attempt.value, ClientStep(x, key);
    HelloEffect(x, key, x', hy);
    var confirm := Pair(ConfirmMessage(ConfirmationTag(key, hx, hy)));
    var sends := FirstHello(a) + [confirm];
    assert AsDown(confirm) == Confirms(key, hx, hy);
    assert forall u :: u in sends ==> u == Pair(HelloMessage(hx)) || u == confirm;
    if !a.sentHello {
      assert Relayed(sends) == [Says(hx), Confirms(key, hx, hy)];
      assert Relayed(sends)[..1][0] == Says(hx);
    }
    TalkOnCourse(x, y, key, hx, hy, x', sends);
  }

  /** The confirmation fits, and the attempt ends paired with the hello it was made for. */
  lemma ConfirmOnCourse(x: Party, y: Party, key: PairKey, hx: Hello, hy: Hello)
    requires OnCourse(x, y, key, hx, hy) && x.down != [] && x.attempt.Some?
    requires x.down[0] == Confirms(key, hy, hx) && Knows(x, hy) && x.online && InRoom(x) && HasJoined(y, hy)
    ensures var x' := ClientStep(x, key); Stage(x', hx, hy) && Flow(x', y, key, hx, hy) && Flow(y, x', key, hy, hx)
  {
    hide ConfirmationTag, Inv, Answered, HelloFirst;
    Tidied(x, y, key);
    var x' := ClientStep(x, key);
    TagSymmetric(key, hx, hy);
    ConfirmEffect(x, key, x', ConfirmationTag(key, hy, hx));
    assert FirstHello(x.attempt.value) + [Leave] == [Leave];
    assert x'.up == x.up + [Leave] && (forall i :: 0 <= i < |x.up| ==> x.up[i] in x.up);
    assert Ending(x');
    WireSend(x, y, [Leave], x');
    WireTake(y, x, x');
    assert Relayed([Leave]) == [Other];
    assert forall d :: d in x'.down ==> d in x.down;
    OwedMore(Wire(x, y), [Other], Knows(y, hx), key, hx, hy);
    NoDebt([Other], key, hx, hy);
    assert forall d :: d in Wire(y, x') ==> d in Wire(y, x);
    assert Plain(Wire(y, x'), key, hy, hx);
  }

  // ---- whole runs ----

  lemma StepOnCourse(x: Party, y: Party, key: PairKey, hx: Hello, hy: Hello, e: Event)
    requires OnCourse(x, y, key, hx, hy) && !e.Abandon? && !e.Drop? && (e.Begin? ==> e.hello == hx)
    ensures OnCourse(Step(x, y, key, e).0, Step(x, y, key, e).1, key, hx, hy)
  {
    hide ConfirmationTag, Inv, Stage, Flow;
    StepKeeps(x, y, key, e);
    StepIds(x, y, key, e);
    match e
    case Begin(_) => BeginOnCourse(x, y, key, hx, hy);
    case Reconnect => ReconnectOnCourse(x, y, key, hx, hy);
    case ClientReceives => TakeOnCourse(x, y, key, hx, hy);
    case HubReceives =>
      if x.up != [] {
        match x.up[0]
        case Join => JoinOnCourse(x, y, key, hx, hy);
        case Leave => LeaveOnCourse(x, y, key, hx, hy);
        case Pair(_) => PairOnCourse(x, y, key, hx, hy);
      }
  }

  lemma {:induction false} RunOnCourse(a: Text, b: Text, key: PairKey, l: Hello, r: Hello, events: seq<(bool, Event)>)
    requires a != b && l.deviceId == a && r.deviceId == b && AllUndisturbed(l, r, events)
    ensures var w := Run(World(Fresh(a), Fresh(b)), key, events);
            OnCourse(w.left, w.right, key, l, r)
  {
    hide ConfirmationTag, OnCourse, Step;
    var start := World(Fresh(a), Fresh(b));
    if events == [] {
      FreshOnCourse(a, b, key, l, r);
    } else {
      var front, last := events[..|events| - 1], events[|events| - 1];
      RunOnCourse(a, b, key, l, r, front);
      var w := Run(start, key, front);
      if last.0 {
        StepOnCourse(w.left, w.right, key, l, r, last.1);
      } else {
        Mirrored(w.left, w.right, key, l, r);
        StepOnCourse(w.right, w.left, key, r, l, last.1);
        Mirrored(Step(w.right, w.left, key, last.1).0, Step(w.right, w.left, key, last.1).1, key, r, l);
      }
    }
  }

  lemma Mirrored(x: Party, y: Party, key: PairKey, hx: Hello, hy: Hello)
    requires OnCourse(x, y, key, hx, hy)
    ensures OnCourse(y, x, key, hy, hx)
  {
    hide Stage, Flow;
  }

  lemma FreshOnCourse(a: Text, b: Text, key: PairKey, l: Hello, r: Hello)
    requires a != b && l.deviceId == a && r.deviceId == b
    ensures OnCourse(Fresh(a), Fresh(b), key, l, r)
  {
    hide ConfirmationTag;
    RunKeeps(a, b, key, []);
    assert Wire(Fresh(a), Fresh(b)) == [] && Wire(Fresh(b), Fresh(a)) == [];
  }

  /**
    The end of an undisturbed pairing: whatever the order in which the two began and messages were taken, once both
    have begun, both sockets are up and no message is left, each device has stored exactly the other's hello
    against its own, both attempts are over, and nobody reported a different code.
   */
  lemma EndsPaired(a: Text, b: Text, key: PairKey, l: Hello, r: Hello, events: seq<(bool, Event)>)
    requires a != b && l.deviceId == a && r.deviceId == b && AllUndisturbed(l, r, events)
    ensures var w := Run(World(Fresh(a), Fresh(b)), key, events);
            && !w.left.refused && !w.right.refused && w.left.stored <= {(l, r)} && w.right.stored <= {(r, l)}
            && (l in w.left.used && r in w.right.used && w.left.online && w.right.online
                && Quiet(w.left) && Quiet(w.right) ==>
                  && w.left.attempt == None && w.right.attempt == None
                  && w.left.stored == {(l, r)} && w.right.stored == {(r, l)})
  {
    hide ConfirmationTag, Run, Inv;
    RunOnCourse(a, b, key, l, r, events);
    NeverDeadlocked(a, b, key, events);
    var w := Run(World(Fresh(a), Fresh(b)), key, events);
    if l in w.left.used && r in w.right.used && w.left.online && w.right.online && Quiet(w.left) && Quiet(w.right) {
      assert Wire(w.left, w.right) == [] && Wire(w.right, w.left) == [];
      assert w.left.attempt.Some? ==> w.left.inRoom;
      assert w.right.attempt.Some? ==> w.right.inRoom;
      assert !Answered(true, [], key, l, r) && !Answered(false, [], key, l, r);
      assert !Answered(true, [], key, r, l) && !Answered(false, [], key, r, l);
    }
  }

  // ---- and it does end ----

  function UpWeight(u: Up): nat {
    match u
    case Join => 13
    case Leave => 1
    case Pair(payload) => if payload.HelloMessage? then 5 else 3
  }

  function DownWeight(d: Down): nat {
    match d
    case Joined(_) => 6
    case FromPeer(payload) => if payload.HelloMessage? then 4 else 2
    case Other => 1
  }

  function UpWork(up: seq<Up>): nat {
    if up == [] then 0 else UpWork(up[..|up| - 1]) + UpWeight(up[|up| - 1])
  }

  function DownWork(down: seq<Down>): nat {
    if down == [] then 0 else DownWork(down[..|down| - 1]) + DownWeight(down[|down| - 1])
  }

  /** What there is left to take on one side, and what taking it may still give rise to. */
  function Work(x: Party): nat {
    UpWork(x.up) + DownWork(x.down) + if x.attempt.Some? && !x.attempt.value.sentHello then 8 else 0
  }

  lemma {:induction false} UpWorkSum(a: seq<Up>, b: seq<Up>)
    ensures UpWork(a + b) == UpWork(a) + UpWork(b)
  {
    if b == [] {
      assert a + b == a;
    } else {
      UpWorkSum(a, b[..|b| - 1]);
      assert (a + b)[..|a + b| - 1] == a + b[..|b| - 1];
    }
  }

  lemma {:induction false} DownWorkSum(a: seq<Down>, b: seq<Down>)
    ensures DownWork(a + b) == DownWork(a) + DownWork(b)
  {
    if b == [] {
      assert a + b == a;
    } else {
      DownWorkSum(a, b[..|b| - 1]);
      assert (a + b)[..|a + b| - 1] == a + b[..|b| - 1];
    }
  }

  lemma UpWorkFirst(up: seq<Up>)
    requires up != []
    ensures UpWork(up) == UpWeight(up[0]) + UpWork(up[1..])
  {
    assert up == [up[0]] + up[1..] && [up[0]][..0] == [];
    UpWorkSum([up[0]], up[1..]);
  }

  lemma DownWorkFirst(down: seq<Down>)
    requires down != []
    ensures DownWork(down) == DownWeight(down[0]) + DownWork(down[1..])
  {
    assert down == [down[0]] + down[1..] && [down[0]][..0] == [];
    DownWorkSum([down[0]], down[1..]);
  }

  lemma Singles(u: Up, v: Up, d: Down)
    ensures UpWork([u]) == UpWeight(u) && UpWork([u, v]) == UpWeight(u) + UpWeight(v) && DownWork([d]) == DownWeight(d)
  {
    assert [u][..0] == [] && [u, v][..1] == [u] && [d][..0] == [];
  }

  /** The hub taking a message leaves less to do than there was, even where it tells both sides of a join. */
  lemma HubLessens(x: Party, y: Party)
    requires x.up != []
    ensures var (x', y') := HubStep(x, y); Work(x') + Work(y') < Work(x) + Work(y)
  {
    hide UpWork, DownWork;
    UpWorkFirst(x.up);
    var (x', y') := HubStep(x, y);
    if x'.down != x.down {
      var d := x'.down[|x.down|];
      DownWorkSum(x.down, [d]);
      Singles(Join, Join, d);
    }
    if y'.down != y.down {
      var d := y'.down[|y.down|];
      DownWorkSum(y.down, [d]);
      Singles(Join, Join, d);
    }
  }

  /** And so does a side taking one, whatever it is moved to send. */
  lemma ClientLessens(x: Party, key: PairKey)
    requires x.down != [] && (x.attempt.Some? ==> x.attempt.value.outcome.Waiting?)
    ensures Work(ClientStep(x, key)) < Work(x)
  {
    hide UpWork, DownWork, ConfirmationTag, OnJoined, OnPeer;
    DownWorkFirst(x.down);
    if x.attempt.Some? && !x.down[0].Other? {
      var a := x.attempt.value;
      var r := if x.down[0].Joined? then OnJoined(a, x.down[0].occupants) else OnPeer(a, key, x.down[0].payload);
      ReactionWork(a, key, x.down[0]);
      UpWorkSum(x.up, r.sends);
    }
  }

  /** What a handler sends weighs less than what it took and what it used up. */
  lemma ReactionWork(a: Attempt, key: PairKey, d: Down)
    requires a.outcome.Waiting? && !d.Other?
    ensures var r := if d.Joined? then OnJoined(a, d.occupants) else OnPeer(a, key, d.payload);
            UpWork(r.sends) + (if r.attempt.outcome.Waiting? && !r.attempt.sentHello then 8 else 0)
            < DownWeight(d) + if a.sentHello then 0 else 8
  {
    hide UpWork, ConfirmationTag;
    NoUpWork();
    var hello := Pair(HelloMessage(a.hello));
    Singles(hello, Leave, Other);
    if d.FromPeer? {
      var first := if a.sentHello then [] else [hello];
      if d.payload.HelloMessage? {
        HelloReaction(a.(sentHello := true), key, d.payload.hello);
        UpWorkSum(first, OnHello(a.(sentHello := true), key, d.payload.hello).sends);
      } else {
        ConfirmReaction(a.(sentHello := true), key, d.payload.tag);
        UpWorkSum(first, OnConfirm(a.(sentHello := true), key, d.payload.tag).sends);
      }
    }
  }

  lemma NoUpWork()
    ensures UpWork([]) == 0
  {
  }

  lemma ConfirmReaction(a: Attempt, key: PairKey, tag: Tag)
    requires a.outcome.Waiting? && a.sentHello
    ensures UpWork(OnConfirm(a, key, tag).sends) <= 1 && OnConfirm(a, key, tag).attempt.sentHello
  {
    hide UpWork, ConfirmationTag;
    NoUpWork();
    Singles(Leave, Leave, Other);
  }

  lemma HelloReaction(a: Attempt, key: PairKey, hello: Hello)
    requires a.outcome.Waiting? && a.sentHello
    ensures UpWork(OnHello(a, key, hello).sends) <= 3 && OnHello(a, key, hello).attempt.sentHello
  {
    hide UpWork, ConfirmationTag;
    NoUpWork();
    var tag := ConfirmationTag(key, a.hello, hello);
    Singles(Pair(ConfirmMessage(tag)), Leave, Other);
    Singles(Leave, Leave, Other);
    if a.myTag.Some? {
      Singles(Pair(ConfirmMessage(a.myTag.value)), Leave, Other);
    }
    assert [Pair(ConfirmMessage(tag))] + [] == [Pair(ConfirmMessage(tag))];
  }

  /** Taking messages comes to an end: each one taken leaves strictly less to do, in every state of every run. */
  lemma DeliveryEnds(a: Text, b: Text, key: PairKey, events: seq<(bool, Event)>, onLeft: bool)
    requires a != b
    ensures var w := Run(World(Fresh(a), Fresh(b)), key, events);
            var x, y := if onLeft then w.left else w.right, if onLeft then w.right else w.left;
            && (x.up != [] ==>
                  var (x', y') := Step(x, y, key, HubReceives); Work(x') + Work(y') < Work(x) + Work(y))
            && (x.down != [] ==>
                  var (x', y') := Step(x, y, key, ClientReceives); Work(x') + Work(y') < Work(x) + Work(y))
  {
    hide ConfirmationTag, Work, Run, HubStep, ClientStep;
    RunKeeps(a, b, key, events);
    var w := Run(World(Fresh(a), Fresh(b)), key, events);
    var x, y := if onLeft then w.left else w.right, if onLeft then w.right else w.left;
    BothWays(w, key, onLeft);
    Tidied(x, y, key);
    if x.up != [] {
      HubLessens(x, y);
    }
    if x.down != [] {
      ClientLessens(x, key);
    }
  }
}
