/**
  What every event does to the signaling client, said flat: a host that calls back in the middle of the client's
  own steps does, as long as its calls do no harm, what it would have done by making its wishes known in order. On
  top of that, what a probe's deadline is about, as a matter of the history of a run.
 */
module SignalingMoves {
  import opened Common
  import opened Signaling

  // ---- calls that neither open nor close, all at once ----

  predicate Plain(c: Client, call: HostCall) {
    call != DoClose && !MakesSocket(c, call)
  }

  predicate AllPlain(c: Client, calls: seq<HostCall>) {
    forall i :: 0 <= i < |calls| ==> Plain(c, calls[i])
  }

  predicate IsOpen(c: Client) {
    c.socket.Some? && c.socket.value.state.Open?
  }

  /** What a call says on an open socket: only words to peers before the client is ready. */
  function WordOf(ready: bool, call: HostCall): seq<Up> {
    match call
    case DoSignal(to, payload) => [SignalUp(to, payload)]
    case DoSendPair(room, payload) => [PairUp(room, payload)]
    case DoWatch(peers) => if ready then [WatchUp(peers)] else []
    case DoJoin(room) => if ready then [JoinUp(room)] else []
    case DoLeave(room) => if ready then [LeaveUp(room)] else []
    case DoWake => if ready then [PingUp] else []
    case _ => []
  }

  function WordsOf(ready: bool, calls: seq<HostCall>): seq<Up> {
    if calls == [] then [] else WordOf(ready, calls[0]) + WordsOf(ready, calls[1..])
  }

  function WaitersOf(calls: seq<HostCall>): set<WaiterId> {
    set i | 0 <= i < |calls| && calls[i].DoConnect? :: calls[i].waiter
  }

  function Speak(c: Client, words: seq<Up>): Option<Socket> {
    if IsOpen(c) then Some(c.socket.value.(sent := c.socket.value.sent + words)) else c.socket
  }

  /** Wishes, promises and words of all the calls; a probe if one of them wakes a ready client. */
  function Wish(c: Client, calls: seq<HostCall>): Client {
    c.(watching := WatchedAfter(c.watching, calls),
       rooms := RoomsAfter(c.rooms, calls),
       waiters := if c.ready then c.waiters else c.waiters + WaitersOf(calls),
       resolved := if c.ready then c.resolved + WaitersOf(calls) else c.resolved,
       socket := Speak(c, WordsOf(c.ready, calls)),
       pong := if c.ready && IsOpen(c) && DoWake in calls then Some(c.generation) else c.pong)
  }

  // ---- what each event does ----

  function FirstCalls(script: Script): seq<HostCall> {
    if script == [] then [] else script[0]
  }

  function SecondCalls(mail: nat, script: Script): seq<HostCall> {
    if mail > 0 && |script| > 1 then script[1] else []
  }

  /** A new socket under the next generation, its deadline running, and the wishes made while it connected. */
  function Opened(c: Client, script: Script): Client {
    var mine, calls := c.generation + 1, FirstCalls(script);
    c.(socket := Some(Socket(mine, Connecting, [])),
       made := c.made + {mine}, deadlines := c.deadlines + {mine}, generation := mine, ready := false,
       watching := WatchedAfter(c.watching, calls), rooms := RoomsAfter(c.rooms, calls),
       waiters := c.waiters + WaitersOf(calls))
  }

  /** The socket dead, its generation over, one more attempt due under the next. */
  function Down(c: Client, script: Script): Client
    requires c.socket.Some?
  {
    var calls := FirstCalls(script);
    c.(socket := Some(Speak(c, WordsOf(false, calls)).value.(state := Dead)),
       generation := c.generation + 1, ready := false, keepalive := false, pong := None,
       attempt := c.attempt + 1, sleeping := c.sleeping + multiset{c.generation + 1},
       watching := WatchedAfter(c.watching, calls), rooms := RoomsAfter(c.rooms, calls),
       waiters := c.waiters + WaitersOf(calls))
  }

  function JoinsOf(rooms: seq<RoomId>): seq<Up> {
    seq(|rooms|, i requires 0 <= i < |rooms| => JoinUp(rooms[i]))
  }

  function WatchOf(peers: seq<DeviceId>): seq<Up> {
    if peers == [] then [] else [WatchUp(peers)]
  }

  /** Ready: every wish said, in this order, the keepalive running, a probe out, every promise kept. */
  function Welcome(c: Client, mail: nat, script: Script): Client {
    var calls, more := FirstCalls(script), SecondCalls(mail, script);
    var watching, rooms := WatchedAfter(c.watching, calls), RoomsAfter(c.rooms, calls);
    c.(socket := Speak(c, WordsOf(true, calls) + WatchOf(watching) + JoinsOf(rooms) + WordsOf(true, more) + [PingUp]),
       ready := true, attempt := 0, keepalive := true, pong := Some(c.generation),
       watching := WatchedAfter(watching, more), rooms := RoomsAfter(rooms, more),
       waiters := {}, resolved := c.resolved + c.waiters + WaitersOf(calls) + WaitersOf(more))
  }

  function Closed(c: Client): Client {
    c.(socket := None, generation := c.generation + 1, ready := false, closed := true, keepalive := false,
       pong := None, waiters := {}, rejected := c.rejected + c.waiters)
  }

  /** A ping and a new deadline, on an open socket. */
  function Pinged(c: Client): Client {
    if IsOpen(c) then c.(socket := Speak(c, [PingUp]), pong := Some(c.generation)) else c
  }

  predicate Hears(c: Client, mine: nat) {
    IsOpen(c) && c.socket.value.mine == mine == c.generation
  }

  function MovedByHost(c: Client, call: HostCall, script: Script): Client {
    if call == DoClose then Closed(c)
    else if !MakesSocket(c, call) then Wish(c, [call])
    else if call == DoWake then Opened(c.(generation := c.generation + 1, attempt := 0), script)
    else Opened(c, script).(waiters := Opened(c, script).waiters + {call.waiter})
  }

  /** The client after anything that happens, the host calling close() from inside a notification aside. */
  function Moved(c: Client, e: Event): Client {
    match e
    case Host(call, script) => MovedByHost(c, call, script)
    case Opens(mine) =>
      if c.socket.Some? && c.socket.value.mine == mine && c.socket.value.state.Connecting?
      then c.(socket := Some(c.socket.value.(state := Open))) else c
    case Dies(mine) =>
      if c.socket.Some? && c.socket.value.mine == mine then c.(socket := Some(c.socket.value.(state := Dead))) else c
    case HearsChallenge(mine) => if Hears(c, mine) then c.(socket := Speak(c, [AuthUp]), pong := None) else c
    case HearsReady(mine, mail, script) => if Hears(c, mine) then Welcome(c, mail, script) else c
    case HearsOther(mine) => if Hears(c, mine) then c.(pong := None) else c
    case SocketCloses(mine, script) =>
      if SocketNow(c) && mine == c.generation
      then Down(c.(socket := Some(c.socket.value.(state := Dead))), script) else c
    case HandshakeTimeout(mine, script) =>
      var fired := c.(deadlines := c.deadlines - {mine});
      if mine in c.deadlines && mine == c.generation && !c.ready && c.socket.Some? then Down(fired, script) else fired
    case PongTimeout(script) => if c.pong.Some? && c.socket.Some? then Down(c, script) else c
    case KeepaliveTick => if c.ready then Pinged(c) else c
    case SleepOver(scheduled, script) =>
      var due := c.(sleeping := c.sleeping - multiset{scheduled});
      if scheduled in c.sleeping && scheduled == c.generation && !c.closed then Opened(due, script) else due
  }

  /** The host calls close() in the middle of this event. */
  predicate ClosesInside(c: Client, e: Event) {
    match e
    case HearsReady(mine, mail, script) =>
      Hears(c, mine) && (DoClose in FirstCalls(script) || DoClose in SecondCalls(mail, script))
    case SocketCloses(mine, script) => SocketNow(c) && mine == c.generation && DoClose in FirstCalls(script)
    case HandshakeTimeout(mine, script) =>
      mine in c.deadlines && mine == c.generation && !c.ready && DoClose in FirstCalls(script)
    case PongTimeout(script) => c.pong.Some? && DoClose in FirstCalls(script)
    case _ => false
  }

  // ---- proofs ----

  lemma WaitersOfMore(call: HostCall, calls: seq<HostCall>)
    ensures WaitersOf([call] + calls) == WaitersOf([call]) + WaitersOf(calls)
    ensures WaitersOf([call]) == if call.DoConnect? then {call.waiter} else {}
  {
    var all := [call] + calls;
    forall w
      ensures w in WaitersOf(all) <==> w in WaitersOf([call]) + WaitersOf(calls)
    {
      if w in WaitersOf(calls) {
        var i :| 0 <= i < |calls| && calls[i].DoConnect? && calls[i].waiter == w;
        assert all[i + 1] == calls[i];
      }
      if w in WaitersOf([call]) {
        assert all[0] == call;
      }
    }
    if call.DoConnect? {
      assert [call][0].waiter in WaitersOf([call]);
    }
  }

  lemma OneWish(c: Client, call: HostCall, script: Script)
    requires Plain(c, call) && (c.closed ==> !c.ready)
    ensures Perform(c, call, script) == After(Wish(c, [call]), script)
  {
    hide OpenSocket, Added, Removed;
    WaitersOfMore(call, []);
    assert [call] + [] == [call] && [call][1..] == [];
    assert WordsOf(c.ready, [call]) == WordOf(c.ready, call);
    assert WatchedAfter(c.watching, [call]) == if call.DoWatch? then call.peers else c.watching;
    assert c.waiters + {} == c.waiters && c.resolved + {} == c.resolved;
    assert c.socket.Some? ==> c.socket.value.sent + [] == c.socket.value.sent;
    assert RoomsAfter(c.rooms, [call]) ==
           if call.DoJoin? then Added(c.rooms, call.room)
           else if call.DoLeave? then Removed(c.rooms, call.room) else c.rooms;
    assert DoWake in [call] <==> call == DoWake;
    match call
    case DoConnect(waiter) =>
      if c.closed {
        ShutOpens(c, script);
      }
    case DoWake => assert Perform(c, call, script) == WakeUp(c, script);
    case _ =>
  }

  lemma {:induction false} WishMore(c: Client, call: HostCall, calls: seq<HostCall>)
    ensures Wish(Wish(c, [call]), calls) == Wish(c, [call] + calls)
  {
    hide WordOf, Added, Removed, WatchedAfter, RoomsAfter;
    assert [call][1..] == [] && ([call] + calls)[1..] == calls;
    WaitersOfMore(call, calls);
    AfterMore(c, call, calls);
    assert WordsOf(c.ready, [call] + calls) == WordsOf(c.ready, [call]) + WordsOf(c.ready, calls);
    assert c.waiters + WaitersOf([call]) + WaitersOf(calls) == c.waiters + WaitersOf([call] + calls);
    assert c.resolved + WaitersOf([call]) + WaitersOf(calls) == c.resolved + WaitersOf([call] + calls);
    if IsOpen(c) {
      Associative(c.socket.value.sent, WordsOf(c.ready, [call]), WordsOf(c.ready, calls));
    }
  }

  lemma AfterMore(c: Client, call: HostCall, calls: seq<HostCall>)
    ensures WatchedAfter(WatchedAfter(c.watching, [call]), calls) == WatchedAfter(c.watching, [call] + calls)
    ensures RoomsAfter(RoomsAfter(c.rooms, [call]), calls) == RoomsAfter(c.rooms, [call] + calls)
  {
    hide Added, Removed;
    assert [call][1..] == [] && ([call] + calls)[1..] == calls;
  }

  lemma WishNone(c: Client)
    ensures Wish(c, []) == c
  {
    assert WaitersOf([]) == {};
    assert c.waiters + {} == c.waiters && c.resolved + {} == c.resolved;
    assert c.socket.Some? ==> c.socket.value.sent + [] == c.socket.value.sent;
  }

  /** Any number of such calls, made one after another inside a notification, amount to the wishes in order. */
  lemma {:induction false} Wishes(c: Client, calls: seq<HostCall>, script: Script)
    requires AllPlain(c, calls) && (c.closed ==> !c.ready)
    ensures Calls(c, calls, script) == After(Wish(c, calls), script)
    decreases |calls|
  {
    hide Perform, Wish;
    if calls == [] {
      WishNone(c);
    } else {
      assert Plain(c, calls[0]);
      OneWish(c, calls[0], script);
      var first := Wish(c, [calls[0]]);
      WishPlain(c, [calls[0]]);
      assert forall i :: 0 <= i < |calls[1..]| ==> calls[1..][i] == calls[i + 1];
      Wishes(first, calls[1..], script);
      WishMore(c, calls[0], calls[1..]);
      assert calls == [calls[0]] + calls[1..];
    }
  }

  lemma WishPlain(c: Client, calls: seq<HostCall>)
    ensures var w := Wish(c, calls);
            && w.closed == c.closed && w.ready == c.ready && w.socket.Some? == c.socket.Some?
            && w == c.(watching := WatchedAfter(c.watching, calls), rooms := RoomsAfter(c.rooms, calls),
                       waiters := w.waiters, resolved := w.resolved, socket := w.socket, pong := w.pong)
    ensures forall call :: MakesSocket(Wish(c, calls), call) == MakesSocket(c, call)
  {
  }

  lemma Told(c: Client, script: Script)
    requires AllPlain(c, FirstCalls(script)) && (c.closed ==> !c.ready)
    ensures Notify(c, script) == After(Wish(c, FirstCalls(script)), if script == [] then [] else script[1..])
  {
    hide Calls, Wish, AllPlain;
    if script == [] {
      WishNone(c);
    } else {
      Wishes(c, script[0], script[1..]);
    }
  }

  lemma OpenMoved(c: Client, script: Script)
    requires Idle(c) && !c.closed && ConnectingOk(script, c.socket.None?)
    ensures OpenSocket(c, script).client == Opened(c, script)
  {
    hide Notify, WatchedAfter, RoomsAfter, WordsOf;
    var b := Bumped(c);
    forall i | 0 <= i < |FirstCalls(script)|
      ensures Plain(b, FirstCalls(script)[i])
    {
      assert !Reopens(script[0][i], c.socket.None?);
    }
    Told(b, script);
  }

  lemma LostMoved(c: Client, script: Script)
    requires Started(c) && !c.closed && DoWake !in FirstCalls(script) && DoClose !in FirstCalls(script)
    ensures CloseSocket(Lost(c, script)) == Down(c, script)
    ensures c.socket.value.state.Dead? ==> Lost(c, script) == Down(c, script)
    ensures Abandon(c, script) == Down(c, script)
  {
    hide Notify, WatchedAfter, RoomsAfter, WordsOf;
    Told(GoOffline(c), script);
  }

  lemma {:induction false} JoinsSaid(c: Client, rooms: seq<RoomId>)
    requires IsOpen(c)
    ensures SendJoins(c, rooms) == c.(socket := Speak(c, JoinsOf(rooms)))
  {
    if rooms == [] {
      assert c.socket.value.sent + [] == c.socket.value.sent;
    } else {
      var front, last := rooms[..|rooms| - 1], rooms[|rooms| - 1];
      JoinsSaid(c, front);
      assert JoinsOf(rooms) == JoinsOf(front) + [JoinUp(last)];
      Associative(c.socket.value.sent, JoinsOf(front), [JoinUp(last)]);
    }
  }

  lemma ReassertSaid(c: Client)
    requires IsOpen(c)
    ensures Reassert(c) == c.(socket := Speak(c, WatchOf(c.watching) + JoinsOf(c.rooms)))
  {
    hide JoinsOf, SendJoins;
    var watched := if c.watching == [] then c else Send(c, WatchUp(c.watching));
    JoinsSaid(watched, c.rooms);
    assert watched.socket.value.sent == c.socket.value.sent + WatchOf(c.watching);
    Associative(c.socket.value.sent, WatchOf(c.watching), JoinsOf(c.rooms));
  }

  lemma SpeakTwice(c: Client, first: seq<Up>, second: seq<Up>)
    ensures Speak(c.(socket := Speak(c, first)), second) == Speak(c, first + second)
  {
    if IsOpen(c) {
      Associative(c.socket.value.sent, first, second);
    }
  }

  lemma WelcomeMoved(c: Client, mail: nat, script: Script)
    requires IsOpen(c) && !c.closed && DoClose !in FirstCalls(script) && DoClose !in SecondCalls(mail, script)
    ensures BecomeReady(c, mail, script) == Welcome(c, mail, script)
  {
    hide Notify, WatchedAfter, RoomsAfter, WordsOf, Reassert, JoinsOf;
    var calls, more := FirstCalls(script), SecondCalls(mail, script);
    var c0 := MarkReady(c);
    Told(c0, script);
    var told := Wish(c0, calls);
    ReassertSaid(told);
    var said := Reassert(told);
    if mail > 0 {
      Told(said, if script == [] then [] else script[1..]);
    } else {
      WishNone(said);
    }
    var heard := Wish(said, more);
    assert c.resolved + WaitersOf(calls) + WaitersOf(more) + c.waiters
        == c.resolved + c.waiters + WaitersOf(calls) + WaitersOf(more);
    var words, last := WordsOf(true, calls), WordsOf(true, more);
    var asserted := WatchOf(told.watching) + JoinsOf(told.rooms);
    SpeakTwice(c, words, asserted);
    SpeakTwice(c, words + asserted, last);
    SpeakTwice(c, words + asserted + last, [PingUp]);
    assert words + asserted == words + WatchOf(told.watching) + JoinsOf(told.rooms);
  }

  // ---- every event ----

  lemma HostMoved(c: Client, call: HostCall, script: Script)
    requires Sound(c) && Harmless(c, Host(call, script))
    ensures Perform(c, call, script).client == MovedByHost(c, call, script)
  {
    hide OpenSocket, Wish, Opened, ConnectingOk, Bounded;
    if call != DoClose {
      if MakesSocket(c, call) {
        if call == DoWake {
          var c1 := CloseSocket(c.(attempt := 0, generation := c.generation + 1));
          OpenMoved(c1, script);
          OpenedAnyway(c1, c.(attempt := 0, generation := c.generation + 1), script);
        } else {
          OpenMoved(c, script);
          OpenUnready(c, script);
        }
      } else {
        OneWish(c, call, script);
      }
    }
  }

  lemma OpenedAnyway(c: Client, d: Client, script: Script)
    requires c == d.(socket := c.socket)
    ensures Opened(c, script) == Opened(d, script)
  {
  }

  lemma OpenUnready(c: Client, script: Script)
    ensures !Opened(c, script).ready
  {
  }

  lemma DownMoved(c: Client, e: Event)
    requires Sound(c) && Harmless(c, e) && !ClosesInside(c, e)
    requires e.SocketCloses? || e.HandshakeTimeout? || e.PongTimeout?
    ensures Step(c, e) == Moved(c, e)
  {
    hide Lost, Abandon, Down, Bounded;
    match e
    case SocketCloses(mine, script) =>
      if On(c, mine) && Live(c, mine) {
        LostMoved(CloseSocket(c), script);
      }
    case HandshakeTimeout(mine, script) =>
      if mine in c.deadlines && Live(c, mine) && !c.ready {
        LostMoved(c.(deadlines := c.deadlines - {mine}), script);
      } else if mine !in c.deadlines {
        assert c.deadlines - {mine} == c.deadlines;
      }
    case PongTimeout(script) =>
      if c.pong.Some? {
        LostMoved(c.(pong := None), script);
        DownAnyway(c, script);
      }
  }

  lemma DownAnyway(c: Client, script: Script)
    requires c.socket.Some?
    ensures Down(c.(pong := None), script) == Down(c, script)
  {
  }

  lemma SleepMoved(c: Client, e: Event)
    requires Sound(c) && Harmless(c, e) && e.SleepOver?
    ensures Step(c, e) == Moved(c, e)
  {
    hide OpenSocket, Opened, Bounded, LiveSocket;
    var scheduled, script := e.scheduled, e.script;
    var due := c.(sleeping := c.sleeping - multiset{scheduled});
    if scheduled in c.sleeping && scheduled == c.generation {
      if c.closed {
        ShutOpens(due, script);
      } else {
        OpenMoved(due, script);
      }
    } else if scheduled !in c.sleeping {
      assert c.sleeping - multiset{scheduled} == c.sleeping;
    }
  }

  /** From every state in order, with the host's calls doing no harm and not ending the client in the middle of it. */
  lemma {:induction false} StepMoves(c: Client, e: Event)
    requires Sound(c) && Harmless(c, e) && !ClosesInside(c, e)
    ensures Step(c, e) == Moved(c, e)
  {
    hide BecomeReady, Lost, Abandon, Perform, OpenSocket, Welcome, Down, Opened, MovedByHost, Bounded, OfflineOk;
    hide ReadyOk, WatchedAfter, RoomsAfter, WordsOf, LiveSocket, ReconnectNow, MakesSocket;
    match e
    case Host(call, script) => HostMoved(c, call, script);
    case HearsReady(mine, mail, script) =>
      if Hears(c, mine) {
        WelcomeMoved(c.(pong := None), mail, script);
        WelcomeAnyway(c, mail, script);
      }
    case SleepOver(_, _) => SleepMoved(c, e);
    case SocketCloses(_, _) => DownMoved(c, e);
    case HandshakeTimeout(_, _) => DownMoved(c, e);
    case PongTimeout(_) => DownMoved(c, e);
    case _ =>
  }

  lemma WelcomeAnyway(c: Client, mail: nat, script: Script)
    ensures Welcome(c.(pong := None), mail, script) == Welcome(c, mail, script)
  {
  }

  /**
    Ended in the middle of a step: nothing held, nothing scheduled, every promise that waited rejected, and if the
    socket was lost, one made after the end as well.
   */
  lemma StepEnds(c: Client, e: Event)
    requires Sound(c) && Harmless(c, e) && ClosesInside(c, e)
    ensures Ended(Step(c, e)) && c.waiters <= Step(c, e).rejected
    ensures !e.HearsReady? ==> Step(c, e).waiters == {}
  {
    hide BecomeReady, Lost, Abandon, WatchedAfter, RoomsAfter;
    match e
    case HearsReady(mine, mail, script) => WelcomeEnds(Hear(c, mine).value, mail, script);
    case SocketCloses(mine, script) => LostEnds(CloseSocket(c), script);
    case HandshakeTimeout(mine, script) => LostEnds(c.(deadlines := c.deadlines - {mine}), script);
    case PongTimeout(script) => LostEnds(c.(pong := None), script);
  }

  lemma LostEnds(c: Client, script: Script)
    requires Losing(c) && DoClose in FirstCalls(script)
    ensures Ended(Lost(c, script)) && c.waiters <= Lost(c, script).rejected && Abandon(c, script) == Lost(c, script)
    ensures Lost(c, script).waiters == {}
  {
    hide Calls;
    BereftCalls(GoOffline(c), script[0], script[1..]);
    CallsGrow(GoOffline(c), script[0], script[1..]);
  }

  lemma WelcomeEnds(c: Client, mail: nat, script: Script)
    requires Sound(c) && SocketNow(c) && IsOpen(c) && ReadyOk(c, mail, script)
    requires DoClose in FirstCalls(script) || DoClose in SecondCalls(mail, script)
    ensures var c' := BecomeReady(c, mail, script); Ended(c') && c.waiters <= c'.rejected
  {
    hide Calls, Reassert, Settle, WatchedAfter, RoomsAfter;
    assert DoClose in script[0];
    SpeakingCalls(MarkReady(c), script[0], script[1..]);
  }

  // ---- over every run ----

  /**
    In every run in which the host does no harm, the next event leaves the client exactly as the table says: which
    socket is held and in which state, everything said on it, every timer, count, wish and promise.
   */
  lemma MovesExactly(events: seq<Event>, e: Event)
    requires AllHarmless(events) && Harmless(Run(events), e)
    ensures var c := Run(events);
            if ClosesInside(c, e) then
              && Ended(Step(c, e)) && c.waiters <= Step(c, e).rejected
              && (!e.HearsReady? ==> Step(c, e).waiters == {})
            else Step(c, e) == Moved(c, e)
  {
    hide Run, Step, Moved, Sound, Ended, Harmless, ClosesInside;
    RunSound(events);
    if ClosesInside(Run(events), e) {
      StepEnds(Run(events), e);
    } else {
      StepMoves(Run(events), e);
    }
  }

  /** A ping among the words said on the socket held since then. */
  predicate PingedSince(c: Client, c': Client)
    requires c.socket.Some? && c'.socket.Some?
  {
    exists i :: |c.socket.value.sent| <= i < |c'.socket.value.sent| && c'.socket.value.sent[i] == PingUp
  }

  /** A message arrives on the current socket while it is open. */
  predicate IsHeard(c: Client, e: Event) {
    (e.HearsChallenge? || e.HearsReady? || e.HearsOther?) && Hears(c, e.mine)
  }

  /** A ping went out on the current socket, and nothing has been heard on it since. */
  predicate Unanswered(events: seq<Event>) {
    events != [] &&
    var front, e := events[..|events| - 1], events[|events| - 1];
    var c, c' := Run(front), Run(events);
    && SocketNow(c) && SocketNow(c') && c.generation == c'.generation
    && (PingedSince(c, c') || (!IsHeard(c, e) && Unanswered(front)))
  }

  lemma {:induction false} PingWords(ready: bool, calls: seq<HostCall>)
    ensures PingUp in WordsOf(ready, calls) <==> ready && DoWake in calls
  {
    if calls != [] {
      PingWords(ready, calls[1..]);
      assert calls == [calls[0]] + calls[1..];
    }
  }

  lemma PingedWith(c: Client, c': Client, words: seq<Up>)
    requires IsOpen(c) && c'.socket.Some? && c'.socket.value.sent == c.socket.value.sent + words
    ensures PingedSince(c, c') <==> PingUp in words
  {
    var n := |c.socket.value.sent|;
    if PingUp in words {
      var i :| 0 <= i < |words| && words[i] == PingUp;
      assert c'.socket.value.sent[n + i] == PingUp;
    }
    if PingedSince(c, c') {
      var i :| n <= i < |c'.socket.value.sent| && c'.socket.value.sent[i] == PingUp;
      assert words[i - n] == PingUp;
    }
  }

  /** The deadline runs after an event when the event pinged, or when it ran before and the event did not answer it. */
  ghost predicate PongMoves(c: Client, c': Client, e: Event) {
    c'.pong.Some? <==>
      && SocketNow(c) && SocketNow(c') && c.generation == c'.generation
      && (PingedSince(c, c') || (!IsHeard(c, e) && c.pong.Some?))
  }

  lemma WishPongs(c: Client, call: HostCall, script: Script)
    requires Sound(c) && Plain(c, call)
    ensures PongMoves(c, Wish(c, [call]), Host(call, script))
  {
    hide WordsOf, Bounded, WatchedAfter, RoomsAfter, PingedSince;
    var c' := Wish(c, [call]);
    PingWords(c.ready, [call]);
    if IsOpen(c) {
      PingedWith(c, c', WordsOf(c.ready, [call]));
    } else if c.socket.Some? {
      NotPinged(c, c');
    }
  }

  lemma NotPinged(c: Client, c': Client)
    requires c.socket.Some? && c'.socket.Some? && c'.socket.value.sent == c.socket.value.sent
    ensures !PingedSince(c, c')
  {
  }

  lemma {:induction false} StepPongs(c: Client, e: Event)
    requires Sound(c) && Harmless(c, e) && !ClosesInside(c, e)
    ensures PongMoves(c, Moved(c, e), e)
  {
    hide WordsOf, Bounded, WatchedAfter, RoomsAfter, PingedSince, Harmless, ClosesInside, JoinsOf, WatchOf;
    hide Wish, WaitersOf;
    var c' := Moved(c, e);
    match e
    case Host(call, script) =>
      if call != DoClose && !MakesSocket(c, call) {
        WishPongs(c, call, script);
      }
    case HearsReady(mine, mail, script) =>
      if Hears(c, mine) {
        var calls, more := FirstCalls(script), SecondCalls(mail, script);
        var watching, rooms := WatchedAfter(c.watching, calls), RoomsAfter(c.rooms, calls);
        var words := WordsOf(true, calls) + WatchOf(watching) + JoinsOf(rooms) + WordsOf(true, more);
        PingedWith(c, c', words + [PingUp]);
      } else if c.socket.Some? {
        NotPinged(c, c');
      }
    case HearsChallenge(mine) =>
      if Hears(c, mine) {
        PingedWith(c, c', [AuthUp]);
      } else if c.socket.Some? {
        NotPinged(c, c');
      }
    case KeepaliveTick =>
      if c.ready && IsOpen(c) {
        PingedWith(c, c', [PingUp]);
      } else if c.socket.Some? {
        NotPinged(c, c');
      }
    case _ =>
      if c.socket.Some? && c'.socket.Some? && c'.socket.value.sent == c.socket.value.sent {
        NotPinged(c, c');
      }
  }

  /** A deadline for an answer runs exactly while a ping on the current socket has gone unanswered. */
  lemma {:induction false} DeadlineRuns(events: seq<Event>)
    requires AllHarmless(events)
    ensures Run(events).pong.Some? <==> Unanswered(events)
  {
    hide Step, Moved, Sound, Harmless, ClosesInside, PingedSince, IsHeard, Ended;
    if events != [] {
      var front, e := events[..|events| - 1], events[|events| - 1];
      assert forall i :: 0 <= i < |front| ==> front[..i] == events[..i];
      DeadlineRuns(front);
      assert Harmless(Run(events[..|events| - 1]), e);
      MovesExactly(front, e);
      RunSound(front);
      if ClosesInside(Run(front), e) {
        EndedQuiet(Step(Run(front), e));
      } else {
        StepPongs(Run(front), e);
      }
    }
  }

  lemma EndedQuiet(c: Client)
    requires Ended(c)
    ensures c.pong.None? && !SocketNow(c) && c.closed
  {
  }

  /**
    A probe's timeout gives the socket up if and only if a ping went out on the current socket and nothing has been
    heard on it since; otherwise the timeout finds nothing to do. And on an open socket a ready client pings at every
    tick of its keepalive and whenever it is woken.
   */
  lemma {:induction false} ProbesExactly(events: seq<Event>, script: Script)
    requires AllHarmless(events) && OfflineOk(script)
    ensures var c, c' := Run(events), Step(Run(events), PongTimeout(script));
            if Unanswered(events) then c'.generation > c.generation && !c'.ready && (c'.closed || ReconnectNow(c'))
            else c' == c
    ensures var c := Run(events);
            c.ready && IsOpen(c) ==>
              && Step(c, KeepaliveTick).socket == Some(c.socket.value.(sent := c.socket.value.sent + [PingUp]))
              && Step(c, KeepaliveTick).pong.Some?
              && Step(c, Host(DoWake, script)) == Step(c, KeepaliveTick)
  {
    hide Run, Abandon, Bounded, OfflineOk, Unanswered;
    DeadlineRuns(events);
    RunSound(events);
    var c := Run(events);
    if c.pong.Some? {
      TimeoutAbandons(c, script);
    }
    assert Perform(c, DoWake, script) == WakeUp(c, script);
  }

  lemma TimeoutAbandons(c: Client, script: Script)
    requires Sound(c) && c.pong.Some? && OfflineOk(script)
    ensures var c' := Abandon(c.(pong := None), script);
            c'.generation > c.generation && !c'.ready && (c'.closed || ReconnectNow(c'))
  {
    hide Calls, OfflineOk;
    var c1 := c.(pong := None);
    LosingExactly(c1, script);
    if script != [] {
      CallsGrow(GoOffline(c1), script[0], script[1..]);
    }
  }

  /** How often in a row the client has lost its socket since it was last ready or woken. */
  function Losses(events: seq<Event>): nat {
    if events == [] then 0
    else
      var front, e := events[..|events| - 1], events[|events| - 1];
      var c, c' := Run(front), Run(events);
      if c'.ready || (e.Host? && e.call == DoWake) then 0
      else if ReconnectNow(c') && c'.generation > c.generation then Losses(front) + 1
      else Losses(front)
  }

  lemma StepCounts(c: Client, e: Event)
    requires Sound(c) && Harmless(c, e) && !ClosesInside(c, e) && (c.ready ==> c.attempt == 0)
    ensures var c' := Moved(c, e);
            !c'.closed ==>
              c'.attempt ==
                if c'.ready || (e.Host? && e.call == DoWake) then 0
                else if ReconnectNow(c') && c'.generation > c.generation then c.attempt + 1
                else c.attempt
  {
    hide Harmless, ClosesInside, Wish, Speak, IsOpen, Hears, Opened, Down, Welcome, WatchedAfter, RoomsAfter;
    match e
    case Host(call, script) =>
      WishPlain(c, [call]);
      OpenCounts(c, script);
      OpenCounts(c.(generation := c.generation + 1, attempt := 0), script);
    case SleepOver(scheduled, script) => OpenCounts(c.(sleeping := c.sleeping - multiset{scheduled}), script);
    case SocketCloses(mine, script) =>
      if c.socket.Some? {
        DownCounts(c.(socket := Some(c.socket.value.(state := Dead))), script);
      }
    case HandshakeTimeout(mine, script) =>
      if c.socket.Some? {
        DownCounts(c.(deadlines := c.deadlines - {mine}), script);
      }
    case PongTimeout(script) =>
      if c.socket.Some? {
        DownCounts(c, script);
      }
    case HearsReady(_, mail, script) => WelcomeCounts(c, mail, script);
    case _ =>
  }

  lemma OpenCounts(c: Client, script: Script)
    requires c.generation + 1 !in c.sleeping
    ensures var c' := Opened(c, script);
            !ReconnectNow(c') && !c'.ready && c'.attempt == c.attempt && c'.closed == c.closed
  {
    hide WatchedAfter, RoomsAfter, WaitersOf;
  }

  lemma DownCounts(c: Client, script: Script)
    requires c.socket.Some?
    ensures var c' := Down(c, script);
            && ReconnectNow(c') && !c'.ready && c'.attempt == c.attempt + 1 && c'.closed == c.closed
            && c'.generation > c.generation
  {
    hide WatchedAfter, RoomsAfter, WaitersOf, WordsOf;
  }

  lemma WelcomeCounts(c: Client, mail: nat, script: Script)
    ensures var c' := Welcome(c, mail, script); c'.ready && c'.attempt == 0
  {
    hide WatchedAfter, RoomsAfter, WaitersOf, WordsOf, JoinsOf;
  }

  lemma StaysClosed(c: Client, e: Event)
    requires !Moved(c, e).closed
    ensures !c.closed
  {
    hide WordsOf, WatchedAfter, RoomsAfter, JoinsOf, WatchOf, WaitersOf;
  }

  lemma ReadyLosses(events: seq<Event>)
    ensures Run(events).ready ==> Losses(events) == 0
  {
    hide Step;
  }

  /** The count that the pause before the next attempt doubles by: losses in a row. */
  lemma {:induction false} AttemptsAreLosses(events: seq<Event>)
    requires AllHarmless(events) && !Run(events).closed
    ensures Run(events).attempt == Losses(events)
  {
    hide Step, Moved, Sound, Harmless, ClosesInside, Ended;
    if events != [] {
      var front, e := events[..|events| - 1], events[|events| - 1];
      assert forall i :: 0 <= i < |front| ==> front[..i] == events[..i];
      assert Harmless(Run(events[..|events| - 1]), e);
      MovesExactly(front, e);
      RunSound(front);
      if !ClosesInside(Run(front), e) {
        StaysClosed(Run(front), e);
        AttemptsAreLosses(front);
        ReadyLosses(front);
        StepCounts(Run(front), e);
      } else {
        EndedQuiet(Step(Run(front), e));
      }
    }
  }
}
