/**
  The client's end of the rendezvous socket: one socket at a time, a reconnect loop that never gives
  up, generation numbers that make late events harmless, and everything the hub has to know said
  again on every new socket. The host is told of every change while it happens and may call back in
  from there; how those calls fall into the middle of the client's own steps is part of the model.
  The client is a value moved on by events; the class at the end is its own object, tied to it.
 */
module Signaling {
  import opened Common
  import Hub

  type DeviceId = nat
  type RoomId = string
  type WaiterId = nat

  type Payload = nat

  datatype Up =
    | AuthUp
    | WatchUp(peers: seq<DeviceId>)
    | JoinUp(room: RoomId)
    | LeaveUp(room: RoomId)
    | SignalUp(to: DeviceId, payload: Payload)
    | PairUp(room: RoomId, payload: Payload)
    | PingUp

  datatype SocketState = Connecting | Open | Dead

  /** One socket, the generation it was opened for, and everything sent on it. */
  datatype Socket = Socket(mine: nat, state: SocketState, sent: seq<Up>)

  /**
    `socket` is the socket held, `made` the generations of all that were ever made. `keepalive` is the
    interval timer, `pong` the deadline of a probe with the generation it was made in, `deadlines` the
    handshake timers not yet fired and `sleeping` the reconnects not yet due, each by the generation it
    carries. `rooms` keeps insertion order, as a Set does. Waiters are the promises handed out by
    connect(); `resolved` and `rejected` record those settled.
   */
  datatype Client = Client(
    socket: Option<Socket>,
    made: set<nat>,
    generation: nat,
    ready: bool,
    closed: bool,
    attempt: nat,
    keepalive: bool,
    pong: Option<nat>,
    deadlines: set<nat>,
    sleeping: multiset<nat>,
    watching: seq<DeviceId>,
    rooms: seq<RoomId>,
    waiters: set<WaiterId>,
    resolved: set<WaiterId>,
    rejected: set<WaiterId>)

  const FRESH := Client(None, {}, 0, false, false, 0, false, None, {}, multiset{}, [], [], {}, {}, {})

  /** What a host can call, at any time and from inside any notification. */
  datatype HostCall =
    | DoConnect(waiter: WaiterId)
    | DoWatch(peers: seq<DeviceId>)
    | DoJoin(room: RoomId)
    | DoLeave(room: RoomId)
    | DoSignal(to: DeviceId, payload: Payload)
    | DoSendPair(room: RoomId, payload: Payload)
    | DoWake
    | DoClose

  /** The calls a host makes inside the notifications of one event: a list for each, in the order they come. */
  type Script = seq<seq<HostCall>>

  /** What the host calls, what the socket and the timers do. */
  datatype Event =
    | Host(call: HostCall, script: Script)
    | Opens(mine: nat)
    | Dies(mine: nat)
    | HearsChallenge(mine: nat)
    | HearsReady(mine: nat, mail: nat, script: Script)
    | HearsOther(mine: nat)
    | SocketCloses(mine: nat, script: Script)
    | HandshakeTimeout(mine: nat, script: Script)
    | PongTimeout(script: Script)
    | KeepaliveTick
    | SleepOver(scheduled: nat, script: Script)

  /** The client after a step, and what is left of the script. */
  datatype After = After(client: Client, script: Script)

  predicate Live(c: Client, mine: nat) {
    mine == c.generation
  }

  /** The event comes from the socket held now; earlier sockets have earlier generations and are not heard. */
  predicate On(c: Client, mine: nat) {
    c.socket.Some? && c.socket.value.mine == mine
  }

  // ---- the pieces ----

  function Flush(c: Client, ok: bool): Client {
    if ok then c.(waiters := {}, resolved := c.resolved + c.waiters)
    else c.(waiters := {}, rejected := c.rejected + c.waiters)
  }

  /** Sending on a socket that is not open throws; nothing is sent. */
  function Send(c: Client, m: Up): Client {
    if c.socket.None? || !c.socket.value.state.Open? then c
    else c.(socket := Some(c.socket.value.(sent := c.socket.value.sent + [m])))
  }

  function StopKeepalive(c: Client): Client {
    c.(keepalive := false, pong := None)
  }

  function Probe(c: Client): Client {
    if !c.ready || c.socket.None? || !c.socket.value.state.Open? then c
    else Send(c, PingUp).(pong := Some(c.generation))
  }

  function CloseSocket(c: Client): Client {
    if c.socket.None? then c else c.(socket := Some(c.socket.value.(state := Dead)))
  }

  function Added(rooms: seq<RoomId>, room: RoomId): seq<RoomId> {
    if room in rooms then rooms else rooms + [room]
  }

  function Removed(rooms: seq<RoomId>, room: RoomId): seq<RoomId> {
    if rooms == [] then []
    else Removed(rooms[..|rooms| - 1], room) + if rooms[|rooms| - 1] == room then [] else [rooms[|rooms| - 1]]
  }

  function CallWatch(c: Client, peers: seq<DeviceId>): Client {
    var updated := c.(watching := peers);
    if c.ready then Send(updated, WatchUp(peers)) else updated
  }

  function CallJoin(c: Client, room: RoomId): Client {
    var added := c.(rooms := Added(c.rooms, room));
    if c.ready then Send(added, JoinUp(room)) else added
  }

  function CallLeave(c: Client, room: RoomId): Client {
    var removed := c.(rooms := Removed(c.rooms, room));
    if c.ready then Send(removed, LeaveUp(room)) else removed
  }

  /** The promise of connect() is settled at once or waits. */
  function Register(c: Client, waiter: WaiterId): Client {
    if c.ready then c.(resolved := c.resolved + {waiter}) else c.(waiters := c.waiters + {waiter})
  }

  function Retire(c: Client): Client {
    StopKeepalive(c.(closed := true, generation := c.generation + 1))
  }

  function CallClose(c: Client): Client {
    Flush(Retire(c), false).(socket := None, ready := false)
  }

  // ---- opening, and the host being told "connecting" in the middle of it ----

  function Bumped(c: Client): Client {
    c.(generation := c.generation + 1, ready := false)
  }

  /** The new socket takes its place whatever the host did meanwhile. */
  function Hold(c: Client, mine: nat): Client {
    c.(socket := Some(Socket(mine, Connecting, [])), deadlines := c.deadlines + {mine}, made := c.made + {mine})
  }

  function OpenSocket(c: Client, script: Script): (r: After)
    ensures |r.script| <= |script|
    decreases |script|, 1
  {
    if c.closed then After(c, script)
    else
      var told := Notify(Bumped(c), script);
      After(Hold(told.client, c.generation + 1), told.script)
  }

  /** One notification: the host makes the calls it has for it. */
  function Notify(c: Client, script: Script): (r: After)
    ensures |r.script| <= |script|
    decreases |script|, 0
  {
    if script == [] then After(c, script) else Calls(c, script[0], script[1..])
  }

  function WakeUp(c: Client, script: Script): (r: After)
    ensures |r.script| <= |script|
    decreases |script|, 2
  {
    if c.closed then After(c, script)
    else if c.ready then After(Probe(c), script)
    else OpenSocket(CloseSocket(c.(attempt := 0, generation := c.generation + 1)), script)
  }

  function Perform(c: Client, call: HostCall, script: Script): (r: After)
    ensures |r.script| <= |script|
    decreases |script|, 3
  {
    match call
    case DoConnect(waiter) =>
      var current := if c.socket.None? then OpenSocket(c, script) else After(c, script);
      After(Register(current.client, waiter), current.script)
    case DoWatch(peers) => After(CallWatch(c, peers), script)
    case DoJoin(room) => After(CallJoin(c, room), script)
    case DoLeave(room) => After(CallLeave(c, room), script)
    case DoSignal(to, payload) => After(Send(c, SignalUp(to, payload)), script)
    case DoSendPair(room, payload) => After(Send(c, PairUp(room, payload)), script)
    case DoWake => WakeUp(c, script)
    case DoClose => After(CallClose(c), script)
  }

  function Calls(c: Client, calls: seq<HostCall>, script: Script): (r: After)
    ensures |r.script| <= |script|
    decreases |script|, 4 + |calls|
  {
    if calls == [] then After(c, script)
    else
      var first := Perform(c, calls[0], script);
      Calls(first.client, calls[1..], first.script)
  }

  // ---- losing a socket, and the host being told "offline" in the middle of it ----

  function GoOffline(c: Client): Client {
    StopKeepalive(c.(generation := c.generation + 1, ready := false))
  }

  /** The reconnect is scheduled after the host was told, under whatever generation holds by then. */
  function Schedule(c: Client): Client {
    if c.closed then Flush(c, false)
    else c.(attempt := c.attempt + 1, sleeping := c.sleeping + multiset{c.generation})
  }

  function Lost(c: Client, script: Script): Client {
    Schedule(Notify(GoOffline(c), script).client)
  }

  /** The socket given up on is closed afterwards, unless it has been replaced meanwhile. */
  function Abandon(c: Client, script: Script): Client {
    var lost := Lost(c, script);
    if c.socket.Some? && On(lost, c.socket.value.mine) then CloseSocket(lost) else lost
  }

  // ---- becoming ready, and the host being told "ready" and of its mail in the middle of it ----

  function SendJoins(c: Client, rooms: seq<RoomId>): Client {
    if rooms == [] then c else Send(SendJoins(c, rooms[..|rooms| - 1]), JoinUp(rooms[|rooms| - 1]))
  }

  /** Everything the last socket's connection knew is said again. */
  function Reassert(c: Client): Client {
    SendJoins(if c.watching == [] then c else Send(c, WatchUp(c.watching)), c.rooms)
  }

  function MarkReady(c: Client): Client {
    c.(attempt := 0, ready := true)
  }

  function StartKeepalive(c: Client): Client {
    c.(keepalive := true, pong := None)
  }

  function Settle(c: Client): Client {
    Flush(Probe(StartKeepalive(c)), true)
  }

  /** Re-asserting throws, and ends the handler, when there is something to say and no socket left to say it on. */
  predicate Throws(c: Client) {
    c.socket.None? && (c.watching != [] || c.rooms != [])
  }

  function BecomeReady(c: Client, mail: nat, script: Script): Client {
    var told := Notify(MarkReady(c), script);
    if Throws(told.client) then told.client
    else
      var said := Reassert(told.client);
      Settle(if mail > 0 then Notify(said, told.script).client else said)
  }

  // ---- the events ----

  /** A message counts only on the current socket, and answers any probe. */
  function Hear(c: Client, mine: nat): Option<Client> {
    if !On(c, mine) || !Live(c, mine) || !c.socket.value.state.Open? then None else Some(c.(pong := None))
  }

  function Step(c: Client, e: Event): Client {
    match e
    case Host(call, script) => Perform(c, call, script).client
    case Opens(mine) =>
      if On(c, mine) && c.socket.value.state.Connecting?
      then c.(socket := Some(c.socket.value.(state := Open))) else c
    case Dies(mine) => if On(c, mine) then CloseSocket(c) else c
    case HearsChallenge(mine) => if Hear(c, mine).Some? then Send(Hear(c, mine).value, AuthUp) else c
    case HearsReady(mine, mail, script) =>
      if Hear(c, mine).Some? then BecomeReady(Hear(c, mine).value, mail, script) else c
    case HearsOther(mine) => if Hear(c, mine).Some? then Hear(c, mine).value else c
    case SocketCloses(mine, script) => if On(c, mine) && Live(c, mine) then Lost(CloseSocket(c), script) else c
    case HandshakeTimeout(mine, script) =>
      if mine !in c.deadlines then c
      else
        var fired := c.(deadlines := c.deadlines - {mine});
        if Live(c, mine) && !c.ready then Abandon(fired, script) else fired
    case PongTimeout(script) =>
      if c.pong.None? then c
      else
        var fired := c.(pong := None);
        if c.pong.value == c.generation then Abandon(fired, script) else fired
    case KeepaliveTick => if c.keepalive then Probe(c) else c
    case SleepOver(scheduled, script) =>
      if c.sleeping[scheduled] == 0 then c
      else
        var due := c.(sleeping := c.sleeping - multiset{scheduled});
        if scheduled == c.generation then OpenSocket(due, script).client else due
  }

  function Run(events: seq<Event>): Client {
    if events == [] then FRESH else Step(Run(events[..|events| - 1]), events[|events| - 1])
  }

  // ---- never stuck, never doubled ----

  predicate Started(c: Client) {
    c.socket.Some?
  }

  /** The socket held is the current one. */
  predicate SocketNow(c: Client) {
    c.socket.Some? && c.socket.value.mine == c.generation
  }

  /** Some socket, held or not, would be heard. */
  predicate LiveSocket(c: Client) {
    c.generation in c.made
  }

  /** Some scheduled reconnect would be heeded. */
  predicate ReconnectNow(c: Client) {
    c.generation in c.sleeping
  }

  /**
    What the reconnect loop is for: between the first socket and close() there is one live socket, which
    is the one held, or one reconnect that will be heeded, and never both; an unready socket has its
    handshake timer running, the keepalive runs exactly while ready, and a closed client holds no socket.
   */
  predicate Orderly(c: Client) {
    && (Started(c) ==> !c.closed && LiveSocket(c) != ReconnectNow(c) && c.sleeping[c.generation] <= 1)
    && (LiveSocket(c) ==> SocketNow(c))
    && (!Started(c) ==> !ReconnectNow(c) && !c.ready)
    && (SocketNow(c) && !c.ready ==> c.generation in c.deadlines)
    && (c.ready ==> SocketNow(c)) && (c.keepalive <==> c.ready)
  }

  /** No generation is ahead of the client's. */
  ghost predicate Bounded(c: Client) {
    && (c.socket.Some? ==> c.socket.value.mine <= c.generation)
    && (forall g :: g in c.sleeping ==> g <= c.generation)
    && (forall g :: g in c.deadlines ==> g <= c.generation)
    && (forall g :: g in c.made ==> g <= c.generation)
  }

  ghost predicate Sound(c: Client) {
    && Orderly(c) && Bounded(c)
    && (SocketNow(c) ==> LiveSocket(c))
    && (!Started(c) ==> c.generation !in c.deadlines)
    && (c.pong.Some? ==> c.ready && c.pong.value == c.generation)
    && (c.ready ==> c.waiters == {})
  }

  // ---- which calls from inside a notification do harm ----

  function WatchedAfter(watching: seq<DeviceId>, calls: seq<HostCall>): seq<DeviceId>
    decreases |calls|
  {
    if calls == [] then watching
    else WatchedAfter(if calls[0].DoWatch? then calls[0].peers else watching, calls[1..])
  }

  function RoomsAfter(rooms: seq<RoomId>, calls: seq<HostCall>): seq<RoomId>
    decreases |calls|
  {
    if calls == [] then rooms
    else RoomsAfter(if calls[0].DoJoin? then Added(rooms, calls[0].room)
                    else if calls[0].DoLeave? then Removed(rooms, calls[0].room)
                    else rooms, calls[1..])
  }

  /** A call that would replace the socket being opened, or end the client, before that socket is in place. */
  predicate Reopens(call: HostCall, unopened: bool) {
    call.DoWake? || call.DoClose? || (unopened && call.DoConnect?)
  }

  /** While "connecting": nothing that opens or closes; connect() opens if no socket was ever held. */
  predicate ConnectingOk(script: Script, unopened: bool) {
    script == [] || forall i :: 0 <= i < |script[0]| ==> !Reopens(script[0][i], unopened)
  }

  /** While "offline": no wake(), unless close() is called as well. */
  predicate OfflineOk(script: Script) {
    script == [] || DoWake !in script[0] || DoClose in script[0]
  }

  /** While "ready" and while told of mail: no close(), unless re-asserting then has something to throw over. */
  predicate ReadyOk(c: Client, mail: nat, script: Script) {
    script == [] ||
    if DoClose in script[0] then WatchedAfter(c.watching, script[0]) != [] || RoomsAfter(c.rooms, script[0]) != []
    else mail == 0 || |script| == 1 || DoClose !in script[1]
  }

  /** The calls that open a socket. */
  predicate MakesSocket(c: Client, call: HostCall) {
    !c.closed && ((call.DoConnect? && c.socket.None?) || (call.DoWake? && !c.ready))
  }

  /** The host's calls from inside the notifications of this event, if it has any, do no harm. */
  predicate Harmless(c: Client, e: Event) {
    match e
    case Host(call, script) => MakesSocket(c, call) ==> ConnectingOk(script, c.socket.None?)
    case HearsReady(mine, mail, script) => Hear(c, mine).Some? ==> ReadyOk(c, mail, script)
    case SocketCloses(mine, script) => On(c, mine) && Live(c, mine) ==> OfflineOk(script)
    case HandshakeTimeout(mine, script) => mine in c.deadlines && Live(c, mine) && !c.ready ==> OfflineOk(script)
    case PongTimeout(script) => c.pong == Some(c.generation) ==> OfflineOk(script)
    case SleepOver(scheduled, script) =>
      c.sleeping[scheduled] > 0 && scheduled == c.generation && !c.closed ==> ConnectingOk(script, c.socket.None?)
    case _ => true
  }

  ghost predicate AllHarmless(events: seq<Event>) {
    forall i :: 0 <= i < |events| ==> Harmless(Run(events[..i]), events[i])
  }

  // ---- what calls can do to a client that is not ready ----

  /** One socket in one state, whatever was sent on it meanwhile. */
  predicate SameSocket(s: Option<Socket>, t: Option<Socket>) {
    match s
    case None => t == None
    case Some(socket) => t.Some? && t.value == socket.(sent := t.value.sent)
  }

  /** The client but for what it wants, who waits for it and what it sent. */
  ghost predicate SameButWishes(c: Client, c': Client) {
    && c' == c.(socket := c'.socket, watching := c'.watching, rooms := c'.rooms, waiters := c'.waiters)
    && SameSocket(c.socket, c'.socket)
  }

  /** Neither ready nor about to find out whether it still is. */
  predicate Idle(c: Client) {
    !c.ready && !c.keepalive && c.pong == None
  }

  /** A promise waits on, or was rejected because the client ended. */
  ghost predicate KeepsWaiters(c: Client, c': Client) {
    && c.rejected <= c'.rejected
    && forall w :: w in c.waiters && !c.closed ==> if c'.closed then w in c'.rejected else w in c'.waiters
  }

  /** Generations only grow, and one that grew belongs to a socket just made, unless the client is closed. */
  ghost predicate Grew(c: Client, c': Client) {
    && Idle(c') && c.generation <= c'.generation && c'.sleeping == c.sleeping
    && (c.closed ==> c'.closed) && c.made <= c'.made && (Bounded(c) ==> Bounded(c'))
    && (c.socket.Some? && !c'.closed ==> c'.socket.Some?)
    && (c'.generation == c.generation ==> SameButWishes(c, c'))
    && (c.generation < c'.generation ==> c'.closed || LiveSocket(c'))
    && KeepsWaiters(c, c')
  }

  lemma GrewOn(c: Client, d: Client, e: Client)
    requires Grew(c, d) && Grew(d, e)
    ensures Grew(c, e)
  {
    hide Bounded;
  }

  lemma OpenGrows(c: Client, script: Script)
    requires Idle(c)
    ensures Grew(c, OpenSocket(c, script).client)
    ensures var c' := OpenSocket(c, script).client; !c.closed ==> c.generation < c'.generation && Started(c')
    decreases |script|, 1
  {
    hide Calls, Perform, WakeUp;
    if !c.closed && script != [] {
      CallsGrow(Bumped(c), script[0], script[1..]);
    }
  }

  lemma WakeGrows(c: Client, script: Script)
    requires Idle(c)
    ensures Grew(c, WakeUp(c, script).client)
    ensures var c' := WakeUp(c, script).client; !c.closed ==> c.generation < c'.generation && Started(c')
    decreases |script|, 2
  {
    hide OpenSocket;
    if !c.closed {
      var c1 := CloseSocket(c.(attempt := 0, generation := c.generation + 1));
      OpenGrows(c1, script);
    }
  }

  lemma PerformGrows(c: Client, call: HostCall, script: Script)
    requires Idle(c)
    ensures Grew(c, Perform(c, call, script).client)
    decreases |script|, 3
  {
    hide OpenSocket, WakeUp, Added, Removed;
    match call
    case DoConnect(_) => OpenGrows(c, script);
    case DoWake => WakeGrows(c, script);
    case _ =>
  }

  lemma {:induction false} CallsGrow(c: Client, calls: seq<HostCall>, script: Script)
    requires Idle(c)
    ensures Grew(c, Calls(c, calls, script).client)
    decreases |script|, 4 + |calls|
  {
    hide Perform, Grew;
    if calls == [] {
      GrewNot(c);
    } else {
      var first := Perform(c, calls[0], script);
      PerformGrows(c, calls[0], script);
      GrewIdle(c, first.client);
      CallsGrow(first.client, calls[1..], first.script);
      GrewOn(c, first.client, Calls(first.client, calls[1..], first.script).client);
    }
  }

  lemma GrewNot(c: Client)
    requires Idle(c)
    ensures Grew(c, c)
  {
  }

  lemma GrewIdle(c: Client, c': Client)
    requires Grew(c, c')
    ensures Idle(c')
  {
  }

  /** Calls that neither open nor close leave all but wishes and waiters alone, and use up no notification. */
  lemma {:induction false} QuietCalls(c: Client, calls: seq<HostCall>, script: Script)
    requires Idle(c) && forall i :: 0 <= i < |calls| ==> !Reopens(calls[i], c.socket.None?)
    ensures SameButWishes(c, Calls(c, calls, script).client) && Calls(c, calls, script).script == script
    decreases |calls|
  {
    hide Added, Removed, OpenSocket, WakeUp;
    if calls != [] {
      assert !Reopens(calls[0], c.socket.None?);
      var first := Perform(c, calls[0], script);
      assert SameButWishes(c, first.client) && first.script == script;
      assert forall i :: 0 <= i < |calls[1..]| ==> calls[1..][i] == calls[i + 1];
      QuietCalls(first.client, calls[1..], script);
    }
  }

  /** One that does moves the generation on, whatever comes after it. */
  lemma {:induction false} LoudCalls(c: Client, calls: seq<HostCall>, script: Script, i: nat)
    requires Idle(c) && !c.closed && i < |calls| && Reopens(calls[i], c.socket.None?)
    requires forall j :: 0 <= j < i ==> !Reopens(calls[j], c.socket.None?)
    ensures c.generation < Calls(c, calls, script).client.generation
    decreases |calls|
  {
    hide Added, Removed, OpenSocket, WakeUp, Grew;
    var first := Perform(c, calls[0], script);
    if i == 0 {
      OpenGrows(c, script);
      WakeGrows(c, script);
      assert c.generation < first.client.generation;
      PerformGrows(c, calls[0], script);
      GrewIdle(c, first.client);
      CallsGrow(first.client, calls[1..], first.script);
      GrewGeneration(first.client, Calls(first.client, calls[1..], first.script).client);
    } else {
      assert !Reopens(calls[0], c.socket.None?);
      assert SameButWishes(c, first.client);
      assert forall j :: 0 <= j < i - 1 ==> calls[1..][j] == calls[j + 1];
      LoudCalls(first.client, calls[1..], first.script, i - 1);
    }
  }

  lemma GrewGeneration(c: Client, c': Client)
    requires Grew(c, c')
    ensures c.generation <= c'.generation
  {
  }

  lemma FirstLoud(calls: seq<HostCall>, unopened: bool) returns (i: nat)
    requires exists j :: 0 <= j < |calls| && Reopens(calls[j], unopened)
    ensures i < |calls| && Reopens(calls[i], unopened) && forall j :: 0 <= j < i ==> !Reopens(calls[j], unopened)
  {
    i := 0;
    while !Reopens(calls[i], unopened)
      invariant i < |calls| && forall j :: 0 <= j < i ==> !Reopens(calls[j], unopened)
      invariant exists j :: i <= j < |calls| && Reopens(calls[j], unopened)
      decreases |calls| - i
    {
      i := i + 1;
    }
  }

  /** A socket that is opened ends up held and current exactly when the host kept still while it connected. */
  lemma {:induction false} OpeningExactly(c: Client, script: Script)
    requires Idle(c) && !c.closed && Bounded(c)
    ensures Orderly(OpenSocket(c, script).client) <==> ConnectingOk(script, c.socket.None?)
    ensures ConnectingOk(script, c.socket.None?) ==> Sound(OpenSocket(c, script).client)
  {
    hide Calls;
    var b := Bumped(c);
    OpenGrows(c, script);
    if script != [] {
      if ConnectingOk(script, c.socket.None?) {
        QuietCalls(b, script[0], script[1..]);
      } else {
        var i := FirstLoud(script[0], c.socket.None?);
        LoudCalls(b, script[0], script[1..], i);
      }
    }
  }

  // ---- what the host can do to a client that has just lost its socket ----

  /** The socket is gone and nothing has taken its place. */
  ghost predicate Bereft(c: Client) {
    Idle(c) && !c.closed && Started(c) && !SocketNow(c) && Bounded(c) && !LiveSocket(c) && !ReconnectNow(c)
  }

  /** Something has: a live socket, or one that was left behind by a client that ended. */
  ghost predicate Reopened(c: Client) {
    Idle(c) && Started(c) && Bounded(c) && (c.closed || LiveSocket(c))
  }

  /** The client ended and left nothing behind. */
  ghost predicate Ended(c: Client) {
    && Idle(c) && c.closed && !Started(c) && Bounded(c) && !LiveSocket(c) && !ReconnectNow(c)
    && c.generation !in c.deadlines
  }

  lemma ClosingEnds(c: Client)
    requires Bounded(c)
    ensures Ended(CallClose(c))
  {
  }

  /** On a closed client no call opens anything, and nobody is told anything. */
  lemma ShutPerform(c: Client, call: HostCall, script: Script)
    requires c.closed && !Started(c) && Idle(c)
    ensures var r := Perform(c, call, script);
            && r.script == script && c.rejected <= r.client.rejected && c.generation <= r.client.generation
            && r.client == c.(generation := r.client.generation, watching := WatchedAfter(c.watching, [call]),
                              rooms := RoomsAfter(c.rooms, [call]), waiters := r.client.waiters,
                              rejected := r.client.rejected)
  {
    hide Added, Removed;
    assert [call][1..] == [];
    assert OpenSocket(c, script) == After(c, script) && WakeUp(c, script) == After(c, script);
  }

  lemma {:induction false} EndedCalls(c: Client, calls: seq<HostCall>, script: Script)
    requires Ended(c)
    ensures var r := Calls(c, calls, script);
            && Ended(r.client) && r.script == script
            && r.client.watching == WatchedAfter(c.watching, calls) && r.client.rooms == RoomsAfter(c.rooms, calls)
            && c.rejected <= r.client.rejected
    decreases |calls|
  {
    hide Added, Removed, Perform;
    if calls != [] {
      var first := Perform(c, calls[0], script);
      ShutPerform(c, calls[0], script);
      assert Ended(first.client) && first.script == script && c.rejected <= first.client.rejected;
      EndedCalls(first.client, calls[1..], script);
    }
  }

  lemma WakeShut(c: Client, script: Script)
    requires c.closed
    ensures WakeUp(c, script) == After(c, script)
  {
  }

  lemma {:induction false} ReopenedCalls(c: Client, calls: seq<HostCall>, script: Script)
    requires Reopened(c)
    ensures var c' := Calls(c, calls, script).client; if DoClose in calls then Ended(c') else Reopened(c')
    decreases |calls|
  {
    hide Added, Removed, OpenSocket, WakeUp;
    if calls != [] {
      var first := Perform(c, calls[0], script);
      WakeGrows(c, script);
      if c.closed {
        WakeShut(c, script);
      }
      assert calls == [calls[0]] + calls[1..];
      if calls[0] == DoClose {
        ClosingEnds(c);
        EndedCalls(first.client, calls[1..], first.script);
      } else {
        assert Reopened(first.client);
        ReopenedCalls(first.client, calls[1..], first.script);
      }
    }
  }

  lemma {:induction false} BereftCalls(c: Client, calls: seq<HostCall>, script: Script)
    requires Bereft(c)
    ensures var c' := Calls(c, calls, script).client;
            if DoClose in calls then Ended(c') else if DoWake in calls then Reopened(c') else SameButWishes(c, c')
    decreases |calls|
  {
    hide Added, Removed, OpenSocket, WakeUp;
    if calls != [] {
      var first := Perform(c, calls[0], script);
      WakeGrows(c, script);
      assert calls == [calls[0]] + calls[1..];
      match calls[0]
      case DoClose =>
        ClosingEnds(c);
        EndedCalls(first.client, calls[1..], first.script);
      case DoWake =>
        assert Reopened(first.client);
        ReopenedCalls(first.client, calls[1..], first.script);
      case _ =>
        assert Bereft(first.client) && SameButWishes(c, first.client);
        BereftCalls(first.client, calls[1..], first.script);
    }
  }

  /** What a client that is about to lose its socket satisfies. */
  ghost predicate Losing(c: Client) {
    Started(c) && !c.closed && Bounded(c)
  }

  /** A lost socket leaves one reconnect exactly when the host did not wake the client meanwhile, or closed it. */
  lemma LosingExactly(c: Client, script: Script)
    requires Losing(c)
    ensures Orderly(Lost(c, script)) <==> OfflineOk(script)
    ensures OfflineOk(script) ==> Sound(Lost(c, script))
    ensures OfflineOk(script) && !Lost(c, script).closed ==> ReconnectNow(Lost(c, script))
  {
    hide Calls;
    var offline := GoOffline(c);
    assert Bereft(offline);
    if script != [] {
      BereftCalls(offline, script[0], script[1..]);
    }
  }

  lemma CloseSocketKeeps(c: Client)
    ensures Orderly(CloseSocket(c)) == Orderly(c) && Bounded(CloseSocket(c)) == Bounded(c)
    ensures Sound(c) ==> Sound(CloseSocket(c))
  {
  }

  lemma {:induction false} AbandoningExactly(c: Client, script: Script)
    requires Losing(c)
    ensures Orderly(Abandon(c, script)) <==> OfflineOk(script)
    ensures OfflineOk(script) ==> Sound(Abandon(c, script))
  {
    hide Sound, Losing, Lost, OfflineOk, Orderly;
    LosingExactly(c, script);
    CloseSocketKeeps(Lost(c, script));
  }

  // ---- what the host can do to a client that is becoming ready ----

  /** Ready, with an open socket to say things on. */
  ghost predicate Speaking(c: Client) {
    c.ready && !c.closed && SocketNow(c) && c.socket.value.state.Open?
  }

  /** Only wishes, what was said, and answers to connect() and to a probe changed. */
  ghost predicate SpokeOn(c: Client, c': Client) {
    && Speaking(c')
    && c' == c.(socket := c'.socket, watching := c'.watching, rooms := c'.rooms, resolved := c'.resolved,
                pong := c'.pong)
    && (c'.pong == c.pong || c'.pong == Some(c.generation)) && c.resolved <= c'.resolved
  }

  lemma SendFrame(c: Client, m: Up)
    ensures var c' := Send(c, m);
            && c' == c.(socket := c'.socket) && (c'.socket.Some? <==> c.socket.Some?)
            && (c.socket.Some? ==> On(c', c.socket.value.mine) && c'.socket.value.state == c.socket.value.state)
  {
  }

  lemma {:induction false} JoinsFrame(c: Client, rooms: seq<RoomId>)
    ensures var c' := SendJoins(c, rooms);
            && c' == c.(socket := c'.socket) && (c'.socket.Some? <==> c.socket.Some?)
            && (c.socket.Some? ==> On(c', c.socket.value.mine) && c'.socket.value.state == c.socket.value.state)
  {
    hide Send;
    if rooms != [] {
      JoinsFrame(c, rooms[..|rooms| - 1]);
      SendFrame(SendJoins(c, rooms[..|rooms| - 1]), JoinUp(rooms[|rooms| - 1]));
    }
  }

  lemma ReassertFrame(c: Client)
    ensures var c' := Reassert(c);
            && c' == c.(socket := c'.socket) && (c'.socket.Some? <==> c.socket.Some?)
            && (c.socket.Some? ==> On(c', c.socket.value.mine) && c'.socket.value.state == c.socket.value.state)
    ensures c.watching == [] && c.rooms == [] ==> Reassert(c) == c
  {
    hide Send;
    SendFrame(c, WatchUp(c.watching));
    JoinsFrame(c, c.rooms);
    JoinsFrame(Send(c, WatchUp(c.watching)), c.rooms);
  }

  lemma SpeakingPerform(c: Client, call: HostCall, script: Script)
    requires Speaking(c) && call != DoClose
    ensures var r := Perform(c, call, script);
            && SpokeOn(c, r.client) && r.script == script
            && r.client.watching == WatchedAfter(c.watching, [call]) && r.client.rooms == RoomsAfter(c.rooms, [call])
  {
    hide Added, Removed, OpenSocket;
    assert [call][1..] == [];
  }

  lemma {:induction false} SpeakingCalls(c: Client, calls: seq<HostCall>, script: Script)
    requires Speaking(c)
    ensures var r := Calls(c, calls, script);
            && r.script == script
            && r.client.watching == WatchedAfter(c.watching, calls) && r.client.rooms == RoomsAfter(c.rooms, calls)
            && if DoClose in calls then (Bounded(c) ==> Ended(r.client)) && c.waiters <= r.client.rejected
               else SpokeOn(c, r.client)
    decreases |calls|
  {
    hide Added, Removed, Bounded, Ended, Send, OpenSocket, Probe;
    if calls != [] {
      assert calls == [calls[0]] + calls[1..];
      var first := Perform(c, calls[0], script);
      if calls[0] == DoClose {
        AfterClosing(c, calls[1..], script);
      } else {
        SpeakingPerform(c, calls[0], script);
        assert [calls[0]][1..] == [];
        FrameKeeps(c, first.client);
        SpeakingCalls(first.client, calls[1..], script);
      }
    }
  }

  lemma FrameKeeps(c: Client, c': Client)
    requires Speaking(c) && SpokeOn(c, c')
    ensures Bounded(c') == Bounded(c) && c'.waiters == c.waiters
  {
  }

  lemma AfterClosing(c: Client, calls: seq<HostCall>, script: Script)
    ensures var r := Calls(CallClose(c), calls, script);
            && r.script == script
            && r.client.watching == WatchedAfter(c.watching, calls) && r.client.rooms == RoomsAfter(c.rooms, calls)
            && (Bounded(c) ==> Ended(r.client)) && c.waiters <= r.client.rejected
  {
    hide Calls;
    ShutCalls(CallClose(c), calls, script);
    if Bounded(c) {
      ClosingEnds(c);
      EndedCalls(CallClose(c), calls, script);
    }
  }

  lemma {:induction false} ShutCalls(c: Client, calls: seq<HostCall>, script: Script)
    requires c.closed && !Started(c) && Idle(c)
    ensures var r := Calls(c, calls, script);
            && r.script == script && c.rejected <= r.client.rejected
            && r.client.watching == WatchedAfter(c.watching, calls) && r.client.rooms == RoomsAfter(c.rooms, calls)
    decreases |calls|
  {
    hide Added, Removed, Perform;
    if calls != [] {
      var first := Perform(c, calls[0], script);
      ShutPerform(c, calls[0], script);
      assert first.client.closed && !Started(first.client) && Idle(first.client) && first.script == script;
      ShutCalls(first.client, calls[1..], script);
    }
  }

  lemma SettlingSpeaker(c: Client)
    requires Speaking(c) && Sound(c.(pong := None, waiters := {}, keepalive := true))
    ensures Sound(Settle(c)) && Speaking(Settle(c)) && c.waiters <= Settle(c).resolved && !Settle(c).closed
  {
    hide Send;
    SendFrame(StartKeepalive(c), PingUp);
  }

  lemma SettlingEnded(c: Client)
    requires Ended(c)
    ensures !Orderly(Settle(c)) && Settle(c).closed && Settle(c).rejected == c.rejected
  {
  }

  /** Being told it is ready, and of its mail, the host does harm only by closing. */
  lemma ReadyExactly(c: Client, mail: nat, script: Script)
    requires Sound(c) && SocketNow(c) && c.socket.value.state.Open?
    ensures Orderly(BecomeReady(c, mail, script)) <==> ReadyOk(c, mail, script)
    ensures ReadyOk(c, mail, script) ==> Sound(BecomeReady(c, mail, script))
    ensures var c' := BecomeReady(c, mail, script);
            (c'.closed || Speaking(c')) && c.waiters <= if c'.closed then c'.rejected else c'.resolved
  {
    hide Calls, Reassert, Settle, WatchedAfter, RoomsAfter;
    var c0 := MarkReady(c);
    assert Speaking(c0) && Bounded(c0);
    var told := Notify(c0, script);
    if script != [] {
      SpeakingCalls(c0, script[0], script[1..]);
    }
    if script != [] && DoClose in script[0] {
      if !Throws(told.client) {
        ReassertFrame(told.client);
        if mail > 0 && told.script != [] {
          EndedCalls(told.client, told.script[0], told.script[1..]);
        }
        SettlingEnded(if mail > 0 then Notify(told.client, told.script).client else told.client);
      }
    } else {
      var said := Reassert(told.client);
      ReassertFrame(told.client);
      assert Speaking(said) && Bounded(said) && said.waiters == c.waiters;
      if mail > 0 && told.script != [] {
        SpeakingCalls(said, told.script[0], told.script[1..]);
        var heard := Calls(said, told.script[0], told.script[1..]).client;
        if DoClose in told.script[0] {
          SettlingEnded(heard);
        } else {
          SettlingSpeaker(heard);
        }
      } else {
        SettlingSpeaker(said);
      }
    }
  }

  // ---- every event ----

  lemma ConnectingAgain(c: Client, waiter: WaiterId, script: Script)
    requires c.closed || c.socket.Some?
    ensures Perform(c, DoConnect(waiter), script).client == Register(c, waiter)
  {
    assert c.closed ==> OpenSocket(c, script).client == c;
  }

  lemma {:induction false} WakingExactly(c: Client, script: Script)
    requires Sound(c)
    ensures Orderly(WakeUp(c, script).client) <==> (MakesSocket(c, DoWake) ==> ConnectingOk(script, c.socket.None?))
    ensures (MakesSocket(c, DoWake) ==> ConnectingOk(script, c.socket.None?)) ==> Sound(WakeUp(c, script).client)
  {
    hide OpenSocket;
    if MakesSocket(c, DoWake) {
      OpeningExactly(CloseSocket(c.(attempt := 0, generation := c.generation + 1)), script);
    }
  }

  lemma HostExactly(c: Client, call: HostCall, script: Script)
    requires Sound(c)
    ensures Orderly(Step(c, Host(call, script))) <==> Harmless(c, Host(call, script))
    ensures Harmless(c, Host(call, script)) ==> Sound(Step(c, Host(call, script)))
  {
    hide OpenSocket, Added, Removed;
    match call
    case DoConnect(waiter) =>
      if MakesSocket(c, call) {
        OpeningExactly(c, script);
        OpenGrows(c, script);
      } else {
        ConnectingAgain(c, waiter, script);
      }
    case DoWake => WakingExactly(c, script);
    case DoClose => ClosingEnds(c);
    case _ =>
  }

  lemma SleepExactly(c: Client, scheduled: nat, script: Script)
    requires Sound(c)
    ensures Orderly(Step(c, SleepOver(scheduled, script))) <==> Harmless(c, SleepOver(scheduled, script))
    ensures Harmless(c, SleepOver(scheduled, script)) ==> Sound(Step(c, SleepOver(scheduled, script)))
  {
    hide OpenSocket, ConnectingOk;
    if c.sleeping[scheduled] > 0 {
      var due := c.(sleeping := c.sleeping - multiset{scheduled});
      if scheduled == c.generation {
        OpeningExactly(due, script);
      }
    }
  }

  /** Events that tell the host nothing it could call back from. */
  lemma {:induction false} PlainSound(c: Client, e: Event)
    requires Sound(c) && (e.Opens? || e.Dies? || e.HearsChallenge? || e.HearsOther? || e.KeepaliveTick?)
    ensures Sound(Step(c, e))
  {
  }

  /** After any event a client in order is still in order if and only if the host's calls did no harm. */
  lemma StepExactly(c: Client, e: Event)
    requires Sound(c)
    ensures Orderly(Step(c, e)) <==> Harmless(c, e)
    ensures Harmless(c, e) ==> Sound(Step(c, e))
  {
    hide BecomeReady, Lost, Abandon, OpenSocket, Perform, OfflineOk, ConnectingOk, WatchedAfter, RoomsAfter;
    match e
    case Host(call, script) => HostExactly(c, call, script);
    case SleepOver(scheduled, script) => SleepExactly(c, scheduled, script);
    case HearsReady(mine, mail, script) =>
      if Hear(c, mine).Some? {
        ReadyExactly(Hear(c, mine).value, mail, script);
      }
    case SocketCloses(mine, script) =>
      if On(c, mine) && Live(c, mine) {
        LosingExactly(CloseSocket(c), script);
      }
    case HandshakeTimeout(mine, script) =>
      if mine in c.deadlines && Live(c, mine) && !c.ready {
        AbandoningExactly(c.(deadlines := c.deadlines - {mine}), script);
      }
    case PongTimeout(script) =>
      if c.pong.Some? {
        AbandoningExactly(c.(pong := None), script);
      }
    case _ => PlainSound(c, e);
  }

  lemma FreshSound()
    ensures Sound(FRESH)
  {
  }

  lemma {:induction false} RunSound(events: seq<Event>)
    requires AllHarmless(events)
    ensures Sound(Run(events))
  {
    hide Sound, Step, Harmless;
    if events == [] {
      FreshSound();
    } else {
      var front := events[..|events| - 1];
      assert forall i :: 0 <= i < |front| ==> front[..i] == events[..i];
      RunSound(front);
      assert Harmless(Run(events[..|events| - 1]), events[|events| - 1]);
      StepExactly(Run(front), events[|events| - 1]);
    }
  }

  /** Never stuck and never doubled, in every run in which the host's calls from inside notifications do no harm. */
  lemma {:induction false} NeverStuckNeverDoubled(events: seq<Event>)
    requires AllHarmless(events)
    ensures Orderly(Run(events))
  {
    hide Run, Orderly;
    RunSound(events);
  }

  /** And these are all such runs: the client is in order at every moment if and only if no call did harm. */
  lemma {:induction false} OrderlyExactlyWhen(events: seq<Event>)
    ensures (forall i :: 0 <= i <= |events| ==> Orderly(Run(events[..i]))) <==> AllHarmless(events)
  {
    hide Run, Step, Harmless, Orderly, Sound;
    if AllHarmless(events) {
      forall i | 0 <= i <= |events|
        ensures Orderly(Run(events[..i]))
      {
        assert forall j :: 0 <= j < i ==> events[..i][..j] == events[..j];
        NeverStuckNeverDoubled(events[..i]);
      }
    }
    if forall i :: 0 <= i <= |events| ==> Orderly(Run(events[..i])) {
      OrderlyHarmless(events, |events|);
      assert events[..|events|] == events;
    }
  }

  lemma {:induction false} OrderlyHarmless(events: seq<Event>, n: nat)
    requires n <= |events| && forall i :: 0 <= i <= |events| ==> Orderly(Run(events[..i]))
    ensures AllHarmless(events[..n])
  {
    hide Run, Step, Harmless, Orderly, Sound;
    if n > 0 {
      OrderlyHarmless(events, n - 1);
      RunSound(events[..n - 1]);
      RunOneMore(events[..n - 1], events[n - 1]);
      assert events[..n] == events[..n - 1] + [events[n - 1]];
      StepExactly(Run(events[..n - 1]), events[n - 1]);
      forall i | 0 <= i < n
        ensures Harmless(Run(events[..n][..i]), events[..n][i])
      {
        assert events[..n][..i] == events[..n - 1][..i];
        assert i < n - 1 ==> events[..n][i] == events[..n - 1][i];
      }
    }
  }

  lemma RunOneMore(events: seq<Event>, e: Event)
    ensures Run(events + [e]) == Step(Run(events), e)
  {
    assert (events + [e])[..|events|] == events;
  }

  // ---- the four ways to do harm ----

  /** connect() from inside the first "connecting": the live socket is not the one held, and nothing is scheduled. */
  lemma ConnectWhileConnecting(first: WaiterId, second: WaiterId)
    ensures var c := Step(FRESH, Host(DoConnect(first), [[DoConnect(second)]]));
            && Started(c) && !c.ready && LiveSocket(c) && !SocketNow(c) && !ReconnectNow(c)
            && c.made == {1, 2} && c.waiters == {first, second} && !Hear(c, 2).Some? && !Live(c, 1)
  {
    var calls := [DoConnect(second)];
    var script: Script := [calls];
    var b := Bumped(FRESH);
    var inner := OpenSocket(b, []);
    assert inner == After(Hold(Bumped(b), 2), []);
    assert Perform(b, DoConnect(second), []) == After(Register(inner.client, second), []);
    assert calls[1..] == [] && script[1..] == [];
    assert Calls(b, calls, []) == After(Register(inner.client, second), []);
    assert Notify(b, script) == Calls(b, calls, []);
    assert OpenSocket(FRESH, script).client == Hold(Register(inner.client, second), 1);
  }

  /** wake() from inside "offline": the reconnect is scheduled under the generation of the socket just opened. */
  lemma WakeWhileOffline(c: Client)
    requires Losing(c)
    ensures var c' := Lost(c, [[DoWake]]); SocketNow(c') && ReconnectNow(c')
  {
    var calls := [DoWake];
    var script: Script := [calls];
    var offline := GoOffline(c);
    var shut := CloseSocket(offline.(attempt := 0, generation := offline.generation + 1));
    assert calls[1..] == [] && script[1..] == [];
    assert Perform(offline, DoWake, []) == WakeUp(offline, []);
    assert OpenSocket(shut, []) == After(Hold(Bumped(shut), shut.generation + 1), []);
    assert Calls(offline, calls, []) == Perform(offline, DoWake, []);
  }

  /** close() from inside "connecting": a closed client ends up holding a socket, opened after the end. */
  lemma CloseWhileConnecting(c: Client)
    requires !c.closed
    ensures var c' := OpenSocket(c, [[DoClose]]).client; c'.closed && Started(c') && c'.socket.value.state.Connecting?
  {
    var calls := [DoClose];
    assert calls[1..] == [];
    assert Calls(Bumped(c), calls, []) == After(CallClose(Bumped(c)), []);
  }

  /** close() from inside "ready" with nothing to say again: the keepalive timer of a closed client keeps running. */
  lemma CloseWhileReady(c: Client)
    requires Sound(c) && SocketNow(c) && c.socket.value.state.Open? && c.watching == [] && c.rooms == []
    ensures var c' := BecomeReady(c, 0, [[DoClose]]); c'.closed && c'.keepalive
  {
    var calls := [DoClose];
    assert calls[1..] == [];
    assert Calls(MarkReady(c), calls, []) == After(CallClose(MarkReady(c)), []);
  }

  // ---- the client's own object ----

  class SignalingClient {
    var socket: Option<Socket>
    var made: set<nat>
    var generation: nat
    var ready: bool
    var closed: bool
    var attempt: nat
    var keepalive: bool
    var pong: Option<nat>
    var deadlines: set<nat>
    var sleeping: multiset<nat>
    var watching: seq<DeviceId>
    var rooms: seq<RoomId>
    var waiters: set<WaiterId>
    var resolved: set<WaiterId>
    var rejected: set<WaiterId>

    ghost function View(): Client
      reads this
    {
      Client(socket, made, generation, ready, closed, attempt, keepalive, pong, deadlines, sleeping, watching, rooms,
             waiters, resolved, rejected)
    }

    constructor ()
      ensures View() == FRESH
    {
      socket, made, generation, ready, closed, attempt := None, {}, 0, false, false, 0;
      keepalive, pong, deadlines, sleeping := false, None, {}, multiset{};
      watching, rooms, waiters, resolved, rejected := [], [], {}, {}, {};
    }

    method FlushReady(ok: bool)
      modifies this`waiters, this`resolved, this`rejected
      ensures View() == Flush(old(View()), ok)
    {
      if ok {
        resolved := resolved + waiters;
      } else {
        rejected := rejected + waiters;
      }
      waiters := {};
    }

    method SendUp(m: Up)
      modifies this`socket
      ensures View() == Send(old(View()), m)
    {
      if socket.Some? && socket.value.state.Open? {
        socket := Some(socket.value.(sent := socket.value.sent + [m]));
      }
    }

    method DoProbe()
      modifies this`socket, this`pong
      ensures View() == Probe(old(View()))
    {
      if !ready || socket.None? || !socket.value.state.Open? { return; }
      SendUp(PingUp);
      pong := Some(generation);
    }

    method ShutSocket()
      modifies this`socket
      ensures View() == CloseSocket(old(View()))
    {
      if socket.Some? {
        socket := Some(socket.value.(state := Dead));
      }
    }

    method WatchNow(peers: seq<DeviceId>)
      modifies this`watching, this`socket
      ensures View() == CallWatch(old(View()), peers)
    {
      watching := peers;
      if ready {
        SendUp(WatchUp(peers));
      }
    }

    method JoinPairRoom(room: RoomId)
      modifies this`rooms, this`socket
      ensures View() == CallJoin(old(View()), room)
    {
      rooms := Added(rooms, room);
      if ready {
        SendUp(JoinUp(room));
      }
    }

    method LeavePairRoom(room: RoomId)
      modifies this`rooms, this`socket
      ensures View() == CallLeave(old(View()), room)
    {
      rooms := Removed(rooms, room);
      if ready {
        SendUp(LeaveUp(room));
      }
    }

    method DoRetire()
      modifies this`closed, this`generation, this`keepalive, this`pong
      ensures View() == Retire(old(View()))
    {
      closed, generation := true, generation + 1;
      keepalive, pong := false, None;
    }

    method CloseNow()
      modifies this
      ensures View() == CallClose(old(View()))
    {
      hide Retire, Flush;
      DoRetire();
      FlushReady(false);
      socket, ready := None, false;
    }

    method DoBump()
      modifies this`generation, this`ready
      ensures View() == Bumped(old(View()))
    {
      generation := generation + 1;
      ready := false;
    }

    method DoHold(mine: nat)
      modifies this`socket, this`deadlines, this`made
      ensures View() == Hold(old(View()), mine)
    {
      socket := Some(Socket(mine, Connecting, []));
      deadlines := deadlines + {mine};
      made := made + {mine};
    }

    /** Tells the host "connecting" between taking the generation and putting the socket in place. */
    method DoOpen(script: Script) returns (rest: Script)
      modifies this
      ensures After(View(), rest) == OpenSocket(old(View()), script)
      decreases |script|, 1
    {
      hide Bumped, Hold, Notify;
      if closed { return script; }
      var mine := generation + 1;
      DoBump();
      rest := NotifyHost(script);
      DoHold(mine);
    }

    method NotifyHost(script: Script) returns (rest: Script)
      modifies this
      ensures After(View(), rest) == Notify(old(View()), script)
      decreases |script|, 0
    {
      hide Calls;
      if script == [] { return []; }
      rest := MakeCalls(script[0], script[1..]);
    }

    method DoWakeReset()
      modifies this`attempt, this`generation
      ensures View() == old(View()).(attempt := 0, generation := old(generation) + 1)
    {
      attempt := 0;
      generation := generation + 1;
    }

    method WakeNow(script: Script) returns (rest: Script)
      modifies this
      ensures After(View(), rest) == WakeUp(old(View()), script)
      decreases |script|, 2
    {
      hide OpenSocket, CloseSocket, Probe;
      if closed { return script; }
      if ready {
        DoProbe();
        return script;
      }
      DoWakeReset();
      ShutSocket();
      rest := DoOpen(script);
    }

    method ConnectNow(waiter: WaiterId, script: Script) returns (rest: Script)
      modifies this
      ensures After(View(), rest) == Perform(old(View()), DoConnect(waiter), script)
      decreases |script|, 2
    {
      hide OpenSocket;
      rest := script;
      if socket.None? {
        rest := DoOpen(script);
      }
      if ready {
        resolved := resolved + {waiter};
      } else {
        waiters := waiters + {waiter};
      }
    }

    method PerformCall(call: HostCall, script: Script) returns (rest: Script)
      modifies this
      ensures After(View(), rest) == Perform(old(View()), call, script)
      decreases |script|, 3
    {
      hide CallWatch, CallJoin, CallLeave, CallClose, OpenSocket;
      rest := script;
      match call
      case DoConnect(waiter) => rest := ConnectNow(waiter, script);
      case DoWatch(peers) => WatchNow(peers);
      case DoJoin(room) => JoinPairRoom(room);
      case DoLeave(room) => LeavePairRoom(room);
      case DoSignal(to, payload) => SendUp(SignalUp(to, payload));
      case DoSendPair(room, payload) => SendUp(PairUp(room, payload));
      case DoWake => rest := WakeNow(script);
      case DoClose => CloseNow();
    }

    method MakeCalls(calls: seq<HostCall>, script: Script) returns (rest: Script)
      modifies this
      ensures After(View(), rest) == Calls(old(View()), calls, script)
      decreases |script|, 4 + |calls|
    {
      hide Perform;
      if calls == [] { return script; }
      rest := PerformCall(calls[0], script);
      rest := MakeCalls(calls[1..], rest);
    }

    method DoGoOffline()
      modifies this`generation, this`ready, this`keepalive, this`pong
      ensures View() == GoOffline(old(View()))
    {
      generation := generation + 1;
      keepalive, pong := false, None;
      ready := false;
    }

    method DoSchedule()
      modifies this
      ensures View() == Schedule(old(View()))
    {
      if closed {
        FlushReady(false);
        return;
      }
      attempt := attempt + 1;
      sleeping := sleeping + multiset{generation};
    }

    method DoLost(script: Script)
      modifies this
      ensures View() == Lost(old(View()), script)
    {
      hide GoOffline, Schedule, Notify;
      DoGoOffline();
      var rest := NotifyHost(script);
      DoSchedule();
    }

    method DoAbandon(script: Script)
      modifies this
      ensures View() == Abandon(old(View()), script)
    {
      hide Lost, CloseSocket;
      var dead := socket;
      DoLost(script);
      if dead.Some? && socket.Some? && socket.value.mine == dead.value.mine {
        ShutSocket();
      }
    }

    /** Watch list first, then the rooms one by one. */
    method DoReassert()
      modifies this`socket
      ensures View() == Reassert(old(View()))
    {
      hide Send;
      SendFrame(View(), WatchUp(watching));
      if watching != [] {
        SendUp(WatchUp(watching));
      }
      ghost var asserting := View();
      for i := 0 to |rooms|
        invariant View() == SendJoins(asserting, rooms[..i])
      {
        assert rooms[..i + 1][..i] == rooms[..i];
        SendUp(JoinUp(rooms[i]));
      }
      assert rooms[..|rooms|] == rooms;
    }

    method DoMarkReady()
      modifies this`attempt, this`ready
      ensures View() == MarkReady(old(View()))
    {
      attempt, ready := 0, true;
    }

    method DoSettle()
      modifies this
      ensures View() == Settle(old(View()))
    {
      hide Probe, Flush;
      keepalive, pong := true, None;
      DoProbe();
      FlushReady(true);
    }

    /** What the handler of "ready" does; with nothing to say it on, saying something again throws. */
    method OnReady(mail: nat, script: Script)
      modifies this
      ensures View() == BecomeReady(old(View()), mail, script)
    {
      hide MarkReady, Reassert, Settle, Notify;
      DoMarkReady();
      var rest := NotifyHost(script);
      if socket.None? && (watching != [] || rooms != []) { return; }
      DoReassert();
      if mail > 0 {
        rest := NotifyHost(rest);
      }
      DoSettle();
    }

    method OnMessage(e: Event)
      requires e.HearsChallenge? || e.HearsReady? || e.HearsOther?
      modifies this
      ensures View() == Step(old(View()), e)
    {
      hide BecomeReady, Send;
      if socket.None? || socket.value.mine != e.mine || e.mine != generation || !socket.value.state.Open? { return; }
      pong := None;
      if e.HearsChallenge? {
        SendUp(AuthUp);
      } else if e.HearsReady? {
        OnReady(e.mail, e.script);
      }
    }

    method OnSocket(e: Event)
      requires e.Opens? || e.Dies? || e.SocketCloses?
      modifies this
      ensures View() == Step(old(View()), e)
    {
      hide Lost, CloseSocket;
      if socket.None? || socket.value.mine != e.mine { return; }
      if e.Opens? {
        if socket.value.state.Connecting? {
          socket := Some(socket.value.(state := SocketState.Open));
        }
      } else if e.Dies? {
        ShutSocket();
      } else if e.mine == generation {
        ShutSocket();
        DoLost(e.script);
      }
    }

    method OnHandshakeTimeout(mine: nat, script: Script)
      modifies this
      ensures View() == Step(old(View()), HandshakeTimeout(mine, script))
    {
      hide Abandon;
      if mine !in deadlines { return; }
      deadlines := deadlines - {mine};
      if mine == generation && !ready {
        DoAbandon(script);
      }
    }

    method OnPongTimeout(script: Script)
      modifies this
      ensures View() == Step(old(View()), PongTimeout(script))
    {
      hide Abandon;
      if pong.None? { return; }
      var armed := pong.value;
      pong := None;
      if armed == generation {
        DoAbandon(script);
      }
    }

    method OnTimer(e: Event)
      requires e.KeepaliveTick? || e.SleepOver?
      modifies this
      ensures View() == Step(old(View()), e)
    {
      hide Probe, OpenSocket;
      if e.KeepaliveTick? {
        if keepalive {
          DoProbe();
        }
      } else if sleeping[e.scheduled] > 0 {
        sleeping := sleeping - multiset{e.scheduled};
        if e.scheduled == generation {
          var rest := DoOpen(e.script);
        }
      }
    }
  }

  // ---- only close() ends the client ----

  predicate NoClose(script: Script) {
    forall i :: 0 <= i < |script| ==> DoClose !in script[i]
  }

  /** Nowhere in this event does the host call close(). */
  predicate NeverCloses(e: Event) {
    match e
    case Host(call, script) => call != DoClose && NoClose(script)
    case HearsReady(_, _, script) => NoClose(script)
    case SocketCloses(_, script) => NoClose(script)
    case HandshakeTimeout(_, script) => NoClose(script)
    case PongTimeout(script) => NoClose(script)
    case SleepOver(_, script) => NoClose(script)
    case _ => true
  }

  ghost predicate Unclosed(c: Client, r: After) {
    r.client.closed == c.closed && NoClose(r.script)
  }

  lemma OpenUnclosed(c: Client, script: Script)
    requires NoClose(script)
    ensures Unclosed(c, OpenSocket(c, script))
    decreases |script|, 1
  {
    hide Calls, Perform, WakeUp;
    if !c.closed && script != [] {
      CallsUnclosed(Bumped(c), script[0], script[1..]);
    }
  }

  lemma PerformUnclosed(c: Client, call: HostCall, script: Script)
    requires NoClose(script) && call != DoClose
    ensures Unclosed(c, Perform(c, call, script))
    decreases |script|, 3
  {
    hide OpenSocket, Added, Removed, NoClose;
    match call
    case DoConnect(_) => OpenUnclosed(c, script);
    case DoWake => OpenUnclosed(CloseSocket(c.(attempt := 0, generation := c.generation + 1)), script);
    case _ =>
  }

  lemma {:induction false} CallsUnclosed(c: Client, calls: seq<HostCall>, script: Script)
    requires NoClose(script) && DoClose !in calls
    ensures Unclosed(c, Calls(c, calls, script))
    decreases |script|, 4 + |calls|
  {
    hide Perform, NoClose;
    if calls != [] {
      var first := Perform(c, calls[0], script);
      PerformUnclosed(c, calls[0], script);
      CallsUnclosed(first.client, calls[1..], first.script);
    }
  }

  lemma NotifyUnclosed(c: Client, script: Script)
    requires NoClose(script)
    ensures Unclosed(c, Notify(c, script))
  {
    hide Calls;
    if script != [] {
      CallsUnclosed(c, script[0], script[1..]);
    }
  }

  lemma LostUnclosed(c: Client, script: Script)
    requires NoClose(script)
    ensures Lost(c, script).closed == c.closed && Abandon(c, script).closed == c.closed
  {
    hide Notify, NoClose;
    NotifyUnclosed(GoOffline(c), script);
  }

  lemma ReadyUnclosed(c: Client, mail: nat, script: Script)
    requires NoClose(script)
    ensures BecomeReady(c, mail, script).closed == c.closed
  {
    hide Notify, NoClose, Reassert, Send;
    var told := Notify(MarkReady(c), script);
    NotifyUnclosed(MarkReady(c), script);
    var said := Reassert(told.client);
    ReassertFrame(told.client);
    NotifyUnclosed(said, told.script);
    SendFrame(StartKeepalive(if mail > 0 then Notify(said, told.script).client else said), PingUp);
  }

  /** No event ends the client but one in which the host calls close(). */
  lemma OnlyCloseEnds(c: Client, e: Event)
    requires NeverCloses(e)
    ensures Step(c, e).closed == c.closed
  {
    hide BecomeReady, Lost, Abandon, OpenSocket, Perform, NoClose;
    match e
    case Host(call, script) => PerformUnclosed(c, call, script);
    case HearsReady(mine, mail, script) =>
      if Hear(c, mine).Some? {
        ReadyUnclosed(Hear(c, mine).value, mail, script);
      }
    case SocketCloses(mine, script) => LostUnclosed(CloseSocket(c), script);
    case HandshakeTimeout(mine, script) => LostUnclosed(c.(deadlines := c.deadlines - {mine}), script);
    case PongTimeout(script) => LostUnclosed(c.(pong := None), script);
    case SleepOver(scheduled, script) => OpenUnclosed(c.(sleeping := c.sleeping - multiset{scheduled}), script);
    case _ =>
  }

  /** Once there is a socket there is one until the client is closed. */
  lemma StartedStays(c: Client, e: Event)
    requires Sound(c) && Started(c)
    ensures Started(Step(c, e)) || Step(c, e).closed
  {
    hide BecomeReady, Lost, Abandon, OpenSocket, Perform;
    match e
    case Host(call, script) =>
      if c.ready {
        ReadyPerforms(c, call, script);
      } else {
        PerformGrows(c, call, script);
      }
    case HearsReady(mine, mail, script) =>
      if Hear(c, mine).Some? {
        ReadyExactly(Hear(c, mine).value, mail, script);
      }
    case SocketCloses(mine, script) => LostStarted(CloseSocket(c), script);
    case HandshakeTimeout(mine, script) => LostStarted(c.(deadlines := c.deadlines - {mine}), script);
    case PongTimeout(script) => LostStarted(c.(pong := None), script);
    case SleepOver(scheduled, script) =>
      if c.sleeping[scheduled] > 0 && scheduled == c.generation {
        OpenGrows(c.(sleeping := c.sleeping - multiset{scheduled}), script);
      }
    case _ =>
  }

  lemma ReadyPerforms(c: Client, call: HostCall, script: Script)
    requires c.ready && c.socket.Some?
    ensures var r := Perform(c, call, script);
            && r.script == script
            && if call == DoClose then r.client == CallClose(c)
               else r.client == c.(socket := r.client.socket, watching := r.client.watching, rooms := r.client.rooms,
                                   resolved := r.client.resolved, pong := r.client.pong)
                    && r.client.socket.Some?
  {
    hide OpenSocket, Added, Removed;
    assert call == DoWake ==> WakeUp(c, script).script == script;
  }

  lemma LostStarted(c: Client, script: Script)
    requires Started(c)
    ensures Started(Lost(c, script)) || Lost(c, script).closed
    ensures Started(Abandon(c, script)) || Abandon(c, script).closed
  {
    hide Calls;
    if script != [] {
      CallsGrow(GoOffline(c), script[0], script[1..]);
    }
  }

  // ---- promises handed out by connect() ----

  /** Where a promise is that waited before. */
  ghost predicate Settled(waiter: WaiterId, c': Client) {
    if c'.closed then waiter in c'.rejected
    else if c'.ready then waiter in c'.resolved
    else waiter in c'.waiters
  }

  lemma LostSettles(c: Client, script: Script, waiter: WaiterId)
    requires waiter in c.waiters && !c.closed
    ensures Settled(waiter, Lost(c, script)) && Settled(waiter, Abandon(c, script))
  {
    hide Calls;
    if script != [] {
      CallsGrow(GoOffline(c), script[0], script[1..]);
    }
  }

  lemma {:induction false} StepSettles(c: Client, e: Event, waiter: WaiterId)
    requires Sound(c) && waiter in c.waiters && !c.closed
    ensures Settled(waiter, Step(c, e))
  {
    hide BecomeReady, Lost, Abandon, OpenSocket, Perform;
    assert Idle(c);
    match e
    case Host(call, script) => PerformGrows(c, call, script);
    case HearsReady(mine, mail, script) =>
      if Hear(c, mine).Some? {
        ReadyExactly(Hear(c, mine).value, mail, script);
      }
    case SocketCloses(mine, script) => LostSettles(CloseSocket(c), script, waiter);
    case HandshakeTimeout(mine, script) => LostSettles(c.(deadlines := c.deadlines - {mine}), script, waiter);
    case PongTimeout(script) =>
    case SleepOver(scheduled, script) =>
      if c.sleeping[scheduled] > 0 && scheduled == c.generation {
        OpenGrows(c.(sleeping := c.sleeping - multiset{scheduled}), script);
      }
    case _ =>
  }

  /**
    A promise of connect() is settled at once by a client that is ready and waits otherwise; one that
    waits goes on waiting until the client is ready, which resolves it, or closed, which rejects it.
   */
  lemma WaitersSettled(events: seq<Event>, e: Event, waiter: WaiterId)
    requires AllHarmless(events)
    ensures var c := Run(events); waiter in c.waiters && !c.closed ==> Settled(waiter, Step(c, e))
    ensures var c := Run(events);
            e.Host? && e.call == DoConnect(waiter) ==>
              if c.ready then waiter in Step(c, e).resolved else waiter in Step(c, e).waiters
  {
    hide Run, Step, Sound;
    RunSound(events);
    var c := Run(events);
    if waiter in c.waiters && !c.closed {
      StepSettles(c, e, waiter);
    }
    if e.Host? && e.call == DoConnect(waiter) {
      ConnectWaits(c, waiter, e.script);
    }
  }

  lemma ConnectWaits(c: Client, waiter: WaiterId, script: Script)
    requires Sound(c)
    ensures var c' := Step(c, Host(DoConnect(waiter), script));
            if c.ready then waiter in c'.resolved else waiter in c'.waiters
  {
    hide OpenSocket;
    if c.socket.None? {
      OpenGrows(c, script);
    }
  }

  lemma ShutSettlesNothing(c: Client, call: HostCall, script: Script)
    requires c.closed && !Started(c) && Idle(c) && call != DoClose
    ensures var c' := Perform(c, call, script).client;
            c.waiters <= c'.waiters && c'.resolved == c.resolved && c'.rejected == c.rejected
  {
    hide Added, Removed;
    assert OpenSocket(c, script) == After(c, script) && WakeUp(c, script) == After(c, script);
  }

  /**
    A closed client settles nothing: a promise of a connect() made after close() waits until close()
    is called again.
   */
  lemma {:induction false} ClosedSettlesNothing(events: seq<Event>, e: Event)
    requires AllHarmless(events) && Run(events).closed && NeverCloses(e)
    ensures var c, c' := Run(events), Step(Run(events), e);
            c.waiters <= c'.waiters && c'.resolved == c.resolved && c'.rejected == c.rejected
  {
    hide Run, Perform, BecomeReady, Lost, Abandon, OpenSocket, NoClose;
    RunSound(events);
    var c := Run(events);
    match e
    case Host(call, script) => ShutSettlesNothing(c, call, script);
    case SleepOver(scheduled, script) => ShutOpens(c.(sleeping := c.sleeping - multiset{scheduled}), script);
    case _ =>
  }

  lemma ShutOpens(c: Client, script: Script)
    requires c.closed
    ensures OpenSocket(c, script) == After(c, script)
  {
  }

  // ---- what the hub makes of what was sent ----

  /** What a connection at the hub watches and which rooms it is in. */
  datatype Asserted = Asserted(watching: set<DeviceId>, rooms: set<RoomId>)

  const NOTHING := Asserted({}, {})

  function First(peers: seq<DeviceId>): seq<DeviceId> {
    if |peers| > Hub.MAX_WATCHED then peers[..Hub.MAX_WATCHED] else peers
  }

  function SetOf<T(==)>(s: seq<T>): set<T> {
    set x | x in s
  }

  function Apply(a: Asserted, m: Up): Asserted {
    match m
    case WatchUp(peers) => a.(watching := SetOf(First(peers)))
    case JoinUp(room) => a.(rooms := a.rooms + {room})
    case LeaveUp(room) => a.(rooms := a.rooms - {room})
    case _ => a
  }

  function ApplyAll(a: Asserted, sent: seq<Up>): Asserted {
    if sent == [] then a else Apply(ApplyAll(a, sent[..|sent| - 1]), sent[|sent| - 1])
  }

  function Wanted(c: Client): Asserted {
    Asserted(SetOf(First(c.watching)), SetOf(c.rooms))
  }

  lemma ApplyMore(a: Asserted, sent: seq<Up>, m: Up)
    ensures ApplyAll(a, sent + [m]) == Apply(ApplyAll(a, sent), m)
  {
    assert (sent + [m])[..|sent|] == sent;
  }

  lemma {:induction false} ApplyParts(a: Asserted, first: seq<Up>, rest: seq<Up>)
    ensures ApplyAll(ApplyAll(a, first), rest) == ApplyAll(a, first + rest)
  {
    if rest == [] {
      assert first + rest == first;
    } else {
      ApplyParts(a, first, rest[..|rest| - 1]);
      assert first + rest == (first + rest[..|rest| - 1]) + [rest[|rest| - 1]];
      ApplyMore(a, first + rest[..|rest| - 1], rest[|rest| - 1]);
    }
  }

  /** What all that was said on the socket adds up to. */
  function Said(c: Client): Asserted
    requires c.socket.Some?
  {
    ApplyAll(NOTHING, c.socket.value.sent)
  }

  /** All that was said on the current socket adds up to what the client wants, once ready, and to nothing before. */
  ghost predicate Told(c: Client) {
    SocketNow(c) ==>
      match c.socket.value.state
      case Connecting => c.socket.value.sent == [] && !c.ready
      case Open => Said(c) == if c.ready then Wanted(c) else NOTHING
      case Dead => true
  }

  /** What a client may have said while it is becoming ready, before it has re-asserted the rest. */
  ghost predicate Half(c: Client) {
    Speaking(c) && Said(c).rooms <= SetOf(c.rooms) &&
    (Said(c).watching == {} || Said(c).watching == SetOf(First(c.watching)))
  }

  ghost predicate Full(c: Client) {
    Speaking(c) && Said(c) == Wanted(c)
  }

  lemma SendTold(c: Client, m: Up)
    requires c.socket.Some? && c.socket.value.state.Open?
    ensures Send(c, m).socket.Some? && Said(Send(c, m)) == Apply(Said(c), m)
  {
    hide ApplyAll, Apply;
    ApplyMore(NOTHING, c.socket.value.sent, m);
  }

  lemma {:induction false} JoinsTold(c: Client, rooms: seq<RoomId>)
    requires c.socket.Some? && c.socket.value.state.Open?
    ensures var c' := SendJoins(c, rooms);
            && c'.socket.Some? && c'.socket.value.state.Open?
            && Said(c') == Said(c).(rooms := Said(c).rooms + SetOf(rooms))
  {
    hide Send, Said;
    JoinsFrame(c, rooms);
    if rooms == [] {
      assert Said(c).rooms + SetOf(rooms) == Said(c).rooms;
    } else {
      var front, room := rooms[..|rooms| - 1], rooms[|rooms| - 1];
      JoinsTold(c, front);
      SendTold(SendJoins(c, front), JoinUp(room));
      assert rooms == front + [room];
      assert Said(c).rooms + SetOf(rooms) == Said(c).rooms + SetOf(front) + {room};
    }
  }

  /** Whatever part of it had been said before, saying everything again makes it whole. */
  lemma ReassertTold(c: Client)
    requires Half(c)
    ensures Full(Reassert(c))
  {
    hide Send, Said, SendJoins;
    var watched := if c.watching == [] then c else Send(c, WatchUp(c.watching));
    ReassertFrame(c);
    SendFrame(c, WatchUp(c.watching));
    SendTold(c, WatchUp(c.watching));
    JoinsTold(watched, c.rooms);
    assert Said(c).rooms + SetOf(c.rooms) == SetOf(c.rooms);
    assert c.watching == [] ==> SetOf(First(c.watching)) == {};
  }

  lemma AddedSet(rooms: seq<RoomId>, room: RoomId)
    ensures SetOf(Added(rooms, room)) == SetOf(rooms) + {room}
  {
  }

  lemma SetOfMore(s: seq<RoomId>, room: RoomId)
    ensures SetOf(s + [room]) == SetOf(s) + {room}
  {
  }

  lemma {:induction false} RemovedSet(rooms: seq<RoomId>, room: RoomId)
    ensures SetOf(Removed(rooms, room)) == SetOf(rooms) - {room}
  {
    if rooms != [] {
      var front, last := rooms[..|rooms| - 1], rooms[|rooms| - 1];
      RemovedSet(front, room);
      assert rooms == front + [last];
      SetOfMore(front, last);
      SetOfMore(Removed(front, room), last);
      assert Removed(front, room) + [] == Removed(front, room);
    }
  }

  /** A wish that is sent as it is made keeps what was said in step, whole or half. */
  lemma {:induction false} WishTold(c: Client, call: HostCall, script: Script)
    requires Speaking(c) && (call.DoWatch? || call.DoJoin? || call.DoLeave?)
    ensures var c' := Perform(c, call, script).client;
            Speaking(c') && (Half(c) ==> Half(c')) && (Full(c) ==> Full(c'))
  {
    hide Said, Send, Added, Removed, First;
    var m, c1 := PingUp, c;
    match call {
      case DoWatch(peers) =>
        m, c1 := WatchUp(peers), c.(watching := peers);
      case DoJoin(room) =>
        m, c1 := JoinUp(room), c.(rooms := Added(c.rooms, room));
        AddedSet(c.rooms, room);
      case DoLeave(room) =>
        m, c1 := LeaveUp(room), c.(rooms := Removed(c.rooms, room));
        RemovedSet(c.rooms, room);
    }
    assert Perform(c, call, script).client == Send(c1, m);
    SaidSame(c, c1);
    SendFrame(c1, m);
    SendTold(c1, m);
  }

  lemma SaidSame(c: Client, d: Client)
    requires c.socket == d.socket && c.socket.Some?
    ensures Said(c) == Said(d)
  {
  }

  /** Messages that have no bearing on the hub's record of the connection. */
  predicate AssertsNothing(m: Up) {
    m.PingUp? || m.AuthUp? || m.SignalUp? || m.PairUp?
  }

  /** A message that asserts nothing leaves what was said as it was. */
  lemma NeutralSaid(c: Client, m: Up)
    requires c.socket.Some? && AssertsNothing(m)
    ensures Send(c, m).socket.Some? && Said(Send(c, m)) == Said(c)
  {
    hide Said;
    if c.socket.value.state.Open? {
      SendTold(c, m);
    }
  }

  lemma ProbeSaid(c: Client)
    requires c.socket.Some?
    ensures Probe(c).socket.Some? && Said(Probe(c)) == Said(c)
  {
    hide Said, Send;
    NeutralSaid(c, PingUp);
    if Probe(c) != c {
      SaidSame(Send(c, PingUp), Probe(c));
    }
  }

  lemma {:induction false} PerformTold(c: Client, call: HostCall, script: Script)
    requires Speaking(c) && call != DoClose
    ensures var c' := Perform(c, call, script).client;
            Speaking(c') && (Half(c) ==> Half(c')) && (Full(c) ==> Full(c'))
  {
    hide Said, Probe, Added, Removed, OpenSocket, First;
    if call.DoWatch? || call.DoJoin? || call.DoLeave? {
      WishTold(c, call, script);
    } else {
      SpeakingPerform(c, call, script);
      ProbeSaid(c);
      assert call == DoWake ==> WakeUp(c, script).client == Probe(c);
      SpeakingSaid(c, call, script);
    }
  }

  lemma SpeakingSaid(c: Client, call: HostCall, script: Script)
    requires Speaking(c) && (call.DoConnect? || call.DoWake? || call.DoSignal? || call.DoSendPair?)
    ensures var c' := Perform(c, call, script).client; c'.socket.Some? && Said(c') == Said(c)
  {
    hide Said, Probe, OpenSocket, Send;
    match call
    case DoWake =>
      ProbeSaid(c);
      assert WakeUp(c, script).client == Probe(c);
    case DoSignal(to, payload) => NeutralSaid(c, SignalUp(to, payload));
    case DoSendPair(room, payload) => NeutralSaid(c, PairUp(room, payload));
    case _ => SaidSame(c, Perform(c, call, script).client);
  }

  lemma {:induction false} CallsTold(c: Client, calls: seq<HostCall>, script: Script)
    requires Speaking(c) && DoClose !in calls
    ensures var c' := Calls(c, calls, script).client;
            Speaking(c') && (Half(c) ==> Half(c')) && (Full(c) ==> Full(c'))
    decreases |calls|
  {
    hide Speaking, Half, Full, Perform;
    if calls != [] {
      PerformTold(c, calls[0], script);
      var first := Perform(c, calls[0], script);
      CallsTold(first.client, calls[1..], first.script);
    }
  }

  lemma NotifyTold(c: Client, script: Script)
    requires Speaking(c) && (script == [] || DoClose !in script[0])
    ensures var c' := Notify(c, script).client;
            Speaking(c') && (Half(c) ==> Half(c')) && (Full(c) ==> Full(c'))
    ensures Notify(c, script).script == if script == [] then [] else script[1..]
  {
    hide Speaking, Half, Full, Calls, SpokeOn, Ended, Bounded;
    if script != [] {
      CallsTold(c, script[0], script[1..]);
      SpeakingCalls(c, script[0], script[1..]);
    }
  }

  lemma SettleTold(c: Client)
    requires Full(c)
    ensures Full(Settle(c))
  {
    hide Said, Send;
    var kept := StartKeepalive(c);
    SaidSame(c, kept);
    SendFrame(kept, PingUp);
    NeutralSaid(kept, PingUp);
    SaidSame(Send(kept, PingUp), Settle(c));
  }

  /** Once the host has been told, and whatever it said meanwhile, the hub is told everything there is to tell. */
  lemma {:induction false} ReadyTold(c: Client, mail: nat, script: Script)
    requires Sound(c) && Told(c) && SocketNow(c) && c.socket.value.state.Open? && ReadyOk(c, mail, script)
    ensures Told(BecomeReady(c, mail, script))
  {
    hide Said, Reassert, Calls, Settle, Sound, WatchedAfter, RoomsAfter, First;
    var c0 := MarkReady(c);
    ReadyExactly(c, mail, script);
    if script != [] && DoClose in script[0] {
      ReadyClosed(c, mail, script);
    } else {
      HalfAtFirst(c);
      NotifyTold(c0, script);
      var told := Notify(c0, script);
      var said := Reassert(told.client);
      ReassertTold(told.client);
      if mail > 0 {
        assert |told.script| == 0 || told.script[0] == script[1];
        NotifyTold(said, told.script);
        SettleTold(Notify(said, told.script).client);
      } else {
        SettleTold(said);
      }
    }
  }

  lemma HalfAtFirst(c: Client)
    requires Sound(c) && Told(c) && SocketNow(c) && c.socket.value.state.Open?
    ensures Half(MarkReady(c))
  {
    hide Said;
    SaidSame(c, MarkReady(c));
  }

  lemma ReadyClosed(c: Client, mail: nat, script: Script)
    requires Sound(c) && SocketNow(c) && c.socket.value.state.Open? && ReadyOk(c, mail, script)
    requires script != [] && DoClose in script[0]
    ensures !SocketNow(BecomeReady(c, mail, script))
  {
    hide Calls, Reassert, WatchedAfter, RoomsAfter;
    SpeakingCalls(MarkReady(c), script[0], script[1..]);
  }

  lemma OpenTold(c: Client, script: Script)
    requires Idle(c) && !c.closed
    ensures Told(OpenSocket(c, script).client)
  {
    hide Calls;
    OpenGrows(c, script);
  }

  lemma HostTold(c: Client, call: HostCall, script: Script)
    requires Sound(c) && Told(c)
    ensures Told(Perform(c, call, script).client)
  {
    hide Said, OpenSocket, Added, Removed, Probe, Send;
    if MakesSocket(c, call) {
      if call == DoWake {
        OpenTold(CloseSocket(c.(attempt := 0, generation := c.generation + 1)), script);
        assert Perform(c, call, script) == WakeUp(c, script);
      } else {
        OpenTold(c, script);
        OpenGrows(c, script);
        SaidSame(OpenSocket(c, script).client, Perform(c, call, script).client);
      }
    } else if call.DoSignal? || call.DoSendPair? {
      PeerTold(c, if call.DoSignal? then SignalUp(call.to, call.payload) else PairUp(call.room, call.payload));
    } else if Speaking(c) && call != DoClose {
      PerformTold(c, call, script);
    } else {
      MuteTold(c, call, script);
    }
  }

  /** What goes to a peer may go out on any open socket, and asserts nothing on it. */
  lemma PeerTold(c: Client, m: Up)
    requires Told(c) && AssertsNothing(m)
    ensures Told(Send(c, m))
  {
    hide Said, Send;
    SendFrame(c, m);
    if c.socket.Some? {
      NeutralSaid(c, m);
    }
    SendOnOpenOnly(c, m);
  }

  lemma SendOnOpenOnly(c: Client, m: Up)
    ensures c.socket.None? || !c.socket.value.state.Open? ==> Send(c, m) == c
  {
  }

  /** With no open and ready socket nothing is asserted. */
  lemma MuteTold(c: Client, call: HostCall, script: Script)
    requires Sound(c) && Told(c) && !MakesSocket(c, call) && (!Speaking(c) || call == DoClose)
    requires !call.DoSignal? && !call.DoSendPair?
    ensures Told(Perform(c, call, script).client)
  {
    hide OpenSocket, Added, Removed, ApplyAll;
    if c.closed {
      ShutPerform(c, call, script);
    }
    assert call == DoWake ==> Perform(c, call, script) == WakeUp(c, script);
  }

  lemma HearTold(c: Client, mine: nat)
    requires Sound(c) && Told(c) && Hear(c, mine).Some?
    ensures var h := Hear(c, mine).value; Sound(h) && Told(h) && SocketNow(h) && h.socket.value.state.Open?
  {
    hide ApplyAll;
  }

  lemma MessageTold(c: Client, e: Event)
    requires Sound(c) && Told(c) && Harmless(c, e) && (e.HearsChallenge? || e.HearsReady? || e.HearsOther?)
    ensures Told(Step(c, e))
  {
    hide BecomeReady, Send, Said, Sound, WatchedAfter, RoomsAfter, First;
    if Hear(c, e.mine).Some? {
      HearTold(c, e.mine);
      var h := Hear(c, e.mine).value;
      match e
      case HearsChallenge(_) =>
        NeutralSaid(h, AuthUp);
        SendFrame(h, AuthUp);
      case HearsReady(_, mail, script) => ReadyTold(h, mail, script);
      case _ =>
    }
  }

  /** A client that has lost its socket has told nobody anything, and one that has ended neither. */
  lemma LostTold(c: Client, script: Script)
    requires Losing(c) && OfflineOk(script)
    ensures Told(Lost(c, script)) && Told(Abandon(c, script))
  {
    hide Lost, Said, OfflineOk;
    LosingExactly(c, script);
  }

  lemma DownTold(c: Client, e: Event)
    requires Sound(c) && Told(c) && Harmless(c, e) && (e.SocketCloses? || e.HandshakeTimeout? || e.PongTimeout?)
    ensures Told(Step(c, e))
  {
    hide Lost, Abandon, ApplyAll, OfflineOk;
    match e
    case SocketCloses(mine, script) =>
      if On(c, mine) && Live(c, mine) {
        LostTold(CloseSocket(c), script);
      }
    case HandshakeTimeout(mine, script) =>
      if mine in c.deadlines && Live(c, mine) && !c.ready {
        LostTold(c.(deadlines := c.deadlines - {mine}), script);
      }
    case PongTimeout(script) =>
      if c.pong.Some? {
        LostTold(c.(pong := None), script);
      }
  }

  lemma RestTold(c: Client, e: Event)
    requires Sound(c) && Told(c) && (e.Opens? || e.Dies? || e.SleepOver? || e.KeepaliveTick?)
    ensures Told(Step(c, e))
  {
    hide OpenSocket, Send, Said;
    match e
    case SleepOver(scheduled, script) =>
      if c.sleeping[scheduled] > 0 && scheduled == c.generation {
        OpenTold(c.(sleeping := c.sleeping - multiset{scheduled}), script);
      } else if c.socket.Some? {
        SaidSame(c, c.(sleeping := c.sleeping - multiset{scheduled}));
      }
    case KeepaliveTick =>
      if c.keepalive {
        ProbeSaid(c);
        SendFrame(c, PingUp);
      }
    case Opens(mine) => NothingSaid(Step(c, e));
    case _ =>
  }

  lemma NothingSaid(c: Client)
    ensures c.socket.Some? && c.socket.value.sent == [] ==> Said(c) == NOTHING
  {
  }

  lemma {:induction false} StepTold(c: Client, e: Event)
    requires Sound(c) && Told(c) && Harmless(c, e)
    ensures Told(Step(c, e))
  {
    hide Told, Sound, BecomeReady, Lost, Abandon, Perform, OpenSocket, Probe, Harmless;
    match e
    case Host(call, script) => HostTold(c, call, script);
    case SocketCloses(_, _) => DownTold(c, e);
    case HandshakeTimeout(_, _) => DownTold(c, e);
    case PongTimeout(_) => DownTold(c, e);
    case HearsChallenge(_) => MessageTold(c, e);
    case HearsReady(_, _, _) => MessageTold(c, e);
    case HearsOther(_) => MessageTold(c, e);
    case _ => RestTold(c, e);
  }

  lemma {:induction false} RunTold(events: seq<Event>)
    requires AllHarmless(events)
    ensures Told(Run(events))
  {
    hide Sound, Step, Told, Harmless;
    if events == [] {
      FreshTold();
    } else {
      var front := events[..|events| - 1];
      assert forall i :: 0 <= i < |front| ==> front[..i] == events[..i];
      RunTold(front);
      RunSound(front);
      assert Harmless(Run(events[..|events| - 1]), events[|events| - 1]);
      StepTold(Run(front), events[|events| - 1]);
    }
  }

  lemma FreshTold()
    ensures Told(FRESH)
  {
  }

  /**
    Re-assertion converges: however many sockets came and went, whatever the host asked for from inside
    its notifications, and however far the hub has got with what was sent on the one that is ready now,
    what is still in flight brings the hub's record of this connection to the devices and rooms the
    client wants at this moment.
   */
  lemma {:induction false} Converges(events: seq<Event>, taken: nat)
    requires AllHarmless(events)
    ensures var c := Run(events);
            c.ready && c.socket.Some? && c.socket.value.state.Open? && taken <= |c.socket.value.sent| ==>
              ApplyAll(ApplyAll(NOTHING, c.socket.value.sent[..taken]), c.socket.value.sent[taken..]) == Wanted(c)
  {
    hide Run, ApplyAll, Wanted;
    RunTold(events);
    RunSound(events);
    var c := Run(events);
    if c.ready && c.socket.Some? && c.socket.value.state.Open? && taken <= |c.socket.value.sent| {
      var sent := c.socket.value.sent;
      ApplyParts(NOTHING, sent[..taken], sent[taken..]);
      assert sent[..taken] + sent[taken..] == sent;
    }
  }
}
