/**
  The rendezvous hub: sockets by device, pairing rooms and presence watchers, three indexes over the
  same connections. A connection is a record in a table; requests are functions from the hub to the
  hub afterwards, and the class at the end is the hub's own object, tied to them.
 */
module Hub {
  import opened Common

  type DeviceId = nat
  type ConnId = nat
  type RoomId = string
  type Payload = nat

  const MAX_OCCUPANTS: nat := 2
  const MIN_ROOM_ID: nat := 16
  const MAX_WATCHED: nat := 256

  datatype Message =
    | Challenge
    | Ready(mail: nat)
    | Joined(room: RoomId, occupants: nat)
    | PairMessage(room: RoomId, sender: DeviceId, payload: Payload)
    | Presence(online: seq<DeviceId>)
    | Peer(device: DeviceId, isOnline: bool)
    | Unreachable(to: DeviceId)
    | Signal(sender: DeviceId, payload: Payload)
    | MailCount(count: nat)
    | Pong
    | Failure

  /** One socket: who it proved to be, what it joined and watches, and everything sent on it so far. */
  datatype Conn = Conn(
    device: Option<DeviceId>,
    rooms: set<RoomId>,
    watching: set<DeviceId>,
    live: bool,
    log: seq<Message>)

  datatype State = State(
    conns: map<ConnId, Conn>,
    connections: map<DeviceId, set<ConnId>>,
    pairRooms: map<RoomId, set<ConnId>>,
    watchers: map<DeviceId, set<ConnId>>)

  const EMPTY := State(map[], map[], map[], map[])

  datatype Request =
    | Auth(device: DeviceId, genuine: bool, mail: nat)
    | JoinPair(room: RoomId)
    | PairTo(room: RoomId, payload: Payload)
    | LeavePair(room: RoomId)
    | Watch(peers: seq<DeviceId>)
    | SignalTo(to: DeviceId, payload: Payload)
    | Ping
    | Unknown

  function At<K>(index: map<K, set<ConnId>>, key: K): set<ConnId> {
    if key in index then index[key] else {}
  }

  predicate Live(s: State, c: ConnId) {
    c in s.conns && s.conns[c].live
  }

  predicate IsOnline(s: State, device: DeviceId) {
    |At(s.connections, device)| > 0
  }

  function Say(s: State, targets: set<ConnId>, m: Message): State {
    s.(conns := map c | c in s.conns :: if c in targets then s.conns[c].(log := s.conns[c].log + [m]) else s.conns[c])
  }

  // ---- the requests ----

  function Accept(s: State, c: ConnId): State {
    if c in s.conns then s else s.(conns := s.conns[c := Conn(None, {}, {}, true, [Challenge])])
  }

  function Announce(s: State, device: DeviceId, online: bool): State {
    Say(s, At(s.watchers, device), Peer(device, online))
  }

  /** The socket takes the device's name. */
  function Name(s: State, c: ConnId, device: DeviceId): State
    requires c in s.conns
  {
    s.(conns := s.conns[c := s.conns[c].(device := Some(device))],
       connections := s.connections[device := At(s.connections, device) + {c}])
  }

  function HandleAuth(s: State, c: ConnId, device: DeviceId, genuine: bool, mail: nat): State
    requires c in s.conns
  {
    if s.conns[c].device.Some? || !genuine then Say(s, {c}, Failure)
    else Announce(Say(Name(s, c, device), {c}, Ready(mail)), device, true)
  }

  function Enter(s: State, c: ConnId, room: RoomId): State
    requires c in s.conns
  {
    s.(conns := s.conns[c := s.conns[c].(rooms := s.conns[c].rooms + {room})],
       pairRooms := s.pairRooms[room := At(s.pairRooms, room) + {c}])
  }

  function JoinPairRoom(s: State, c: ConnId, room: RoomId): State
    requires c in s.conns
  {
    var occupants := At(s.pairRooms, room);
    if |room| < MIN_ROOM_ID || (c !in occupants && |occupants| >= MAX_OCCUPANTS) then Say(s, {c}, Failure)
    else Say(Enter(s, c, room), occupants + {c}, Joined(room, |occupants + {c}|))
  }

  function RelayPair(s: State, c: ConnId, sender: DeviceId, room: RoomId, payload: Payload): State {
    if c !in At(s.pairRooms, room) then Say(s, {c}, Failure)
    else Say(s, At(s.pairRooms, room) - {c}, PairMessage(room, sender, payload))
  }

  /** A room the last occupant left is gone. */
  function Leave(s: State, c: ConnId, room: RoomId): State
    requires c in s.conns
  {
    if room !in s.pairRooms then s
    else
      var occupants := s.pairRooms[room] - {c};
      s.(conns := s.conns[c := s.conns[c].(rooms := s.conns[c].rooms - {room})],
         pairRooms := if |occupants| == 0 then s.pairRooms - {room} else s.pairRooms[room := occupants])
  }

  /** The connection is no longer among the watchers of these devices. */
  function Unwatch(s: State, c: ConnId, devices: set<DeviceId>): (r: State)
    ensures r.conns == s.conns
  {
    s.(watchers := map d | d in s.watchers :: if d in devices then s.watchers[d] - {c} else s.watchers[d])
  }

  function AddWatcher(s: State, c: ConnId, device: DeviceId): State {
    s.(watchers := s.watchers[device := At(s.watchers, device) + {c}])
  }

  function AddWatchers(s: State, c: ConnId, list: seq<DeviceId>): State {
    if list == [] then s else AddWatcher(AddWatchers(s, c, list[..|list| - 1]), c, list[|list| - 1])
  }

  function OnlineAmong(s: State, list: seq<DeviceId>): seq<DeviceId> {
    if list == [] then []
    else OnlineAmong(s, list[..|list| - 1]) + if IsOnline(s, list[|list| - 1]) then [list[|list| - 1]] else []
  }

  function Rewatch(s: State, c: ConnId, list: seq<DeviceId>): State
    requires c in s.conns
  {
    var cleared := Unwatch(s, c, s.conns[c].watching);
    AddWatchers(cleared.(conns := s.conns[c := s.conns[c].(watching := set d | d in list)]), c, list)
  }

  function WatchPeers(s: State, c: ConnId, peers: seq<DeviceId>): State
    requires c in s.conns
  {
    var list := if |peers| > MAX_WATCHED then peers[..MAX_WATCHED] else peers;
    var watched := Rewatch(s, c, list);
    Say(watched, {c}, Presence(OnlineAmong(watched, list)))
  }

  function RouteSignal(s: State, c: ConnId, sender: DeviceId, to: DeviceId, payload: Payload): State {
    var targets := At(s.connections, to);
    if |targets| == 0 then Say(s, {c}, Unreachable(to)) else Say(s, targets, Signal(sender, payload))
  }

  function NotifyMail(s: State, device: DeviceId, count: nat): State {
    Say(s, At(s.connections, device), MailCount(count))
  }

  function Serve(s: State, c: ConnId, sender: DeviceId, request: Request): State
    requires c in s.conns
  {
    match request
    case JoinPair(room) => JoinPairRoom(s, c, room)
    case PairTo(room, payload) => RelayPair(s, c, sender, room, payload)
    case LeavePair(room) => Leave(s, c, room)
    case Watch(peers) => WatchPeers(s, c, peers)
    case SignalTo(to, payload) => RouteSignal(s, c, sender, to, payload)
    case Ping => Say(s, {c}, Pong)
    case _ => Say(s, {c}, Failure)
  }

  function Dispatch(s: State, c: ConnId, request: Request): State
    requires c in s.conns
  {
    if request.Auth? then HandleAuth(s, c, request.device, request.genuine, request.mail)
    else if s.conns[c].device.None? then Say(s, {c}, Failure)
    else Serve(s, c, s.conns[c].device.value, request)
  }

  function Remaining(s: State, c: ConnId, rooms: set<RoomId>): set<RoomId>
    requires c in s.conns
  {
    set r | r in s.conns[c].rooms && (r !in rooms || r !in s.pairRooms)
  }

  function Vacate(index: map<RoomId, set<ConnId>>, c: ConnId, rooms: set<RoomId>): map<RoomId, set<ConnId>> {
    map r | r in index && !(r in rooms && index[r] - {c} == {}) :: if r in rooms then index[r] - {c} else index[r]
  }

  /** The connection out of every one of these rooms; emptied rooms go. */
  function LeaveAll(s: State, c: ConnId, rooms: set<RoomId>): State
    requires c in s.conns
  {
    s.(conns := s.conns[c := s.conns[c].(rooms := Remaining(s, c, rooms))],
       pairRooms := Vacate(s.pairRooms, c, rooms))
  }

  /** Rooms and watched devices first. */
  function Withdraw(s: State, c: ConnId): (r: State)
    requires c in s.conns
    ensures c in r.conns
  {
    Unwatch(LeaveAll(s, c, s.conns[c].rooms), c, s.conns[c].watching)
  }

  function Unname(s: State, c: ConnId, device: DeviceId): State {
    var others := At(s.connections, device) - {c};
    if device !in s.connections then s
    else s.(connections := if others == {} then s.connections - {device} else s.connections[device := others])
  }

  function MarkGone(s: State, c: ConnId): State
    requires c in s.conns
  {
    s.(conns := s.conns[c := s.conns[c].(live := false)])
  }

  /** The device is announced offline when its last socket went. */
  function Disconnect(s: State, c: ConnId): State
    requires c in s.conns
  {
    var withdrawn := MarkGone(Withdraw(s, c), c);
    if s.conns[c].device.None? then withdrawn
    else
      var device := s.conns[c].device.value;
      var unnamed := Unname(withdrawn, c, device);
      if device in withdrawn.connections && device !in unnamed.connections
      then Announce(unnamed, device, false) else unnamed
  }

  // ---- runs ----

  datatype Event =
    | Connects(c: ConnId)
    | Receives(c: ConnId, request: Request)
    | Closes(c: ConnId)
    | MailArrives(device: DeviceId, count: nat)

  function Step(s: State, e: Event): State {
    match e
    case Connects(c) => Accept(s, c)
    case Receives(c, request) => if Live(s, c) then Dispatch(s, c, request) else s
    case Closes(c) => if Live(s, c) then Disconnect(s, c) else s
    case MailArrives(device, count) => NotifyMail(s, device, count)
  }

  function Run(events: seq<Event>): State {
    if events == [] then EMPTY else Step(Run(events[..|events| - 1]), events[|events| - 1])
  }

  // ---- the three indexes mirror the connections ----

  ghost predicate DevicesMirror(s: State) {
    && (forall d: DeviceId, c: ConnId :: c in At(s.connections, d) <==> Live(s, c) && s.conns[c].device == Some(d))
    && forall d :: d in s.connections ==> s.connections[d] != {}
  }

  ghost predicate RoomsMirror(s: State) {
    && (forall r: RoomId, c: ConnId :: c in At(s.pairRooms, r) <==> Live(s, c) && r in s.conns[c].rooms)
    && forall r :: r in s.pairRooms ==> 1 <= |s.pairRooms[r]| <= MAX_OCCUPANTS
  }

  ghost predicate WatchersMirror(s: State) {
    forall d: DeviceId, c: ConnId :: c in At(s.watchers, d) <==> Live(s, c) && d in s.conns[c].watching
  }

  ghost predicate Mirror(s: State) {
    DevicesMirror(s) && RoomsMirror(s) && WatchersMirror(s)
  }

  // ---- what a socket was last told about a device ----

  function Tells(m: Message, device: DeviceId): Option<bool> {
    match m
    case Presence(online) => Some(device in online)
    case Peer(d, isOnline) => if d == device then Some(isOnline) else None
    case Unreachable(to) => if to == device then Some(false) else None
    case _ => None
  }

  function LastTold(log: seq<Message>, device: DeviceId): Option<bool> {
    if log == [] then None
    else if Tells(log[|log| - 1], device).Some? then Tells(log[|log| - 1], device)
    else LastTold(log[..|log| - 1], device)
  }

  lemma ToldMore(log: seq<Message>, m: Message, device: DeviceId)
    ensures LastTold(log + [m], device) == if Tells(m, device).Some? then Tells(m, device) else LastTold(log, device)
  {
    assert (log + [m])[..|log|] == log;
  }

  ghost predicate Informed(s: State, c: ConnId, device: DeviceId)
    requires c in s.conns
  {
    LastTold(s.conns[c].log, device) == Some(IsOnline(s, device))
  }

  ghost predicate PresenceTrue(s: State) {
    forall c: ConnId, d: DeviceId :: Live(s, c) && d in s.conns[c].watching ==> Informed(s, c, d)
  }

  // ---- saying something changes no index ----

  lemma SaySame(s: State, targets: set<ConnId>, m: Message)
    requires Mirror(s)
    ensures Mirror(Say(s, targets, m))
  {
    var s' := Say(s, targets, m);
    assert s'.conns.Keys == s.conns.Keys;
    assert forall c :: Live(s', c) <==> Live(s, c);
  }

  /** What is said is true, or is about something else. */
  ghost predicate Truthful(s: State, targets: set<ConnId>, m: Message) {
    forall c: ConnId, d: DeviceId :: c in targets && Live(s, c) && d in s.conns[c].watching ==>
      Tells(m, d) == None || Tells(m, d) == Some(IsOnline(s, d))
  }

  lemma SayInforms(s: State, targets: set<ConnId>, m: Message)
    requires PresenceTrue(s) && Truthful(s, targets, m)
    ensures PresenceTrue(Say(s, targets, m))
  {
    hide LastTold, Tells, IsOnline;
    var s' := Say(s, targets, m);
    forall c: ConnId, d: DeviceId | Live(s', c) && d in s'.conns[c].watching
      ensures Informed(s', c, d)
    {
      assert Live(s, c) && Informed(s, c, d);
      ToldMore(s.conns[c].log, m, d);
      SameOnline(s, s', d);
    }
  }

  lemma SameOnline(s: State, s': State, d: DeviceId)
    requires s'.connections == s.connections
    ensures IsOnline(s', d) == IsOnline(s, d)
  {
  }

  lemma OnlineMeans(s: State, d: DeviceId)
    ensures IsOnline(s, d) <==> At(s.connections, d) != {}
  {
  }

  ghost predicate Good(s: State) {
    Mirror(s) && PresenceTrue(s)
  }

  lemma SayGood(s: State, targets: set<ConnId>, m: Message)
    requires Good(s) && Truthful(s, targets, m)
    ensures Good(Say(s, targets, m))
  {
    hide Mirror, PresenceTrue, Truthful, Say;
    SaySame(s, targets, m);
    SayInforms(s, targets, m);
  }

  /** Most messages say nothing about presence. */
  lemma NeutralGood(s: State, targets: set<ConnId>, m: Message)
    requires Good(s) && !m.Presence? && !m.Peer? && !m.Unreachable?
    ensures Good(Say(s, targets, m))
  {
    hide Mirror, PresenceTrue, Say;
    SayGood(s, targets, m);
  }

  lemma AcceptGood(s: State, c: ConnId)
    requires Good(s)
    ensures Good(Accept(s, c))
  {
    hide LastTold;
  }

  // ---- auth ----

  lemma {:induction false} NameMirror(s: State, c: ConnId, device: DeviceId)
    requires Mirror(s) && Live(s, c) && s.conns[c].device.None?
    ensures Mirror(Name(s, c, device))
  {
    var s' := Name(s, c, device);
    assert forall x :: Live(s', x) <==> Live(s, x);
    forall d: DeviceId, x: ConnId
      ensures x in At(s'.connections, d) <==> Live(s', x) && s'.conns[x].device == Some(d)
    {
      assert x in At(s.connections, d) <==> Live(s, x) && s.conns[x].device == Some(d);
    }
  }

  /** Told or not, every watcher of another device stays right. */
  ghost predicate PresenceTrueBut(s: State, device: DeviceId) {
    forall c: ConnId, d: DeviceId :: Live(s, c) && d in s.conns[c].watching && d != device ==> Informed(s, c, d)
  }

  /** An announcement puts the watchers of a device right, and they are all it has to reach. */
  lemma {:induction false} AnnounceGood(s: State, device: DeviceId)
    requires Mirror(s) && PresenceTrueBut(s, device)
    ensures Good(Announce(s, device, IsOnline(s, device)))
  {
    hide LastTold, IsOnline, At, DevicesMirror, RoomsMirror;
    var m := Peer(device, IsOnline(s, device));
    var s' := Announce(s, device, IsOnline(s, device));
    SaySame(s, At(s.watchers, device), m);
    forall c: ConnId, d: DeviceId | Live(s', c) && d in s'.conns[c].watching
      ensures Informed(s', c, d)
    {
      ToldMore(s.conns[c].log, m, d);
      SameOnline(s, s', d);
      assert c in At(s.watchers, device) <==> Live(s, c) && device in s.conns[c].watching;
      if d != device {
        assert Informed(s, c, d);
      }
    }
  }

  lemma {:induction false} AuthGood(s: State, c: ConnId, device: DeviceId, genuine: bool, mail: nat)
    requires Good(s) && Live(s, c)
    ensures Good(HandleAuth(s, c, device, genuine, mail))
  {
    hide Mirror, LastTold, Announce, IsOnline, Say;
    if s.conns[c].device.Some? || !genuine {
      NeutralGood(s, {c}, Failure);
    } else {
      var named := Name(s, c, device);
      NameMirror(s, c, device);
      SaySame(named, {c}, Ready(mail));
      var greeted := Say(named, {c}, Ready(mail));
      NamedInforms(s, c, device, mail);
      AnnounceGood(greeted, device);
      OnlineMeans(greeted, device);
      SayIndexes(named, {c}, Ready(mail));
    }
  }

  lemma SayIndexes(s: State, targets: set<ConnId>, m: Message)
    ensures var s' := Say(s, targets, m);
            s'.connections == s.connections && s'.pairRooms == s.pairRooms && s'.watchers == s.watchers
  {
  }

  lemma NamedInforms(s: State, c: ConnId, device: DeviceId, mail: nat)
    requires PresenceTrue(s) && c in s.conns
    ensures PresenceTrueBut(Say(Name(s, c, device), {c}, Ready(mail)), device)
  {
    hide LastTold;
    var s' := Say(Name(s, c, device), {c}, Ready(mail));
    forall x: ConnId, d: DeviceId | Live(s', x) && d in s'.conns[x].watching && d != device
      ensures Informed(s', x, d)
    {
      assert Live(s, x) && Informed(s, x, d);
      ToldMore(s.conns[x].log, Ready(mail), d);
    }
  }

  // ---- rooms ----

  lemma EnterMirror(s: State, c: ConnId, room: RoomId)
    requires Mirror(s) && Live(s, c)
    requires c in At(s.pairRooms, room) || |At(s.pairRooms, room)| < MAX_OCCUPANTS
    ensures Mirror(Enter(s, c, room))
  {
    var s' := Enter(s, c, room);
    assert forall x :: Live(s', x) <==> Live(s, x);
    forall r: RoomId, x: ConnId
      ensures x in At(s'.pairRooms, r) <==> Live(s', x) && r in s'.conns[x].rooms
    {
      assert x in At(s.pairRooms, r) <==> Live(s, x) && r in s.conns[x].rooms;
    }
    OneMore(At(s.pairRooms, room), c);
  }

  lemma OneMore(set0: set<ConnId>, c: ConnId)
    ensures |set0 + {c}| == |set0| + if c in set0 then 0 else 1
  {
    if c in set0 {
      assert set0 + {c} == set0;
    }
  }

  /** Indexes of devices and watchers, logs and watch lists untouched: presence is as true as before. */
  lemma PresenceKept(s: State, s': State)
    requires PresenceTrue(s) && s'.connections == s.connections
    requires forall x :: Live(s', x) ==>
               Live(s, x) && s'.conns[x].watching == s.conns[x].watching && s'.conns[x].log == s.conns[x].log
    ensures PresenceTrue(s')
  {
    hide LastTold, IsOnline;
    forall x: ConnId, d: DeviceId | Live(s', x) && d in s'.conns[x].watching
      ensures Informed(s', x, d)
    {
      assert Informed(s, x, d);
      SameOnline(s, s', d);
    }
  }

  lemma JoinGood(s: State, c: ConnId, room: RoomId)
    requires Good(s) && Live(s, c)
    ensures Good(JoinPairRoom(s, c, room))
  {
    hide Mirror, PresenceTrue, Say;
    var occupants := At(s.pairRooms, room);
    if |room| < MIN_ROOM_ID || (c !in occupants && |occupants| >= MAX_OCCUPANTS) {
      NeutralGood(s, {c}, Failure);
    } else {
      EnterMirror(s, c, room);
      PresenceKept(s, Enter(s, c, room));
      NeutralGood(Enter(s, c, room), occupants + {c}, Joined(room, |occupants + {c}|));
    }
  }

  lemma SameDevices(s: State, s': State)
    requires DevicesMirror(s) && s'.connections == s.connections
    requires forall x :: (Live(s', x) <==> Live(s, x)) && (Live(s, x) ==> s'.conns[x].device == s.conns[x].device)
    ensures DevicesMirror(s')
  {
    forall d: DeviceId, x: ConnId
      ensures x in At(s'.connections, d) <==> Live(s', x) && s'.conns[x].device == Some(d)
    {
      assert x in At(s.connections, d) <==> Live(s, x) && s.conns[x].device == Some(d);
    }
  }

  lemma SameWatchers(s: State, s': State)
    requires WatchersMirror(s) && s'.watchers == s.watchers
    requires forall x :: (Live(s', x) <==> Live(s, x)) && (Live(s, x) ==> s'.conns[x].watching == s.conns[x].watching)
    ensures WatchersMirror(s')
  {
    forall d: DeviceId, x: ConnId
      ensures x in At(s'.watchers, d) <==> Live(s', x) && d in s'.conns[x].watching
    {
      assert x in At(s.watchers, d) <==> Live(s, x) && d in s.conns[x].watching;
    }
  }

  lemma LeaveRooms(s: State, c: ConnId, room: RoomId)
    requires RoomsMirror(s) && Live(s, c) && room in s.pairRooms
    ensures RoomsMirror(Leave(s, c, room))
  {
    var s' := Leave(s, c, room);
    forall r: RoomId, x: ConnId
      ensures x in At(s'.pairRooms, r) <==> Live(s', x) && r in s'.conns[x].rooms
    {
      assert x in At(s.pairRooms, r) <==> Live(s, x) && r in s.conns[x].rooms;
    }
    OneLess(s.pairRooms[room], c);
  }

  lemma LeaveMirror(s: State, c: ConnId, room: RoomId)
    requires Mirror(s) && Live(s, c)
    ensures Mirror(Leave(s, c, room))
  {
    hide DevicesMirror, WatchersMirror, RoomsMirror;
    var s' := Leave(s, c, room);
    SameDevices(s, s');
    SameWatchers(s, s');
    if room in s.pairRooms {
      LeaveRooms(s, c, room);
    }
  }

  lemma OneLess(set0: set<ConnId>, c: ConnId)
    ensures |set0 - {c}| == |set0| - if c in set0 then 1 else 0
  {
    if c !in set0 {
      assert set0 - {c} == set0;
    }
  }

  lemma LeaveGood(s: State, c: ConnId, room: RoomId)
    requires Good(s) && Live(s, c)
    ensures Good(Leave(s, c, room))
  {
    hide Mirror, PresenceTrue;
    LeaveMirror(s, c, room);
    PresenceKept(s, Leave(s, c, room));
  }

  // ---- watching ----

  lemma UnwatchAt(s: State, c: ConnId, devices: set<DeviceId>, d: DeviceId)
    ensures At(Unwatch(s, c, devices).watchers, d)
            == if d in devices then At(s.watchers, d) - {c} else At(s.watchers, d)
  {
  }

  lemma {:induction false} AddedAt(s: State, c: ConnId, list: seq<DeviceId>, d: DeviceId)
    ensures var s' := AddWatchers(s, c, list);
            && At(s'.watchers, d) == (if d in list then At(s.watchers, d) + {c} else At(s.watchers, d))
            && s'.conns == s.conns && s'.connections == s.connections && s'.pairRooms == s.pairRooms
  {
    if list != [] {
      AddedAt(s, c, list[..|list| - 1], d);
      assert list == list[..|list| - 1] + [list[|list| - 1]];
    }
  }

  lemma RewatchMirror(s: State, c: ConnId, list: seq<DeviceId>)
    requires Mirror(s) && Live(s, c)
    ensures Mirror(Rewatch(s, c, list))
    ensures var s' := Rewatch(s, c, list);
            && s'.connections == s.connections
            && s'.conns == s.conns[c := s.conns[c].(watching := set d | d in list)]
  {
    hide AddWatchers, Unwatch;
    var s' := Rewatch(s, c, list);
    RewatchFrame(s, c, list);
    assert forall x :: Live(s', x) <==> Live(s, x);
    forall d: DeviceId, x: ConnId
      ensures x in At(s'.watchers, d) <==> Live(s', x) && d in s'.conns[x].watching
    {
      RewatchAt(s, c, list, d);
      assert x in At(s.watchers, d) <==> Live(s, x) && d in s.conns[x].watching;
    }
  }

  lemma RewatchFrame(s: State, c: ConnId, list: seq<DeviceId>)
    requires c in s.conns
    ensures var s' := Rewatch(s, c, list);
            && s'.connections == s.connections && s'.pairRooms == s.pairRooms
            && s'.conns == s.conns[c := s.conns[c].(watching := set d | d in list)]
  {
    hide AddWatchers;
    var cleared := Unwatch(s, c, s.conns[c].watching);
    AddedAt(cleared.(conns := s.conns[c := s.conns[c].(watching := set d | d in list)]), c, list, 0);
  }

  lemma RewatchAt(s: State, c: ConnId, list: seq<DeviceId>, d: DeviceId)
    requires c in s.conns
    ensures var old0 := if d in s.conns[c].watching then At(s.watchers, d) - {c} else At(s.watchers, d);
            At(Rewatch(s, c, list).watchers, d) == if d in list then old0 + {c} else old0
  {
    hide AddWatchers, Unwatch;
    UnwatchAt(s, c, s.conns[c].watching, d);
    var cleared := Unwatch(s, c, s.conns[c].watching);
    AddedAt(cleared.(conns := s.conns[c := s.conns[c].(watching := set d | d in list)]), c, list, d);
  }

  lemma {:induction false} OnlineAmongMeans(s: State, list: seq<DeviceId>, d: DeviceId)
    ensures d in OnlineAmong(s, list) <==> d in list && IsOnline(s, d)
  {
    hide IsOnline;
    if list != [] {
      OnlineAmongMeans(s, list[..|list| - 1], d);
      assert list == list[..|list| - 1] + [list[|list| - 1]];
    }
  }

  /** The answer to a watch covers every device watched from now on. */
  lemma {:induction false} WatchGood(s: State, c: ConnId, peers: seq<DeviceId>)
    requires Good(s) && Live(s, c)
    ensures Good(WatchPeers(s, c, peers))
  {
    hide Mirror, LastTold, IsOnline, OnlineAmong, Rewatch;
    var list := if |peers| > MAX_WATCHED then peers[..MAX_WATCHED] else peers;
    var w := Rewatch(s, c, list);
    RewatchMirror(s, c, list);
    var m := Presence(OnlineAmong(w, list));
    SaySame(w, {c}, m);
    var s' := Say(w, {c}, m);
    forall x: ConnId, d: DeviceId | Live(s', x) && d in s'.conns[x].watching
      ensures Informed(s', x, d)
    {
      ToldMore(w.conns[x].log, m, d);
      OnlineAmongMeans(w, list, d);
      SameOnline(w, s', d);
      if x != c {
        assert Live(s, x) && Informed(s, x, d);
        SameOnline(s, w, d);
      }
    }
  }

  lemma {:induction false} RouteGood(s: State, c: ConnId, sender: DeviceId, to: DeviceId, payload: Payload)
    requires Good(s)
    ensures Good(RouteSignal(s, c, sender, to, payload))
  {
    hide Mirror, PresenceTrue, Say;
    if |At(s.connections, to)| == 0 {
      SayGood(s, {c}, Unreachable(to));
    } else {
      NeutralGood(s, At(s.connections, to), Signal(sender, payload));
    }
  }

  lemma {:induction false} ServeGood(s: State, c: ConnId, sender: DeviceId, request: Request)
    requires Good(s) && Live(s, c)
    ensures Good(Serve(s, c, sender, request))
  {
    hide Good, Say, JoinPairRoom, Leave, WatchPeers, RouteSignal;
    match request
    case JoinPair(room) => JoinGood(s, c, room);
    case PairTo(room, payload) =>
      NeutralGood(s, {c}, Failure);
      NeutralGood(s, At(s.pairRooms, room) - {c}, PairMessage(room, sender, payload));
    case LeavePair(room) => LeaveGood(s, c, room);
    case Watch(peers) => WatchGood(s, c, peers);
    case SignalTo(to, payload) => RouteGood(s, c, sender, to, payload);
    case Ping => NeutralGood(s, {c}, Pong);
    case _ => NeutralGood(s, {c}, Failure);
  }

  // ---- disconnecting ----

  lemma LeaveAllRooms(s: State, c: ConnId)
    requires RoomsMirror(s) && Live(s, c)
    ensures RoomsMirror(MarkGone(LeaveAll(s, c, s.conns[c].rooms), c))
  {
    var s' := MarkGone(LeaveAll(s, c, s.conns[c].rooms), c);
    forall r: RoomId, x: ConnId
      ensures x in At(s'.pairRooms, r) <==> Live(s', x) && r in s'.conns[x].rooms
    {
      assert x in At(s.pairRooms, r) <==> Live(s, x) && r in s.conns[x].rooms;
      assert c in At(s.pairRooms, r) <==> r in s.conns[c].rooms;
    }
    forall r | r in s'.pairRooms
      ensures 1 <= |s'.pairRooms[r]| <= MAX_OCCUPANTS
    {
      OneLess(s.pairRooms[r], c);
    }
  }

  lemma UnwatchedAll(s: State, c: ConnId)
    requires WatchersMirror(s) && Live(s, c)
    ensures WatchersMirror(MarkGone(Unwatch(s, c, s.conns[c].watching), c))
  {
    hide Unwatch;
    var s' := MarkGone(Unwatch(s, c, s.conns[c].watching), c);
    forall d: DeviceId, x: ConnId
      ensures x in At(s'.watchers, d) <==> Live(s', x) && d in s'.conns[x].watching
    {
      UnwatchAt(s, c, s.conns[c].watching, d);
      UnwatchFrame(s, c, s.conns[c].watching);
      assert x in At(s.watchers, d) <==> Live(s, x) && d in s.conns[x].watching;
      assert c in At(s.watchers, d) <==> d in s.conns[c].watching;
    }
  }

  lemma UnwatchFrame(s: State, c: ConnId, devices: set<DeviceId>)
    ensures var s' := Unwatch(s, c, devices);
            s'.conns == s.conns && s'.connections == s.connections && s'.pairRooms == s.pairRooms
  {
  }

  lemma SameRooms(s: State, s': State)
    requires RoomsMirror(s) && s'.pairRooms == s.pairRooms
    requires forall x :: (Live(s', x) <==> Live(s, x)) && (Live(s, x) ==> s'.conns[x].rooms == s.conns[x].rooms)
    ensures RoomsMirror(s')
  {
    forall r: RoomId, x: ConnId
      ensures x in At(s'.pairRooms, r) <==> Live(s', x) && r in s'.conns[x].rooms
    {
      assert x in At(s.pairRooms, r) <==> Live(s, x) && r in s.conns[x].rooms;
    }
  }

  /** Out of its rooms and off every watch list; only the device index still has it. */
  lemma {:induction false} Withdrawn(s: State, c: ConnId)
    requires Mirror(s) && Live(s, c)
    ensures var s' := MarkGone(Withdraw(s, c), c);
            && RoomsMirror(s') && WatchersMirror(s') && s'.connections == s.connections
            && c in s'.conns && s'.conns.Keys == s.conns.Keys
            && forall x :: Live(s', x) <==> Live(s, x) && x != c
    ensures var s' := MarkGone(Withdraw(s, c), c);
            forall x :: x in s.conns ==> s'.conns[x].device == s.conns[x].device
                                         && s'.conns[x].watching == s.conns[x].watching
                                         && s'.conns[x].log == s.conns[x].log
  {
    hide RoomsMirror, WatchersMirror, DevicesMirror, Unwatch;
    var left := LeaveAll(s, c, s.conns[c].rooms);
    var s' := MarkGone(Withdraw(s, c), c);
    UnwatchFrame(left, c, s.conns[c].watching);
    LeaveAllRooms(s, c);
    SameRooms(MarkGone(left, c), s');
    SameWatchers(s, left);
    UnwatchedAll(left, c);
  }

  /** Taking the name away leaves the device index right, and only this device's presence can change. */
  lemma Unnamed(s: State, s1: State, c: ConnId)
    requires DevicesMirror(s) && c in s.conns && Live(s, c) && s1.connections == s.connections
    requires forall x :: Live(s1, x) <==> Live(s, x) && x != c
    requires forall x :: Live(s1, x) ==> x in s.conns && s1.conns[x].device == s.conns[x].device
    ensures s.conns[c].device.None? ==> DevicesMirror(s1)
    ensures s.conns[c].device.Some? ==>
              var s' := Unname(s1, c, s.conns[c].device.value);
              DevicesMirror(s')
              && (s.conns[c].device.value in s'.connections <==> IsOnline(s', s.conns[c].device.value))
  {
    var s' := if s.conns[c].device.Some? then Unname(s1, c, s.conns[c].device.value) else s1;
    forall d: DeviceId, x: ConnId
      ensures x in At(s'.connections, d) <==> Live(s', x) && s'.conns[x].device == Some(d)
    {
      assert x in At(s.connections, d) <==> Live(s, x) && s.conns[x].device == Some(d);
      assert c in At(s.connections, d) <==> s.conns[c].device == Some(d);
    }
  }

  lemma UnnameFrame(s: State, c: ConnId, device: DeviceId)
    ensures var s' := Unname(s, c, device);
            && s'.conns == s.conns && s'.pairRooms == s.pairRooms && s'.watchers == s.watchers
            && forall d: DeviceId :: d != device ==> At(s'.connections, d) == At(s.connections, d)
  {
  }

  lemma {:induction false} DisconnectGood(s: State, c: ConnId)
    requires Good(s) && Live(s, c)
    ensures Good(Disconnect(s, c))
  {
    hide DevicesMirror, RoomsMirror, WatchersMirror, LastTold, IsOnline, Withdraw, MarkGone, Unname, Announce;
    var gone := MarkGone(Withdraw(s, c), c);
    Withdrawn(s, c);
    Unnamed(s, gone, c);
    if s.conns[c].device.None? {
      SameDevices(gone, gone);
      PresenceKept(s, gone);
    } else {
      var device := s.conns[c].device.value;
      var unnamed := Unname(gone, c, device);
      UnnameFrame(gone, c, device);
      SameRooms(gone, unnamed);
      SameWatchers(gone, unnamed);
      forall x: ConnId, d: DeviceId | Live(unnamed, x) && d in unnamed.conns[x].watching && d != device
        ensures Informed(unnamed, x, d)
      {
        assert Live(s, x) && Informed(s, x, d);
        SameAt(s, unnamed, d);
      }
      if device !in unnamed.connections {
        WasOnline(s, c);
        AnnounceGood(unnamed, device);
      } else {
        StillOnline(s, unnamed, c);
      }
    }
  }

  lemma SameAt(s: State, s': State, d: DeviceId)
    requires At(s'.connections, d) == At(s.connections, d)
    ensures IsOnline(s', d) == IsOnline(s, d)
  {
  }

  lemma WasOnline(s: State, c: ConnId)
    requires DevicesMirror(s) && Live(s, c) && s.conns[c].device.Some?
    ensures s.conns[c].device.value in s.connections && IsOnline(s, s.conns[c].device.value)
  {
    assert c in At(s.connections, s.conns[c].device.value);
  }

  lemma StillOnline(s: State, s': State, c: ConnId)
    requires Good(s) && Live(s, c) && s.conns[c].device.Some?
    requires IsOnline(s', s.conns[c].device.value)
    requires forall x :: Live(s', x) ==>
               Live(s, x) && s'.conns[x].watching == s.conns[x].watching && s'.conns[x].log == s.conns[x].log
    requires PresenceTrueBut(s', s.conns[c].device.value)
    ensures PresenceTrue(s')
  {
    hide LastTold, IsOnline, RoomsMirror, WatchersMirror;
    WasOnline(s, c);
    var device := s.conns[c].device.value;
    forall x: ConnId, d: DeviceId | Live(s', x) && d in s'.conns[x].watching
      ensures Informed(s', x, d)
    {
      if d == device {
        assert Informed(s, x, d);
      }
    }
  }

  lemma StepGood(s: State, e: Event)
    requires Good(s)
    ensures Good(Step(s, e))
  {
    hide Good, HandleAuth, Serve, Disconnect, Say, Accept;
    match e
    case Connects(c) => AcceptGood(s, c);
    case Receives(c, request) =>
      if Live(s, c) {
        if request.Auth? {
          AuthGood(s, c, request.device, request.genuine, request.mail);
        } else if s.conns[c].device.None? {
          NeutralGood(s, {c}, Failure);
        } else {
          ServeGood(s, c, s.conns[c].device.value, request);
        }
      }
    case Closes(c) =>
      if Live(s, c) {
        DisconnectGood(s, c);
      }
    case MailArrives(device, count) => NeutralGood(s, At(s.connections, device), MailCount(count));
  }

  lemma {:induction false} RunGood(events: seq<Event>)
    ensures Good(Run(events))
  {
    hide Good, Step;
    if events == [] {
      EmptyGood();
    } else {
      RunGood(events[..|events| - 1]);
      StepGood(Run(events[..|events| - 1]), events[|events| - 1]);
    }
  }

  lemma EmptyGood()
    ensures Good(EMPTY)
  {
  }

  /** In every run the indexes say of each live connection exactly what it says of itself, and nothing of others. */
  lemma {:induction false} IndexesAgree(events: seq<Event>)
    ensures Mirror(Run(events))
  {
    hide Run, Mirror;
    RunGood(events);
  }

  /** In every run, what a live socket was last told about a device it watches is so. */
  lemma {:induction false} PresenceAgrees(events: seq<Event>, c: ConnId, device: DeviceId)
    ensures var s := Run(events);
            Live(s, c) && device in s.conns[c].watching ==>
              LastTold(s.conns[c].log, device) == Some(IsOnline(s, device))
  {
    hide Run, Mirror, LastTold, IsOnline;
    RunGood(events);
    var s := Run(events);
    if Live(s, c) && device in s.conns[c].watching {
      assert Informed(s, c, device);
    }
  }

  /** A pairing message reaches the other occupant of the room, who is at most one, and nobody else. */
  lemma {:induction false} PairReachesPartner(events: seq<Event>, c: ConnId, room: RoomId, payload: Payload,
                                              x: ConnId, y: ConnId)
    ensures var s := Run(events);
            var s' := Step(s, Receives(c, PairTo(room, payload)));
            Live(s, c) && s.conns[c].device.Some? && room in s.conns[c].rooms ==>
              && (x in s.conns && x != c ==>
                    s'.conns[x].log == s.conns[x].log +
                      if Live(s, x) && room in s.conns[x].rooms
                      then [PairMessage(room, s.conns[c].device.value, payload)] else [])
              && (Live(s, x) && Live(s, y) && x != c && y != c &&
                  room in s.conns[x].rooms && room in s.conns[y].rooms ==>
                    x == y)
  {
    hide Run, LastTold, DevicesMirror, WatchersMirror;
    RunGood(events);
    var s := Run(events);
    if Live(s, c) && room in s.conns[c].rooms {
      var occupants := At(s.pairRooms, room);
      assert c in occupants;
      assert x in occupants <==> Live(s, x) && room in s.conns[x].rooms;
      assert y in occupants <==> Live(s, y) && room in s.conns[y].rooms;
      if x in occupants && y in occupants && x != c && y != c && x != y {
        ThreeAreTooMany(occupants, c, x, y);
      }
    }
  }

  lemma ThreeAreTooMany(occupants: set<ConnId>, a: ConnId, b: ConnId, c: ConnId)
    requires a in occupants && b in occupants && c in occupants && a != b && b != c && a != c
    ensures |occupants| >= 3
  {
    OneLess(occupants, a);
    OneLess(occupants - {a}, b);
    OneLess(occupants - {a} - {b}, c);
  }

  // ---- the hub's own object ----

  lemma SayMore(s: State, targets: set<ConnId>, c: ConnId, m: Message)
    requires c !in targets
    ensures Say(Say(s, targets, m), {c}, m) == Say(s, targets + {c}, m)
  {
    assert Say(Say(s, targets, m), {c}, m).conns == Say(s, targets + {c}, m).conns;
  }

  lemma SayNone(s: State, m: Message)
    ensures Say(s, {}, m) == s
  {
    assert Say(s, {}, m).conns == s.conns;
  }

  lemma VacateMore(index: map<RoomId, set<ConnId>>, c: ConnId, rooms: set<RoomId>, room: RoomId)
    requires room !in rooms
    ensures var v := Vacate(index, c, rooms);
            && (room in v <==> room in index)
            && Vacate(index, c, rooms + {room}) ==
                 if room !in v then v else if |v[room] - {c}| == 0 then v - {room} else v[room := v[room] - {c}]
  {
    var v, all := Vacate(index, c, rooms), Vacate(index, c, rooms + {room});
    if room in index {
      var left := v[room] - {c};
      assert v[room] == index[room] && (|left| == 0 <==> left == {});
      var one := if left == {} then v - {room} else v[room := left];
      assert forall r :: r in one <==> r in all;
      assert one == all;
    } else {
      assert v == all;
    }
  }

  lemma LeaveMore(s: State, c: ConnId, rooms: set<RoomId>, room: RoomId)
    requires c in s.conns && room !in rooms
    ensures Leave(LeaveAll(s, c, rooms), c, room) == LeaveAll(s, c, rooms + {room})
  {
    VacateMore(s.pairRooms, c, rooms, room);
    RemainingMore(s, c, rooms, room);
    LeaveConns(s, LeaveAll(s, c, rooms), c, rooms, room);
    LeaveConns(s, LeaveAll(s, c, rooms + {room}), c, rooms + {room}, room);
    hide LeaveAll, Remaining, Vacate;
    var one := Leave(LeaveAll(s, c, rooms), c, room);
    assert one.conns == s.conns[c := s.conns[c].(rooms := Remaining(s, c, rooms + {room}))];
  }

  lemma LeaveConns(s: State, s': State, c: ConnId, rooms: set<RoomId>, room: RoomId)
    requires c in s.conns && s' == LeaveAll(s, c, rooms)
    ensures s'.conns == s.conns[c := s.conns[c].(rooms := Remaining(s, c, rooms))]
    ensures s'.connections == s.connections && s'.watchers == s.watchers
            && s'.pairRooms == Vacate(s.pairRooms, c, rooms)
  {
  }

  lemma RemainingMore(s: State, c: ConnId, rooms: set<RoomId>, room: RoomId)
    requires c in s.conns
    ensures Remaining(s, c, rooms + {room}) ==
            if room in s.pairRooms then Remaining(s, c, rooms) - {room} else Remaining(s, c, rooms)
  {
  }

  lemma LeaveNone(s: State, c: ConnId)
    requires c in s.conns
    requires forall r :: r in s.pairRooms ==> s.pairRooms[r] != {}
    ensures LeaveAll(s, c, {}) == s
  {
    assert LeaveAll(s, c, {}).pairRooms == s.pairRooms;
    assert Remaining(s, c, {}) == s.conns[c].rooms;
    assert s.conns[c].(rooms := s.conns[c].rooms) == s.conns[c];
    assert LeaveAll(s, c, {}).conns == s.conns;
  }

  lemma UnwatchMore(s: State, c: ConnId, devices: set<DeviceId>, device: DeviceId)
    requires device !in devices
    ensures Unwatch(Unwatch(s, c, devices), c, {device}) == Unwatch(s, c, devices + {device})
  {
    assert Unwatch(Unwatch(s, c, devices), c, {device}).watchers == Unwatch(s, c, devices + {device}).watchers;
  }

  lemma UnwatchNone(s: State, c: ConnId)
    ensures Unwatch(s, c, {}) == s
  {
    assert Unwatch(s, c, {}).watchers == s.watchers;
  }

  class HubObject {
    var conns: map<ConnId, Conn>
    var connections: map<DeviceId, set<ConnId>>
    var pairRooms: map<RoomId, set<ConnId>>
    var watchers: map<DeviceId, set<ConnId>>

    function View(): State
      reads this
    {
      State(conns, connections, pairRooms, watchers)
    }

    constructor ()
      ensures View() == EMPTY
    {
      conns, connections, pairRooms, watchers := map[], map[], map[], map[];
    }

    method Connect(c: ConnId)
      requires c !in conns
      modifies this`conns
      ensures View() == Accept(old(View()), c)
    {
      conns := conns[c := Conn(None, {}, {}, true, [Challenge])];
    }

    method Send(c: ConnId, m: Message)
      modifies this`conns
      ensures View() == Say(old(View()), {c}, m)
    {
      if c in conns {
        conns := conns[c := conns[c].(log := conns[c].log + [m])];
      }
      assert conns == Say(old(View()), {c}, m).conns;
    }

    method SendAll(targets: set<ConnId>, m: Message)
      modifies this`conns
      ensures View() == Say(old(View()), targets, m)
    {
      hide Say;
      var todo := targets;
      SayNone(View(), m);
      assert targets - todo == {};
      while todo != {}
        invariant todo <= targets
        invariant View() == Say(old(View()), targets - todo, m)
        decreases |todo|
      {
        var c :| c in todo;
        SayMore(old(View()), targets - todo, c, m);
        assert targets - (todo - {c}) == (targets - todo) + {c};
        Send(c, m);
        todo := todo - {c};
      }
      assert targets - todo == targets;
    }

    method Authenticate(c: ConnId, device: DeviceId, genuine: bool, mail: nat)
      requires c in conns
      modifies this
      ensures View() == HandleAuth(old(View()), c, device, genuine, mail)
    {
      hide Say;
      if conns[c].device.Some? || !genuine {
        Send(c, Failure);
        return;
      }
      conns := conns[c := conns[c].(device := Some(device))];
      if device !in connections {
        var nobody: set<ConnId> := {};
        connections := connections[device := nobody];
      }
      var sockets := connections[device];
      connections := connections[device := sockets + {c}];
      assert View() == Name(old(View()), c, device);
      Send(c, Ready(mail));
      SayIndexes(Name(old(View()), c, device), {c}, Ready(mail));
      SendAll(At(watchers, device), Peer(device, true));
    }

    method JoinRoom(c: ConnId, room: RoomId)
      requires c in conns
      modifies this
      ensures View() == JoinPairRoom(old(View()), c, room)
    {
      hide Say;
      if |room| < MIN_ROOM_ID {
        Send(c, Failure);
        return;
      }
      var occupants := At(pairRooms, room);
      if c !in occupants && |occupants| >= MAX_OCCUPANTS {
        Send(c, Failure);
        return;
      }
      pairRooms := pairRooms[room := occupants + {c}];
      conns := conns[c := conns[c].(rooms := conns[c].rooms + {room})];
      SendAll(occupants + {c}, Joined(room, |occupants + {c}|));
    }

    method RelayToPartner(c: ConnId, room: RoomId, payload: Payload)
      requires c in conns && conns[c].device.Some?
      modifies this`conns
      ensures View() == RelayPair(old(View()), c, old(conns[c].device.value), room, payload)
    {
      hide Say;
      if c !in At(pairRooms, room) {
        Send(c, Failure);
        return;
      }
      SendAll(pairRooms[room] - {c}, PairMessage(room, conns[c].device.value, payload));
    }

    method LeaveRoom(c: ConnId, room: RoomId)
      requires c in conns
      modifies this`conns, this`pairRooms
      ensures c in conns && View() == Leave(old(View()), c, room)
    {
      if room !in pairRooms { return; }
      var occupants := pairRooms[room] - {c};
      pairRooms := pairRooms[room := occupants];
      conns := conns[c := conns[c].(rooms := conns[c].rooms - {room})];
      if |occupants| == 0 {
        pairRooms := pairRooms - {room};
      }
    }

    method StopWatching(c: ConnId, devices: set<DeviceId>)
      modifies this`watchers
      ensures View() == Unwatch(old(View()), c, devices)
    {
      hide Unwatch;
      var todo := devices;
      UnwatchNone(View(), c);
      assert devices - todo == {};
      while todo != {}
        invariant todo <= devices
        invariant View() == Unwatch(old(View()), c, devices - todo)
        decreases |todo|
      {
        var d :| d in todo;
        UnwatchMore(old(View()), c, devices - todo, d);
        assert devices - (todo - {d}) == (devices - todo) + {d};
        OneUnwatched(View(), c, d);
        if d in watchers {
          var others := watchers[d] - {c};
          watchers := watchers[d := others];
        }
        todo := todo - {d};
      }
      assert devices - todo == devices;
    }

    method WatchAll(c: ConnId, peers: seq<DeviceId>)
      requires c in conns
      modifies this
      ensures View() == WatchPeers(old(View()), c, peers)
    {
      hide Say, IsOnline, Unwatch;
      var list := if |peers| > MAX_WATCHED then peers[..MAX_WATCHED] else peers;
      StopWatching(c, conns[c].watching);
      conns := conns[c := conns[c].(watching := set d | d in list)];
      ghost var cleared := View();
      for i := 0 to |list|
        invariant View() == AddWatchers(cleared, c, list[..i])
      {
        assert list[..i + 1][..i] == list[..i];
        var sockets := At(watchers, list[i]);
        watchers := watchers[list[i] := sockets + {c}];
      }
      assert list[..|list|] == list;
      var online := FilterOnline(list);
      Send(c, Presence(online));
    }

    method FilterOnline(list: seq<DeviceId>) returns (online: seq<DeviceId>)
      ensures online == OnlineAmong(View(), list)
    {
      hide IsOnline;
      online := [];
      for i := 0 to |list|
        invariant online == OnlineAmong(View(), list[..i])
      {
        assert list[..i + 1][..i] == list[..i];
        if IsOnline(View(), list[i]) {
          online := online + [list[i]];
        }
      }
      assert list[..|list|] == list;
    }

    method Route(c: ConnId, to: DeviceId, payload: Payload)
      requires c in conns && conns[c].device.Some?
      modifies this`conns
      ensures View() == RouteSignal(old(View()), c, old(conns[c].device.value), to, payload)
    {
      hide Say;
      if |At(connections, to)| == 0 {
        Send(c, Unreachable(to));
        return;
      }
      SendAll(At(connections, to), Signal(conns[c].device.value, payload));
    }

    method Notify(device: DeviceId, count: nat)
      modifies this`conns
      ensures View() == NotifyMail(old(View()), device, count)
    {
      hide Say;
      SendAll(At(connections, device), MailCount(count));
    }

    method Receive(c: ConnId, request: Request)
      requires c in conns
      modifies this
      ensures View() == Dispatch(old(View()), c, request)
    {
      hide HandleAuth, JoinPairRoom, RelayPair, Leave, WatchPeers, RouteSignal, Say;
      if request.Auth? {
        Authenticate(c, request.device, request.genuine, request.mail);
        return;
      }
      if conns[c].device.None? {
        Send(c, Failure);
        return;
      }
      match request
      case JoinPair(room) => JoinRoom(c, room);
      case PairTo(room, payload) => RelayToPartner(c, room, payload);
      case LeavePair(room) => LeaveRoom(c, room);
      case Watch(peers) => WatchAll(c, peers);
      case SignalTo(to, payload) => Route(c, to, payload);
      case Ping => Send(c, Pong);
      case Unknown => Send(c, Failure);
      case Auth(_, _, _) => assert false;
    }

    method Dispose(c: ConnId)
      requires c in conns
      requires forall r :: r in pairRooms ==> pairRooms[r] != {}
      modifies this
      ensures View() == Disconnect(old(View()), c)
    {
      hide Say, LeaveAll, Leave, Unwatch;
      var rooms, watching, device := conns[c].rooms, conns[c].watching, conns[c].device;
      LeaveNone(View(), c);
      var todo := rooms;
      assert rooms - todo == {};
      while todo != {}
        invariant c in conns && todo <= rooms && View() == LeaveAll(old(View()), c, rooms - todo)
        decreases |todo|
      {
        var r :| r in todo;
        LeaveMore(old(View()), c, rooms - todo, r);
        assert rooms - (todo - {r}) == (rooms - todo) + {r};
        LeaveRoom(c, r);
        todo := todo - {r};
      }
      assert rooms - todo == rooms;
      StopWatching(c, watching);
      conns := conns[c := conns[c].(live := false)];
      if device.None? { return; }
      var last := DropName(c, device.value);
      if last {
        SendAll(At(watchers, device.value), Peer(device.value, false));
      }
    }

    /** Says whether the device went offline with this socket. */
    method DropName(c: ConnId, device: DeviceId) returns (last: bool)
      modifies this`connections
      ensures View() == Unname(old(View()), c, device)
      ensures last <==> device in old(connections) && device !in connections
    {
      if device !in connections { return false; }
      var others := connections[device] - {c};
      connections := connections[device := others];
      if |others| > 0 { return false; }
      connections := connections - {device};
      assert connections == old(connections) - {device};
      return true;
    }
  }

  lemma OneUnwatched(s: State, c: ConnId, d: DeviceId)
    ensures Unwatch(s, c, {d}) ==
            if d in s.watchers then s.(watchers := s.watchers[d := s.watchers[d] - {c}]) else s
  {
    var s' := if d in s.watchers then s.(watchers := s.watchers[d := s.watchers[d] - {c}]) else s;
    assert Unwatch(s, c, {d}).watchers == s'.watchers;
  }
}
