/**
  What every socket hears, and what becomes of every connection's record, said of the connections themselves and
  not of the hub's indexes: over every run, each thing that happens adds exactly these words to each log.
 */
module HubHears {
  import opened Common
  import opened Hub

  // ---- who is concerned ----

  function SocketsOf(s: State, device: DeviceId): set<ConnId> {
    set x | x in s.conns && s.conns[x].live && s.conns[x].device == Some(device)
  }

  function Occupants(s: State, room: RoomId): set<ConnId> {
    set x | x in s.conns && s.conns[x].live && room in s.conns[x].rooms
  }

  function WatchersOf(s: State, device: DeviceId): set<ConnId> {
    set x | x in s.conns && s.conns[x].live && device in s.conns[x].watching
  }

  function First(peers: seq<DeviceId>): seq<DeviceId> {
    if |peers| > MAX_WATCHED then peers[..MAX_WATCHED] else peers
  }

  /** Those of a list that have a live socket, in the order of the list. */
  function Reachable(s: State, list: seq<DeviceId>): seq<DeviceId> {
    if list == [] then []
    else Reachable(s, list[..|list| - 1]) + if SocketsOf(s, list[|list| - 1]) != {} then [list[|list| - 1]] else []
  }

  // ---- the words ----

  function Only(yes: bool, m: Message): seq<Message> {
    if yes then [m] else []
  }

  /** What x hears when the live socket c asks for something. */
  function RequestWords(s: State, c: ConnId, request: Request, x: ConnId): seq<Message>
    requires Live(s, c)
  {
    var device := s.conns[c].device;
    if request.Auth? then
      if device.Some? || !request.genuine then Only(x == c, Failure)
      else Only(x == c, Ready(request.mail)) + Only(x in WatchersOf(s, request.device), Peer(request.device, true))
    else if device.None? then Only(x == c, Failure)
    else
      match request
      case JoinPair(room) =>
        var others := Occupants(s, room) - {c};
        if |room| < MIN_ROOM_ID || (c !in Occupants(s, room) && |others| >= MAX_OCCUPANTS) then Only(x == c, Failure)
        else Only(x == c || x in others, Joined(room, 1 + |others|))
      case PairTo(room, payload) =>
        if c !in Occupants(s, room) then Only(x == c, Failure)
        else Only(x in Occupants(s, room) && x != c, PairMessage(room, device.value, payload))
      case LeavePair(_) => []
      case Watch(peers) => Only(x == c, Presence(Reachable(s, First(peers))))
      case SignalTo(to, payload) =>
        if SocketsOf(s, to) == {} then Only(x == c, Unreachable(to))
        else Only(x in SocketsOf(s, to), Signal(device.value, payload))
      case Ping => Only(x == c, Pong)
      case _ => Only(x == c, Failure)
  }

  /** What x hears of anything that happens; a socket is told nothing once it is gone. */
  function Words(s: State, e: Event, x: ConnId): seq<Message> {
    match e
    case Connects(c) => Only(x == c && c !in s.conns, Challenge)
    case Receives(c, request) => if Live(s, c) then RequestWords(s, c, request, x) else []
    case Closes(c) =>
      if !Live(s, c) || s.conns[c].device.None? then []
      else
        var device := s.conns[c].device.value;
        Only(SocketsOf(s, device) == {c} && x in WatchersOf(s, device) && x != c, Peer(device, false))
    case MailArrives(device, count) => Only(x in SocketsOf(s, device), MailCount(count))
  }

  // ---- the records ----

  /** The connection's record after it asked for something, but for its log. */
  function RequestRecord(s: State, c: ConnId, request: Request): Conn
    requires Live(s, c)
  {
    var conn := s.conns[c];
    match request
    case Auth(device, genuine, _) =>
      if conn.device.None? && genuine then conn.(device := Some(device)) else conn
    case JoinPair(room) =>
      var others := Occupants(s, room) - {c};
      if conn.device.None? || |room| < MIN_ROOM_ID || (c !in Occupants(s, room) && |others| >= MAX_OCCUPANTS) then conn
      else conn.(rooms := conn.rooms + {room})
    case LeavePair(room) => if conn.device.None? then conn else conn.(rooms := conn.rooms - {room})
    case Watch(peers) => if conn.device.None? then conn else conn.(watching := set d | d in First(peers))
    case _ => conn
  }

  /** Everyone's record after anything, but for the logs. */
  function Records(s: State, e: Event): map<ConnId, Conn> {
    match e
    case Connects(c) => if c in s.conns then s.conns else s.conns[c := Conn(None, {}, {}, true, [])]
    case Receives(c, request) => if Live(s, c) then s.conns[c := RequestRecord(s, c, request)] else s.conns
    case Closes(c) =>
      if Live(s, c) then s.conns[c := s.conns[c].(live := false, rooms := {})] else s.conns
    case MailArrives(_, _) => s.conns
  }

  /** The hub after s is what the records and the words make of it. */
  ghost predicate Told(s: State, s': State, e: Event) {
    && s'.conns.Keys == Records(s, e).Keys
    && forall x :: x in s'.conns ==>
         var log := if x in s.conns then s.conns[x].log else [];
         s'.conns[x] == Records(s, e)[x].(log := log + Words(s, e, x))
  }

  // ---- the indexes say the same ----

  lemma SocketsMean(s: State, d: DeviceId)
    requires DevicesMirror(s)
    ensures At(s.connections, d) == SocketsOf(s, d)
  {
    forall x: ConnId
      ensures x in At(s.connections, d) <==> x in SocketsOf(s, d)
    {
      assert x in At(s.connections, d) <==> Live(s, x) && s.conns[x].device == Some(d);
    }
  }

  lemma OccupantsMean(s: State, r: RoomId)
    requires RoomsMirror(s)
    ensures At(s.pairRooms, r) == Occupants(s, r)
  {
    forall x: ConnId
      ensures x in At(s.pairRooms, r) <==> x in Occupants(s, r)
    {
      assert x in At(s.pairRooms, r) <==> Live(s, x) && r in s.conns[x].rooms;
    }
  }

  lemma WatchersMean(s: State, d: DeviceId)
    requires WatchersMirror(s)
    ensures At(s.watchers, d) == WatchersOf(s, d)
  {
    forall x: ConnId
      ensures x in At(s.watchers, d) <==> x in WatchersOf(s, d)
    {
      assert x in At(s.watchers, d) <==> Live(s, x) && d in s.conns[x].watching;
    }
  }

  lemma {:induction false} OnlineReachable(s: State, t: State, list: seq<DeviceId>)
    requires DevicesMirror(s) && t.connections == s.connections
    ensures OnlineAmong(t, list) == Reachable(s, list)
  {
    hide DevicesMirror, SocketsOf;
    if list != [] {
      OnlineReachable(s, t, list[..|list| - 1]);
      OnlineMeans(t, list[|list| - 1]);
      SocketsMean(s, list[|list| - 1]);
    }
  }

  // ---- one event ----

  lemma Said(s: State, targets: set<ConnId>, m: Message)
    ensures var s' := Say(s, targets, m);
            && s'.conns.Keys == s.conns.Keys
            && (forall x :: x in s.conns ==>
                  s'.conns[x] == s.conns[x].(log := s.conns[x].log + Only(x in targets, m)))
            && s'.connections == s.connections && s'.pairRooms == s.pairRooms && s'.watchers == s.watchers
  {
    forall x | x in s.conns
      ensures Say(s, targets, m).conns[x] == s.conns[x].(log := s.conns[x].log + Only(x in targets, m))
    {
      assert s.conns[x].log + [] == s.conns[x].log;
    }
  }

  /** One message said, once the records are what they should be. */
  lemma SayTold(s: State, m0: State, targets: set<ConnId>, m: Message, e: Event)
    requires m0.conns == Records(s, e) && !e.Connects?
    requires forall x :: x in s.conns ==> Words(s, e, x) == Only(x in targets, m)
    ensures Told(s, Say(m0, targets, m), e)
  {
    hide Say, Words;
    Said(m0, targets, m);
    forall x | x in Say(m0, targets, m).conns
      ensures x in s.conns && Records(s, e)[x].log == s.conns[x].log
    {
    }
  }

  lemma AuthTold(s: State, c: ConnId, request: Request)
    requires Mirror(s) && Live(s, c) && request.Auth?
    ensures Told(s, Dispatch(s, c, request), Receives(c, request))
  {
    hide DevicesMirror, RoomsMirror, WatchersMirror, SocketsOf, Occupants, WatchersOf, Say;
    if s.conns[c].device.Some? || !request.genuine {
      hide Told;
      assert s.conns[c := s.conns[c]] == s.conns;
      SayTold(s, s, {c}, Failure, Receives(c, request));
    } else {
      WelcomeTold(s, c, request);
    }
  }

  lemma WelcomeTold(s: State, c: ConnId, request: Request)
    requires Mirror(s) && Live(s, c) && request.Auth? && s.conns[c].device.None? && request.genuine
    ensures Told(s, Dispatch(s, c, request), Receives(c, request))
  {
    hide DevicesMirror, RoomsMirror, WatchersMirror, SocketsOf, Occupants, WatchersOf, Say, At;
    var watchers := At(s.watchers, request.device);
    WatchersMean(s, request.device);
    var named := Name(s, c, request.device);
    var greeted := Say(named, {c}, Ready(request.mail));
    Said(named, {c}, Ready(request.mail));
    Said(greeted, watchers, Peer(request.device, true));
    var e := Receives(c, request);
    forall x | x in s.conns
      ensures Announce(greeted, request.device, true).conns[x]
              == Records(s, e)[x].(log := s.conns[x].log + Words(s, e, x))
    {
      Associative(s.conns[x].log, Only(x == c, Ready(request.mail)), Only(x in watchers, Peer(request.device, true)));
    }
  }

  lemma JoinTold(s: State, c: ConnId, request: Request)
    requires Mirror(s) && Live(s, c) && request.JoinPair? && s.conns[c].device.Some?
    ensures Told(s, Dispatch(s, c, request), Receives(c, request))
  {
    hide DevicesMirror, RoomsMirror, WatchersMirror, SocketsOf, Occupants, WatchersOf, Say, At, Told;
    var e := Receives(c, request);
    var occupants := At(s.pairRooms, request.room);
    OccupantsMean(s, request.room);
    OneMore(occupants - {c}, c);
    assert occupants + {c} == (occupants - {c}) + {c};
    assert c !in occupants ==> occupants - {c} == occupants;
    if |request.room| < MIN_ROOM_ID || (c !in occupants && |occupants| >= MAX_OCCUPANTS) {
      assert s.conns[c := s.conns[c]] == s.conns;
      SayTold(s, s, {c}, Failure, e);
    } else {
      SayTold(s, Enter(s, c, request.room), occupants + {c}, Joined(request.room, |occupants + {c}|), e);
    }
  }

  lemma LeaveTold(s: State, c: ConnId, request: Request)
    requires Mirror(s) && Live(s, c) && request.LeavePair? && s.conns[c].device.Some?
    ensures Told(s, Dispatch(s, c, request), Receives(c, request))
  {
    hide DevicesMirror, WatchersMirror, SocketsOf, WatchersOf;
    var room := request.room;
    assert c in At(s.pairRooms, room) <==> room in s.conns[c].rooms;
    assert room !in s.conns[c].rooms ==> s.conns[c].rooms - {room} == s.conns[c].rooms;
  }

  lemma WatchTold(s: State, c: ConnId, request: Request)
    requires Mirror(s) && Live(s, c) && request.Watch? && s.conns[c].device.Some?
    ensures Told(s, Dispatch(s, c, request), Receives(c, request))
  {
    hide DevicesMirror, RoomsMirror, WatchersMirror, SocketsOf, Occupants, WatchersOf;
    hide Rewatch, OnlineAmong, Reachable, Say;
    var list := First(request.peers);
    var watched := Rewatch(s, c, list);
    RewatchFrame(s, c, list);
    OnlineReachable(s, watched, list);
    Said(watched, {c}, Presence(OnlineAmong(watched, list)));
  }

  lemma OtherTold(s: State, c: ConnId, request: Request)
    requires Mirror(s) && Live(s, c)
    requires s.conns[c].device.None? || request.PairTo? || request.SignalTo? || request.Ping? || request.Unknown?
    requires !request.Auth?
    ensures Told(s, Dispatch(s, c, request), Receives(c, request))
  {
    hide DevicesMirror, RoomsMirror, WatchersMirror, SocketsOf, Occupants, WatchersOf, Rewatch, Say, At, Told;
    var e := Receives(c, request);
    assert s.conns[c := s.conns[c]] == s.conns;
    if s.conns[c].device.None? {
      SayTold(s, s, {c}, Failure, e);
    } else {
      var device := s.conns[c].device.value;
      match request
      case PairTo(room, payload) =>
        var occupants := At(s.pairRooms, room);
        OccupantsMean(s, room);
        if c in occupants {
          SayTold(s, s, occupants - {c}, PairMessage(room, device, payload), e);
        } else {
          SayTold(s, s, {c}, Failure, e);
        }
      case SignalTo(to, payload) =>
        SocketsMean(s, to);
        OnlineMeans(s, to);
        if At(s.connections, to) == {} {
          SayTold(s, s, {c}, Unreachable(to), e);
        } else {
          SayTold(s, s, At(s.connections, to), Signal(device, payload), e);
        }
      case Ping => SayTold(s, s, {c}, Pong, e);
      case _ => SayTold(s, s, {c}, Failure, e);
    }
  }

  lemma GoneRecords(s: State, c: ConnId)
    requires RoomsMirror(s) && Live(s, c)
    ensures MarkGone(Withdraw(s, c), c).conns == Records(s, Closes(c))
  {
    hide Unwatch;
    forall r | r in s.conns[c].rooms
      ensures r in s.pairRooms
    {
      assert c in At(s.pairRooms, r);
    }
    assert Remaining(s, c, s.conns[c].rooms) == {};
  }

  /** The device loses its last socket with c if and only if c is all it has. */
  lemma LastSocket(s: State, withdrawn: State, c: ConnId, device: DeviceId)
    requires DevicesMirror(s) && Live(s, c) && s.conns[c].device == Some(device)
    requires withdrawn.connections == s.connections
    ensures device in withdrawn.connections && device !in Unname(withdrawn, c, device).connections
            <==> SocketsOf(s, device) == {c}
  {
    SocketsMean(s, device);
    assert c in At(s.connections, device);
    assert At(s.connections, device) - {c} == {} <==> At(s.connections, device) == {c};
  }

  lemma CloseTold(s: State, c: ConnId)
    requires Mirror(s) && Live(s, c)
    ensures Told(s, Disconnect(s, c), Closes(c))
  {
    hide DevicesMirror, RoomsMirror, WatchersMirror, SocketsOf, Occupants, Withdraw, MarkGone, Unname, Say, At;
    var gone := MarkGone(Withdraw(s, c), c);
    Withdrawn(s, c);
    GoneRecords(s, c);
    if s.conns[c].device.Some? {
      var device := s.conns[c].device.value;
      LastSocket(s, gone, c, device);
      UnnameFrame(gone, c, device);
      WatchersMean(gone, device);
      Said(Unname(gone, c, device), At(gone.watchers, device), Peer(device, false));
    }
  }

  lemma StepTold(s: State, e: Event)
    requires Good(s)
    ensures Told(s, Step(s, e), e)
  {
    hide Told, Dispatch, Disconnect, DevicesMirror, RoomsMirror, WatchersMirror, PresenceTrue, NotifyMail, Accept;
    match e
    case Receives(c, request) =>
      if Live(s, c) {
        if request.Auth? {
          AuthTold(s, c, request);
        } else if s.conns[c].device.None? {
          OtherTold(s, c, request);
        } else {
          match request
          case JoinPair(_) => JoinTold(s, c, request);
          case LeavePair(_) => LeaveTold(s, c, request);
          case Watch(_) => WatchTold(s, c, request);
          case _ => OtherTold(s, c, request);
        }
      } else {
        NothingTold(s, e);
      }
    case Closes(c) =>
      if Live(s, c) {
        CloseTold(s, c);
      } else {
        NothingTold(s, e);
      }
    case Connects(c) => ConnectTold(s, c);
    case MailArrives(device, count) => MailTold(s, device, count);
  }

  lemma NothingTold(s: State, e: Event)
    requires (e.Receives? || e.Closes?) && !Live(s, e.c)
    ensures Told(s, s, e)
  {
  }

  lemma ConnectTold(s: State, c: ConnId)
    ensures Told(s, Accept(s, c), Connects(c))
  {
  }

  lemma MailTold(s: State, device: DeviceId, count: nat)
    requires DevicesMirror(s)
    ensures Told(s, NotifyMail(s, device, count), MailArrives(device, count))
  {
    hide DevicesMirror, SocketsOf;
    SocketsMean(s, device);
    Said(s, At(s.connections, device), MailCount(count));
  }

  /**
    In every run, whatever happens next: every connection's log grows by exactly the words that are meant for it,
    and every record changes as it is meant to and in no other way. A signal goes to every live socket of the device
    addressed and to nobody else, mail to every socket of its owner, a pairing message to the other occupant, news of
    a device to those who watch it.
   */
  lemma HearsExactly(events: seq<Event>, e: Event)
    ensures Told(Run(events), Step(Run(events), e), e)
  {
    hide Run, Step, Told, Mirror, PresenceTrue;
    RunGood(events);
    StepTold(Run(events), e);
  }
  /** A signal goes to every live socket of the device addressed, under its sender's own name, and to no other. */
  lemma {:induction false} SignalReachesDevice(events: seq<Event>, c: ConnId, to: DeviceId, payload: Payload, x: ConnId)
    requires Live(Run(events), c) && Run(events).conns[c].device.Some? && x in Run(events).conns
    ensures var s := Run(events);
            var s' := Step(s, Receives(c, SignalTo(to, payload)));
            var reached := exists y :: Live(s, y) && s.conns[y].device == Some(to);
            && x in s'.conns
            && s'.conns[x].log == s.conns[x].log +
                 if !reached then (if x == c then [Unreachable(to)] else [])
                 else if Live(s, x) && s.conns[x].device == Some(to) then [Signal(s.conns[c].device.value, payload)]
                 else []
  {
    hide Run, Step;
    HearsExactly(events, Receives(c, SignalTo(to, payload)));
    var s := Run(events);
    assert SocketsOf(s, to) != {} ==> exists y :: y in SocketsOf(s, to);
    assert forall y :: Live(s, y) && s.conns[y].device == Some(to) ==> y in SocketsOf(s, to);
  }

  /** Mail is told to every live socket of its owner and to no other, and a socket that comes online hears its count. */
  lemma {:induction false} MailIsTold(events: seq<Event>, device: DeviceId, count: nat, x: ConnId)
    requires x in Run(events).conns
    ensures var s := Run(events);
            var s' := Step(s, MailArrives(device, count));
            && x in s'.conns
            && s'.conns[x].log == s.conns[x].log +
                 if Live(s, x) && s.conns[x].device == Some(device) then [MailCount(count)] else []
    ensures var s := Run(events);
            var s' := Step(s, Receives(x, Auth(device, true, count)));
            Live(s, x) && s.conns[x].device.None? ==>
              && x in s'.conns && s'.conns[x].device == Some(device)
              && |s'.conns[x].log| > |s.conns[x].log| && s'.conns[x].log[|s.conns[x].log|] == Ready(count)
  {
    hide Run, Step;
    HearsExactly(events, MailArrives(device, count));
    HearsExactly(events, Receives(x, Auth(device, true, count)));
    var s := Run(events);
    var news := Words(s, Receives(x, Auth(device, true, count)), x);
    if Live(s, x) && s.conns[x].device.None? {
      assert news[0] == Ready(count);
    }
  }
}
