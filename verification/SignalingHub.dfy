/**
  What becomes of a client's messages at the hub: over whole runs of the hub, with everybody else's
  connections coming and going in between, one connection's record is what the messages heeded from it
  add up to; and so what a ready client has said brings the hub to what the client wants.
 */
module SignalingHub {
  import opened Common
  import Hub
  import S = Signaling

  /** What the hub has on record for a connection. */
  function AtHub(s: Hub.State, id: Hub.ConnId): S.Asserted
    requires id in s.conns
  {
    S.Asserted(s.conns[id].watching, s.conns[id].rooms)
  }

  /** The client's message a request is, as far as the record is concerned. */
  function UpOf(request: Hub.Request): S.Up {
    match request
    case Auth(_, _, _) => S.AuthUp
    case Watch(peers) => S.WatchUp(peers)
    case JoinPair(room) => S.JoinUp(room)
    case LeavePair(room) => S.LeaveUp(room)
    case SignalTo(to, payload) => S.SignalUp(to, payload)
    case PairTo(room, payload) => S.PairUp(room, payload)
    case _ => S.PingUp
  }

  /** A join the hub turns away: the room's name is too short, or the room is full of others. */
  predicate Refused(s: Hub.State, id: Hub.ConnId, request: Hub.Request) {
    request.JoinPair? &&
    var occupants := Hub.At(s.pairRooms, request.room);
    |request.room| < Hub.MIN_ROOM_ID || (id !in occupants && |occupants| >= Hub.MAX_OCCUPANTS)
  }

  predicate Named(s: Hub.State, id: Hub.ConnId) {
    id in s.conns && s.conns[id].device.Some?
  }

  /** A request without effect on the record that should have had one. */
  predicate TurnedAway(s: Hub.State, id: Hub.ConnId, request: Hub.Request) {
    !request.Auth? && (!Named(s, id) || Refused(s, id, request))
  }

  // ---- one request ----

  lemma WatchApplies(s: Hub.State, id: Hub.ConnId, peers: seq<Hub.DeviceId>)
    requires Hub.Mirror(s) && Hub.Live(s, id)
    ensures var s' := Hub.WatchPeers(s, id, peers);
            id in s'.conns && AtHub(s', id) == AtHub(s, id).(watching := S.SetOf(S.First(peers)))
  {
    hide Hub.Rewatch, Hub.Mirror, Hub.OnlineAmong;
    Hub.RewatchMirror(s, id, S.First(peers));
  }

  lemma LeaveApplies(s: Hub.State, id: Hub.ConnId, room: Hub.RoomId)
    requires Hub.Mirror(s) && Hub.Live(s, id)
    ensures var s' := Hub.Leave(s, id, room);
            id in s'.conns && AtHub(s', id) == AtHub(s, id).(rooms := s.conns[id].rooms - {room})
  {
    hide Hub.DevicesMirror, Hub.WatchersMirror;
    assert id in Hub.At(s.pairRooms, room) <==> room in s.conns[id].rooms;
    assert room !in s.pairRooms ==> s.conns[id].rooms - {room} == s.conns[id].rooms;
  }

  lemma {:induction false} ServeApplies(s: Hub.State, id: Hub.ConnId, sender: Hub.DeviceId, request: Hub.Request)
    requires Hub.Mirror(s) && Hub.Live(s, id) && !request.Auth?
    ensures var s' := Hub.Serve(s, id, sender, request);
            && id in s'.conns
            && AtHub(s', id) == if Refused(s, id, request) then AtHub(s, id) else S.Apply(AtHub(s, id), UpOf(request))
  {
    hide Hub.Mirror, Hub.WatchPeers, Hub.Leave, S.First;
    match request
    case Watch(peers) => WatchApplies(s, id, peers);
    case LeavePair(room) => LeaveApplies(s, id, room);
    case _ =>
  }

  /** Apply is what the hub does with a request that is not turned away; one that is changes nothing. */
  lemma DispatchApplies(s: Hub.State, id: Hub.ConnId, request: Hub.Request)
    requires Hub.Mirror(s) && Hub.Live(s, id)
    ensures var s' := Hub.Dispatch(s, id, request);
            && id in s'.conns
            && AtHub(s', id) ==
               if TurnedAway(s, id, request) then AtHub(s, id) else S.Apply(AtHub(s, id), UpOf(request))
  {
    hide Hub.Mirror, Hub.Serve, Refused;
    if !request.Auth? && Named(s, id) {
      ServeApplies(s, id, s.conns[id].device.value, request);
    }
  }

  // ---- everybody else ----

  /** The event is none of this connection's own. */
  predicate Elsewhere(e: Hub.Event, id: Hub.ConnId) {
    match e
    case Connects(c) => c != id
    case Receives(c, _) => c != id
    case Closes(c) => c != id
    case MailArrives(_, _) => true
  }

  /** Everything about a connection but what was said to it. */
  predicate SameRecord(s: Hub.State, s': Hub.State, id: Hub.ConnId) {
    && (id in s'.conns <==> id in s.conns)
    && (id in s.conns ==> s'.conns[id] == s.conns[id].(log := s'.conns[id].log))
  }

  lemma SaySame(s: Hub.State, targets: set<Hub.ConnId>, m: Hub.Message, id: Hub.ConnId)
    ensures SameRecord(s, Hub.Say(s, targets, m), id)
  {
  }

  lemma {:induction false} AddWatchersConns(s: Hub.State, c: Hub.ConnId, list: seq<Hub.DeviceId>)
    ensures Hub.AddWatchers(s, c, list).conns == s.conns
  {
    if list != [] {
      AddWatchersConns(s, c, list[..|list| - 1]);
    }
  }

  lemma RewatchSame(s: Hub.State, c: Hub.ConnId, list: seq<Hub.DeviceId>, id: Hub.ConnId)
    requires c in s.conns && c != id
    ensures SameRecord(s, Hub.Rewatch(s, c, list), id)
  {
    hide Hub.AddWatchers;
    var cleared := Hub.Unwatch(s, c, s.conns[c].watching);
    AddWatchersConns(cleared.(conns := s.conns[c := s.conns[c].(watching := set d | d in list)]), c, list);
  }

  lemma AuthSame(s: Hub.State, c: Hub.ConnId, request: Hub.Request, id: Hub.ConnId)
    requires c in s.conns && c != id && request.Auth?
    ensures SameRecord(s, Hub.Dispatch(s, c, request), id)
  {
  }

  lemma ServeSame(s: Hub.State, c: Hub.ConnId, sender: Hub.DeviceId, request: Hub.Request, id: Hub.ConnId)
    requires c in s.conns && c != id
    ensures SameRecord(s, Hub.Serve(s, c, sender, request), id)
  {
    hide Hub.Rewatch, Hub.OnlineAmong, Hub.At;
    if request.Watch? {
      RewatchSame(s, c, S.First(request.peers), id);
    }
  }

  lemma {:induction false} DispatchSame(s: Hub.State, c: Hub.ConnId, request: Hub.Request, id: Hub.ConnId)
    requires c in s.conns && c != id
    ensures SameRecord(s, Hub.Dispatch(s, c, request), id)
  {
    hide Hub.Serve, Hub.HandleAuth;
    if request.Auth? {
      AuthSame(s, c, request, id);
    } else if Named(s, c) {
      ServeSame(s, c, s.conns[c].device.value, request, id);
    }
  }

  lemma DisconnectSame(s: Hub.State, c: Hub.ConnId, id: Hub.ConnId)
    requires c in s.conns && c != id
    ensures SameRecord(s, Hub.Disconnect(s, c), id)
  {
    hide Hub.Remaining, Hub.Vacate;
  }

  /** Whatever other connections do, and whatever mail arrives, a connection's record stays what it was. */
  lemma {:induction false} OthersTouchNothing(s: Hub.State, e: Hub.Event, id: Hub.ConnId)
    requires Elsewhere(e, id)
    ensures SameRecord(s, Hub.Step(s, e), id)
  {
    hide Hub.Dispatch, Hub.Disconnect;
    match e
    case Connects(c) =>
    case Receives(c, request) =>
      if Hub.Live(s, c) {
        DispatchSame(s, c, request, id);
      }
    case Closes(c) =>
      if Hub.Live(s, c) {
        DisconnectSame(s, c, id);
      }
    case MailArrives(device, count) => SaySame(s, Hub.At(s.connections, device), Hub.MailCount(count), id);
  }

  // ---- whole runs ----

  function Front<T>(s: seq<T>): seq<T>
    requires s != []
  {
    s[..|s| - 1]
  }

  function Last<T>(s: seq<T>): T
    requires s != []
  {
    s[|s| - 1]
  }

  /** The hub takes this event as a message from the connection. */
  predicate Hears(s: Hub.State, e: Hub.Event, id: Hub.ConnId) {
    e.Receives? && e.c == id && Hub.Live(s, id)
  }

  /** The messages taken from a connection, in order. */
  function Taken(events: seq<Hub.Event>, id: Hub.ConnId): seq<S.Up> {
    if events == [] then []
    else Taken(Front(events), id) +
         if Hears(Hub.Run(Front(events)), Last(events), id) then [UpOf(Last(events).request)] else []
  }

  /** Those of them that were not turned away. */
  function Heeded(events: seq<Hub.Event>, id: Hub.ConnId): seq<S.Up> {
    if events == [] then []
    else
      var s, e := Hub.Run(Front(events)), Last(events);
      Heeded(Front(events), id) + if Hears(s, e, id) && !TurnedAway(s, id, e.request) then [UpOf(e.request)] else []
  }

  /**
    In every run of the hub and for every connection still alive, its record is what the messages
    heeded from it add up to, in the order they came, whatever the others did in between.
   */
  lemma {:induction false} RecordIsHeeded(events: seq<Hub.Event>, id: Hub.ConnId)
    ensures var s := Hub.Run(events);
            if Hub.Live(s, id) then AtHub(s, id) == S.ApplyAll(S.NOTHING, Heeded(events, id))
            else id !in s.conns ==> Heeded(events, id) == []
  {
    hide Hub.Step, S.ApplyAll, TurnedAway, Hub.Mirror, Hub.PresenceTrue;
    if events == [] {
      NothingYet();
    } else {
      RecordIsHeeded(Front(events), id);
      Hub.RunGood(Front(events));
      OneMoreHeeded(Hub.Run(Front(events)), Last(events), id, Heeded(Front(events), id));
    }
  }

  lemma NothingYet()
    ensures S.ApplyAll(S.NOTHING, []) == S.NOTHING
  {
  }

  lemma OneMoreHeeded(s: Hub.State, e: Hub.Event, id: Hub.ConnId, heeded: seq<S.Up>)
    requires Hub.Mirror(s)
    requires if Hub.Live(s, id) then AtHub(s, id) == S.ApplyAll(S.NOTHING, heeded) else id !in s.conns ==> heeded == []
    ensures var s' := Hub.Step(s, e);
            var more := if Hears(s, e, id) && !TurnedAway(s, id, e.request) then [UpOf(e.request)] else [];
            if Hub.Live(s', id) then AtHub(s', id) == S.ApplyAll(S.NOTHING, heeded + more)
            else id !in s'.conns ==> heeded + more == []
  {
    hide Hub.Dispatch, Hub.Disconnect, S.Apply, S.ApplyAll, TurnedAway, Hub.Mirror;
    NothingYet();
    assert heeded + [] == heeded;
    if Elsewhere(e, id) {
      OthersTouchNothing(s, e, id);
    } else if Hears(s, e, id) {
      DispatchApplies(s, id, e.request);
      S.ApplyMore(S.NOTHING, heeded, UpOf(e.request));
    } else if e.Closes? && Hub.Live(s, id) {
      GoneNotLive(s, id);
    }
  }

  lemma GoneNotLive(s: Hub.State, id: Hub.ConnId)
    requires Hub.Live(s, id)
    ensures id in Hub.Disconnect(s, id).conns && !Hub.Live(Hub.Disconnect(s, id), id)
  {
    hide Hub.Remaining, Hub.Vacate;
  }

  // ---- nothing turned away ----

  /** A genuine proof of who is at the other end has been taken from the connection. */
  predicate Proven(events: seq<Hub.Event>, id: Hub.ConnId) {
    events != [] &&
    (Proven(Front(events), id) ||
     (Hears(Hub.Run(Front(events)), Last(events), id) && Last(events).request.Auth? && Last(events).request.genuine))
  }

  /**
    Nothing that bears on the record came before a genuine proof, and no join was refused. Signals and
    pairing messages, which a client may send as soon as its socket is open, may come at any time.
   */
  ghost predicate Welcome(events: seq<Hub.Event>, id: Hub.ConnId) {
    forall i :: 0 <= i < |events| && Hears(Hub.Run(events[..i]), events[i], id) ==>
      && (S.AssertsNothing(UpOf(events[i].request)) || Proven(events[..i], id))
      && !Refused(Hub.Run(events[..i]), id, events[i].request)
  }

  lemma {:induction false} ProvenNamed(events: seq<Hub.Event>, id: Hub.ConnId)
    requires Proven(events, id)
    ensures Named(Hub.Run(events), id)
  {
    hide Hub.Step, Hears;
    if Proven(Front(events), id) {
      ProvenNamed(Front(events), id);
      NamedStays(Hub.Run(Front(events)), Last(events), id);
    } else {
      AuthNames(Hub.Run(Front(events)), Last(events), id);
    }
  }

  lemma NeutralApplies(a: S.Asserted, m: S.Up)
    requires S.AssertsNothing(m)
    ensures S.Apply(a, m) == a
  {
  }

  /** What was heeded adds up to what was taken: nothing of account was turned away. */
  lemma {:induction false} AllHeeded(events: seq<Hub.Event>, id: Hub.ConnId)
    requires Welcome(events, id)
    ensures S.ApplyAll(S.NOTHING, Heeded(events, id)) == S.ApplyAll(S.NOTHING, Taken(events, id))
  {
    hide Hub.Run, Refused, S.Apply, S.ApplyAll, S.AssertsNothing, Proven;
    if events != [] {
      var front, e := Front(events), Last(events);
      var s := Hub.Run(front);
      assert forall i :: 0 <= i < |front| ==> front[..i] == events[..i];
      AllHeeded(front, id);
      if Hears(s, e, id) {
        var m := UpOf(e.request);
        S.ApplyMore(S.NOTHING, Taken(front, id), m);
        S.ApplyMore(S.NOTHING, Heeded(front, id), m);
        if S.AssertsNothing(m) {
          NeutralApplies(S.ApplyAll(S.NOTHING, Heeded(front, id)), m);
          NeutralApplies(S.ApplyAll(S.NOTHING, Taken(front, id)), m);
        } else {
          ProvenNamed(front, id);
        }
      }
      assert Heeded(front, id) + [] == Heeded(front, id) && Taken(front, id) + [] == Taken(front, id);
    }
  }

  lemma {:induction false} NamedStays(s: Hub.State, e: Hub.Event, id: Hub.ConnId)
    requires Named(s, id)
    ensures Named(Hub.Step(s, e), id)
  {
    hide Hub.Dispatch, Hub.Disconnect;
    if Elsewhere(e, id) {
      OthersTouchNothing(s, e, id);
    } else if Hub.Live(s, id) && !e.Connects? {
      OwnNamed(s, e, id);
    }
  }

  lemma OwnNamed(s: Hub.State, e: Hub.Event, id: Hub.ConnId)
    requires Named(s, id) && Hub.Live(s, id) && (e.Receives? || e.Closes?) && e.c == id
    ensures Named(Hub.Step(s, e), id)
  {
    hide Hub.AddWatchers, Hub.OnlineAmong, Hub.Remaining, Hub.Vacate;
    if e.Receives? && e.request.Watch? {
      var list := S.First(e.request.peers);
      AddWatchersConns(Hub.Unwatch(s, id, s.conns[id].watching)
                          .(conns := s.conns[id := s.conns[id].(watching := set d | d in list)]), id, list);
    }
  }

  lemma AuthNames(s: Hub.State, e: Hub.Event, id: Hub.ConnId)
    requires Hears(s, e, id)
    ensures e.request.Auth? && e.request.genuine ==> Named(Hub.Step(s, e), id)
  {
    if Named(s, id) {
      NamedStays(s, e, id);
    }
  }

  /**
    Client and hub together: the hub has taken some of what a ready client sent on the socket it holds,
    signals and pairing messages among it, had a genuine proof before anything that bears on the record, and
    refused it no room. Then what is still in flight brings the hub's
    record of the connection to what the client wants; when nothing is, that is what the record says.
   */
  lemma {:induction false} ReassertedAtHub(events: seq<S.Event>, hubEvents: seq<Hub.Event>, id: Hub.ConnId, taken: nat)
    requires S.AllHarmless(events) && Welcome(hubEvents, id) && Hub.Live(Hub.Run(hubEvents), id)
    requires var c := S.Run(events);
             && c.ready && c.socket.Some? && c.socket.value.state.Open?
             && taken <= |c.socket.value.sent| && Taken(hubEvents, id) == c.socket.value.sent[..taken]
    ensures var c, record := S.Run(events), AtHub(Hub.Run(hubEvents), id);
            && S.ApplyAll(record, c.socket.value.sent[taken..]) == S.Wanted(c)
            && (taken == |c.socket.value.sent| ==> record == S.Wanted(c))
  {
    hide S.Run, Hub.Run, Welcome, S.Wanted, Taken, Heeded, S.Step, Hub.Step;
    AllHeeded(hubEvents, id);
    RecordIsHeeded(hubEvents, id);
    S.Converges(events, taken);
  }
}
