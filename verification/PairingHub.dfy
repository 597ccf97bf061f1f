/** The two-party room of the pairing proofs is the hub's own room, seen by its two sockets. */
module PairingHub {
  import opened Common
  import opened Pairing
  import Confirmation
  import Hub

  /** What the hub puts on a socket, as the pairing attempt sees it. */
  ghost predicate Seen(d: Down, m: Hub.Message, room: Hub.RoomId, code: Payload -> Hub.Payload) {
    match d
    case Joined(n) => m == Hub.Joined(room, n)
    case FromPeer(payload) => m.PairMessage? && m.room == room && m.payload == code(payload)
    case Other => !m.Joined? && !m.PairMessage?
  }

  /** Nothing new on the socket, or one and the same message on both sides. */
  ghost predicate SameNews(before: Party, after: Party, log: seq<Hub.Message>, log': seq<Hub.Message>,
                           room: Hub.RoomId, code: Payload -> Hub.Payload)
  {
    if after.down == before.down then log' == log
    else
      && after.down != [] && log' != []
      && after.down == before.down + [after.down[|after.down| - 1]] && log' == log + [log'[|log'| - 1]]
      && Seen(after.down[|after.down| - 1], log'[|log'| - 1], room, code)
  }

  /** Sockets x and y, and nobody else, are in the room as the two parties say. */
  ghost predicate Represents(s: Hub.State, room: Hub.RoomId, x: Hub.ConnId, y: Hub.ConnId, me: Party, other: Party) {
    && x != y && Hub.Live(s, x) && Hub.Live(s, y) && |room| >= Hub.MIN_ROOM_ID
    && Hub.At(s.pairRooms, room) == Occupants(x, me.inRoom, y, other.inRoom)
  }

  /** After the hub has served the next message of the first party: the same room, and the same news to each. */
  ghost predicate Alike(s: Hub.State, s': Hub.State, room: Hub.RoomId, x: Hub.ConnId, y: Hub.ConnId,
                        me: Party, other: Party, code: Payload -> Hub.Payload)
    requires Hub.Live(s, x) && Hub.Live(s, y)
  {
    var (me', other') := HubStep(me, other);
    && Represents(s', room, x, y, me', other')
    && SameNews(me, me', s.conns[x].log, s'.conns[x].log, room, code)
    && SameNews(other, other', s.conns[y].log, s'.conns[y].log, room, code)
  }

  function Request(m: Up, room: Hub.RoomId, code: Payload -> Hub.Payload): Hub.Request {
    match m
    case Join => Hub.JoinPair(room)
    case Leave => Hub.LeavePair(room)
    case Pair(payload) => Hub.PairTo(room, code(payload))
  }

  function Occupants(x: Hub.ConnId, mine: bool, y: Hub.ConnId, theirs: bool): set<Hub.ConnId> {
    (if mine then {x} else {}) + (if theirs then {y} else {})
  }

  lemma OneJoins(x: Hub.ConnId, mine: bool, y: Hub.ConnId, theirs: bool)
    requires x != y
    ensures var occupants := Occupants(x, mine, y, theirs);
            && occupants + {x} == Occupants(x, true, y, theirs)
            && |occupants + {x}| == (if theirs then 2 else 1)
            && (x in occupants || |occupants| < Hub.MAX_OCCUPANTS)
            && (y in occupants <==> theirs)
  {
    var occupants := Occupants(x, mine, y, theirs);
    if theirs {
      assert occupants + {x} == {x, y};
      assert !mine ==> occupants == {y};
    } else {
      assert occupants + {x} == {x};
      assert !mine ==> occupants == {};
    }
  }

  /** The hub, serving the next message of a socket, does what the two-party room of the pairing proofs does. */
  lemma {:induction false} HubServesAsRoom(s: Hub.State, room: Hub.RoomId, x: Hub.ConnId, y: Hub.ConnId,
                                           sender: Hub.DeviceId, me: Party, other: Party,
                                           code: Payload -> Hub.Payload)
    requires Represents(s, room, x, y, me, other) && me.up != []
    ensures Alike(s, Hub.Serve(s, x, sender, Request(me.up[0], room, code)), room, x, y, me, other, code)
  {
    match me.up[0]
    case Join => JoinsAlike(s, room, x, y, sender, me, other, code);
    case Leave => LeavesAlike(s, room, x, y, sender, me, other, code);
    case Pair(_) => RelaysAlike(s, room, x, y, sender, me, other, code);
  }

  lemma HubJoin(s: Hub.State, room: Hub.RoomId, x: Hub.ConnId, y: Hub.ConnId)
    requires Hub.Live(s, x) && Hub.Live(s, y) && x != y && |room| >= Hub.MIN_ROOM_ID
    requires x in Hub.At(s.pairRooms, room) || |Hub.At(s.pairRooms, room)| < Hub.MAX_OCCUPANTS
    ensures var s', occupants := Hub.JoinPairRoom(s, x, room), Hub.At(s.pairRooms, room);
            && Hub.Live(s', x) && Hub.Live(s', y) && Hub.At(s'.pairRooms, room) == occupants + {x}
            && s'.conns[x].log == s.conns[x].log + [Hub.Joined(room, |occupants + {x}|)]
            && s'.conns[y].log == s.conns[y].log + if y in occupants then [Hub.Joined(room, |occupants + {x}|)] else []
  {
  }

  lemma {:induction false} JoinsAlike(s: Hub.State, room: Hub.RoomId, x: Hub.ConnId, y: Hub.ConnId,
                                      sender: Hub.DeviceId, me: Party, other: Party, code: Payload -> Hub.Payload)
    requires Represents(s, room, x, y, me, other) && me.up != [] && me.up[0].Join?
    ensures Alike(s, Hub.Serve(s, x, sender, Request(me.up[0], room, code)), room, x, y, me, other, code)
  {
    hide Hub.JoinPairRoom, Occupants;
    OneJoins(x, me.inRoom, y, other.inRoom);
    HubJoin(s, room, x, y);
  }

  lemma HubLeave(s: Hub.State, room: Hub.RoomId, x: Hub.ConnId, y: Hub.ConnId)
    requires Hub.Live(s, x) && Hub.Live(s, y) && x != y
    ensures var s' := Hub.Leave(s, x, room);
            && Hub.Live(s', x) && Hub.Live(s', y) && Hub.At(s'.pairRooms, room) == Hub.At(s.pairRooms, room) - {x}
            && s'.conns[x].log == s.conns[x].log && s'.conns[y].log == s.conns[y].log
  {
  }

  lemma {:induction false} LeavesAlike(s: Hub.State, room: Hub.RoomId, x: Hub.ConnId, y: Hub.ConnId,
                                       sender: Hub.DeviceId, me: Party, other: Party, code: Payload -> Hub.Payload)
    requires Represents(s, room, x, y, me, other) && me.up != [] && me.up[0].Leave?
    ensures Alike(s, Hub.Serve(s, x, sender, Request(me.up[0], room, code)), room, x, y, me, other, code)
  {
    hide Hub.Leave;
    HubLeave(s, room, x, y);
  }

  lemma RelaysAlike(s: Hub.State, room: Hub.RoomId, x: Hub.ConnId, y: Hub.ConnId, sender: Hub.DeviceId,
                    me: Party, other: Party, code: Payload -> Hub.Payload)
    requires Represents(s, room, x, y, me, other) && me.up != [] && me.up[0].Pair?
    ensures Alike(s, Hub.Serve(s, x, sender, Request(me.up[0], room, code)), room, x, y, me, other, code)
  {
  }
}
