/**
  The pairing exchange: two devices, one room at the hub, and a socket each that may drop and come
  back. Each side runs one attempt at a time and may give it up and start again. The hub relays
  only between sockets that are in the room at that moment; everything else is lost.
 */
module Pairing {
  import opened Common
  import opened Confirmation

  datatype Payload = HelloMessage(hello: Hello) | ConfirmMessage(tag: Tag)

  /** What a client sends on its socket. */
  datatype Up = Join | Leave | Pair(payload: Payload)

  /** What the hub sends back; Other stands for everything the attempt ignores. */
  datatype Down = Joined(occupants: nat) | FromPeer(payload: Payload) | Other

  // ---- one attempt ----

  datatype Outcome = Waiting | Paired(peer: Hello) | Refused | OwnCode | BadHello | Abandoned

  datatype Attempt = Attempt(
    hello: Hello,
    theirHello: Option<Hello>,
    theirTag: Option<Tag>,
    myTag: Option<Tag>,
    sentHello: bool,
    outcome: Outcome)

  /** A handler's effect: the attempt afterwards and what it sent. */
  datatype Reaction = Reaction(attempt: Attempt, sends: seq<Up>)

  function NewAttempt(hello: Hello): Attempt {
    Attempt(hello, None, None, None, false, Waiting)
  }

  /** Settling happens once, and always leaves the room. */
  function Finish(a: Attempt, outcome: Outcome): Reaction {
    if a.outcome.Waiting? then Reaction(a.(outcome := outcome), [Leave]) else Reaction(a, [])
  }

  function SayHello(a: Attempt): Reaction {
    Reaction(a.(sentHello := true), [Pair(HelloMessage(a.hello))])
  }

  /** The room filled, or filled again. */
  function OnJoined(a: Attempt, occupants: nat): Reaction {
    if occupants >= 2 then SayHello(a) else Reaction(a, [])
  }

  function TryConfirm(a: Attempt, key: PairKey): Reaction {
    if a.theirHello.None? || a.theirTag.None? then Reaction(a, [])
    else if a.theirTag.value == ConfirmationTag(key, a.hello, a.theirHello.value)
    then Finish(a, Paired(a.theirHello.value))
    else Finish(a, Refused)
  }

  function OnConfirm(a: Attempt, key: PairKey, tag: Tag): Reaction {
    TryConfirm(a.(theirTag := Some(tag)), key)
  }

  /** A repeat asks for the confirmation again; a new hello starts the exchange over. */
  function OnHello(a: Attempt, key: PairKey, hello: Hello): Reaction {
    if a.theirHello == Some(hello) then
      Reaction(a, if a.myTag.Some? then [Pair(ConfirmMessage(a.myTag.value))] else [])
    else if hello.deviceId == a.hello.deviceId then
      Finish(a.(theirTag := None, theirHello := Some(hello)), OwnCode)
    else
      var tag := ConfirmationTag(key, a.hello, hello);
      var b := a.(theirTag := None, theirHello := Some(hello), myTag := Some(tag));
      var confirmed := TryConfirm(b, key);
      Reaction(confirmed.attempt, [Pair(ConfirmMessage(tag))] + confirmed.sends)
  }

  /**
    The same with the hello's version and signature checked: a new one whose version or signature does
    not hold ends the attempt.
   */
  function OnAnyHello(a: Attempt, key: PairKey, hello: Hello, verifies: bool): Reaction {
    if verifies || a.theirHello == Some(hello) then OnHello(a, key, hello)
    else Finish(a.(theirTag := None, theirHello := Some(hello)), BadHello)
  }

  function OnMessage(a: Attempt, key: PairKey, payload: Payload, verifies: bool): Reaction {
    var first := if a.sentHello then Reaction(a, []) else SayHello(a);
    var answer := match payload
      case ConfirmMessage(tag) => OnConfirm(first.attempt, key, tag)
      case HelloMessage(hello) => OnAnyHello(first.attempt, key, hello, verifies);
    Reaction(answer.attempt, first.sends + answer.sends)
  }

  /** A message from a partner that is what it says it is. */
  function OnPeer(a: Attempt, key: PairKey, payload: Payload): Reaction {
    OnMessage(a, key, payload, true)
  }

  /** Another hello than the one the attempt goes by. */
  predicate IsNews(a: Attempt, payload: Payload) {
    payload.HelloMessage? && a.theirHello != Some(payload.hello)
  }

  /** The tag that the device whose hello was taken makes for these two hellos. */
  predicate Fits(a: Attempt, key: PairKey, tag: Tag)
    requires a.theirHello.Some?
  {
    tag == ConfirmationTag(key, a.theirHello.value, a.hello)
  }

  /** The hello taken, if any, is another device's. */
  predicate NotItself(a: Attempt) {
    a.theirHello.Some? ==> a.theirHello.value.deviceId != a.hello.deviceId
  }

  /**
    Every way an open attempt can come out of a message, each exactly when: paired, with the device whose hello it
    took, on the tag that this device makes for the two; refused on any other; ended on a new hello that does not
    hold or comes from the device itself; still waiting otherwise. It leaves the room exactly when it ends.
   */
  lemma {:induction false} OutcomeExactly(a: Attempt, key: PairKey, payload: Payload, verifies: bool)
    requires a.outcome.Waiting? && NotItself(a)
    ensures var r := OnMessage(a, key, payload, verifies);
            var confirms := payload.ConfirmMessage? && a.theirHello.Some?;
            && (forall peer :: r.attempt.outcome == Paired(peer) <==>
                  confirms && Fits(a, key, payload.tag) && a.theirHello == Some(peer))
            && (r.attempt.outcome.Refused? <==> confirms && !Fits(a, key, payload.tag))
            && (r.attempt.outcome.BadHello? <==> IsNews(a, payload) && !verifies)
            && (r.attempt.outcome.OwnCode? <==>
                  IsNews(a, payload) && verifies && payload.hello.deviceId == a.hello.deviceId)
            && !r.attempt.outcome.Abandoned?
    ensures var r := OnMessage(a, key, payload, verifies);
            r.sends ==
              (if a.sentHello then [] else [Pair(HelloMessage(a.hello))])
              + (if IsNews(a, payload) && verifies && payload.hello.deviceId != a.hello.deviceId
                 then [Pair(ConfirmMessage(ConfirmationTag(key, a.hello, payload.hello)))]
                 else if payload.HelloMessage? && !IsNews(a, payload) && a.myTag.Some?
                 then [Pair(ConfirmMessage(a.myTag.value))]
                 else [])
              + (if r.attempt.outcome.Waiting? then [] else [Leave])
    ensures var r := OnMessage(a, key, payload, verifies);
            && r.attempt.hello == a.hello && r.attempt.sentHello
            && r.attempt.theirHello == (if payload.HelloMessage? then Some(payload.hello) else a.theirHello)
            && r.attempt.theirTag == (if payload.ConfirmMessage? then Some(payload.tag)
                                      else if IsNews(a, payload) then None else a.theirTag)
            && (r.attempt.outcome.Waiting? ==> NotItself(r.attempt))
  {
    hide ConfirmationTag;
    if payload.ConfirmMessage? && a.theirHello.Some? {
      TagSymmetric(key, a.hello, a.theirHello.value);
    }
  }

  /** The attempt as the client runs it: one object whose handlers are called as messages arrive. */
  class PairingRun {
    const key: PairKey
    const myHello: Hello
    var theirHello: Option<Hello>
    var theirTag: Option<Tag>
    var myTag: Option<Tag>
    var sentHello: bool
    var outcome: Outcome
    // Everything handed to the socket so far.
    var sent: seq<Up>

    function View(): Attempt
      reads this
    {
      Attempt(myHello, theirHello, theirTag, myTag, sentHello, outcome)
    }

    constructor (key: PairKey, myHello: Hello)
      ensures this.key == key && View() == NewAttempt(myHello) && sent == [Join]
    {
      this.key, this.myHello := key, myHello;
      theirHello, theirTag, myTag := None, None, None;
      sentHello, outcome := false, Waiting;
      sent := [Join];
    }

    method SendHello()
      modifies this`sentHello, this`sent
      ensures View() == SayHello(old(View())).attempt && sent == old(sent) + SayHello(old(View())).sends
    {
      sentHello := true;
      sent := sent + [Pair(HelloMessage(myHello))];
    }

    method Settle(result: Outcome)
      modifies this`outcome, this`sent
      ensures View() == Finish(old(View()), result).attempt && sent == old(sent) + Finish(old(View()), result).sends
    {
      if !outcome.Waiting? { return; }
      outcome := result;
      sent := sent + [Leave];
    }

    method Joined(occupants: nat)
      modifies this`sentHello, this`sent
      ensures View() == OnJoined(old(View()), occupants).attempt
      ensures sent == old(sent) + OnJoined(old(View()), occupants).sends
    {
      if occupants >= 2 {
        SendHello();
      }
    }

    method Confirm()
      modifies this`outcome, this`sent
      ensures View() == TryConfirm(old(View()), key).attempt
      ensures sent == old(sent) + TryConfirm(old(View()), key).sends
    {
      if theirHello.None? || theirTag.None? { return; }
      if theirTag.value == ConfirmationTag(key, myHello, theirHello.value) {
        Settle(Paired(theirHello.value));
      } else {
        Settle(Refused);
      }
    }

    method TakeHello(hello: Hello, verifies: bool)
      modifies this
      ensures View() == OnAnyHello(old(View()), key, hello, verifies).attempt
      ensures sent == old(sent) + OnAnyHello(old(View()), key, hello, verifies).sends
    {
      hide ConfirmationTag, TryConfirm;
      if theirHello == Some(hello) {
        if myTag.Some? {
          sent := sent + [Pair(ConfirmMessage(myTag.value))];
        }
        return;
      }
      theirTag := None;
      theirHello := Some(hello);
      if !verifies {
        Settle(BadHello);
      } else if hello.deviceId == myHello.deviceId {
        Settle(OwnCode);
      } else {
        myTag := Some(ConfirmationTag(key, myHello, hello));
        sent := sent + [Pair(ConfirmMessage(myTag.value))];
        Confirm();
      }
    }

    method Handle(payload: Payload, verifies: bool)
      modifies this
      ensures View() == OnMessage(old(View()), key, payload, verifies).attempt
      ensures sent == old(sent) + OnMessage(old(View()), key, payload, verifies).sends
    {
      hide TryConfirm, OnAnyHello;
      if !sentHello {
        SendHello();
      }
      match payload
      case ConfirmMessage(tag) =>
        theirTag := Some(tag);
        Confirm();
      case HelloMessage(hello) => TakeHello(hello, verifies);
    }
  }

  // ---- two devices and a hub ----

  /**
    One side of the exchange: its attempt, its socket (`up` and `down` are what is in flight on
    it), and whether the hub has that socket in the room. `used`, `took`, `stored` and `refused`
    only record the past: every hello built, every pair (own hello, hello taken as theirs),
    every pair that ended in a stored record, and whether a check ever failed.
   */
  datatype Party = Party(
    id: Text,
    attempt: Option<Attempt>,
    online: bool,
    inRoom: bool,
    up: seq<Up>,
    down: seq<Down>,
    used: set<Hello>,
    took: set<(Hello, Hello)>,
    stored: set<(Hello, Hello)>,
    refused: bool)

  datatype Event =
    | Begin(hello: Hello)   // a new attempt, with a hello built for it
    | Abandon               // timeout or cancel
    | Drop                  // the socket dies; what was in flight on it is gone
    | Reconnect             // a new socket, which re-asserts the room if an attempt is open
    | HubReceives           // the hub takes the next message of this socket
    | ClientReceives        // the client takes the next message of this socket

  predicate CanBegin(me: Party, hello: Hello) {
    me.attempt.None? && hello.deviceId == me.id && hello !in me.used
  }

  /** Applies a handler's reaction: sends go out only while the socket is open. */
  function React(me: Party, r: Reaction): Party {
    var a := r.attempt;
    me.(attempt := if a.outcome.Waiting? then Some(a) else None,
        up := if me.online then me.up + r.sends else me.up,
        took := if a.theirHello.Some? then me.took + {(a.hello, a.theirHello.value)} else me.took,
        stored := if a.outcome.Paired? then me.stored + {(a.hello, a.outcome.peer)} else me.stored,
        refused := me.refused || a.outcome.Refused?)
  }

  function ClientStep(me: Party, key: PairKey): Party {
    if me.down == [] then me
    else
      var popped := me.(down := me.down[1..]);
      if me.attempt.None? then popped
      else match me.down[0]
        case Joined(n) => React(popped, OnJoined(me.attempt.value, n))
        case FromPeer(payload) => React(popped, OnPeer(me.attempt.value, key, payload))
        case Other => popped
  }

  /** The hub takes one message: the sender's socket and the other one afterwards. */
  function HubStep(me: Party, other: Party): (Party, Party) {
    if me.up == [] then (me, other)
    else
      var popped := me.(up := me.up[1..]);
      match me.up[0]
      case Join =>
        var n := if other.inRoom then 2 else 1;
        (popped.(inRoom := true, down := me.down + [Joined(n)]),
         if other.inRoom then other.(down := other.down + [Joined(n)]) else other)
      case Leave => (popped.(inRoom := false), other)
      case Pair(payload) =>
        if !me.inRoom then (popped.(down := me.down + [Other]), other)
        else (popped, if other.inRoom then other.(down := other.down + [FromPeer(payload)]) else other)
  }

  function Step(me: Party, other: Party, key: PairKey, e: Event): (Party, Party) {
    match e
    case Begin(hello) =>
      if CanBegin(me, hello)
      then (me.(attempt := Some(NewAttempt(hello)), used := me.used + {hello},
                up := if me.online then me.up + [Join] else me.up), other)
      else (me, other)
    case Abandon =>
      if me.attempt.Some? then (React(me, Finish(me.attempt.value, Abandoned)), other) else (me, other)
    case Drop => (me.(online := false, inRoom := false, up := [], down := []), other)
    case Reconnect =>
      if me.online then (me, other)
      else (me.(online := true, up := if me.attempt.Some? then [Join] else []), other)
    case HubReceives => HubStep(me, other)
    case ClientReceives => (ClientStep(me, key), other)
  }

  datatype World = World(left: Party, right: Party)

  /** A run is any sequence of events, each on either side. */
  function Run(start: World, key: PairKey, events: seq<(bool, Event)>): World {
    if events == [] then start
    else
      var w := Run(start, key, events[..|events| - 1]);
      var (onLeft, e) := events[|events| - 1];
      if onLeft then var (l, r) := Step(w.left, w.right, key, e); World(l, r)
      else var (r, l) := Step(w.right, w.left, key, e); World(l, r)
  }

  function Fresh(id: Text): Party {
    Party(id, None, false, false, [], [], {}, {}, {}, false)
  }
}
