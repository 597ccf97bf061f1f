/**
  Where the collector's notifications come from: the counts that the hub puts on a device's socket, as it takes the
  mail of the relay and the device's own proof, are those the collector is modelled on.
 */
module CollectorHub {
  import opened Common
  import opened Hub
  import HubHears
  import Collector

  /** The mail counts among the messages a socket was sent, in order. */
  function Counts(log: seq<Message>): seq<nat> {
    if log == [] then []
    else
      var last := log[|log| - 1];
      Counts(log[..|log| - 1]) + match last
        case Ready(mail) => [mail]
        case MailCount(count) => [count]
        case _ => []
  }

  lemma {:induction false} CountsMore(log: seq<Message>, m: Message)
    ensures Counts(log + [m]) == Counts(log) + match m
              case Ready(mail) => [mail]
              case MailCount(count) => [count]
              case _ => []
  {
    assert (log + [m])[..|log|] == log;
  }

  /** The hub's own part in what the collector sees, with as many entries waiting as the mailbox holds. */
  function HubEvent(w: Collector.World, e: Collector.Event, device: DeviceId, c: ConnId): Event
    requires e.Push? || e.Attach?
  {
    if e.Push? then MailArrives(device, |w.mailbox + {e.id}|) else Receives(c, Auth(device, true, |w.mailbox|))
  }

  lemma PushedLog(events: seq<Event>, c: ConnId, device: DeviceId, count: nat)
    requires Live(Run(events), c)
    ensures var s' := Step(Run(events), MailArrives(device, count));
            var conn := Run(events).conns[c];
            && Live(s', c)
            && s'.conns[c].log == if conn.device == Some(device) then conn.log + [MailCount(count)] else conn.log
  {
    hide Run, Step;
    HubHears.HearsExactly(events, MailArrives(device, count));
    assert Run(events).conns[c].log + [] == Run(events).conns[c].log;
  }

  /** The proof of a device tells its socket of the mail, and of itself if it watches itself. */
  lemma AttachedLog(events: seq<Event>, c: ConnId, device: DeviceId, mail: nat)
    requires Live(Run(events), c) && Run(events).conns[c].device.None?
    ensures var s' := Step(Run(events), Receives(c, Auth(device, true, mail)));
            var log := Run(events).conns[c].log;
            && Live(s', c)
            && (s'.conns[c].log == log + [Ready(mail)] || s'.conns[c].log == log + [Ready(mail)] + [Peer(device, true)])
  {
    hide Run, Step, HubHears.WatchersOf;
    HubHears.HearsExactly(events, Receives(c, Auth(device, true, mail)));
    var log := Run(events).conns[c].log;
    assert log + ([Ready(mail)] + []) == log + [Ready(mail)];
    assert log + ([Ready(mail)] + [Peer(device, true)]) == log + [Ready(mail)] + [Peer(device, true)];
  }

  /**
    In every run of the hub, for a live socket that is the device's when the collector is attached and nobody's yet
    when it is not: new mail, and the proof that attaches it, put on the socket exactly the counts that they put in
    the collector's queue, at its end.
   */
  lemma {:induction false} HubFeedsQueue(events: seq<Event>, w: Collector.World, e: Collector.Event, device: DeviceId,
                                         c: ConnId)
    requires (e.Push? || (e.Attach? && !w.attached)) && Live(Run(events), c)
    requires Run(events).conns[c].device == if w.attached then Some(device) else None
    requires !w.attached ==> w.queue == []
    ensures var s := Run(events);
            var s' := Step(s, HubEvent(w, e, device, c));
            && Live(s', c)
            && |Counts(s.conns[c].log)| <= |Counts(s'.conns[c].log)|
            && Collector.Step(w, e).queue
               == w.queue + Counts(s'.conns[c].log)[|Counts(s.conns[c].log)|..]
  {
    hide Run, Step, Counts;
    var log := Run(events).conns[c].log;
    if e.Push? {
      var count := |w.mailbox + {e.id}|;
      PushedLog(events, c, device, count);
      CountsMore(log, MailCount(count));
    } else {
      AttachedLog(events, c, device, |w.mailbox|);
      CountsMore(log, Ready(|w.mailbox|));
      CountsMore(log + [Ready(|w.mailbox|)], Peer(device, true));
    }
  }
}
