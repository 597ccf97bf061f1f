/**
  The direct transfer engine: many streams over one ordered channel, told apart by 16-bit ids that
  are used again. Handlers are functions from a session and a message to the session afterwards
  and what was sent; the class at the end is the engine's own object, tied to them.
 */
module Transfer {
  import opened Common
  import opened Files
  import Digest
  import Wire

  const MAX_STREAM_ID: nat := 0xffff

  /** Names one call of send(); the id every offer carries. */
  type TransferId = nat

  /** The digest is symbolic: it is the list of chunks it was computed over. */
  type FileDigest = seq<Bytes>

  datatype Control =
    | Offer(streamId: nat, id: TransferId, size: nat, chunkSize: nat)
    | Accept(streamId: nat, resumeFrom: nat)
    | Reject(streamId: nat)
    | Done(streamId: nat, digest: Option<FileDigest>)
    | Ack(streamId: nat, ok: bool)
    | Failed(streamId: nat)

  /** Control messages are text, file bytes are binary frames. */
  datatype Message = Text(control: Control) | Binary(frame: Bytes)

  datatype Phase = Offered | Sending(next: nat, resumeFrom: nat) | Sent

  datatype Outgoing = Outgoing(id: TransferId, source: Bytes, phase: Phase)

  /** One call of a sink's write(), and whether it returned; a write that throws is swallowed. */
  datatype Call = Call(sequence: nat, bytes: Bytes, returned: bool)

  /** An arriving file: the chunk hashes so far (symbolic, a chunk stands for its hash) and what its sink was handed. */
  datatype Incoming = Incoming(
    id: TransferId,
    size: nat,
    chunkSize: nat,
    hashes: seq<Option<Bytes>>,
    calls: seq<Call>)

  datatype Session = Session(
    outgoing: map<nat, Outgoing>,
    incoming: map<nat, Incoming>,
    nextStreamId: nat,
    chunkSize: nat)

  /** What a handler tells the rest of the program. */
  datatype Notice =
    | Silent
    | Resolved(id: TransferId)                  // the sender's promise
    | Declined(id: TransferId)                  // the sender's promise, rejected because the receiver refused
    | Unsettled(id: TransferId)                 // the sender's promise, rejected for any other reason
    | Completed(id: TransferId, calls: seq<Call>) // the receiver's sink was closed after these calls
    | Damaged(id: TransferId)                   // a sink write threw; the engine goes on
    | Stuck(id: TransferId)                     // creating or closing a sink threw; no answer is sent

  datatype Effect = Effect(session: Session, sends: seq<Message>, notice: Notice)

  function Nothing(s: Session): Effect {
    Effect(s, [], Silent)
  }

  // ---- stream ids ----

  function NextId(id: nat): nat {
    id % MAX_STREAM_ID + 1
  }

  /** The first free id after the last one handed out, going round once. */
  function FreeId(used: set<nat>, last: nat, tries: nat): Option<nat>
    decreases tries
  {
    if tries == 0 then None
    else if NextId(last) !in used then Some(NextId(last))
    else FreeId(used, NextId(last), tries - 1)
  }

  function AllocateStreamId(s: Session): Option<nat> {
    FreeId(s.outgoing.Keys, s.nextStreamId, MAX_STREAM_ID + 1)
  }

  /** An allocated id is in range and unused, and one is found whenever one exists. */
  lemma AllocationFindsAFreeId(s: Session)
    ensures var r := AllocateStreamId(s);
            && (r.Some? ==> 1 <= r.value <= MAX_STREAM_ID && r.value !in s.outgoing)
            && (r.None? ==> forall id :: 1 <= id <= MAX_STREAM_ID ==> id in s.outgoing)
  {
    FreeIdWorks(s.outgoing.Keys, s.nextStreamId, MAX_STREAM_ID + 1);
    var r := AllocateStreamId(s);
    if r.None? {
      forall id | 1 <= id <= MAX_STREAM_ID
        ensures id in s.outgoing
      {
        RoundTheRing(s.nextStreamId, id);
        var k :| 1 <= k <= MAX_STREAM_ID && StepsOn(s.nextStreamId, k) == id;
      }
    }
  }

  function StepsOn(id: nat, k: nat): nat {
    if k == 0 then id else NextId(StepsOn(id, k - 1))
  }

  lemma StepsOnFirst(id: nat, k: nat)
    requires k > 0
    ensures StepsOn(id, k) == StepsOn(NextId(id), k - 1)
  {
    if k > 1 {
      StepsOnFirst(id, k - 1);
    }
  }

  lemma {:induction false} FreeIdWorks(used: set<nat>, last: nat, tries: nat)
    ensures var r := FreeId(used, last, tries);
            && (r.Some? ==> 1 <= r.value <= MAX_STREAM_ID && r.value !in used)
            && (r.None? ==> forall k :: 1 <= k <= tries ==> StepsOn(last, k) in used)
    decreases tries
  {
    if tries > 0 && NextId(last) in used {
      FreeIdWorks(used, NextId(last), tries - 1);
      if FreeId(used, last, tries).None? {
        forall k | 1 <= k <= tries
          ensures StepsOn(last, k) in used
        {
          StepsOnFirst(last, k);
          if k == 1 {
            assert StepsOn(NextId(last), 0) == NextId(last);
          }
        }
      }
    }
  }

  /** From any starting point, every id comes up within one round. */
  lemma RoundTheRing(last: nat, id: nat)
    requires 1 <= id <= MAX_STREAM_ID
    ensures exists k :: 1 <= k <= MAX_STREAM_ID && StepsOn(last, k) == id
  {
    var first := NextId(last);
    assert StepsOn(last, 1) == NextId(StepsOn(last, 0)) == first;
    if id >= first {
      Ahead(last, 1, first, id - first);
    } else {
      Ahead(last, 1, first, MAX_STREAM_ID - first);
      var k := 1 + (MAX_STREAM_ID - first);
      assert StepsOn(last, k + 1) == NextId(MAX_STREAM_ID) == 1;
      Ahead(last, k + 1, 1, id - 1);
    }
  }

  lemma {:induction false} Ahead(last: nat, k: nat, at: nat, more: nat)
    requires StepsOn(last, k) == at && 1 <= at && at + more <= MAX_STREAM_ID
    ensures StepsOn(last, k + more) == at + more
  {
    if more > 0 {
      Ahead(last, k, at, more - 1);
      assert StepsOn(last, k + more) == NextId(at + (more - 1));
    }
  }

  // ---- the sending side ----

  /** send(): an entry and an offer, or nothing when every id is taken. */
  function BeginSend(s: Session, id: TransferId, source: Bytes): Effect {
    var stream := AllocateStreamId(s);
    if stream.None? then Nothing(s)
    else Effect(
      s.(outgoing := s.outgoing[stream.value := Outgoing(id, source, Offered)], nextStreamId := stream.value),
      [Text(Offer(stream.value, id, |source|, s.chunkSize))],
      Silent)
  }

  /** One turn of the pump: the next chunk, or "done" behind the last. */
  function Pump(s: Session, streamId: nat): Effect
    requires s.chunkSize > 0
  {
    if streamId !in s.outgoing || !s.outgoing[streamId].phase.Sending? then Nothing(s)
    else
      var entry := s.outgoing[streamId];
      var index := entry.phase.next;
      if index < ChunkCount(|entry.source|, s.chunkSize) then
        Effect(
          s.(outgoing := s.outgoing[streamId := entry.(phase := Sending(index + 1, entry.phase.resumeFrom))]),
          [Binary(Wire.ChunkFrame(streamId, index, Chunk(entry.source, s.chunkSize, index)))],
          Silent)
      else
        var digest := if entry.phase.resumeFrom == 0 then Some(Chunks(entry.source, s.chunkSize)) else None;
        Effect(s.(outgoing := s.outgoing[streamId := entry.(phase := Sent)]), [Text(Done(streamId, digest))], Silent)
  }

  /** Reading the source threw: the pump reports it and drops the entry. */
  function PumpFails(s: Session, streamId: nat): Effect {
    if streamId !in s.outgoing || !s.outgoing[streamId].phase.Sending? then Nothing(s)
    else Effect(s.(outgoing := s.outgoing - {streamId}), [Text(Failed(streamId))], Unsettled(s.outgoing[streamId].id))
  }

  // ---- the receiving side ----

  /** What the host and its sink do with the message at hand. */
  datatype Host = Host(accepts: bool, sinkOpens: bool, writes: bool, sinkCloses: bool)

  function OnOffer(s: Session, c: Control, host: Host): Effect
    requires c.Offer?
  {
    if c.streamId in s.incoming then Nothing(s)
    else if !host.accepts then Effect(s, [Text(Reject(c.streamId))], Silent)
    else if !host.sinkOpens then Effect(s, [], Stuck(c.id))
    else Effect(
      s.(incoming := s.incoming[c.streamId := Incoming(c.id, c.size, c.chunkSize, [], [])]),
      [Text(Accept(c.streamId, 0))],
      Silent)
  }

  function OnDone(s: Session, c: Control, host: Host): Effect
    requires c.Done?
  {
    if c.streamId !in s.incoming then Nothing(s)
    else
      var arriving := s.incoming[c.streamId];
      var ours := Digest.Present(arriving.hashes);
      if c.digest.None? || ours == c.digest then
        if !host.sinkCloses then Effect(s, [], Stuck(arriving.id))
        else Effect(s.(incoming := s.incoming - {c.streamId}), [Text(Ack(c.streamId, true))],
                    Completed(arriving.id, arriving.calls))
      else Effect(s.(incoming := s.incoming - {c.streamId}), [Text(Ack(c.streamId, false))], Silent)
  }

  function HandleControl(s: Session, c: Control, host: Host): Effect {
    match c
    case Offer(_, _, _, _) => OnOffer(s, c, host)
    case Accept(streamId, resumeFrom) =>
      if streamId !in s.outgoing then Nothing(s)
      else
        var entry := s.outgoing[streamId].(phase := Sending(resumeFrom, resumeFrom));
        Effect(s.(outgoing := s.outgoing[streamId := entry]), [], Silent)
    case Reject(streamId) =>
      if streamId !in s.outgoing then Nothing(s)
      else Effect(s.(outgoing := s.outgoing - {streamId}), [], Declined(s.outgoing[streamId].id))
    case Done(_, _) => OnDone(s, c, host)
    case Ack(streamId, ok) =>
      if streamId !in s.outgoing then Nothing(s)
      else
        var id := s.outgoing[streamId].id;
        Effect(s.(outgoing := s.outgoing - {streamId}), [], if ok then Resolved(id) else Unsettled(id))
    case Failed(streamId) =>
      var notice := if streamId in s.outgoing then Unsettled(s.outgoing[streamId].id) else Silent;
      Effect(s.(incoming := s.incoming - {streamId}, outgoing := s.outgoing - {streamId}), [], notice)
  }

  /** The hash is taken before the bytes are written; a write that throws is reported and forgotten. */
  function HandleChunk(s: Session, frame: Bytes, host: Host): Effect {
    var chunk := Wire.DecodeChunk(frame);
    if !chunk.Frame? || chunk.streamId !in s.incoming then Nothing(s)
    else
      var arriving := s.incoming[chunk.streamId];
      var taken := arriving.(
        hashes := Digest.Update(arriving.hashes, chunk.sequence, chunk.payload),
        calls := arriving.calls + [Call(chunk.sequence, chunk.payload, host.writes)]);
      Effect(s.(incoming := s.incoming[chunk.streamId := taken]), [],
             if host.writes then Silent else Damaged(arriving.id))
  }

  function Handle(s: Session, m: Message, host: Host): Effect {
    match m
    case Text(c) => HandleControl(s, c, host)
    case Binary(frame) => HandleChunk(s, frame, host)
  }

  function NewSession(chunkSize: nat): Session {
    Session(map[], map[], 1, chunkSize)
  }

  /** The engine's object. `sent` is what went into the channel; the inbound queue calls Receive in order. */
  class TransferSession {
    const chunkSize: nat
    var outgoing: map<nat, Outgoing>
    var incoming: map<nat, Incoming>
    var nextStreamId: nat
    var sent: seq<Message>

    function View(): Session
      reads this
    {
      Session(outgoing, incoming, nextStreamId, chunkSize)
    }

    constructor (chunkSize: nat)
      ensures View() == NewSession(chunkSize) && sent == []
    {
      this.chunkSize := chunkSize;
      outgoing, incoming, nextStreamId, sent := map[], map[], 1, [];
    }

    /** Goes round the ids once; the entries already out keep theirs. */
    method Allocate() returns (id: Option<nat>)
      modifies this`nextStreamId
      ensures id == AllocateStreamId(old(View()))
      ensures id.Some? ==> nextStreamId == id.value
    {
      for i := 0 to MAX_STREAM_ID + 1
        invariant FreeId(outgoing.Keys, nextStreamId, MAX_STREAM_ID + 1 - i) == AllocateStreamId(old(View()))
      {
        nextStreamId := nextStreamId % MAX_STREAM_ID + 1;
        if nextStreamId !in outgoing { return Some(nextStreamId); }
      }
      return None;
    }

    /** The caller is refused when no id is free or the channel throws; only the round of ids has moved then. */
    method Send(id: TransferId, source: Bytes, carries: bool) returns (accepted: bool)
      modifies this
      ensures accepted == (AllocateStreamId(old(View())).Some? && carries)
      ensures accepted ==> View() == BeginSend(old(View()), id, source).session
      ensures accepted ==> sent == old(sent) + BeginSend(old(View()), id, source).sends
      ensures !accepted ==> outgoing == old(outgoing) && incoming == old(incoming) && sent == old(sent)
    {
      var stream := Allocate();
      if stream.None? { return false; }
      outgoing := outgoing[stream.value := Outgoing(id, source, Offered)];
      if !carries {
        outgoing := outgoing - {stream.value};
        assert stream.value !in old(outgoing) by {
          AllocationFindsAFreeId(old(View()));
        }
        assert outgoing == old(outgoing);
        return false;
      }
      sent := sent + [Text(Offer(stream.value, id, |source|, chunkSize))];
      return true;
    }

    method PumpOnce(streamId: nat)
      requires chunkSize > 0
      modifies this`outgoing, this`sent
      ensures View() == Pump(old(View()), streamId).session
      ensures sent == old(sent) + Pump(old(View()), streamId).sends
    {
      if streamId !in outgoing || !outgoing[streamId].phase.Sending? { return; }
      var entry := outgoing[streamId];
      var index := entry.phase.next;
      if index < ChunkCount(|entry.source|, chunkSize) {
        var frame := Wire.EncodeChunk(streamId, index, Chunk(entry.source, chunkSize, index));
        sent := sent + [Binary(frame[..])];
        outgoing := outgoing[streamId := entry.(phase := Sending(index + 1, entry.phase.resumeFrom))];
      } else {
        var digest := if entry.phase.resumeFrom == 0 then Some(Chunks(entry.source, chunkSize)) else None;
        sent := sent + [Text(Done(streamId, digest))];
        outgoing := outgoing[streamId := entry.(phase := Sent)];
      }
    }

    method ReceiveOffer(c: Control, host: Host) returns (notice: Notice)
      requires c.Offer?
      modifies this`incoming, this`sent
      ensures View() == OnOffer(old(View()), c, host).session && notice == OnOffer(old(View()), c, host).notice
      ensures sent == old(sent) + OnOffer(old(View()), c, host).sends
    {
      notice := Silent;
      if c.streamId in incoming { return; }
      if !host.accepts {
        sent := sent + [Text(Reject(c.streamId))];
      } else if !host.sinkOpens {
        notice := Stuck(c.id);
      } else {
        incoming := incoming[c.streamId := Incoming(c.id, c.size, c.chunkSize, [], [])];
        sent := sent + [Text(Accept(c.streamId, 0))];
      }
    }

    method ReceiveDone(c: Control, host: Host) returns (notice: Notice)
      requires c.Done?
      modifies this`incoming, this`sent
      ensures View() == OnDone(old(View()), c, host).session && notice == OnDone(old(View()), c, host).notice
      ensures sent == old(sent) + OnDone(old(View()), c, host).sends
    {
      notice := Silent;
      if c.streamId !in incoming { return; }
      var arriving := incoming[c.streamId];
      if c.digest.None? || Digest.Present(arriving.hashes) == c.digest {
        if !host.sinkCloses { return Stuck(arriving.id); }
        sent := sent + [Text(Ack(c.streamId, true))];
        notice := Completed(arriving.id, arriving.calls);
      } else {
        sent := sent + [Text(Ack(c.streamId, false))];
      }
      incoming := incoming - {c.streamId};
    }

    method Receive(m: Message, host: Host) returns (notice: Notice)
      modifies this
      ensures View() == Handle(old(View()), m, host).session && notice == Handle(old(View()), m, host).notice
      ensures sent == old(sent) + Handle(old(View()), m, host).sends
    {
      notice := Silent;
      match m
      case Text(c) =>
        match c {
          case Offer(_, _, _, _) => notice := ReceiveOffer(c, host);
          case Done(_, _) => notice := ReceiveDone(c, host);
          case Accept(streamId, resumeFrom) =>
            if streamId in outgoing {
              outgoing := outgoing[streamId := outgoing[streamId].(phase := Sending(resumeFrom, resumeFrom))];
            }
          case Reject(streamId) =>
            if streamId in outgoing {
              notice := Declined(outgoing[streamId].id);
              outgoing := outgoing - {streamId};
            }
          case Ack(streamId, ok) =>
            if streamId in outgoing {
              var id := outgoing[streamId].id;
              notice := if ok then Resolved(id) else Unsettled(id);
              outgoing := outgoing - {streamId};
            }
          case Failed(streamId) =>
            if streamId in outgoing {
              notice := Unsettled(outgoing[streamId].id);
            }
            incoming := incoming - {streamId};
            outgoing := outgoing - {streamId};
        }
      case Binary(frame) =>
        var chunk := Wire.DecodeChunk(frame);
        if chunk.Frame? && chunk.streamId in incoming {
          var arriving := incoming[chunk.streamId];
          arriving := arriving.(hashes := Digest.Update(arriving.hashes, chunk.sequence, chunk.payload));
          arriving := arriving.(calls := arriving.calls + [Call(chunk.sequence, chunk.payload, host.writes)]);
          if !host.writes {
            notice := Damaged(arriving.id);
          }
          incoming := incoming[chunk.streamId := arriving];
        }
    }
  }
}
