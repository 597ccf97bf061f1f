# SyncDrop, verified

SyncDrop moves a file between two paired devices: over an ordered data channel when both are awake,
and through a store-and-forward relay when one is not. This project models its protocols and the
fast data paths under them in Dafny and proves what they are for, over every input and every run.

`dafny verify dfyconfig.toml` checks everything.

## What is modelled

| module | part of the program |
|---|---|
| `Common`, `Files` | bytes, positional writes, chunks |
| `Store` | the relay's storage, its requests, and the blob object of the worker host |
| `Relay` | one upload, one download, one walk through a mailbox, with retries |
| `RelaySafety`, `RelaySteps` | the relay over whole runs of many transfers and passes, and how their steps add up to the calls |
| `Collector`, `CollectorHub` | mail notifications and the re-entrant collection loop, and the hub as their origin |
| `Json`, `Utf8`, `Confirmation` | canonical JSON, its bytes, and the confirmation tag computed over them |
| `Pairing`, `PairingSafety`, `PairingEnds`, `PairingHub` | the pairing exchange of two devices: what never happens, how it ends, and its room at the hub |
| `Hub`, `HubHears` | sockets by device, pairing rooms, presence watchers, and what every socket hears |
| `Signaling`, `SignalingMoves`, `SignalingHub` | the client's end of the rendezvous socket, what every event does to it, and what becomes of its messages at the hub |
| `Wire`, `Digest`, `Transfer`, `TransferSafety`, `TransferOutcomes` | the direct transfer engine: exactness, and why each promise settles as it does |
| `Client` | one call of `send()`: direct first, relay after |
| `Sinks`, `Deliveries` | batching and in-memory sinks, and what a completed transfer leaves in each |
| `Sources`, `SharedFiles` | windowed sources, and the reader of a file another app shared |
| `Base32` | Crockford base32 |

A protocol is a total step function on a world, driven by events; a run is any sequence of events,
and everything the surroundings may choose (order, losses, crashes, refusals, time) is in the events.
The objects the program keeps are classes whose methods are proved against the same functions. Records
of the past (which file was saved, how a promise settled) are part of a world so that theorems can
speak of them; no step reads them.

## What the theorems rest on

- A message handler and an API request are one atomic step each. Interleavings inside the awaits of
  `handleAuth` (server/core.js:89) and of the pairing handler (protocol/client.js:315) are not modelled.
- Channels are reliable and first-in first-out; a socket's queue is lost when it drops, and a dropped
  socket is disposed of before its device joins a room on a new one.
- Direct transfers go one way per session pair, because `cancel` and `error` look the same id up in
  both tables (protocol/transfer.js:196-197).
- Hashes, MACs, signatures and AEAD are symbolic: a digest stands for the chunks it was computed over,
  decryption undoes encryption for the same key, nonce and additional data only. In `Digest` the hash is a
  parameter instead, and the only thing asked of it is the length of its output.
- The signaling client tells its host of every change while it happens, and the host may call back in from
  there: each event of `Signaling` carries a script, the calls the host makes inside each notification it
  gets, in the order they come, nested ones included. Notifications at the very end of a handler ("closed",
  "error", signals and mail outside "ready") are the same as events that follow. A host's own code throws nothing.
- A write to a file either writes all it was given or throws, having written some front part of it. The sinks ignore
  the count that `handle.write` returns (cli/lib/nodeio.js:98-102), so a write that stopped short without throwing
  would go unnoticed by the program, and is not modelled.
- The relay is honest. Part requests and responses may be lost; a control request happens and is
  answered, or does not happen. Ids, tokens and keys drawn at random are fresh.

## Findings

- `handleChunk` takes the hash before the sink writes and the inbound queue swallows what a write throws, so
  a transfer can be reported complete on both sides with bytes missing (protocol/transfer.js:365-366,
  416-421). `TransferSafety.CompleteIsExact` says what every completed sink was handed;
  `Deliveries.PositionalExact`, `Deliveries.MemoryExact` and `Deliveries.IntoBatches` say for each kind of
  sink exactly when the file is right all the same, and `TransferSafety.RefusedWriteReportedComplete` gives a
  run in which it is not.
- A host that calls back into the signaling client from inside a notification can break its reconnect loop,
  in four ways (protocol/signaling.js:93-194). `connect()` inside the first "connecting" leaves the live
  socket unreferenced (`Signaling.ConnectWhileConnecting`); `wake()` there does the same, and inside "offline"
  it leaves a live socket and a reconnect that will replace it (`Signaling.WakeWhileOffline`); `close()`
  inside "connecting" leaves a socket on a closed client (`Signaling.CloseWhileConnecting`), and inside
  "ready" or on mail told with it, a running keepalive (`Signaling.CloseWhileReady`).
  `Signaling.OrderlyExactlyWhen` proves that there is no other way.
- `windowedSource` notes where its window begins before the fetch that fills it, and goes on serving the window
  it holds by the place noted (protocol/sources.js:41-46). So after a fetch that failed, after two that overlapped,
  and even while a single one is under way, another read can return bytes from elsewhere in the file without any
  error: `Sources.FailedFetchMisreads`, `Sources.OverlapMisreads`, `Sources.HeldWindowMisreads`. A source is read
  again after a failure when a second direct attempt or the relay takes over (protocol/client.js:194-205,
  423-427). `Sources.SafeToReadExactlyWhen` says when the next read is safe: exactly when the fetch asked for last
  and the one answered last were for one place, or no bytes are held. `Sources.ReadsRightExactlyWhen` says of
  which runs every read is right.
- The reader of a shared file keeps its position when a read fails after bytes have come out of its stream
  (ShareTargetPlugin.java:205-211), so the same read made again begins where the first left off:
  `SharedFiles.HalfReadMisreads`. `SharedFiles.ReadRightExactlyWhen` says exactly when a read is right.
- A device that starts pairing over while its first hello is on the way can make two honest devices report
  a different code. `PairingSafety.RefusedExactlyWhen` says at which step, `PairingSafety.CanRefuseExactlyWhen`
  after which pasts.
- `memorySink` counts a repeated chunk twice, so zeros would follow the file then (protocol/sources.js:76-86):
  `Sinks.CollectInMemory`. Nothing in the repository repeats a chunk to it: the data channel is ordered, and
  the relay's parts are taken in one pass.
- `canonicalJson` has one text for `[undefined]`, `[NaN]` and `[null]`, and one for an object with an undefined
  member and without it (protocol/util.js:179-185): `Json.DifferentValuesSameText`. Nothing in it is
  contradicted; what is signed is what a value means, not the value.

## Model

| member | source | states |
|---|---|---|
| `RelaySafety.NoFileLost` | protocol/relay.js:68-142 | In every run of transfers, collection passes, crashes, lost requests and responses, sweeps and new pairings: once `sendViaRelay` to a recipient that had paired with the sender returned, and until the blob expires, either the envelope waits in the recipient's mailbox and every part is in the store unchanged, or the recipient closed a sink on exactly the sent bytes |
| `RelaySafety.SavedIsExact` | protocol/relay.js:164-217 | In every run, a file a relay recipient's sink was closed on is the whole, unchanged file of a transfer addressed to that device |
| `RelaySafety.NeverRefused` | server/core.js:266-334 | In every run, however often parts were repeated, an upload in time is never refused and its completion is never told that parts are missing |
| `RelaySafety.PassDelivers` | protocol/relay.js:222-281 | From every reachable state, a parked file whose turn it is in a pass is saved in full by that pass if its requests are answered and its sink holds up: parked is as good as delivered |
| `RelaySafety.StepsAddUp` | protocol/relay.js:86-141 | With the relay to itself, the step-by-step upload leaves the store exactly as the call as a whole is specified to, whatever attempts were lost: parked whole when it returns, the old store when it failed and took its blob back, and the old store but for that one blob of its own when even that request was lost |
| `RelaySteps.SendAddsUp` | protocol/relay.js:51-141 | The same with each request's fate given: the steps of an upload end with the call returned and the file parked if and only if every part is answered within six attempts and both control requests happen, and with the blob taken back otherwise unless that request is lost |
| `RelaySteps.VisitAddsUp` | protocol/relay.js:233-277 | The steps about one entry, attempts and retries included, amount to one visit: a stranger's mail is deleted, a partner's file saved exactly when it is received, and the entry gone exactly when it could then be acknowledged |
| `RelaySteps.PassAddsUp` | protocol/relay.js:222-281 | A whole pass, any requests lost: the steps leave the store that `CollectMailbox` is specified to leave, with the file of every entry taken among those saved |
| `RelaySafety.AckStep` | server/core.js:391-400 | Taking an envelope out together with its blob keeps the invariant when its file was saved or its sender never trusted, and touches no other transfer |
| `Relay.SendViaRelay` | protocol/relay.js:68-142 | Succeeds exactly when every part has an answered attempt among its first six that arrives before expiry, the part count is allowed and both control requests happen; then the store is the one a loss-free upload leaves, and otherwise the blob is taken back unless that request fails too |
| `Relay.PutWithRetries` | protocol/relay.js:49-60 | A part is accepted exactly when one of six attempts is answered in time, and it is then stored and counted once |
| `Relay.PutAgain` | server/store.js:96-103 | A part sent again after a lost response changes neither bytes nor count |
| `Relay.ReceiveViaRelay` | protocol/relay.js:164-217 | Hands over a file exactly when envelope, every part, the sink and the digest hold, and the file is then the one the signed metadata describes |
| `Relay.GetWithRetries` | protocol/relay.js:51-60 | Returns the part the first answered attempt yields after decryption under its own nonce and place, and nothing only if no part can be had |
| `Relay.DigestDecides` | protocol/relay.js:208-209 | Once all parts came, the digests agree exactly when each part is the described one |
| `Relay.SentIsReceived` | protocol/relay.js:164-217 | Reading back what a successful upload parked yields the source, if and only if the recipient's own requests are answered in time and its sink holds up; and the sizes and counts the envelope gives are those of the source |
| `Relay.CollectMailbox` | protocol/relay.js:222-281 | Going through a listing leaves the store and the results that visiting its entries one by one does |
| `Relay.CollectEntry` | protocol/relay.js:233-277 | One entry: a stranger's is deleted unread, a partner's acknowledged only once its file is closed |
| `Relay.GoneMeansReceived` | protocol/relay.js:233-277 | An entry leaves the mailbox only as a stranger's, or because the file it describes is among the results |
| `Relay.ResultsAreTaken` | protocol/relay.js:231-281 | The results of a pass are the files of exactly those listed entries that, at their turn, are in the mailbox, signed by the paired device they name, sealed for this one, received in full and acknowledged, in the order of the listing |
| `Relay.CollectedExactly` | protocol/relay.js:233-277 | An entry of a listing is gone after the pass if and only if it was so taken, or was a stranger's and its deletion got through |
| `Relay.SixAttempts` | protocol/relay.js:49-60 | A part request is answered if and only if one of its first six attempts is |
| `Store.PutPartTallied` | server/core.js:276-280 | An upload keeps counts true and parts in range, and never changes a part of a complete blob |
| `Store.CompleteTallied` | server/core.js:326-334 | A blob is declared complete only with every part present, and counts stay true |
| `Store.CountedAll` | server/core.js:331 | A count that reached the number of parts means every part is there |
| `Store.GivenExactly` | server/core.js:266-291 | A part is given if and only if it is stored, its blob not expired, and the token the blob's read token; each refusal says which of these failed |
| `Store.RemoveTallied` | server/store.js:113-119 | Removal leaves no part of the blob behind and touches no other blob |
| `Store.SweepTallied` | server/store.js:120-130 | A sweep removes exactly the blobs past their time, with all their parts |
| `Store.CreateTallied` | server/store.js:88-92 | A new blob starts with a true tally |
| `Store.TalliesAgree` | server/worker/blob.js:35-112 | For every sequence of part reports, completions, removals and expiries the blob object and the memory store hold the same record, count and completion included, and the same stored indices |
| `Store.OneRequestAgrees` | server/worker/blob.js:35-112 | The two hosts give the same answer to each request |
| `Store.ExpiryAgrees` | server/worker/blob.js:94-112 | A blob's own alarm and a sweep over all blobs take it at the same moments |
| `Store.CreatedAgrees` | server/worker/blob.js:60-80 | A blob just created is the same in both: a new record and no marks |
| `Store.BlobObject.Answer` | server/worker/blob.js:35-112 | The object's handlers, behind the routes' checks, leave the record and marks and give the status that the agreement is about |
| `Store.MemoryStore.constructor` | server/store.js:37-44 | A new store is empty |
| `Store.MemoryStore.Create` | server/store.js:88-92 | The store's object creates a blob as the specification says |
| `Store.MemoryStore.Put` | server/core.js:266-281 | Stores or refuses a part as specified: expiry, range, token and completion in that order |
| `Store.MemoryStore.Get` | server/core.js:282-291 | Answers a part or the specified refusal, and changes nothing |
| `Store.MemoryStore.Finish` | server/core.js:326-334 | Completes or refuses as specified |
| `Store.MemoryStore.RemoveBlob` | server/store.js:113-119 | Deleting index by index removes exactly the blob and its parts |
| `Store.MemoryStore.Delete` | server/core.js:353-357 | Only the owner or the recipient removes a blob |
| `Store.MemoryStore.Push` | server/store.js:57-63 | Adds one entry to one mailbox and changes nothing else |
| `Store.MemoryStore.Ack` | server/core.js:391-400 | Takes out one entry and the blob it carried, or answers that there is none |
| `Store.BlobObject.Received` | server/worker/blob.js:82-92 | Counts an index the first time only |
| `Collector.NoLostWakeUp` | protocol/client.js:207-233 | In every run of pushes, socket drops, crashes and failures: a device online with nothing in flight and no pass under way has nothing in its mailbox but entries whose latest attempt failed, so an empty one if none did |
| `Collector.ClientStepsEnd` | protocol/client.js:216-228 | Every step the client takes by itself leaves strictly less to do, so passes and repeats come to an end |
| `Collector.RestOrStep` | protocol/client.js:97-100 | A connected client that is not at rest can take a step |
| `Collector.DeliverKeeps` | protocol/signaling.js:131 | Taking one notification loses no entry: it starts a pass, asks for another, or a later notification still stands |
| `Collector.ListsExactlyWhenTold` | protocol/client.js:97-100 | In every run a notification makes an idle client list its mailbox if and only if it speaks of mail |
| `CollectorHub.HubFeedsQueue` | server/core.js:99-103 | In every run of the hub, what new mail and a device's proof put on its socket are exactly the counts, in number and order, that the collector's runs are about |
| `Collector.CollectLoop.Collect` | protocol/client.js:207-214 | A call during a pass only asks for another one |
| `Collector.CollectLoop.OnMail` | protocol/client.js:97-100 | Only mail that is there starts a pass |
| `Collector.CollectLoop.EndPass` | protocol/client.js:228-231 | Another round exactly if one was asked for |
| `Collector.CollectLoop.Throw` | protocol/client.js:230-232 | A pass that threw frees the loop |
| `PairingSafety.NeverDeadlocked` | protocol/client.js:295-350 | After any aborts, restarts, drops and rejoins on either side, two open attempts whose sockets are both in the room never have nothing in flight |
| `PairingSafety.StoredMeansTaken` | protocol/client.js:274-293 | A record is stored only for a hello the other device really built, after that device had taken this attempt's own hello as its counterpart |
| `PairingSafety.RefusedExactlyWhen` | protocol/client.js:274-293 | In every reachable state and for every event, the side that takes the step reports a different code if and only if it is about to take a tag that the other side made for another pair of hellos than the one at hand; the other side reports nothing |
| `PairingSafety.CanRefuseExactlyWhen` | protocol/client.js:335-347 | For all finite sets of hellos the two devices may have built: a run that built exactly these and reported a different code exists if and only if neither is empty and together they are more than two, that is, somebody started over |
| `PairingSafety.RefusedMeansRestarted` | protocol/client.js:277-281 | A different code is reported between honest devices only if one of them started over |
| `PairingSafety.StartingOverCanRefuse` | protocol/client.js:335-347 | For any two hellos of one device and one of the other there is a run in which starting over makes honest devices report a different code |
| `PairingSafety.StepKeeps` | protocol/client.js:311-350 | Every event on either side keeps the pairing invariant: no stale tag or hello is current, and an open pair always has its next message due |
| `PairingEnds.EndsPaired` | protocol/client.js:246-350 | Two devices that join one room and are left alone: once all messages are delivered, in whatever order, both attempts are over, each has stored exactly the other's hello, and neither reported a different code |
| `PairingEnds.DeliveryEnds` | protocol/client.js:295-350 | In every reachable state each message taken leaves strictly less to do, so deliveries come to an end |
| `Pairing.OutcomeExactly` | protocol/client.js:315-350 | Every way an open attempt comes out of a message, each if and only if: paired with the device whose hello it took, on the tag that this device makes for the two; refused on any other; ended on a hello that does not verify or is its own; and exactly what it sends, the room left exactly when it ends |
| `PairingHub.HubServesAsRoom` | server/core.js:108-137 | The hub, serving a socket's next message, does what the two-party room of the pairing proofs does: same occupants, same news to each side |
| `Pairing.PairingRun.constructor` | protocol/client.js:246-265 | A new attempt holds only its own hello and has asked to join |
| `Pairing.PairingRun.Joined` | protocol/client.js:312-314 | Says hello on every refill and only then |
| `Pairing.PairingRun.SendHello` | protocol/client.js:295-299 | Sends the one hello of this attempt |
| `Pairing.PairingRun.Handle` | protocol/client.js:315-350 | Reacts to hello and confirmation as specified, sends included; a new hello that does not verify ends the attempt |
| `Pairing.PairingRun.TakeHello` | protocol/client.js:328-346 | A repeat is answered with the old tag, a new hello replaces the old one and its tag, and a bad one or the device's own ends the attempt |
| `Pairing.PairingRun.Confirm` | protocol/client.js:274-293 | Settles only once both hello and tag are there, by whether they agree, and then with the device of that hello |
| `Pairing.PairingRun.Settle` | protocol/client.js:252-260 | Settles once, and leaves the room then |
| `Confirmation.TagSymmetric` | protocol/pairing.js:108-118 | Both sides compute the same tag for distinct device ids |
| `Confirmation.TagFaithful` | protocol/pairing.js:115-123 | Equal tags come from the same code and the same unordered pair of hellos |
| `Confirmation.TagText` | protocol/pairing.js:108-118 | The text a tag is made over, to the character: both hellos with all their signed fields in the order of their names, the lesser device id first, under the name of the exchange |
| `TransferSafety.CompleteIsExact` | protocol/transfer.js:269-300 | In every interleaving of concurrent streams, the sink of a completed transfer was handed exactly the chunks of the sender's file, each once, in order and with its own bytes |
| `Deliveries.PositionalExact` | protocol/transfer.js:360-366 | In every run, with a sink that writes each chunk at its place or throws and writes nothing: the completed file equals the source if and only if each chunk that threw was empty, or all zeros and not the last |
| `Deliveries.MemoryExact` | protocol/sources.js:70-95 | In every run, with a sink that collects in memory: the completed file equals the source if and only if no call that threw carried bytes, because what follows a missed chunk moves up |
| `Deliveries.IntoMemory` | protocol/sources.js:76-89 | The memory sink's object, given a completed transfer's calls, returns the bytes of those that returned, one after the other |
| `Deliveries.IntoBatches` | app/sinks.js:33-58 | The batching sink on a disk that may fail at any write: which calls throw, which chunks are lost and whether it closes are functions of the disk's answers; a chunk is lost only if its call threw, and the file closed on equals the source if and only if the lost chunks were harmless; on a disk that works no call throws |
| `TransferSafety.SettledOnce` | protocol/transfer.js:164-167 | In every run a promise of send() is resolved, declined or rejected at most once, and in one of these ways |
| `TransferSafety.ResolvedAfterComplete` | protocol/transfer.js:302-316 | The sender's promise resolves only after the receiver reported that transfer complete |
| `TransferSafety.NoMixUp` | protocol/transfer.js:195-322 | In every run, with stream ids coming round again, the next message either way meets the entry of the transfer that sent it, and an offer finds its id free |
| `TransferSafety.OnlySinksHang` | protocol/transfer.js:226-275 | With nothing in flight and no pump running, only a sink that threw keeps a send open |
| `TransferOutcomes.SettlesExactly` | protocol/transfer.js:241-322 | In every run: a promise resolves if and only if the sender took the receiver's good acknowledgement of that transfer, is declined if and only if it took a refusal of it, and is rejected otherwise if and only if its source could not be read or the link closed; a transfer is complete, or stuck, exactly when its end came with a right digest and the sink closed, or a sink threw |
| `TransferOutcomes.DeclinedExactly` | protocol/transfer.js:258-267 | In every run a promise is declined if and only if the receiving host turned down that very offer and the sender took the answer |
| `TransferOutcomes.DoneChecksExactly` | protocol/transfer.js:142-147 | Both ends at the end of a file, whatever has arrived: it is acknowledged and the promise resolves if and only if the hashes taken are those of all its chunks, or the sender was told to go on from a later one; a mismatch rejects the promise without the mark of a refusal |
| `TransferOutcomes.ResumesExactly` | protocol/transfer.js:113-147 | A sender told to go on from chunk k sends every chunk from there, in order and once, then the end, with a digest exactly if it began at the first |
| `TransferOutcomes.EntryGoesWithPromise` | protocol/transfer.js:241-348 | A promise is settled exactly when its entry goes, by a refusal, an acknowledgement or a reported failure of its own stream and nothing else, and as each of them says |
| `TransferOutcomes.IdsComeRound` | protocol/transfer.js:87-93 | A stream id is the last to be handed out again: it comes next only when all others are taken |
| `TransferSafety.RefusedWriteReportedComplete` | protocol/transfer.js:360-366 | A run in which the sink refuses the only chunk and the transfer is reported complete and resolved all the same |
| `TransferSafety.StepKeeps` | protocol/transfer.js:389-423 | Every event keeps entries and messages in flight fitting together on every stream id |
| `Transfer.AllocationFindsAFreeId` | protocol/transfer.js:87-93 | An allocated id is unused and in 1 to 65535, and none is refused while one is free |
| `Transfer.TransferSession.constructor` | protocol/transfer.js:55-57 | A new session has no transfers |
| `Transfer.TransferSession.Allocate` | protocol/transfer.js:87-93 | The loop ends and finds the specified id |
| `Transfer.TransferSession.Send` | protocol/transfer.js:149-184 | Refuses exactly when no id is free or the channel throws, with the entries then as they were, and otherwise enters the transfer and offers it |
| `Transfer.TransferSession.PumpOnce` | protocol/transfer.js:113-147 | Sends the next chunk, or the end with the digest of the whole file |
| `Transfer.TransferSession.ReceiveOffer` | protocol/transfer.js:200-239 | Answers an offer as specified, sink failures included |
| `Transfer.TransferSession.ReceiveDone` | protocol/transfer.js:269-300 | Acknowledges by whether the digests agree |
| `Transfer.TransferSession.Receive` | protocol/transfer.js:414-423 | Applies any message as specified |
| `Files.KeptIsSource` | protocol/transfer.js:365-366 | Positional writes with some chunks missed give the source exactly when those were harmless |
| `Files.AnyOrderGivesTheSource` | app/sinks.js:29-32 | Chunk writes in any order, repeats included, give the source once every chunk was written |
| `Hub.IndexesAgree` | server/core.js:18-188 | In every run the three indexes say of each live connection exactly what it says of itself and nothing of others, every room has one or two occupants, and no device entry is empty |
| `Hub.PresenceAgrees` | server/core.js:139-188 | In every run, what a live socket was last told about a device it watches is whether that device is online now |
| `Hub.PairReachesPartner` | server/core.js:123-129 | In every run a pairing message reaches the other occupant of the room, who is at most one, and nobody else |
| `HubHears.HearsExactly` | server/core.js:35-188 | In every run, whatever happens next: every socket's log grows by exactly the words meant for it, and every connection's record changes as it is meant to and in no other way, all said of the connections themselves and not of the hub's indexes |
| `HubHears.SignalReachesDevice` | server/core.js:153-161 | In every run a signal reaches every live socket of the device addressed, under its sender's own name, and no other; if there is none the sender is told so |
| `HubHears.MailIsTold` | server/core.js:169-173 | In every run mail is told to every live socket of its owner and to no other, and a socket that proves its device hears the count given first |
| `Hub.DisconnectGood` | server/core.js:175-187 | Losing a socket keeps indexes and presence right, whether or not it was the device's last |
| `Hub.WatchGood` | server/core.js:139-148 | The answer to a watch covers every device watched from then on |
| `Hub.AuthGood` | server/core.js:89-103 | A device coming online puts every one of its watchers right |
| `Hub.HubObject.constructor` | server/core.js:19-25 | A new hub knows nobody |
| `Hub.HubObject.Connect` | server/core.js:35-64 | A new socket is challenged and nothing else |
| `Hub.HubObject.Receive` | server/core.js:66-87 | Dispatches every request to its specified effect |
| `Hub.HubObject.Authenticate` | server/core.js:89-103 | Enters the device, says ready, announces it |
| `Hub.HubObject.JoinRoom` | server/core.js:108-121 | Enters the room or refuses, and tells every occupant the number |
| `Hub.HubObject.RelayToPartner` | server/core.js:123-129 | Sends to the room's other occupants only |
| `Hub.HubObject.LeaveRoom` | server/core.js:131-137 | Leaves, and removes a room that emptied |
| `Hub.HubObject.WatchAll` | server/core.js:139-148 | Replaces the watched devices by the first 256 and reports who is online |
| `Hub.HubObject.Route` | server/core.js:153-161 | Reaches every socket of the device or reports it unreachable |
| `Hub.HubObject.Notify` | server/core.js:169-173 | Tells every socket of the device the mail count |
| `Hub.HubObject.SendAll` | server/core.js:163-173 | The loop sends once to each target and to nobody else |
| `Hub.HubObject.StopWatching` | server/core.js:141 | Takes the socket out of exactly the given devices' watchers |
| `Hub.HubObject.DropName` | server/core.js:178-187 | Takes the socket from its device, and says whether it was the last |
| `Hub.HubObject.Dispose` | server/core.js:175-187 | The loops over rooms and watched devices leave no trace of the socket |
| `Signaling.OrderlyExactlyWhen` | protocol/signaling.js:93-194 | For every run and every host, whatever it calls from inside any notification: the client is in order at every moment if and only if no such call did harm. In order: from first open to close() there is one live socket, which is the one held, or one reconnect that will be heeded, never both; an unready socket has its handshake timer; the keepalive runs exactly while ready; a closed client holds no socket. Harm: connect() while the first socket connects, wake() or close() while any does, wake() without close() while offline, close() while told of ready or of its mail unless re-asserting then throws |
| `Signaling.StepExactly` | protocol/signaling.js:93-194 | The same for one event in any state such runs reach, the loss of a socket, both abandoning timeouts, the reconnect timer, becoming ready and every call included |
| `Signaling.NeverStuckNeverDoubled` | protocol/signaling.js:103-117 | In every run without such a call the client is in order at the end |
| `Signaling.OpeningExactly` | protocol/signaling.js:167-194 | Opening ends with the new socket held and current if and only if the host neither woke nor closed the client, nor connected one that never had a socket, while told "connecting" |
| `Signaling.LosingExactly` | protocol/signaling.js:103-117 | Losing a socket leaves exactly one reconnect that will be heeded if and only if the host did not wake the client while told "offline", or closed it as well |
| `Signaling.AbandoningExactly` | protocol/signaling.js:93-101 | The same for a socket given up on by either timeout |
| `Signaling.ReadyExactly` | protocol/signaling.js:124-137 | Becoming ready leaves the client in order if and only if the host did not close it while told so, or re-asserting threw; every waiter is settled either way |
| `Signaling.ConnectWhileConnecting` | protocol/signaling.js:167-204 | A run of one call in which connect() inside "connecting" leaves a live socket that is not the one held, and no reconnect |
| `Signaling.WakeWhileOffline` | protocol/signaling.js:103-117 | For every client losing its socket, wake() inside "offline" leaves a current socket and a reconnect that will replace it |
| `Signaling.CloseWhileConnecting` | protocol/signaling.js:167-174 | For every client that opens, close() inside "connecting" leaves a socket that connects after the end |
| `Signaling.CloseWhileReady` | protocol/signaling.js:124-137 | For every client that becomes ready with nothing to say again, close() inside "ready" leaves the keepalive of a closed client running |
| `Signaling.WaitersSettled` | protocol/signaling.js:52-56 | For every event, calls from inside notifications included: a promise of connect() still waiting stays until the client is ready, which resolves it, or closed, which rejects it; a new one is resolved at once by a ready client and waits otherwise |
| `Signaling.ClosedSettlesNothing` | protocol/signaling.js:200-204 | After close(), a promise of connect() is settled by nothing but another close() |
| `Signaling.StartedStays` | protocol/signaling.js:167-194 | Once there is a socket there is one until the client is closed |
| `Signaling.OnlyCloseEnds` | protocol/signaling.js:239-247 | No event closes the client but one in which the host calls close(), directly or from inside a notification |
| `Signaling.Converges` | protocol/signaling.js:124-137 | In every run without harmful calls, wishes made from inside notifications included, and however far the hub has got: what is in flight on the ready socket brings its record to the first 256 devices watched and the rooms wanted now |
| `SignalingMoves.MovesExactly` | protocol/signaling.js:58-247 | In every run without harmful calls, what the next event does, field by field: the socket and its state, every word said on it, every timer, count, wish and promise; calls made from inside notifications, nested in the client's own steps, amount to the wishes made in order |
| `SignalingMoves.ProbesExactly` | protocol/signaling.js:77-91 | In every run a probe's timeout gives the socket up if and only if a ping went out on it and nothing was heard on it since; and a ready client on an open socket pings at every tick of its keepalive and whenever it is woken |
| `SignalingMoves.DeadlineRuns` | protocol/signaling.js:176-179 | In every run a probe's deadline is running if and only if a ping on the current socket is unanswered |
| `SignalingMoves.AttemptsAreLosses` | protocol/signaling.js:103-117 | In every run the attempts counted are the losses in a row since the client was last ready or woken |
| `SignalingHub.RecordIsHeeded` | server/core.js:66-148 | In every run of the hub, for every live connection and whatever the others do in between: its record of rooms and watched devices is what the messages heeded from it add up to, in the order they came |
| `SignalingHub.OthersTouchNothing` | server/core.js:66-188 | An event of another connection changes nothing of this one's record but what was said to it |
| `SignalingHub.DispatchApplies` | server/core.js:66-148 | One request changes its connection's record as specified, and not at all when it is turned away |
| `SignalingHub.ReassertedAtHub` | protocol/signaling.js:124-137 | Client and hub runs together: when the hub has taken a prefix of what a ready client sent, signals and pairing messages at any point among it, had a genuine proof before anything that bears on the record, and refused it no room, what is in flight brings the hub's record to what the client wants, and when nothing is, the record says that |
| `Signaling.SignalingClient.constructor` | protocol/signaling.js:39-50 | A new client has no socket and owes nothing |
| `Signaling.SignalingClient.DoOpen` | protocol/signaling.js:167-175 | Takes a new generation, tells the host, and only then puts the new socket in place with its handshake timer, unless the client is closed |
| `Signaling.SignalingClient.NotifyHost` | protocol/signaling.js:58-61 | The host is told in the middle of the client's own step, and the calls it makes are carried out there |
| `Signaling.SignalingClient.SendUp` | protocol/signaling.js:63-66 | Sends on an open socket and on no other |
| `Signaling.SignalingClient.FlushReady` | protocol/signaling.js:52-56 | Settles every waiter, none left over |
| `Signaling.SignalingClient.DoReassert` | protocol/signaling.js:129-130 | The loop says watch list and rooms again in order |
| `Signaling.SignalingClient.ConnectNow` | protocol/signaling.js:200-204 | Opens the first socket, telling the host meanwhile, and resolves at once or registers the waiter |
| `Signaling.SignalingClient.WatchNow` | protocol/signaling.js:205-208 | Remembers the devices, and sends them when ready |
| `Signaling.SignalingClient.JoinPairRoom` | protocol/signaling.js:212-215 | Remembers the room, and joins it when ready |
| `Signaling.SignalingClient.LeavePairRoom` | protocol/signaling.js:219-222 | Forgets the room, and leaves it when ready |
| `Signaling.SignalingClient.WakeNow` | protocol/signaling.js:227-238 | Probes a ready session and replaces any other |
| `Signaling.SignalingClient.CloseNow` | protocol/signaling.js:239-247 | Ends the client and rejects every waiter |
| `Signaling.SignalingClient.DoLost` | protocol/signaling.js:103-117 | Schedules one reconnect under the generation that holds after the host was told |
| `Signaling.SignalingClient.DoAbandon` | protocol/signaling.js:93-101 | Gives up the socket and closes the one given up |
| `Signaling.SignalingClient.DoProbe` | protocol/signaling.js:77-91 | Pings and sets a deadline only on an open ready socket |
| `Signaling.SignalingClient.OnReady` | protocol/signaling.js:124-137 | Tells the host, re-asserts watch list and rooms in order or ends there when that throws, tells of mail, starts the keepalive, probes and settles the waiters |
| `Signaling.SignalingClient.OnMessage` | protocol/signaling.js:176-187 | Hears only the current socket, and takes whatever it hears for the answer to a probe |
| `Signaling.SignalingClient.OnSocket` | protocol/signaling.js:188-193 | Only the current socket's close is a loss |
| `Signaling.SignalingClient.OnHandshakeTimeout` | protocol/signaling.js:174-175 | Abandons a socket that is current and not ready |
| `Signaling.SignalingClient.OnPongTimeout` | protocol/signaling.js:86-89 | Abandons only in the generation the probe was made in |
| `Signaling.SignalingClient.OnTimer` | protocol/signaling.js:115-133 | A reconnect that was superseded does nothing |
| `Client.PeerLink.Send` | protocol/client.js:387-433 | The direct link is tried if and only if everything speaks for it, a second time if and only if a kept link came up and decided nothing; the file is uploaded if and only if it may be and no attempt had it arrive or had the receiving host refuse it, said of the engine's own runs; the result names the path that carried it; and an upload succeeds exactly when its requests do |
| `Client.VerdictMeans` | protocol/client.js:194-205 | For every run of the transfer engine around a call: its promise is resolved if and only if this very file arrived whole, and declined if and only if the receiving host refused this very offer and the answer came back |
| `Client.TriesMean` | protocol/client.js:194-205 | The last attempt is the one that got the file there or met the refusal, if any did; there are two exactly when a kept link came up and neither happened over it |
| `Client.PeerLink.SendDirect` | protocol/client.js:194-205 | Makes exactly the attempts that the links and their outcomes call for, and leaves the connection table as the last of them did |
| `Client.PeerLink.Drop` | protocol/client.js:105-115 | A later link than the one expected stays |
| `Sinks.BatchSink.Write` | app/sinks.js:45-53 | A chunk taken amounts to writing it at its place now, in any order and on a disk that may fail, one not taken to nothing; whether it is taken, whether the call returns and what is held afterwards are functions of what was held and of the disk; on a disk that works the buffer never overflows |
| `Sinks.BatchSink.Prepare` | app/sinks.js:46-49 | Ends a run that the position does not continue without changing what the file will hold, or fails because the disk did |
| `Sinks.BatchSink.WriteBehind` | cli/lib/nodeio.js:106-114 | The same for the command-line sink, whose algorithm it shares |
| `Sinks.BatchSink.Flush` | app/sinks.js:37-41 | What is held reaches the file in one write at its start, or stays held when that fails |
| `Sinks.BatchSink.Close` | cli/lib/nodeio.js:115-121 | The file closed on holds every chunk taken; closing fails only with the last write |
| `Sinks.BatchSink.Abort` | app/sinks.js:67-71 | Nothing is left |
| `Sinks.Deliver` | app/sinks.js:33-53 | On a disk that works, a whole delivery in any order, repeats included, ends as immediate positional writes would, so with the source once every chunk came |
| `Sinks.CollectInMemory` | protocol/sources.js:70-95 | The memory sink gives back the source if and only if no chunk with bytes came twice; otherwise as many zeros follow it as bytes were repeated |
| `Sinks.MemorySink.Write` | protocol/sources.js:76-79 | Keeps the chunk by number and counts its bytes |
| `Sinks.MemorySink.Close` | protocol/sources.js:80-89 | One buffer of the size counted, the chunks in order at its front |
| `Sources.QuietReadsExact` | protocol/sources.js:38-47 | Over every run of reads, one at a time, none failing away from the window that is held, and jumping about as they like: every read returns exactly the file's range it was asked for |
| `Sources.ReadsRightExactlyWhen` | protocol/sources.js:38-47 | For every run of reads, arrivals and failures and every file: all reads answered in the run return what they were asked for, in every file of this length, if and only if each read served from the window found it in its place and each fetch that arrived was for the place noted last, brought nothing, or fell on one of the two places where an index counted from the end comes out right |
| `Sources.NextReadRightExactlyWhen` | protocol/sources.js:38-47 | After every run: any read answered at once is right in every file of this length if and only if the window is in its place or empty; otherwise a file and a read are given that are misread |
| `Sources.SafeToReadExactlyWhen` | protocol/sources.js:41-44 | The same in terms of what the file was asked for: the fetch asked for last and the one answered last were for one place, or no bytes are held |
| `Sources.ReadsFrom` | protocol/sources.js:38-47 | Over every run, overlapping reads and failed fetches included: which stretch of the file the bytes of any answered read are, for reads before, in and past the window alike |
| `Sources.NotedPlaces` | protocol/sources.js:41-44 | In every run the place noted is the one asked for last and the window's own the one answered last |
| `Sources.AnyHonestAnswer` | protocol/sources.js:27-29 | The arrivals of these runs are all the answers an honest fetch can give |
| `Sources.HeldWindowMisreads` | protocol/sources.js:41-46 | A run of three reads in which none fails and no two fetches overlap, whose third, made while the second waits, returns the held window's bytes for the front's |
| `Sources.FailedFetchMisreads` | protocol/sources.js:41-46 | A run of three reads, the second failing, whose third returns the second window's bytes for the front's |
| `Sources.OverlapMisreads` | protocol/sources.js:41-46 | A run of two overlapping reads, answered in the other order, after which a read returns bytes a window further on |
| `Sources.WindowedSource.Begin` | protocol/sources.js:38-46 | A read up to its fetch: the window's place is noted, and a fetch is made only when the window does not hold the range |
| `Sources.WindowedSource.Resume` | protocol/sources.js:43-46 | The rest of a read once its fetch is answered or failed |
| `Sources.WindowedSource.ReadChunk` | protocol/sources.js:38-47 | A whole read with no other in between returns the file's range, from the window or from an honest fetch, and throws only when a fetch it needs does |
| `SharedFiles.SharedFile.Open` | android/app/src/main/java/com/syncdrop/ai/ShareTargetPlugin.java:183-191 | A reader that has not passed the offset, kept where it can be; a file that opens to no stream is kept as that, and one refused leaves the closed reader in place |
| `SharedFiles.SharedFile.Fill` | android/app/src/main/java/com/syncdrop/ai/ShareTargetPlugin.java:203-209 | Reads on until enough came or the stream ended; an error loses what had come by then |
| `SharedFiles.SharedFile.SkipTo` | android/app/src/main/java/com/syncdrop/ai/ShareTargetPlugin.java:197-201 | Skips what lies before the offset, as far as the file goes; an error leaves stream and position together part of the way |
| `SharedFiles.SharedFile.Read` | android/app/src/main/java/com/syncdrop/ai/ShareTargetPlugin.java:168-219 | Whatever the stream does during it, one call is one step of the reader: it says what is answered and where position, stream and lag are afterwards, for an answer and for each way to fail |
| `SharedFiles.ReadRightExactlyWhen` | android/app/src/main/java/com/syncdrop/ai/ShareTargetPlugin.java:168-219 | After every run of calls, failed ones included: an answered read returns exactly its range in every file of this length if and only if no read since the stream was opened failed after bytes had come, or this read opens a new one, or it asks for nothing the file has |
| `SharedFiles.LagAfter` | android/app/src/main/java/com/syncdrop/ai/ShareTargetPlugin.java:197-211 | What each call does to the distance between stream and position: none behind a new stream, and more by exactly the bytes that had come when a read broke |
| `SharedFiles.AnsweredExactlyWhen` | android/app/src/main/java/com/syncdrop/ai/ShareTargetPlugin.java:168-219 | After every run of calls: a read is answered if and only if it is sensible, nothing breaks it, and it opens the file or finds the stream of the last opening with none refused since |
| `SharedFiles.ForwardOpensOnce` | android/app/src/main/java/com/syncdrop/ai/ShareTargetPlugin.java:183-201 | Reads that go through and forward, gaps or not, open the file once |
| `SharedFiles.BehindIsLag` | android/app/src/main/java/com/syncdrop/ai/ShareTargetPlugin.java:197-211 | In every run the stream is ahead of its position exactly when some read since it was opened failed after bytes had come |
| `SharedFiles.HalfReadMisreads` | android/app/src/main/java/com/syncdrop/ai/ShareTargetPlugin.java:205-211 | Half a read and the same read again: for every file long enough the second returns bytes from where the first left off |
| `SharedFiles.ReadShared` | protocol/sources.js:38-47 | Stacked on a reader that is not behind, the windowed source returns exactly the range or throws |
| `Sources.SequentialPass` | protocol/sources.js:19-25 | A pass in chunks that divide the window returns the file and fetches each byte once |
| `Base32.Encode` | protocol/util.js:91-106 | The characters spell the bytes' bits, most significant first and filled with zeros, although the accumulator wraps at 32 bits; their number is ceil(8n/5) |
| `Base32.Decode` | protocol/util.js:108-124 | Returns the whole bytes in the digits' bits, and nothing exactly when some character is not of the alphabet |
| `Base32.RoundTrip` | protocol/util.js:91-139 | Decoding what was encoded gives the bytes back and nothing else, through dashes, lower case and I, L, O read as digits |
| `Base32.GroupingIgnored` | protocol/util.js:137-139 | Grouping by dashes does not change what a code decodes to |
| `Base32.LookalikesIgnored` | protocol/util.js:108-124 | A code typed with I, L or O in either case for 1 and 0 decodes to the same bytes |
| `Base32.ShortId` | protocol/util.js:171-173 | A short id has exactly the length asked for, in the alphabet |
| `Json.CanonicalRoundTrip` | protocol/util.js:179-185 | A parser of RFC 8259 undoes canonicalJson on every value, up to undefined members and non-finite numbers, which it says what become of |
| `Json.SameMeaningSameText` | protocol/util.js:179-185 | Values that mean the same have the same text, whatever the order of their keys |
| `Json.SortingKeepsMeaning` | protocol/util.js:182 | Sorting the keys and dropping undefined members keeps what an object means |
| `Json.CanonicalFaithful` | protocol/util.js:179-185 | Two values have the same text if and only if they mean the same |
| `Json.DifferentValuesSameText` | protocol/util.js:179-185 | Three pairs of different values with one text each: undefined and non-finite items beside null, an undefined member beside none |
| `Utf8.CanonicalBytesFaithful` | protocol/util.js:187-189 | Two values have the same bytes to be signed if and only if they mean the same, lone surrogates in strings and keys included |
| `Utf8.CanonicalBytesRoundTrip` | protocol/util.js:187-189 | Read as UTF-8 and then as JSON, the bytes give back what the value means |
| `Utf8.RoundTrip` | protocol/util.js:16-25 | Text without lone surrogates comes back from its UTF-8, as section 3 of RFC 3629 has it |
| `Utf8.QuotedShortest` | protocol/util.js:179-185 | No string literal that a parser reads as the same well-formed string is shorter than the canonical one, and hexadecimal escapes are in lower case |
| `Utf8.LoneHalfLost` | protocol/util.js:19-21 | A lone surrogate encoded by itself becomes the three bytes of the replacement character and is lost, which is why canonical text must have none |
| `Wire.EncodeChunk` | protocol/wire.js:31-40 | The buffer filled in place is the specified frame |
| `Wire.FrameLayout` | protocol/wire.js:31-40 | The frame to the byte: version 1, stream id and sequence with their lowest bytes first, then the payload |
| `Wire.DecodeEncoded` | protocol/wire.js:31-55 | Decoding a frame gives id, sequence and payload back, up to the width of the fields |
| `Wire.EncodeDecoded` | protocol/wire.js:42-55 | Every accepted frame is the encoding of what was read from it, within u16 and u32 |
| `Wire.PartNoncesDistinct` | protocol/crypto.js:135-142 | Two parts of one transfer share a nonce only if they are the same part, for all counters that fit four bytes |
| `Digest.AnyOrderSameDigest` | protocol/digest.js:15-34 | The final digest exists exactly when the indices seen leave no gap, and is then that of the chunks in order, whatever the order and repetition of updates |
| `Digest.DigestBytes` | protocol/digest.js:36-46 | The one-shot digest is the streaming one over the file's chunks, the empty file's single empty chunk included |
| `Digest.EqualDigestsEqualChunks` | protocol/digest.js:31 | Equal digests come from equal chunks in number and content, or exhibit two inputs with one hash |
| `Digest.ConcatFixed` | protocol/digest.js:31 | Hashes of one length can be read back out of their concatenation |
| `Digest.ChunkDigest.UpdateChunk` | protocol/digest.js:19-21 | Stores the hash by index and changes no other |
| `Digest.ChunkDigest.Final` | protocol/digest.js:25-32 | Fails exactly on a gap |

## Left out

- RelaySafety.NoFileLost: asks that the recipient had paired with the sender when the mail arrived, because a stranger's mail is deleted unread (protocol/relay.js:237-241), and that no device is unpaired later.
- RelaySafety.PassDelivers: states the run in which every request is answered; how many losses a pass stands is stated by `Relay.SentIsReceived`.
- RelaySteps.SendAddsUp: the requests of one call are made at one moment; what expiry does during a call is stated by `Relay.SendViaRelay` and `RelaySafety.NoFileLost`.
- RelaySteps.PassAddsUp: the requests of one pass are made at one moment, as for an upload.
- PairingSafety.StoredMeansTaken: is stated for the left of two symmetric sides; a device other than the two in the room is not modelled.
- PairingEnds.EndsPaired: is about runs without aborts, drops and restarts; what holds of the others is `PairingSafety.NeverDeadlocked` and `PairingSafety.StoredMeansTaken`.
- Pairing.PairingRun.Handle: that a hello of the other honest device verifies is taken for granted in the two-device world; hellos that do not verify are modelled for the one object only.
- Signaling.OrderlyExactlyWhen: speaks of the socket the client holds; one that was left behind is not followed further, and a client is followed past its first harmful call only by the lemmas about single events.
- Signaling.Converges: excludes runs with a harmful call, as `Signaling.OrderlyExactlyWhen` has it.
- SignalingHub.ReassertedAtHub: excludes joins the hub turns away as full or too short, and anything but signals and pairing messages taken before a genuine proof; that the hub says ready only after one is not tied to the client's events.
- SignalingMoves.MovesExactly: when the host calls close() in the middle of an event, says only that the client has ended, holds nothing and has rejected its waiters.
- SignalingMoves.AttemptsAreLosses: how long the pause before an attempt is, and its jitter, are not modelled.
- Signaling.WaitersSettled: a promise of a connect() made after close() is settled by a second close() only, as `Signaling.ClosedSettlesNothing` states.
- Relay.CollectMailbox: visits a listing in the order given; that the listing is sorted by time is not used.
- Base32.Decode: text is a sequence of characters, so a lone surrogate in it has no counterpart.
- Base32.GroupingIgnored: the text has no line breaks, at which the pattern of `groupCode` would not match.
- Json.CanonicalRoundTrip: a finite number stands for the token the runtime prints for it, so negative zero reads back as zero.
- Utf8.RoundTrip: the decoder is RFC 3629's; the runtime's own also drops a leading byte order mark, which canonical text never has, and replaces malformed bytes.
- SharedFiles.SharedFile.Read: the stream makes progress while bytes remain, a call that throws takes no bytes, and a closed stream throws.
- Sources.WindowedSource.ReadChunk: closing the source is not modelled.
- TransferSafety.CompleteIsExact: a source is a byte string, read the same whenever it is read; what a windowed source can return instead is stated in `Sources`.
- Hub.HubObject.Receive: connections are records in a table rather than objects of their own, so aliasing between them is not modelled.
- Store.TalliesAgree: a blob's id is used once; KV deletions that fail are not modelled.
- Client.PeerLink.Send: what the engine does around the call, and what events leave in the connection table during an attempt, are inputs of the call; a promise still pending and an id used before both come out as a rejection; progress events and the choice of the transfer id are not modelled.
- Transfer.TransferSession.Send: the timer of an unanswered offer is not modelled.
- Transfer.TransferSession.PumpOnce: a pump that was cancelled is not modelled.
- Transfer.TransferSession.Receive: `cancel` and `seen` are not modelled.
- Transfer resumption: no receiver of these runs asks for it; what a sender does when asked is stated by `TransferOutcomes.ResumesExactly` and `TransferOutcomes.DoneChecksExactly`.
- Files of more than 2^32 chunks on the direct path, whose frame numbers would repeat.
- Crossing dials, ICE, and the choice of the connection that carries a transfer.
- The client's `online` set across its own reconnects: presence is stated at the hub.
- Blob expiry against mailbox entries: an envelope can outlive its blob, and a lost `sendMail` answer can do the same.
- Generation of pairing codes, their parsing and display, and the pairing link.
- The disk store, push tokens, the worker's device object with its alarms and hibernation, and the HTTP layer.
- WebCrypto, WebRTC, WebSocket, filesystem and notification services: symbolic functions or events.
- Progress events, rate meters, file naming and everything in the user interface.
