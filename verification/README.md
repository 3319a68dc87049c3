# The swarm's control plane, modelled and proved in Dafny

The system spreads the inference of one language model over many machines. A *master*
keeps a registry of workers, elects one of them SuperNode, hands out tunnel ports and tells
the SuperNode which GPU providers to use. An HTTP *API* admits completion requests against
an API key and a global credit pool, proxies them and settles the credits afterwards. A TCP
*relay* brings API connections and worker connections together, and each worker keeps a
*tunnel* to it. This project models these four parts and the protocols between them, and
proves what every run of them keeps.

## How the model is built

| file | what it models | kind |
|---|---|---|
| `Registry.dfy` | the master's `WorkerRegistry` and the heartbeat checker | class, each method proved against a function on a snapshot |
| `ConnectionHandler.dfy` | the master's loop over the lines of one connection | methods with a loop |
| `RegistryRuns.dfy` | all runs of registrations, PINGs, disconnects, ticks and grants | state machine |
| `SplitElection.dfy` | the same with the election check and the election as separate steps | state machine |
| `Registrations.dfy`, `Reconnects.dfy` | what the registry records of a worker; workers that register on a second connection | lemmas on runs |
| `Inference.dfy` | the replies to PING and INFER, byte by byte | lemmas |
| `LayerSplit.dfy` | spreading layers over workers | functions |
| `LineCodec.dfy`, `Text.dfy` | the text protocol: printers, parsers, reading of lines | functions |
| `Heartbeat.dfy`, `Client.dfy`, `Announcements.dfy` | the worker's end: reconnect loop, heartbeat reader, the llama-server command line | classes with loops |
| `ApiKeys.dfy`, `KeyFile.dfy` | the key manager, and its file under any number of threads | class; state machine |
| `CreditLedger.dfy` | admission and the separate settlement actions of concurrent requests | state machine |
| `ResponseHead.dfy`, `Api.dfy` | the incremental reader of the relay's HTTP reply; a completion request on its own | methods with loops; class |
| `Relay.dfy`, `RelayBytes.dfy`, `RelayWakeups.dfy`, `RelayRequests.dfy`, `RelayTurns.dfy`, `RelayRisks.dfy`, `RelayClosing.dfy`, `RelayFaults.dfy` | both versions of the relay as interleaved threads: program counters, one lock, wait and notify, sockets | state machine |
| `RelayServer.dfy` | the relay's critical sections and its copying loop, each proved to be a run of that machine | class with a loop |
| `Tunnel.dfy`, `EndToEnd.dfy` | the worker's tunnel, and the way from client to local server and back | classes with loops; lemmas |

What is concurrent in the source is a state machine whose steps interleave freely. A theorem
about runs then speaks about every schedule. What one thread does by itself is a method on
mutable state, proved against the function the state machine steps by.

Granularity. A step of the master is the body of one handler branch: one REGISTER, one PING,
one disconnect, one tick; in `SplitElection.dfy` the two halves of a REGISTER. A step of a
request is one access to the keys, the pool, the recorded SuperNode id or the registry map. A
step of the relay is one blocking call or what happens between two of them under the lock. A
step on the key map is one critical section.

Numbers. `u64` counters wrap around as in the release build, which does not check overflow.
Ports wrap as `u16`. The worker count is cut to 32 bits before it divides.

Parameters. The clock, the iteration order of hash maps, what sockets deliver and when, which
connections and downloads succeed, the model the master is configured with, and the lossy
UTF-8 decoder are inputs of the model, and theorems hold for all their values.

## Where the code does less than one might expect

Each of these is a lemma with a run or an input that shows it, and beside it the theorem that
says exactly when the code does have the property.

- Electing a SuperNode checks and sets under separate locks, and two checks before the first
  set make two SuperNodes (`SplitElectionMakesTwoSuperNodes`). A run has one all the way
  exactly when no election acts on a vacancy that has been filled since
  (`OneSuperNodeIffNoClash`).
- A second REGISTER of the recorded id makes that worker a GPU provider or consumer while its
  id stays recorded (`SecondRegisterLeavesNoSuperNode`); the recorded worker is SuperNode
  exactly when it has not registered again (`RecordedIsSuperNodeIffNotRegisteredAgain`).
- A changed slave list is sent once, to the worker whose PING observes it first, which need
  not be the SuperNode (`SuperNodeMissesAnAnnouncement`). What a worker is sent is exactly
  what its own PINGs observed first (`AnnouncementsGoToTheirObserver`,
  `WhoHoldsTheCurrentList`). The list is compared in hash-map order, so another order is a
  change (`ReorderingIsAnnounced`). An empty list is never announced, so the last announcement
  is the current list exactly when that is nonempty (`LastAnnouncementIsCurrentIff`).
- The pool check is separate from the decrement: two requests take a pool of one to 2^64 - 1
  (`TwoRequestsUnderflowThePool`). It takes two in flight, and two are enough
  (`UnderflowIffTwoInFlight`). The pool is then full, nobody is refused, and the overdraft has
  no bound (`OverdraftIsUnbounded`).
- A second line of a reply that is late for a whole beat leaves the heartbeat reader more than
  one reply behind (`ALineLateForAWholeBeat`), which happens exactly when it is not read in
  time although two lines were unread (`AtMostOneReplyBehindIffPrompt`). A reader that has
  been late once may take a PONG for the extra line and lose its credit count
  (`ALatePongIsSwallowed`); credits and announcements are current exactly as long as no
  second line is late (`CurrentIffInTime`, `AfterTheFirstLateLine`, `LaggingBeat`). The test
  for `PONG:UPDATE_SLAVES:` comes after the test for `PONG` and is never reached.
- The root version of the relay lets the lock go between registering and waiting and loses
  the wakeup of a request that comes in between; the version in `src/` never does
  (`OnlyTheLoopingRelayLosesWakeups`).
- A request that was handed to a worker may be overwritten by the next one
  (`SecondRequestOverwritesTheFirst`), or may come when the worker is past its wait. Which
  requests are never taken is exact for both relays (`StoredRequestIsTakenIffAwaited`,
  `StoringCostsATurnIff`, `HandedOverIsTakenIffWoken`).
- A request that comes during a bridge puts its first byte into the stream of the first
  (`SecondRequestInjectsAByte`), and one that overwrites another in the slot is preceded by
  the other's byte (`SecondRequestOverwritesTheFirst`). Bytes to the worker are intact for one
  request per registration (`RelayedBytesArePrefixes`) and for any number that come one after
  the other (`RequestsAreServedInTurn`). They can still be mixed up in some continuation
  exactly as long as requests can come to the worker (`FirstBridgeIsAtRiskIff`,
  `TurnsAreAtRiskIff`). Bytes to the clients are intact in every run (`RepliesAreNeverMixed`).
- A worker that is replaced while it waits is never woken (`ReplacedWorkerWaitsForever`), and
  neither is any worker on a port other than 7000, where the one-shot relay takes no requests;
  exactly the latest worker on port 7000 can be (`WhoCanBeWoken`).
- The end of a connection unregisters the worker it remembers even when that worker has
  registered on another connection since (`OldConnectionTakesTheNewRegistration`); the relay's
  cleanup has an identity test at this place, the master has none. This cannot happen exactly
  as long as no worker registers while another connection remembers it (`ClosesAreOwnIff`). The
  client registers on a new connection only, so such a worker stays unknown, whatever it PINGs,
  until it reconnects (`UnknownUntilRegistered`).
- The tunnel names the result of the two-way copy the wrong way round: what it adds to the
  counter for bytes to the relay is what went to the local server, and conversely
  (`SwappedCounters`). Each counter is right exactly when the amounts agree
  (`CountersAreRightIff`). The total is right.

Two more are how the code is written, and stated as what it computes:

- Saving the credits drops the workers that are not registered at that moment
  (`RestartKeepsTheRegistered`).
- The worker's main program is sent the first configuration only, whatever role the master
  gives it on a later reconnect (`OneConfigIsDelivered`).

## Model

| member | source | states |
|---|---|---|
| `Relay.NoLostWakeup` | src/tunnel-relay.py:46-62 | one-shot relay, every schedule: whenever the lock is free, a worker thread that waits un-notified has no request in its slot |
| `RelayFaults.OnlyTheLoopingRelayLosesWakeups` | tunnel-relay.py:32-47 | some run leaves a worker waiting, un-notified, with a request pending and the lock free, if and only if the relay is the looping version |
| `RelayRequests.StoredRequestIsTakenIffAwaited` | src/tunnel-relay.py:99-119 | both relays, every run: a request being stored can be taken in some continuation if and only if its worker is at its wait (waiting, or woken and not yet back) |
| `RelayRequests.StoringCostsATurnIff` | src/tunnel-relay.py:108-119 | both relays, every run: storing a request means that it or the one in the slot is never taken, if and only if the slot is occupied or the worker is not at its wait |
| `RelayRequests.HandedOverIsTakenIffWoken` | src/tunnel-relay.py:60-65 | both relays, every run, lock free: a request handed over and not taken can still be taken if and only if it is in its worker's slot and the worker is woken |
| `RelayRequests.NotifiedRequestsAreKept` | src/tunnel-relay.py:108-119 | both relays, every run: a request that was notified is in its worker's slot or has been taken, until the next one is stored there |
| `RelayWakeups.WhoCanBeWoken` | src/tunnel-relay.py:49-62 | one-shot relay, every run, lock free: a waiting worker can be woken in some continuation if and only if it is the latest worker on port 7000 |
| `RelayTurns.RequestsAreServedInTurn` | tunnel-relay.py:43-66 | both relays, every run in which each request comes after the bridge of the one before: what a worker is sent is one part per request taken, in order, each a prefix of what that client sent, and then the first byte of a request still waiting |
| `RelayTurns.RepliesAreNeverMixed` | src/tunnel-relay.py:10-26 | both relays, every run at all, whatever requests come and when: what a worker sends after its magic byte falls into one part per request taken, in order, and each client is sent a prefix of its own part |
| `RelayRisks.FirstBridgeIsAtRiskIff` | src/tunnel-relay.py:99-119 | both relays, every run, lock free, at most one request stored at a worker so far and not yet through: in some continuation it is sent bytes, while it bridges, that are no prefix of those its client sent, if and only if it is in the table on a port where requests are taken and has not left |
| `RelayRisks.TurnsAreAtRiskIff` | tunnel-relay.py:53-66 | both relays, every run that was orderly so far, any number of requests, lock free: in some continuation what the worker is sent is not its requests in turn, if and only if it is in the table on a port where requests are taken |
| `RelayBytes.RelayedBytesArePrefixes` | src/tunnel-relay.py:10-26 | the case of one request stored at a worker, at any time and with any schedule and chunking: what the worker is sent is a prefix of what the client sent, and what the client is sent is a prefix of what followed the worker's magic byte |
| `EndToEnd.BytesArriveInOrder` | src/tunnel.rs:36-66 | with one request per registration, TCP in between and any schedules, what the local server receives is a prefix of what the client sent and what the client receives a prefix of what the local server sent |
| `EndToEnd.NothingIsLost` | src/tunnel.rs:36-66 | when everything in flight has arrived and nobody holds anything back, both ends have received exactly what the other sent |
| `EndToEnd.AnnouncingRegisters` | src/tunnel-relay.py:36-56 | the two programs meet: whatever becomes of an attempt that announced itself, its first byte is E, and in both relays and on any port it makes the connection a worker's and puts it in the table |
| `EndToEnd.OthersAreNoWorkers` | src/tunnel-relay.py:25-42 | a connection that begins with anything else is never a worker's, and on port 7000 it is a request exactly if it begins with another capital letter |
| `EndToEnd.EverythingCanArrive` | src/tunnel.rs:36-66 | for any bytes of the client that begin with a letter and any of the local server there is a run of the relay and a session of the tunnel in which all of them arrive |
| `Relay.EachRequestIsTakenOnce` | src/tunnel-relay.py:60-65 | both relays, every schedule: an API connection is taken by at most one worker thread and at most once |
| `Relay.EachWorkerIsBridgedOnce` | src/tunnel-relay.py:60-88 | one-shot relay: a worker connection is bridged at most once |
| `RelayRisks.OnlyTheLoopingRelayServesAgain` | tunnel-relay.py:43-66 | for every n > 1: some run takes n requests on one registration if and only if the relay is the looping version |
| `RelayClosing.ConnectionsAreClosed` | src/tunnel-relay.py:71-119 | both relays, every run: a rejected connection and that of a worker that is through are closed, and a client that was handed over is closed if and only if it has been taken and its bridge is over |
| `Relay.RegistryIdentity` | src/tunnel-relay.py:49-56 | both relays: the table's entry of a port is its latest worker, missing only after that worker's own cleanup; and an installed worker with an open connection is in the table |
| `Relay.CleanupIsOwn` | src/tunnel-relay.py:81-84 | a cleanup removes the table entry of its port exactly when its own worker is the latest there, so never a successor |
| `Relay.SafeStep` | src/tunnel-relay.py:44-119 | lock ownership, registry, handoff, wakeup and socket invariants are together kept by every step of both relays |
| `RelayBytes.BytesStep` | src/tunnel-relay.py:10-119 | every step keeps, for each worker with one request, that all bytes received are sent or in the copying thread's hands, in order |
| `RelayWakeups.GoodStep` | src/tunnel-relay.py:28-119 | every step keeps, beside all other invariants, that the latest worker of a port has an open connection until it is done and that the one-shot relay takes requests on one port only |
| `CreditLedger.UnbilledResponsesAreBounded` | src/api.rs:159-181 | every interleaving: with at most m requests on a key at once and T top-ups, at most (m-1)(T+1) successful responses settle without deducting a credit; with one at a time, none |
| `CreditLedger.BoundIsAttained` | src/keys.rs:63-78 | for every m and T there is a history with exactly (m-1)(T+1) unbilled responses |
| `CreditLedger.KeyConservation` | src/keys.rs:67-78 | every interleaving: the key's credits plus the billed responses are its initial credits plus what was added, so it never underflows |
| `CreditLedger.PoolConservation` | src/api.rs:337-344 | every interleaving: pool = initial + top-ups - decrements modulo 2^64, and plainly equal if and only if that difference fits |
| `CreditLedger.UnderflowIffTwoInFlight` | src/api.rs:203-204 | some history with at most m requests in flight takes more from the pool than was ever in it, if and only if m is at least 2 |
| `CreditLedger.OverdraftIsUnbounded` | src/api.rs:337-344 | for every d there is a history with at most two requests in flight that takes d more from the pool than was ever in it |
| `CreditLedger.SerialPoolNeverUnderflows` | src/api.rs:203-204 | with at most one request in flight at every moment the pool equals initial + top-ups - decrements, never below zero |
| `CreditLedger.GrantsNeverExceedDecrements` | src/master.rs:183-200 | every interleaving: grants never outnumber pool decrements, and a registered worker's credits are its startup value plus the grants since its last REGISTER |
| `CreditLedger.NoGrantIsLost` | src/api.rs:337-344 | while one registered worker holds the seat, every decrement earns it a credit, at the latest when its settlement is through |
| `Announcements.EarnedCreditsAreShown` | src/client.rs:327-335 | in every history a worker that reads on time is shown at its next PING its startup credits and one for each grant since its latest REGISTER |
| `KeyFile.FileIsAPrefixOfTheChanges` | src/keys.rs:40-56 | every interleaving of creating, deducting, adding, toggling and deleting: the file reads back as the map after a prefix of the changes, and each missing change belongs to a thread that has not saved yet |
| `KeyFile.FileAgreesAtQuiescence` | src/keys.rs:86-132 | when no operation is under way the file reads back as the map; it holds the map itself if and only if something changed or the file was valid at the start |
| `ApiKeys.KeysAreAsTheirHistory` | src/keys.rs:40-116 | after any operations a key is there if and only if it was created and not deleted since; it has the name it was created with and is enabled if and only if it was toggled an even number of times since |
| `RegistryRuns.SuperNodeSafety` | src/master.rs:464-505 | every run: a worker with the SuperNode role is the recorded one, the recorded one is registered, and a command channel is held if and only if an id is recorded |
| `RegistryRuns.RecordedIsSuperNodeIffNotRegisteredAgain` | src/master.rs:464-505 | every run: the recorded worker was elected by one of its own qualified REGISTERs, and has the SuperNode role if and only if it has not registered again since |
| `SplitElection.OneSuperNodeIffNoClash` | src/master.rs:467-505 | every run with check and election as separate steps: there is at most one SuperNode all the way, and the whole SuperNode invariant, if and only if no election acts on a vacancy that another registered SuperNode has filled since the check |
| `SplitElection.PairedElectionsNeverClash` | src/master.rs:467-505 | when every check is followed by its own election, no election clashes |
| `RegistryRuns.NextQualifiedRegisterIsElected` | src/master.rs:238-257 | reaping the SuperNode vacates the seat, it stays vacant until a qualified REGISTER, and that one is elected and gets the command channel |
| `RegistryRuns.TunnelPortUniqueness` | src/master.rs:154-162 | every run: the k-th allocation yields 18000 + k mod 47536, SuperNodes have port 0, all others one in 18000..65535, and two share a port if and only if their allocations are a multiple of 47536 apart |
| `RegistryRuns.VersionIsFaithful` | src/master.rs:164-176 | between any two states of a run with fewer than 2^64 bumps between, equal versions mean equal membership, roles, addresses, ports, credits and recorded SuperNode; without wrap it never decreases |
| `RegistryRuns.LastAnnouncementIsCurrentIff` | src/master.rs:217-230 | every run with a successful PING: the last announcement made to anyone is the list at the last successful PING if and only if that list is nonempty |
| `RegistryRuns.NoStutter` | src/master.rs:217-230 | two consecutive announcements are equal only if an empty list was observed in between |
| `RegistryRuns.AnnouncementsGoToTheirObserver` | src/master.rs:526-536 | every run, every worker: it has been sent exactly the list changes that its own PINGs were the first to observe, in order; so all changes, if and only if all were first observed at its PINGs |
| `RegistryRuns.WhoHoldsTheCurrentList` | src/master.rs:526-536 | every run: the SuperNode, or any worker, was last sent the current list if and only if the last change first observed at one of its own PINGs was to that list |
| `RegistryRuns.SilentWorkersAreReaped` | src/master.rs:335-356 | from the first tick on, at no time is a worker registered whose last PING or REGISTER is more than 150 s old |
| `RegistryRuns.HeardWorkersStay` | src/master.rs:335-356 | a worker heard from at least every 120 s whose connections stay open is never reaped |
| `Registrations.WorkersAreAsReported` | src/master.rs:467-505 | every run: a registered worker is recorded as its latest REGISTER and PING describe it, field by field, and is a consumer if and only if that REGISTER had no GPU or less than 6144 MB |
| `Registrations.ListIsOfTheProviders` | src/master.rs:202-215 | every run: the list a PING would see has the addresses, peer and RPC port, of exactly the registered workers other than the SuperNode whose latest REGISTER had a GPU and 6144 MB |
| `Registrations.AnnouncedAreProviders` | src/master.rs:217-230 | every run: any address ever observed or announced was then that of a worker whose latest REGISTER had a GPU and at least 6144 MB |
| `ConnectionHandler.InterleavingIsARun` | src/master.rs:426-573 | any interleaving of any number of connections, ticks and grants is a run of the registry, so the theorems about runs hold of it |
| `ConnectionHandler.HandlingIsARun` | src/master.rs:437-573 | handling one connection from any state is a run of the registry that ends where the handler does |
| `ConnectionHandler.EndedConnectionsLeaveNoWorker` | src/master.rs:441-456 | every run, whatever other connections do in between: when a connection ends, the worker it registered last is not registered any more and no other is touched |
| `Reconnects.ClosesAreOwnIff` | src/master.rs:441-456 | every run: at no moment can the end of a connection unregister a worker that has registered on another one since, if and only if no REGISTER comes while another connection still remembers its worker |
| `Reconnects.UnknownUntilRegistered` | src/master.rs:526-536 | a worker that is not registered is registered in no later state until a REGISTER of its id comes, whatever it PINGs |
| `ConnectionHandler.Handshake` | src/client.rs:213-289 | the worker's REGISTER line reaches the registry with its own fields; the reply it reads names a consumer if and only if the printed line had no GPU or less than 6144 MB, the first configured model if and only if it qualified and the seat was vacant, and else the port recorded for it |
| `Inference.PingIsAnswered` | src/master.rs:526-536 | the reply to a printed PING, byte by byte: the registry's credits of that worker, and the list of providers if it is new and not empty; or that the worker is unknown |
| `Inference.InferIsAnswered` | src/master.rs:537-559 | a printed INFER is answered with an error if no model has that name or nobody is registered, and else with a layer count for the address of each worker that is no consumer, which add up to the layers of the first model of that name and differ by at most one |
| `Heartbeat.AtMostOneReplyBehindIffPrompt` | src/client.rs:312-371 | for every timing: before each PING the unread lines are a suffix of the master's latest reply, if and only if at each PING that finds two lines unread the second is read in time |
| `Heartbeat.CurrentIffInTime` | src/client.rs:312-371 | for every timing, if and only if no second line is late: nothing is unread after any beat, every announcement is forwarded in its own beat, and the next PONG is always the one shown; and then the credits shown are those of the latest PONG |
| `Heartbeat.OnlyLevelReadersShowTheNextPong` | src/client.rs:323-335 | the next beat shows the credits of its own reply, whatever they are, if and only if nothing is unread |
| `Heartbeat.AfterTheFirstLateLine` | src/client.rs:337-359 | the first late line stays unread and its list is not forwarded; the next beat forwards it, shows the old credits and leaves its own reply unread |
| `Heartbeat.LaggingBeat` | src/client.rs:323-353 | a reader a whole reply behind shows the credits of that reply, and catches up only by taking the one PONG of the next for an extra line |
| `Heartbeat.ForwardedExactly` | src/client.rs:337-359 | for every timing at all, the strings forwarded are exactly the UPDATE_SLAVES lines consumed, in order, and with the unread ones they are all that were sent |
| `Heartbeat.ShownAreTheLastRead` | src/client.rs:323-335 | for every timing the credits shown are those of the last PONG that a heartbeat read as its first line, or the old ones if there was none |
| `Announcements.SentListsAreForwarded` | src/client.rs:312-371 | from any state of any run, for one connection of a worker's client and any timing: what it adds to the lists its main program is sent, and what is unread, are together exactly the lists the master sends it, in order; all of them and each in its own beat when no second line is late |
| `Announcements.TheCommandLineFollowsTheMaster` | src-tauri/src/main.rs:384-438 | from the registry through the client's connections to the command line: over any reconnects, without a late line on the last connection and with a successful last relaunch, the llama-server runs with a chain that splits into its own address and the last list its worker was sent |
| `Announcements.TheCommandLineIsCurrent` | src-tauri/src/main.rs:384-438 | and that is the list of the last successful PING of any worker if and only if the last list change first observed at a PING of this worker was to that list |
| `Client.OneConfigIsDelivered` | src/client.rs:299-304 | over any series of reconnects the main program is sent one configuration, that of the first connection to yield one, or none if none does |
| `Client.EachConnectionForwardsInOrder` | src/client.rs:312-371 | each connection adds a prefix of the lists announced on it to those forwarded |
| `Client.EachConnectionForwardsWhatItReads` | src/client.rs:310-371 | a connection that yields a configuration adds exactly the lists announced on it less those still unread, for every timing, and all of them without a late line; and the credits shown are those of the last PONG it read first |
| `Client.ConfigIsAsPrinted` | src/client.rs:242-297 | the configuration is the one the master printed, unless it names a model that cannot be downloaded |
| `LineCodec.RegisterRoundTrip` | src/client.rs:213-218 | a printed REGISTER is parsed back to its fields, followed by anything, if and only if the id has no ':' and no newline |
| `LineCodec.PingRoundTrip` | src/client.rs:319 | a printed PING is parsed back to its fields if and only if the id has no ':' and no newline |
| `LineCodec.RegisterFields` | src/master.rs:367-393 | more fields than seven do no harm, only "1" says that there is a GPU, and a number out of range makes the line no command |
| `LineCodec.RegisterNeedsSevenFields` | src/master.rs:370-372 | a REGISTER of fewer than seven fields is no command |
| `LineCodec.InferArrives` | src/master.rs:402-405 | INFER with a name without colon and newline that does not end in a blank arrives with that name |
| `LineCodec.InitRoundTrip` | src/master.rs:507-523 | a printed INIT_MODEL of any of the three shapes is read back unchanged if and only if the model name has no ':' and neither name nor URL a newline; URLs may hold any number of ':' |
| `LineCodec.ReceivedIdsAreClean` | src/master.rs:367-407 | whatever bytes arrive, an extracted id has no separator and every number is in the range of its type |
| `LineCodec.ReceivedInitsAreClean` | src/client.rs:242-289 | whatever bytes arrive, an extracted model name has no separator and the URL no newline |
| `LayerSplit.SplitSumsToTotal` | src/master.rs:410-422 | the layer counts add up to the total if and only if the worker count fits 32 bits or there are fewer layers than the cut count |
| `LayerSplit.SplitIsBalanced` | src/master.rs:415-421 | no other assignment of the same layers to the same workers has a smaller largest or a larger smallest share, and any two shares differ by at most one |
| `LayerSplit.EveryLayerHasOneOwner` | src/master.rs:410-422 | the shares are consecutive ranges: each layer belongs to exactly one worker |
| `LayerSplit.SplitGoesToTheComputing` | src/master.rs:410-422 | the shares go to the addresses of exactly the workers that are no consumers, each as often as it is listed, and to the local server when there are none |
| `LayerSplit.ComputingInOrder` | src/master.rs:410-422 | and in the order in which they are listed |
| `LayerSplit.PrefixSum` | src/master.rs:415-421 | the first k workers get k * base + min(k, extra) layers |
| `ResponseHead.RelayReply` | src/api.rs:278-398 | status, billing decision, content type and body bytes are functions of the relay's byte stream alone, whatever reads it arrives in; a head that begins with a status line is billed if and only if its number is a 2xx, and one without a number is not; it fails exactly when no CRLFCRLF occurs |
| `ResponseHead.StatusDecides` | src/api.rs:323-344 | a stream whose head begins with version and number n is a success if and only if n / 100 = 2, and the status sent on is n, or 502 if n has not three digits; a first line without a digit is none |
| `ResponseHead.ReadHead` | src/api.rs:278-321 | the head block ends at the first CRLFCRLF of the whole stream and leftover plus later reads are exactly what follows; otherwise the failed read or the missing end is reported |
| `Api.ApiState.ChatCompletions` | src/api.rs:154-398 | a request on its own costs one credit of pool and key and earns the SuperNode one, all saved, if and only if the key is there, enabled and has credits, the model is the right one, the pool is not empty, the relay answers and the head begins with a status 2xx; in every other case nothing changes |
| `Api.WhyRefused` | src/api.rs:154-275 | which refusal has which reason, in the order of the checks |
| `Tunnel.CopyBidirectional` | src/tunnel.rs:66-76 | the result and what is read and written on both connections are decided by the reads, writes and errors of the network alone: each direction has all its reads up to its end, and has written the first bytes of that as far as the writes asked |
| `Tunnel.TheEventsDecide` | src/tunnel.rs:66-76 | the copy stops at the first error, or when both directions have ended and written everything, whichever comes first, and counts what it has written; nothing else stops it |
| `Tunnel.CopiesAreFaithful` | src/tunnel.rs:66-76 | at any moment each side has been written a prefix of what was read from the other; a finished copy has passed on everything and counted it |
| `Tunnel.EverythingCanBeCopied` | src/tunnel.rs:66-76 | for any bytes both ways there is a sequence of reads and writes that copies all of them and finishes with their numbers |
| `Tunnel.WorkerTunnel.RunReverseTunnel` | src/tunnel.rs:28-96 | over all reconnects exactly the attempts made before the shutdown flag is seen are served, each as its network decides, and the counters grow by the bytes of finished copies, each by the other's direction |
| `Tunnel.ServesUntilStopped` | src/tunnel.rs:28-31 | without the flag every accepted connection is served, and from the moment the loop condition reads it none is |
| `Tunnel.StopsAfterACopy` | src/tunnel.rs:85-93 | after a copy the flag is read again and ends the loop; an attempt given up early goes on to the next turn |
| `Tunnel.CountersAreRightIff` | src/tunnel.rs:66-90 | over any sessions the counter for bytes to the relay has the amount that went there, and the other one its own, if and only if as many bytes went to the relay as to the local server, modulo 2^64 |
| `Registry.UnregisteringTheStaleIsReaping` | src/master.rs:340-353 | unregistering the stale ids one by one, in any order, is one step: they are gone, the seat is vacated if its holder was among them, and the version has grown by their number |
| `RelayFaults.LoopingRelayLosesAWakeup` | tunnel-relay.py:41-46 | a run of the looping relay in which the notification comes before the wait |
| `RelayFaults.SecondRequestInjectsAByte` | src/tunnel-relay.py:99-119 | a run in which the bytes sent to a worker are no prefix of those its client sent, because a second request came |
| `RelayFaults.SecondRequestOverwritesTheFirst` | src/tunnel-relay.py:108-119 | a run in which a request that was handed over is neither in the slot nor taken, its connection still open, and its byte has been sent before that of the request that overwrote it |
| `RelayWakeups.ReplacedWorkerWaitsForever` | src/tunnel-relay.py:50-60 | a waiting worker that has been replaced is still waiting in every later state |
| `Tunnel.SwappedCounters` | src/tunnel.rs:66-90 | a session in which one byte is copied to the relay and none to the local server, and the counter for bytes to the relay stays 0 |
| `Reconnects.OldConnectionTakesTheNewRegistration` | src/master.rs:441-456 | a run in which a worker registers again on a second connection and the end of the first unregisters it |
| `CreditLedger.TwoRequestsUnderflowThePool` | src/api.rs:203-204 | a history of two requests admitted on a pool of one that leaves it at 2^64 - 1 |
| `SplitElection.SplitElectionMakesTwoSuperNodes` | src/master.rs:469-472 | a run in which two qualified REGISTERs both check before either elects and both workers become SuperNode |
| `RegistryRuns.SecondRegisterLeavesNoSuperNode` | src/master.rs:467-477 | after a second REGISTER of the recorded id nobody is SuperNode in any continuation that keeps it registered, and its id stays recorded |
| `RegistryRuns.SuperNodeMissesAnAnnouncement` | src/master.rs:526-536 | a run in which the provider's own PING takes the announcement and the SuperNode is sent nothing |
| `RegistryRuns.ReorderingIsAnnounced` | src/master.rs:202-230 | the same two providers in the other iteration order are announced again |
| `Heartbeat.ALineLateForAWholeBeat` | src/client.rs:338-353 | three different lists in a row, each late for a whole beat, leave the reader more than one reply behind |
| `Heartbeat.ALatePongIsSwallowed` | src/client.rs:338-353 | a PONG read as the extra line is dropped and the shown credits stay old |
| `RelayServer.Server.Register` | src/tunnel-relay.py:44-60 | the registering critical section is the run install, wait (one-shot) or install (looping) of the thread machine |
| `RelayServer.Server.Take` | src/tunnel-relay.py:62-65 | popping the slot is one step of the machine and returns the request that was stored |
| `RelayServer.Server.CleanUp` | src/tunnel-relay.py:81-88 | the cleanup section is one step of the machine |
| `RelayServer.Server.HandleApi` | src/tunnel-relay.py:99-119 | the API thread's critical section is the run its three outcomes stand for: no worker, byte delivered and notified, or send failed and slot emptied |
| `RelayServer.Server.Forward` | src/tunnel-relay.py:10-18 | the copying loop receives everything up to the end of the source or the first failing send and sends on all of it but what that send did not take, and is a run of receive, send and stop steps of its own side |
| `RelayServer.EverythingIsSentOn` | src/tunnel-relay.py:10-18 | while nothing fails, all chunks are received and sent on |
| `RelayServer.ApiRun` | src/tunnel-relay.py:99-119 | looking up, sending and notifying or aborting compose to a run of the machine |
| `Tunnel.WorkerTunnel.Serve` | src/tunnel.rs:36-76 | one connection: the relay gets the magic byte and then the first bytes of the local server's reads, the local server the byte read ahead and then the first bytes of the relay's reads, and it is not spoken to unless a request has come, it is there and takes that byte |
| `Api.ApiState.Settle` | src/api.rs:337-344 | settlement decrements the pool, credits the recorded SuperNode if it is registered and then saves the credits file, and deducts from the key if it has credits |
| `Api.ApiState.AddCredits` | src/api.rs:400-430 | a top-up is refused with 401 without the password and with 400 when it is no JSON, zero or missing; otherwise the pool grows with wrap-around and is saved |
| `ResponseHead.Position` | src/api.rs:305-307 | the window search finds the first CRLFCRLF or there is none |
| `ResponseHead.FirstHeadEndExtends` | src/api.rs:297-307 | a head end found in what has arrived is the first of every longer stream, with the same block |
| `ResponseHead.FirstHeadEndIsUnique` | src/api.rs:305-307 | a stream has at most one first CRLFCRLF |
| `ResponseHead.ContentType` | src/api.rs:347-355 | the result is the value of the last Content-Type field line, or the default when there is none; the status line does not count |
| `ResponseHead.ContentTypeOfField` | src/api.rs:347-355 | a field line counts if and only if its trimmed name is Content-Type up to the case of its letters, and its value is what follows the first colon, trimmed |
| `ResponseHead.LastContentTypeIsUnique` | src/api.rs:347-355 | at most one value is the last Content-Type |
| `ResponseHead.StatusOfStatusLine` | src/api.rs:325-331 | a status line of version, number and anything after a blank yields its number, or 502 when it exceeds 16 bits (section 4 of RFC 9112) |
| `ResponseHead.LinesOfHead` | src/api.rs:323-325 | a head joined from lines by CRLF is taken apart into exactly those lines |
| `ResponseHead.SuccessIsDecidedByTheHead` | src/api.rs:337-344 | whether a reply is paid for depends on its first head block only |
| `ResponseHead.CopyBody` | src/api.rs:367-384 | the streaming loop passes on the reads up to the first failed one: the same bytes and the same outcome |
| `ApiKeys.KeyManager.constructor` | src/keys.rs:23-30 | the map is what the file holds, or empty when there is no path, no file or no valid document |
| `ApiKeys.KeyManager.Save` | src/keys.rs:123-132 | the file becomes the map exactly when there is a path |
| `ApiKeys.KeyManager.CreateKey` | src/keys.rs:40-56 | a new enabled key with its credits is in the map and in the file |
| `ApiKeys.KeyManager.ValidateKey` | src/keys.rs:58-61 | a key is accepted if and only if it exists, is enabled and has credits |
| `ApiKeys.KeyManager.DeductCredit` | src/keys.rs:67-78 | one credit less and saved if there was one; otherwise false and nothing changes |
| `ApiKeys.KeyManager.AddCredits` | src/keys.rs:96-105 | the amount is added with wrap-around and saved, or false for an unknown key |
| `ApiKeys.KeyManager.ToggleKey` | src/keys.rs:107-116 | the enabled flag flips and is saved, or false for an unknown key |
| `ApiKeys.KeyManager.DeleteKey` | src/keys.rs:86-94 | the key is gone and that is saved, or false for an unknown key |
| `Registry.WorkerRegistry.constructor` | src/master.rs:121-137 | a fresh registry is empty, without SuperNode, at port 18000 and version 0, with the saved credits of a readable file |
| `Registry.WorkerRegistry.AllocateTunnelPort` | src/master.rs:154-162 | hands out the allocator's port and moves it on, from 65535 back to 18000 |
| `Registry.WorkerRegistry.SetSuperNode` | src/master.rs:172-176 | records the id and bumps the version |
| `Registry.WorkerRegistry.RegisterNode` | src/master.rs:232-236 | inserts or replaces the worker under its id and bumps the version |
| `Registry.WorkerRegistry.HandleRegister` | src/master.rs:464-523 | the REGISTER branch makes exactly the state change and the reply of the state machine's registration step |
| `SplitElection.CheckThenElectIsRegistering` | src/master.rs:464-505 | check and election with nothing in between are exactly the atomic registration |
| `Registry.WorkerRegistry.UnregisterWorker` | src/master.rs:238-257 | removes the worker, clears id and command channel exactly when it was the recorded one, bumps the version |
| `Registry.WorkerRegistry.UpdateHeartbeat` | src/master.rs:259-269 | refreshes free memory and time of a known worker and changes nothing for an unknown one |
| `Registry.WorkerRegistry.AddCreditsToSuperNode` | src/master.rs:183-200 | credits the recorded SuperNode if it is registered, saves the file with the pool it is given and returns the total; otherwise changes nothing and returns 0 |
| `Registry.WorkerRegistry.RpcSlaveAddrs` | src/master.rs:202-215 | the loop lists the addresses in iteration order, as the two lemmas below characterise them |
| `Registry.SlavesAreTheProviders` | src/master.rs:202-215 | an address is in the list if and only if it is that of a registered GPU provider in the iteration |
| `Registry.SlavesInOrder` | src/master.rs:202-215 | the list over two stretches of the iteration is the one list followed by the other |
| `Registry.WorkerRegistry.CheckSlaveChange` | src/master.rs:217-230 | remembers the current list, and announces it if and only if it is nonempty and differs from the one before |
| `Registry.WorkerRegistry.HeartbeatTick` | src/master.rs:335-356 | one tick, for any iteration order, has the effect of reaping the workers silent for more than 120 s in one step |
| `ConnectionHandler.HandleConnection` | src/master.rs:426-573 | the loop over a connection's lines makes the steps and replies those lines stand for and unregisters the remembered worker at the end |
| `ConnectionHandler.HandleLine` | src/master.rs:459-573 | one line: its registry step, its reply (REGISTER, PING, INFER or error), and the worker id remembered for the connection |
| `ConnectionHandler.HandlePing` | src/master.rs:526-536 | a PING's reply has the worker's credits and the announcement due after the update, or says that the worker is unknown |
| `ConnectionHandler.HandlersKeepToThemselves` | src/master.rs:435-456 | a handler that knows only its own connection's worker id makes the step of the whole master, and no step touches what another connection remembers |
| `Text.ParseOfDecimal` | src/master.rs:374-379 | parsing a number's decimal digits yields the number if it is within the type's maximum and fails otherwise |
| `Text.ParseAfterPlus` | src/master.rs:374-379 | and so does parsing them after a plus sign |
| `Text.OnlyNumbersAreParsed` | src/master.rs:374-379 | whatever is parsed is one or more digits, after an optional plus sign |
| `Text.SplitOfJoin` | src/client.rs:247-253 | splitting joined parts that lack the separator gives the parts back |
| `Text.JoinOfSplit` | src/client.rs:252 | joining the parts of a split gives the text back |
| `Heartbeat.ReplyIsItsLines` | src/master.rs:526-536 | the bytes of a reply are read back as its one or two lines, in order, whatever follows |
| `Heartbeat.MasterConnection.Heartbeat` | src/client.rs:321-366 | one heartbeat consumes the first unread line, a second one only after a PONG and in time, forwards slave lists and stores credits as the reader function says |
| `Heartbeat.SlaveUpdates.HandleSlaveUpdates` | src-tauri/src/main.rs:384-438 | after any number of updates the running llama-server has the chain of the last one, or none runs if its launch failed |
| `Heartbeat.AnnouncedListReachesTheCommandLine` | src-tauri/src/main.rs:391-402 | the chain built from an announced list of comma-free addresses splits into the local address and that list, in order |
| `Client.WorkerClient.StartMasterConnection` | src/client.rs:206-382 | the reconnect loop does what its connections add up to |
| `Client.WorkerClient.Connect` | src/client.rs:209-372 | one connection is given up before delivery exactly when it yields no configuration, and otherwise delivers if nothing was delivered yet and runs its heartbeats |
| `Client.WorkerClient.HeartbeatLoop` | src/client.rs:310-371 | the inner loop runs the heartbeats up to the first that is lost |
| `Registry.WorkerRegistry.SaveCredits` | src/master.rs:280-299 | the file holds the given pool and the credits of the registered workers, if there is a path |
| `Registry.RestartKeepsTheRegistered` | src/master.rs:280-320 | a restart from a saved file has the saved pool, and a worker that registers gets its credits back if it was registered when the file was saved, and none otherwise |

## Left out

- Sockets, tokio, axum, reqwest, serde and the writing of files: they appear as line streams, byte streams, a document, and writes that succeed.
- Lines torn by `tokio::select!` or by the 100 ms timeout when it fires in the middle of a line: lines are atomic.
- Concurrency of the master inside one handler body: bodies are atomic steps, except for the election, for which the split is shown.
- `switch_model` and its reply path: the client implements no counterpart, so the reply line it reads may be a PING.
- The master's MODEL_READY test: it looks at the line buffer after clearing it, so every such line is answered with an error; the model has that behaviour without the test.
- ConnectionHandler.HandleLine: where the master aborts (a SuperNode with no model configured, INFER with 2^32 computing workers) the model goes on after an empty reply.
- ConnectionHandler.HandleConnection: does not model the command channel of `switch_model`; interleaving with other connections is in `InterleavingIsARun`.
- Freshness of the pool in `credits.json` under concurrent requests: the value saved is a snapshot and settlements without a SuperNode do not save.
- Carrying worker credits across reconnects within one master process: the code does not do it.
- The panic on a content type that is no legal header value, which comes after billing.
- A client that goes away while the body is streamed: the copying then just stops early.
- Transfer encodings: the body is passed through undecoded.
- Listing of keys and the other JSON handlers of the administrator: easy facts only.
- Liveness of either relay: no claim that every API request is served; the code does not guarantee it.
- Spurious wakeups: Python's condition variables do not have them.
- EndToEnd.BytesArriveInOrder: assumes that the announcing byte was written; the code ignores the result of that write, and the sessions in which it fails are covered by `Serve` alone.
- RelayServer.Server.Forward: runs one copying thread by itself; two threads and their interleaving are in the state machine.
- Downloads, hardware detection, process supervision, tray, panel, installers, web pages and the older relay and main variants.
