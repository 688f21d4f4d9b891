# Verification of the meta-node network and wallet services

A Dafny model of the concurrent and stateful core of the repository, with proofs about it.

* **Request pipeline** (`RequestPipeline.dfy`, `MessageFates.dfy`, `ReadOrder.dfy`,
  `PipelineSafety.dfy`): pooled request objects travel from a connection's read
  loop through its queue and router into the central queue and a worker, or are dropped on one of three
  paths. Every interleaving of readers, routers and workers is a run of a step system. The pooled
  program is shown to refine a pipeline of messages that knows nothing of objects. `Generations.dfy` is
  about two generations of one connection in it.
* **Connection manager** (`ConnectionActor.dfy`): the goroutine that owns a connection, its generations
  of channels, readers and writers, its cleanup and its shutdown timer. Double closes and sends on closed
  channels are modelled as panics. `Manager` is the manager's own code; each of its methods is proved to
  be a step, or a run, of the step system. `ConnectionPipeline.dfy` joins a connection with the request
  pipeline.
* **Wallet transfers** (`WalletQueues.dfy`, `NonceReuse.dfy`, `WalletProgress.dfy`, `HelpPay.dfy`,
  `HelpPayTransfers.dfy`): one queue and one worker per wallet however callers race, when a nonce is sent
  twice, and that no call gets stuck; the shared help-pay queue and the sync of its workers; the two
  together, from a request to the transfer that pays it.
* **Circuit breaker** (`CircuitBreaker.dfy`), **framing** (`Framing.dfy`), **connection registry**
  (`Registry.dfy`), **chain pool** (`ChainPool.dfy`), **upload routing** (`UploadRouter.dfy`,
  `UploadStreams.dfy`), **nibble keys** (`NibbleKeys.dfy`), **call fees** (`CallFees.dfy`), **versions** (`Versions.dfy`).

Objects that the program updates in place are classes here, and loops are loops. Goroutines that share
state are step systems: `Enabled` says when an atomic action can happen, `Step` what it does, `Possible`
and `After` describe whole runs. Clocks, dialling, the chain, protobuf decoding, key stores and the
scheduler are parameters or arbitrary choices, so the results hold for all of them.

`dafny verify dfyconfig.toml` checks the whole project.

## Properties that fail, and when they hold

* A disconnected manager goroutine does not always end: one query after the disconnect switches the
  shutdown timer off (`ConnectionActor.QueryKeepsManagerAlive`). It can end exactly when the last command
  handled was a disconnect (`ConnectionActor.TimerExitCondition`).
* Read order is not kept across two generations of a connection (`Generations.GenerationsOvertake`). It is
  kept exactly if the old router has nothing left that it can move when the new one opens, or connections
  have no queues, or two more requests cannot be put in the central queue
  (`Generations.OrderAcrossGenerations`).
* The disconnect a handler sends when it ends can take down the next generation of its connection
  (`ConnectionPipeline.LastWishHitsNext`), exactly when that one is published then
  (`ConnectionPipeline.LastWishHits`).
* The nonces of one wallet do not always strictly increase: the last one can be sent again exactly if it
  is still the nonce of the chain, or the worker has already read it for the next transfer
  (`NonceReuse.ReusedExactly`). So it can be sent again even after the first transfer with it was mined
  (`NonceReuse.MinedYetReused`).
* A chain pool call can report that all connections are down while one is up throughout
  (`ChainPool.TwoSlotRun`), exactly when other calls draw tickets between its first and its last, on a
  pool of two slots or more, except an even number on a pool of two (`ChainPool.HiddenExactly`).
* A pool does not return each slot equally often while calls are in progress
  (`ChainPool.SlowCallSkewsShares`), but the difference is never more than the calls in progress
  (`ChainPool.NearlyFair`).
* The sweep of a completed file can leave a stream behind (`UploadStreams.StreamLeftBehind`), exactly if
  another chunk of the file is still without its stream when the sweep begins
  (`UploadStreams.CleanExactly`).
* Slot indices can be out of range: for counter values from 2^63 on (`ChainPool.SlotInRange`) and for
  chunk indices below -1 (`UploadRouter.SlotInRange`).
* A half-open circuit breaker lets one call more through than its limit
  (`CircuitBreaker.EpisodeExceedsLimit`), exactly when more calls than the limit are asked in the episode
  (`CircuitBreaker.EpisodeExactly`).
* Removing a connection does not always clear it from the registry (`Registry.OverrideLeavesBehind`); it
  does exactly when no call put it, to stay, in a slot other than that of its own type and address
  (`Registry.RemoveClearsAfter`). Row 11 of the registry has no name of its own, so going from row to name
  and back fails from there on (`Registry.NameRoundTrip`).
* QUIC frames are read back exactly when each is at most 8 MiB (`Framing.FramesArrive`).
* Filling in call defaults twice fails exactly when the fee style does not match the chain
  (`CallFees.SecondCall`).
* A caret pragma above the target can be left (`Versions.CaretLeftAbove`), exactly where one had to be
  lowered and the target is below its own trimmed form (`Versions.CaretAfterAdjust`).
* With a semicolon in the target a second pass can lower a pragma again (`Versions.SemicolonGrows`),
  exactly when what stands before the semicolon is above the target (`Versions.LoweredAgain`).

## Model

| member | source | states |
|---|---|---|
| `RequestPipeline.StepOneHolder` | pkg/network/connection.go:880-910 | every action keeps each allocated request object at exactly one place: the pool, a reader, a connection queue, a router, the central queue or a worker |
| `PipelineSafety.NoOverwriteInUse` | pkg/network/connection.go:880-881 | after any history, no action changes what a request object outside the pool carries: an object is never refilled while in use |
| `RequestPipeline.StepRefines` | pkg/network/connection.go:880-910 | each action on recycled objects is the same action on plain messages, seen through the objects |
| `RequestPipeline.PooledRunRefines` | pkg/network/server.go:89-128 | every run of the pooled program keeps one holder per object and is a run of the message pipeline with the same outcome |
| `MessageFates.StepOneFate` | pkg/network/server.go:214-249 | every action keeps each message read handled once, or dropped once, or at one position of one place, and nothing else anywhere |
| `ReadOrder.StepOrdered` | pkg/network/server.go:214-249 | every action keeps what a session has read in read order up to and inside the central queue |
| `PipelineSafety.PipeRun` | pkg/network/server.go:214-249 | both invariants hold after every run of the message pipeline |
| `PipelineSafety.EveryRunIsSafe` | pkg/network/connection.go:810-912 | in every interleaving of readers, routers and workers from the start: one holder per object, one fate per message, read order per session |
| `PipelineSafety.CentralKeepsReadOrder` | pkg/network/server.go:214-249 | two requests of one session (one generation of a connection) in the central queue are in the order they were read |
| `MessageFates.FatesAddUp` | pkg/network/server.go:89-128 | messages read are as many as those handled, dropped and in flight together |
| `PipelineSafety.Conservation` | pkg/network/server.go:89-128 | the same count after every run from the start |
| `Generations.RunFinished` | pkg/network/server.go:214-249 | a session that has stopped reading and whose router has nothing left to move adds nothing more to the central queue, in any run |
| `Generations.RunUnqueued` | pkg/network/connection.go:883-890 | without connection queues no later session ever gets a request to the central queue |
| `Generations.RunNoWorkers` | pkg/network/server.go:89-128 | without workers no more requests get into the central queue than there was room for |
| `Generations.Drain` | pkg/network/server.go:89-128 | a worker can empty the central queue however full it is, changing nothing else that is on the way |
| `Generations.Overtake` | pkg/network/server.go:214-249 | while a router still holds a request of an old session, and two more can be put in the central queue by room or by a worker, a run lets a later session overtake it |
| `Generations.OvertakeQueued` | pkg/network/server.go:214-249 | the same while the request is still in the queue of the old session |
| `Generations.KeptAhead` | pkg/network/server.go:191-265 | in every run the old requests stay ahead if the old router has nothing it can move, or connections have no queues, or two more cannot be put in the central queue |
| `Generations.OrderAcrossGenerations` | pkg/network/server.go:191-265 | when a connection comes up again, its old requests stay ahead of the new ones in every run if and only if one of these three holds, for every fill of the queues and every number of workers |
| `Generations.GenerationsOvertake` | pkg/network/server.go:191-265 | a run from the start in which the first generation of a connection is told to quit and ends its reading, and a request of the second overtakes one that it had read |
| `ConnectionActor.StepInv` | pkg/network/connection.go:146-394 | every command, cleanup part, I/O action and send keeps the invariant: no panic, old generations wholly dead, the newest taken down as far as the phase says, a published send channel exactly while connected, the timer armed only while disconnected |
| `ConnectionActor.RunInv` | pkg/network/connection.go:146-394 | the invariant holds after every run |
| `ConnectionActor.EveryRunIsSafe` | pkg/network/connection.go:146-394 | in every run no channel is closed twice or used once closed, one generation at most has goroutines, request and error channels close only after their reader ended, and the goroutine is gone only while disconnected with everything closed |
| `ConnectionActor.TimerFollowsCommands` | pkg/network/connection.go:165-192 | whether the shutdown timer is (or will be) armed depends only on the last command handled |
| `ConnectionActor.TimerExitCondition` | pkg/network/connection.go:389-391 | the manager can end by its timer exactly when it is between commands and the last command was a disconnect |
| `ConnectionActor.QueryKeepsManagerAlive` | pkg/network/connection.go:346-391 | after disconnect and one query the manager is disconnected, waits for commands and has no timer to end it |
| `ConnectionActor.IoDecreases` | pkg/network/connection.go:196-235 | once the TCP connection is closed, every action of a generation leaves less to do |
| `ConnectionActor.ReadyIo` | pkg/network/connection.go:765-912 | a live reader or writer of a stopped generation always has a ready branch, whatever the capacities and the messages: a whole frame is read if it is there, a message that does not marshal is skipped, and only otherwise does the I/O fail |
| `ConnectionActor.CleanupBounded` | pkg/network/connection.go:196-235 | while cleanup waits, the generation takes no more actions than remained when the wait began |
| `ConnectionActor.CleanupNeverStuck` | pkg/network/connection.go:196-235 | in every run, a waiting cleanup can go on or the generation it waits for can act, whatever it is sent and has to send |
| `ConnectionActor.Manager.constructor` | pkg/network/connection.go:146-163 | a new manager is disconnected, has no channels and no timer |
| `ConnectionActor.Manager.StartIO` | pkg/network/connection.go:237-255 | adds a fresh generation, publishes its send channel and marks the connection up |
| `ConnectionActor.Manager.AcceptConn` | pkg/network/connection.go:287-303 | is the accept step: starts a generation only if there is none, and switches the timer off |
| `ConnectionActor.Manager.Connect` | pkg/network/connection.go:305-328 | is the dial step: nothing if connected or if dialling fails, except that the timer goes off |
| `ConnectionActor.Manager.Answer` | pkg/network/connection.go:368-387 | a getter changes nothing but the timer, which it switches off |
| `ConnectionActor.Manager.SendByCommand` | pkg/network/connection.go:330-344 | is the send step: succeeds exactly when connected and there is room |
| `ConnectionActor.Manager.TimerExit` | pkg/network/connection.go:389-391 | ends the goroutine, only while disconnected |
| `ConnectionActor.Manager.Await` | pkg/network/connection.go:196-235 | waiting for the writer or reader ends whatever ready branches they take, and is a run of the step system |
| `ConnectionActor.Manager.SignalStop` | pkg/network/connection.go:196-235 | closing quit, TCP connection and send channel, in this order, is a run of the step system |
| `ConnectionActor.Manager.CloseDownstream` | pkg/network/connection.go:196-235 | closing the request and error channels after the waits is a run of the step system |
| `ConnectionActor.Manager.Cleanup` | pkg/network/connection.go:196-235 | cleanup ends, and is a run from the first close to the start of the timer |
| `ConnectionActor.Manager.DisconnectConn` | pkg/network/connection.go:346-361 | a disconnect ends with the timer armed, nothing connected and the newest generation wholly dead, and is a run of the step system |
| `ConnectionPipeline.StepInv` | pkg/network/connection.go:146-394 | every action of a connection, its handlers, the rest of the pipeline and other connections keeps generations and sessions in agreement: quit, reader, queue length |
| `ConnectionPipeline.RunInv` | pkg/network/connection.go:146-394 | the same after every run of the two joined |
| `ConnectionPipeline.BeginsAfterHandover` | pkg/network/connection.go:237-255 | in every run, when a generation starts every earlier one has stopped reading and handed over, which is the premise of the order across generations |
| `ConnectionPipeline.PipelineFollows` | pkg/network/connection.go:810-912 | whatever the manager, its reader and its writer can do, the pipeline can do with them |
| `ConnectionPipeline.LastWishHits` | pkg/network/server.go:203-206 | in every run the disconnect a handler sends when it ends takes down exactly the generation published at that moment, its own only while that is still up |
| `ConnectionPipeline.LastWishHitsNext` | pkg/network/server.go:203-206 | a run from the start in which it takes down the next generation |
| `WalletQueues.StepOneWorker` | pkg/account_handler/account_tcp.go:28-57 | every action keeps at most one worker, or one caller about to start it, per queue |
| `WalletQueues.StepInOrder` | pkg/account_handler/account_tcp.go:60-66 | every action keeps the calls put in a queue equal to those answered, at most one in execution and those waiting, in order |
| `WalletQueues.StepAnswered` | pkg/account_handler/account_tcp.go:28-57 | every action keeps each queued call answered once when finished and not before |
| `WalletQueues.StepPriced` | pkg/account_handler/account_tcp.go:103-160 | every action keeps the nonces sent non-decreasing, and larger than every one whose receipt was seen |
| `WalletQueues.StepPaid` | pkg/account_handler/account_tcp.go:60-166 | every action keeps the transfers sent from a queue those of different calls, each answered or being waited for |
| `WalletQueues.StepInv` | pkg/account_handler/account_tcp.go:28-166 | every action of any caller, worker or the chain keeps all of the above |
| `WalletQueues.RunInv` | pkg/account_handler/account_tcp.go:28-166 | all of the above hold after every run |
| `WalletQueues.NoOverlap` | pkg/account_handler/account_tcp.go:28-57 | however callers race, a wallet has at most one queue and one worker, so no two of its transfers are executed at once |
| `WalletQueues.InEnqueueOrder` | pkg/account_handler/account_tcp.go:60-66 | transfers run in the order they were put in, no call is answered twice, and sending a result never blocks |
| `WalletQueues.PaidAtMostOnce` | pkg/account_handler/account_tcp.go:28-166 | in every run at most one transfer is sent for a call, over all queues, and from the wallet of the call |
| `WalletQueues.NoncesIncrease` | pkg/account_handler/account_tcp.go:103-160 | in every run the nonces of a wallet never fall and are larger than each earlier one whose receipt was seen |
| `NonceReuse.RunSendsFrom` | pkg/account_handler/account_tcp.go:103-143 | in every run what a worker sends from some moment on has at least the nonce the chain and the worker had at that moment |
| `NonceReuse.NeverReused` | pkg/account_handler/account_tcp.go:103-143 | once the chain has passed the last nonce sent, and unless the worker has read it for the next transfer already, no run sends it again |
| `NonceReuse.SendNew` | pkg/account_handler/account_tcp.go:28-143 | a resting worker with nothing queued sends with the nonce of the chain for a new caller |
| `NonceReuse.ReuseRun` | pkg/account_handler/account_tcp.go:60-160 | from every state in which the last nonce is still that of the chain, or has been read for the next transfer, a run sends it again |
| `NonceReuse.ReusedExactly` | pkg/account_handler/account_tcp.go:103-160 | in every reachable state in which a wallet has sent something, some run sends its last nonce again if and only if it is still the nonce of the chain or the worker has read it for the next transfer |
| `NonceReuse.FirstPendingIsReached` | pkg/account_handler/account_tcp.go:28-147 | an eleven-event run from the start reaches a sent, not yet mined transfer with another waiting |
| `NonceReuse.MinedYetReused` | pkg/account_handler/account_tcp.go:103-160 | a run from the start that sends a nonce again after the first transfer with it was mined |
| `WalletProgress.RunLive` | pkg/account_handler/account_tcp.go:28-57 | in every run every queue has a worker or a caller about to start it, and a waiting caller has its call in the queue |
| `WalletProgress.NoCallIsStuck` | pkg/account_handler/account_tcp.go:28-66 | in every run, for every call that has not returned, its caller, the worker of its queue or the caller that is to start that worker can act |
| `HelpPay.StepOnePlace` | pkg/account_handler/account_handler.go:1252-1267 | every action keeps a submitted request queued once, or held by one worker, or answered once, and only one of the three |
| `HelpPay.EveryRequestInOnePlace` | pkg/account_handler/account_handler.go:1252-1267 | the same in every run, cancelled workers and their replacements included; the result channel always has room for the answer of a held request |
| `HelpPay.HeldUntilAnswered` | pkg/account_handler/account_handler.go:1252-1267 | a worker that took a request keeps it until it has answered, even when cancelled |
| `HelpPay.Workers.constructor` | pkg/account_handler/account_handler.go:1186-1188 | at first there are no workers and no requests |
| `HelpPay.Workers.Interleave` | pkg/account_handler/account_tcp.go:18-26 | submitting, taking, answering and stopping keep the worker table and the live workers in agreement |
| `HelpPay.Workers.Meanwhile` | pkg/account_handler/account_handler.go:1252-1267 | any actions of callers and workers between two steps of a sync keep table and workers in agreement and prolong the run |
| `HelpPay.Workers.CollectValid` | pkg/account_handler/account_handler.go:1196-1230 | the wallets to serve are the listed ones with a key, and the owner when it has one and is not listed |
| `HelpPay.Workers.StopOne` | pkg/account_handler/account_handler.go:1233-1239 | whatever callers and workers do meanwhile, cancels one worker and takes it out of the table if its wallet is not to be served, and nothing else |
| `HelpPay.Workers.StopRemoved` | pkg/account_handler/account_handler.go:1233-1239 | leaves exactly the workers of wallets that stay, unchanged |
| `HelpPay.Workers.StartOne` | pkg/account_handler/account_handler.go:1242-1249 | whatever happens meanwhile, leaves a wallet with a worker, the one it had if any |
| `HelpPay.Workers.StartMissing` | pkg/account_handler/account_handler.go:1242-1249 | leaves one worker for each wallet to serve, keeping those already there |
| `HelpPay.Workers.Sync` | pkg/account_handler/account_handler.go:1186-1250 | with callers and workers going on between its steps, a sync leaves exactly the wallets to serve with one worker each, keeps workers that stay, and is a run; without a list it changes nothing |
| `HelpPayTransfers.StepInv` | pkg/account_handler/account_handler.go:1252-1267 | every action of help-pay workers, wallet queues, other callers and the chain keeps one call per request, on the wallet that took it, and answers made of that call only |
| `HelpPayTransfers.RunInv` | pkg/account_handler/account_handler.go:1252-1267 | the same after every run of the two systems together |
| `HelpPayTransfers.AnsweredByItsOwnCall` | pkg/account_handler/account_handler.go:1252-1267 | in every run a request leads to at most one transfer call, on the wallet of the worker that took it, and is answered once and exactly with what that call returned |
| `HelpPayTransfers.NoRequestPaidTwice` | pkg/account_handler/account_tcp.go:18-66 | across cancellations and replacements at most one transfer is ever sent for a request, from the wallet that took it, and none is sent for two |
| `HelpPayTransfers.HolderGoesOn` | pkg/account_handler/account_handler.go:1252-1267 | a worker holding a request can begin its transfer, or waits for it, and can reply exactly when the transfer has returned |
| `CircuitBreaker.CircuitBreaker.constructor` | pkg/network/circuit_breaker.go:72-84 | a new breaker is that of the empty history |
| `CircuitBreaker.CircuitBreaker.CanExecute` | pkg/network/circuit_breaker.go:87-115 | puts the ask in the history, answers whether the call is admitted, and leaves the fields what the history says |
| `CircuitBreaker.CircuitBreaker.RecordSuccess` | pkg/network/circuit_breaker.go:118-136 | puts the success in the history and leaves the fields what it says |
| `CircuitBreaker.CircuitBreaker.RecordFailure` | pkg/network/circuit_breaker.go:139-159 | puts the failure in the history and leaves the fields what it says |
| `CircuitBreaker.CircuitBreaker.ResetBreaker` | pkg/network/circuit_breaker.go:187-195 | puts the reset in the history and leaves the fields what it says |
| `CircuitBreaker.CountersFollowHistory` | pkg/network/circuit_breaker.go:87-159 | after every history the counters are what the history alone says: current failure run, threshold reached while not closed, half-open calls within the limit, calls = admitted + rejected |
| `CircuitBreaker.OpensExactlyAtThreshold` | pkg/network/circuit_breaker.go:139-159 | a closed breaker opens on the failure that makes the run of failures reach the threshold, and on no other event |
| `CircuitBreaker.EpisodeBound` | pkg/network/circuit_breaker.go:87-115 | however callers interleave, a half-open episode admits at most one call more than the limit |
| `CircuitBreaker.EpisodeExactly` | pkg/network/circuit_breaker.go:87-115 | an episode admits exactly the smaller of the calls asked in it and one more than the limit, so the limit is exceeded if and only if more calls than the limit are asked |
| `CircuitBreaker.TroubleRun` | pkg/network/circuit_breaker.go:87-159 | failures up to the threshold and then calls after the timeout open an episode with as many asks as there are calls |
| `CircuitBreaker.EpisodeExceedsLimit` | pkg/network/circuit_breaker.go:87-115 | for every configuration a history in which an episode admits one call more than the limit |
| `CircuitBreaker.ObjectFollowsHistory` | pkg/network/circuit_breaker.go:87-195 | of the object: its counters are what the calls it has seen say |
| `CircuitBreaker.LastFailureIsLatest` | pkg/network/circuit_breaker.go:139-159 | the stored failure time is that of the latest failure in the history |
| `CircuitBreaker.OpenHasFailed` | pkg/network/circuit_breaker.go:139-159 | a breaker that is not closed has a failure in its history |
| `CircuitBreaker.OpenAdmitsAfterQuiet` | pkg/network/circuit_breaker.go:87-115 | while open a call is admitted exactly when every failure so far is more than the timeout in the past |
| `CircuitBreaker.OneCallerRecovers` | pkg/network/circuit_breaker.go:87-159 | successful rounds of one caller take a quiet open breaker to closed after one more round than the limit, none refused; a failing round reopens it |
| `Framing.LittleEndianRoundTrip` | pkg/network/connection.go:835-845 | reading back a little-endian length gives the length |
| `Framing.BigEndianRoundTrip` | pkg/quic_network/quic.go:21-62 | reading back a big-endian length gives the length |
| `Framing.ReadLoop` | pkg/network/connection.go:835-870 | the loop delivers what the recursive decoder says and ends for the same reason |
| `Framing.NextTurn` | pkg/network/connection.go:835-870 | one turn of the loop: skipped, delivered or ended, as the bytes at the position say |
| `Framing.DecodeTurn` | pkg/network/connection.go:835-870 | what the recursive decoder makes of the rest of a stream is that turn and then the rest |
| `Framing.WriteLoop` | pkg/network/connection.go:765-807 | the loop writes the frames of the messages that marshal, in order, up to the byte at which the connection fails, and reports failure exactly then |
| `Framing.DecodeOne` | pkg/network/connection.go:835-870 | what the reader makes of one written frame with anything behind it: skipped, refused or delivered |
| `Framing.RoundTrip` | pkg/network/connection.go:765-870 | reading written frames gives exactly the payloads in order, up to the first one refused, then what follows |
| `Framing.CutFrame` | pkg/network/connection.go:835-870 | a frame cut short delivers nothing and is an error, of its length if that is there and too large |
| `Framing.CutAnywhere` | pkg/network/connection.go:835-870 | a stream of any frames, empty, too long and malformed ones included, cut at any byte, yields what the whole frames before the cut yield and then an error |
| `Framing.WrittenThenCut` | pkg/network/connection.go:765-870 | of acceptable messages the peer delivers exactly those whose frames got through whole before the writer failed |
| `Framing.FrameRoundTrip` | pkg/quic_network/quic.go:21-62 | a QUIC frame reads back as written if and only if it is at most 8 MiB |
| `Framing.FramesRoundTrip` | pkg/quic_network/quic.go:21-62 | reading any number of frames, with anything behind them, gives their data in order and stops at the first that is too long |
| `Framing.FramesArrive` | pkg/quic_network/quic.go:21-62 | any frames, those of 4 GiB and more included, come out as they went in if and only if each is at most 8 MiB |
| `Framing.FrameCut` | pkg/quic_network/quic.go:41-62 | a QUIC frame cut anywhere is an error, never another frame |
| `Framing.FramesCutAnywhere` | pkg/quic_network/quic.go:41-62 | any frames cut at any byte yield what the whole ones before the cut yield, and then an error |
| `Framing.FittingCutAnywhere` | pkg/quic_network/quic.go:41-62 | of frames within the limit exactly the whole ones before the cut are read, then the cut is reported |
| `Framing.UploadsArrive` | pkg/quic_network/quic.go:105-168 | after any number of uploads the server has got exactly the commands with their chunks if and only if no frame is too long |
| `Framing.BrokenStreamArrives` | pkg/quic_network/quic.go:105-168 | when the stream breaks at any byte the server has got exactly the uploads whose two frames were written whole |
| `Framing.StreamDecodes` | pkg/quic_network/quic.go:105-168 | of the stream object: what was sent in any number of calls, none of which failed to write, decodes to those uploads if and only if no frame was too long |
| `Framing.Stream.Write` | pkg/quic_network/quic.go:21-38 | appends one frame, or as much of it as the transport takes, and succeeds exactly when all of it was taken |
| `Framing.Stream.Read` | pkg/quic_network/quic.go:41-62 | takes exactly one frame from what comes in, or reports why not |
| `Framing.Stream.SendFrames` | pkg/quic_network/quic.go:105-168 | both frames of an upload extend what was sent; the stream stays whole exactly while no write fails |
| `Framing.Stream.SendChunk` | pkg/quic_network/quic.go:105-168 | sends both frames as far as the transport takes them, then reads and judges one answer; fails for exactly the reason given, and records the upload |
| `Registry.NameRoundTrip` | pkg/common/connection_type.go:40-94 | row to name and back is the identity exactly on rows 0 to 10 |
| `Registry.KeyInjective` | pkg/network/connections_manager.go:77-79 | two addresses never share a key, however the checksum capitalises |
| `Registry.PutFlat` | pkg/network/connections_manager.go:278-363 | storing a record updates one entry of the flat map and keeps every record in its own shard |
| `Registry.DeleteFlat` | pkg/network/connections_manager.go:217-275 | deleting a record removes one entry of the flat map and nothing else |
| `Registry.StaysUntilEvicted` | pkg/network/connections_manager.go:217-363 | through any calls, a connection stays in its slot unless that very connection is replaced, removed or found dead |
| `Registry.HeldSlotWasAdded` | pkg/network/connections_manager.go:217-363 | conversely, what a slot holds was there at first or was added, and nothing since could evict it |
| `Registry.ParentStays` | pkg/network/connections_manager.go:200-275 | the parent is forgotten only by removing that connection or adding another |
| `Registry.RemoveClears` | pkg/network/connections_manager.go:217-275 | removing clears a connection from the registry if and only if no slot but that of its own type and address held it |
| `Registry.HeldExactly` | pkg/network/connections_manager.go:217-363 | after any calls on a new registry a slot holds a connection if and only if some call put it there and none since could evict it |
| `Registry.RemoveClearsAfter` | pkg/network/connections_manager.go:217-275 | after any calls, removing clears a connection if and only if no call put it, to stay, in a slot other than that of its own type and address |
| `Registry.OwnSlotIsCleared` | pkg/network/connections_manager.go:217-275 | so it is cleared when every call that added it used its own type and address |
| `Registry.OverrideLeavesBehind` | pkg/network/connections_manager.go:217-363 | a client connection registered under the type of a node is still there after it is removed |
| `Registry.ShardCount` | pkg/network/connections_manager.go:377-393 | a shard has as many entries as addresses |
| `Registry.RowAddressesMeaning` | pkg/network/connections_manager.go:377-393 | the addresses of the first shards are those registered with a smaller shard index |
| `Registry.ConnectionsManager.constructor` | pkg/network/connections_manager.go:52-61 | a new registry is the empty map without a parent |
| `Registry.ConnectionsManager.ConnectionByTypeAndAddress` | pkg/network/connections_manager.go:108-143 | is the lookup in the flat map, nothing for a type out of range |
| `Registry.ConnectionsManager.ConnectionsByType` | pkg/network/connections_manager.go:81-106 | collects exactly the entries of the flat map with that type |
| `Registry.ConnectionsManager.AddShard` | pkg/network/connections_manager.go:81-106 | one shard adds exactly its entries |
| `Registry.ConnectionsManager.CountByType` | pkg/network/connections_manager.go:377-393 | counts the addresses registered under a type |
| `Registry.ConnectionsManager.AddConnection` | pkg/network/connections_manager.go:278-363 | adds or replaces one entry, does nothing for nil or a taken slot without replace, and hands back exactly a replaced other connection that is still up |
| `Registry.ConnectionsManager.RemoveConnection` | pkg/network/connections_manager.go:217-275 | removes the entry of its own slot only if it is that connection, and the parent only if it is the parent |
| `Registry.ConnectionsManager.AddParentConnection` | pkg/network/connections_manager.go:200-215 | sets the parent and nothing else |
| `Registry.ConnectionsManager.HealthCheck` | pkg/network/connections_manager.go:395-432 | a pass over all shards deletes exactly the entries whose connection is down |
| `Registry.ConnectionsManager.CheckRow` | pkg/network/connections_manager.go:402-424 | the same within one row |
| `Registry.ConnectionsManager.CheckShard` | pkg/network/connections_manager.go:402-424 | the same within one shard |
| `ChainPool.SlotInRange` | pkg/connection_manager/chain_pool.go:99-119 | the slot index is in range if and only if the ticket is below 2^63 or the remainder is zero |
| `ChainPool.SlotAtOffset` | pkg/connection_manager/chain_pool.go:99-119 | among as many consecutive tickets as slots, each slot comes up once, at its offset |
| `ChainPool.FairShare` | pkg/connection_manager/chain_pool.go:99-119 | any k times as many consecutive tickets as slots fall k times on each |
| `ChainPool.StepInv` | pkg/connection_manager/chain_pool.go:99-143 | every draw, look, redial and end of any number of concurrent calls keeps each ticket drawn by one call, and each call at the slot of its last ticket |
| `ChainPool.RunInv` | pkg/connection_manager/chain_pool.go:99-143 | the same after every run |
| `ChainPool.ServedAndPending` | pkg/connection_manager/chain_pool.go:99-119 | in every interleaving on a healthy pool, the calls a slot has served and those about to look at it are together its share of the tickets drawn |
| `ChainPool.EveryInterleavingIsFair` | pkg/connection_manager/chain_pool.go:99-119 | in every interleaving, when k times as many calls as slots have begun and are over, each slot was returned k times |
| `ChainPool.NearlyFair` | pkg/connection_manager/chain_pool.go:99-119 | in every interleaving, with p calls in progress beside k times as many finished calls as slots, each slot was returned k times give or take p |
| `ChainPool.SlowCallSkewsShares` | pkg/connection_manager/chain_pool.go:99-119 | a run in which as many calls as slots are over and one slot was returned twice, another not at all |
| `ChainPool.RunUnseen` | pkg/connection_manager/chain_pool.go:99-143 | a call during which a slot stays up either does not come to that slot or gets it |
| `ChainPool.MissedIsHidable` | pkg/connection_manager/chain_pool.go:99-119 | tickets of a whole call that leave out a slot leave out tickets of others in the midst, and not an even number when there are two slots |
| `ChainPool.HidingRun` | pkg/connection_manager/chain_pool.go:99-143 | for every pool of two slots or more and every number of foreign tickets allowing it, a run from a fresh pool in which a call reports all down while a slot is up throughout |
| `ChainPool.HiddenExactly` | pkg/connection_manager/chain_pool.go:99-143 | a call can report all down while a slot is up throughout if and only if others draw in its midst, there are two slots or more, and not both two slots and an even number drawn |
| `ChainPool.TwoSlotRun` | pkg/connection_manager/chain_pool.go:99-143 | the smallest such run, event by event |
| `ChainPool.OneForeignMisses` | pkg/connection_manager/chain_pool.go:99-119 | when one other ticket falls in the midst of a call, its slot and no other is the one not tried |
| `ChainPool.Pool.Open` | pkg/connection_manager/chain_pool.go:44-94 | makes a pool of the clients dialled, of three slots by default, and fails exactly without an address or when none connects |
| `ChainPool.Pool.TryReconnect` | pkg/connection_manager/chain_pool.go:123-143 | redials a slot exactly when it is down, and keeps the result even when it failed |
| `ChainPool.Pool.Attempt` | pkg/connection_manager/chain_pool.go:99-143 | one attempt takes the next ticket and comes to its slot being up, coming back, staying down or out of range |
| `ChainPool.Pool.LoggedTurn` | pkg/connection_manager/chain_pool.go:99-143 | an attempt is a run of one call, and after attempts in vain the first success is the first slot in turn |
| `ChainPool.Pool.Get` | pkg/connection_manager/chain_pool.go:99-119 | is a run of one call; alone it returns the first slot in turn that is up or comes back, with every earlier one tried in vain and the others untouched, and fails only if all are down and none can be redialled |
| `ChainPool.TriedNext` | pkg/connection_manager/chain_pool.go:99-119 | one more failed attempt covers exactly the next slot in turn |
| `NibbleKeys.KeybytesToHex` | pkg/common/encoding.go:3-12 | writes two nibbles a byte and the terminator |
| `NibbleKeys.DecodeNibbles` | pkg/common/encoding.go:28-32 | packs pairs of nibbles into the array in place |
| `NibbleKeys.HexToKeybytes` | pkg/common/encoding.go:16-26 | drops a terminator and packs, and panics exactly on an odd number of nibbles |
| `NibbleKeys.JoinNibbles` | pkg/common/encoding.go:28-32 | shift and or of two nibbles is their base-16 value |
| `NibbleKeys.RoundTrip` | pkg/common/encoding.go:3-26 | decoding undoes encoding for every key |
| `NibbleKeys.DecodeThenEncode` | pkg/common/encoding.go:3-26 | encoding undoes decoding if and only if the sequence is an odd number of nibbles ending in the terminator |
| `NibbleKeys.CommonPrefix` | pkg/common/encoding.go:35-46 | is a common prefix, and no longer one is |
| `NibbleKeys.PrefixUnique` | pkg/common/encoding.go:35-46 | only one length has these properties |
| `NibbleKeys.PrefixLen` | pkg/common/encoding.go:35-46 | the loop finds that length |
| `NibbleKeys.EncodingsPart` | pkg/common/encoding.go:3-46 | where two encodings part, and that different keys part before either ends |
| `NibbleKeys.PrefixHalves` | pkg/common/encoding.go:3-46 | keys share half as many bytes as their encodings share nibbles |
| `NibbleKeys.PrefixFree` | pkg/common/encoding.go:3-46 | no encoding is a prefix of that of another key |
| `CallFees.TransactionArgs.CallDefaults` | cmd/rpc-client/transaction_args.go:108-157 | fills nil fields in place, or reports mixed fees or the wrong chain and changes nothing |
| `CallFees.TransactionArgs.FillLimits` | cmd/rpc-client/transaction_args.go:108-157 | gas capped or defaulted, nonce and value defaulted to zero |
| `CallFees.TransactionArgs.FillFees` | cmd/rpc-client/transaction_args.go:108-157 | the fee fields of the chain's style, and no others, are defaulted to zero |
| `CallFees.DefaultsSuffice` | cmd/rpc-client/transaction_args.go:163-212 | after the defaults a message reads no nil field, keeps what the caller gave, and stays within a positive gas cap |
| `CallFees.PriceIsEffective` | cmd/rpc-client/transaction_args.go:163-212 | the price is the effective gas price of EIP-1559 if and only if a fee is non-zero or the base fee is not negative, and lies between base fee and fee cap |
| `CallFees.NeverAccessList` | cmd/rpc-client/transaction_args.go:216-229 | after the defaults the access-list type is never chosen, and legacy is exactly for a given gas price or a chain without base fee |
| `CallFees.SecondCall` | cmd/rpc-client/transaction_args.go:108-157 | a second call succeeds, changing nothing, if and only if the fee style matches the chain; otherwise it reports mixed fees |
| `Versions.SplitMeaning` | pkg/complier/complier.go:356-382 | splitting cuts at every dot and nowhere else |
| `Versions.CompareVersion` | pkg/complier/complier.go:356-382 | the loop compares component by component, missing ones as zero |
| `Versions.CompareMeaning` | pkg/complier/complier.go:356-382 | the result is exactly the lexicographic order of the zero-padded components, and antisymmetric |
| `Versions.CompareTransitive` | pkg/complier/complier.go:356-382 | transitive across lengths, strictly too |
| `Versions.PaddingIrrelevant` | pkg/complier/complier.go:356-382 | trailing zero components never matter |
| `Versions.AdjustAt` | pkg/complier/complier.go:384-415 | each segment stays in its place and only pragmas above the target change |
| `Versions.MatchMeaning` | pkg/complier/complier.go:385-385 | what the pragma expression matches is the keyword, blanks, `solidity`, and a version up to the first semicolon |
| `Versions.MatchBack` | pkg/complier/complier.go:385-386 | a written pragma is matched as that pragma, whatever follows |
| `Versions.NoNewMatch` | pkg/complier/complier.go:385-388 | replacing a pragma by another makes none start earlier where none did |
| `Versions.SolidityLawful` | pkg/complier/complier.go:385-386 | the three facts above for the pragma expression itself |
| `Versions.PrintCut` | pkg/complier/complier.go:388-388 | cutting a file at its pragmas loses nothing |
| `Versions.FirstChange` | pkg/complier/complier.go:388-415 | the adjusted text is the same up to the first replaced pragma |
| `Versions.CutAdjusted` | pkg/complier/complier.go:384-415 | the pragmas found in the adjusted text are the adjusted pragmas of the text |
| `Versions.LoweredReadBack` | pkg/complier/complier.go:386-386 | the pragma written for a target is read back as itself if and only if the target holds no semicolon |
| `Versions.ReadBackShown` | pkg/complier/complier.go:385-386 | for every target, what is read back is the pragma of the part before its first semicolon |
| `Versions.LoweredAgain` | pkg/complier/complier.go:384-415 | a second pass lowers a written pragma again if and only if that part is above the target |
| `Versions.SemicolonGrows` | pkg/complier/complier.go:384-415 | a reader, a target with a semicolon and a file whose text grows with a second pass |
| `Versions.CaretOfAdjusted` | pkg/complier/complier.go:384-415 | the pragma written for a target names the target without surrounding blanks |
| `Versions.AdjustIdempotent` | pkg/complier/complier.go:384-415 | adjusting the segments twice is adjusting them once |
| `Versions.AdjustTextIdempotent` | pkg/complier/complier.go:384-415 | adjusting the text of any file twice is adjusting it once |
| `Versions.CaretAfterAdjust` | pkg/complier/complier.go:384-415 | a caret pragma above the target is left if and only if one had to be lowered and the target is below its own trimmed form |
| `Versions.NoCaretAboveTarget` | pkg/complier/complier.go:384-415 | with a trimmed target no caret pragma above it is found in the adjusted text |
| `Versions.CaretLeftAbove` | pkg/complier/complier.go:384-415 | a reader, a target with a line break before the number, and a file for which one is left |
| `UploadRouter.SlotInRange` | pkg/file_handler/file_handler.go:271-276 | the connection slot is in range if and only if the chunk index is at least -1 or half of it is a multiple of the pool size |
| `UploadRouter.StreamNamesServer` | pkg/file_handler/file_handler.go:271-276 | the stream index determines the server, so chunks on one stream go to one server |
| `UploadRouter.RenderInjective` | pkg/file_handler/file_handler.go:278-299 | stream keys of equally long file names never collide as text |
| `UploadRouter.FileHandler.constructor` | pkg/file_handler/file_handler.go:473-502 | a handler whose pools were just made has no streams, no progress and two pools of empty slots |
| `UploadRouter.FileHandler.Initialize` | pkg/file_handler/file_handler.go:473-537 | dials every slot of both pools anew, each for its own server, or leaves them when the servers are not found |
| `UploadRouter.FileHandler.GetAndRenewConn` | pkg/file_handler/file_handler.go:382-427 | returns a live connection of the right server stored in its slot; out of range exactly for a slot outside the pool |
| `UploadRouter.FileHandler.SendChunk` | pkg/file_handler/file_handler.go:338-380 | the first of three attempts that succeeds decides; it is lost exactly when all fail, and then the pools are to be made anew; only its own stream is renewed |
| `UploadRouter.FileHandler.FindStream` | pkg/file_handler/file_handler.go:278-299 | adds at most the stream asked for, and nothing on trouble |
| `UploadRouter.FileHandler.Sweep` | pkg/file_handler/file_handler.go:321-332 | removes exactly the file's streams of non-negative index |
| `UploadRouter.FileHandler.Admit` | pkg/file_handler/file_handler.go:219-269 | admits exactly a known, inactive, not too large file, its owner and a chunk within the limit |
| `UploadRouter.FileHandler.Confirm` | pkg/file_handler/file_handler.go:306-334 | the last confirmation awaited removes the file's streams and progress; an earlier one only counts |
| `UploadRouter.FileHandler.UploadChunk` | pkg/file_handler/file_handler.go:210-336 | refused exactly when not admissible; other files' streams are never touched; streams are added by key and all removed by the last confirmation and by no other chunk |
| `UploadRouter.FileHandler.HandleChunk` | pkg/file_handler/file_handler.go:128-145 | makes the pools first if they are to be made; they are to be made again exactly after a chunk that could not be sent |
| `UploadRouter.AtMost25PerServer` | pkg/file_handler/file_handler.go:271-299 | a file never has more than 25 streams to one server for chunks from 0 on |
| `UploadStreams.RunSwept` | pkg/file_handler/file_handler.go:306-332 | with any calls in progress that all have their stream, and none begun, a sweep that is over has left no stream of the file |
| `UploadStreams.CleanExactly` | pkg/file_handler/file_handler.go:278-332 | in every run, the sweep after the last confirmation leaves no stream of the file, however the calls in progress go on, if and only if none of them is still without a stream when it begins |
| `UploadStreams.LeaveBehind` | pkg/file_handler/file_handler.go:278-332 | a call that is looking for or opening its stream when the sweep begins can leave it behind for good |
| `UploadStreams.StreamLeftBehind` | pkg/file_handler/file_handler.go:278-332 | for one confirmation and for two, a run from the start after which all calls are over, the file is complete and a stream is still stored |

## Left out

- Readers, writers, routers, queue workers and help-pay workers are atomic actions of step systems; their infinite loops are not loops here.
- ConnectionPipeline.LastWishHits: handlers end when their channels close or an error comes; ending with the server is left out.
- Stopping the socket server and its workers, accept loops, reconnecting to the parent and the callbacks on connect and disconnect.
- A caller of `SendMessage` that still holds a send channel of an older generation; callers here read the published one and send in one action.
- The cached address, type and liveness of a connection, and settings of address and type beyond their effect on the timer.
- Unbuffered channels: queues have a capacity, and a capacity of zero accepts nothing.
- PipelineSafety.CentralKeepsReadOrder: order within one generation of a connection; `Generations.OrderAcrossGenerations` says when it extends to two.
- The transfer's change of sender to the address of its private key, its balance check and its signing; they are failing or succeeding actions.
- HelpPay.EveryRequestInOnePlace: takes the transfer as given; `HelpPayTransfers.AnsweredByItsOwnCall` has the answer wait for it.
- The first 1000 wallets and the database and key store behind them: the list and the keys are parameters, and adding the owner to the database is only reported.
- Widths of the breaker's and registry's counters, which are unbounded here; the statistics built from them.
- Races inside one registry call; each call is one action. Disconnecting a replaced connection is left to the caller, who is handed it.
- The health check's ticker and logging; one pass is one call.
- ChainPool.Pool.Get: describes a call with nobody else calling, as a run of one call; runs of many are those of the same step system.
- ChainPool.HiddenExactly: is for counter values below 2^63; above them indexing may panic.
- UploadRouter.FileHandler.FindStream: is one call at a time; two openers of one key are actions of `UploadStreams`.
- UploadRouter.FileHandler.UploadChunk: is one chunk at a time; chunks of one file at the same time are in `UploadStreams`, without the servers, slots and retries. The daily sweep of caches and memory limits are left out.
- UploadRouter.FileHandler.constructor: the pools exist from the start; a first call that does not find the servers, so that there are no pools to index, is left out.
- UploadRouter.RenderInjective: streams are stored under a triple here; the text form is injective for file names of one length and non-negative indices, and is not modelled for negative ones.
- Framing.Stream.SendChunk: uploads after a failed write on the same stream are sent but not said to be readable; deadlines, TLS, Merkle proofs and signatures are left out.
- Framing.FramesRoundTrip: is for frames below 4 GiB, above which the written length is truncated; `Framing.FramesArrive` covers all sizes.
- Contents of access lists, blobs and call data, and building signed transactions.
- Versions.AdjustTextIdempotent: is for targets without a semicolon; `Versions.LoweredAgain` and `Versions.SemicolonGrows` say what one does.
- The search for a lower bound in a version and the reading of a component as a number are parameters; blanks are those of ASCII.
- Compiling contracts, IPFS, the explorers, RPC handlers, admin operations, tries other than key encoding, and the cryptography.
