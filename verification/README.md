# d8a-server: a Dafny model of the gateway core

A Dafny model of `internal/server` of d8a, a gateway that lets clients of the Model
Context Protocol (MCP) talk to a backing MCP server over its standard input and output,
and of the few lines of `cmd/server` that feed its sandbox. `dafny verify dfyconfig.toml`
checks the whole project.

The gateway has four stateful cores. Each is modelled twice where the program changes
things in place: as a class (or a method with the program's loop) proved against a
specification, and as the transition system over which the properties of whole runs are
proved. The systems are then put together.

* **The stdio demultiplexer.** `Demux` interleaves any number of calls, one reader and
  one Stop, with a step for every region under the mutex, every channel operation and
  every write; the child may print anything, or close its output, at any moment. `Stdio`
  holds the fields and the reader's loop, `Framing` the writers' side of the pipe, and
  `Wire` joins the two sides. The message contract is section 5 of the JSON-RPC 2.0
  specification (a response carries the id of its request) and the newline-delimited stdio
  transport of MCP.
* **The runner pool.** `PoolProtocol` interleaves Start, RunnerFor, EvictIdle and Close;
  `Pool` holds the map and proves each call, when nothing runs in between, to be a legal
  run of the protocol. `Backends` composes the pool with one `Demux` per runner.
* **The rate limiter.** `TokenBucket` proves the constant-time bucket equal to a law over
  all windows of its history; `RateLimiting` compares the table that is swept with one
  that never forgets. Tokens and time are `real`.
* **The request pipeline.** `Gateway` is the middleware chain, `Catalogs` and
  `ListFilter` the policy, `Sessions` the session table, `Pipeline` the runs of any number
  of requests and sweeps, `Survival` what keeps a session alive in them, `Witnesses` runs
  that show what the promises do not cover, `LoadBound` and
  `SendTimes` the limiter's promise carried to the backend, and `McpServer` the handlers as
  they are written. `EndToEnd` puts the pipeline on top of `Backends`, and `OneAnswer`
  follows one request through all of it.

`Sandbox` is the fifth, smaller core: it renders a policy and a command into a flat
argument list, and an independent reader of such lists recovers both.

## Where the program does not keep its own promises

The model follows the code. Where the code falls short of what its comments say, the
exact condition is proved.

* `ratelimit.go:33-38` says that an idle time of zero means the default. The sweep in
  `server.go:252` uses the configured value as it stands, so leaving it out makes the
  sweep forget buckets that are not full (`RateLimiting.OmittedEvictAfterIsVisible`).
* `stdio_runner.go:276-277` says the drain keeps callers from blocking forever. A call
  that registers after the drain and before Stop is not covered
  (`Demux.StrandedIffRegisteredAfterDrain`, `Demux.StrandedCallExists`).
* `runner_pool.go:308` says Close stops every live runner. A runner whose start is over
  only after EvictIdle or Close has looked at it stays live
  (`PoolProtocol.LiveIffLookedAtTooEarly`, `PoolProtocol.LateStartIsLeaked`).
* `runner_pool.go:149` stops the half-started runner before it reports the error. If the
  process could not be launched there is no reader, and Stop waits for it for ever
  (`Backends.FailedStartReturnsIff`).
* `stdio_runner.go:122-136` stops the runner before it reports an error of the handshake. If
  the reader is stuck by then that Stop never comes back, and with it neither the request
  that started the runner nor any other that waits for the same start
  (`Backends.OwnStopReturnsIff`, `Backends.StuckStartIsReached`).
* A child that answers one id twice can block the reader for good, and with it every Stop;
  exactly when is `Demux.StopReturnsIffAlive`, a run that gets there is
  `Demux.ReaderCanGetStuck`.
* A session in use can be expired. Every request reads the clock before it takes the lock of
  the session table, and handleNotification writes one reading twice; if another request is
  served in between, an older time is put back (`Witnesses.TwoPingsLoseSession`,
  `Witnesses.LateMarkLosesSession`). The next sweep is right about a session exactly when
  the time in the table is the latest of all its uses (`Survival.SweepIsRightIff`), as it
  is when the requests of a session come one at a time (`Survival.OneAtATimeKeepsOrder`).
* Once a child has closed its output, every later request to it waits until its own context
  gives up: in shared mode until Close (`EndToEnd.SharedChildGone`), in isolate mode until
  an EvictIdle cutoff passes the last lookup of the subject, and every such request puts
  that off (`EndToEnd.IsolatedChildGone`, `PoolProtocol.NewRunnerIff`). The same holds of a
  start that has failed (`PoolProtocol.FailedForGood`).
* The resource list goes by name where there is one, the gate by uri
  (`ListFilter.ResourceListAndGateAgreeIff`).
* The gate is on calls. A notification with the same method and params goes through
  whatever the scopes are (`Pipeline.NotificationForwardedIff`,
  `Witnesses.DisallowedGoesThrough`).
* `mcp_handler.go:271-274` counts resources/templates/list among the methods that are not
  filtered; `mcp_handler.go:230-236` filters it, and so does the model.
* The limiter bounds what is admitted, not what is sent: with any delay between the two the
  bound is broken (`SendTimes.BoundedIff`).

One promise holds for a reason outside the program: `stdio_runner.go:211-213` promises one
line per message, and a write that fails part-way leaves a fragment. The child's lines are
the messages if and only if none was sent after a fragment
(`Framing.RunsSplitIntoMessagesIff`), and a pipe of the operating system that has failed
takes none (`Framing.BrokenPipeKeepsLines`).

## Model

| member | source | states |
|---|---|---|
| TokenBucket.GrantedIffWindowsAdmit | internal/server/ratelimit.go:63-77 | exactness: a request is granted if and only if every window that starts at an earlier request (or at this one) has room for one more grant, within burst plus rate times the time elapsed on the never-decreasing clock; readings may go backwards |
| TokenBucket.TokensAreLeastSlack | internal/server/ratelimit.go:63-77 | after any history the tokens left are the minimum slack over all windows: none has less, and one (returned) has exactly that |
| TokenBucket.WindowBound | internal/server/ratelimit.go:63-77 | between any two requests the grants never exceed burst plus refill |
| TokenBucket.BucketIsOptimal | internal/server/ratelimit.go:63-77 | of all decision sequences that keep every window, the bucket has granted the most at every point in time |
| TokenBucket.RefusalMeansAhead | internal/server/ratelimit.go:63-77 | where the bucket refuses and another sequence that keeps the windows grants, the bucket had granted strictly more so far |
| TokenBucket.ExecBounds | internal/server/ratelimit.go:66-70 | tokens stay between zero and capacity, and the fill time is the latest reading seen |
| TokenBucket.Bucket.Allow | internal/server/ratelimit.go:63-77 | the in-place update: grants if and only if all windows of the recorded history admit it, and moves the three fields as the step function does |
| TokenBucket.Bucket.constructor | internal/server/ratelimit.go:134-140 | a new bucket is full, filled and used now, with an empty history |
| RateLimiting.NewRateLimiter | internal/server/ratelimit.go:104-118 | no limiter exactly for rates of zero or less; otherwise what is configured is kept, a missing burst becomes the smallest whole number of at least two seconds' worth, a missing idle time thirty minutes |
| RateLimiting.TransparentIff | internal/server/ratelimit.go:127-163 | a sweep after evictAfter of idleness changes no answer on any schedule with a non-decreasing clock if and only if the burst is below one token or rate times evictAfter reaches the burst |
| RateLimiting.IdleLongEnough | internal/server/ratelimit.go:149-163 | refinement: with enough idle time the sweeping table answers as the never-forgetting one, and what it has forgotten would be full by now |
| RateLimiting.IdleTooShort | internal/server/ratelimit.go:149-163 | for every rate and burst of at least one with too little idle time, a schedule on which a sweep changes an answer |
| RateLimiting.DefaultsTransparentIff | internal/server/ratelimit.go:104-118 | with both defaults (two seconds of burst, thirty minutes) the sweep is invisible exactly for rates of at least one request per thirty minutes |
| RateLimiting.OmittedEvictAfterIsVisible | internal/server/server.go:251-253 | the server sweeps with the configured evictAfter, not the default: when it is left out the sweep is invisible exactly if the burst is below one token |
| RateLimiting.SubjectHasOwnBucket | internal/server/ratelimit.go:127-145 | what a subject is answered depends on its own requests only and is what a bucket of its own would have said |
| RateLimiting.ClockWindow | internal/server/ratelimit.go:63-77 | with ascending times, the grants inside any clock interval plus the tokens still held stay within burst plus refill |
| RateLimiting.SubjectLoadBound | internal/server/ratelimit.go:127-163 | with an invisible sweep, one subject is granted at most burst plus rate times length in any stretch of time |
| RateLimiting.RateLimiter.Allow | internal/server/ratelimit.go:127-145 | inserts a full bucket for a new subject, asks it, and leaves the table as the table function says; other subjects' buckets stay as they are |
| RateLimiting.RateLimiter.Cleanup | internal/server/ratelimit.go:149-163 | removes exactly the buckets last used before the cutoff, in whatever order the map is walked, and returns their number |
| Demux.StepKeepsInv | internal/server/stdio_runner.go:151-326 | every interleaved step of calls, reader, drain and Stop keeps the invariant on ids, table entries, channels and how far the drain has come |
| Demux.NoCrossTalk | internal/server/runner.go:27-30 | in every interleaving a received line carries the caller's own id; with a child that echoes ids it is a right answer to what this very caller asked |
| Demux.IdsAndChannelsAreUnique | internal/server/stdio_runner.go:157-160 | no two calls ever share an id or a channel, nor do two table entries |
| Demux.PendingConservation | internal/server/stdio_runner.go:152-192 | in every reachable state the keys of pending are exactly the ids of the calls that have not returned; with none out the table is empty |
| Demux.StepKeepsWrittenOnce | internal/server/stdio_runner.go:169-177 | no id is ever on the wire twice, and a call that has only registered is not on it |
| Demux.StrandedIffRegisteredAfterDrain | internal/server/stdio_runner.go:276-288 | once the reader is done, an outstanding call has a line to receive if and only if it registered before the drain began |
| Demux.NoStrandedCall | internal/server/stdio_runner.go:276-308 | if Stop had closed the door when the drain began, then after the drain every outstanding call has a line and no call can register |
| Demux.StrandedUntilCancelled | internal/server/stdio_runner.go:179-191 | a call without a line after the drain waits, whatever else happens, until its own context gives up |
| Demux.StrandedCallExists | internal/server/stdio_runner.go:152-161 | a run with such a call: the child closes its output, the drain finds nobody, then a call registers before any Stop |
| Demux.QueuedLineWins | internal/server/stdio_runner.go:261-287 | a line queued for a call is the one it receives: neither a later line with the same id nor the drain's synthetic error replaces it |
| Demux.ReaderNeverBlocks | internal/server/stdio_runner.go:271 | if the child uses each id at most once, the reader's send never finds the buffer full |
| Demux.ReaderCanFinish | internal/server/stdio_runner.go:271-289 | a launched reader that is not stuck can come to the end of its drain by its own steps and those of a call that has written and receives, and sees the closed door if Stop came first |
| Demux.StopReturnsIffAlive | internal/server/stdio_runner.go:294-308 | exactly when whoever waits in Stop for the reader can get past it: the reader was launched, and it is not at a send to a call that has left with its buffer full |
| Demux.DeadForever | internal/server/stdio_runner.go:271 | a reader that nobody launched, or that is at a send to a call that has left with its buffer full, stays there for good |
| Demux.AnsweredOnceIsNotStuck | internal/server/stdio_runner.go:271 | a child that uses each id at most once never gets its reader stuck |
| Demux.LaterCallsAreUnheard | internal/server/stdio_runner.go:276-288 | once the reader is done, no call that registers later is ever answered |
| Demux.ReaderCanGetStuck | internal/server/stdio_runner.go:269-271 | a run that leads there: an id answered twice and a caller that has given up |
| Stdio.StdioRunner.Register | internal/server/stdio_runner.go:152-161 | refuses exactly when stopped; otherwise draws the next id and enters a fresh empty channel under it: the Register step of the protocol |
| Stdio.StdioRunner.Unregister | internal/server/stdio_runner.go:163-167 | the deferred delete: the Leave step |
| Stdio.StdioRunner.Lookup | internal/server/stdio_runner.go:261-263 | finds a channel exactly for the ids in the table, the one made for that id |
| Stdio.StdioRunner.Offer | internal/server/stdio_runner.go:283-286 | a send that gives up when the buffer is full touches that one channel only |
| Stdio.StdioRunner.Drain | internal/server/stdio_runner.go:276-288 | every outstanding call with an empty buffer gets the synthetic error for its own id, full buffers and other channels stay, in whatever order the map is walked |
| Stdio.StdioRunner.ReadLoop | internal/server/stdio_runner.go:234-289 | on any output of the child and from any buffers: the loop takes one line after the other up to the first reply that finds its buffer full, where it stays; otherwise it drains and is done; every outstanding call then has what it had before, or the first reply to its id, or after the drain the synthetic error |
| Stdio.StdioRunner.MarkStopped | internal/server/stdio_runner.go:295-301 | only the first Stop goes on; the door is closed from then on |
| Stdio.DrainInOrderEffect | internal/server/stdio_runner.go:279-287 | draining in any order of the entries comes to the same buffers |
| Framing.StepKeepsFramed | internal/server/stdio_runner.go:214-228 | whatever the chunks, and with writes that break off: the lines the child has read hold the messages sent and as many characters more as fragments lie between them, the rest what is loose and what is through of the current message; with no fragment they are exactly that |
| Framing.RunsSplitIntoMessagesIff | internal/server/stdio_runner.go:214-228 | between writes, the child's lines are exactly the messages written in full, in lock order, if and only if none was sent after a fragment; with nothing behind them if and only if no fragment was left at all |
| Framing.BrokenPipeKeepsLines | internal/server/stdio_runner.go:214-228 | on a pipe that takes no message once a write has failed, as pipes of the operating system do, the child's lines always are the messages |
| Framing.FragmentSpoilsMessage | internal/server/stdio_runner.go:226-227 | on a pipe that does take another message, any fragment of any message makes one line of it with the next |
| Wire.ChildReadsTheWireIff | internal/server/stdio_runner.go:169-177 | in every interleaving of calls, notifications, chunks and failing writes, the child's lines are the messages sent if and only if none was sent after a fragment, with nothing behind them if and only if none was left; the requests among the messages are the encodings of what the demultiplexer says is on the wire, in its order |
| Wire.BrokenPipeReadsTheWire | internal/server/stdio_runner.go:169-177 | on a pipe that stays broken, the requests among the child's lines are, in every interleaving, what is on the wire |
| PoolProtocol.StepKeepsInv | internal/server/runner_pool.go:142-334 | every interleaved step of Start, RunnerFor, EvictIdle and Close keeps: one start and one stop per runner at most, exactly one place that answers for it, routing by partition key |
| PoolProtocol.PoolOwnsWhatItHolds | internal/server/runner_pool.go:270-334 | a runner in the map has never been stopped by the pool, the map of a closed pool is empty, no runner is started or stopped twice |
| PoolProtocol.LiveAfterCloseIff | internal/server/runner_pool.go:308-334 | when the pool is closed and all calls that stop runners are back, a started runner is live if and only if it was passed over before its start was over, or lost to a Start that raced with the others |
| PoolProtocol.LiveIffLookedAtTooEarly | internal/server/runner_pool.go:297-334 | with start-up over and every call back, a started runner outlives Close if and only if EvictIdle or Close had looked at its started flag while it was not set |
| PoolProtocol.ReadyIsNotPassedOver | internal/server/runner_pool.go:297-304 | a runner that is ready and not passed over is never passed over later |
| PoolProtocol.CloseStopsWhatWasReady | internal/server/runner_pool.go:308-334 | after start-up, every runner that was ready at some moment and not yet passed over has been stopped exactly once when Close and the evictions are back |
| PoolProtocol.ServingLosesNothing | internal/server/server.go:318-329 | once start-up is over, no runner is ever displaced from the map or lost to a closed pool |
| PoolProtocol.StartupServes | internal/server/runner_pool.go:142-175 | the server's start-up leaves the warm-up runner in the map in shared mode, and stopped once in isolate mode |
| PoolProtocol.LateStartIsLeaked | internal/server/runner_pool.go:222-232 | a run in which Close looks while the first request is still starting its runner, which stays live |
| PoolProtocol.IsolateSeparatesSubjects | internal/server/runner_pool.go:127-132 | in isolate mode two RunnerFor calls that return the same runner are for the same subject, in every run |
| PoolProtocol.RunnerForAgrees | internal/server/runner_pool.go:224-236 | a runner is handed out only after its one start succeeded, and all callers of an instance hear the same outcome |
| PoolProtocol.RunsKeepStarters | internal/server/runner_pool.go:224-232 | a start that is under way is always that of a call that is inside it |
| PoolProtocol.SharedModeServesOneRunner | internal/server/runner_pool.go:156-162 | in shared mode every RunnerFor after start-up gets the warm-up runner, which stays in the map until Close |
| PoolProtocol.SubjectKeepsRunnerIff | internal/server/runner_pool.go:215-218 | in isolate mode a subject keeps its runner, whether that works or not, exactly until Close or until an EvictIdle cutoff passes the last lookup of the subject |
| PoolProtocol.NewRunnerIff | internal/server/runner_pool.go:215-218 | the next lookup of a subject on an open pool comes to another runner if and only if such an eviction has happened |
| PoolProtocol.FailedForGood | internal/server/runner_pool.go:224-236 | a start that has failed has failed for everybody who is given that runner at any later time |
| PoolProtocol.IsolateModeServesOneRunner | internal/server/runner_pool.go:196-222 | until then every later RunnerFor of the subject gets that runner |
| Pool.PooledInstance.EnsureStarted | internal/server/runner_pool.go:226-236 | the one start decides, whether this call runs it or waits for the call that does; later callers hear the same |
| Pool.RunnerPool.StartUp | internal/server/runner_pool.go:142-175 | builds and starts one runner, keeps it under the shared key in shared mode, stops it once otherwise and when the start fails, and runs into the nil map of a closed shared pool with the runner left live; a legal run of the protocol |
| Pool.RunnerPool.RunnerFor | internal/server/runner_pool.go:196-237 | refused exactly when closed or when a needed build fails; otherwise the started instance under the caller's key, or none if its one start failed, also when another call is starting it; a legal run of the protocol |
| Pool.RunnerPool.EvictIdle | internal/server/runner_pool.go:270-306 | takes out exactly what was last used strictly before the cutoff, never the shared instance, stops each started one once and the others not at all, and returns how many left; a legal run of the protocol |
| Pool.RunnerPool.Close | internal/server/runner_pool.go:310-334 | empties the map for good and stops each started instance in it once; again does nothing; a legal run of the protocol |
| Pool.RunnerPool.Lookup | internal/server/runner_pool.go:202-222 | the region under the mutex: the instance under the key, built if missing, with its last use updated and nothing else changed |
| Pool.RunnerPool.TakeIdle | internal/server/runner_pool.go:286-294 | the loop that deletes while it walks removes exactly the idle keys |
| Pool.RunnerPool.StopTaken | internal/server/runner_pool.go:297-304 | the loop that stops what was taken out stops each started instance once, in any order |
| Backends.StepKeepsInv | internal/server/runner_pool.go:142-334 | pool and pipes together: a ready runner's door is closed only by the Stop of the call that answers for it, a stopped runner's reader is done, a client's call is on a runner of its own partition |
| Backends.OneSubjectPerProcess | internal/server/runner_pool.go:66-70 | isolate mode: all client calls ever written to one child are one subject's (for notifications see EndToEnd.OneSubjectIsAsked), and what a call receives is, from a child that echoes ids, a right answer to that call |
| Backends.MappedRunnersTakeCalls | internal/server/runner_pool.go:270-334 | a ready runner in the map takes calls: nobody has begun to stop it |
| Backends.StoppedIsWoundUp | internal/server/stdio_runner.go:294-308 | a runner the pool has stopped takes no call any more, and of those still out exactly the ones registered before its drain have a line |
| Backends.CloseWindsUpWhatWasReady | internal/server/server.go:325-329 | orderly shutdown: every runner ready in time is, once Close is back, stopped exactly once, closed to new calls, with no timely caller left waiting |
| Backends.FailedStartReturnsIff | internal/server/runner_pool.go:147-152 | exactly when a warm-up whose runner.Start failed can come back with its error: the process had been launched |
| Backends.UnlaunchedStartHangs | internal/server/runner_pool.go:147-152 | with a reader that was never launched, no run whatever brings that Start back |
| Backends.DoneChildAnswersNobody | internal/server/stdio_runner.go:276-288 | once a child has closed its output and the drain is over, no call that registers on it later is ever answered |
| Backends.UnlaunchedStartIsReached | internal/server/runner_pool.go:147-152 | such a Start is reached from a new pool in either mode |
| Backends.OwnStopReturnsIff | internal/server/stdio_runner.go:122-136 | exactly when a start that met an error after the launch, by RunnerFor or Start, can come back from its own runner.Stop and say so: its reader is not at a send to a call that has left with its buffer full |
| Backends.StuckStartHangs | internal/server/stdio_runner.go:122-136 | otherwise no run brings it back, nobody is ever given that runner, and every RunnerFor that waits for the same start waits with it |
| Backends.StuckStartIsReached | internal/server/stdio_runner.go:122-136 | such a start is reached: the child answers initialize twice, and the request that started it gives up in between |
| EndToEnd.AnswersAreOwn | internal/server/mcp_handler.go:253-287 | isolate mode, from the HTTP request to the child and back, in every interleaving: an answered request gets the child's line for its own call, from a child that echoes ids a right answer to what it asked, shown as the list filter leaves it; and every client request and notification that child was ever sent is one of the same subject |
| EndToEnd.OneSubjectIsAsked | internal/server/mcp_handler.go:181-192 | isolate mode: all client requests and notifications ever written to a child are of the subject that was given its runner |
| EndToEnd.SharedChildGone | internal/server/stdio_runner.go:276-288 | shared mode: once the shared child has closed its output, a request that comes to the pool later gets the dead runner until Close, its call is never answered, and the client gets an internal error if anything |
| EndToEnd.IsolatedChildGone | internal/server/stdio_runner.go:276-288 | isolate mode: the same for the subject of the child, for as long as no EvictIdle cutoff has passed the last lookup of that subject |
| EndToEnd.LinesBound | internal/server/middleware.go:149-173 | the limiter's promise on the wire, in either mode: the lines written to all children together, calls and notifications, for requests of a subject admitted in a stretch of time number at most burst plus rate times length |
| EndToEnd.StepKeepsInv | internal/server/mcp_handler.go:157-165 | every step keeps: a client's call on a runner is that of the request of the same number, for its subject, asking what it asks, on the runner it was given |
| OneAnswer.AnswerIsReached | internal/server/mcp_handler.go:253-287 | for every text a child may answer with, a run from an empty gateway (initialize, a call, its runner built and started, the line written and read) at whose end the client is about to be answered with it |
| Catalogs.Resolve | internal/server/catalog.go:62-87 | the union over the caller's scopes of what their bundles list, per category; unknown scopes add nothing; no catalog permits everything |
| Catalogs.AnyPatternMatches | internal/server/catalog.go:122-138 | the fast path and the scan come to: listed literally, or some pattern matches, whatever the order of the map |
| Catalogs.AllowsName | internal/server/catalog.go:95-118 | a name is allowed when permissive, or when the category's patterns match it |
| Catalogs.AccessOfBothIsEither | internal/server/catalog.go:62-87 | with a catalog, access for two scope lists together is access for the one or for the other |
| Catalogs.AccessGrowsWithScopes | internal/server/catalog.go:58-87 | more scopes never lose access; order and repetition do not matter |
| Catalogs.AllowedIffSomeScopeAllows | internal/server/catalog.go:62-118 | a name is allowed to an identity exactly when one single scope of it allows it |
| Catalogs.CuratedInitCapabilities | internal/server/mcp_handler.go:371-395 | announces exactly the backend's keys other than those of categories in which nothing is granted, values unchanged |
| Catalogs.WithheldIffNothingAllowed | internal/server/catalog.go:159-174 | nothing is granted in a category if and only if no name at all is allowed in it |
| ListFilter.FilterListResult | internal/server/mcp_handler.go:404-438 | the loop over the items computes the filter, with an error exactly for a result or list of another shape, and an untouched result when the key is missing |
| ListFilter.KeptIsAllowedSubsequence | internal/server/mcp_handler.go:417-431 | the filter returns exactly the allowed items in their order: strictly increasing places, and all the places that hold an allowed item |
| ListFilter.OtherKeysUntouched | internal/server/mcp_handler.go:289-318 | what the client gets differs from the backend's result in the list only; a non-object goes through as it is; a listed item is one that was there and is allowed |
| ListFilter.FilterTwice | internal/server/mcp_handler.go:404-438 | filtering by one rule and then another is filtering by both; filtering is idempotent |
| ListFilter.ListedIffCallable | internal/server/mcp_handler.go:340-354 | tools and prompts: an item with a name is listed if and only if a call naming it passes the gate |
| ListFilter.UnnamedResourceListedIffReadable | internal/server/mcp_handler.go:424-427 | resources: the same for an item without a name, by its uri |
| ListFilter.ResourceListAndGateAgreeIff | internal/server/mcp_handler.go:341-354 | with the catalog's own decision and any path.Match, list and gate agree on a resource whatever is granted if and only if it has a uri, and no name or the uri for a name; one way for every resource, both ways whenever its name or uri can be granted alone, as every string without wildcards can |
| Sandbox.WrapCommand | internal/server/sandbox.go:96-123 | a policy that is not disabled is refused or rendered, never ignored; it is refused exactly for an unknown network mode or a relative path; a reader of the rendered list finds the network mode, the default and own read-only paths, the read-write paths, the environment and the whole command line, and nothing of the parent's environment |
| Sandbox.BuildBwrapArgs | internal/server/sandbox.go:153-214 | the three loops and the network switch render the policy, or report the first offence |
| Sandbox.AcceptedIff | internal/server/sandbox.go:175-198 | a policy is rendered if and only if its network mode is known and every bind path is absolute |
| Sandbox.FirstRelativeIsFirst | internal/server/sandbox.go:184-198 | the path reported is the first that is not absolute |
| Sandbox.ParseInvertsFlat | internal/server/sandbox.go:149-214 | a list of flags with their fixed numbers of values and a command line is read back as written, also when values look like flags or like the separator |
| Sandbox.DecodeInvertsRender | internal/server/sandbox.go:149-214 | decoding a rendered policy gives back network mode, binds in order, environment entries and argument vector, for every string |
| Sandbox.FlattenEnv | cmd/server/main.go:101-115 | one key=value entry per key, in ascending order of the keys |
| Sandbox.SortedKeysAreUnique | cmd/server/main.go:103-107 | there is one ascending list of the keys, so the entries depend on the map alone |
| Sandbox.SortSorts | cmd/server/main.go:107 | sorting distinct keys gives exactly those keys in strictly ascending order |
| Sandbox.EntrySplits | internal/server/sandbox.go:200-208 | an entry with a proper key splits at its first '=' into that key and the whole value |
| Sandbox.EnvironmentRoundTripIff | internal/server/sandbox.go:200-208 | the configured environment arrives unchanged in the sandboxed process if and only if every key is non-empty and free of '=' |
| Sessions.InMemorySessionStore.Create | internal/server/session_store.go:62-77 | stores a session of that subject, seen now |
| Sessions.InMemorySessionStore.MarkInitialized | internal/server/session_store.go:93-103 | marks and touches a known session, leaves the table alone otherwise |
| Sessions.InMemorySessionStore.Touch | internal/server/session_store.go:106-115 | moves the last use of a known session, leaves the table alone otherwise |
| Sessions.InMemorySessionStore.Delete | internal/server/session_store.go:118-126 | removes the session and says whether there was one |
| Sessions.InMemorySessionStore.ExpireBefore | internal/server/session_store.go:130-141 | removes exactly the sessions last seen before the cutoff and returns their number |
| Sessions.SessionSurvivesIff | internal/server/session_store.go:62-141 | a session is there after any schedule whatever of uses, deletions and sweeps if and only if it was never deleted and every sweep found the last stamp written into it within the timeout; its subject never changes |
| Sessions.HoldsLatestIff | internal/server/session_store.go:93-115 | the table holds the latest use throughout if and only if no use is applied after one with a later stamp |
| Sessions.KeptInUseSurvivesIff | internal/server/session_store.go:62-141 | where it does, a session survives if and only if it was never deleted and every sweep found it used within the timeout |
| Gateway.Chain | internal/server/middleware.go:44-49 | the loop from the last middleware to the first composes them with the first listed outermost |
| Gateway.ChainOrder | internal/server/server.go:191-206 | origin, version, credentials, rate, in this order; a token is spent only on requests the other three let through; each rejection has its own status |
| Pipeline.SessionsWereMinted | internal/server/mcp_handler.go:99-121 | a session in the table was minted by an initialize of its own subject and has been there since |
| Pipeline.BoundRequestsLookedUp | internal/server/mcp_handler.go:64-83 | a request past the session check looked its session up and found it its own |
| Pipeline.ForwardedOnlyWithinOwnSession | internal/server/mcp_handler.go:56-93 | in every run, what reaches the backend was preceded by an initialize of the same subject that minted its session id, with no completed deletion or expiry before the lookup; ids need not be fresh |
| Pipeline.LogStep | internal/server/mcp_handler.go:175-287 | one event sends at most one message, for the identity of its request, and answers that request |
| Pipeline.CallsAreAllowed | internal/server/mcp_handler.go:324-362 | in every run, each tools/call, resources/read and prompts/get that reaches the backend as a call names, if anything, something the caller's scopes allow |
| Pipeline.GatedCallForwardedIff | internal/server/mcp_handler.go:324-362 | such a call is forwarded, unchanged, if and only if its params decode and what they name, if anything, is allowed; otherwise the code says which |
| Pipeline.DisallowedOnlyAsNotification | internal/server/mcp_handler.go:181-192 | what reaches the backend naming something the caller's scopes do not allow reaches it as a notification |
| Pipeline.NotificationForwardedIff | internal/server/mcp_handler.go:175-195 | a notification passes no gate: whatever it names and whatever the scopes, it is answered 202 and reaches the backend unchanged exactly when there is a runner and it is not notifications/initialized |
| Pipeline.ListsShowExactlyTheAllowed | internal/server/mcp_handler.go:206-318 | a well-shaped list answer shows exactly the backend's items the caller's scopes allow, everything else unchanged |
| Pipeline.WithheldMeansNothing | internal/server/mcp_handler.go:371-395 | a capability withheld at initialize means empty lists and no identifier through the gate in that category, and only then |
| Survival.StoreFollowsSchedule | internal/server/mcp_handler.go:56-93 | the session table of a running gateway is what its schedule of mints, uses, deletions and sweeps makes of an empty one |
| Survival.SessionSurvivesInGateway | internal/server/server.go:233-264 | in every run of the gateway, a session is there at the end if and only if it was not deleted and every sweep found the last stamp written into it within the idle timeout |
| Survival.SweepIsRightIff | internal/server/server.go:247-250 | exactly when the next sweep is right about a session whatever time it reads, keeping it if and only if it was used within the timeout: the stamp in the table is the latest of all uses so far |
| Survival.KeptInUseSurvivesInGateway | internal/server/server.go:233-264 | in every run, with no hypothesis on the clock, where no use of a session is applied after one with a later stamp it survives if and only if it was not deleted and every sweep found it used within the idle timeout |
| Survival.OneAtATimeKeepsOrder | internal/server/mcp_handler.go:175-207 | under a clock that does not go back, uses are applied in order when no request of the session reads the clock while another has yet to write its reading |
| Witnesses.LateMarkLosesSession | internal/server/mcp_handler.go:176-180 | a run in which a ping is served between the two updates of notifications/initialized: the session is expired sixty seconds after its last request with a timeout of a hundred |
| Witnesses.TwoPingsLoseSession | internal/server/mcp_handler.go:207 | a run in which two pings read the clock and write their readings in the other order: the session is lost in the same way |
| Witnesses.DisallowedGoesThrough | internal/server/mcp_handler.go:181-192 | for every catalog, identity, gated method and name its scopes do not allow: a run at whose end the notification that names it is what the backend got, although the gate refuses the same params in a call |
| LoadBound.RunsArePaid | internal/server/middleware.go:149-173 | in every interleaving, messages forwarded plus requests still in flight never exceed what the limiter granted the subject |
| LoadBound.BackendLoadBound | internal/server/middleware.go:149-173 | end to end: with the limiter on and an invisible sweep, the messages forwarded for a subject, by time of admission, number at most burst plus rate times length in any stretch of time |
| SendTimes.SentLoadBound | internal/server/middleware.go:149-173 | by time of sending, the same with the stretch lengthened by what requests may spend between limiter and backend |
| SendTimes.SentLoadBoundIsAttained | internal/server/mcp_handler.go:35-40 | for every rate and burst of at least one, whenever burst plus refill over the delay is a whole number a run sends that many messages at one instant |
| SendTimes.DelayBreaksTheBound | internal/server/mcp_handler.go:35-40 | for every rate, burst of at least one and positive delay, a run, under an ordered clock, that sends more than burst plus rate times length in some stretch |
| SendTimes.BoundedIff | internal/server/middleware.go:149-173 | exactly when burst plus rate times length bounds what is sent in every stretch of every prompt run: nothing is held up between limiter and backend, or the burst is below one token |
| McpServer.Server.HandleInitialize | internal/server/mcp_handler.go:99-150 | invalid params, a failed id, or a session of the caller and the announced capabilities: the Initialize event |
| McpServer.Server.HandleMcpPost | internal/server/mcp_handler.go:35-94 | statement by statement the same decisions, table and log as the lookup, update and answer events in a row |
| McpServer.Server.HandleNotification | internal/server/mcp_handler.go:175-195 | touches the session, marks it initialized or passes the notification on, answers 202 |
| McpServer.Server.HandleRequest | internal/server/mcp_handler.go:206-247 | ping is answered locally; without a runner an error; otherwise the method decides between filter, gate and plain forwarding |
| McpServer.Server.ForwardAndFilterList | internal/server/mcp_handler.go:293-318 | calls the backend once and filters its list; a result of another shape is passed on as it is |
| McpServer.Server.ForwardWithNameGate | internal/server/mcp_handler.go:324-362 | refuses before the backend is called, or calls it once and returns its answer |
| McpServer.Server.HandleMcpGet | internal/server/mcp_handler.go:457-508 | up to the open stream: Accept header, session header, session, owner, in this order |
| McpServer.Server.HandleMcpDelete | internal/server/mcp_handler.go:548-566 | removes the session for its owner only: 400, 404, 403 or 204 |
| McpServer.Server.AskLimiter | internal/server/middleware.go:149-173 | asks the limiter once per request with a subject, and stays in step with its history |
| McpServer.Server.SweepSessions | internal/server/server.go:247-250 | the sweep expires sessions by the effective idle timeout: the Expire event |
| McpServer.Server.SweepBuckets | internal/server/server.go:251-255 | the sweep evicts buckets by the configured evictAfter as it stands: the Cleanup event |

## Left out

- HTTP reading and writing, the SSE stream past its opening, logging, signals and graceful HTTP shutdown: input and output with no property of their own. Request bodies come in already read and decoded, or as one of the four ways that fails.
- JSON: messages, results and params are datatypes; an encoding is any string without a newline. A result of an unexpected shape takes the branch the code gives it.
- Processes, pipes, SIGKILL and the grace timer: the child is an environment that may print any line or close its output at any step, and a Stop is over when the reader is.
- Notifications written to the child draw no id and await no answer, so `Demux` and `Backends` have no step for them; `Wire` has their bytes, `EndToEnd` says to which child they go, and `Pipeline` counts them as messages to the backend.
- `path.Match`, the token validator, the session id generator and the lookup of the sandbox program are parameters; an error of `path.Match` is no match.
- Floating-point rounding and the width of the id counter: tokens and times are `real`, ids unbounded integers.
- The moment between the limiter's own lock and the bucket's lock in `RateLimiter.Allow`, in which a sweep could drop the bucket just found: Allow is one step.
- The clock readings of initialize, of the limiter and of the sweeps belong to the step that uses them. Only the theorems that ask for an ordered clock, or for limiter readings in order (`RateLimiting.InOrder`), depend on that; a session update has a clock reading of its own.
- The return of a runner's Start and the assignment to `started` are one step in `PoolProtocol`, as are an instance's look at `started` and the decision that follows it.
- `cachedCaps`, the protocol version and client information of a session, and the audience check are not modelled: they are carried along and decide nothing here. What the backend advertised is a setting of the gateway.
- Configuration files, flags, bearer extraction, protocol-version negotiation, the health endpoint, pool and sweep interval defaults: easy members only.
- A request that gives up while it waits for another one's start of the same runner: RunnerFor comes back when that start is over. In `EndToEnd` a request calls its runner at most once, as the handlers do, and its place in the log is taken when it is answered.
- LoadBound.BackendLoadBound: counts messages by when their requests were admitted, because by time of sending the bound is false unless nothing is held up (SendTimes.BoundedIff); SendTimes.SentLoadBound says what holds instead.
- Stdio.StdioRunner.ReadLoop: the loop on its own, while no call comes, goes or receives; the interleavings are in `Demux`.
- Pool.RunnerPool.RunnerFor: the call on its own, or together with the one start it waits for; the other interleavings are in `PoolProtocol`.
- McpServer.Server.HandleMcpPost: the handler on its own; the interleavings are in `Pipeline`.
- ListFilter.ResourceListAndGateAgreeIff: that path.Match has, for a string with wildcards, a pattern that matches it alone (its escaped form) is a hypothesis, since path.Match is a parameter.
- Backends.OneSubjectPerProcess: speaks of calls; EndToEnd.OneSubjectIsAsked has the notifications too.
