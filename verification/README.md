# Verified model of proxchunk

proxchunk downloads one file in parallel byte ranges, partly through proxies that a daemon,
proxchunkd, scores and leases out. This project models the parts of it that have to agree with each
other and proves what they promise:

* **The download.** Workers share a queue of chunk jobs, three counters, one direct slot and one
  part file per chunk. `Download` is a state machine with one action per atomic operation of one
  thread, so that a run is an arbitrary interleaving of any number of workers with the main thread;
  `DownloadInvariant` has the invariant, one lemma per action; `DownloadData` follows the bytes;
  `DownloadRuns`, `DownloadResults` and `DownloadFinish` state the theorems, `DirectRetries` what is
  not bounded, and `Proxied` when proxies are used at all. `PartFiles` is one attempt at one chunk,
  `Planner` is the arithmetic that cuts the file up.
* **The lease pool and the daemon.** `ProxyPool` is the class whose methods change the pool, each
  tied to a relation between the old and the new pool; `PoolProperties` proves what these relations
  keep, and `PoolHistory` what becomes of one proxy over many of them. `LeaseSystem` puts the pool, every connection's held list, the poll thread and the refresh
  thread together; `Daemon` is the connection class, and its methods are proved to take steps of
  that system and no others.
* **The line protocol.** `Framing` reads and writes lines over a stream that may be cut up anyhow,
  `Protocol` is what the lines say, `Client` is the client's end of a connection.
* **All of it together.** `Agreement` is the world of the pool, the daemon's connections, one link per
  connection and the clients: what the daemon does to a connection is a turn of its link, in every
  history. `Hands` follows the leases into the hands of the clients' callers, and `Callers` proves that
  the workers of a download are such callers. `Mishaps` is a history that goes wrong.
* **The scoring scheduler** (`Scoring`) and **the interactive command line** (`Repl`).

`Counting` and `Wrappers` are shared. A maintainer runs `dafny verify dfyconfig.toml`.

## What to read first

* `DownloadResults.DownloadIsCorrect`: in every interleaving, if transfers are honest, a download
  that reports success has produced exactly the first `size` bytes of the remote file.
  `OutputIsRightExactly` has the exact condition on the transfers of a run in its place,
  `SuccessMeansExactSizes` says what is left without any. `DownloadFinish.CanFinish` and `CanSucceed`:
  every download can be brought to an end, and to success as long as nothing went wrong.
  `Proxied.ProxiesAreUsedExactly` says when it can come to use a proxy, `AttemptsAreBounded`, `GivenUpExactly` and
  `DirectRetries.RetriesAreUnboundedExactly` say how often it tries.
* `LeaseSystem.NoProxyIsLeasedTwice`, `EveryLeaseHasAHolder`, `NothingLeasedAfterStop` and
  `OnlyVerifiedProxies`: leases over whole runs, with refreshes and disconnects at any moment.
  `AcquireAfterTarget` says when exactly a proxy is leased, `NothingBeforeHello` that nothing happens for
  a client that has not said HELLO.
* `Hands.BusyMatchesHeld`: with the program's own clients, and connections dropped at any moment, busy
  rows and held lists match one to one in every state. `HonestyIsLostByForgetting` and
  `ForgettingLosesHonesty`: the one event by which it goes wrong, traced to the client and the address,
  whatever the others do. `OneHandPerProxy`, `StepKeepsApartExactly` and `BusyIsHeldOnce`: on to the
  callers' hands. `Agreement.ListsAgree` and `ReleaseIsHonestExactly` are for clients that do as they
  like, and `Callers.WorkersAreProper` is for the workers of a download.
* `PoolProperties.InstallKeeps`, `AcquireTakesTheFastest` and `ReleaseKeeps`; `PoolHistory.FourInARow`.
* `Framing.Reader.ReadBurst`, `Client.OwnAnswerExactly`, `Client.CallFailsExactly` and the class invariant
  `Client.ProxyClient.Valid`; `Daemon.Connection.HandleLine` in terms of the words of a line.
* `Scoring.TestProxiesMulti` with the pass invariant `PassOk`; `Repl.PrintRoundTrip` and
  `Repl.UnmatchedExactly` characterise the tokenizer.

## Assumptions

* Transfers are the environment. `Faithful` is the one assumption made about them, and only where a
  theorem names it (through `Honest`): a 206 or 200 answer appends a prefix of the range asked for
  (sections 14.1.2 and 15.3.7 of RFC 9110), and any other outcome appends fewer bytes than are
  missing. It is sufficient; `Harmless` is the exact condition, for one attempt
  (`PartFiles.SettleKeepsPrefixExactly`), for the parts in a run (`DownloadResults.CleanRunExactly`) and
  for the output (`OutputIsRightExactly`). `PartFiles.ErrorPageAccepted` shows how it is missed: the size
  is looked at before the status code (src/proxchunk.cpp:480-489). `DownloadFinish.AnyBytesCanSucceed`:
  for any bytes and any status code there is a run that reports success with just those.
* The temporary directory is new, part files are only touched by the workers, and removing or
  truncating a part succeeds. Whether a part or the output can be opened, and how much of the
  output is kept on disk, is left to the environment.
* Atomic operations are sequentially consistent.
* Speeds are real numbers; printed speeds are opaque words that are read back as some number.
* Addresses contain no spaces, as include/proxchunk/proxy_engine.hpp:32 says.
* A scored list has each address once (`TestedOk`), which the program does not enforce when a local
  proxy is also in a fetched list. A list that has stays a pool that has (`InstallKeeps`); for lists
  that fit into `max_keep` rows beside the leases carried over, `InstallDistinctExactly` has the other
  half too, and `ScoredTwiceIsLeasedTwice` what happens otherwise. For longer lists a repeated address
  may be cut off.

## Where the program does not do what is said of it

* README.md:109 of the repository promises up to eight tries for a stalled chunk. The code has no
  such bound: a chunk is given up after 32 proxied attempts, and attempts through the free direct slot
  that save nothing are repeated without bound, for every chunk of every download that has a worker,
  with `--direct` or without (`DirectRetries.RetriesAreUnboundedExactly`, `EveryChunkIsRetried`).
* A RELEASE for a proxy that the connection does not hold ends somebody else's lease:
  `ReleaseKeepsExclusiveIff` says when exactly exclusivity survives, and `Mishaps.StrangerLeasesIt` is
  a run in which one proxy ends up on two held lists. The program's own client sends such a RELEASE
  when an ACQUIRE that got no answer made it reconnect, which forgets all its leases, while a worker
  still used one of them (src/proxy_ipc.cpp:532-535, 566-580): `Client.ReleaseAfterReconnect`, and in
  every world `Hands.ForgettingLosesHonesty`. For a client whose requests are answered in time and whose
  callers release only what they have, this is the only way (`Hands.HonestyIsLostByForgetting`).
* The same reconnection follows an ACQUIRE that is too long to be sent. `Protocol.EncodeAcquire` says for
  which skip lists it is: one that brings an address of more than 62 characters just below the length
  check of src/proxy_ipc.cpp:514.
* A daemon that drops a connection does not ask whether the client's callers still use its proxies. It
  may lease one to another client, and then, and only then, is it in two hands
  (`Hands.StepKeepsApartExactly`, `LeasedAgainWasSevered`).
* One answer that comes too late puts all later answers on that connection out of step
  (`Client.OwnAnswerExactly`). `LatePongHidesALease` and `LateGreetingIsTakenForALease` are runs in
  which the two ends then disagree on what is leased.
* `plan_chunks` overflows its 64-bit offset or its 32-bit chunk number for some arguments;
  `PlanFitsExactly` says for which, and `PlanOverflows` has one of each kind.

## Model

| member | source | states |
|---|---|---|
| Planner.EveryByteOnce | include/proxchunk/plan.hpp:112-155 | in a plan that covers a size, every offset below it lies in exactly one chunk |
| Planner.PlanChunks | include/proxchunk/plan.hpp:112-131 | non-empty contiguous chunks in order, id equal to index, covering exactly [0, size), ceil(size/chunk) of them, all but the last of full length |
| Planner.ChunkCountIsCeiling | include/proxchunk/plan.hpp:121-130 | the number of chunks is the ceiling of the quotient |
| Planner.PlanFitsExactly | include/proxchunk/plan.hpp:121-130 | the loop stays within its 64-bit offset and 32-bit id if and only if the rounded-up size and the count fit |
| Planner.PlanOverflows | include/proxchunk/plan.hpp:121-130 | a size and a chunk length for which the chunk number overflows, and a pair for which the offset does |
| Planner.HeadroomFits | include/proxchunk/plan.hpp:121-130 | the simple sufficient condition on size plus chunk length |
| Planner.PieceCount | include/proxchunk/plan_n.h:25-36 | min(pieces, size), or zero for arguments that make no sense |
| Planner.PieceBounds | include/proxchunk/plan_n.h:53-78 | the inclusive range of piece i, the empty range for bad arguments, and no 64-bit overflow |
| Planner.PlanChunksN | include/proxchunk/plan.hpp:138-155 | min(n, size) pieces covering exactly [0, size), equal but for the last, which is longer by size mod n |
| Planner.PlanDownload | src/proxchunk.cpp:613-633 | the byte limit, and the planner that the options choose: chunks of so many MiB, the last one shorter, or equal pieces, the last one longer, of exactly the limited size |
| PartFiles.PartFile.DownloadChunk | src/proxchunk.cpp:389-505 | the part and the result of one attempt, for any pieces, status and open failure |
| PartFiles.SettleOutcome | src/proxchunk.cpp:480-504 | accepted exactly when long enough; kept bytes are never lost; a rollback restores exactly the earlier part |
| PartFiles.SettleKeepsPrefix | src/proxchunk.cpp:480-504 | for a faithful transfer the part stays a prefix of its range, and is accepted exactly when it is the whole range |
| PartFiles.SettleKeepsPrefixExactly | src/proxchunk.cpp:480-504 | a prefix stays a prefix of its range if and only if the attempt is rolled back or what it delivered continues the range |
| PartFiles.ErrorPageAccepted | src/proxchunk.cpp:480-489 | an error page of the missing length is accepted, and is not a faithful transfer |
| Download.Assemble | src/proxchunk.cpp:951-992 | the assembly loop computes what the state machine's final action says |
| DownloadInvariant.StartInv | src/proxchunk.cpp:639-665 | the invariant holds at the start, for every number of workers |
| DownloadInvariant.EmptyAndIdleMeansSettled | src/proxchunk.cpp:733-740 | a worker that sees an empty queue and nothing in flight sees every chunk settled |
| DownloadInvariant.CountersSettle | src/proxchunk.cpp:924-928 | finished plus failed never exceeds the number of chunks and reaches it only when all are settled |
| DownloadInvariant.StepKeepsInv | src/proxchunk.cpp:667-830 | every action of every thread keeps the invariant |
| DownloadData.SavedStep | src/proxchunk.cpp:398-504 | the bytes saved for a chunk change only when its own transfer ends, and then as the attempt is settled |
| DownloadRuns.ChunkIsInOnePlace | src/proxchunk.cpp:645-657 | each chunk is queued once, held by one worker, finished or failed; the counters count that, and inflight is never below the number of held jobs |
| DownloadRuns.PartsHaveOneWriter | src/proxchunk.cpp:759-786 | two workers never hold the same chunk, so no part file has two writers |
| DownloadRuns.OwnPartOnly | src/proxchunk.cpp:784-786 | an action of a worker leaves the part of every chunk alone that it does not hold |
| DownloadRuns.ExitIsSafe | src/proxchunk.cpp:733-744 | a worker that has returned and a main loop that has ended leave no chunk unsettled, and the counters then add up to the chunk count |
| DownloadRuns.DirectSlotIsExclusive | src/proxchunk.cpp:690-703 | in proxy mode at most one worker owns the direct slot, and the flag is set exactly while one does |
| DownloadRuns.LeasesAreReturned | src/proxchunk.cpp:673-724 | the leases out are exactly those of the workers, and none is left after the join |
| DownloadRuns.NeverStuck | src/proxchunk.cpp:726-829 | until every chunk is settled, some worker can take a step that moves it on |
| DownloadRuns.AttemptIsDownloadChunk | src/proxchunk.cpp:389-505 | the actions of an attempt are together one call of download_chunk, for any pieces, status and open failure |
| DownloadRuns.FailedJob | src/proxchunk.cpp:803-827 | a job that failed is given up after 32 proxies and otherwise goes to the end of the queue, its attempts counted up to three |
| DownloadRuns.AttemptsStayBelowThree | src/proxchunk.cpp:807-812 | in every reachable state the count of attempts is below three |
| DownloadFinish.CanFinish | src/proxchunk.cpp:726-829 | from every reachable state with a worker, some continuation settles every chunk and ends the main thread |
| DownloadResults.SavedOnlyGrows | src/proxchunk.cpp:489-504 | on every step, faithful or not, the saved bytes of every chunk are kept |
| DownloadResults.ConcatSize | src/proxchunk.cpp:965-989 | if every part is long enough, the total is right exactly when every part has its planned length |
| DownloadResults.AssemblyIsRight | src/proxchunk.cpp:951-992 | after an honest run the assembly succeeds exactly when no chunk was given up and the output could be written, and then it is the remote prefix |
| DownloadResults.SuccessMeansExactSizes | src/proxchunk.cpp:480-487 | without any assumption on transfers, success means every part has exactly its planned length |
| DownloadResults.HonestRunsStayClean | src/proxchunk.cpp:576-992 | along an honest run every part is a prefix of its range at every moment |
| DownloadResults.CleanRunExactly | src/proxchunk.cpp:480-504 | parts are prefixes of their ranges in every state of a run if and only if every transfer that ends in it is harmless |
| DownloadFinish.CanSucceed | src/proxchunk.cpp:726-992 | from every reachable state in which nothing has gone wrong, some honest continuation ends in success with the right file |
| DownloadFinish.SomeHonestRunSucceeds | src/proxchunk.cpp:576-992 | every valid download with a worker has an honest run that reports success with the right file |
| DownloadFinish.AnyBytesCanSucceed | src/proxchunk.cpp:480-489 | for any bytes of the right number, and any status code, there is a run that reports success and has written those |
| DownloadResults.OutputIsRightAtJoin | src/proxchunk.cpp:951-992 | a successful download has written the right bytes if and only if the parts were prefixes of their ranges at the join |
| DownloadResults.OutputIsRightExactly | src/proxchunk.cpp:480-504 | for every run that ends in a successful assembly, the output is the remote prefix if and only if every transfer of the run was harmless |
| DownloadResults.DownloadIsCorrect | src/proxchunk.cpp:576-992 | every honest run, in every interleaving: success means the output is the first size bytes of the remote file |
| DownloadResults.PotentialStep | src/proxchunk.cpp:778-827 | remaining proxied attempts plus missing bytes of the unsettled chunks drop with every proxied attempt and with every attempt that grew its part |
| DownloadResults.AttemptsAreBounded | src/proxchunk.cpp:778-827 | hence such attempts are at most 32 per chunk plus one per byte in every run |
| DownloadResults.GivenUpExactly | src/proxchunk.cpp:803-827 | a chunk is given up exactly when its 32nd proxied attempt has failed; a queued one has had fewer and lacks a byte, so its range is not empty |
| DirectRetries.EveryChunkIsRetried | src/proxchunk.cpp:690-703 | for every chunk and every n there is a run with n attempts at it that save nothing, after which no chunk is settled |
| DirectRetries.RetriesAreUnboundedExactly | src/proxchunk.cpp:803-827 | such attempts are unbounded if and only if there is a chunk and a worker, with --direct or without, with a daemon or without |
| Proxied.NoProxyIsUsed | src/proxchunk.cpp:690-709 | without a daemon client, with --direct, or with one worker, no proxy is ever asked for, leased, tried or given back, and no chunk is given up |
| Proxied.AllCanBeGivenUp | src/proxchunk.cpp:705-724 | otherwise, for every plan and every proxy there is a run in which every chunk is given up after 32 attempts through that proxy |
| Proxied.ProxiesAreUsedExactly | src/proxchunk.cpp:690-724 | a download can come to use a proxy if and only if it has something to fetch, a client, no --direct and two workers |
| ProxyPool.ProxyEngine.Pick | src/proxy_engine.cpp:110-148 | the scan leases the first row that qualifies and reports none only if none does |
| ProxyPool.ProxyEngine.Acquire | src/proxy_engine.cpp:107-155 | outside the skip list first, then anywhere |
| ProxyPool.ProxyEngine.Release | src/proxy_engine.cpp:157-201 | updates or erases the row with the address, touches no other, and sorts |
| ProxyPool.ProxyEngine.InstallTested | src/proxy_engine.cpp:246-295 | marks, merges, cuts and sorts as the relation Installed says |
| ProxyPool.ProxyEngine.BeginTarget | src/proxy_engine.cpp:763-776 | turns the filter on and every row off, and lists the rows to test |
| ProxyPool.ProxyEngine.EndTarget | src/proxy_engine.cpp:884-904 | exactly the rows that passed are on again, with their measured speed; the count is that of the passed addresses |
| ProxyPool.ProxyEngine.Live | src/proxy_engine.cpp:203-216 | counts the live rows |
| ProxyPool.ProxyEngine.Busy | src/proxy_engine.cpp:218-231 | counts the leased rows |
| ProxyPool.ProxyEngine.TopMbps | src/proxy_engine.cpp:233-238 | in a sorted pool, the greatest speed |
| ProxyPool.Select | src/proxy_engine.cpp:274-292 | the two loops with the taken flags keep all leased rows and as many of the first idle ones as there is room for |
| PoolProperties.AcquireTakesTheFastest | src/proxy_engine.cpp:110-155 | nothing exactly if every row is dead, leased, has four failures or, once a target is set, has not reached it; else the fastest of the others that is not skipped, or the fastest of them if all are |
| PoolProperties.AcquireKeeps | src/proxy_engine.cpp:110-155 | the pool stays good, and exactly one idle address becomes leased |
| PoolProperties.ReleaseKeeps | src/proxy_engine.cpp:157-201 | the pool stays good, exactly that lease ends, other rows are untouched; a success clears the failures and counts a measured speed for three tenths, a failure is one more and leaves a quarter of the speed; erased exactly by the fourth failure |
| PoolProperties.FailedFallsBehind | src/proxy_engine.cpp:179-200 | after a failure the row stands behind every row that was at least as fast |
| PoolHistory.FourInARow | src/proxy_engine.cpp:157-201 | over every history of leases and releases of any proxies, a proxy is erased exactly when its last four releases failed, counted from its last success |
| PoolProperties.InstallKeeps | src/proxy_engine.cpp:246-295 | same leases with the same failure counts, size max(leases, min(scored and leased, max_keep)), no faster idle candidate left out; every row is a scored one, with its lease, or a leased one that was not scored; pool good |
| PoolProperties.InstallDistinctExactly | src/proxy_engine.cpp:246-295 | when all fit, the pool is free of repeated addresses if and only if the scored list is |
| PoolProperties.ScoredTwiceIsLeasedTwice | src/proxy_engine.cpp:312-327 | a proxy that is scored twice is leased twice |
| PoolProperties.TargetStartKeeps | src/proxy_engine.cpp:763-776 | the pool and the leases stay, and nothing can be leased during the test |
| PoolProperties.TargetKeeps | src/proxy_engine.cpp:884-900 | the pool and the leases stay; the rows that are on are those that passed, with the measured speed and no failures; the others are as they were |
| PoolProperties.TargetCount | src/proxy_engine.cpp:884-904 | if the pool still has every row that passed, the reported number is the number of live rows |
| PoolProperties.LiveCounts | src/proxy_engine.cpp:203-216 | before a target is set every row is live, after that the rows that have reached it |
| Protocol.IpcSplit | include/proxchunk/proxy_ipc.hpp:89-113 | the nested scans compute the tokens |
| Protocol.SplitSound | include/proxchunk/proxy_ipc.hpp:89-113 | tokens are non-empty and free of spaces, and together are the line without its spaces |
| Protocol.SplitJoin | include/proxchunk/proxy_ipc.hpp:89-113 | tokens joined by spaces are split into themselves |
| Protocol.RequestsExactly | src/proxchunkd.cpp:441-552 | for every list of words, before and after HELLO, which request it is, and exactly which are errors |
| Protocol.CommandRoundTrip | src/proxchunkd.cpp:441-552 | the daemon reads every request as the client meant it |
| Protocol.EncodeAcquire | src/proxy_ipc.cpp:505-519 | the line encodes a prefix of the skip list that ends with the first address to exceed the length check; it can be sent if and only if that address does not take it from below the check to the limit, so always if no address has more than 62 characters |
| Protocol.LeaseRoundTrip | src/proxy_ipc.cpp:538-552 | the client finds the leased address in the answer to an ACQUIRE, and none in a refusal |
| Protocol.LeaseInExactly | src/proxy_ipc.cpp:538-542 | a line is taken for a lease exactly if it is an OK with an address and more |
| Protocol.ReplyLineIs | src/proxchunkd.cpp:441-552 | the lines of the answers |
| LeaseSystem.StepEffect | src/proxchunkd.cpp:441-552 | every step of the system keeps the leases, grants one free proxy or ends one lease |
| LeaseSystem.StepKeepsInv | src/proxchunkd.cpp:396-552 | every busy row keeps a holder, whatever clients send |
| LeaseSystem.StepKeepsExclusive | src/proxchunkd.cpp:396-552 | busy rows and held entries match one to one as long as clients release what they hold |
| LeaseSystem.ReleaseKeepsExclusiveIff | src/proxchunkd.cpp:522-544 | a RELEASE keeps that match if and only if the sender held the proxy or nobody did |
| LeaseSystem.RunKeepsInv | src/proxchunkd.cpp:752-896 | both invariants in every state of every run |
| LeaseSystem.NoProxyIsLeasedTwice | src/proxchunkd.cpp:490-544 | in every run of honest clients no proxy is on two held lists, nor twice on one |
| LeaseSystem.EveryLeaseHasAHolder | src/proxchunkd.cpp:396-418 | in every run every busy row is on the held list of an open connection |
| LeaseSystem.NothingLeasedAfterStop | src/proxchunkd.cpp:717-733 | once all connections are dropped nothing is busy |
| LeaseSystem.OnlyVerifiedProxies | src/proxy_engine.cpp:118-121 | from a target test to the next installation every proxy handed out has passed it, and a stopping daemon hands out none |
| LeaseSystem.AcquireAfterTarget | src/proxy_engine.cpp:110-155 | after a target test, and until an installation or another target, an ACQUIRE gets a proxy if and only if one that passed is in the pool and idle and the daemon is not stopping |
| LeaseSystem.NothingBeforeHello | src/proxchunkd.cpp:450-463 | in every run, for a connection that is open and has not said HELLO nothing was leased, released, targeted or stopped |
| LeaseSystem.DroppedLeaseFailed | src/proxchunkd.cpp:396-404 | what a connection holds when it is dropped counts as failed |
| LeaseSystem.TargetReportsLive | src/proxy_engine.cpp:884-904 | with no installation in between, the reported number is that of the live rows |
| Daemon.Connection.EraseOneHeld | src/proxchunkd.cpp:407-418 | removes the first entry equal to the address, and only that |
| Daemon.Connection.DropConn | src/proxchunkd.cpp:396-404 | in any system, takes the steps that release everything this connection holds in turn and close it, and touches no other connection |
| Daemon.Connection.HandleLine | src/proxchunkd.cpp:441-552 | in any system, for every line, takes the steps for that request on this connection, and closes or stops exactly when it should; in terms of the words of the line, the answer, before HELLO only the greeting or an error, which changes nothing and closes |
| Daemon.Connection.ServeLine | src/proxchunkd.cpp:866-878 | handling the next line of a connection, and dropping it if that says so, is exactly a turn of the link to its client |
| Daemon.DroppedIsTurn | src/proxchunkd.cpp:396-404 | so is dropping it |
| Mishaps.StrangerLeasesIt | src/proxchunkd.cpp:490-544 | a run in which a RELEASE by a connection that holds nothing puts one proxy on two held lists |
| Agreement.HistoryKeepsWorld | src/proxchunkd.cpp:752-896 | in every history of daemon, refresh thread and clients, every connection is as its link says, and every client's list is the daemon's up to the answer on its way, as long as answers came in time |
| Agreement.WaitingIsAdmitted | src/proxchunkd.cpp:450-463 | a line that waits on an open connection is one that the daemon can handle |
| Agreement.ListsAgree | src/proxy_ipc.cpp:502-580 | between requests the client's list is the held list of its connection, in every history, while answers came in time |
| Agreement.ReleaseIsHonestExactly | src/proxy_ipc.cpp:566-580 | the daemon handles a RELEASE of something its sender holds if and only if the address is on the client's own list |
| Hands.HistoryKeepsHand | src/proxy_ipc.cpp:502-580 | if one client is used properly, the daemon's list has an entry for every lease its callers have or are about to have, unless it has forgotten that address; whatever other clients do |
| Hands.HonestyIsLostByForgetting | src/proxy_ipc.cpp:431-442 | then a RELEASE from that client of something it does not hold comes only after that client reconnected while its callers had that address |
| Hands.ForgettingLosesHonesty | src/proxy_ipc.cpp:528-535 | and after every such reconnection and its HELLO the caller's release is one |
| Hands.EveryReleaseIsHonest | src/proxchunkd.cpp:522-544 | if callers release what acquire gave them, requests are answered in time and no client reconnects while its callers have something, every RELEASE is of a proxy its sender holds, with disconnects at any moment |
| Hands.BusyMatchesHeld | src/proxchunkd.cpp:396-552 | then, in every state, busy rows and holders match one to one; between two requests, a row is busy if and only if an open connection lists it, only one does, and once |
| Hands.StepKeepsApartExactly | src/proxy_engine.cpp:107-155 | a step brings an address into two hands if and only if it leases to a client one that some client's callers still have |
| Hands.LeasedAgainWasSevered | src/proxchunkd.cpp:396-404 | and then the connection of those that still have it was dropped under them |
| Hands.OneHandPerProxy | src/proxy_engine.cpp:107-155 | if only a stopping daemon drops connections under callers that have something, no proxy is ever in the hands of two clients' callers, nor twice in those of one, and each in the hands of a connected client is busy |
| Hands.BusyIsHeldOnce | src/proxy_ipc.cpp:502-580 | at rest, the busy rows match the entries of all connected clients' lists one to one, and all are connected if no connection was dropped under one |
| Callers.StepIsProper | src/proxchunk.cpp:673-724 | a worker's step gives the client back only a lease that it got from it, and the callers' leases stay those of the client |
| Callers.LentAsInAgreement | src/proxy_ipc.cpp:502-580 | the callers' leases change there as in the world of `Agreement` |
| Callers.WorkersAreProper | src/proxchunk.cpp:667-830 | so they do in every interleaving of every download, and workers that have returned have none left |
| Framing.Writer.WriteLine | src/proxy_ipc.cpp:74-133 | true exactly if the line is short enough and all of it was taken; otherwise a proper prefix of the framed line is on the wire |
| Framing.FramedOnce | src/proxy_ipc.cpp:84-91 | a line gets a newline unless it has one |
| Framing.ReturnIsDropped | src/proxy_ipc.cpp:48-63 | a return before the newline is not part of the line |
| Framing.Reader.ExtractLine | src/proxy_ipc.cpp:48-63 | the first line of the buffer, without a trailing return, and what follows it |
| Framing.Reader.ReadLine | src/proxy_ipc.cpp:136-234 | a line is the first of the stream however it was cut; otherwise no byte is lost, overflow only for a line that is too long, and the reason for stopping; the buffer stays at or below 4351 bytes |
| Framing.Reader.ReadBurst | src/proxchunkd.cpp:850-878 | payloads come back unchanged and in order with no false overflow, no complete line is left waiting, and once the stream is used up all have come |
| Framing.SendAll | src/proxy_ipc.cpp:74-133 | payloads written in turn put on the wire exactly such a stream, whatever sends are cut short or fail |
| Framing.TakesNext | src/proxy_ipc.cpp:136-234 | one read of a stream of payloads yields the next one or leaves the stream as it was |
| Client.AnswersLag | src/proxy_ipc.cpp:398-415 | the answer read belongs to the request as many places back as requests were given up |
| Client.OwnAnswerExactly | src/proxy_ipc.cpp:398-415 | a request gets its own answer if none was given up before it on this connection, and only then, unless the daemon failed to write at least as many answers as were given up |
| Client.EveryAnswerIsOwn | src/proxy_ipc.cpp:398-428 | over a whole conversation answered in time the k-th answer is that to the k-th request, as the daemon hears it before and after HELLO |
| Client.CalmExchange | src/proxchunkd.cpp:490-544 | if all requests so far were answered in time, the daemon's list has changed exactly as the answer says |
| Client.CalmStays | src/proxchunkd.cpp:836-878 | between requests the daemon can do nothing to a connection in step but drop it |
| Client.ProxyClient.Once | src/proxy_ipc.cpp:405-415 | one write and one read; with it both ends agree |
| Client.ProxyClient.Rpc | src/proxy_ipc.cpp:398-428 | never reconnects while something is leased, never changes the client's list, and returns what `CallFailsExactly` and `CalledOnLink` say |
| Client.CalledOnLink | src/proxy_ipc.cpp:416-427 | an answer on the old connection is returned; without one, and with nothing leased, the request is made again on a new connection that greets, and what comes of that is returned |
| Client.CalledWithoutLink | src/proxy_ipc.cpp:398-404 | without a connection one is made first, and without a greeting there is no answer |
| Client.CallFailsExactly | src/proxy_ipc.cpp:398-428 | when exactly a call gets no answer |
| Client.TriedOnceExactly | src/proxy_ipc.cpp:528-556 | what one try of acquire makes of what comes of the request |
| Client.TriedInTurn | src/proxy_ipc.cpp:522-563 | the tries follow one another until one brings a lease or the news of a stop, or none is left |
| Client.ProxyClient.Reconnect | src/proxy_ipc.cpp:431-442 | forgets all leases and starts in step |
| Client.ProxyClient.TryAcquire | src/proxy_ipc.cpp:528-556 | one try: the lease that the answer names, a reconnection if there was none, and whether another try follows |
| Client.ProxyClient.Acquire | src/proxy_ipc.cpp:502-563 | one lease more than before, or than none if it had to reconnect; both ends agree again |
| Client.ProxyClient.Release | src/proxy_ipc.cpp:566-580 | one entry fewer however the request fares; both ends agree if it was answered |
| Client.ProxyClient.KeepAlive | src/proxy_ipc.cpp:311-339 | agreement survives the keepalive thread, which never reconnects, and which reads even if it could not write |
| Client.ProxyClient.DaemonActs | src/proxchunkd.cpp:836-878 | agreement survives whatever the daemon does while the client is idle |
| Client.LatePongHidesALease | src/proxy_ipc.cpp:311-339 | on every greeted connection in step, one PING answered late makes the next ACQUIRE hide a lease from the client |
| Client.LateGreetingIsTakenForALease | src/proxy_ipc.cpp:444-466 | a run in which a late greeting is taken for a lease of the address "1" |
| Client.GreetingOnFresh | src/proxy_ipc.cpp:444-466 | an answered HELLO leaves a new connection in step |
| Client.ReleaseAfterReconnect | src/proxy_ipc.cpp:502-580 | an unanswered ACQUIRE reconnects and forgets; the next release goes to a connection that does not hold the proxy |
| Scoring.AddOneOk | src/proxy_engine.cpp:633-649 | taking up a candidate keeps the pass invariant: never more in flight than allowed, every candidate accounted for |
| Scoring.FinishOk | src/proxy_engine.cpp:678-726 | so does a finished transfer, for any order of completion |
| Scoring.OneReadOk | src/proxy_engine.cpp:678-730 | no slot is left idle while candidates remain, except for one whose candidate got no handle, a stop or a met quota; a met quota stops the pass, a stop takes up nothing; and no count goes back |
| Scoring.FillUp | src/proxy_engine.cpp:651-653 | the first loop takes up candidates until the slots, the candidates or a stop end it |
| Scoring.ReadMessages | src/proxy_engine.cpp:673-730 | every finished transfer of a round is entered, in the order reported |
| Scoring.TestProxiesMulti | src/proxy_engine.cpp:608-754 | for every script of transfers the pass ends as its specification says, keeps its invariants, cancels what runs exactly when enough was found or a stop came, and returns the rows earned; reports are monotone, at most the total, passed <= curl_ok <= completed, and only the last is final |
| Scoring.BoundsOf | src/proxy_engine.cpp:628-650 | passed <= curl_ok <= completed, completed plus in flight <= taken up <= total, in flight at most the limit or 96 |
| Scoring.PlayedStops | src/proxy_engine.cpp:663-754 | when the pass ends, and how |
| Scoring.RowsAreEarned | src/proxy_engine.cpp:686-711 | a row for each transfer that succeeded with 1024 bytes, a fitting status and more than 0.02 MiB/s, with bytes over elapsed time for its speed, and no other row |
| Scoring.ScoredListIsGood | src/proxy_engine.cpp:689-711 | distinct candidates give a scored list of good, idle, distinct rows from among them, each faster than the minimum |
| Repl.Tokenize | include/proxchunk/repl.hpp:54-104 | the character loop computes the words of the line's pieces, and an error exactly if the line ends inside a quotation |
| Repl.PiecesSound | include/proxchunk/repl.hpp:44-104 | every line is the text of its pieces |
| Repl.PiecesUnique | include/proxchunk/repl.hpp:44-104 | no line has two readings |
| Repl.UnmatchedExactly | include/proxchunk/repl.hpp:97-101 | the error is reported if and only if some quotation is opened and never closed |
| Repl.QuotedIsOneWord | include/proxchunk/repl.hpp:44-52 | a word in single or double quotes is taken as it stands |
| Repl.PlainIsOneWord | include/proxchunk/repl.hpp:94-95 | so is a word without quotes, blanks and backslashes |
| Repl.BlankSeparates | include/proxchunk/repl.hpp:89-93 | a space, tab, return or newline outside quotes separates the words before it from those after it |
| Repl.PrintRoundTrip | include/proxchunk/repl.hpp:44-104 | every list of words, escaped and joined with spaces, is read back as that list |

## Left out

* Planner.PlanChunks: asks that the plan fits its machine types, which the program does not check; `PlanFitsExactly` says when it does.
* DownloadResults.SuccessMeansExactSizes: for an output that was kept in full; a truncated output could make up for parts that are too long.
* Planner.PlanDownload: asks that the size-based plan fits its machine types, which the program does not check; `PlanFitsExactly` says when it does.
* LeaseSystem.NoProxyIsLeasedTwice: for clients that release only what they hold; `Hands` says when the program's own clients do, `ReleaseKeepsExclusiveIff` has the other case.
* Hands.OneHandPerProxy: for histories in which only a stopping daemon drops a connection whose callers have something; `StepKeepsApartExactly` has the other case.
* Client.OwnAnswerExactly: how the places of lost answers and of requests given up line up is not stated beyond their numbers.
* LeaseSystem.OnlyVerifiedProxies: ends at the next installation, because `install_tested` turns every row on again.
* PoolProperties.InstallDistinctExactly: for merged lists that fit into `max_keep`; from a longer one the repeated row may be cut off.
* PoolProperties.InstallKeeps: for scored lists without repeated addresses, see the assumptions.
* Client.ProxyClient.Connect: is modelled for a client that holds nothing, as its callers use it; `connect` itself does not look.
* Scoring.TestProxiesMulti: does not claim that every candidate is tested, because the loop ends when curl reports nothing running, even if a candidate was just added.
* Daemon.Connection.DropConn: without an installation between two releases; `LeaseSystem` and `Agreement` have installations between any two critical sections.
* Daemon.Connection.HandleLine: without an installation inside the command, as `DropConn`.
* Framing.Reader.ReadLine: an endless wait is not modelled; the script of events ends where the caller's time does.
* Which flag and which speed a worker passes with its releases: the daemon's side takes any.
* The destructor of the client, which releases what it holds before it closes: the daemon's drop of the connection has the same effect on the leases.
* Failure of `curl_multi_init`, which makes a scoring pass or a target test return at once.
* libcurl, sockets, poll, signals, fork, pid files and file-system errors other than those named in the assumptions: they are choices of the environment.
* Wall-clock time, sleeps, stall detection: a transfer ends, or an answer comes, whenever the environment says so.
* The history variables `place` and `proxied` of `Download`, `verdict` of `LeaseSystem`, `refused`, `halted` and `log` of `Scoring`, the counters of `Client.Link`, `makers` of `Agreement.World` and `lent` of `Agreement.Peer`, what the callers have in hand, are not in the program; no step depends on them, except that `cut` lets a fragment change the next line.
* `std::sort` is any sorted rearrangement: the order among equal speeds is not modelled, nor is the latency column.
* Rounding of floating-point speeds.
* Weak memory ordering of the progress counters, and the progress display.
* Text and files around the protocols: fetching and parsing proxy lists, the cache file, probing a URL for its size, archive.org metadata, output names and command-line arguments only produce the inputs of what is modelled.
* The REPL's built-in commands call the file system, and the GUI, the launcher and the scripts start the programs: none of them touches the download, the pool or the protocol.
