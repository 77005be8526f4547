# Manta, modelled and proved in Dafny

Manta runs Firecracker sandboxes on one host. Its HTTP handlers run concurrently and
share a sandbox registry, a channel of prepared network slots, the kernel's link and
netns names, one agent connection per sandbox, and snapshot files. This project models
the decisions the code takes around its foreign calls and proves what they keep. A
foreign call (Firecracker, netlink, `cp`, `kill`, a dial) is an outcome the environment
chooses; every theorem holds for every choice and every interleaving.

`dafny verify dfyconfig.toml` checks everything.

## The parts

**The concurrent server.** `Orchestrator.dfy` is one transition system over create,
restore, exec, snapshot-create, destroy and shutdown handlers, with a step for each
critical section, channel operation, atomic counter and foreign call. `OrchestratorInv`
holds the invariant; `OrchestratorNet`, `-Exec`, `-Create`, `-Down` and `-Safety` prove it
kept, part by part; `OrchestratorTheorems` draws the results (slot conservation,
exactly-once teardown, drain safety, quiet free slots, distinct live subnets, no foreign
deletion, on-demand capacity). `OrchestratorLeaks` accounts for every link and every netns
name in the kernel, `OrchestratorLine` says what `agentMu` protects. `OrchestratorProgress` shows that nobody waits for ever,
`OrchestratorAgents` exactly when a cleaned-up sandbox can get an agent connection again,
`OrchestratorCollisions` and `OrchestratorLimits` exactly which subnets can be shared once
the pool is gone.

**The same code as objects.** `Lifecycle`, `Channel`, `Netns`, `Pool` and `Server` are the
classes the code has, one handler at a time, with loops and fields as in the source.
Foreign calls end as the arguments say, so each contract says exactly when a method
succeeds and what it leaves, and the network stages are the transitions of the concurrent
model.

**Create and restore as a ledger.** `Ledger.dfy` runs the two long creation routines
against a host that records every event; `Settled` says which way out is taken and what
it leaves, `GiveBackDiscipline` and `StartDiscipline` what lawful books mean for the order
of events.

**Names and addresses.** `Layout.dfy` renders names and addresses as the code does and
parses them as Go's `net` package does. It justifies two abstractions of the concurrent
model: owners as netns names, and 255 as the largest subnet that can be configured.

**The agent connection.** `Frames` is the byte format with its buffered reader and
writer, for any chunking. `Pairing` puts host and guest on the two ends of a stream and
follows replies byte by byte. `Commands` is what `/exec` forwards and what the agent makes
of it. `ExecHandler` adds the redial and whole runs, and says exactly when `/exec` answers
200 and what it reports then. `RunExec` is the agent's waiter, two copiers and timer.

**Snapshots.** `UserSnapshots` is a machine of snapshot and restore calls, writing guests,
files, crashes and restarts; `UserSnapshotCommit`, `-Fidelity` and `-Overlap` prove things
about it. `GoldenSnapshot` is the build of the shared snapshot with crashes, reboots and
golden VMs that outlive their server. `UserSnapshotCall` and `GoldenSnapshotCall` are the
two routines in the source's own form, with their flags and deferred calls, each step one
of the machine's. `Stamps` and `Listing` are about the order of
`GET /snapshot/list`. `Text` and `Options` are shared.

## Where the code does less than it seems

Each of these comes with a concrete run and with the exact condition, both directions of
which are proved.

- After a drain that timed out, an exec still inside dials again: the sandbox has an open
  agent connection after its cleanup (`OrchestratorLimits.TimedOutDrainReopens`). It stays
  without one if and only if no admitted exec is before the end of its agent section
  (`OrchestratorAgents.ClearedStaysNil`).
- Once the pool is torn down at shutdown, a create still under way can be given the subnet
  of a live sandbox (`OrchestratorLimits.ShutdownBreaksDistinctness`). The numbers that can
  be shared are exactly the pool's (`OrchestratorLimits.CollisionsExact`).
- Two failing exits of the network setup forget the netns they made. No link is ever left
  over (`OrchestratorLeaks.NoStrayLinks`), and a name is if and only if one of the two is
  taken (`OrchestratorLeaks.ForgettingIsTheLeak`). It stays while the server serves
  (`OrchestratorLeaks.ForgottenForEver`), and a forgotten golden name keeps every later
  build from starting (`OrchestratorLeaks.StrayBlocks`).
- When both calls of an exec fail and the second has written its request, the connection
  stays stored with a reply outstanding, and the next exec gets the previous command's
  result (`ExecHandler.StaleExec`). `ExecHandler.ExecPairs` says for exactly which exits.
- `cmd.Wait` closes the pipes under the copiers: a command that succeeded can come back
  with no output (`RunExec.OutputCanBeLost`). A stream is whole if and only if all of it had
  been copied when Wait returned (`RunExec.WholeIffCopiedAtWait`).
- Snapshot ids start again at `us-1`: a store that shows `us-k` when the server starts can
  show it incomplete after k calls (`UserSnapshotCommit.ReuseBreaksCommit`). A lifetime keeps
  every visible snapshot complete, whatever happens in it, if and only if none is visible at
  its start (`UserSnapshotCommit.NextLifetimeCommits`).
- Two snapshot calls on one sandbox: the failing one resumes the guest under the other, and
  the bundle pairs old memory with a newer disk (`UserSnapshotOverlap.OverlapBreaksFidelity`).
  The step that makes this possible is exactly another call's accepted resume between the
  pause and the end of the copy (`UserSnapshotOverlap.ResumeIsTheGuard`).
- A golden snapshot directory that was only partly removed can be reused with the memory of
  one build over the disk of another (`GoldenSnapshot.TornResetBreaksReuse`). The removals
  that do this are exactly those that leave a visible meta.json and take one of the three
  files (`GoldenSnapshot.RemovalIsTheGuard`).
- Stamps drop trailing zeros, so string order is not time order: within one second an
  earlier stamp whose digits begin a later one's sorts as the newer
  (`Stamps.StampOrder`, `Stamps.WholeSecondSortsLast`, `Listing.ListingOrder`).

## Model

| member | source | states |
|---|---|---|
| OrchestratorSafety.StepInv | cmd/server/handlers.go:17-31 | every step of every handler keeps the whole invariant (identity, ownership, draining, places, processes, kernel, draws) |
| OrchestratorSafety.RunInv | cmd/server/handlers.go:17-220 | the invariant holds after any interleaving of any length |
| OrchestratorTheorems.SlotConservation | cmd/server/netns_pool.go:57-85 | in every reachable state each pool slot is in exactly one of channel, handler, sandbox, dropped; the channel has no duplicates and at most `size` entries |
| OrchestratorTheorems.SendNeverBlocks | cmd/server/netns_pool.go:79-85 | whoever releases a pool slot finds room in the channel |
| OrchestratorTheorems.ExactlyOnceTeardown | cmd/server/handlers.go:196-219 | cleanup runs at most once per sandbox, one thread owns it, `beginDestroy` never refuses, closed implies cleaned, no teardown dereferences nil |
| OrchestratorTheorems.DrainSafety | cmd/server/sandbox_lifecycle.go:16-58 | the in-flight counter is the number of execs inside, `finishExec` never meets zero, a drained sandbox has none and admits none |
| OrchestratorTheorems.DrainedStaysQuiet | cmd/server/sandbox.go:207-215 | after a drain that succeeded and the cleanup, no exec is in flight and `sb.Agent` is nil for the rest of any run |
| OrchestratorTheorems.FreeSlotsQuiet | cmd/server/restore.go:131-171 | every process started in a slot that is on offer has been sent SIGKILL |
| OrchestratorTheorems.LiveSubnetsDistinct | cmd/server/netns.go:100-115 | until shutdown no two live configurations (pool, on-demand, golden) share a subnet, and each has its own link and netns |
| OrchestratorTheorems.NoForeignDeletion | cmd/server/netns.go:248-276 | no rollback or cleanup before shutdown removes a link, peer end or netns name that another owner set up |
| OrchestratorTheorems.OnDemandCapacity | cmd/server/netns_alloc.go:23-24 | below 2^32 draws at most 255 on-demand setups ever succeed, and at most 255 minus the configured pool slots |
| OrchestratorCreate.AcquireInv | cmd/server/netns_alloc.go:10-25 | taking a slot, drawing a number or setting up on demand keeps the invariant |
| OrchestratorCreate.ReleaseNeverBlocks | cmd/server/netns_alloc.go:27-36 | a failing creator's release finds room |
| OrchestratorCreate.InsertInv | cmd/server/handlers.go:26-28 | registering a finished sandbox keeps every invariant although ids wrap at 64 bits |
| OrchestratorDown.BeginAdmitted | cmd/server/handlers.go:205-208 | the conflict reply of destroy is unreachable |
| OrchestratorDown.ReturnNeverBlocks | cmd/server/sandbox.go:255-256 | cleanup's slot release finds room |
| OrchestratorDown.CloseAgentInv | cmd/server/sandbox.go:207-215 | closing the agent under `agentMu` and entering cleanup keeps the invariant |
| OrchestratorNet.SetupKeepsOthers | cmd/server/netns.go:99-231 | every stage of a setup, rollback included, leaves other owners' kernel entries alone |
| OrchestratorNet.FailedStageLeaves | cmd/server/netns.go:75-231 | a failing stage leaves nothing of its setup, link, peer end or name, but for the name on the two exits that forget it; all other entries stay |
| OrchestratorNet.StageGoesOn | cmd/server/netns.go:75-231 | a stage goes on exactly when its calls work and what it makes is not there yet |
| OrchestratorLeaks.NoStrayLinks | cmd/server/netns.go:99-115 | in every reachable state each link belongs to a kept slot, a setup in progress, or a configuration a handler or sandbox holds |
| OrchestratorLeaks.ForgettingIsTheLeak | cmd/server/netns.go:82-87 | as long as every netns name is used, a step leaves one unused if and only if it is one of the two forgetful exits |
| OrchestratorLeaks.NoStrayNames | cmd/server/netns.go:75-231 | a run without such an exit has every name used, whatever else fails |
| OrchestratorLeaks.StrayStays | cmd/server/netns.go:248-276 | before the pool's teardown no step of anyone removes a forgotten name |
| OrchestratorLeaks.ForgottenForEver | cmd/server/netns.go:75-80 | it stays over any run |
| OrchestratorLeaks.StrayBlocks | cmd/server/snapshot.go:77-82 | with the golden name forgotten every build fails at its first stage |
| OrchestratorLeaks.ForgettingHappens | cmd/server/netns.go:82-87 | a reachable state in which the first golden build forgets its name |
| OrchestratorAgents.ClearedStaysNil | cmd/server/handlers.go:125-176 | after cleanup emptied `sb.Agent` it stays nil over every run if and only if no admitted exec is left between its admission and its last dial |
| OrchestratorLine.CallsHaveALine | cmd/server/handlers.go:125-176 | in every reachable state an exec calls over an open connection and dials only where none is stored: a failed call has dropped its own, and no stored one is overwritten |
| OrchestratorLine.SnapshotOffTheLine | cmd/server/user_snapshot.go:180-187 | a snapshot gets past closing the agent if and only if no exec is on that line, leaves it closed, and touches no other sandbox's |
| OrchestratorProgress.NoDeadlock | cmd/server/handlers.go:17-220 | in every reachable state each unfinished handler can step or waits for an agentMu, and whoever holds one lets go within five steps of its own, whatever its calls return |
| OrchestratorProgress.HolderGoesOn | cmd/server/handlers.go:125-176 | each step of the lock's holder brings it closer to letting go, the last one lets go |
| OrchestratorCollisions.CollisionsBounded | cmd/server/netns_pool.go:87-98 | two live configurations share a subnet only after the pool's teardown and only on one of the pool's numbers, golden snapshot and wrapped counter included |
| OrchestratorCollisions.SafeStep | cmd/server/netns.go:99-231 | links outside the pool's range stay with the configuration that counts on them, teardown or not |
| OrchestratorLimits.CollisionsExact | cmd/server/netns_pool.go:87-98 | with a pool of at most 255 slots the subnets two live configurations can meet on are exactly the slots' numbers |
| OrchestratorLimits.TimedOutDrainReopens | cmd/server/handlers.go:210-214 | a reachable state with an open agent connection after cleanup, the drain having timed out |
| OrchestratorLimits.ShutdownBreaksDistinctness | cmd/server/netns_pool.go:87-98 | a reachable state after pool teardown with two live configurations on one subnet |
| Servers.Sandbox.TryStartExec | cmd/server/sandbox_lifecycle.go:16-24 | admits exactly when running, and then counts one more |
| Servers.Sandbox.FinishExec | cmd/server/sandbox_lifecycle.go:26-32 | counts one less, never below zero |
| Servers.Sandbox.BeginDestroy | cmd/server/sandbox_lifecycle.go:34-42 | the first caller gets the teardown, later ones are refused |
| Servers.Sandbox.WaitForExecDrain | cmd/server/sandbox_lifecycle.go:44-58 | true if and only if the execs inside end within the sleeps before the deadline; the counter is what is left of them |
| Servers.Server.NextId | cmd/server/handlers.go:18 | the atomic 64-bit increment, wrap included |
| Servers.Server.Insert | cmd/server/handlers.go:26-28 | the registry gains exactly this sandbox |
| Servers.Server.CleanupSandbox | cmd/server/sandbox.go:207-266 | agent closed, process killed; a pool slot goes last into the channel and the kernel stays, an on-demand network loses its link and its name and the channel stays; nothing else in the kernel changes |
| Servers.Server.DestroyFound | cmd/server/handlers.go:205-219 | the same for the sandbox once found: refused unless running, waiting only for a slot at a full channel |
| Servers.Server.HandleDestroy | cmd/server/handlers.go:185-220 | each status with its exact condition; the id is off the registry, a running sandbox ends closed and stripped, all others are untouched; its slot is last in the channel, or exactly its link and name leave the kernel; any other status leaves channel and kernel alone |
| Servers.Server.DestroyOne | cmd/server/sandbox.go:277-287 | one turn of the shutdown loop: stripped, its on-demand network out of the kernel and nothing else, the sandboxes of other turns unchanged |
| Servers.Server.DestroyEach | cmd/server/sandbox.go:277-287 | all sandboxes worked through end stripped; the channel gains their slots in order; exactly their on-demand networks leave the kernel |
| Servers.Server.DestroyAll | cmd/server/sandbox.go:268-288 | the registry is emptied, each of its sandboxes visited once and stripped, and exactly their on-demand networks leave the kernel |
| Pools.NetnsPool.Init | cmd/server/netns_pool.go:29-62 | succeeds if and only if every slot can be made; then slots 1..size are configured and on offer in order and size is at most 255; a failure gives its reason and keeps what was made; a second call does nothing |
| Pools.NetnsPool.MakeEntry | cmd/server/netns_pool.go:45-57 | one entry is set up and offered exactly when its setup works, under its number and name |
| Pools.NetnsPool.Acquire | cmd/server/netns_pool.go:64-77 | the oldest slot when there is one in time, and otherwise a timeout that takes nothing |
| Pools.NetnsPool.Release | cmd/server/netns_pool.go:79-85 | the slot goes last; refused only at a full channel; the kernel is left alone |
| Pools.NetnsPool.Destroy | cmd/server/netns_pool.go:87-98 | the kernel loses exactly what cleaning up every slot made takes away |
| Pools.Allocator.Acquire | cmd/server/netns_alloc.go:10-25 | pool first, whenever it has a slot in time; otherwise the next value of the wrapping counter and a setup, which succeeds exactly when its calls do on a free octet and a free name |
| Pools.Allocator.Release | cmd/server/netns_alloc.go:27-36 | pool slots go back to the channel, others are cleaned up |
| Channels.Channel.TrySend | cmd/server/netns_pool.go:25 | a bounded FIFO: appends unless full |
| Channels.Channel.TryRecv | cmd/server/netns_pool.go:72 | takes the oldest element unless empty |
| Netns.RootNs.MakeNamed | cmd/server/netns.go:67-90 | an exclusive create: goes on only with the name made, and keeps the name when the thread cannot return; the concurrent model's transition |
| Netns.RootNs.AddVethPair | cmd/server/netns.go:99-115 | goes on exactly when the call works, link and peer name being free, with both made; otherwise the netns name goes and nothing else changes |
| Netns.RootNs.MovePeerIn | cmd/server/netns.go:117-126 | the peer leaves the root namespace, or link and name are gone again |
| Netns.RootNs.ConfigureSides | cmd/server/netns.go:128-231 | live exactly when the calls work and the number is an octet; an early failure takes link and name away, a late one only the link |
| Netns.RootNs.Setup | cmd/server/netns.go:47-246 | success if and only if all calls work on a free octet subnet, a free name and a free peer name, adding exactly the link and the name; a failure leaves the kernel as it was, but for the owner's name after the two exits that forget it |
| Netns.RootNs.Cleanup | cmd/server/netns.go:248-282 | removes the configuration's link and name |
| Netns.CleanupTakesItsOwn | cmd/server/netns.go:248-282 | a cleanup takes away the link and the name of its configuration and nothing else |
| Netns.CleanupUndoesSetup | cmd/server/netns.go:248-282 | what a setup on its own adds, cleanup takes away again |
| Ledgers.ParallelSetup | cmd/server/restore.go:51-91 | both goroutines joined, in either order, for all four results |
| Ledgers.PrepareCgroup | cmd/server/sandbox.go:165-176 | a path if and only if cgroups are on and the directory was made |
| Ledgers.AttachCgroup | cmd/server/sandbox.go:178-190 | a failed move drops the path, and the directory if that works |
| Ledgers.Launch | cmd/server/restore.go:109-126 | the VM runs exactly when log and start work; failure leaves no log open and no process |
| Ledgers.AwaitRestored | cmd/server/restore.go:128-174 | the first of the four late calls to fail decides; it leaves log and agent closed, process and cgroup killed and the network still held |
| Ledgers.RestoreSandbox | cmd/server/restore.go:24-197 | for every outcome and order: the first failing step decides the way out, and the books at its end are exact: an acquired network given back once after the kill, the directory removed unless asked to keep it; success hands everything over unreleased |
| Ledgers.RestoreOn | cmd/server/restore.go:93-197 | the part behind the joined goroutines |
| Ledgers.CreateFromGolden | cmd/server/restore.go:199-222 | the same, with nothing done when there is no golden snapshot |
| Ledgers.CreateFromUserSnapshot | cmd/server/restore.go:224-248 | the same, with nothing done when an artifact is missing; never keeps a failed directory |
| Ledgers.AwaitBooted | cmd/server/sandbox.go:98-124 | the cold boot's two late exits kill process and cgroup and dismantle the network on the spot |
| Ledgers.CreateSandbox | cmd/server/sandbox.go:22-146 | the cold boot's exits: early ones release the network, late ones dismantle it, exactly one of the two |
| Ledgers.BootOn | cmd/server/sandbox.go:66-146 | the part behind the joined goroutines |
| Ledgers.HeldWasTaken | cmd/server/sandbox.go:66-72 | in lawful books a held network was taken and not given back since |
| Ledgers.StoppedWasKilled | cmd/server/restore.go:131-171 | in lawful books a started process that does not run was killed after its start |
| Ledgers.GiveBackDiscipline | cmd/server/restore.go:102-107 | whenever a network is given back it had been taken, not given back in between, and all processes started before were killed before |
| Ledgers.StartDiscipline | cmd/server/sandbox.go:74-96 | every VM is started on a network taken and still held and on a disk copied into a directory still there |
| Layout.QuadParses | cmd/server/netns.go:53-65 | rendering then parsing a dotted quad gives the same numbers, or fails exactly when the third is no octet |
| Layout.AddressesParse | cmd/server/netns.go:58-65 | the four addresses of a subnet parse exactly when it is at most 255 |
| Layout.BlocksDisjoint | cmd/server/netns.go:58-65 | guest and veth /30s are aligned, pairwise disjoint, hold their end points; guests lie inside the masqueraded /16 |
| Layout.NetnsNamesInjective | cmd/server/netns.go:33-45 | netns names of pool slots, sandboxes and golden snapshot never coincide and are never cut |
| Layout.NetnsNameMeaning | cmd/server/netns.go:33-45 | a netns name begins with the prefix and the trimmed id, at most 63 characters of it, and has a form of its own for a blank id |
| Layout.NamesAsSeen | cmd/server/netns_pool.go:47-48 | the names of the first pool slot, a sandbox and the golden snapshot, spelled out |
| Layout.VethNameInjective | cmd/server/netns.go:53 | host link names tell subnets apart, and from the peer's name |
| Frames.BigEndianRoundTrip | internal/agentrpc/agentrpc.go:90-104 | header and length determine each other |
| Frames.ParseInvertsFrame | internal/agentrpc/agentrpc.go:81-120 | a read returns a payload if and only if the stream starts with its frame, and leaves the rest |
| Frames.ParseRefuses | internal/agentrpc/agentrpc.go:99-120 | exactly which streams end cleanly, are torn, or carry a length that is refused |
| Frames.StreamRoundTrip | internal/agentrpc/agentrpc.go:81-120 | any list of messages of 1 byte to 8 MiB comes back whole, in order, nothing lost or left |
| Frames.Reader.ReadFull | internal/agentrpc/agentrpc.go:100-112 | exactly the next bytes of the stream, for any chunking |
| Frames.Reader.ReadMessage | internal/agentrpc/agentrpc.go:99-120 | one parse step of the stream, end of file, torn frame and bad length included |
| Frames.Reader.ReadLine | internal/agentrpc/agentrpc.go:123-143 | finds a line exactly when a newline comes in time: up to the first one and not a byte more; everything when there is none |
| Frames.Writer.WriteMessage | internal/agentrpc/agentrpc.go:81-97 | success exactly for 1 frame of at most 8 MiB whose two writes work; oversize writes nothing; failure leaves as much of the frame as went out |
| Frames.FirstLineUnique | cmd/server/agent.go:45-53 | the handshake line is determined by the stream |
| Frames.AcceptsLineMeaning | cmd/server/agent.go:50-53 | accepted are the lines that start with "OK " and those that are "OK" between two runs of white space, in UTF-8 |
| Frames.Handshake | cmd/server/agent.go:37-55 | on any stream: succeeds exactly on an accepted first line that comes in time, and leaves the frames behind it untouched |
| Frames.DialAndReadAll | cmd/server/agent.go:37-54 | once the handshake is in, reads return exactly the messages sent, for any chunking |
| Pairing.ServeIsAnswers | cmd/agent/main.go:44-65 | the guest sends the frames of its answers, in order, up to the first it does not give |
| Pairing.ServeExtends | cmd/agent/main.go:44-65 | more requests only ever add to the reply stream |
| Pairing.ReplyIsNextAnswer | cmd/server/agent.go:65-92 | with n replies consumed, a call that reads a reply reads the answer to request n |
| Pairing.CleanCallPairs | cmd/server/agent.go:65-92 | a call on a clean connection returns the answer to that very request and leaves it clean |
| Pairing.CleanCallAnswered | cmd/server/agent.go:78-84 | a call on a clean connection reads a reply if and only if the guest answers and its whole frame came in time |
| Pairing.LaggingCallIsStale | cmd/server/agent.go:65-92 | with replies outstanding every call returns an earlier request's answer, and the lag never heals |
| Pairing.CleanAfterCall | cmd/server/agent.go:78-84 | a call leaves a clean connection clean if and only if it wrote nothing or read its reply |
| Pairing.AtUnique | cmd/server/agent.go:65-92 | requests written and replies consumed are determined by the connection |
| Commands.Check | cmd/server/handlers.go:59-123 | forwards exactly the well-formed calls the transport can carry, with trimmed command, argv, shell flag, effective timeout and output limit as given |
| Commands.ForwardedIsAccepted | cmd/agent/main.go:195-210 | every forwarded request is accepted by the agent, as a login shell on the trimmed command or the unchanged argv |
| Commands.UnusableExactly | cmd/agent/main.go:195-210 | the agent refuses exactly a shell request without a command and any other without an argv, and runs the rest as it says |
| Commands.OkCarriesExec | cmd/agent/main.go:77-82 | the reply to an exec request always has its exec part; it is OK exactly when the command ran to an end without error, and then is that result |
| Commands.RefusalCodes | cmd/agent/main.go:101-137 | a refused command: 2, 1 or 127 for the way it was not run, no output, and the reason; a failed join keeps its result |
| Commands.OkReportsTheRun | cmd/agent/main.go:168-192 | an OK reply reports the run of the threads: exit status, both outputs as prefixes within this request's limit, 124 if and only if it was killed |
| Commands.OkWithoutExec | cmd/agent/main.go:67-94 | an OK reply has an exec part only if the request was an exec |
| Commands.OkOfOthers | cmd/agent/main.go:67-94 | a ping is always OK, a network request as it turned out, anything else never |
| ExecHandler.CallIsOwn | cmd/server/agent.go:65-92 | on a settled line a reply read is the agent's answer to this request |
| ExecHandler.BrokenIsUnread | cmd/server/agent.go:78-84 | on a settled line a broken call read no reply, and leaves it settled exactly if it wrote nothing |
| ExecHandler.CallIsGoodIff | cmd/server/agent.go:78-91 | a call on a settled line works if and only if the request went out whole and the whole of an answer that says ok came in time |
| ExecHandler.ExecPairs | cmd/server/handlers.go:129-182 | a success is this request's answer with its exec part; the stored connection is settled afterwards if and only if the retry did not leave a reply outstanding |
| ExecHandler.ExecSucceedsIff | cmd/server/handlers.go:129-175 | an exec succeeds if and only if the first call is answered with ok, or else the redial comes up and the second is |
| ExecHandler.OkWasRun | cmd/server/handlers.go:129-182 | a success means this request's argv was usable, its command joined without a fault, and the reply is that result |
| ExecHandler.CallWritesOneFrame | cmd/server/agent.go:78-80 | a call puts at most its own frame on the wire |
| ExecHandler.ExecWritesTwoFramesAtMost | cmd/server/handlers.go:140-171 | an exec writes at most two frames, the second on a newly dialled connection |
| ExecHandler.RunPairs | cmd/server/handlers.go:129-182 | over any run of execs, snapshot and cleanup closes: while every dirty exit is followed by a close, each success answers its own request |
| ExecHandler.StaleExec | cmd/server/handlers.go:160-175 | two execs in which the second is given the first one's result |
| ExecHandler.AgentConn.Call | cmd/server/agent.go:65-92 | the imperative call is the byte-level exchange; on a clean line it works exactly when an answer that says ok came whole, and stays clean then |
| ExecHandler.AgentConn.WriteThenRead | cmd/server/agent.go:78-84 | a frame written whole and one read of the guest's stream |
| ExecHandler.Sandbox.ExecOverAgent | cmd/server/handlers.go:125-176 | the transport is `Exec` for these dials and transfers; a replaced connection was closed, a new one is new |
| ExecHandler.Sandbox.Drop | cmd/server/user_snapshot.go:182-187 | the connection is closed and forgotten |
| ExecHandler.WaitForAgentReady | cmd/server/agent.go:94-116 | the connection of the first turn whose dial comes up and whose ping is answered, clean and open; nothing exactly when there is no such turn |
| ExecHandler.ConfigureGuestNetwork | cmd/server/sandbox.go:192-205 | works exactly when the guest could set up its network and the answer came; the sandbox then starts with a clean connection |
| ExecHandler.HandleExec | cmd/server/handlers.go:33-183 | every status code with its exact condition; from a settled connection 200 if and only if a call gets through, with stdout, stderr and exit code of this request's own command; the in-flight count is restored on every path |
| RunExec.JoinTheorem | cmd/agent/main.go:139-192 | a result only after waiter and both copiers; outputs are prefixes within the limit; killed gives 124 and no error, else the command's own exit code and no error, or 1 and Wait's error |
| RunExec.ResultFrozen | cmd/agent/main.go:168-192 | nothing changes under a returned result |
| RunExec.NoDeadlock | cmd/agent/main.go:151-169 | until the result is out a bound step is possible, and bound steps run out |
| RunExec.WholeWhenCopierFirst | cmd/agent/main.go:142-149 | a stream whose copier ended before Wait returned is delivered whole up to the limit |
| RunExec.WholeIffCopiedAtWait | cmd/agent/main.go:142-169 | a stream comes back whole if and only if all of it, up to the limit, had been copied when Wait returned |
| RunExec.WaitHappens | cmd/agent/main.go:151-169 | every run with a result has that moment |
| RunExec.OutputCanBeLost | cmd/agent/main.go:151-152 | a run that loses the whole output of a successful command |
| UserSnapshotCommit.CommitPoint | cmd/server/user_snapshot.go:189-255 | at every moment of every run a visible meta.json stands for a complete bundle, unless its id was reused while visible |
| UserSnapshotCommit.FirstLifetimeCommits | cmd/server/user_snapshot.go:97-98 | in the first server lifetime on an empty store the exception never arises |
| UserSnapshotCommit.PauseIsUndone | cmd/server/user_snapshot.go:198-236 | every call that paused the guest and returned sent a resume after the pause |
| UserSnapshotCommit.OthersKeepOut | cmd/server/user_snapshot.go:189-195 | nobody but its own call touches a bundle or its record |
| UserSnapshotCommit.OwnStep | cmd/server/user_snapshot.go:208-255 | each step of a call keeps its bundle in the order state and memory, disk, metadata |
| UserSnapshotCommit.ReuseBreaksCommit | cmd/server/user_snapshot.go:97 | from any stopped server whose store shows us-k, a run of the next lifetime to a visible incomplete us-k |
| UserSnapshotCommit.NextLifetimeCommits | cmd/server/user_snapshot.go:97-98 | the next lifetime of a stopped server keeps every visible snapshot complete, whatever happens, if and only if no issued id is visible at its start |
| UserSnapshotFidelity.SnapshotIsOneInstant | cmd/server/user_snapshot.go:197-237 | call by call: a visible snapshot whose guest no other call resumed between its pause and the end of its copy holds the memory and disk of that pause, whatever else overlaps |
| UserSnapshotFidelity.RestoreIsThatInstant | cmd/server/restore.go:63-165 | until its first write a guest restored from such a snapshot has that memory and that disk |
| UserSnapshotFidelity.BundleNeverChanges | cmd/server/restore.go:63-72 | once visible a bundle stays as it is, whatever guests and restores do |
| UserSnapshotFidelity.StaysFrozen | cmd/server/user_snapshot.go:198-206 | while a call saves its guest nothing but another call's accepted resume can move it |
| UserSnapshotFidelity.WorldStep | cmd/server/user_snapshot.go:176-238 | guests, call records, bundles and restores stay in order over every step, overlaps included |
| UserSnapshotFidelity.RecordIsThePause | cmd/server/user_snapshot.go:198-200 | the content the theorems speak of is the guest's at the step that paused it |
| UserSnapshotOverlap.NeverLeftPaused | cmd/server/user_snapshot.go:201-206 | a paused live guest has a call at work on it or one whose last resume was refused, overlaps included |
| UserSnapshotOverlap.ResumeIsTheGuard | cmd/server/user_snapshot.go:201-206 | a step makes a visible snapshot other than the guest of its pause possible if and only if it is another call's accepted resume of that guest between the pause and the end of the copy |
| UserSnapshotOverlap.ShakeHappens | cmd/server/user_snapshot.go:201-206 | a reachable moment with such a resume about to come |
| UserSnapshotOverlap.OverlapBreaksFidelity | cmd/server/user_snapshot.go:176-238 | a reachable complete snapshot with memory from before a write and disk from after it |
| UserSnapshotCall.Server.PauseVm | cmd/server/user_snapshot.go:190-200 | works exactly when directory and pause do on a live guest; a failure leaves guest and files as they were |
| UserSnapshotCall.Server.CreateFullSnapshot | cmd/server/user_snapshot.go:208-214 | state and memory are those of the paused guest, or torn |
| UserSnapshotCall.Server.PersistDisk | cmd/server/user_snapshot.go:215-217 | the disk file is the copy of the guest's disk, or torn; no other file changes |
| UserSnapshotCall.Server.WriteMeta | cmd/server/user_snapshot.go:240-255 | meta.json becomes visible exactly when both its write and its rename work |
| UserSnapshotCall.Server.Save | cmd/server/user_snapshot.go:208-234 | a bundle of the guest's memory and disk under metadata that names it exactly when every step works; no one else's file is touched |
| UserSnapshotCall.Server.ResumeVm | cmd/server/user_snapshot.go:201-206 | the guest runs again exactly when the resume is accepted; no file changes |
| UserSnapshotCall.Server.SaveAndResume | cmd/server/user_snapshot.go:201-237 | from the pause on, every way out has sent a resume; it succeeds exactly when the save and the first resume do, and the guest runs exactly if the last one was accepted |
| UserSnapshotCall.Server.CreateUserSnapshot | cmd/server/user_snapshot.go:176-238 | succeeds if and only if every call does; then the bundle is the guest as it was, and the guest runs; the metadata is visible exactly when the save worked; after a successful pause a resume is always sent |
| GoldenSnapshot.ReuseIsSound | cmd/server/snapshot.go:49-63 | the reuse path returns base, state and memory of one completed build at one instant, of the current lineage if one is set, with no VM left to write to them |
| GoldenSnapshot.MetaIsSound | cmd/server/snapshot.go:254-274 | the same of whatever stands beside a visible meta.json, in every state |
| GoldenSnapshot.RemovalIsTheGuard | cmd/server/snapshot.go:276-284 | a step makes an unsound reuse possible if and only if it is a removal that leaves a visible meta.json and takes base, state or memory |
| GoldenSnapshot.OrphanBlocksBuild | cmd/server/snapshot.go:77-82 | a golden VM that outlived its server keeps any build from getting past the network setup |
| GoldenSnapshot.DiskInvStep | cmd/server/snapshot.go:111-144 | the base disk follows the current build's VM, and a capture is of that instant |
| GoldenSnapshot.TornResetBreaksReuse | cmd/server/snapshot.go:276-284 | with a removal cut short, a reuse of memory and disk from different builds |
| GoldenSnapshotCall.Builder.CaptureGolden | cmd/server/snapshot.go:119-148 | delivers exactly when every call works: the metadata of this build beside its three files at one instant; otherwise the deferred kill is still due |
| GoldenSnapshotCall.Builder.Build | cmd/server/snapshot.go:65-151 | succeeds exactly when every call works and no golden netns is left over; commits this build under the current lineage; no exit leaves a golden VM of its own |
| GoldenSnapshotCall.Builder.EnsureSnapshot | cmd/server/snapshot.go:49-152 | succeeds exactly by the reuse of a complete snapshot with valid metadata, unchanged, or by a build that works after a removal that works; then one complete build and no VM that can write to it |
| GoldenSnapshotCall.SameLineageReuses | cmd/server/snapshot.go:229-252 | a complete snapshot is reused exactly by a server of its lineage or of none |
| GoldenSnapshotCall.IncompleteIsNotReused | cmd/server/snapshot.go:54-63 | without metadata or with a file missing nothing is reused |
| Stamps.StampOrder | cmd/server/user_snapshot.go:222 | of two UTC stamps the earlier compares smaller if and only if they are not of one second with its fraction beginning the other's |
| Stamps.RenderMeaning | cmd/server/user_snapshot.go:222 | the fields of a stamp with their widths and separators |
| Stamps.FractionMeaning | cmd/server/user_snapshot.go:222 | the fraction denotes the nanoseconds, without trailing zeros, and is absent on the whole second |
| Stamps.EqualFractionsAgree | cmd/server/user_snapshot.go:222 | with equally many fraction digits string order is time order |
| Stamps.WholeSecondSortsLast | cmd/server/user_snapshot.go:222 | a stamp on the whole second compares greater than every later one of that second |
| Listing.NormalizedIsPlain | cmd/server/user_snapshot.go:53-64 | an accepted id is a fixed point and a plain path component |
| Listing.NormalizeMeaning | cmd/server/user_snapshot.go:53-64 | accepted is exactly one letter or digit and up to 127 letters, digits, dots, underscores and dashes, white space around aside |
| Listing.IssuedIdsAreAccepted | cmd/server/user_snapshot.go:97 | every id the server issues is accepted unchanged |
| Listing.Collect | cmd/server/user_snapshot.go:286-296 | an item for each directory whose trimmed name is an id with a record, once, and for nothing else, with the record's name and time, and its id or the directory's when that is blank |
| Listing.Sort | cmd/server/user_snapshot.go:297 | the same items, each once, none before one with a greater stamp |
| Listing.List | cmd/server/user_snapshot.go:277-299 | each directory entry with a record listed once under that record's name, time and id, in descending string order of the stamps; empty for a store that is not there, an error for one that cannot be read |
| Listing.ListingOrder | cmd/server/user_snapshot.go:297 | a listing is newest first if and only if no two of its times clash |
| Listing.EqualFractionsListNewestFirst | cmd/server/user_snapshot.go:297 | section 5.1 of RFC 3339: newest first when all stamps have equally many fraction digits |

## Left out

- HTTP routing, JSON and logging: JSON is a pair of functions that round-trip (`ExecHandler.Codec`), so strings that are not valid UTF-8, which Go's encoder replaces, are not modelled; a body that does not decode is left out.
- The SSH exec transport: an outcome.
- Wall-clock time: timeouts are choices. Durations are unbounded, so a huge `timeout_ms` does not overflow here.
- After `agentrpc.ReadLine` times out its goroutine goes on reading; nothing is stated about the stream then, and the caller closes the connection.
- Netlink details inside one stage, routes, the tap device and `iptables`: a stage succeeds or fails as a whole.
- Deletions in rollbacks and cleanups are taken to work; the code ignores their errors.
- SIGKILL is assumed delivered once sent, and a path returned by `prepareSandboxCgroup` usable for its kill; reaping and removal of cgroup directories on failure paths, which the code omits, are omitted.
- Sandbox directories, CIDs, MACs and VM config rendering: they would add formatting claims only.
- Environment configuration, preflight, diagnostics, benchmarks and build scripts.
- Server restarts in the concurrent model: each run starts from an initialised pool. What a crash leaves behind is in the two snapshot machines.
- `runExec` is a machine of its threads only; a method could not show their interleavings.
- The two snapshot routines as methods run without interference and without crashes; those are in their machines.
- The lineage check of a user-snapshot restore (cmd/server/user_snapshot.go:123-134): a comparison of two strings before the restore begins.
- After a restart of the server the guests of the earlier lifetime are no longer followed in `UserSnapshots`; the commit theorem does not depend on them, and the fidelity theorems are about the first lifetime.
- Snapshot deletion: `os.RemoveAll` of a bundle in use by another call is not modelled.
- Power failure: files written before a rename are assumed to survive whenever the rename does.
- `cp` with reflinks, Firecracker's lazy mapping of the memory file: a copy ends with its source's content if that did not change meanwhile, and a load takes the files as they are at that moment.
- UserSnapshotCall.Server.CreateUserSnapshot: completeness is stated for an id that is not visible before the call, as `ReuseBreaksCommit` requires.
- UserSnapshotFidelity.SnapshotIsOneInstant: for the first lifetime on an empty store; after a restart the guests of the earlier lifetime still write to disks whose paths are used again.
- UserSnapshotFidelity.RestoreIsThatInstant: under the same assumption.
- UserSnapshotFidelity.BundleNeverChanges: for the first lifetime and without deletion.
- GoldenSnapshot.ReuseIsSound: one builder at a time, and after no removal of the kind `RemovalIsTheGuard` names.
- OrchestratorTheorems.LiveSubnetsDistinct: until the pool is torn down at shutdown.
- OrchestratorTheorems.NoForeignDeletion: until the pool is torn down at shutdown.
- OrchestratorTheorems.OnDemandCapacity: until the 32-bit counter wraps, and for pools of at most 255 slots, the only ones that can be initialised.
- OrchestratorLeaks.StrayStays: until the pool is torn down at shutdown.
- Servers.Server.CleanupSandbox: handlers run one at a time here, so a send that would block forever is reported as not done; the concurrent model shows it never happens.
- Pools.NetnsPool.Release: reports a full channel instead of blocking.
- Listing.List: the library sort is replaced by an insertion sort with the same promise; the order of equal stamps is left open as in the source.
