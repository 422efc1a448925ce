# Fleet scheduling and batch timing for a hacking game

This project models, in Dafny, the scripting library that runs a fleet of game
servers. The library places script threads onto servers by RAM capacity. It times
four-stage hack/weaken/grow/weaken batches so that the finishes fall 200 ms apart.
It discovers the network and roots servers with the port-opening programs the
player owns. It also formats durations. The modelled pieces are:

- **Cluster scheduler** (`src/lib/cluster/`). Module `Scheduler` holds the
  `Cluster` class: the lock flag, the greedy first-fit `scheduleScript`, the
  all-or-nothing `scheduleJob`, the deduplicating `probe`, the node filter and
  sort, `getJobMetrics` and `execute`. Module `ClusterNode` holds `Node`: free RAM,
  the thread capacity `floor(free / cost)`, the option defaults and the rooting
  guard of `update`. Module `ClusterJob` holds `Script` and `Job`: the file name
  of a path, `exec`, `assertPresentOn`, `addScripts` and the execution time.
- **HWGW batch timing** (`src/lib/hwgwbatch/`). Module `BatchTiming` derives the
  delays, thread counts and the four-script job. `Hwgw.HWGWBatch.GetJob` and
  `BatchRunner.Batch.Run` are the two classes that use them.
- **Netplan scheduler** (`src/lib/netplan/`). Module `NetplanServer` holds the
  `Server` record, `NetplanRooting` the rooting manager, and `Netplan` the
  network walk, the schedulable filter, the over-assigning `schedule` and
  `getMaxThreads`.
- **Discovery script** (`src/scripts/netplan.ts`, `src/scripts/rooting.ts`).
  Modules `ScriptsServer`, `ScriptsRooting` and `ScriptsNetplan` cover these.
- **ProtoBatcher** (`src/lib/protobatch/manager.ts`). Module `ProtoBatch` holds
  `limitThreads` and one iteration of `run`.
- **`formatTime`** (`src/lib/time/time.ts`). Module `TimeFormat` holds it.
- Shared pieces:
  - `Common`: the `Cost` type, sums, floor and ceiling.
  - `Crackers`: the five port-opening programs, their fixed order and the calls
    they make.
  - `Game`: the game state that the API reads return, as a map from host name
    to host facts.

### How the source is modelled

- Game API reads are inputs. A `World` maps host names to what `getServerMaxRam`,
  `getServerUsedRam`, `hasRootAccess`, `scan` and the other reads return. The
  analysis functions (`hackAnalyzeThreads`, `growthAnalyze`, …) are function
  parameters (`BatchTiming.Analysis`). The script RAM cost is a positive natural
  number (`Cost`), so Dafny's `/` is the source's `Math.floor`.
- Game calls that act (`exec`, `scp`, the cracker programs and `nuke`) become
  recorded effect lists (`ClusterJob.Effect`, `Crackers.Call`). `fileExists` is
  a set of (file, host) pairs.
- Times are integer milliseconds. Money and security are `real`.
- JavaScript `Map`s keyed by objects become insertion-ordered sequences of
  entries. The keys are distinct objects, so the two agree.
- `getSchedulableRAM`, which `cluster.ts` calls but `node.ts` does not define, is
  taken to be the node's free RAM (`maxRam - ramUsed`). `ClusterNode.Node.Record`
  gives the scheduler that view of a node.
- `scheduleScript` records an entry of 0 threads for a node with no capacity
  (cluster.ts:86-89). It subtracts the node's full capacity from the remaining
  count, not the capped entry. The netplan `schedule`, by contrast, skips
  zero-capacity servers (netplan.ts:54-56).

## Model

| member | source | states |
|---|---|---|
| `Common.Capacity` | src/lib/cluster/node.ts:71-73 | `t * cost <= free < (t + 1) * cost`: the floor of free RAM over a positive cost. It is non-negative when free RAM is. |
| `Common.Ceil` | src/lib/hwgwbatch/batch.ts:60 | `Math.ceil`: the least integer not below `x`. |
| `Common.Floor` | src/lib/hwgwbatch/batch.ts:56 | `Math.floor`: the greatest integer not above `x`. |
| `Crackers.KeepFacts` | src/lib/netplan/rooting.ts:14-32 | Filtering an ordered program list keeps it ordered. It keeps exactly the programs that are owned. |
| `Crackers.OrderCoversAll` | src/lib/netplan/rooting.ts:14-32 | The five files are tested in strictly increasing order, and every program is among them. |
| `Crackers.CrackerListFacts` | src/lib/netplan/rooting.ts:14-32 | The cracker list holds exactly the owned programs, in the order relaySMTP, HTTPWorm, SQLInject, BruteSSH, FTPCrack. Its length is the owned count, at most 5. |
| `Crackers.CollectCrackers` | src/lib/cluster/node.ts:87-111 | The five guarded pushes build the cracker list: exactly the owned programs, in the fixed order, at most 5. |
| `Crackers.PushIfOwned` | src/lib/cluster/node.ts:90-92 | One guarded push appends the program when its file is present, and nothing otherwise. |
| `Crackers.CrackerListUnfold` | src/lib/netplan/rooting.ts:14-32 | The cracker list is the concatenation of the five guarded pushes in source order. |
| `ClusterJob.LastIndexOf` | src/lib/cluster/job.ts:25 | `lastIndexOf`: -1 or the index of a `c` after which no `c` occurs. |
| `ClusterJob.Script.GetName` | src/lib/cluster/job.ts:24-26 | The name is a suffix of the path with no `/`. It is either the whole path or preceded by a `/`. |
| `ClusterJob.Script.AssertPresentOn` | src/lib/cluster/job.ts:34-38 | An `scp` from the source node happens exactly when the file is absent from the target. Afterwards the file is present there, and nothing else changes. |
| `ClusterJob.Script.ExecAsWritten` | src/lib/cluster/job.ts:28-32 | As written: exactly the effects of `assertPresentOn` followed by one `exec` on the target with the script's own thread count, whatever count is passed; the files present are those after the copy. |
| `ClusterJob.Script.ExecScheduled` | src/lib/cluster/job.ts:28-32 | Corrected: exactly the effects of `assertPresentOn` followed by one `exec` with the thread count the schedule passes. |
| `ClusterJob.NewScript` | src/lib/cluster/job.ts:14-22 | A script keeps source, file and arguments. Its thread count is the given one, or 1 when none is given. |
| `ClusterJob.ExecIgnoresThreads` | src/lib/cluster/job.ts:31 | A 12-thread script asked to run 10 threads on one node and 2 on another launches 12 on each. |
| `ClusterJob.Job.constructor` | src/lib/cluster/job.ts:62-66 | A new job has its name, no scripts and no execution time. |
| `ClusterJob.Job.AddScripts` | src/lib/cluster/job.ts:91-93 | The scripts become the old list followed by the new ones in order. The execution time is unchanged. |
| `ClusterJob.Job.GetScripts` | src/lib/cluster/job.ts:80-82 | Returns the scripts in insertion order. |
| `ClusterJob.Job.SetExecutionTime` | src/lib/cluster/job.ts:72-74 | The execution time becomes `Some(t)`. The scripts are unchanged. |
| `ClusterJob.Job.GetExecutionTime` | src/lib/cluster/job.ts:76-78 | Returns the stored execution time, `None` until one is set. |
| `ClusterNode.SnapshotOf` | src/lib/cluster/node.ts:25 | `getServer(host)` describes that host. |
| `ClusterNode.ShouldRootMissesZeroPorts` | src/lib/cluster/node.ts:33-36 | The as-written guard holds exactly when the intended guard holds and the required port count is non-zero. |
| `ClusterNode.ZeroPortServerNeverRooted` | src/lib/cluster/node.ts:33 | A server that needs 0 ports is never rooted as written, even with all five programs. The intended guard roots it with none. |
| `ClusterNode.Node.constructor` | src/lib/cluster/node.ts:18-26 | Without options a node is schedulable with order 0. With options it takes them. The server is the snapshot passed in. |
| `ClusterNode.Node.FreeRAM` | src/lib/cluster/node.ts:79-81 | Free RAM plus used RAM is the maximum RAM. |
| `ClusterNode.Node.ScriptThreads` | src/lib/cluster/node.ts:71-73 | `t * cost <= free < (t + 1) * cost`, that is `floor(free / cost)`. |
| `ClusterNode.Node.MaxMoney` | src/lib/cluster/node.ts:63-65 | The server's `moneyMax`, or 0 when it is absent. |
| `ClusterNode.Node.Record` | src/lib/cluster/node.ts:67-81 | The scheduler's view of a node: its hostname, its free RAM and its schedule order. |
| `ClusterNode.Node.Update` | src/lib/cluster/node.ts:32-49 | When the as-written guard holds, the calls are every owned opener in fixed order, then `nuke`. Otherwise there are no calls. Afterwards the server is the re-read snapshot. `schedulable` and `scheduleOrder` are constants. |
| `ClusterNode.Node.UpdateCorrected` | src/lib/cluster/node.ts:32-49 | With the intended guard, an unrooted server whose port requirement (0 included) the owned crackers cover gets every opener in order, then `nuke`. Otherwise there are no calls. The server is re-read either way. |
| `Scheduler.InsertWithOrder` | src/lib/cluster/cluster.ts:38 | Inserting a node keeps, for every order value, the nodes of that order in their previous relative order. |
| `Scheduler.SortFacts` | src/lib/cluster/cluster.ts:38 | The sort is ascending by `scheduleOrder` and a permutation. It is stable: nodes of equal order keep their input order. |
| `Scheduler.SchedulableMembers` | src/lib/cluster/cluster.ts:38 | The filter keeps exactly the nodes with free RAM above 0. |
| `Scheduler.SchedulableWithOrder` | src/lib/cluster/cluster.ts:38 | Filtering commutes with selecting the nodes of one order value. |
| `Scheduler.FilteredNodesFacts` | src/lib/cluster/cluster.ts:37-39 | The candidates are exactly the nodes with free RAM above 0. They are ascending by order, and ties keep their original order. |
| `Scheduler.PlacePrefix` | src/lib/cluster/cluster.ts:85-93 | Entries go to a prefix of the node list, in list order. |
| `Scheduler.PlaceReached` | src/lib/cluster/cluster.ts:86-89 | Each entry is `min(capacity, remaining)`, and the remaining count drops by the node's full capacity. |
| `Scheduler.PlaceStops` | src/lib/cluster/cluster.ts:85-93 | The walk stops before the end only once the capacity so far covers the request. The shortfall is the request minus the capacity of the visited nodes. |
| `Scheduler.PlaceShape` | src/lib/cluster/cluster.ts:84-99 | Combines the prefix, per-entry and stopping facts of the placement. |
| `Scheduler.PlaceSum` | src/lib/cluster/cluster.ts:84-99 | Without a shortfall, the entries sum to exactly the requested threads (0 for a non-positive request). |
| `Scheduler.PlaceWithinCapacity` | src/lib/cluster/cluster.ts:86-88 | No entry exceeds its node's thread capacity. |
| `Scheduler.ShortfallIffCapacity` | src/lib/cluster/cluster.ts:94-97 | With non-negative free RAM, a shortfall remains exactly when the total capacity of the nodes is below the request. |
| `Scheduler.PlaceScriptFailsIffShortOfCapacity` | src/lib/cluster/cluster.ts:81-100 | For nodes whose free RAM is not negative (every node that passes the filter of cluster.ts:37), `scheduleScript` fails exactly when the total capacity of the nodes is below the script's threads. |
| `Scheduler.PlaceScriptSum` | src/lib/cluster/cluster.ts:84-99 | A successful script schedule sums to the script's thread count. |
| `Scheduler.ScheduleAllAtomic` | src/lib/cluster/cluster.ts:55-79 | A job schedule exists exactly when every script can be placed. It then has one entry per script, in job order, each that script's placement. |
| `Scheduler.ScheduledJobThreads` | src/lib/cluster/cluster.ts:55-79 | A job schedule assigns in total exactly the threads the job's scripts request. |
| `Scheduler.ExecAsWrittenLaunches` | src/lib/cluster/job.ts:28-32 | As written: one `exec` launches the script's own thread count, whatever the entry's count. |
| `Scheduler.DispatchScriptAsWrittenLaunches` | src/lib/cluster/cluster.ts:133-135 | As written: dispatching one script launches its own thread count once per entry, so entries times threads. |
| `Scheduler.DispatchAsWrittenLaunches` | src/lib/cluster/cluster.ts:131-136 | As written: dispatching a schedule launches, summed over its scripts, the number of entries times the script's threads (`AsWrittenThreads`). |
| `Scheduler.SplitScriptLaunchedTwice` | src/lib/cluster/cluster.ts:131-136 | A 12-thread script placed as 10 + 2 launches 24 threads as written and 12 when corrected. |
| `Scheduler.ExecLaunches` | src/lib/cluster/job.ts:28-32 | Corrected: one `exec` that uses the entry's count launches exactly that count. |
| `Scheduler.DispatchScriptLaunches` | src/lib/cluster/cluster.ts:133-135 | Corrected: dispatching one script launches the sum of its entries. |
| `Scheduler.DispatchLaunches` | src/lib/cluster/cluster.ts:131-136 | Corrected: dispatching a schedule launches its total thread count. |
| `Scheduler.ExecuteLaunchesRequested` | src/lib/cluster/cluster.ts:113-139 | With the corrected `exec`, a scheduled job launches exactly the threads its scripts request. |
| `Scheduler.AppendNode` | src/lib/cluster/cluster.ts:103-104 | Pushing a node whose name is unknown keeps the list free of duplicates and adds exactly that name. |
| `Scheduler.IsKnown` | src/lib/cluster/cluster.ts:103 | The `some` test holds exactly when the hostname is already in the list. |
| `Scheduler.ScannedRecord` | src/lib/cluster/node.ts:29 | A node created by `scan` has the scanned name and order 0. |
| `Scheduler.Cluster.constructor` | src/lib/cluster/cluster.ts:17-23 | The cluster starts unlocked with the given nodes. |
| `Scheduler.Cluster.GetLock` | src/lib/cluster/cluster.ts:41-53 | Taking the free lock sets `isLocked` and changes nothing else. |
| `Scheduler.Cluster.ReleaseLock` | src/lib/cluster/cluster.ts:52 | The release callback clears `isLocked` and changes nothing else. |
| `Scheduler.Cluster.ScheduleScript` | src/lib/cluster/cluster.ts:81-100 | The loop computes the greedy placement (`PlaceScript`), with failure exactly as stated there. |
| `Scheduler.Cluster.ScheduleJob` | src/lib/cluster/cluster.ts:55-79 | The result is the all-or-nothing job schedule. The lock is held exactly when it succeeds. The nodes are unchanged. |
| `Scheduler.Cluster.Probe` | src/lib/cluster/cluster.ts:102-107 | The node list becomes `Walk` of the node from the old list: a known hostname changes nothing; an unknown node is pushed, then every host its scan lists is probed in order as a fresh node. Hostnames stay unique and the lock is untouched. |
| `Scheduler.Cluster.ProbeAll` | src/lib/cluster/cluster.ts:105 | The `forEach` over the scan: the node list becomes `WalkFrom` the first listed host. |
| `Scheduler.WalkListed` | src/lib/cluster/cluster.ts:102-107 | The walk is complete: the probed hostname ends up known, and every node `probe` adds has every host its scan lists among the known nodes. |
| `Scheduler.WalkScanned` | src/lib/cluster/cluster.ts:102-107 | A known hostname leaves the list as it is. Otherwise the probed node is appended first, and every later node is a fresh scan record with order 0. |
| `Scheduler.Cluster.GetJobMetrics` | src/lib/cluster/cluster.ts:141-155 | `totalThreads` is the sum of all entries. `totalRAM` adds the script's RAM once per entry, not per thread. |
| `Scheduler.Cluster.EntryMetrics` | src/lib/cluster/cluster.ts:148-151 | The inner loop sums one script's entries and adds its RAM once per entry. |
| `Scheduler.Cluster.Execute` | src/lib/cluster/cluster.ts:113-139 | The job is scheduled on the filtered, sorted nodes. On failure there are no effects. Otherwise every entry is dispatched in order as written (`DispatchAsWritten`): the file is copied where missing and each `exec` launches the script's own thread count. The nodes are unchanged and the lock ends released. |
| `Scheduler.TieBreakExample` | src/lib/cluster/cluster.ts:37-100 | Nodes are ordered by `scheduleOrder`. A 12-thread script on nodes of capacity 10 and 5 gets 10 and 2. A 20-thread script fails. |
| `BatchTiming.TimingOf` | src/lib/hwgwbatch/batch.ts:38-46 | The first weaken finishes at the weaken time. Hack, weaken₁, grow and weaken₂ finish 200 ms apart in that order. The second weaken's delay is 400 when both weaken reads agree. |
| `BatchTiming.TimingExample` | src/lib/hwgwbatch/HWGWBatch.ts:35-44 | Weaken 4000, hack 2000 and grow 3200 give delays 1800, 1000 and 400, and finishes 3800, 4000, 4200 and 4400. |
| `Common.Quotient` | src/lib/hwgwbatch/HWGWBatch.ts:61 | A JavaScript division, here the grow factor `maxMoney / targetExtract` (and the growth factor of manager.ts:42), is finite exactly when the divisor is non-zero. Multiplied by the divisor, it gives the dividend. |
| `BatchTiming.GrowFactorIsInverse` | src/lib/hwgwbatch/HWGWBatch.ts:52-61 | For positive maximum money the grow factor is `1 / extractionFactor`. It is undefined when the factor is 0. |
| `BatchTiming.WeakenThreads` | src/lib/hwgwbatch/batch.ts:60-69 | The weaken count is the least `t` with `t * 0.05 >= increase`. |
| `BatchTiming.ThreadsOf` | src/lib/hwgwbatch/HWGWBatch.ts:54-67 | The hack threads are the floor of the analysis. Grow is its ceiling. Each weaken count is the least that covers its security increase. |
| `BatchTiming.BatchScripts` | src/lib/hwgwbatch/HWGWBatch.ts:81-93 | There are four scripts: weaken, hack, grow, weaken. All come from the source node and target the host. Their delays are 0, hack, grow and grow-weaken. Their thread counts are the hack-weaken, hack, grow and grow-weaken counts of the plan. |
| `BatchTiming.BatchRequestsTotal` | src/lib/hwgwbatch/HWGWBatch.ts:70 | The job requests exactly `totalThreads`, the sum of the four counts. |
| `Hwgw.HWGWBatch.constructor` | src/lib/hwgwbatch/HWGWBatch.ts:25-31 | Stores target and source. The extraction factor defaults to 0.25. |
| `Hwgw.HWGWBatch.GetJob` | src/lib/hwgwbatch/HWGWBatch.ts:33-97 | A fresh job named `"hwgw-" + hostname`, with no execution time. It holds the four scripts built from the timing law and the thread plan of the target's money times the factor. |
| `BatchRunner.Batch.constructor` | src/lib/hwgwbatch/batch.ts:31-51 | Stores the delays of the timing law for the durations read now. The first weaken's delay is 0. The extract is maximum money times the factor, default 0.25. |
| `BatchRunner.Batch.Run` | src/lib/hwgwbatch/batch.ts:53-103 | Refreshes the target, returning the cracker and `nuke` calls of its `update` exactly under that guard, and builds the four scripts from the stored delays. It schedules them on the filtered, sorted nodes: no effects on failure, the as-written dispatch on success. It returns `weakenTime + 600`, which is `growWeakenFinish + 200`, with the lock released. |
| `BatchRunner.Batch.Plan` | src/lib/hwgwbatch/batch.ts:54-97 | `update` makes the calls `Node.Update` states, which are returned. After it, the scripts are the four of the timing and thread law for the refreshed target. |
| `NetplanServer.Server.constructor` | src/lib/netplan/server.ts:18-32 | Static fields are read from the game. `schedule` defaults to true. The closing `update` sets the current fields. |
| `NetplanServer.Server.Update` | src/lib/netplan/server.ts:59-64 | Security, money, used RAM and root access match the game. The static fields are constants. |
| `NetplanServer.Server.FreeRAM` | src/lib/netplan/server.ts:51-53 | Free RAM plus used RAM is the total RAM. |
| `NetplanServer.Server.SchedulableThreads` | src/lib/netplan/server.ts:55-57 | `t * scriptRam <= free < (t + 1) * scriptRam`. |
| `NetplanServer.Server.Scan` | src/lib/netplan/server.ts:46-49 | One fresh, schedulable server per neighbour the game lists, in order. Its static fields (total RAM, minimum security, maximum money, growth, hacking level, ports) and its current fields hold what the game reports. |
| `NetplanRooting.AttemptWithOwned` | src/lib/netplan/rooting.ts:37-60 | Rooting succeeds when the server is rooted, or when the level suffices and the ports needed are at most the owned count. It makes calls exactly in the last case: each owned opener once in fixed order, then `nuke`, all on that server. |
| `NetplanRooting.RootingManager.constructor` | src/lib/netplan/rooting.ts:10-35 | The crackers are exactly the owned programs, in the fixed order, at most 5. |
| `NetplanRooting.RootingManager.TryRoot` | src/lib/netplan/rooting.ts:37-60 | The guard chain: rooted gives true with no calls. Then a too-high level gives false. Then too many ports gives false. Otherwise it calls every cracker in order, then `nuke`, and gives true. |
| `Netplan.IsKnown` | src/lib/netplan/netplan.ts:22 | The `some` test holds exactly when the name is in the network. |
| `Netplan.AppendServer` | src/lib/netplan/netplan.ts:24-27 | Pushing an unknown server keeps the network free of duplicates and adds exactly its name. |
| `Netplan.SchedulableOf` | src/lib/netplan/netplan.ts:35-37 | Keeps, in order, exactly the servers with `schedule` and `isRooted`. |
| `Netplan.NetStep` | src/lib/netplan/netplan.ts:51-59 | One loop step while threads remain: a server of capacity 0 is skipped. Otherwise it is recorded with its full capacity, which is subtracted. |
| `Netplan.NetPlaceFacts` | src/lib/netplan/netplan.ts:53-59 | Every entry is a candidate with non-zero threads equal to its full capacity. What remains is the request minus the assigned sum. |
| `Netplan.NetLeftAssigned` | src/lib/netplan/netplan.ts:58 | The remaining count is the request minus the threads assigned. |
| `Netplan.NetPlaceEntries` | src/lib/netplan/netplan.ts:53-59 | No entry has 0 threads. Each takes its server's whole capacity. |
| `Netplan.NetLeftIffCapacity` | src/lib/netplan/netplan.ts:49-70 | For servers whose used RAM, as the game reports it, is at most their total RAM, `schedule` exits exactly when the total capacity of the schedulable servers is below the request. |
| `Netplan.NetPlaceOvershoot` | src/lib/netplan/netplan.ts:58-59 | On success the assigned sum is at least the request, and less than the request plus the last entry. |
| `Netplan.OneThreadTakesWholeServer` | src/lib/netplan/netplan.ts:58-59 | A 1-thread request on an idle 8 GB server with a 1 GB script assigns 8 threads. |
| `Netplan.MaxThreadsIsCapacity` | src/lib/netplan/netplan.ts:80-87 | `getMaxThreads` is the sum of the capacities `schedule` uses, for up-to-date servers. |
| `Netplan.LimitedRequestIsPlaced` | src/lib/protobatch/manager.ts:25-33 | For servers whose recorded fields still match the game and whose used RAM is at most their total RAM, a request clamped to `getMaxThreads` never makes `schedule` exit. A server whose used RAM rose since its last refresh can still make a clamped request exit. |
| `Netplan.Netplan.constructor` | src/lib/netplan/netplan.ts:12-19 | The host (default "home") is created with `schedule` false and is the first server of the network. The names and the rooting calls are `Walk` from the host over the empty state. Every later server comes from a scan. |
| `Netplan.Netplan.Probe` | src/lib/netplan/netplan.ts:21-33 | The names and the rooting calls become `Walk` from the server: a known name changes nothing; otherwise `tryRoot` runs on it, it is pushed, and the servers of its scan are probed in order. The network only grows and stays duplicate-free, and the servers after it come from scans. |
| `Netplan.Netplan.Add` | src/lib/netplan/netplan.ts:26-27 | `tryRoot`, then the push: the server is appended and its rooting calls follow the earlier ones (`Found`). |
| `Netplan.Netplan.ProbeAll` | src/lib/netplan/netplan.ts:29-31 | The loop over the scan: the names and calls become `WalkFrom` the first neighbour. Every addition comes from a scan. |
| `Netplan.Netplan.ProbeNext` | src/lib/netplan/netplan.ts:30 | One iteration: the state becomes `Walk` from that neighbour, and the loop's invariants carry over. |
| `Netplan.WalkTried` | src/lib/netplan/netplan.ts:21-33 | The rooting manager tries every server `probe` adds exactly once, in the order they join the network (`CallsOf`). |
| `Netplan.WalkListed` | src/lib/netplan/netplan.ts:21-33 | The walk is complete: the probed name ends up in the network, and every server it adds has every host its scan lists in the network. |
| `Netplan.Netplan.GetSchedulableServers` | src/lib/netplan/netplan.ts:35-37 | The result is in the network and has `schedule` and `isRooted`. Every such network server is in it. |
| `Netplan.Netplan.Schedule` | src/lib/netplan/netplan.ts:39-78 | A cost of 0 exits. Otherwise the placement runs over the schedulable servers. A remainder exits. Else it copies and execs on each entry. Only visited servers are refreshed. |
| `Netplan.Netplan.Visit` | src/lib/netplan/netplan.ts:49-64 | The loop computes the placement, the remainder and how far it got. It refreshes exactly the visited servers. |
| `Netplan.Netplan.Refresh` | src/lib/netplan/netplan.ts:52-53 | After `update`, the capacity is `floor(free / cost)` for the game state. |
| `Netplan.Netplan.Dispatch` | src/lib/netplan/netplan.ts:72-75 | An `scp` then an `exec` per entry, in order, with the entry's threads. |
| `Netplan.Netplan.GetMaxThreads` | src/lib/netplan/netplan.ts:80-87 | The accumulated sum of `floor(free / cost)` over the schedulable servers. |
| `Netplan.Netplan.SumThreads` | src/lib/netplan/netplan.ts:81-84 | The accumulation loop yields the sum of `floor(free / cost)` over the given servers. |
| `ProtoBatch.DecidePriority` | src/lib/protobatch/manager.ts:45-83 | Weaken exactly when security is off its minimum. Otherwise grow exactly when money is below maximum. Hack otherwise. |
| `ProtoBatch.WeakenRequestCovers` | src/lib/protobatch/manager.ts:46 | The weaken request is the least `t` with `t * 0.05 >= deltaSecurity`. |
| `ProtoBatch.ProtoBatcher.constructor` | src/lib/protobatch/manager.ts:17-23 | The extraction factor defaults to 0.25. A netplan is built from the host, default "home": the host comes first in its network, and its state is the walk from the host. |
| `ProtoBatch.ProtoBatcher.LimitThreads` | src/lib/protobatch/manager.ts:25-33 | `min(requested, getMaxThreads)`. |
| `ProtoBatch.ProtoBatcher.Observe` | src/lib/protobatch/manager.ts:39-72 | After `update`, the action is the priority decision. The request is its ceiling, ceiling or floor of the analysis before clamping. |
| `ProtoBatch.ProtoBatcher.Prepare` | src/lib/protobatch/manager.ts:39-72 | The decided action's request is clamped to the capacity. The schedulable servers are unchanged. |
| `ProtoBatch.ProtoBatcher.Step` | src/lib/protobatch/manager.ts:38-83 | One iteration: the decision, the clamped threads, the `schedule` outcome for that script on the target, and a wait equal to that action's duration. The servers `schedule` visited now match the game, and every other server of the netplan is unchanged. |
| `TimeFormat.Trunc` | src/lib/time/time.ts:3-4 | Rounds toward zero. |
| `TimeFormat.Rem60` | src/lib/time/time.ts:3-4 | JavaScript `% 60`: the remainder has the sign of the operand and magnitude below 60. |
| `TimeFormat.Decimal` | src/lib/time/time.ts:8 | The decimal text of a number is non-empty and all digits. |
| `TimeFormat.DecimalRoundTrip` | src/lib/time/time.ts:8 | Reading the decimal text back gives the number. |
| `TimeFormat.FormatTime` | src/lib/time/time.ts:2-17 | The text is `"<m>m,"` when minutes are positive, followed by `"<s>s"` when seconds are positive. The later changes to `ms` play no part. |
| `TimeFormat.TimeTextRoundTrip` | src/lib/time/time.ts:7-14 | Parsing the text gives back the positive parts (0 for the others). So each part appears exactly when positive, minutes first. |
| `TimeFormat.PartsOfNonNegative` | src/lib/time/time.ts:3-4 | For `ms >= 0`, seconds is `(ms / 1000) % 60` and minutes is `(ms / 60000) % 60`. |
| `TimeFormat.PartsOfNegative` | src/lib/time/time.ts:3-4 | A negative duration has no positive part. |
| `TimeFormat.BelowOneSecondIsEmpty` | src/lib/time/time.ts:2-17 | Below 1000 ms the text is empty. |
| `TimeFormat.HoursDropped` | src/lib/time/time.ts:3-4 | Whole hours are dropped: the parts of `ms` and of `ms % 3600000` agree. |
| `TimeFormat.FormatRoundTrip` | src/lib/time/time.ts:2-17 | Parsing the text of `ms >= 0` gives `((ms / 60000) % 60, (ms / 1000) % 60)`. |
| `ScriptsServer.Names` | src/scripts/netplan.ts:26 | The names of a server list, entry by entry. |
| `ScriptsServer.Server.constructor` | src/scripts/netplan.ts:50-63 | Every field is the game's value for the host, read once. |
| `ScriptsServer.Server.Scan` | src/scripts/netplan.ts:65-68 | One fresh server per neighbour, named in scan order, each read from the game. |
| `ScriptsRooting.ToolList` | src/scripts/rooting.ts:8-32 | The owned openers in fixed order, then `nuke`. The length is the owned count plus one. |
| `ScriptsRooting.AsWrittenWithOwned` | src/scripts/rooting.ts:34-52 | As written, rooting succeeds when the server is rooted, or when the level suffices and the ports needed are at most the owned count plus one. Calls are each owned opener once, then `nuke` last. |
| `ScriptsRooting.CorrectedMatchesLibrary` | src/scripts/rooting.ts:43 | Comparing ports with the openers only gives exactly the library manager's decision and calls. |
| `ScriptsRooting.NukeCountedAsPort` | src/scripts/rooting.ts:31-45 | With no opener, a server that needs one port is reported rooted after a lone `nuke` as written, assuming the game's `nuke` returns. The corrected check refuses it with no calls. |
| `ScriptsRooting.RootingManager.constructor` | src/scripts/rooting.ts:8-32 | The list is the tool list of the owned programs, `nuke` last. |
| `ScriptsRooting.RootingManager.TryRoot` | src/scripts/rooting.ts:34-52 | The guard chain with the port requirement compared to the whole list, `nuke` included. |
| `ScriptsRooting.RootingManager.TryRootCorrected` | src/scripts/rooting.ts:43 | The same chain with the port requirement compared to the openers only. |
| `ScriptsNetplan.Found` | src/scripts/netplan.ts:28-30 | A new neighbour is appended to the network. The server handed to `tryRoot` is appended to the tried list. |
| `ScriptsNetplan.Explore` | src/scripts/netplan.ts:22-34 | The walk only appends to the network and the tried list. It adds as many tried entries as servers, all new names. |
| `ScriptsNetplan.ExploreUnique` | src/scripts/netplan.ts:25-31 | A duplicate-free network stays duplicate-free. |
| `ScriptsNetplan.ExploreListed` | src/scripts/netplan.ts:23-31 | Every server the walk adds was named by some scan. The start host is only added if a scan lists it. |
| `ScriptsNetplan.KnownStep` | src/scripts/netplan.ts:26-28 | A known neighbour is neither pushed nor probed, so the walk moves to the next one. |
| `ScriptsNetplan.FoundStep` | src/scripts/netplan.ts:28-31 | An unknown neighbour is recorded, then its whole subtree is walked before the next neighbour: depth-first, in scan order. |
| `ScriptsNetplan.AsWrittenTriesProbers` | src/scripts/netplan.ts:29 | As written, every server handed to `tryRoot` is the probing host or a server already found. It is never the neighbour just found, unless that is the probing host. |
| `ScriptsNetplan.CorrectedTriesFound` | src/scripts/netplan.ts:29 | Corrected, the servers handed to `tryRoot` are exactly the new servers, in discovery order. |
| `ScriptsNetplan.ForkSkipsLeaf` | src/scripts/netplan.ts:17-31 | On home with leaves a and b, the network is a, home, b. As written `tryRoot` gets home, a, home and never b. Corrected it gets a, home, b. |
| `ScriptsNetplan.Netplan.constructor` | src/scripts/netplan.ts:10-15 | The host (default "home") is read from the game. The network and tried list start empty. The rooting list is built from the owned programs. |
| `ScriptsNetplan.Netplan.Initialize` | src/scripts/netplan.ts:17-20 | The state becomes the walk from the host. The host itself is not pushed. |
| `ScriptsNetplan.Netplan.Probe` | src/scripts/netplan.ts:22-34 | The state becomes the walk from the server. |
| `ScriptsNetplan.Netplan.ProbeAll` | src/scripts/netplan.ts:25-33 | The loop walks the neighbours from the first one. |
| `ScriptsNetplan.Netplan.ProbeNeighbour` | src/scripts/netplan.ts:26-32 | One iteration advances the walk by one neighbour. |
| `ScriptsNetplan.Netplan.ProbeFound` | src/scripts/netplan.ts:29-31 | `tryRoot`, push, then a recursive probe: the new state is the walk after `Found`. |
| `ScriptsNetplan.Netplan.RootFound` | src/scripts/netplan.ts:29 | The server handed to `tryRoot` is the prober as written, the neighbour when corrected. The decision is that rooting manager's. |
| `ScriptsNetplan.Netplan.IsKnown` | src/scripts/netplan.ts:26 | The `some` test holds exactly when the name is in the network. |

## Left out

- Waiting for the lock (the sleep loop of `getLock`) and all `async`/`await`.
  `GetLock` requires the lock to be free, and `ReleaseLock` models the returned
  callback.
- `Cluster.initialize` and `Cluster.update`. They read an optional JSON node list
  from a file, or else run `probe` from the local node, then call `update` on
  every node. The constructor takes the initial node list instead. `probe` and
  `Node.Update` are modelled on their own.
- Logging, `pretty`, `toString`, `formatRam`, `formatNumber` and `hackAnalyze`.
  Their results are only logged.
- Input and output: `tprint`, file reads, `sleep` and `exit`. Exiting is the
  `Exited` outcome of `schedule`.
- Floating point. Times are integer milliseconds, and money and security are
  exact reals. A division by zero, which gives `Infinity` or `NaN` in the source,
  is represented by `None`: the grow factor of a batch with no extract
  (HWGWBatch.ts:61) and maximum money over zero current money (manager.ts:42),
  both `Common.Quotient`. `formatTime` takes whole milliseconds.
- A script RAM cost of 0 in the cluster scheduler, the batches and
  `getMaxThreads`. There the cost is a positive `Cost`, and division by zero is
  not modelled. The netplan `schedule` does take a cost of 0 and exits.
- The infinite loops. `ProtoBatch.ProtoBatcher.Step` is one iteration of `run`.
  The `main` functions of batch.ts and the scripts, and src/lib/hwgwbatch/manager.ts,
  are not part of this model.
- Game calls that raise. Every game call (`nuke`, the port openers, `scp`, `exec`)
  is an effect that returns. If the game's `nuke` raised on a server with too few
  open ports, the as-written `tryRoot` of src/scripts/rooting.ts would raise
  rather than report the server rooted.
- `reservedRAM`. It is passed in the sources but has no field in `NodeOpts`.
- The second `Server` class in src/lib/netplan/netplan.ts:98-168 duplicates the
  one in src/lib/netplan/server.ts. Only the latter is modelled.
- ProtoBatch.ProtoBatcher.Step: requires that the target object is not one of the
  netplan's network objects. The source may alias them. With aliasing, the
  target's `update` would also change a network server's current fields.
- Scheduler.Cluster.Probe: the nodes are value records, so object identity of
  nodes is not modelled. The walk dedupes by hostname, as the source does.
- ScriptsNetplan.Netplan.Probe: the state records which servers are handed to
  `tryRoot`, not the game calls that attempt makes. `RootFound` states those calls
  for one attempt.
- ScriptsServer.Server.Scan: does not state that the new servers are unseen by
  earlier scans. Each is a new object, as in the source.
- The netplan `schedule` assigns each server its whole capacity, so it can assign
  up to one server's capacity more than requested (`Netplan.NetPlaceOvershoot`).
  This is modelled as the source's behaviour. Dispatch uses the assigned counts.

## Findings

| source | as written | input that shows it | evidently intended | confidence | as-written member | corrected member |
|---|---|---|---|---|---|---|
| src/lib/cluster/job.ts:28-31 | `exec(target, threads)` launches `this.threads` and ignores the scheduled count | a 12-thread script split 10 + 2 over two nodes launches 12 + 12 | launch the count the schedule assigns to that node | not executed | `Scheduler.SplitScriptLaunchedTwice` | `Scheduler.ExecuteLaunchesRequested` |
| src/lib/cluster/node.ts:33 | the port requirement is tested for truthiness, so 0-port servers never pass | an unrooted server needing 0 ports is never nuked, even with all programs | root when the owned crackers cover the required ports, 0 included | not executed | `ClusterNode.ZeroPortServerNeverRooted` | `ClusterNode.Node.UpdateCorrected` |
| src/scripts/rooting.ts:31,43 | `nuke` is in the cracker list, and the port check compares with the list length | no openers and a server needing 1 port: reported rooted after a lone `nuke`, assuming the game's `nuke` returns | compare with the number of port openers, as the library's manager does | not executed | `ScriptsRooting.NukeCountedAsPort` | `ScriptsRooting.CorrectedMatchesLibrary` |
| src/scripts/netplan.ts:29 | `tryRoot(host)` is called on the probing server, not on the neighbour just found | home with leaves a and b: `tryRoot` gets home, a, home, and b is never tried | `tryRoot(neighbours[i])` on each new server | not executed | `ScriptsNetplan.ForkSkipsLeaf` | `ScriptsNetplan.CorrectedTriesFound` |
