# A verified model of the wormhole_sim simulation core

wormhole_sim simulates a peer-to-peer storage network one tick at a time.
This project models the part of it that keeps the simulation state, in Dafny:

- the nodes and their availability rule: a rolling duty cycle, a hard
  blackout override, and a daylight draw;
- the in-memory network backend: the peer directory, scores, per-peer chunk
  stores and manifests;
- the regional blackout state machine;
- the file-ingest write queue and the synthetic file generator;
- the download scheduler;
- the bootstrap server, the node population generator and the clock.

Every operation is sequential and deterministic once the random draws are
fixed. A generator (`random.Random`) is modelled as the class `Rng.Random`.
It holds a fixed stream of raw draws and a cursor. Each library call
(`randint`, `choice`, `random`, `choices`, `shuffle`, `sample`) takes the next
draw(s) and maps them into the documented range. The stream itself is
arbitrary, so every property proved holds for every seed. A child generator
(`config.child_rng(label)`, seeded through SHA-256) is the stream
`config.childSource(label)`.

Python dictionaries whose key order the code observes (`peers`,
`peer_nodes`, `registered_peers`, the reverse index) are a `map` plus the
sequence of their keys in insertion order. Objects that the source updates
in place (`SimNode`, `InMemoryNetwork`, `FileDownloader`, `FileUploader`,
`BlackoutManager`, `BootstrapServer`, `SimClock`, `random.Random`) are
classes. The rest are datatypes and functions.

Modules: `Common` (Option, Result, sequence helpers), `Text` (decimal
formatting, `startswith`, substring and string order), `Rng`, `SimConfig`,
`Ranking` (the `(-score, id)` sort), `NodeBehavior`, `ImportFiles`,
`Network` (`SimNode` and `InMemoryNetwork`, which refer to each other),
`Blackout`, `Uploader`, `Downloader`, `Bootstrap`, `NodeGenerator`, `Clock`.

## Model

| member | source | states |
|---|---|---|
| `NodeBehavior.IsOnline` | node_behavior.py:15-30 | An override in force (`force_offline_until` truthy and not yet reached) gives offline; online implies the base cycle condition, so the daylight draw can only turn a node off; with no override in force and no timezone the result is exactly the cycle condition |
| `NodeBehavior.OverrideExpired` | node_behavior.py:17-23 | From the override tick on, the result is the same as with no override |
| `NodeBehavior.CyclePeriodic` | node_behavior.py:22-23 | Without override and timezone, availability is periodic with period `cycle_length` |
| `NodeBehavior.CycleRange` | node_behavior.py:36-50 | Each drawn type's cycle range is a non-empty range of positive lengths |
| `NodeBehavior.FractionRange` | node_behavior.py:38-50 | Each drawn type's uptime-fraction range lies strictly between 0 and 1 |
| `NodeBehavior.UptimeOf` | node_behavior.py:38-50 | `int(cycle * f)` for a fraction in [0, 1) is a tick count in [0, cycle) |
| `NodeBehavior.GenerateBehaviorProfile` | node_behavior.py:32-56 | Succeeds exactly for the five known types and raises `ValueError` for any other; `always_online` gives cycle 1, uptime 1, offset 0; other types give a cycle in the type's range, `uptime < cycle` and an offset in `[0, cycle]` |
| `NodeBehavior.UptimeWithinFractions` | node_behavior.py:36-50 | A drawn uptime lies between the floors of the cycle times the type's two fraction bounds |
| `NodeBehavior.AlwaysOnlineEveryTick` | node_behavior.py:33-34 | The `always_online` profile is online at every tick when there is no override and no timezone |
| `ImportFiles.SizeBandIsChoice` | import_files.py:4-14 | The size-band thresholds are the library's weighted choice over the weights 25, 30, 20, 10, 10, 4, 1 |
| `ImportFiles.GenerateFileSize` | import_files.py:3-15 | The size lies within one listed band, hence in [1, 1048576] |
| `ImportFiles.ReceiveFile` | import_files.py:17-21 | The name is `file_<index>_<suffix>` with a suffix in [1000, 9999]; the size is in bounds; the owner is the given one |
| `ImportFiles.FileNameInjective` | import_files.py:18-19 | With four-digit suffixes a file name determines its index and its suffix |
| `ImportFiles.ReceiveFiles` | import_files.py:23-24 | Exactly `count` files; file `i` is named for index `start_index + i` and has the given owner |
| `ImportFiles.ReceiveFilesDistinctNames` | import_files.py:23-24 | The files of one call have pairwise distinct names |
| `Ranking.SortByRank` | network/memory_backend.py:59-62 | The sort is a permutation of its input |
| `Ranking.SortByRankSorted` | network/memory_backend.py:59-62 | Over distinct ids, the result is sorted by descending score (missing = 0.0), then by id |
| `Ranking.SortedUnique` | network/memory_backend.py:59-62 | Two arrangements of the same ids that are both sorted by the key are equal, so the ranking is unique |
| `Ranking.SortIdsOrdered` | network/memory_backend.py:124 | `sorted(ids)` over distinct ids is strictly increasing in string order |
| `Network.Candidates` | network/memory_backend.py:52-56 | Exactly the announced ids that are registered, online and not the caller, without repeats |
| `Network.TopIds` | network/memory_backend.py:58-64 | `min(#candidates, 20)` ids, each announced, online and not the caller |
| `Network.TopIdsProperties` | network/memory_backend.py:52-64 | The top ids are distinct and sorted by rank, and every candidate left out ranks after every one kept |
| `Network.TopIdsOfAnyRanking` | network/memory_backend.py:58-64 | Any arrangement of the candidates sorted by the key has the same first 20 ids |
| `Network.SimNode.constructor` | sim_node.py:2-51 | A new node has all space free, is offline and not joined, has no join tick, bootstrap tick or override, no known peers, hosted chunks or files, and round-robin index 0 |
| `Network.SimNode.ProfileOnline` | node_behavior.py:25-28 | The node's availability is the rule above on its own override and timezone, with its own generator's draw, consumed only when the daylight test is reached |
| `Network.SimNode.RecordJoin` | sim_node.py:80-82 | Sets the join tick and the joined flag and adds the announced peers to the known ones |
| `Network.SimNode.AnnounceAndRecord` | sim_node.py:73-82 | Announces with port 5200 and the node's capabilities; the known peers become the old set united with the announced top peers, each of them registered and online |
| `Network.SimNode.AttemptJoin` | sim_node.py:61-84 | Registers the node under its own id, keeping any chunk store, announces it, sets `join_tick`, `has_joined` and grows `known_peers`; free space, hosted chunks and the online flag are unchanged |
| `Network.InMemoryNetwork.constructor` | network/memory_backend.py:20-29 | A new backend has no peers, chunk stores, manifests, scores or nodes |
| `Network.InMemoryNetwork.TopNodes` | network/memory_backend.py:64 | At most 20 nodes are announced |
| `Network.InMemoryNetwork.FilterEligible` | network/memory_backend.py:39-44 | The filter keeps exactly the online nodes with enough free space whose id is not excluded |
| `Network.InMemoryNetwork.GetEligibleUploadTargets` | network/memory_backend.py:33-44 | Exactly the registered nodes that are online, have `free_space_gb >= min_free_gb` and an id not in `exclude_ids` |
| `Network.InMemoryNetwork.RegisterPeer` | network/memory_backend.py:127-130 | Binds the id to the node; an existing chunk store is kept, a missing one is created empty |
| `Network.InMemoryNetwork.RecordPeer` | network/memory_backend.py:47-50 | Records the port and capabilities under the id, keeping the key order |
| `Network.InMemoryNetwork.AnnounceSelf` | network/memory_backend.py:46-66 | Records the caller's metadata and returns a permutation of the first 20 candidates by rank: at most 20 nodes, all registered and online |
| `Network.InMemoryNetwork.FetchPeerList` | network/memory_backend.py:68-74 | At most 20 distinct ids, `min(#candidates, 20)` of them, of announced, registered, online peers, never the caller |
| `Network.InMemoryNetwork.RefreshPeerScore` | network/memory_backend.py:76-77 | Sets the peer's score and no other |
| `Network.InMemoryNetwork.DownloadChunk` | network/memory_backend.py:85-86 | An absent chunk yields empty bytes; non-empty bytes are stored data of that peer |
| `Network.InMemoryNetwork.UploadChunk` | network/memory_backend.py:80-83 | Always returns true; a following download of that chunk from that peer returns the data, and every other download is unchanged |
| `Network.InMemoryNetwork.DeleteChunk` | network/memory_backend.py:109-110 | Returns true iff the chunk was present, and removes only that entry |
| `Network.InMemoryNetwork.AcknowledgeDownloadComplete` | network/memory_backend.py:105-107 | Removes exactly the listed chunks from the source peer's store |
| `Network.InMemoryNetwork.CleanupStaleChunks` | network/memory_backend.py:112-115 | Returns the peer's previous chunk count and leaves its store empty |
| `Network.InMemoryNetwork.UpdateManifestChunkLocation` | network/memory_backend.py:93-95 | Records the new peer for the chunk in the file's manifest and changes nothing else |
| `Network.InMemoryNetwork.FetchManifest` | network/memory_backend.py:101-102 | A file without a pushed manifest yields empty bytes |
| `Network.InMemoryNetwork.PushFullManifest` | network/memory_backend.py:97-99 | Always returns true; a following fetch returns the pushed bytes, and fetches of other files are unchanged |
| `Network.InMemoryNetwork.BroadcastPeerState` | network/memory_backend.py:118-119 | Keeps only the score |
| `Network.InMemoryNetwork.ReceivePeerUpdates` | network/memory_backend.py:121-125 | One entry per announced peer, each with its score or 0.0 |
| `Network.InMemoryNetwork.ReceivePeerUpdatesSorted` | network/memory_backend.py:121-125 | The entries are in strictly increasing id order and list exactly the announced peers |
| `Blackout.Regions` | blackout_manager.py:17 | The distinct timezone offsets present among the nodes; empty iff no node has a timezone |
| `Blackout.InRegion` | blackout_manager.py:30 | Exactly the nodes with the region's offset |
| `Blackout.StillOffline` | blackout_manager.py:55 | Exactly the affected nodes whose override is set |
| `Blackout.RampCountBounds` | blackout_manager.py:52-57 | The ramp never releases more nodes than the region has, and releases all of them once 2000 ticks have passed |
| `Blackout.RampCountMonotone` | blackout_manager.py:52-56 | Later in the ramp, at least as many nodes are released |
| `Blackout.BlackoutManager.constructor` | blackout_manager.py:4-30 | Not triggered, not active, no start or end tick; the affected nodes are those of the region |
| `Blackout.BlackoutManager.LockAll` | blackout_manager.py:44-45 | Every affected node gets the override |
| `Blackout.BlackoutManager.Unlock` | blackout_manager.py:59-60 | Clears the override of the released nodes and of no other affected node |
| `Blackout.BlackoutManager.ApplyBlackout` | blackout_manager.py:32-64 | Before tick 1000 nothing changes; the first call from tick 1000 on triggers once, with end tick `tick + 4000` and every affected override at `end + 2000`; while holding or once inactive nothing changes; in the ramp a prefix of the still-locked nodes of length `floor(n * min(elapsed, 2000) / 2000)` is released; from `end + 2000` on every override is cleared and the blackout becomes inactive; only affected nodes' overrides are written |
| `Blackout.NewBlackoutManager` | blackout_manager.py:14-30 | The region is an offset present among the nodes; with no timezone at all the draw raises `IndexError` |
| `Uploader.NewBatch` | file_uploader.py:23-29 | A new batch is ready at least one tick later, and no earlier than the disk write time |
| `Uploader.Ready` | file_uploader.py:33-37 | The batches released are all ready |
| `Uploader.Waiting` | file_uploader.py:33-37 | The batches kept are all still being written |
| `Uploader.ReleasePartition` | file_uploader.py:33-39 | Every batch is either released or kept, never both, never lost |
| `Uploader.AppendWaiting` | file_uploader.py:24-37 | A batch created in a tick is kept at the end of the queue and not released in that tick |
| `Uploader.FileUploader.constructor` | file_uploader.py:4-9 | File index 0 and an empty write queue |
| `Uploader.FileUploader.AddBatch` | file_uploader.py:18-29 | The index grows by the number of files, the files are appended in order to the chosen node only, and the batch is queued |
| `Uploader.FileUploader.Receive` | file_uploader.py:15-29 | Draws `1 <= num_files <= max_files_per_tick` and a node, generates the files, and queues them; with no node the choice raises `IndexError` |
| `Uploader.FileUploader.ReceiveFor` | file_uploader.py:17-29 | For the chosen node: the files generated from the next draws, appended to that node only, the index advanced by their number and one batch queued |
| `Uploader.FileUploader.Release` | file_uploader.py:33-39 | Returns the files of the ready batches in queue order and keeps exactly the others, in order |
| `Uploader.FileUploader.Tick` | file_uploader.py:11-39 | It fails exactly when an ingest event occurs with no nodes. With no event the index, every node's uploads and the unfinished batches are unchanged. With an event, `num` files drawn from `[1, max_files_per_tick]` are received by the drawn node, appended to its uploads and to the queue as one batch, no other node changes, and the index advances by `num`. The files returned are those of the batches queued before the tick that are ready; every batch left is still being written |
| `Uploader.FileUploader.ReceiveAndRelease` | file_uploader.py:15-39 | The ingest branch: fails exactly when there are no nodes, otherwise receives the batch into the drawn node and the queue as `Tick` states and returns the ready files |
| `Downloader.TransferTicks` | file_downloader.py:101-102 | At least one tick; otherwise the number of whole chunks' worth of time at the slower speed |
| `Downloader.Eligible` | file_downloader.py:60-63 | Exactly the node's uploaded files whose status is `"replicated"` |
| `Downloader.ChunkIds` | file_downloader.py:70-73 | Exactly the index keys that start with `file + "_chunk_"` and do not contain `"replica"`, without repeats |
| `Downloader.HostsExactly` | file_downloader.py:93-96 | The host list holds exactly the online nodes whose id is listed for the chunk |
| `Downloader.Kept` | file_downloader.py:35-38 | Exactly the jobs with `ready_at` after the tick |
| `Downloader.DrainKeeps` | file_downloader.py:33-48 | Draining keeps exactly the unfinished jobs, in order; the set of tracked files is unchanged; durations are only appended |
| `Downloader.DrainCounts` | file_downloader.py:40-46 | A tracked file's count grows by its number of finished jobs; it is marked completed exactly when it was or a finished job brought the count to the total |
| `Downloader.DrainDurations` | file_downloader.py:43-46 | Each recorded duration is `tick - start_tick` of a tracked download |
| `Downloader.DrainStep` | file_downloader.py:40-46 | A due job appends `tick - start_tick` exactly when its file is tracked and the chunks counted so far, plus this one, reach the total; otherwise it appends nothing |
| `Downloader.DrainDurationCount` | file_downloader.py:35-46 | The drain appends exactly one duration per completing job, the count of those jobs |
| `Downloader.KeptSplit` | file_downloader.py:35-38 | Every job is either finished or kept |
| `Downloader.WithDownload` | file_downloader.py:116 | Appends the file to the node's download list and changes no other node's list |
| `Downloader.FileDownloader.constructor` | file_downloader.py:4-23 | No schedule, no job, no download record, all counters zero |
| `Downloader.FileDownloader.NextTrigger` | file_downloader.py:25-27 | The next trigger lies in `[tick + 60, tick + 300]` |
| `Downloader.FileDownloader.ScheduleNext` | file_downloader.py:29-30 | Sets this node's next tick in `[tick + 60, tick + 300]` and no other entry |
| `Downloader.FileDownloader.Drain` | file_downloader.py:33-48 | The job loop equals the draining function above |
| `Downloader.FileDownloader.ServedExactly` | file_downloader.py:89-99 | The chunks served are exactly the chunks that some online node listed for them holds |
| `Downloader.FileDownloader.ServedAll` | file_downloader.py:114 | Every chunk is served iff every chunk has an online host |
| `Downloader.FileDownloader.IssueOne` | file_downloader.py:93-111 | A job is queued iff the chunk has an online host; its source is such a host and it ends `max(1, chunk_size div min(upload, download))` ticks later |
| `Downloader.FileDownloader.IssueJobs` | file_downloader.py:89-111 | One job per hosted chunk, in order, appended to the queue |
| `Downloader.FileDownloader.IssuedLater` | file_downloader.py:102-108 | Every issued job belongs to the requesting node and ends at least one tick later |
| `Downloader.FileDownloader.Record` | file_downloader.py:113-118 | One more request, counted as exactly one success or one failure |
| `Downloader.FileDownloader.RequestChunks` | file_downloader.py:89-118 | For a file with chunks, given the online flags: one job per hosted chunk, appended to the queue; a success that adds the file to the node's downloads iff every chunk has a host, otherwise a failure |
| `Downloader.FileDownloader.Request` | file_downloader.py:70-118 | No chunk id: a failure with no job; otherwise the file's record is reset and one job is issued per hosted chunk; the request succeeds, and the file is added to the node's downloads, iff every chunk has an online host |
| `Downloader.FileDownloader.ServeNode` | file_downloader.py:50-120 | An offline node is neither served nor rescheduled; a node that is not due only gets a schedule if it had none; a due node with no replicated file is only rescheduled and no counter changes; otherwise it requests one of its replicated files and is rescheduled in `[tick + 60, tick + 300]` |
| `Downloader.FileDownloader.ServeInTick` | file_downloader.py:50-120 | One node's turn in the loop never decreases any of the three counters, only appends jobs that end after this tick, and changes at most this node's schedule, and only if it is online, into `[tick + 60, tick + 300]` |
| `Downloader.FileDownloader.Tick` | file_downloader.py:32-120 | `total_requests == successful + failed` is kept and no counter decreases; the durations are those of the drain; the unfinished jobs stay first, in order, and every new job ends after this tick; only online nodes' schedules change, each new or changed entry lying in `[tick + 60, tick + 300]` |
| `Bootstrap.RemoveFirst` | bootstrap_server.py:25 | Removes one occurrence of the id when present; an absent id leaves the list unchanged, where Python raises |
| `Bootstrap.RemoveFirstDistinct` | bootstrap_server.py:24-25 | Without repeats, the remaining ids are exactly the others, each once |
| `Bootstrap.SampleSize` | bootstrap_server.py:28-29 | `min(#others, sample size)` when that is positive, otherwise no sample |
| `Bootstrap.BootstrapServer.constructor` | bootstrap_server.py:4-6 | No registered peer |
| `Bootstrap.BootstrapServer.Register` | bootstrap_server.py:13-16 | `registered_peers[node.id]` is the node; a known id keeps its single place |
| `Bootstrap.BootstrapServer.RegisterNode` | bootstrap_server.py:8-31 | Registers the node; returns `min(#other registered peers, sample size)` distinct registered ids, never the node's own |
| `NodeGenerator.NodeIdInjective` | node_generator.py:7 | Distinct indices give distinct `node_<i>` ids |
| `NodeGenerator.TimezoneIndexIsChoice` | node_generator.py:47-60 | The bucket thresholds are the library's weighted choice over the bucket weights |
| `NodeGenerator.TimezoneOf` | node_generator.py:36-60 | A node's timezone is one of the eight three-hour buckets |
| `NodeGenerator.NewNode` | node_generator.py:7-20 | Id `node_<i>`, upload speed in [1,5], download speed in [2,8], total space in [10,100], all of it free |
| `NodeGenerator.Settle` | node_generator.py:27-65 | Sets the profile and the timezone; `online` is the profile's availability at tick 0 for the node; `was_online_last_tick` is false |
| `NodeGenerator.GenerateNode` | node_generator.py:7-67 | The node has the attributes above and a profile fitting a known type among the distribution's keys; a distribution with no positive weight raises, and so does a drawn type that is not a known one; with known types and a positive total it succeeds |
| `NodeGenerator.DrawProfile` | node_generator.py:23-29 | The behaviour type is the weighted choice from the first draw; a failed choice raises; otherwise the profile is exactly the one generated for the drawn type from the following draws, and any profile returned fits a known key of the distribution |
| `NodeGenerator.NextNode` | node_generator.py:6-67 | One iteration extends the nodes built so far with a fresh node that has what `generate_nodes` promises for its index; it raises on a distribution with no positive weight and succeeds on known types with a positive total |
| `NodeGenerator.GenerateNodes` | node_generator.py:4-69 | Exactly `count` fresh nodes, the i-th with id `node_i` and the attributes above, ids distinct; it fails when the distribution has no positive weight and `count > 0`, and succeeds when every key is a known type and the weights have a positive total |
| `NodeGenerator.IdsDistinct` | node_generator.py:6-7 | The generated ids are pairwise distinct |
| `Rng.WeightedChoicePositive` | node_generator.py:23-25 | A weighted choice over non-negative weights never picks a type of weight zero |
| `Clock.SimClock.constructor` | sim_clock.py:2-3 | A new clock reads 0 |
| `Clock.SimClock.Advance` | sim_clock.py:5-6 | The tick grows by exactly 1 |
| `Clock.SimClock.Current` | sim_clock.py:8-9 | Returns the tick and changes nothing |
| `Clock.RunTicks` | sim_clock.py:1-9 | After n advances from construction the clock reads n, and before the k-th advance it reads k |

## Left out

- Random numbers: the generator algorithm (Mersenne Twister) and the SHA-256 seeding of child generators are not modelled. A stream of raw draws stands for each generator, and each call maps its draw into the documented range. `shuffle` and `sample` are modelled by their exchange and pool algorithms on sequence values, and are proved to give a permutation or a sub-multiset only.
- Floating point: `random()` yields an exact multiple of 2^-53; `uniform`, the uptime fractions and the weighted choices use exact reals. Peer scores are reals; NaN and infinities are not modelled.
- The population-mix computation of the configuration (a greedy allocation over float uptime fractions) is not modelled. `behavior_distribution` is an input, as are `daylight_curve` and `chunk_size_mb`, which the configuration class does not define.
- `SimNode.score` and the float join delay of `attempt_join` are not modelled. The jitter's draw is consumed from the node's generator; its value is unused by the source.
- `verify_chunk_integrity` is not modelled: it compares Python `hash` values.
- Console output (`print_summary` and every `print`) is not modelled.
- Default arguments: `get_eligible_upload_targets` takes both arguments explicitly. Its defaults (`exclude_ids=None`, read as no exclusions, and `min_free_gb=0.01`) are the call with `{}` and `0.01`.
- The entry point (argument parsing, seed file, CSV and plots) is not part of this model, and neither is the abstract interface module.
- Constructor wiring: `generate_nodes` builds each `SimNode` without the backend and the profile string, which the constructor requires. Here the backend is passed in and the profile field starts as `None` until the generator sets it. `SimFile.owner` holds the owner's id rather than the node object.
- `replication_status` and the reverse index are inputs of the download scheduler: the modelled code never writes them. Chunking, replica placement, fan-out and capacity accounting are not part of the shown code and are not modelled.
- The blackout region is drawn from the distinct offsets in order of first appearance. The source draws from `list(set(...))`, whose order Python leaves unspecified.
- `Blackout.RampCount`: the number of nodes released uses the exact integer floor `floor(n * min(elapsed, 2000) / 2000)`. The source's float product `int(n * (elapsed / 2000))` may round down by one node where the exact value is a whole number.
- The download scheduler reads the nodes' online flags once, at the start of `tick`. The source reads each flag when it reaches the node; nothing in the scheduler changes a flag in between.
- A Python `defaultdict` inserts an empty entry when a missing key is read. Here a missing entry reads as empty and is not inserted; no modelled operation can tell the two apart.
- `Downloader.FileDownloader.Tick`: the per-node outcome (what was requested and how it was counted) is stated by `ServeNode` and `Request`; `Tick` states only the counter invariant, the queue order and the schedule bounds across all nodes.
- `Uploader.NewBatch`: the write time is stated as two bounds (at least one tick later, and at least `total_size div disk_write_speed` ticks later) rather than as the exact `max(1, total_size div disk_write_speed)`. File sizes are always positive, so Python's truncating conversion and Dafny's floor division agree.
