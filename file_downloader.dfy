/** The download scheduler: every online node, once its scheduled tick has
    come, asks for one of its replicated files. The chunks of that file are
    looked up in the reverse index, each fetched from an online node that
    holds it, and the transfer finishes a bandwidth-derived number of ticks
    later. Each tick first drains the transfers that have finished, then
    serves the nodes in order. */
module Downloader {
  import opened Common
  import opened Rng
  import opened Text
  import opened SimConfig
  import opened ImportFiles
  import opened Network

  /** `download_interval_range`: the next request comes 60 to 300 ticks later. */
  const MinInterval: int := 60
  const MaxInterval: int := 300

  /** An in-flight chunk transfer. */
  datatype Job = Job(chunkId: string, fileName: string, nodeId: string, readyAt: int)

  /** The record kept for a requested file. */
  datatype Download = Download(startTick: int, chunksTotal: nat, chunksDownloaded: nat, completed: bool)

  /** The outcome of draining a job list: the jobs kept, the download
      records and the recorded durations. */
  datatype Drained = Drained(kept: seq<Job>, active: map<string, Download>, durations: seq<int>)

  /** `max(1, int(chunk_size_mb / min(upload, download)))`: whole ticks to
      move one chunk at the slower of the two speeds, never less than one. */
  function TransferTicks(chunkSizeMb: nat, upload: int, download: int): (t: int)
    requires upload >= 1 && download >= 1
    ensures t >= 1
    ensures var speed := Min(upload, download);
            chunkSizeMb >= speed ==> t * speed <= chunkSizeMb < (t + 1) * speed
    ensures chunkSizeMb < Min(upload, download) ==> t == 1
  {
    AtLeastOne(chunkSizeMb / Min(upload, download))
  }

  /** The names of the files marked `"replicated"`, in upload order. */
  function Eligible(files: seq<SimFile>, status: map<string, string>): (r: seq<string>)
    ensures |r| <= |files|
    ensures forall x :: x in r <==> exists i :: 0 <= i < |files| && files[i].fileName == x && x in status && status[x] == "replicated"
  {
    if files == [] then []
    else
      var rest := Eligible(files[..|files| - 1], status);
      assert forall i :: 0 <= i < |files| - 1 ==> files[..|files| - 1][i] == files[i];
      var name := files[|files| - 1].fileName;
      if name in status && status[name] == "replicated" then rest + [name] else rest
  }

  /** The chunk ids of `file`: the index keys, in key order, that start with
      `file + "_chunk_"` and do not contain `"replica"`. */
  function ChunkIds(keys: seq<string>, file: string): (r: seq<string>)
    ensures |r| <= |keys|
    ensures forall c :: c in r <==> c in keys && StartsWith(c, file + "_chunk_") && !Contains(c, "replica")
    ensures Distinct(keys) ==> Distinct(r)
  {
    if keys == [] then []
    else
      var rest := ChunkIds(keys[..|keys| - 1], file);
      var c := keys[|keys| - 1];
      assert forall i :: 0 <= i < |keys| - 1 ==> keys[..|keys| - 1][i] == keys[i];
      if StartsWith(c, file + "_chunk_") && !Contains(c, "replica") then rest + [c] else rest
  }

  /** `reverse_index.get(chunk_id, [])`. */
  function Listed(index: map<string, seq<string>>, chunk: string): seq<string> {
    if chunk in index then index[chunk] else []
  }

  /** Whether each node is online, in node order. */
  function OnlineFlags(ns: seq<SimNode>): (r: seq<bool>)
    reads ns
    ensures |r| == |ns| && forall i :: 0 <= i < |ns| ==> r[i] == ns[i].online
  {
    if ns == [] then [] else [ns[0].online] + OnlineFlags(ns[1..])
  }

  /** The nodes listed for a chunk that are online, in node order, given
      whether each node is online. */
  function Hosts(ns: seq<SimNode>, online: seq<bool>, listed: seq<string>): (r: seq<SimNode>)
    requires |online| == |ns|
    ensures |r| <= |ns|
  {
    if ns == [] then []
    else
      var k := |ns| - 1;
      var rest := Hosts(ns[..k], online[..k], listed);
      if ns[k].id in listed && online[k] then rest + [ns[k]] else rest
  }

  /** The hosts are exactly the online nodes whose id is listed. */
  lemma {:induction false} HostsExactly(ns: seq<SimNode>, online: seq<bool>, listed: seq<string>)
    requires |online| == |ns|
    ensures forall h :: h in Hosts(ns, online, listed) ==> exists i :: 0 <= i < |ns| && ns[i] == h && h.id in listed && online[i]
    ensures forall i :: 0 <= i < |ns| && ns[i].id in listed && online[i] ==> ns[i] in Hosts(ns, online, listed)
  {
    if ns != [] {
      var k := |ns| - 1;
      HostsExactly(ns[..k], online[..k], listed);
      assert forall i :: 0 <= i < k ==> ns[..k][i] == ns[i] && online[..k][i] == online[i];
    }
  }

  /** The jobs still in flight at `tick`, in order. */
  function Kept(jobs: seq<Job>, tick: int): (r: seq<Job>)
    ensures |r| <= |jobs|
    ensures forall j :: j in r <==> j in jobs && j.readyAt > tick
  {
    if jobs == [] then []
    else
      var rest := Kept(jobs[..|jobs| - 1], tick);
      var j := jobs[|jobs| - 1];
      assert forall i :: 0 <= i < |jobs| - 1 ==> jobs[..|jobs| - 1][i] == jobs[i];
      if j.readyAt > tick then rest + [j] else rest
  }

  /** The number of jobs for `file` that have finished by `tick`. */
  function DueFor(jobs: seq<Job>, file: string, tick: int): nat {
    if jobs == [] then 0
    else
      var j := jobs[|jobs| - 1];
      DueFor(jobs[..|jobs| - 1], file, tick) + (if j.readyAt <= tick && j.fileName == file then 1 else 0)
  }

  /** The first loop of `tick`, job after job: a finished job for a tracked
      file counts one more chunk; reaching the chunk total marks the file
      completed and records how long it took. */
  function DrainJobs(jobs: seq<Job>, active: map<string, Download>, durations: seq<int>, tick: int): Drained {
    if jobs == [] then Drained([], active, durations)
    else
      var r := DrainJobs(jobs[..|jobs| - 1], active, durations, tick);
      var j := jobs[|jobs| - 1];
      if tick < j.readyAt then Drained(r.kept + [j], r.active, r.durations)
      else if j.fileName !in r.active then r
      else
        var d := r.active[j.fileName];
        var count := d.chunksDownloaded + 1;
        if count >= d.chunksTotal then
          Drained(r.kept, r.active[j.fileName := d.(chunksDownloaded := count, completed := true)],
                  r.durations + [tick - d.startTick])
        else
          Drained(r.kept, r.active[j.fileName := d.(chunksDownloaded := count)], r.durations)
  }

  /** Draining keeps exactly the unfinished jobs, in order, tracks the
      same files, and only appends to the durations. */
  lemma {:induction false} DrainKeeps(jobs: seq<Job>, active: map<string, Download>, durations: seq<int>, tick: int)
    ensures var r := DrainJobs(jobs, active, durations, tick);
            && r.kept == Kept(jobs, tick)
            && r.active.Keys == active.Keys
            && |r.durations| >= |durations| && r.durations[..|durations|] == durations
  {
    if jobs != [] {
      var init := jobs[..|jobs| - 1];
      DrainKeeps(init, active, durations, tick);
      var r := DrainJobs(init, active, durations, tick);
      var j := jobs[|jobs| - 1];
      if tick >= j.readyAt && j.fileName in r.active {
        var d := r.active[j.fileName];
        assert (r.durations + [tick - d.startTick])[..|durations|] == r.durations[..|durations|];
      }
    }
  }

  /** Draining adds to each tracked file's count the number of its finished
      jobs, keeps its start and total, and marks it completed exactly when it
      already was or a finished job brought its count to the total. */
  lemma {:induction false} DrainCounts(jobs: seq<Job>, active: map<string, Download>, durations: seq<int>, tick: int, f: string)
    requires f in active
    ensures var r := DrainJobs(jobs, active, durations, tick);
            var n := DueFor(jobs, f, tick);
            && f in r.active
            && r.active[f].startTick == active[f].startTick
            && r.active[f].chunksTotal == active[f].chunksTotal
            && r.active[f].chunksDownloaded == active[f].chunksDownloaded + n
            && (r.active[f].completed <==> active[f].completed || (n > 0 && active[f].chunksDownloaded + n >= active[f].chunksTotal))
  {
    if jobs != [] {
      DrainCounts(jobs[..|jobs| - 1], active, durations, tick, f);
      DrainKeeps(jobs[..|jobs| - 1], active, durations, tick);
    }
  }

  /** `x` is how long ago, at `tick`, some tracked download started. */
  predicate AgeOfTracked(x: int, active: map<string, Download>, tick: int) {
    exists f :: f in active && x == tick - active[f].startTick
  }

  /** Every duration draining records is the age of a tracked download. */
  lemma {:induction false} DrainDurations(jobs: seq<Job>, active: map<string, Download>, durations: seq<int>, tick: int)
    ensures var r := DrainJobs(jobs, active, durations, tick);
            forall i :: |durations| <= i < |r.durations| ==> AgeOfTracked(r.durations[i], active, tick)
  {
    if jobs != [] {
      var init := jobs[..|jobs| - 1];
      DrainDurations(init, active, durations, tick);
      DrainKeeps(init, active, durations, tick);
      var r := DrainJobs(init, active, durations, tick);
      var j := jobs[|jobs| - 1];
      if tick >= j.readyAt && j.fileName in r.active && r.active[j.fileName].chunksDownloaded + 1 >= r.active[j.fileName].chunksTotal {
        DrainCounts(init, active, durations, tick, j.fileName);
        assert AgeOfTracked(tick - active[j.fileName].startTick, active, tick);
      }
    }
  }

  /** Job `j`, draining after `init`, is finished and brings its tracked
      file's count to the total: the count before it is the file's count
      plus the finished jobs for it in `init`. */
  predicate Completes(init: seq<Job>, j: Job, active: map<string, Download>, tick: int) {
    && j.readyAt <= tick && j.fileName in active
    && active[j.fileName].chunksDownloaded + DueFor(init, j.fileName, tick) + 1 >= active[j.fileName].chunksTotal
  }

  /** The number of jobs of `jobs` that complete their file when drained. */
  function Completions(jobs: seq<Job>, active: map<string, Download>, tick: int): nat {
    if jobs == [] then 0
    else
      var init := jobs[..|jobs| - 1];
      Completions(init, active, tick) + (if Completes(init, jobs[|jobs| - 1], active, tick) then 1 else 0)
  }

  /** Draining one more job appends `tick - start_tick` of its file exactly
      when the job completes the file, and appends nothing otherwise. */
  lemma DrainStep(jobs: seq<Job>, active: map<string, Download>, durations: seq<int>, tick: int)
    requires jobs != []
    ensures var init, j := jobs[..|jobs| - 1], jobs[|jobs| - 1];
            var before := DrainJobs(init, active, durations, tick).durations;
            var after := DrainJobs(jobs, active, durations, tick).durations;
            && (Completes(init, j, active, tick) ==> after == before + [tick - active[j.fileName].startTick])
            && (!Completes(init, j, active, tick) ==> after == before)
  {
    var init, j := jobs[..|jobs| - 1], jobs[|jobs| - 1];
    DrainKeeps(init, active, durations, tick);
    if j.fileName in active {
      DrainCounts(init, active, durations, tick, j.fileName);
    }
  }

  /** Draining appends one duration per job that completes its file. */
  lemma {:induction false} DrainDurationCount(jobs: seq<Job>, active: map<string, Download>, durations: seq<int>, tick: int)
    ensures |DrainJobs(jobs, active, durations, tick).durations| == |durations| + Completions(jobs, active, tick)
  {
    if jobs != [] {
      DrainDurationCount(jobs[..|jobs| - 1], active, durations, tick);
      DrainStep(jobs, active, durations, tick);
    }
  }

  /** Every job is either finished or kept, and the kept ones are all still
      in flight. */
  lemma {:induction false} KeptSplit(jobs: seq<Job>, tick: int)
    ensures |Kept(jobs, tick)| + DueCount(jobs, tick) == |jobs|
  {
    if jobs != [] {
      KeptSplit(jobs[..|jobs| - 1], tick);
    }
  }

  /** The number of jobs finished by `tick`. */
  function DueCount(jobs: seq<Job>, tick: int): nat {
    if jobs == [] then 0
    else DueCount(jobs[..|jobs| - 1], tick) + (if jobs[|jobs| - 1].readyAt <= tick then 1 else 0)
  }

  /** Outside `ids`, the schedule `after` has the same entries as `before`. */
  ghost predicate SameOutside(before: map<string, int>, after: map<string, int>, ids: set<string>) {
    forall id :: id !in ids ==> (id in after <==> id in before) && (id in after ==> after[id] == before[id])
  }

  /** Every entry of `after` that is new or changed lies 60 to 300 ticks after `tick`. */
  ghost predicate Rescheduled(before: map<string, int>, after: map<string, int>, tick: int) {
    forall id :: id in after && (id !in before || after[id] != before[id]) ==>
      tick + MinInterval <= after[id] <= tick + MaxInterval
  }

  lemma RescheduledTrans(a: map<string, int>, b: map<string, int>, c: map<string, int>, tick: int)
    requires Rescheduled(a, b, tick) && Rescheduled(b, c, tick)
    ensures Rescheduled(a, c, tick)
  {
  }

  lemma SameOutsideTrans(a: map<string, int>, b: map<string, int>, c: map<string, int>, ids: set<string>, more: set<string>)
    requires SameOutside(a, b, ids) && SameOutside(b, c, more)
    ensures SameOutside(a, c, ids + more)
  {
  }

  /** `after` is `prefix` followed by jobs that all end after `tick`. */
  ghost predicate ExtendedLater(prefix: seq<Job>, after: seq<Job>, tick: int) {
    |after| >= |prefix| && after[..|prefix|] == prefix
    && forall i :: |prefix| <= i < |after| ==> after[i].readyAt > tick
  }

  lemma ExtendedLaterStep(prefix: seq<Job>, mid: seq<Job>, after: seq<Job>, nodeId: string, tick: int)
    requires ExtendedLater(prefix, mid, tick)
    requires |after| >= |mid| && after[..|mid|] == mid
    requires forall i :: 0 <= i < |after| - |mid| ==> after[|mid|..][i].nodeId == nodeId && after[|mid|..][i].readyAt >= tick + 1
    ensures ExtendedLater(prefix, after, tick)
  {
    forall i | |mid| <= i < |after|
      ensures after[i].readyAt > tick
    {
      assert after[i] == after[|mid|..][i - |mid|];
    }
    assert after[..|prefix|] == mid[..|prefix|];
  }

  lemma ExtendedLaterTrans(a: seq<Job>, b: seq<Job>, c: seq<Job>, tick: int)
    requires ExtendedLater(a, b, tick) && ExtendedLater(b, c, tick)
    ensures ExtendedLater(a, c, tick)
  {
    assert c[..|a|] == c[..|b|][..|a|];
    forall i | |a| <= i < |c|
      ensures c[i].readyAt > tick
    {
      if i < |b| {
        assert c[i] == c[..|b|][i];
      }
    }
  }

  /** `downloaded_files.setdefault(node_id, []).append(file)`. */
  function WithDownload(m: map<string, seq<string>>, nodeId: string, file: string): (r: map<string, seq<string>>)
    ensures nodeId in r && r[nodeId] == (if nodeId in m then m[nodeId] else []) + [file]
    ensures forall id :: id != nodeId ==> (id in r <==> id in m) && (id in m ==> r[id] == m[id])
  {
    m[nodeId := (if nodeId in m then m[nodeId] else []) + [file]]
  }

  /** A job fetched from host `h` by a node downloading at `download`. */
  predicate FromHost(j: Job, h: SimNode, download: int, tick: int, chunkSizeMb: nat) {
    h.uploadSpeedMbS >= 1 && download >= 1 && j.readyAt == tick + TransferTicks(chunkSizeMb, h.uploadSpeedMbS, download)
  }

  class FileDownloader {
    const config: Config
    const nodes: seq<SimNode>
    const nal: InMemoryNetwork
    /** `reverse_index`: chunk id to the ids of the nodes holding it. */
    const reverseIndex: map<string, seq<string>>
    /** The keys of `reverse_index`, in insertion order. */
    const indexOrder: seq<string>
    const rng: Random

    /** `next_download_tick`: node id to the tick of its next request. */
    var nextDownloadTick: map<string, int>
    var pendingDownloads: seq<Job>
    var totalRequests: nat
    var successfulDownloads: nat
    var failedDownloads: nat
    var downloadDurations: seq<int>
    /** `downloaded_files`: node id to the names it downloaded. */
    var downloadedFiles: map<string, seq<string>>
    /** `active_downloads`: file name to its download record. */
    var activeDownloads: map<string, Download>

    /** Every request is counted once, as a success or a failure; the key
        order lists each index key once; every node moves data at a positive
        speed, so a transfer time is always defined. */
    predicate Valid()
      reads this
    {
      && totalRequests == successfulDownloads + failedDownloads
      && Distinct(indexOrder)
      && Elems(indexOrder) == reverseIndex.Keys
      && (forall i :: 0 <= i < |nodes| ==> nodes[i].uploadSpeedMbS >= 1 && nodes[i].downloadSpeedMbS >= 1)
    }

    /** `__init__`: no schedule, no job, no download, every counter zero. */
    constructor (config: Config, nodes: seq<SimNode>, nal: InMemoryNetwork, reverseIndex: map<string, seq<string>>,
                 indexOrder: seq<string>, rng: Random)
      requires Distinct(indexOrder) && Elems(indexOrder) == reverseIndex.Keys
      requires forall i :: 0 <= i < |nodes| ==> nodes[i].uploadSpeedMbS >= 1 && nodes[i].downloadSpeedMbS >= 1
      ensures this.config == config && this.nodes == nodes && this.nal == nal && this.rng == rng
      ensures this.reverseIndex == reverseIndex && this.indexOrder == indexOrder
      ensures nextDownloadTick == map[] && pendingDownloads == [] && downloadDurations == []
      ensures totalRequests == 0 && successfulDownloads == 0 && failedDownloads == 0
      ensures downloadedFiles == map[] && activeDownloads == map[]
      ensures Valid()
    {
      this.config := config;
      this.nodes := nodes;
      this.nal := nal;
      this.reverseIndex := reverseIndex;
      this.indexOrder := indexOrder;
      this.rng := rng;
      nextDownloadTick := map[];
      pendingDownloads := [];
      totalRequests := 0;
      successfulDownloads := 0;
      failedDownloads := 0;
      downloadDurations := [];
      downloadedFiles := map[];
      activeDownloads := map[];
    }

    /** Some online node holds `chunk`. */
    predicate Hosted(online: seq<bool>, chunk: string)
      requires |online| == |nodes|
    {
      exists i :: 0 <= i < |nodes| && online[i] && nodes[i].id in Listed(reverseIndex, chunk)
    }

    /** The chunks of `chunks` that some online node holds, in order. */
    function Served(online: seq<bool>, chunks: seq<string>): (r: seq<string>)
      requires |online| == |nodes|
      ensures |r| <= |chunks|
    {
      if chunks == [] then []
      else
        var c := chunks[|chunks| - 1];
        var rest := Served(online, chunks[..|chunks| - 1]);
        if Hosted(online, c) then rest + [c] else rest
    }

    /** The served chunks are exactly the chunks with an online host. */
    lemma {:induction false} ServedExactly(online: seq<bool>, chunks: seq<string>)
      requires |online| == |nodes|
      ensures forall c :: c in Served(online, chunks) <==> c in chunks && Hosted(online, c)
    {
      if chunks != [] {
        var init := chunks[..|chunks| - 1];
        ServedExactly(online, init);
        assert forall i :: 0 <= i < |init| ==> init[i] == chunks[i];
        assert chunks == init + [chunks[|chunks| - 1]];
      }
    }

    /** Every chunk is served exactly when every chunk has a host. */
    lemma {:induction false} ServedAll(online: seq<bool>, chunks: seq<string>)
      requires |online| == |nodes|
      ensures |Served(online, chunks)| == |chunks| <==> AllHosted(online, chunks)
    {
      if chunks != [] {
        var n := |chunks| - 1;
        var init, c := chunks[..n], chunks[n];
        ServedAll(online, init);
        if AllHosted(online, chunks) {
          forall i | 0 <= i < n ensures Hosted(online, init[i]) {
            assert init[i] == chunks[i];
          }
        } else if |Served(online, chunks)| == |chunks| {
          assert Hosted(online, c) && |Served(online, init)| == n;
          forall i | 0 <= i < |chunks| ensures Hosted(online, chunks[i]) {
            if i < n {
              assert chunks[i] == init[i];
            }
          }
        }
      }
    }

    /** The job for `chunk` of `file`, requested by `node` at `tick`, fetched
        from an online node that holds the chunk. */
    predicate JobFor(online: seq<bool>, j: Job, chunk: string, node: SimNode, file: string, tick: int)
      requires |online| == |nodes|
    {
      && j.chunkId == chunk && j.fileName == file && j.nodeId == node.id
      && exists h :: h in Hosts(nodes, online, Listed(reverseIndex, chunk)) && FromHost(j, h, node.downloadSpeedMbS, tick, config.chunkSizeMb)
    }

    /** One job per chunk of `served`, in order. */
    predicate JobsFor(online: seq<bool>, jobs: seq<Job>, served: seq<string>, node: SimNode, file: string, tick: int)
      requires |online| == |nodes|
    {
      |jobs| == |served| && forall i :: 0 <= i < |jobs| ==> JobFor(online, jobs[i], served[i], node, file, tick)
    }

    /** `after` is `before` followed by one job per hosted chunk of `chunks`. */
    predicate Issued(online: seq<bool>, before: seq<Job>, after: seq<Job>, chunks: seq<string>, node: SimNode, file: string, tick: int)
      requires |online| == |nodes|
    {
      |after| >= |before| && after[..|before|] == before && JobsFor(online, after[|before|..], Served(online, chunks), node, file, tick)
    }

    /** `_next_trigger(current_tick)`. */
    method NextTrigger(currentTick: int) returns (t: int)
      modifies rng
      ensures t == currentTick + IntIn(MinInterval, MaxInterval, rng.source(old(rng.pos))) && rng.pos == old(rng.pos) + 1
      ensures currentTick + MinInterval <= t <= currentTick + MaxInterval
    {
      var delay := rng.RandInt(MinInterval, MaxInterval);
      t := currentTick + delay;
    }

    /** `schedule_next(node_id, current_tick)`. */
    method ScheduleNext(nodeId: string, currentTick: int)
      modifies this`nextDownloadTick, rng
      ensures nodeId in nextDownloadTick
      ensures nextDownloadTick == old(nextDownloadTick)[nodeId := nextDownloadTick[nodeId]]
      ensures currentTick + MinInterval <= nextDownloadTick[nodeId] <= currentTick + MaxInterval
      ensures rng.pos == old(rng.pos) + 1
    {
      var t := NextTrigger(currentTick);
      nextDownloadTick := nextDownloadTick[nodeId := t];
    }

    /** The first loop of `tick`. */
    method Drain(currentTick: int)
      modifies this`pendingDownloads, this`activeDownloads, this`downloadDurations
      ensures var r := DrainJobs(old(pendingDownloads), old(activeDownloads), old(downloadDurations), currentTick);
              pendingDownloads == r.kept && activeDownloads == r.active && downloadDurations == r.durations
    {
      var queue := pendingDownloads;
      ghost var active0, durations0 := activeDownloads, downloadDurations;
      var stillPending: seq<Job> := [];
      var i := 0;
      while i < |queue|
        invariant 0 <= i <= |queue|
        invariant Drained(stillPending, activeDownloads, downloadDurations) == DrainJobs(queue[..i], active0, durations0, currentTick)
      {
        assert queue[..i + 1][..i] == queue[..i];
        var job := queue[i];
        if currentTick < job.readyAt {
          stillPending := stillPending + [job];
        } else if job.fileName in activeDownloads {
          var d := activeDownloads[job.fileName];
          var count := d.chunksDownloaded + 1;
          if count >= d.chunksTotal {
            activeDownloads := activeDownloads[job.fileName := d.(chunksDownloaded := count, completed := true)];
            downloadDurations := downloadDurations + [currentTick - d.startTick];
          } else {
            activeDownloads := activeDownloads[job.fileName := d.(chunksDownloaded := count)];
          }
        }
        i := i + 1;
      }
      assert queue[..i] == queue;
      pendingDownloads := stillPending;
    }

    /** The chunk loop of a request: one job per chunk that has an online
        host, fetched from a host drawn among them; a chunk without one is
        skipped. Returns the chunks scheduled. */
    method IssueJobs(online: seq<bool>, node: SimNode, file: string, chunks: seq<string>, currentTick: int) returns (scheduled: seq<string>)
      requires Valid() && node in nodes && Distinct(chunks) && |online| == |nodes|
      modifies this`pendingDownloads, rng
      ensures scheduled == Served(online, chunks)
      ensures Issued(online, old(pendingDownloads), pendingDownloads, chunks, node, file, currentTick)
    {
      ghost var before := pendingDownloads;
      scheduled := [];
      var i := 0;
      while i < |chunks|
        invariant 0 <= i <= |chunks|
        invariant scheduled == Served(online, chunks[..i])
        invariant Issued(online, before, pendingDownloads, chunks[..i], node, file, currentTick)
      {
        ghost var mid := pendingDownloads;
        var job := IssueOne(online, node, file, chunks[i], currentTick);
        IssuedStep(online, before, mid, pendingDownloads, chunks, i, job, node, file, currentTick);
        if job.Some? {
          scheduled := scheduled + [chunks[i]];
        }
        i := i + 1;
      }
      assert chunks[..i] == chunks;
    }

    /** One more chunk of the loop keeps `Issued`: the job, if any, is the
        next one, and the served chunks grow by the chunk exactly when it has
        a host. */
    lemma IssuedStep(online: seq<bool>, before: seq<Job>, mid: seq<Job>, after: seq<Job>, chunks: seq<string>, i: nat,
                     job: Option<Job>, node: SimNode, file: string, tick: int)
      requires |online| == |nodes| && i < |chunks|
      requires Issued(online, before, mid, chunks[..i], node, file, tick)
      requires job.Some? <==> Hosted(online, chunks[i])
      requires job.Some? ==> JobFor(online, job.value, chunks[i], node, file, tick)
      requires after == mid + (if job.Some? then [job.value] else [])
      ensures Served(online, chunks[..i + 1]) == Served(online, chunks[..i]) + (if job.Some? then [chunks[i]] else [])
      ensures Issued(online, before, after, chunks[..i + 1], node, file, tick)
    {
      ServedStep(online, chunks, i);
      var served := Served(online, chunks[..i]);
      assert after[..|before|] == before by {
        assert after[..|before|] == mid[..|before|];
      }
      if job.Some? {
        JobsForSnoc(online, mid[|before|..], served, job.value, chunks[i], node, file, tick);
        assert after[|before|..] == mid[|before|..] + [job.value];
      } else {
        assert after[|before|..] == mid[|before|..];
      }
    }

    lemma ServedStep(online: seq<bool>, chunks: seq<string>, i: nat)
      requires |online| == |nodes| && i < |chunks|
      ensures Served(online, chunks[..i + 1]) == Served(online, chunks[..i]) + (if Hosted(online, chunks[i]) then [chunks[i]] else [])
    {
      assert chunks[..i + 1][..i] == chunks[..i];
    }

    lemma JobsForSnoc(online: seq<bool>, jobs: seq<Job>, served: seq<string>, j: Job, chunk: string, node: SimNode, file: string, tick: int)
      requires |online| == |nodes|
      requires JobsFor(online, jobs, served, node, file, tick) && JobFor(online, j, chunk, node, file, tick)
      ensures JobsFor(online, jobs + [j], served + [chunk], node, file, tick)
    {
      var js, ss := jobs + [j], served + [chunk];
      forall k | 0 <= k < |js|
        ensures JobFor(online, js[k], ss[k], node, file, tick)
      {
        if k < |jobs| {
          assert js[k] == jobs[k] && ss[k] == served[k];
        }
      }
    }

    /** One step of the chunk loop: when some online node holds `chunk`, a
        host is drawn among them and the transfer from it is queued. */
    method IssueOne(online: seq<bool>, node: SimNode, file: string, chunk: string, currentTick: int) returns (job: Option<Job>)
      requires Valid() && node in nodes && |online| == |nodes|
      modifies this`pendingDownloads, rng
      ensures job.Some? <==> Hosted(online, chunk)
      ensures job.Some? ==> JobFor(online, job.value, chunk, node, file, currentTick)
      ensures pendingDownloads == old(pendingDownloads) + (if job.Some? then [job.value] else [])
    {
      var hosts := Hosts(nodes, online, Listed(reverseIndex, chunk));
      HostsExactly(nodes, online, Listed(reverseIndex, chunk));
      if hosts == [] {
        return None;
      }
      var k := rng.Choice(|hosts|);
      var source := hosts[k];
      assert source in hosts;
      ghost var at :| 0 <= at < |nodes| && nodes[at] == source;
      var ticks := TransferTicks(config.chunkSizeMb, source.uploadSpeedMbS, node.downloadSpeedMbS);
      var j := Job(chunk, file, node.id, currentTick + ticks);
      assert FromHost(j, source, node.downloadSpeedMbS, currentTick, config.chunkSizeMb);
      pendingDownloads := pendingDownloads + [j];
      job := Some(j);
    }

    /** Every chunk of `chunks` has an online host. */
    predicate AllHosted(online: seq<bool>, chunks: seq<string>)
      requires |online| == |nodes|
    {
      forall i :: 0 <= i < |chunks| ==> Hosted(online, chunks[i])
    }

    /** The counters at the end of a request: one more request, counted as a
        success, which adds the file to the node's downloads, or a failure. */
    method Record(nodeId: string, file: string, ok: bool)
      requires Valid()
      modifies this`totalRequests, this`successfulDownloads, this`failedDownloads, this`downloadedFiles
      ensures Valid() && totalRequests == old(totalRequests) + 1
      ensures ok ==> && successfulDownloads == old(successfulDownloads) + 1 && failedDownloads == old(failedDownloads)
                     && downloadedFiles == WithDownload(old(downloadedFiles), nodeId, file)
      ensures !ok ==> && successfulDownloads == old(successfulDownloads) && failedDownloads == old(failedDownloads) + 1
                      && downloadedFiles == old(downloadedFiles)
    {
      totalRequests := totalRequests + 1;
      if ok {
        successfulDownloads := successfulDownloads + 1;
        downloadedFiles := WithDownload(downloadedFiles, nodeId, file);
      } else {
        failedDownloads := failedDownloads + 1;
      }
    }

    /** A request by `nodes[k]` for `file`: with no chunk id it fails at
        once; otherwise the file's record is reset, a job is issued per
        hosted chunk, and the request succeeds, adding the file to the
        node's downloads, exactly when every chunk had a host. */
    method Request(online: seq<bool>, k: nat, file: string, currentTick: int)
      requires Valid() && k < |nodes| && |online| == |nodes|
      modifies this`pendingDownloads, this`totalRequests, this`successfulDownloads, this`failedDownloads,
               this`downloadedFiles, this`activeDownloads, rng
      ensures Valid() && totalRequests == old(totalRequests) + 1
      ensures ChunkIds(indexOrder, file) == [] ==>
                && pendingDownloads == old(pendingDownloads) && activeDownloads == old(activeDownloads)
      ensures ChunkIds(indexOrder, file) != [] ==>
                && activeDownloads == old(activeDownloads)[file := Download(currentTick, |ChunkIds(indexOrder, file)|, 0, false)]
                && Issued(online, old(pendingDownloads), pendingDownloads, ChunkIds(indexOrder, file), nodes[k], file, currentTick)
      ensures var ok := ChunkIds(indexOrder, file) != [] && AllHosted(online, ChunkIds(indexOrder, file));
              && (ok ==> && successfulDownloads == old(successfulDownloads) + 1 && failedDownloads == old(failedDownloads)
                         && downloadedFiles == WithDownload(old(downloadedFiles), nodes[k].id, file))
              && (!ok ==> && successfulDownloads == old(successfulDownloads) && failedDownloads == old(failedDownloads) + 1
                          && downloadedFiles == old(downloadedFiles))
    {
      var node := nodes[k];
      var chunks := ChunkIds(indexOrder, file);
      if chunks == [] {
        Record(node.id, file, false);
        return;
      }
      activeDownloads := activeDownloads[file := Download(currentTick, |chunks|, 0, false)];
      RequestChunks(online, k, file, chunks, currentTick);
    }

    /** The part of `request_file` for a file with chunks, given the online
        flags of the population: the chunk jobs and the outcome counters. */
    method RequestChunks(online: seq<bool>, k: nat, file: string, chunks: seq<string>, currentTick: int)
      requires Valid() && k < |nodes| && |online| == |nodes| && Distinct(chunks)
      modifies this`pendingDownloads, this`totalRequests, this`successfulDownloads, this`failedDownloads,
               this`downloadedFiles, rng
      ensures Valid() && totalRequests == old(totalRequests) + 1
      ensures Issued(online, old(pendingDownloads), pendingDownloads, chunks, nodes[k], file, currentTick)
      ensures AllHosted(online, chunks) ==>
                && successfulDownloads == old(successfulDownloads) + 1 && failedDownloads == old(failedDownloads)
                && downloadedFiles == WithDownload(old(downloadedFiles), nodes[k].id, file)
      ensures !AllHosted(online, chunks) ==>
                && successfulDownloads == old(successfulDownloads) && failedDownloads == old(failedDownloads) + 1
                && downloadedFiles == old(downloadedFiles)
    {
      var node := nodes[k];
      var scheduled := IssueJobs(online, node, file, chunks, currentTick);
      ServedAll(online, chunks);
      Record(node.id, file, |scheduled| == |chunks|);
    }

    /** Jobs issued at `tick` by a node with id `nodeId`: each ends at least
        one tick later. */
    predicate IssuedBy(jobs: seq<Job>, nodeId: string, tick: int) {
      forall i :: 0 <= i < |jobs| ==> jobs[i].nodeId == nodeId && jobs[i].readyAt >= tick + 1
    }

    lemma IssuedLater(online: seq<bool>, before: seq<Job>, after: seq<Job>, chunks: seq<string>, node: SimNode, file: string, tick: int)
      requires |online| == |nodes|
      requires Issued(online, before, after, chunks, node, file, tick)
      ensures IssuedBy(after[|before|..], node.id, tick)
    {
      var added := after[|before|..];
      forall i | 0 <= i < |added|
        ensures added[i].nodeId == node.id && added[i].readyAt >= tick + 1
      {
        assert JobFor(online, added[i], Served(online, chunks)[i], node, file, tick);
      }
    }

    /** One pass of the node loop of `tick` for `nodes[k]`. An offline node
        is skipped. An online node without a schedule is given one and waits.
        Once its tick has come, a node without a replicated file is only
        rescheduled; otherwise it requests one of its replicated files (the
        returned name) and is rescheduled. */
    method ServeNode(online: seq<bool>, k: nat, currentTick: int) returns (requested: Option<string>)
      requires Valid() && k < |nodes| && |online| == |nodes|
      modifies this`nextDownloadTick, this`pendingDownloads, this`totalRequests, this`successfulDownloads,
               this`failedDownloads, this`downloadedFiles, this`activeDownloads, rng
      ensures Valid()
      ensures var id := nodes[k].id;
              var due := id in old(nextDownloadTick) && currentTick >= old(nextDownloadTick)[id];
              var eligible := Eligible(nodes[k].filesUploaded, nodes[k].replicationStatus);
              && (!online[k] ==> requested.None? && nextDownloadTick == old(nextDownloadTick))
              && (online[k] && !due ==>
                    && requested.None? && id in nextDownloadTick && nextDownloadTick == old(nextDownloadTick)[id := nextDownloadTick[id]]
                    && (id in old(nextDownloadTick) ==> nextDownloadTick[id] == old(nextDownloadTick)[id]))
              && (online[k] && due ==>
                    && (requested.Some? <==> eligible != []) && id in nextDownloadTick
                    && nextDownloadTick == old(nextDownloadTick)[id := nextDownloadTick[id]])
              && Rescheduled(old(nextDownloadTick), nextDownloadTick, currentTick)
      ensures requested.None? ==> && pendingDownloads == old(pendingDownloads) && activeDownloads == old(activeDownloads)
                                  && totalRequests == old(totalRequests) && successfulDownloads == old(successfulDownloads)
                                  && failedDownloads == old(failedDownloads) && downloadedFiles == old(downloadedFiles)
      ensures requested.Some? ==>
                var file := requested.value;
                var chunks := ChunkIds(indexOrder, file);
                var ok := chunks != [] && AllHosted(online, chunks);
                && file in Eligible(nodes[k].filesUploaded, nodes[k].replicationStatus)
                && totalRequests == old(totalRequests) + 1
                && |pendingDownloads| >= |old(pendingDownloads)| && pendingDownloads[..|old(pendingDownloads)|] == old(pendingDownloads)
                && IssuedBy(pendingDownloads[|old(pendingDownloads)|..], nodes[k].id, currentTick)
                && (chunks != [] ==> Issued(online, old(pendingDownloads), pendingDownloads, chunks, nodes[k], file, currentTick))
                && (ok ==> && successfulDownloads == old(successfulDownloads) + 1 && failedDownloads == old(failedDownloads)
                           && downloadedFiles == WithDownload(old(downloadedFiles), nodes[k].id, file))
                && (!ok ==> && successfulDownloads == old(successfulDownloads) && failedDownloads == old(failedDownloads) + 1
                            && downloadedFiles == old(downloadedFiles))
    {
      requested := None;
      var node := nodes[k];
      if !online[k] {
        return;
      }
      if node.id !in nextDownloadTick {
        ScheduleNext(node.id, currentTick);
      }
      if currentTick < nextDownloadTick[node.id] {
        return;
      }
      var eligible := Eligible(node.filesUploaded, node.replicationStatus);
      if eligible == [] {
        ScheduleNext(node.id, currentTick);
        return;
      }
      var pick := rng.Choice(|eligible|);
      var file := eligible[pick];
      ghost var before := pendingDownloads;
      Request(online, k, file, currentTick);
      if ChunkIds(indexOrder, file) != [] {
        IssuedLater(online, before, pendingDownloads, ChunkIds(indexOrder, file), node, file, currentTick);
      } else {
        assert pendingDownloads[|before|..] == [];
      }
      ScheduleNext(node.id, currentTick);
      requested := Some(file);
    }

    /** `ServeNode` seen from the node loop of `tick`: the counters only
        grow, the queue only gains jobs that end after this tick, and only
        this node's schedule may change, 60 to 300 ticks ahead. */
    method ServeInTick(online: seq<bool>, k: nat, currentTick: int)
      requires Valid() && k < |nodes| && |online| == |nodes|
      modifies this`nextDownloadTick, this`pendingDownloads, this`totalRequests, this`successfulDownloads,
               this`failedDownloads, this`downloadedFiles, this`activeDownloads, rng
      ensures Valid()
      ensures totalRequests >= old(totalRequests) && successfulDownloads >= old(successfulDownloads)
      ensures failedDownloads >= old(failedDownloads)
      ensures ExtendedLater(old(pendingDownloads), pendingDownloads, currentTick)
      ensures SameOutside(old(nextDownloadTick), nextDownloadTick, if online[k] then {nodes[k].id} else {})
      ensures Rescheduled(old(nextDownloadTick), nextDownloadTick, currentTick)
    {
      ghost var pending0 := pendingDownloads;
      var requested := ServeNode(online, k, currentTick);
      if requested.Some? {
        ExtendedLaterStep(pending0, pending0, pendingDownloads, nodes[k].id, currentTick);
      }
    }

    /** The ids of the nodes among the first `k` that are online. */
    function OnlineIdsBelow(online: seq<bool>, k: nat): (ids: set<string>)
      requires k <= |online| == |nodes|
      ensures forall i :: 0 <= i < k && online[i] ==> nodes[i].id in ids
      ensures forall id :: id in ids ==> exists i :: 0 <= i < k && online[i] && nodes[i].id == id
    {
      if k == 0 then {}
      else OnlineIdsBelow(online, k - 1) + (if online[k - 1] then {nodes[k - 1].id} else {})
    }

    /** `tick(current_tick)`: the finished transfers are drained, then every
        node is served in order. Every request is counted once as a success
        or a failure; the unfinished transfers stay first, in order, and every
        new transfer ends after this tick; the durations are those draining
        records; only online nodes are (re)scheduled, each 60 to 300 ticks
        ahead. */
    method Tick(currentTick: int)
      requires Valid()
      modifies this`nextDownloadTick, this`pendingDownloads, this`totalRequests, this`successfulDownloads,
               this`failedDownloads, this`downloadedFiles, this`activeDownloads, this`downloadDurations, rng
      ensures Valid() && totalRequests == successfulDownloads + failedDownloads
      ensures totalRequests >= old(totalRequests) && successfulDownloads >= old(successfulDownloads)
      ensures failedDownloads >= old(failedDownloads)
      ensures ExtendedLater(Kept(old(pendingDownloads), currentTick), pendingDownloads, currentTick)
      ensures downloadDurations == DrainJobs(old(pendingDownloads), old(activeDownloads), old(downloadDurations), currentTick).durations
      ensures SameOutside(old(nextDownloadTick), nextDownloadTick, OnlineIdsBelow(old(OnlineFlags(nodes)), |nodes|))
      ensures Rescheduled(old(nextDownloadTick), nextDownloadTick, currentTick)
    {
      var online := OnlineFlags(nodes);
      Drain(currentTick);
      DrainKeeps(old(pendingDownloads), old(activeDownloads), old(downloadDurations), currentTick);
      ghost var kept := pendingDownloads;
      ghost var next0 := nextDownloadTick;
      var k := 0;
      while k < |nodes|
        invariant 0 <= k <= |nodes|
        invariant Valid()
        invariant totalRequests >= old(totalRequests) && successfulDownloads >= old(successfulDownloads)
        invariant failedDownloads >= old(failedDownloads)
        invariant ExtendedLater(kept, pendingDownloads, currentTick)
        invariant downloadDurations == DrainJobs(old(pendingDownloads), old(activeDownloads), old(downloadDurations), currentTick).durations
        invariant SameOutside(next0, nextDownloadTick, OnlineIdsBelow(online, k))
        invariant Rescheduled(next0, nextDownloadTick, currentTick)
      {
        ghost var pending0 := pendingDownloads;
        ghost var nextBefore := nextDownloadTick;
        ServeInTick(online, k, currentTick);
        ExtendedLaterTrans(kept, pending0, pendingDownloads, currentTick);
        RescheduledTrans(next0, nextBefore, nextDownloadTick, currentTick);
        SameOutsideTrans(next0, nextBefore, nextDownloadTick, OnlineIdsBelow(online, k), if online[k] then {nodes[k].id} else {});
        k := k + 1;
      }
    }
  }
}
