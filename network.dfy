/** The simulated nodes and the in-memory network backend they talk to. Both
    live in one module because each refers to the other: a node holds its
    backend, and the backend's directory maps peer ids to nodes.

    Dictionaries whose iteration order the code observes (`peers`,
    `peer_nodes`) are a map plus the sequence of their keys in insertion
    order. The backend's `defaultdict`s insert an empty entry when an absent
    key is read; here an absent entry simply reads as empty (`Entries`), which
    no operation can tell apart. */
module Network {
  import opened Common
  import opened Rng
  import opened Text
  import opened Ranking
  import opened NodeBehavior
  import opened ImportFiles
  import opened SimConfig

  /** The `capabilities` dictionary a node announces. */
  datatype Capabilities = Capabilities(uploadSpeed: int, downloadSpeed: int, storageGb: int)

  /** The metadata `announce_self` records for a peer. */
  datatype PeerMeta = PeerMeta(port: int, capabilities: Capabilities)

  /** A manifest dictionary maps chunk ids to the peer holding the chunk, and
      the key `"manifest"` to the pushed encrypted manifest. */
  datatype ManifestEntry = ChunkLocation(peer: string) | ManifestBlob(data: Bytes)

  /** One entry of `receive_peer_updates`. */
  datatype PeerUpdate = PeerUpdate(peerId: string, score: real)

  /** The port every node announces itself on. */
  const AnnouncePort: int := 5200

  /** At most this many peers are returned by `announce_self` and `fetch_peer_list`. */
  const PeerListLimit: nat := 20

  const ManifestKey: string := "manifest"

  /** `d[k]` on a `defaultdict(dict)` when only reading: an absent key reads as `{}`. */
  function Entries<V>(d: map<string, map<string, V>>, k: string): map<string, V> {
    if k in d then d[k] else map[]
  }

  /** The ids of `order`, in order, other than `self` and among `onlineIds`:
      the candidate list of `announce_self` and `fetch_peer_list`. */
  function Candidates(order: seq<string>, onlineIds: set<string>, self: string): (c: seq<string>)
    ensures forall id :: id in c <==> id in order && id != self && id in onlineIds
    ensures Distinct(order) ==> Distinct(c)
  {
    if order == [] then []
    else
      var rest := Candidates(order[1..], onlineIds, self);
      assert Distinct(order) ==> order[0] !in order[1..];
      if order[0] != self && order[0] in onlineIds then [order[0]] + rest else rest
  }

  /** The first `PeerListLimit` candidates by descending score, a missing
      score counting as 0.0, ties broken by id. */
  function TopIds(order: seq<string>, onlineIds: set<string>, scores: map<string, real>, self: string): (top: seq<string>)
    ensures |top| == Min(|Candidates(order, onlineIds, self)|, PeerListLimit)
    ensures forall id :: id in top ==> id in order && id != self && id in onlineIds
  {
    var cands := Candidates(order, onlineIds, self);
    var ranked := SortByRank(scores, cands);
    var top := ranked[..Min(|ranked|, PeerListLimit)];
    assert forall id :: id in top ==> id in cands by {
      forall id | id in top
        ensures id in cands
      {
        assert id in ranked;
        assert id in multiset(ranked);
        assert id in multiset(cands);
      }
    }
    top
  }

  /** The announced peers are distinct, online and not the caller, sorted by
      rank, and every candidate left out ranks after every one kept. */
  lemma TopIdsProperties(order: seq<string>, onlineIds: set<string>, scores: map<string, real>, self: string)
    requires Distinct(order)
    ensures var top := TopIds(order, onlineIds, scores, self);
            && Distinct(top)
            && SortedByRank(scores, top)
            && (forall id :: id in top ==> id in order && id != self && id in onlineIds)
            && (forall c, t :: c in Candidates(order, onlineIds, self) && c !in top && t in top ==> RankedBefore(scores, t, c))
  {
    var cands := Candidates(order, onlineIds, self);
    var ranked := SortByRank(scores, cands);
    var k := Min(|ranked|, PeerListLimit);
    var top := ranked[..k];
    SortByRankSorted(scores, cands);
    SortedDistinct(scores, ranked);
    assert top == TopIds(order, onlineIds, scores, self);
    forall c, t | c in cands && c !in top && t in top
      ensures RankedBefore(scores, t, c)
    {
      assert c in multiset(ranked);
      var j :| 0 <= j < |ranked| && ranked[j] == c;
      var i :| 0 <= i < k && top[i] == t;
      assert j >= k;
    }
  }

  /** Any other arrangement of the candidates by the same key starts with the
      same peers: the ranking is unique, whatever sort produced it. */
  lemma TopIdsOfAnyRanking(order: seq<string>, onlineIds: set<string>, scores: map<string, real>, self: string, s: seq<string>)
    requires multiset(s) == multiset(Candidates(order, onlineIds, self)) && SortedByRank(scores, s)
    requires Distinct(order)
    ensures TopIds(order, onlineIds, scores, self) == s[..Min(|s|, PeerListLimit)]
  {
    var cands := Candidates(order, onlineIds, self);
    SortByRankSorted(scores, cands);
    SortedUnique(scores, SortByRank(scores, cands), s);
  }

  /** The ids of a list of peer updates. */
  function UpdateIds(us: seq<PeerUpdate>): (ids: seq<string>)
    ensures |ids| == |us| && forall i :: 0 <= i < |us| ==> ids[i] == us[i].peerId
  {
    seq(|us|, i requires 0 <= i < |us| => us[i].peerId)
  }

  /** `SimNode`: a peer's capacity, availability state and join state. */
  class SimNode {
    const id: string
    const uploadSpeedMbS: int
    const downloadSpeedMbS: int
    const totalSpaceGb: int
    const isNewUser: bool
    const config: Config
    const nal: InMemoryNetwork
    /** `config.child_rng(f"node_rng_{id}")`, drawn by the daylight test and the join jitter. */
    const cachedRng: Random

    var freeSpaceGb: int
    var online: bool
    var knownPeers: set<SimNode>
    var joinTick: Option<int>
    var hostedChunks: set<string>
    var hasJoined: bool
    var lastBootstrapTick: Option<int>
    var wasOnlineLastTick: bool
    /** The blackout override (`None` when not set). */
    var forceOfflineUntil: Option<int>
    var timezoneOffset: Option<int>
    var filesUploaded: seq<SimFile>
    var roundRobinIndex: int
    var behaviorProfile: Option<RollingProfile>
    /** File name to replication state; never set by the modelled code, so empty
        until an outside component writes it. */
    var replicationStatus: map<string, string>

    /** A node as it is created: all space free, offline, not joined, no
        peers, chunks, files, override or timezone. */
    constructor (id: string, uploadSpeedMbS: int, downloadSpeedMbS: int, totalSpaceGb: int,
                 isNewUser: bool, config: Config, nal: InMemoryNetwork)
      ensures this.id == id && this.uploadSpeedMbS == uploadSpeedMbS && this.downloadSpeedMbS == downloadSpeedMbS
      ensures this.totalSpaceGb == totalSpaceGb && this.isNewUser == isNewUser
      ensures this.config == config && this.nal == nal
      ensures fresh(cachedRng) && cachedRng.source == config.childSource("node_rng_" + id) && cachedRng.pos == 0
      ensures freeSpaceGb == totalSpaceGb && !online && !hasJoined && !wasOnlineLastTick
      ensures knownPeers == {} && hostedChunks == {} && filesUploaded == []
      ensures joinTick == None && lastBootstrapTick == None && forceOfflineUntil == None && timezoneOffset == None
      ensures roundRobinIndex == 0 && behaviorProfile == None && replicationStatus == map[]
    {
      this.id := id;
      this.uploadSpeedMbS := uploadSpeedMbS;
      this.downloadSpeedMbS := downloadSpeedMbS;
      this.totalSpaceGb := totalSpaceGb;
      this.isNewUser := isNewUser;
      this.config := config;
      this.nal := nal;
      cachedRng := new Random(config.childSource("node_rng_" + id));
      freeSpaceGb := totalSpaceGb;
      online := false;
      knownPeers := {};
      joinTick := None;
      hostedChunks := {};
      hasJoined := false;
      lastBootstrapTick := None;
      wasOnlineLastTick := false;
      forceOfflineUntil := None;
      timezoneOffset := None;
      filesUploaded := [];
      roundRobinIndex := 0;
      behaviorProfile := None;
      replicationStatus := map[];
    }

    /** `behavior_profile.is_online(tick, self)`: the availability rule on this
        node's override and timezone, drawing the daylight test from this
        node's generator only when the rule reaches it. */
    method ProfileOnline(tick: int) returns (r: bool)
      requires behaviorProfile.Some?
      modifies cachedRng
      ensures r == IsOnline(behaviorProfile.value, tick, forceOfflineUntil, timezoneOffset, config.daylightCurve,
                            UnitOf(cachedRng.source(old(cachedRng.pos))))
      ensures cachedRng.pos == old(cachedRng.pos) +
                (if DaylightDrawn(behaviorProfile.value, tick, forceOfflineUntil, timezoneOffset) then 1 else 0)
    {
      var p := behaviorProfile.value;
      if Forced(forceOfflineUntil, tick) {
        r := false;
      } else if timezoneOffset.None? || !CycleOnline(p, tick) {
        r := CycleOnline(p, tick);
      } else {
        var u := cachedRng.RandomUnit();
        r := u < config.daylightCurve(LocalTime(tick, timezoneOffset.value));
      }
    }

    /** The node's side of a join: the join tick, the joined flag and the
        announced peers added to the known ones. */
    method RecordJoin(currentTick: int, announced: seq<SimNode>)
      modifies this`joinTick, this`knownPeers, this`hasJoined
      ensures joinTick == Some(currentTick) && hasJoined && knownPeers == old(knownPeers) + Elems(announced)
      ensures nal.OnlineIds() == old(nal.OnlineIds())
    {
      joinTick := Some(currentTick);
      knownPeers := knownPeers + Elems(announced);
      hasJoined := true;
    }

    /** `attempt_join`: registers with the backend under its own id, draws the
        (unused) jitter, announces itself and adds the announced peers. */
    method AttemptJoin(currentTick: int)
      requires nal.Valid()
      modifies this`joinTick, this`knownPeers, this`hasJoined, cachedRng
      modifies nal`peerNodes, nal`nodeOrder, nal`peerChunks, nal`peers, nal`peerOrder, nal.rng
      ensures nal.Valid()
      ensures nal.peerNodes == old(nal.peerNodes)[id := this]
      ensures nal.peers == old(nal.peers)[id := PeerMeta(AnnouncePort, Capabilities(uploadSpeedMbS, downloadSpeedMbS, totalSpaceGb))]
      ensures nal.peerChunks == if id in old(nal.peerChunks) then old(nal.peerChunks) else old(nal.peerChunks)[id := map[]]
      ensures joinTick == Some(currentTick) && hasJoined
      ensures knownPeers == old(knownPeers) + Elems(nal.TopNodes(id, nal.OnlineIds()))
      ensures forall n :: n in knownPeers - old(knownPeers) ==> n in nal.peerNodes.Values && n.online
      ensures freeSpaceGb == old(freeSpaceGb) && hostedChunks == old(hostedChunks) && online == old(online)
    {
      nal.RegisterPeer(id, this);
      var _ := cachedRng.RandomUnit();
      AnnounceAndRecord(currentTick);
    }

    /** The second half of `attempt_join`: the announcement and its result. */
    method AnnounceAndRecord(currentTick: int)
      requires nal.Valid()
      modifies this`joinTick, this`knownPeers, this`hasJoined, nal`peers, nal`peerOrder, nal.rng
      ensures nal.Valid()
      ensures nal.peers == old(nal.peers)[id := PeerMeta(AnnouncePort, Capabilities(uploadSpeedMbS, downloadSpeedMbS, totalSpaceGb))]
      ensures joinTick == Some(currentTick) && hasJoined
      ensures knownPeers == old(knownPeers) + Elems(nal.TopNodes(id, nal.OnlineIds()))
      ensures forall n :: n in knownPeers - old(knownPeers) ==> n in nal.peerNodes.Values && n.online
    {
      var capabilities := Capabilities(uploadSpeedMbS, downloadSpeedMbS, totalSpaceGb);
      var announced := nal.AnnounceSelf(id, AnnouncePort, capabilities);
      ghost var onlineIds := nal.OnlineIds();
      ghost var top := nal.TopNodes(id, onlineIds);
      SameElems(announced, top);
      RecordJoin(currentTick, announced);
    }
  }

  /** `InMemoryNetwork`: the peer directory, peer scores, per-peer chunk
      stores and per-file manifests, all in one process. */
  class InMemoryNetwork {
    /** `random.Random(seed)`, used to shuffle peer lists. */
    const rng: Random
    /** `peers`: peer id to announced metadata, keys in insertion order. */
    var peers: map<string, PeerMeta>
    var peerOrder: seq<string>
    /** `peer_chunks`: peer id to its chunk store. */
    var peerChunks: map<string, map<string, Bytes>>
    /** `manifests`: file id to its manifest dictionary. */
    var manifests: map<string, map<string, ManifestEntry>>
    var peerScores: map<string, real>
    /** `peer_nodes`: peer id to node, keys in insertion order. */
    var peerNodes: map<string, SimNode>
    var nodeOrder: seq<string>

    /** The key sequences list each key of their dictionary once. */
    predicate Valid()
      reads this
    {
      && Distinct(peerOrder) && Elems(peerOrder) == peers.Keys
      && Distinct(nodeOrder) && Elems(nodeOrder) == peerNodes.Keys
    }

    constructor (source: nat -> nat)
      ensures fresh(rng) && rng.source == source && rng.pos == 0
      ensures peers == map[] && peerChunks == map[] && manifests == map[] && peerScores == map[] && peerNodes == map[]
      ensures Valid()
    {
      rng := new Random(source);
      peers := map[];
      peerOrder := [];
      peerChunks := map[];
      manifests := map[];
      peerScores := map[];
      peerNodes := map[];
      nodeOrder := [];
    }

    /** The ids of the registered nodes that are online. */
    function OnlineIds(): (ids: set<string>)
      reads this, peerNodes.Values`online
      ensures forall pid :: pid in ids <==> pid in peerNodes && peerNodes[pid].online
    {
      set pid | pid in peerNodes && peerNodes[pid].online
    }

    /** The nodes registered under `ids`, in the order of `ids`. */
    function NodesOf(ids: seq<string>): (ns: seq<SimNode>)
      requires forall id :: id in ids ==> id in peerNodes
      reads this
      ensures |ns| == |ids| && forall i :: 0 <= i < |ids| ==> ns[i] == peerNodes[ids[i]]
    {
      var pn := peerNodes;
      seq(|ids|, i requires 0 <= i < |ids| && ids[i] in pn => pn[ids[i]])
    }

    /** The peers `announce_self` returns to `peerId`, before the shuffle,
        when `online` are the ids of the online registered nodes. */
    function TopNodes(peerId: string, online: set<string>): (ns: seq<SimNode>)
      requires forall id :: id in online ==> id in peerNodes
      reads this
      ensures |ns| <= PeerListLimit
    {
      NodesOf(TopIds(peerOrder, online, peerScores, peerId))
    }

    /** The filter of `get_eligible_upload_targets`. */
    predicate Eligible(n: SimNode, excludeIds: set<string>, minFreeGb: real)
      reads n`online, n`freeSpaceGb
    {
      n.online && n.freeSpaceGb as real >= minFreeGb && n.id !in excludeIds
    }

    function FilterEligible(ns: seq<SimNode>, excludeIds: set<string>, minFreeGb: real): (r: seq<SimNode>)
      reads Elems(ns)`online, Elems(ns)`freeSpaceGb
      ensures forall n :: n in r ==> n in ns && Eligible(n, excludeIds, minFreeGb)
      ensures forall i :: 0 <= i < |ns| && Eligible(ns[i], excludeIds, minFreeGb) ==> ns[i] in r
    {
      if ns == [] then []
      else
        var rest := FilterEligible(ns[1..], excludeIds, minFreeGb);
        if Eligible(ns[0], excludeIds, minFreeGb) then [ns[0]] + rest else rest
    }

    /** `get_eligible_upload_targets(exclude_ids, min_free_gb)`: the registered
        nodes, in registration order, that are online, have at least
        `minFreeGb` free and are not excluded. Both arguments are explicit;
        the Python defaults (`None` for no exclusions, `0.01` GB) correspond
        to passing `{}` and `0.01`. */
    function GetEligibleUploadTargets(excludeIds: set<string>, minFreeGb: real): (r: seq<SimNode>)
      requires Valid()
      reads this, peerNodes.Values`online, peerNodes.Values`freeSpaceGb
      ensures forall n :: n in r ==> n in peerNodes.Values && n.online && n.freeSpaceGb as real >= minFreeGb && n.id !in excludeIds
      ensures forall id :: id in peerNodes && Eligible(peerNodes[id], excludeIds, minFreeGb) ==> peerNodes[id] in r
    {
      var ns := NodesOf(nodeOrder);
      assert forall id :: id in peerNodes ==> peerNodes[id] in ns by {
        forall id | id in peerNodes
          ensures peerNodes[id] in ns
        {
          assert id in Elems(nodeOrder);
          var i :| 0 <= i < |nodeOrder| && nodeOrder[i] == id;
          assert ns[i] == peerNodes[id];
        }
      }
      FilterEligible(ns, excludeIds, minFreeGb)
    }

    /** `register_peer`: binds the id to the node; a chunk store already kept
        for the id survives, otherwise an empty one is created. */
    method RegisterPeer(peerId: string, node: SimNode)
      requires Valid()
      modifies this`peerNodes, this`nodeOrder, this`peerChunks
      ensures Valid()
      ensures peerNodes == old(peerNodes)[peerId := node]
      ensures nodeOrder == if peerId in old(peerNodes) then old(nodeOrder) else old(nodeOrder) + [peerId]
      ensures peerChunks == if peerId in old(peerChunks) then old(peerChunks) else old(peerChunks)[peerId := map[]]
    {
      if peerId !in peerNodes {
        nodeOrder := nodeOrder + [peerId];
      }
      peerNodes := peerNodes[peerId := node];
      if peerId !in peerChunks {
        peerChunks := peerChunks[peerId := map[]];
      }
    }

    /** `peers[peerId] = meta`, keeping the key order of the dictionary. */
    method RecordPeer(peerId: string, meta: PeerMeta)
      requires Valid()
      modifies this`peers, this`peerOrder
      ensures Valid()
      ensures peers == old(peers)[peerId := meta]
      ensures peerOrder == if peerId in old(peers) then old(peerOrder) else old(peerOrder) + [peerId]
    {
      if peerId !in peers {
        peerOrder := peerOrder + [peerId];
      }
      peers := peers[peerId := meta];
    }

    /** `announce_self`: records the caller's port and capabilities, then
        returns the top-ranked online peers other than the caller, shuffled. */
    method AnnounceSelf(peerId: string, port: int, capabilities: Capabilities) returns (r: seq<SimNode>)
      requires Valid()
      modifies this`peers, this`peerOrder, rng
      ensures Valid()
      ensures peers == old(peers)[peerId := PeerMeta(port, capabilities)]
      ensures peerOrder == if peerId in old(peers) then old(peerOrder) else old(peerOrder) + [peerId]
      ensures multiset(r) == multiset(TopNodes(peerId, OnlineIds()))
      ensures |r| <= PeerListLimit
      ensures forall n :: n in r ==> n in peerNodes.Values && n.online
    {
      RecordPeer(peerId, PeerMeta(port, capabilities));
      var online := OnlineIds();
      var top := TopIds(peerOrder, online, peerScores, peerId);
      var topNodes := NodesOf(top);
      forall i | 0 <= i < |topNodes|
        ensures topNodes[i] in peerNodes.Values && topNodes[i].online
      {
        assert top[i] in online;
      }
      r := rng.Shuffle(topNodes);
      assert OnlineIds() == online;
      forall n | n in r
        ensures n in peerNodes.Values && n.online
      {
        assert n in multiset(topNodes);
      }
    }

    /** `fetch_peer_list`: the online peers other than the caller, in
        announcement order, shuffled and cut to `PeerListLimit`. */
    method FetchPeerList(peerId: string) returns (r: seq<string>)
      requires Valid()
      modifies rng
      ensures var c := Candidates(peerOrder, OnlineIds(), peerId);
              |r| == Min(|c|, PeerListLimit) && multiset(r) <= multiset(c)
      ensures Distinct(r)
      ensures forall id :: id in r ==> id != peerId && id in peers && id in peerNodes && peerNodes[id].online
    {
      var c := Candidates(peerOrder, OnlineIds(), peerId);
      var shuffled := rng.Shuffle(c);
      var k := Min(|shuffled|, PeerListLimit);
      r := shuffled[..k];
      PrefixSubMultiset(shuffled, k);
      SubMultisetDistinct(r, c);
      forall id | id in r
        ensures id in c
      {
        assert id in multiset(r);
      }
    }

    /** `refresh_peer_score`. */
    method RefreshPeerScore(peerId: string, score: real)
      modifies this`peerScores
      ensures peerScores == old(peerScores)[peerId := score]
    {
      peerScores := peerScores[peerId := score];
    }

    /** `download_chunk`: the stored bytes, or empty bytes when absent. */
    function DownloadChunk(chunkId: string, sourcePeer: string): (data: Bytes)
      reads this
      ensures chunkId !in Entries(peerChunks, sourcePeer) ==> data == []
      ensures data != [] ==> data in Entries(peerChunks, sourcePeer).Values
    {
      var store := Entries(peerChunks, sourcePeer);
      if chunkId in store then store[chunkId] else []
    }

    /** `upload_chunk`: always succeeds; a download of the same chunk from the
        same peer then returns the data, and every other download is as before. */
    method UploadChunk(chunkId: string, chunkData: Bytes, targetPeer: string, uploaderId: string) returns (ok: bool)
      modifies this`peerChunks
      ensures ok
      ensures peerChunks == old(peerChunks)[targetPeer := Entries(old(peerChunks), targetPeer)[chunkId := chunkData]]
      ensures DownloadChunk(chunkId, targetPeer) == chunkData
      ensures forall c, p :: (c != chunkId || p != targetPeer) ==> DownloadChunk(c, p) == old(DownloadChunk(c, p))
    {
      peerChunks := peerChunks[targetPeer := Entries(peerChunks, targetPeer)[chunkId := chunkData]];
      ok := true;
    }

    /** `delete_chunk`: reports whether the chunk was there and removes only it. */
    method DeleteChunk(chunkId: string, peerId: string) returns (removed: bool)
      modifies this`peerChunks
      ensures removed <==> chunkId in Entries(old(peerChunks), peerId)
      ensures peerChunks == old(peerChunks)[peerId := Entries(old(peerChunks), peerId) - {chunkId}]
      ensures DownloadChunk(chunkId, peerId) == []
      ensures forall c, p :: (c != chunkId || p != peerId) ==> DownloadChunk(c, p) == old(DownloadChunk(c, p))
    {
      var store := Entries(peerChunks, peerId);
      removed := chunkId in store;
      peerChunks := peerChunks[peerId := store - {chunkId}];
    }

    /** `acknowledge_download_complete`: removes each listed chunk from the
        source peer's store (the store is touched only if the list is non-empty). */
    method AcknowledgeDownloadComplete(fileId: string, chunkIds: seq<string>, sourcePeer: string)
      modifies this`peerChunks
      ensures peerChunks == if chunkIds == [] then old(peerChunks)
                            else old(peerChunks)[sourcePeer := Entries(old(peerChunks), sourcePeer) - Elems(chunkIds)]
    {
      var i := 0;
      while i < |chunkIds|
        invariant 0 <= i <= |chunkIds|
        invariant peerChunks == if i == 0 then old(peerChunks)
                                else old(peerChunks)[sourcePeer := Entries(old(peerChunks), sourcePeer) - Elems(chunkIds[..i])]
      {
        var store := Entries(peerChunks, sourcePeer);
        assert Elems(chunkIds[..i + 1]) == Elems(chunkIds[..i]) + {chunkIds[i]} by {
          assert chunkIds[..i + 1] == chunkIds[..i] + [chunkIds[i]];
        }
        assert store == Entries(old(peerChunks), sourcePeer) - Elems(chunkIds[..i]);
        assert store - {chunkIds[i]} == Entries(old(peerChunks), sourcePeer) - Elems(chunkIds[..i + 1]);
        peerChunks := peerChunks[sourcePeer := store - {chunkIds[i]}];
        i := i + 1;
      }
      assert chunkIds[..i] == chunkIds;
    }

    /** `cleanup_stale_chunks`: returns how many chunks the peer held and
        empties its store. */
    method CleanupStaleChunks(peerId: string) returns (count: nat)
      modifies this`peerChunks
      ensures count == |Entries(old(peerChunks), peerId)|
      ensures peerChunks == old(peerChunks)[peerId := map[]]
    {
      count := |Entries(peerChunks, peerId)|;
      peerChunks := peerChunks[peerId := map[]];
    }

    /** `update_manifest_chunk_location`. */
    method UpdateManifestChunkLocation(fileId: string, chunkId: string, newPeer: string)
      modifies this`manifests
      ensures manifests == old(manifests)[fileId := Entries(old(manifests), fileId)[chunkId := ChunkLocation(newPeer)]]
    {
      manifests := manifests[fileId := Entries(manifests, fileId)[chunkId := ChunkLocation(newPeer)]];
    }

    /** `fetch_manifest`: the entry under `"manifest"`, or empty bytes. The
        token is not checked. */
    function FetchManifest(fileId: string, authToken: string): (m: ManifestEntry)
      reads this
      ensures ManifestKey !in Entries(manifests, fileId) ==> m == ManifestBlob([])
      ensures m != ManifestBlob([]) ==> m in Entries(manifests, fileId).Values
    {
      var m := Entries(manifests, fileId);
      if ManifestKey in m then m[ManifestKey] else ManifestBlob([])
    }

    /** `push_full_manifest`: always succeeds; a fetch then returns the bytes. */
    method PushFullManifest(fileId: string, encryptedManifest: Bytes, ownerPeer: string) returns (ok: bool)
      modifies this`manifests
      ensures ok
      ensures manifests == old(manifests)[fileId := Entries(old(manifests), fileId)[ManifestKey := ManifestBlob(encryptedManifest)]]
      ensures forall token :: FetchManifest(fileId, token) == ManifestBlob(encryptedManifest)
      ensures forall f, token :: f != fileId ==> FetchManifest(f, token) == old(FetchManifest(f, token))
    {
      manifests := manifests[fileId := Entries(manifests, fileId)[ManifestKey := ManifestBlob(encryptedManifest)]];
      ok := true;
    }

    /** `broadcast_peer_state`: only the score is kept. */
    method BroadcastPeerState(peerId: string, score: real, storageUsed: int, uptime: real)
      modifies this`peerScores
      ensures peerScores == old(peerScores)[peerId := score]
    {
      peerScores := peerScores[peerId := score];
    }

    /** `receive_peer_updates`: one entry per announced peer, by id, with its
        score or 0.0. */
    function ReceivePeerUpdates(): (r: seq<PeerUpdate>)
      reads this
      ensures |r| == |peerOrder| && multiset(UpdateIds(r)) == multiset(peerOrder)
      ensures forall i :: 0 <= i < |r| ==> r[i].score == ScoreOf(peerScores, r[i].peerId)
    {
      var ids := SortIds(peerOrder);
      var scores := peerScores;
      var r := seq(|ids|, i requires 0 <= i < |ids| => PeerUpdate(ids[i], ScoreOf(scores, ids[i])));
      assert UpdateIds(r) == ids;
      r
    }

    /** The updates list every announced peer exactly once, in increasing id order. */
    lemma ReceivePeerUpdatesSorted()
      requires Valid()
      ensures var ids := UpdateIds(ReceivePeerUpdates());
              (forall i, j :: 0 <= i < j < |ids| ==> StrLess(ids[i], ids[j]))
              && (forall pid :: pid in ids <==> pid in peers)
    {
      var ids := UpdateIds(ReceivePeerUpdates());
      SortIdsOrdered(peerOrder);
      assert ids == SortIds(peerOrder);
      forall pid
        ensures pid in ids <==> pid in peers
      {
        assert pid in ids <==> pid in multiset(peerOrder);
      }
    }
  }
}
