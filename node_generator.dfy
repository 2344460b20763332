/** Population generation: `count` nodes with ids `node_0`, `node_1`, ...,
    random capacities, a behaviour profile whose type is drawn by the
    configured shares, a timezone drawn from eight three-hour buckets by
    their share of internet users, and the initial online flag. */
module NodeGenerator {
  import opened Common
  import opened Rng
  import opened Text
  import opened NodeBehavior
  import opened SimConfig
  import opened Network

  /** The timezone offsets, in seconds east of UTC, and their weights. */
  const TimezoneBuckets: seq<int> := [0, 10800, 21600, 32400, 43200, 54000, 64800, 75600]
  const TimezoneWeights: seq<real> := [0.12, 0.08, 0.20, 0.25, 0.10, 0.10, 0.10, 0.05]

  /** The share of new users. */
  const NewUserShare: real := 0.7

  lemma TimezoneWeightsTotal()
    ensures PrefixTotal(TimezoneWeights, |TimezoneWeights|) == 1.0
  {
    assert PrefixTotal(TimezoneWeights, 2) == 0.20;
    assert PrefixTotal(TimezoneWeights, 4) == 0.65;
    assert PrefixTotal(TimezoneWeights, 6) == 0.85;
  }

  /** `f"node_{i}"`. */
  function NodeId(i: nat): string {
    "node_" + NatToString(i)
  }

  lemma NodeIdInjective(i: nat, j: nat)
    requires NodeId(i) == NodeId(j)
    ensures i == j
  {
    assert NatToString(i) == NodeId(i)[5..];
    assert NatToString(j) == NodeId(j)[5..];
    NatToStringInjective(i, j);
  }

  /** The weights of `config.behavior_distribution`, in key order. */
  function ShareWeights(dist: seq<(string, real)>): (ws: seq<real>)
    ensures |ws| == |dist| && forall k :: 0 <= k < |dist| ==> ws[k] == dist[k].1
  {
    seq(|dist|, k requires 0 <= k < |dist| => dist[k].1)
  }

  /** The bucket `choices(timezone_buckets, weights)` picks when `random()`
      gives `u`: the first whose cumulative weight exceeds `u`. */
  function TimezoneIndex(u: real): (k: nat)
    ensures k < |TimezoneBuckets|
  {
    if u < 0.12 then 0 else if u < 0.20 then 1 else if u < 0.40 then 2 else if u < 0.65 then 3
    else if u < 0.75 then 4 else if u < 0.85 then 5 else if u < 0.95 then 6 else 7
  }

  /** The thresholds above are the library's weighted choice over the bucket weights. */
  lemma TimezoneIndexIsChoice(u: real)
    requires 0.0 <= u < 1.0
    ensures WeightedChoice(TimezoneWeights, u) == Ok(TimezoneIndex(u))
  {
    TimezoneWeightsTotal();
    assert u * PrefixTotal(TimezoneWeights, |TimezoneWeights|) == u;
    var ws := TimezoneWeights;
    assert FirstAbove(ws, u, 4, 0.65) == (if u < 0.75 then 4 else if u < 0.85 then 5 else if u < 0.95 then 6 else 7);
    assert FirstAbove(ws, u, 0, 0.0) == (if u < 0.12 then 0 else if u < 0.20 then 1 else if u < 0.40 then 2
                                          else if u < 0.65 then 3 else FirstAbove(ws, u, 4, 0.65));
  }

  /** The timezone `tz_rng.choices(timezone_buckets, weights)` picks for a node:
      the first draw of the generator labelled by the node's id. */
  function TimezoneOf(config: Config, nodeId: string): (tz: int)
    ensures tz in TimezoneBuckets
  {
    TimezoneBuckets[TimezoneIndex(UnitOf(config.childSource("timezone_offset_" + nodeId)(0)))]
  }

  /** The attributes of the `i`-th node: id, capacities, and the state a new
      node starts in. */
  ghost predicate Attributes(n: SimNode, i: nat, config: Config)
    reads n
  {
    && n.id == NodeId(i) && n.config == config
    && 1 <= n.uploadSpeedMbS <= 5 && 2 <= n.downloadSpeedMbS <= 8 && 10 <= n.totalSpaceGb <= 100
    && n.freeSpaceGb == n.totalSpaceGb
    && n.forceOfflineUntil == None && !n.wasOnlineLastTick && !n.hasJoined
  }

  /** The node's profile, timezone and initial online flag: the profile is
      set, the timezone is the node's bucket, and the flag is the availability
      rule at tick 0 with the node's first own draw. */
  predicate Settled(n: SimNode, config: Config)
    reads n
  {
    && n.behaviorProfile.Some?
    && n.timezoneOffset == Some(TimezoneOf(config, n.id))
    && n.online == IsOnline(n.behaviorProfile.value, 0, None, n.timezoneOffset, config.daylightCurve,
                            UnitOf(n.cachedRng.source(0)))
  }

  /** What `generate_nodes` promises about its `i`-th node. */
  ghost predicate Generated(n: SimNode, i: nat, config: Config)
    reads n
  {
    && Attributes(n, i, config)
    && Settled(n, config)
    && (exists k :: 0 <= k < |config.behaviorDistribution| &&
                    config.behaviorDistribution[k].0 in ProfileTypes &&
                    ProfileFits(n.behaviorProfile.value, config.behaviorDistribution[k].0))
  }

  /** Every key of the distribution is a known behaviour type. */
  predicate KnownTypes(dist: seq<(string, real)>) {
    forall k :: 0 <= k < |dist| ==> dist[k].0 in ProfileTypes
  }

  /** The distribution `random.choices` cannot draw from: no keys, or weights
      that do not sum above zero. */
  predicate NoShares(dist: seq<(string, real)>) {
    |dist| == 0 || PrefixTotal(ShareWeights(dist), |dist|) <= 0.0
  }

  /** The first four draws of an iteration and the node they build, before its
      behaviour profile and timezone are set. */
  method NewNode(rng: Random, i: nat, config: Config, nal: InMemoryNetwork) returns (n: SimNode)
    modifies rng
    ensures fresh(n) && fresh(n.cachedRng) && n.cachedRng.pos == 0
    ensures Attributes(n, i, config) && rng.pos == old(rng.pos) + 4
  {
    var upload := rng.RandInt(1, 5);
    var download := rng.RandInt(2, 8);
    var space := rng.RandInt(10, 100);
    var u := rng.RandomUnit();
    n := new SimNode(NodeId(i), upload, download, space, u < NewUserShare, config, nal);
  }

  /** Sets the drawn profile and the timezone, then the online flag at tick 0. */
  method Settle(n: SimNode, profile: RollingProfile, config: Config)
    requires n.config == config && n.forceOfflineUntil == None && n.cachedRng.pos == 0
    modifies n, n.cachedRng
    ensures n.behaviorProfile == Some(profile) && Settled(n, config)
    ensures n.freeSpaceGb == old(n.freeSpaceGb) && n.forceOfflineUntil == None
    ensures !n.wasOnlineLastTick && n.hasJoined == old(n.hasJoined)
  {
    n.behaviorProfile := Some(profile);
    n.timezoneOffset := Some(TimezoneOf(config, n.id));
    var online := n.ProfileOnline(0);
    n.online := online;
    n.wasOnlineLastTick := false;
  }

  /** The behaviour-type draw of an iteration and the profile generated for
      the drawn type: a failed weighted choice raises, and so does an unknown
      type, as `generate_behavior_profile` does. */
  method DrawProfile(rng: Random, dist: seq<(string, real)>) returns (r: Result<RollingProfile>)
    modifies rng
    ensures var pick := WeightedChoice(ShareWeights(dist), UnitOf(rng.source(old(rng.pos))));
            && (pick.Err? ==> r.Err?)
            && (pick.Ok? ==> r == GenerateBehaviorProfile(dist[pick.value].0, rng.source, old(rng.pos) + 1))
    ensures r.Ok? ==> exists k :: 0 <= k < |dist| && dist[k].0 in ProfileTypes && ProfileFits(r.value, dist[k].0)
  {
    var pick := WeightedChoice(ShareWeights(dist), UnitOf(rng.source(rng.pos)));
    if pick.Err? {
      return Err(pick.error);
    }
    rng.Skip(1);
    var profileType := dist[pick.value].0;
    r := GenerateBehaviorProfile(profileType, rng.source, rng.pos);
    if r.Ok? {
      rng.Skip(ProfileDrawCount(profileType));
    }
  }

  /** When the behaviour-type draw at position `p` picks a type that is not
      a known one, the iteration raises. */
  predicate UnknownRaises(source: nat -> nat, p: nat, dist: seq<(string, real)>, raised: bool) {
    var pick := WeightedChoice(ShareWeights(dist), UnitOf(source(p)));
    pick.Ok? && dist[pick.value].0 !in ProfileTypes ==> raised
  }

  /** One iteration of `generate_nodes`: the `i`-th node, or the exception
      its behaviour-type draw or profile raises. The type is drawn after the
      four attribute draws; a drawn type that is not a known one raises. */
  method GenerateNode(rng: Random, i: nat, config: Config, nal: InMemoryNetwork) returns (r: Result<SimNode>)
    modifies rng
    ensures r.Ok? ==> fresh(r.value) && Generated(r.value, i, config)
    ensures UnknownRaises(rng.source, old(rng.pos) + 4, config.behaviorDistribution, r.Err?)
    ensures NoShares(config.behaviorDistribution) ==> r.Err?
    ensures KnownTypes(config.behaviorDistribution) && !NoShares(config.behaviorDistribution) ==> r.Ok?
  {
    var node := NewNode(rng, i, config, nal);
    var profile := DrawProfile(rng, config.behaviorDistribution);
    if profile.Err? {
      return Err(profile.error);
    }
    Settle(node, profile.value, config);
    r := Ok(node);
  }

  /** Every node of the sequence is what `generate_nodes` promises for its index. */
  ghost predicate AllGenerated(nodes: seq<SimNode>, config: Config)
    reads nodes
  {
    forall j :: 0 <= j < |nodes| ==> Generated(nodes[j], j, config)
  }

  lemma AppendGenerated(nodes: seq<SimNode>, n: SimNode, config: Config)
    requires AllGenerated(nodes, config) && Generated(n, |nodes|, config)
    ensures AllGenerated(nodes + [n], config)
  {
    var s := nodes + [n];
    forall j | 0 <= j < |s|
      ensures Generated(s[j], j, config)
    {
      if j < |nodes| {
        assert s[j] == nodes[j];
      }
    }
  }

  /** The iteration of `generate_nodes` that extends the nodes built so far. */
  method NextNode(rng: Random, nodes: seq<SimNode>, config: Config, nal: InMemoryNetwork) returns (r: Result<SimNode>)
    requires AllGenerated(nodes, config)
    modifies rng
    ensures r.Ok? ==> fresh(r.value) && AllGenerated(nodes + [r.value], config)
    ensures NoShares(config.behaviorDistribution) ==> r.Err?
    ensures KnownTypes(config.behaviorDistribution) && !NoShares(config.behaviorDistribution) ==> r.Ok?
  {
    r := GenerateNode(rng, |nodes|, config, nal);
    if r.Ok? {
      AppendGenerated(nodes, r.value, config);
    }
  }

  /** `generate_nodes(rng, count, config)`, the backend given explicitly. A
      failed weighted choice or an unknown behaviour type raises, here `Err`. */
  method GenerateNodes(rng: Random, count: nat, config: Config, nal: InMemoryNetwork) returns (r: Result<seq<SimNode>>)
    modifies rng
    ensures r.Ok? ==> |r.value| == count && AllGenerated(r.value, config)
    ensures r.Ok? ==> forall i :: 0 <= i < count ==> fresh(r.value[i])
    ensures r.Ok? ==> forall i, j :: 0 <= i < j < count ==> r.value[i] != r.value[j] && r.value[i].id != r.value[j].id
    ensures count > 0 && NoShares(config.behaviorDistribution) ==> r.Err?
    ensures KnownTypes(config.behaviorDistribution) && !NoShares(config.behaviorDistribution) ==> r.Ok?
  {
    var nodes: seq<SimNode> := [];
    var i := 0;
    while i < count
      invariant 0 <= i <= count && |nodes| == i
      invariant NoShares(config.behaviorDistribution) ==> i == 0
      invariant forall j :: 0 <= j < i ==> fresh(nodes[j])
      invariant AllGenerated(nodes, config)
    {
      var node := NextNode(rng, nodes, config, nal);
      if node.Err? {
        return Err(node.error);
      }
      nodes := nodes + [node.value];
      i := i + 1;
    }
    IdsDistinct(nodes, config);
    r := Ok(nodes);
  }

  /** Nodes carrying the ids `node_0`, `node_1`, ... in order have distinct ids. */
  lemma IdsDistinct(nodes: seq<SimNode>, config: Config)
    requires AllGenerated(nodes, config)
    ensures forall i, j :: 0 <= i < j < |nodes| ==> nodes[i] != nodes[j] && nodes[i].id != nodes[j].id
  {
    forall i, j | 0 <= i < j < |nodes|
      ensures nodes[i].id != nodes[j].id
    {
      if nodes[i].id == nodes[j].id {
        NodeIdInjective(i, j);
      }
    }
  }
}
