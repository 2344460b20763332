/** The regional blackout: one timezone region, drawn among those present,
    goes dark at the first tick from 1000 on, stays dark for 4000 ticks, and
    then comes back over a 2000-tick ramp in which a growing prefix of its
    still-locked nodes is released. The blackout acts only through each
    affected node's `force_offline_until` override. */
module Blackout {
  import opened Common
  import opened Rng
  import opened SimConfig
  import opened Network

  /** The first tick at which the blackout may start. */
  const TriggerTick: int := 1000
  /** `blackout_duration`, in ticks. */
  const BlackoutDuration: int := 4000
  /** `ramp_duration`, in ticks. */
  const RampDuration: int := 2000

  /** The timezone offsets present among the nodes, each once, in order of
      first appearance: the population of the region draw. */
  function Regions(ns: seq<SimNode>): (rs: seq<int>)
    reads ns
    ensures Distinct(rs)
    ensures forall x :: x in rs <==> exists i :: 0 <= i < |ns| && ns[i].timezoneOffset == Some(x)
    ensures rs == [] <==> forall i :: 0 <= i < |ns| ==> ns[i].timezoneOffset.None?
  {
    if ns == [] then []
    else
      var init := ns[..|ns| - 1];
      var rest := Regions(init);
      assert forall i :: 0 <= i < |init| ==> init[i] == ns[i];
      var last := ns[|ns| - 1].timezoneOffset;
      if last.Some? && last.value !in rest then rest + [last.value] else rest
  }

  /** `[n for n in ns if n.timezone_offset == region]`. */
  function InRegion(ns: seq<SimNode>, region: int): (r: seq<SimNode>)
    reads ns
    ensures |r| <= |ns|
    ensures forall i :: 0 <= i < |r| ==> r[i] in ns && r[i].timezoneOffset == Some(region)
    ensures forall i :: 0 <= i < |ns| && ns[i].timezoneOffset == Some(region) ==> ns[i] in r
  {
    if ns == [] then []
    else
      var rest := InRegion(ns[1..], region);
      assert forall i :: 0 <= i < |ns| - 1 ==> ns[1..][i] == ns[i + 1];
      if ns[0].timezoneOffset == Some(region) then [ns[0]] + rest else rest
  }

  /** `[n for n in ns if n.force_offline_until is not None]`. */
  function StillOffline(ns: seq<SimNode>): (r: seq<SimNode>)
    reads ns
    ensures |r| <= |ns|
    ensures forall i :: 0 <= i < |r| ==> r[i] in ns && r[i].forceOfflineUntil.Some?
    ensures forall i :: 0 <= i < |ns| && ns[i].forceOfflineUntil.Some? ==> ns[i] in r
  {
    if ns == [] then []
    else
      var rest := StillOffline(ns[1..]);
      assert forall i :: 0 <= i < |ns| - 1 ==> ns[1..][i] == ns[i + 1];
      if ns[0].forceOfflineUntil.Some? then [ns[0]] + rest else rest
  }

  /** `int(len(affected) * min(elapsed / ramp_duration, 1.0))`, on integers:
      the number of nodes released `elapsed` ticks into the ramp. The source
      computes the ratio in floating point, so its product may round to one
      node fewer than this exact floor where the exact value is a whole number. */
  function RampCount(n: nat, elapsed: nat): nat {
    n * Min(elapsed, RampDuration) / RampDuration
  }

  /** The ramp never releases more than the region, and releases all of it
      once it has run its course. */
  lemma RampCountBounds(n: nat, elapsed: nat)
    ensures RampCount(n, elapsed) <= n
    ensures elapsed >= RampDuration ==> RampCount(n, elapsed) == n
  {
    var m := Min(elapsed, RampDuration);
    assert n * m <= n * RampDuration by { MulLe(n, m, RampDuration); }
    DivLe(n * m, n * RampDuration, RampDuration);
    assert n * RampDuration / RampDuration == n;
  }

  /** Later in the ramp, at least as many nodes are released. */
  lemma RampCountMonotone(n: nat, e1: nat, e2: nat)
    requires e1 <= e2
    ensures RampCount(n, e1) <= RampCount(n, e2)
  {
    MulLe(n, Min(e1, RampDuration), Min(e2, RampDuration));
    DivLe(n * Min(e1, RampDuration), n * Min(e2, RampDuration), RampDuration);
  }

  lemma MulLe(n: nat, a: nat, b: nat)
    requires a <= b
    ensures n * a <= n * b
  {
    assert n * b - n * a == n * (b - a);
  }

  lemma DivLe(a: nat, b: nat, d: int)
    requires a <= b && d > 0
    ensures a / d <= b / d
  {
    var q, p := a / d, b / d;
    if q > p {
      MulLe(d, p + 1, q);
      assert false;
    }
  }

  class BlackoutManager {
    const config: Config
    const nodes: seq<SimNode>
    /** `blackout_region`: the timezone offset that goes dark. */
    const region: int
    /** `affected_nodes`: the nodes of the region, in node order. */
    const affected: seq<SimNode>
    var triggered: bool
    var active: bool
    var startTick: Option<int>
    var endTick: Option<int>

    /** The state machine's phases fit together: the start and end ticks are
        set exactly once the blackout has triggered, 4000 ticks apart, and it
        is only active once triggered. */
    predicate Valid()
      reads this
    {
      && (triggered <==> startTick.Some? && endTick.Some?)
      && (triggered ==> endTick.value == startTick.value + BlackoutDuration)
      && (active ==> triggered)
    }

    /** `__init__` once the region has been drawn. */
    constructor (config: Config, nodes: seq<SimNode>, region: int)
      ensures this.config == config && this.nodes == nodes && this.region == region
      ensures affected == InRegion(nodes, region)
      ensures !triggered && !active && startTick == None && endTick == None
      ensures Valid()
    {
      this.config := config;
      this.nodes := nodes;
      this.region := region;
      affected := InRegion(nodes, region);
      triggered := false;
      active := false;
      startTick := None;
      endTick := None;
    }

    /** Sets the override of every affected node. */
    method LockAll(until: int)
      modifies affected`forceOfflineUntil
      ensures forall i :: 0 <= i < |affected| ==> affected[i].forceOfflineUntil == Some(until)
    {
      var i := 0;
      while i < |affected|
        invariant 0 <= i <= |affected|
        invariant forall j :: 0 <= j < i ==> affected[j].forceOfflineUntil == Some(until)
      {
        affected[i].forceOfflineUntil := Some(until);
        i := i + 1;
      }
    }

    /** Clears the override of the given affected nodes and of no other. */
    method Unlock(release: seq<SimNode>)
      requires forall i :: 0 <= i < |release| ==> release[i] in affected
      modifies affected`forceOfflineUntil
      ensures forall i :: 0 <= i < |affected| ==>
                affected[i].forceOfflineUntil == if affected[i] in release then None else old(affected[i].forceOfflineUntil)
    {
      var k := 0;
      while k < |release|
        invariant 0 <= k <= |release|
        invariant forall i :: 0 <= i < |affected| ==>
                    affected[i].forceOfflineUntil == if affected[i] in release[..k] then None else old(affected[i].forceOfflineUntil)
      {
        release[k].forceOfflineUntil := None;
        assert release[..k + 1] == release[..k] + [release[k]];
        k := k + 1;
      }
      assert release[..k] == release;
    }

    /** `apply_blackout(tick)`. */
    method ApplyBlackout(tick: int)
      requires Valid()
      modifies this`triggered, this`active, this`startTick, this`endTick, affected`forceOfflineUntil
      ensures Valid()
      // before the trigger tick nothing happens
      ensures !old(triggered) && tick < TriggerTick ==>
                && triggered == old(triggered) && active == old(active)
                && forall i :: 0 <= i < |affected| ==> affected[i].forceOfflineUntil == old(affected[i].forceOfflineUntil)
      // the trigger: once, locking every affected node until the ramp ends
      ensures !old(triggered) && tick >= TriggerTick ==>
                && triggered && active && startTick == Some(tick) && endTick == Some(tick + BlackoutDuration)
                && forall i :: 0 <= i < |affected| ==>
                     affected[i].forceOfflineUntil == Some(tick + BlackoutDuration + RampDuration)
      // holding, or over: nothing happens
      ensures old(triggered) && (!old(active) || tick <= old(endTick).value) ==>
                && active == old(active)
                && forall i :: 0 <= i < |affected| ==> affected[i].forceOfflineUntil == old(affected[i].forceOfflineUntil)
      // the ramp: a prefix of the still-locked nodes is released
      ensures old(triggered) && old(active) && tick > old(endTick).value ==>
                var elapsed := tick - old(endTick).value;
                var still := old(StillOffline(affected));
                var release := still[..Min(RampCount(|affected|, elapsed), |still|)];
                && active == (elapsed < RampDuration)
                && forall i :: 0 <= i < |affected| ==>
                     affected[i].forceOfflineUntil == if affected[i] in release then None else old(affected[i].forceOfflineUntil)
      // the ramp's end: every affected node is released
      ensures old(triggered) && old(active) && tick >= old(endTick).value + RampDuration ==>
                !active && forall i :: 0 <= i < |affected| ==> affected[i].forceOfflineUntil == None
      ensures old(triggered) ==> triggered && startTick == old(startTick) && endTick == old(endTick)
    {
      if !triggered && tick < TriggerTick {
        return;
      }
      if !triggered {
        triggered := true;
        active := true;
        startTick := Some(tick);
        endTick := Some(tick + BlackoutDuration);
        LockAll(tick + BlackoutDuration + RampDuration);
        return;
      }
      if !active || tick <= endTick.value {
        return;
      }
      var elapsed := tick - endTick.value;
      var still := StillOffline(affected);
      var count := RampCount(|affected|, elapsed);
      var release := still[..Min(count, |still|)];
      Unlock(release);
      if elapsed >= RampDuration {
        active := false;
        RampCountBounds(|affected|, elapsed);
        assert release == still;
      }
    }
  }

  /** `BlackoutManager(config, nodes)`: draws the region among the offsets
      present, then builds the manager. With no node in any timezone the
      draw raises `IndexError`. */
  method NewBlackoutManager(config: Config, nodes: seq<SimNode>) returns (r: Result<BlackoutManager>)
    ensures r.Err? <==> forall i :: 0 <= i < |nodes| ==> nodes[i].timezoneOffset.None?
    ensures r.Ok? ==> var m := r.value;
              && fresh(m) && m.Valid() && m.nodes == nodes && m.config == config
              && (exists i :: 0 <= i < |nodes| && nodes[i].timezoneOffset == Some(m.region))
              && m.affected == InRegion(nodes, m.region)
              && !m.triggered && !m.active
  {
    var regions := Regions(nodes);
    if |regions| == 0 {
      return Err("IndexError: Cannot choose from an empty sequence");
    }
    var rng := new Random(config.childSource("blackout_manager"));
    var k := rng.Choice(|regions|);
    var m := new BlackoutManager(config, nodes, regions[k]);
    r := Ok(m);
  }
}
