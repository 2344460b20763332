/** Node availability: a rolling duty cycle with a phase offset, a hard
    blackout override that wins over everything, and a daylight draw for nodes
    that have a timezone. Profiles are drawn per behaviour type. */
module NodeBehavior {
  import opened Common
  import opened Rng

  const SecondsPerDay: nat := 86400

  /** `RollingBehaviorProfile`: online for the first `uptimeTicks` of every
      cycle of `cycleLength` ticks, shifted by `offset`. */
  datatype RollingProfile = RollingProfile(cycleLength: Pos, uptimeTicks: int, offset: int)

  /** The periodic (base) availability at `tick`. */
  predicate CycleOnline(p: RollingProfile, tick: int) {
    (tick + p.offset) % p.cycleLength < p.uptimeTicks
  }

  /** The blackout override is in force: `force_offline_until` is set to a
      truthy value (not `None`, not 0) that `tick` has not reached. */
  predicate Forced(forceOfflineUntil: Option<int>, tick: int) {
    forceOfflineUntil.Some? && forceOfflineUntil.value != 0 && tick < forceOfflineUntil.value
  }

  /** The node's local second of the day. */
  function LocalTime(tick: int, timezoneOffset: int): nat {
    (tick + timezoneOffset) % SecondsPerDay
  }

  /** `is_online(tick, node)`. `u` is what `node.cached_rng.random()` yields;
      the source draws it only when the base cycle says online. */
  function IsOnline(p: RollingProfile, tick: int, forceOfflineUntil: Option<int>,
                    timezoneOffset: Option<int>, daylightCurve: nat -> real, u: real): (online: bool)
    ensures Forced(forceOfflineUntil, tick) ==> !online
    ensures online ==> CycleOnline(p, tick)
    ensures !Forced(forceOfflineUntil, tick) && timezoneOffset.None? ==> (online <==> CycleOnline(p, tick))
  {
    if Forced(forceOfflineUntil, tick) then false
    else if timezoneOffset.None? then CycleOnline(p, tick)
    else CycleOnline(p, tick) && u < daylightCurve(LocalTime(tick, timezoneOffset.value))
  }

  /** `is_online` consumes a draw of the node's generator exactly when the
      daylight test is reached: no override in force, a timezone, and the base
      cycle online (the `and` short-circuits otherwise). */
  predicate DaylightDrawn(p: RollingProfile, tick: int, forceOfflineUntil: Option<int>, timezoneOffset: Option<int>) {
    !Forced(forceOfflineUntil, tick) && timezoneOffset.Some? && CycleOnline(p, tick)
  }

  /** Once the override tick is reached, the override no longer matters. */
  lemma OverrideExpired(p: RollingProfile, tick: int, until: int,
                        timezoneOffset: Option<int>, daylightCurve: nat -> real, u: real)
    requires tick >= until
    ensures IsOnline(p, tick, Some(until), timezoneOffset, daylightCurve, u)
         == IsOnline(p, tick, None, timezoneOffset, daylightCurve, u)
  {
  }

  lemma MulAtLeast(k: int, c: Pos)
    requires k >= 1
    ensures k * c >= c
  {
    assert k * c - c == (k - 1) * c;
  }

  /** Euclidean division has one quotient and one remainder. */
  lemma ModUnique(x: int, c: Pos, q: int, r: int)
    requires x == q * c + r && 0 <= r < c
    ensures x % c == r
  {
    var q0, r0 := x / c, x % c;
    assert (q - q0) * c == r0 - r;
    if q > q0 {
      MulAtLeast(q - q0, c);
    } else if q < q0 {
      assert (q0 - q) * c == r - r0;
      MulAtLeast(q0 - q, c);
    }
  }

  lemma ModShift(a: int, c: Pos)
    ensures (a + c) % c == a % c
  {
    var q := a / c;
    var r := a % c;
    assert a + c == (q + 1) * c + r;
    ModUnique(a + c, c, q + 1, r);
  }

  /** Without override and timezone, availability repeats every cycle. */
  lemma {:induction false} CyclePeriodic(p: RollingProfile, tick: int, daylightCurve: nat -> real, u: real)
    ensures IsOnline(p, tick + p.cycleLength, None, None, daylightCurve, u)
         == IsOnline(p, tick, None, None, daylightCurve, u)
  {
    ModShift(tick + p.offset, p.cycleLength);
    assert tick + p.cycleLength + p.offset == (tick + p.offset) + p.cycleLength;
  }

  /** The behaviour types the generator knows. */
  const ProfileTypes: seq<string> := ["always_online", "mostly_online", "balanced", "flaky", "erratic"]

  /** A type with a drawn cycle: all known types but `always_online`. */
  predicate DrawnType(t: string) {
    t in ProfileTypes && t != "always_online"
  }

  /** The `randint` range of the cycle length of a drawn type. */
  function CycleRange(t: string): (r: (int, int))
    requires DrawnType(t)
    ensures 0 < r.0 <= r.1
  {
    if t == "mostly_online" then (12000, 18000)
    else if t == "balanced" then (12000, 18000)
    else if t == "flaky" then (6000, 10000)
    else (20000, 100000)
  }

  /** The `uniform` range of the uptime fraction of a drawn type. */
  function FractionRange(t: string): (r: (real, real))
    requires DrawnType(t)
    ensures 0.0 < r.0 <= r.1 < 1.0
  {
    if t == "mostly_online" then (0.88, 0.95)
    else if t == "balanced" then (0.55, 0.7)
    else if t == "flaky" then (0.2, 0.4)
    else (0.03, 0.1)
  }

  /** `uniform(a, b)` when `random()` gives `u`. */
  function Uniform(a: real, b: real, u: real): (x: real)
    requires a <= b && 0.0 <= u < 1.0
    ensures a <= x <= b && (a < b ==> x < b)
  {
    var span := b - a;
    SpanBelow(span, u);
    a + span * u
  }

  lemma SpanBelow(t: real, u: real)
    requires t >= 0.0 && 0.0 <= u < 1.0
    ensures 0.0 <= t * u <= t && (t > 0.0 ==> t * u < t)
  {
    if t > 0.0 {
      ScaledBelow(u, t);
    } else {
      assert t == 0.0;
    }
  }

  /** The number of draws `generate_behavior_profile` takes from the generator. */
  function ProfileDrawCount(t: string): nat {
    if DrawnType(t) then 3 else 0
  }

  /** `int(cycle * f)` for a fraction `f` of [0, 1): a tick count below the cycle. */
  function UptimeOf(cycle: Pos, f: real): (uptime: int)
    requires 0.0 <= f < 1.0
    ensures 0 <= uptime < cycle
  {
    var x := cycle as real * f;
    ScaledBelowAt(f, cycle as real, x);
    x.Floor
  }

  /** The shape a profile of type `t` has: the fixed always-on cycle, or a
      cycle length in the type's range with an uptime below it and an offset
      of at most one cycle. */
  predicate ProfileFits(p: RollingProfile, t: string) {
    && (t == "always_online" ==> p == RollingProfile(1, 1, 0))
    && (DrawnType(t) ==>
          && CycleRange(t).0 <= p.cycleLength <= CycleRange(t).1
          && 0 <= p.uptimeTicks < p.cycleLength
          && 0 <= p.offset <= p.cycleLength)
  }

  /** `generate_behavior_profile(profile_type, rng, total_ticks)`, the generator
      being the stream `src` from position `pos`: cycle length, uptime fraction,
      then offset. An unknown type raises `ValueError`. */
  function GenerateBehaviorProfile(profileType: string, src: nat -> nat, pos: nat): (r: Result<RollingProfile>)
    ensures r.Ok? <==> profileType in ProfileTypes
    ensures profileType == "always_online" ==> r == Ok(RollingProfile(1, 1, 0))
    ensures r.Ok? ==> ProfileFits(r.value, profileType)
  {
    if profileType == "always_online" then Ok(RollingProfile(1, 1, 0))
    else if !DrawnType(profileType) then Err("ValueError: Unknown profile type: " + profileType)
    else
      var (lo, hi) := CycleRange(profileType);
      var cycle := IntIn(lo, hi, src(pos));
      var (flo, fhi) := FractionRange(profileType);
      var uptime := UptimeOf(cycle, Uniform(flo, fhi, UnitOf(src(pos + 1))));
      var offset := IntIn(0, cycle, src(pos + 2));
      Ok(RollingProfile(cycle, uptime, offset))
  }

  /** `c * x` grows with `x` for a non-negative `c`. */
  lemma ScaleMonotone(c: real, x: real, y: real)
    requires c >= 0.0 && x <= y
    ensures c * x <= c * y
  {
    assert c * y - c * x == c * (y - x);
  }

  /** A drawn uptime lies between the floors of the type's two fraction bounds. */
  lemma UptimeBetween(cycle: Pos, lo: real, f: real, hi: real)
    requires 0.0 <= lo <= f <= hi && f < 1.0
    ensures (cycle as real * lo).Floor <= UptimeOf(cycle, f) <= (cycle as real * hi).Floor
  {
    ScaleMonotone(cycle as real, lo, f);
    ScaleMonotone(cycle as real, f, hi);
  }

  lemma UptimeWithinFractions(profileType: string, src: nat -> nat, pos: nat)
    requires DrawnType(profileType)
    ensures var p := GenerateBehaviorProfile(profileType, src, pos).value;
            var (flo, fhi) := FractionRange(profileType);
            (p.cycleLength as real * flo).Floor <= p.uptimeTicks <= (p.cycleLength as real * fhi).Floor
  {
    var (lo, hi) := CycleRange(profileType);
    var cycle := IntIn(lo, hi, src(pos));
    var (flo, fhi) := FractionRange(profileType);
    var f := Uniform(flo, fhi, UnitOf(src(pos + 1)));
    UptimeBetween(cycle, flo, f, fhi);
  }

  /** The `always_online` profile is online at every tick when nothing overrides it. */
  lemma AlwaysOnlineEveryTick(src: nat -> nat, pos: nat, tick: int, daylightCurve: nat -> real, u: real)
    ensures IsOnline(GenerateBehaviorProfile("always_online", src, pos).value, tick, None, None, daylightCurve, u)
  {
  }
}
