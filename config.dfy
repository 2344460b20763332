/** The simulation parameters the core reads (`SimulationConfig`). The greedy
    population-mix computation is not modelled: `behaviorDistribution` is
    given. `daylightCurve` and `chunkSizeMb` are read by the core but not
    defined by the configuration class, so they are parameters here too, and
    `childSource` stands for `child_rng`: the raw-draw stream of the generator
    seeded from the root seed and a namespace label. */
module SimConfig {
  import opened Common

  datatype Config = Config(
    seed: int,
    totalTicks: nat,
    totalNodes: nat,
    fileUploadRate: real,
    maxFilesPerTick: Pos,
    diskWriteSpeedMbS: Pos,
    bootstrapPeerSampleSize: int,
    joinAnnouncementSizeKb: nat,
    rebootstrapCooldownTicks: nat,
    /** profile type name and its share, in the dictionary's key order */
    behaviorDistribution: seq<(string, real)>,
    chunkSizeMb: nat,
    /** probability of being online at each local second of the day */
    daylightCurve: nat -> real,
    /** `child_rng(namespace)`: the stream of the generator keyed by the label */
    childSource: string -> (nat -> nat))
}
