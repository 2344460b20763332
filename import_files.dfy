/** Synthetic file records (`SimFile`) and their generator: a size drawn from
    weighted size bands and a name built from a running index and a random
    four-digit suffix. Each file takes three draws from the generator: the
    suffix, the size band, the size within the band. */
module ImportFiles {
  import opened Common
  import opened Rng
  import opened Text

  /** A file: name, size in MB, and the id of the node that owns it. */
  datatype SimFile = SimFile(fileName: string, fileSize: int, owner: string)

  /** The size bands, in MB, and their relative weights. */
  const SizeRanges: seq<(int, int)> :=
    [(1, 10), (10, 100), (100, 500), (500, 1024), (1024, 10240), (10240, 102400), (102400, 1048576)]
  const SizeWeights: seq<real> := [25.0, 30.0, 20.0, 10.0, 10.0, 4.0, 1.0]

  /** The smallest and the largest size any band allows. */
  const MinFileSize: int := 1
  const MaxFileSize: int := 1048576

  const DrawsPerFile: nat := 3

  lemma SizeWeightsTotal()
    ensures PrefixTotal(SizeWeights, |SizeWeights|) == 100.0
  {
    assert PrefixTotal(SizeWeights, 1) == 25.0;
    assert PrefixTotal(SizeWeights, 3) == 75.0;
    assert PrefixTotal(SizeWeights, 5) == 95.0;
  }

  /** The band `choices(size_ranges, weights)` picks when `random()` gives
      `u`: the first whose cumulative weight exceeds `100 * u`. */
  function SizeBand(u: real): (k: nat)
    ensures k < |SizeRanges|
  {
    if u < 0.25 then 0 else if u < 0.55 then 1 else if u < 0.75 then 2 else if u < 0.85 then 3
    else if u < 0.95 then 4 else if u < 0.99 then 5 else 6
  }

  /** The thresholds above are the library's weighted choice over the size weights. */
  lemma SizeBandIsChoice(u: real)
    requires 0.0 <= u < 1.0
    ensures WeightedChoice(SizeWeights, u) == Ok(SizeBand(u))
  {
    SizeWeightsTotal();
    var x := u * PrefixTotal(SizeWeights, |SizeWeights|);
    assert x == u * 100.0;
    var ws := SizeWeights;
    assert FirstAbove(ws, x, 3, 75.0) == (if x < 85.0 then 3 else if x < 95.0 then 4 else if x < 99.0 then 5 else 6);
    assert FirstAbove(ws, x, 0, 0.0) == (if x < 25.0 then 0 else if x < 55.0 then 1 else if x < 75.0 then 2
                                          else FirstAbove(ws, x, 3, 75.0));
  }

  /** `generate_file_size(rng)`: a band picked by weight, then a size within it. */
  function GenerateFileSize(src: nat -> nat, pos: nat): (size: int)
    ensures exists k :: 0 <= k < |SizeRanges| && SizeRanges[k].0 <= size <= SizeRanges[k].1
    ensures MinFileSize <= size <= MaxFileSize
  {
    var k := SizeBand(UnitOf(src(pos)));
    IntIn(SizeRanges[k].0, SizeRanges[k].1, src(pos + 1))
  }

  /** `f"file_{index}_{suffix}"`. */
  function FileName(index: nat, suffix: nat): string {
    "file_" + NatToString(index) + "_" + NatToString(suffix)
  }

  /** With four-digit suffixes, a file name determines its index and its suffix. */
  lemma FileNameInjective(i: nat, s: nat, j: nat, t: nat)
    requires 1000 <= s <= 9999 && 1000 <= t <= 9999
    requires FileName(i, s) == FileName(j, t)
    ensures i == j && s == t
  {
    FourDigits(s);
    FourDigits(t);
    var name := FileName(i, s);
    assert name == "file_" + NatToString(j) + "_" + NatToString(t);
    assert NatToString(s) == name[|name| - 4..];
    assert NatToString(t) == name[|name| - 4..];
    assert NatToString(i) == name[5..|name| - 5];
    assert NatToString(j) == name[5..|name| - 5];
    NatToStringInjective(i, j);
    NatToStringInjective(s, t);
  }

  /** `receive_file(rng, index, owner)` with the generator at `pos`. */
  function ReceiveFile(src: nat -> nat, pos: nat, index: nat, owner: string): (f: SimFile)
    ensures exists suffix :: 1000 <= suffix <= 9999 && f.fileName == FileName(index, suffix)
    ensures MinFileSize <= f.fileSize <= MaxFileSize && f.owner == owner
  {
    var suffix := IntIn(1000, 9999, src(pos));
    SimFile(FileName(index, suffix), GenerateFileSize(src, pos + 1), owner)
  }

  /** The file name carries the index it was made from. */
  predicate NamedFor(f: SimFile, index: nat) {
    exists suffix :: 1000 <= suffix <= 9999 && f.fileName == FileName(index, suffix)
  }

  /** `receive_files(rng, start_index, count, owner)`: file `i` uses index
      `start_index + i` and the three draws after those of file `i - 1`. */
  function ReceiveFiles(src: nat -> nat, pos: nat, startIndex: nat, count: nat, owner: string): (fs: seq<SimFile>)
    ensures |fs| == count
    ensures forall i :: 0 <= i < count ==> NamedFor(fs[i], startIndex + i) && fs[i].owner == owner
    ensures forall i :: 0 <= i < count ==> MinFileSize <= fs[i].fileSize <= MaxFileSize
  {
    seq(count, i requires 0 <= i < count => ReceiveFile(src, pos + DrawsPerFile * i, startIndex + i, owner))
  }

  /** Files made for different indices have different names. */
  lemma NamesDiffer(f: SimFile, i: nat, g: SimFile, j: nat)
    requires NamedFor(f, i) && NamedFor(g, j) && i != j
    ensures f.fileName != g.fileName
  {
    var s :| 1000 <= s <= 9999 && f.fileName == FileName(i, s);
    var t :| 1000 <= t <= 9999 && g.fileName == FileName(j, t);
    if f.fileName == g.fileName {
      FileNameInjective(i, s, j, t);
    }
  }

  /** The files of one call have pairwise distinct names. */
  lemma ReceiveFilesDistinctNames(src: nat -> nat, pos: nat, startIndex: nat, count: nat, owner: string)
    ensures var fs := ReceiveFiles(src, pos, startIndex, count, owner);
            forall i, j :: 0 <= i < j < count ==> fs[i].fileName != fs[j].fileName
  {
    var fs := ReceiveFiles(src, pos, startIndex, count, owner);
    forall i, j | 0 <= i < j < count
      ensures fs[i].fileName != fs[j].fileName
    {
      NamesDiffer(fs[i], startIndex + i, fs[j], startIndex + j);
    }
  }
}
