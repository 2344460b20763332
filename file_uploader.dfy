/** File ingest: on each tick, with probability `file_upload_rate`, one node
    receives a batch of new files; the batch then waits in the write queue
    for as many ticks as the disk needs to write it, and a tick hands back
    the files of every batch whose write has finished. */
module Uploader {
  import opened Common
  import opened Rng
  import opened ImportFiles
  import opened SimConfig
  import opened Network

  /** A pending write: the files and the tick from which they are written. */
  datatype Batch = Batch(files: seq<SimFile>, readyAt: int)

  /** `sum(f.file_size for f in files)`. */
  function TotalSize(files: seq<SimFile>): int {
    if files == [] then 0 else TotalSize(files[..|files| - 1]) + files[|files| - 1].fileSize
  }

  /** The batch written for `files` received at `tick`: ready once the disk
      has written them, never within the same tick. */
  function NewBatch(files: seq<SimFile>, tick: int, diskWriteSpeedMbS: Pos): (b: Batch)
    ensures b.files == files && b.readyAt >= tick + 1
    ensures b.readyAt >= tick + TotalSize(files) / diskWriteSpeedMbS
  {
    Batch(files, tick + AtLeastOne(TotalSize(files) / diskWriteSpeedMbS))
  }

  /** The batches whose write is done at `tick`, in queue order. */
  function Ready(batches: seq<Batch>, tick: int): (r: seq<Batch>)
    ensures forall i :: 0 <= i < |r| ==> r[i].readyAt <= tick
  {
    if batches == [] then []
    else if batches[0].readyAt <= tick then [batches[0]] + Ready(batches[1..], tick)
    else Ready(batches[1..], tick)
  }

  /** The batches still being written at `tick`, in queue order. */
  function Waiting(batches: seq<Batch>, tick: int): (r: seq<Batch>)
    ensures forall i :: 0 <= i < |r| ==> r[i].readyAt > tick
  {
    if batches == [] then []
    else if batches[0].readyAt <= tick then Waiting(batches[1..], tick)
    else [batches[0]] + Waiting(batches[1..], tick)
  }

  /** The files of the batches, batch after batch. */
  function Flatten(batches: seq<Batch>): seq<SimFile> {
    if batches == [] then [] else batches[0].files + Flatten(batches[1..])
  }

  /** Every batch is either released or kept, never both, never lost. */
  lemma {:induction false} ReleasePartition(batches: seq<Batch>, tick: int)
    ensures multiset(Ready(batches, tick)) + multiset(Waiting(batches, tick)) == multiset(batches)
    ensures |Flatten(Ready(batches, tick))| + |Flatten(Waiting(batches, tick))| == |Flatten(batches)|
  {
    if batches != [] {
      ReleasePartition(batches[1..], tick);
      assert batches == [batches[0]] + batches[1..];
    }
  }

  /** A batch that is not ready yet joins the kept ones and releases nothing. */
  lemma {:induction false} AppendWaiting(batches: seq<Batch>, b: Batch, tick: int)
    requires b.readyAt > tick
    ensures Ready(batches + [b], tick) == Ready(batches, tick)
    ensures Waiting(batches + [b], tick) == Waiting(batches, tick) + [b]
  {
    if batches != [] {
      AppendWaiting(batches[1..], b, tick);
      assert (batches + [b])[1..] == batches[1..] + [b];
    }
  }

  class FileUploader {
    const rng: Random
    const config: Config
    const nodes: seq<SimNode>
    var nextFileIndex: nat
    /** `pending_writes`, oldest first. */
    var pendingWrites: seq<Batch>

    constructor (rng: Random, config: Config, nodes: seq<SimNode>)
      ensures this.rng == rng && this.config == config && this.nodes == nodes
      ensures nextFileIndex == 0 && pendingWrites == []
    {
      this.rng := rng;
      this.config := config;
      this.nodes := nodes;
      nextFileIndex := 0;
      pendingWrites := [];
    }

    /** The ingest event of `tick`: the number of files, the node, the
        files, handed to the node and queued for writing. Choosing among no
        nodes raises `IndexError`. */
    method Receive(currentTick: int) returns (r: Result<bool>)
      modifies this`nextFileIndex, this`pendingWrites, rng, nodes`filesUploaded
      ensures |nodes| == 0 ==> r.Err? && rng.pos == old(rng.pos) + 1
      ensures |nodes| > 0 ==> r == Ok(true)
      ensures r.Err? ==> nextFileIndex == old(nextFileIndex) && pendingWrites == old(pendingWrites)
      ensures r.Ok? ==>
                var p := old(rng.pos);
                var num := IntIn(1, config.maxFilesPerTick, rng.source(p));
                var k := IndexBelow(|nodes|, rng.source(p + 1));
                var files := ReceiveFiles(rng.source, p + 2, old(nextFileIndex), num, nodes[k].id);
                && nextFileIndex == old(nextFileIndex) + num
                && nodes[k].filesUploaded == old(nodes[k].filesUploaded) + files
                && (forall j :: 0 <= j < |nodes| && nodes[j] != nodes[k] ==> nodes[j].filesUploaded == old(nodes[j].filesUploaded))
                && pendingWrites == old(pendingWrites) + [NewBatch(files, currentTick, config.diskWriteSpeedMbS)]
                && rng.pos == p + 2 + DrawsPerFile * num
    {
      var num := rng.RandInt(1, config.maxFilesPerTick);
      if |nodes| == 0 {
        return Err("IndexError: Cannot choose from an empty sequence");
      }
      var k := rng.Choice(|nodes|);
      ReceiveFor(k, num, currentTick);
      r := Ok(true);
    }

    /** `receive_files` for node `k` from the generator's current position,
        then the hand-over and the queued write. */
    method ReceiveFor(k: nat, num: nat, currentTick: int)
      requires k < |nodes|
      modifies this`nextFileIndex, this`pendingWrites, rng, nodes`filesUploaded
      ensures var files := ReceiveFiles(rng.source, old(rng.pos), old(nextFileIndex), num, nodes[k].id);
              && nextFileIndex == old(nextFileIndex) + num
              && nodes[k].filesUploaded == old(nodes[k].filesUploaded) + files
              && (forall j :: 0 <= j < |nodes| && nodes[j] != nodes[k] ==> nodes[j].filesUploaded == old(nodes[j].filesUploaded))
              && pendingWrites == old(pendingWrites) + [NewBatch(files, currentTick, config.diskWriteSpeedMbS)]
              && rng.pos == old(rng.pos) + DrawsPerFile * num
    {
      var files := ReceiveFiles(rng.source, rng.pos, nextFileIndex, num, nodes[k].id);
      rng.Skip(DrawsPerFile * num);
      AddBatch(k, files, currentTick);
    }

    /** Hands the received files to node `k` and queues their write. */
    method AddBatch(k: nat, files: seq<SimFile>, currentTick: int)
      requires k < |nodes|
      modifies this`nextFileIndex, this`pendingWrites, nodes`filesUploaded
      ensures nextFileIndex == old(nextFileIndex) + |files|
      ensures nodes[k].filesUploaded == old(nodes[k].filesUploaded) + files
      ensures forall j :: 0 <= j < |nodes| && nodes[j] != nodes[k] ==> nodes[j].filesUploaded == old(nodes[j].filesUploaded)
      ensures pendingWrites == old(pendingWrites) + [NewBatch(files, currentTick, config.diskWriteSpeedMbS)]
    {
      nextFileIndex := nextFileIndex + |files|;
      nodes[k].filesUploaded := nodes[k].filesUploaded + files;
      pendingWrites := pendingWrites + [NewBatch(files, currentTick, config.diskWriteSpeedMbS)];
    }

    /** The release half of `tick`: hands back, in queue order, the files of
        every batch ready at `currentTick`, and keeps the others in order. */
    method Release(currentTick: int) returns (ready: seq<SimFile>)
      modifies this`pendingWrites
      ensures ready == Flatten(Ready(old(pendingWrites), currentTick))
      ensures pendingWrites == Waiting(old(pendingWrites), currentTick)
    {
      var queue := pendingWrites;
      var kept: seq<Batch> := [];
      ready := [];
      var i := 0;
      while i < |queue|
        invariant 0 <= i <= |queue|
        invariant ready == Flatten(Ready(queue[..i], currentTick))
        invariant kept == Waiting(queue[..i], currentTick)
      {
        ghost var done := queue[..i];
        assert queue[..i + 1] == done + [queue[i]];
        ReadyAppend(done, queue[i], currentTick);
        if queue[i].readyAt <= currentTick {
          FlattenAppend(Ready(done, currentTick), queue[i]);
          ready := ready + queue[i].files;
        } else {
          assert Ready(done, currentTick) + [] == Ready(done, currentTick);
          kept := kept + [queue[i]];
        }
        i := i + 1;
      }
      assert queue[..i] == queue;
      pendingWrites := kept;
    }

    /** The uploaded-file lists of the nodes, in node order. */
    function Uploads(): (u: seq<seq<SimFile>>)
      reads nodes
      ensures |u| == |nodes| && forall j :: 0 <= j < |nodes| ==> u[j] == nodes[j].filesUploaded
    {
      seq(|nodes|, j reads nodes requires 0 <= j < |nodes| => nodes[j].filesUploaded)
    }

    /** The state after an ingest event whose draws start at position `p`,
        from file index `index0`, write queue `pending0` and uploaded lists
        `uploads0`, followed by the release at `tick`: `num_files` and the
        node are drawn, the files generated from the next draws are appended
        to that node alone, the index grows by their number, and their batch
        is queued behind the batches still being written. */
    ghost predicate Ingested(p: nat, index0: nat, pending0: seq<Batch>, uploads0: seq<seq<SimFile>>, tick: int)
      reads this, rng, nodes
    {
      var num := IntIn(1, config.maxFilesPerTick, rng.source(p));
      && |nodes| > 0 && |uploads0| == |nodes|
      && var k := IndexBelow(|nodes|, rng.source(p + 1));
      var files := ReceiveFiles(rng.source, p + 2, index0, num, nodes[k].id);
      && nextFileIndex == index0 + num
      && nodes[k].filesUploaded == uploads0[k] + files
      && (forall j :: 0 <= j < |nodes| && nodes[j] != nodes[k] ==> nodes[j].filesUploaded == uploads0[j])
      && pendingWrites == Waiting(pending0, tick) + [NewBatch(files, tick, config.diskWriteSpeedMbS)]
      && rng.pos == p + 2 + DrawsPerFile * num
    }

    /** `tick(current_tick)`: an ingest event with probability
        `file_upload_rate`, then the release of the finished writes. Without
        an event only the release happens; with one, the files received (as
        in `Receive`, one draw later) are handed to the chosen node and their
        batch stays queued behind the batches still being written. */
    method Tick(currentTick: int) returns (r: Result<seq<SimFile>>)
      modifies this`nextFileIndex, this`pendingWrites, rng, nodes`filesUploaded
      ensures var event := UnitOf(rng.source(old(rng.pos))) < config.fileUploadRate;
              && (r.Err? <==> event && |nodes| == 0)
              && (!event ==> && nextFileIndex == old(nextFileIndex) && rng.pos == old(rng.pos) + 1
                             && pendingWrites == Waiting(old(pendingWrites), currentTick) && Uploads() == old(Uploads()))
              && (event && r.Ok? ==> Ingested(old(rng.pos) + 1, old(nextFileIndex), old(pendingWrites), old(Uploads()), currentTick))
      ensures r.Ok? ==> r.value == Flatten(Ready(old(pendingWrites), currentTick))
      ensures r.Ok? ==> forall i :: 0 <= i < |pendingWrites| ==> pendingWrites[i].readyAt > currentTick
    {
      ghost var uploads0 := Uploads();
      var u := rng.RandomUnit();
      assert Uploads() == uploads0;
      if u < config.fileUploadRate {
        ghost var p, index0, pending0 := rng.pos, nextFileIndex, pendingWrites;
        r := ReceiveAndRelease(currentTick);
        assert r.Ok? ==> Ingested(p, index0, pending0, uploads0, currentTick);
      } else {
        var ready := Release(currentTick);
        r := Ok(ready);
      }
    }

    /** A tick with an ingest event after its first draw: `Receive`, then
        the release, which leaves the new batch queued last. */
    method ReceiveAndRelease(currentTick: int) returns (r: Result<seq<SimFile>>)
      modifies this`nextFileIndex, this`pendingWrites, rng, nodes`filesUploaded
      ensures r.Err? <==> |nodes| == 0
      ensures r.Ok? ==> r.value == Flatten(Ready(old(pendingWrites), currentTick))
      ensures r.Ok? ==> Ingested(old(rng.pos), old(nextFileIndex), old(pendingWrites), old(Uploads()), currentTick)
    {
      ghost var before := pendingWrites;
      var received := Receive(currentTick);
      if received.Err? {
        return Err(received.error);
      }
      AppendWaiting(before, pendingWrites[|pendingWrites| - 1], currentTick);
      var ready := Release(currentTick);
      r := Ok(ready);
    }
  }

  lemma ReadyAppend(batches: seq<Batch>, b: Batch, tick: int)
    ensures Ready(batches + [b], tick) == Ready(batches, tick) + (if b.readyAt <= tick then [b] else [])
    ensures Waiting(batches + [b], tick) == Waiting(batches, tick) + (if b.readyAt <= tick then [] else [b])
  {
    if batches != [] {
      ReadyAppend(batches[1..], b, tick);
      assert (batches + [b])[1..] == batches[1..] + [b];
    }
  }

  lemma FlattenAppend(batches: seq<Batch>, b: Batch)
    ensures Flatten(batches + [b]) == Flatten(batches) + b.files
  {
    if batches != [] {
      FlattenAppend(batches[1..], b);
      assert (batches + [b])[1..] == batches[1..] + [b];
    }
  }
}
