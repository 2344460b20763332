/** The bootstrap server: a directory of every node that has announced
    itself, answering each announcement with a sample of the other
    registered ids drawn from a generator keyed by the node and the tick. */
module Bootstrap {
  import opened Common
  import opened Rng
  import opened Text
  import opened SimConfig
  import opened Network

  /** `str(i)` for any integer. */
  function IntToString(i: int): string {
    if i < 0 then "-" + NatToString(-i) else NatToString(i)
  }

  /** `list.remove(x)`: drops the first occurrence of `x`. Where `x` is
      absent Python raises `ValueError`; here `s` comes back unchanged. The
      one caller removes a key it has just registered, so that case does not
      arise there. */
  function RemoveFirst(s: seq<string>, x: string): (r: seq<string>)
    ensures x in s ==> multiset(r) == multiset(s) - multiset{x} && |r| == |s| - 1
    ensures x !in s ==> r == s
  {
    if s == [] then []
    else
      assert s == [s[0]] + s[1..];
      if s[0] == x then s[1..] else [s[0]] + RemoveFirst(s[1..], x)
  }

  /** Removing an element from a sequence without repeats leaves exactly the
      other elements, each once. */
  lemma {:induction false} RemoveFirstDistinct(s: seq<string>, x: string)
    requires Distinct(s) && x in s
    ensures Distinct(RemoveFirst(s, x))
    ensures forall y :: y in RemoveFirst(s, x) <==> y in s && y != x
  {
    assert s == [s[0]] + s[1..];
    if s[0] != x {
      RemoveFirstDistinct(s[1..], x);
      var r := RemoveFirst(s, x);
      assert s[0] !in s[1..];
      assert r == [s[0]] + RemoveFirst(s[1..], x);
    } else {
      assert x !in s[1..];
    }
  }

  /** The sample size `register_node` asks for: `min(len(known), size)`, no
      sample at all when that is not positive. */
  function SampleSize(known: nat, size: int): (k: nat)
    ensures k <= known
    ensures size > 0 ==> k == Min(known, size)
    ensures size <= 0 ==> k == 0
  {
    if Min(known, size) > 0 then Min(known, size) else 0
  }

  class BootstrapServer {
    const config: Config
    /** `registered_peers`: peer id to node, keys in insertion order. */
    var registeredPeers: map<string, SimNode>
    var peerOrder: seq<string>

    predicate Valid()
      reads this
    {
      Distinct(peerOrder) && Elems(peerOrder) == registeredPeers.Keys
    }

    constructor (config: Config)
      ensures this.config == config && registeredPeers == map[] && peerOrder == [] && Valid()
    {
      this.config := config;
      registeredPeers := map[];
      peerOrder := [];
    }

    /** Records the node under its id; a known id keeps its place in the key
        order. */
    method Register(node: SimNode)
      requires Valid()
      modifies this
      ensures Valid()
      ensures registeredPeers == old(registeredPeers)[node.id := node]
      ensures peerOrder == if node.id in old(registeredPeers) then old(peerOrder) else old(peerOrder) + [node.id]
    {
      if node.id !in registeredPeers {
        peerOrder := peerOrder + [node.id];
      }
      registeredPeers := registeredPeers[node.id := node];
    }

    /** `register_node(node, tick)`: registers the node, then answers with a
        sample of the other registered ids. */
    method RegisterNode(node: SimNode, tick: int) returns (sample: seq<string>)
      requires Valid()
      modifies this
      ensures Valid()
      ensures registeredPeers == old(registeredPeers)[node.id := node]
      ensures peerOrder == if node.id in old(registeredPeers) then old(peerOrder) else old(peerOrder) + [node.id]
      ensures |sample| == SampleSize(|registeredPeers| - 1, config.bootstrapPeerSampleSize)
      ensures Distinct(sample)
      ensures forall id :: id in sample ==> id in registeredPeers && id != node.id
    {
      Register(node);
      var rng := new Random(config.childSource("bootstrap_response_" + node.id + "_" + IntToString(tick)));
      var known := RemoveFirst(peerOrder, node.id);
      RemoveFirstDistinct(peerOrder, node.id);
      assert |registeredPeers| == |peerOrder| by {
        DistinctCardinality(peerOrder);
      }
      var k := SampleSize(|known|, config.bootstrapPeerSampleSize);
      if k > 0 {
        sample := rng.Sample(known, k);
        SubMultisetDistinct(sample, known);
        forall id | id in sample
          ensures id in known
        {
          assert id in multiset(sample);
        }
      } else {
        sample := [];
      }
    }
  }

  /** A sequence without repeats has as many elements as its set of elements. */
  lemma {:induction false} DistinctCardinality(s: seq<string>)
    requires Distinct(s)
    ensures |Elems(s)| == |s|
  {
    if s != [] {
      DistinctCardinality(s[1..]);
      assert Elems(s) == Elems(s[1..]) + {s[0]};
      assert s[0] !in Elems(s[1..]);
    }
  }
}
