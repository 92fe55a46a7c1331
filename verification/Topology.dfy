/** CPU ranges of NUMA nodes. */
module Topology {
  const INVALID_NODE: nat := 0xFFFF
  const UNSET: int := 0xFFFF_FFFF_FFFF_FFFF

  datatype CpuRange = CpuRange(start: int, end: int)

  /** The node a CPU is counted to: an unknown node counts as the first. */
  function NodeOf(cpuToNode: seq<nat>, nranges: nat, cpu: nat): nat
    requires cpu < |cpuToNode|
  {
    if cpuToNode[cpu] == INVALID_NODE || cpuToNode[cpu] >= nranges then 0 else cpuToNode[cpu]
  }

  /** The range of a node spans its CPUs below `n`, tightly; a node without CPUs has the range from 1 to 0. */
  ghost predicate Spans(nodes: seq<nat>, n: nat, node: nat, r: CpuRange, unset: CpuRange)
    requires n <= |nodes|
  {
    if exists c :: 0 <= c < n && nodes[c] == node then
      && 0 <= r.start < n && nodes[r.start] == node && 0 <= r.end < n && nodes[r.end] == node
      && forall c :: 0 <= c < n && nodes[c] == node ==> r.start <= c <= r.end
    else r == unset
  }

  /** One CPU more is counted to its node. */
  lemma NextCpu(nodes: seq<nat>, cpu: nat, ranges: seq<CpuRange>, ranges': seq<CpuRange>, unset: CpuRange)
    requires cpu < |nodes| < UNSET && nodes[cpu] < |ranges| && unset == CpuRange(UNSET, 0)
    requires forall k :: 0 <= k < |ranges| ==> Spans(nodes, cpu, k, ranges[k], unset)
    requires var r := ranges[nodes[cpu]]; ranges' == ranges[nodes[cpu] := CpuRange(if r.start == UNSET then cpu else r.start, cpu)]
    ensures forall k :: 0 <= k < |ranges| ==> Spans(nodes, cpu + 1, k, ranges'[k], unset)
  {
    forall k | 0 <= k < |ranges|
      ensures Spans(nodes, cpu + 1, k, ranges'[k], unset)
    {
      assert Spans(nodes, cpu, k, ranges[k], unset);
    }
  }

  /** Which nodes CPUs from `cpu` on belong to does not matter to the CPUs before. */
  lemma SpansFrame(nodes: seq<nat>, nodes': seq<nat>, n: nat, node: nat, r: CpuRange, unset: CpuRange)
    requires n <= |nodes| == |nodes'| && nodes[..n] == nodes'[..n] && Spans(nodes, n, node, r, unset)
    ensures Spans(nodes', n, node, r, unset)
  {
    assert forall c :: 0 <= c < n ==> nodes[c] == nodes[..n][c] == nodes'[c];
  }

  lemma NoneYet(nodes: seq<nat>, unset: CpuRange)
    ensures forall k :: Spans(nodes, 0, k, unset, unset)
  {
  }

  /** A range never set becomes the empty one. */
  lemma Settled(nodes: seq<nat>, k: nat, r: CpuRange)
    requires |nodes| < UNSET && Spans(nodes, |nodes|, k, r, CpuRange(UNSET, 0))
    ensures Spans(nodes, |nodes|, k, if r.start == UNSET then CpuRange(1, 0) else r, CpuRange(1, 0))
  {
  }

  /** populate_cpu_ranges. */
  method PopulateCpuRanges(cpuToNode: seq<nat>, nranges: nat) returns (nodes: seq<nat>, ranges: seq<CpuRange>)
    requires nranges > 0 && |cpuToNode| < UNSET
    ensures |nodes| == |cpuToNode| && |ranges| == nranges
    ensures forall c :: 0 <= c < |nodes| ==> nodes[c] == NodeOf(cpuToNode, nranges, c) < nranges
    ensures forall k :: 0 <= k < nranges ==> Spans(nodes, |nodes|, k, ranges[k], CpuRange(1, 0))
  {
    hide Spans;
    var unset := CpuRange(UNSET, 0);
    ranges := seq(nranges, _ => unset);
    nodes := cpuToNode;
    NoneYet(nodes, unset);
    var cpu := 0;
    while cpu < |cpuToNode|
      invariant cpu <= |cpuToNode| == |nodes| && |ranges| == nranges
      invariant forall c :: 0 <= c < cpu ==> nodes[c] == NodeOf(cpuToNode, nranges, c) < nranges
      invariant forall c :: cpu <= c < |nodes| ==> nodes[c] == cpuToNode[c]
      invariant forall k :: 0 <= k < nranges ==> Spans(nodes, cpu, k, ranges[k], unset)
    {
      if nodes[cpu] == INVALID_NODE || nodes[cpu] >= nranges {
        forall k | 0 <= k < nranges
          ensures Spans(nodes[cpu := 0], cpu, k, ranges[k], unset)
        {
          SpansFrame(nodes, nodes[cpu := 0], cpu, k, ranges[k], unset);
        }
        nodes := nodes[cpu := 0];
      }
      var node := nodes[cpu];
      var r := ranges[node];
      var r' := CpuRange(if r.start == UNSET then cpu else r.start, cpu);
      var ranges' := ranges[node := r'];
      NextCpu(nodes, cpu, ranges, ranges', unset);
      ranges := ranges';
      cpu := cpu + 1;
    }
    var k := 0;
    while k < nranges
      invariant k <= nranges == |ranges|
      invariant forall i :: 0 <= i < k ==> Spans(nodes, |nodes|, i, ranges[i], CpuRange(1, 0))
      invariant forall i :: k <= i < nranges ==> Spans(nodes, |nodes|, i, ranges[i], unset)
    {
      Settled(nodes, k, ranges[k]);
      if ranges[k].start == UNSET {
        ranges := ranges[k := CpuRange(1, 0)];
      }
      k := k + 1;
    }
  }

  /** Every CPU lies in the range of its node. */
  lemma RangesCover(nodes: seq<nat>, ranges: seq<CpuRange>, c: nat)
    requires c < |nodes| && nodes[c] < |ranges| && Spans(nodes, |nodes|, nodes[c], ranges[nodes[c]], CpuRange(1, 0))
    ensures ranges[nodes[c]].start <= c <= ranges[nodes[c]].end < |nodes|
  {
  }

  // ----- round robin -----

  /** The node visited in turn `i` of a round that starts behind `node`. */
  function Turn(i: nat, node: nat, n: nat): (k: nat)
    requires n > 0
    ensures k < n
  {
    (i + node) % n
  }

  /** When a round visits another node. */
  ghost function TurnOf(node: nat, other: nat, n: nat): (i: nat)
    requires node < n && other < n && other != node
    ensures 1 <= i < n && Turn(i, node, n) == other
  {
    RoundCovers(node, other, n);
    var i: nat :| 1 <= i < n && Turn(i, node, n) == other;
    i
  }

  /** A round visits every other node. */
  lemma RoundCovers(node: nat, other: nat, n: nat)
    requires node < n && other < n && other != node
    ensures exists i: nat :: 1 <= i < n && Turn(i, node, n) == other
  {
    if other > node {
      Small(other, n);
      assert Turn(other - node, node, n) == other;
    } else {
      OnceAround(other, n);
      assert Turn(other + n - node, node, n) == other;
    }
  }

  lemma Small(x: nat, n: nat)
    requires x < n
    ensures x % n == x
  {
  }

  lemma OnceAround(x: nat, n: nat)
    requires x < n
    ensures (x + n) % n == x
  {
  }
}
