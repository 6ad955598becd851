/** The skeleton graph: per-node state models and the node map with its
    per-node queues of pending measurements. */
module FusionGraph {
  import opened FusionTypes

  /** `m` carries at least `n` data entries and an uncertainty of at least n x n. */
  predicate Covers(m: Measurement, n: nat) {
    |m.data| >= n && HasTopLeft(m.uncertainty, n)
  }

  /** The top-left n x n block of `u`. */
  function TopLeft(u: Matrix, n: nat): (r: Matrix)
    requires HasTopLeft(u, n)
    ensures |r| == n
    ensures forall i :: 0 <= i < n ==> |r[i]| == n
    ensures forall i, j :: 0 <= i < n && 0 <= j < n ==> r[i][j] == u[i][j]
  {
    seq(n, i requires 0 <= i < n => u[i][..n])
  }

  /** Two matrices with the same top-left n x n entries have the same top-left block. */
  lemma TopLeftDeterminedByEntries(u: Matrix, v: Matrix, n: nat)
    requires HasTopLeft(u, n) && HasTopLeft(v, n)
    requires forall i, j :: 0 <= i < n && 0 <= j < n ==> u[i][j] == v[i][j]
    ensures TopLeft(u, n) == TopLeft(v, n)
  {
    var a, b := TopLeft(u, n), TopLeft(v, n);
    forall i | 0 <= i < n
      ensures a[i] == b[i]
    {
      assert |a[i]| == |b[i]| == n;
      forall j | 0 <= j < n
        ensures a[i][j] == b[i][j]
      {
      }
    }
  }

  // ---------------------------------------------------------------------------
  // Position-only model: a 3-vector and its 3 x 3 uncertainty.
  // ---------------------------------------------------------------------------

  datatype CartesianState = CartesianState(expectation: Vector, uncertainty: Matrix)

  /** "Use latest measurement": the new expectation is the first three data entries
      and the new uncertainty the top-left 3 x 3 block; the old state is discarded. */
  function CartesianUpdate(state: CartesianState, m: Measurement): (r: CartesianState)
    requires Covers(m, 3)
    ensures |r.expectation| == 3
    ensures forall i :: 0 <= i < 3 ==> r.expectation[i] == m.data[i]
    ensures |r.uncertainty| == 3 && forall i :: 0 <= i < 3 ==> |r.uncertainty[i]| == 3
    ensures forall i, j :: 0 <= i < 3 && 0 <= j < 3 ==> r.uncertainty[i][j] == m.uncertainty[i][j]
  {
    CartesianState(m.data[0..3], TopLeft(m.uncertainty, 3))
  }

  /** Newest wins: the result does not depend on the prior state, so an update
      followed by another equals the second update alone. */
  lemma CartesianNewestWins(s: CartesianState, m1: Measurement, m2: Measurement)
    requires Covers(m1, 3) && Covers(m2, 3)
    ensures CartesianUpdate(CartesianUpdate(s, m1), m2) == CartesianUpdate(s, m2)
    ensures forall t :: CartesianUpdate(t, m2) == CartesianUpdate(s, m2)
  {
  }

  /** Applying the same measurement twice is the same as applying it once. */
  lemma CartesianIdempotent(s: CartesianState, m: Measurement)
    requires Covers(m, 3)
    ensures CartesianUpdate(CartesianUpdate(s, m), m) == CartesianUpdate(s, m)
  {
  }

  /** Only the first three data entries and the top-left 3 x 3 block are read. */
  lemma CartesianReadsLeadingOnly(s: CartesianState, m1: Measurement, m2: Measurement)
    requires Covers(m1, 3) && Covers(m2, 3)
    requires m1.data[..3] == m2.data[..3]
    requires forall i, j :: 0 <= i < 3 && 0 <= j < 3 ==> m1.uncertainty[i][j] == m2.uncertainty[i][j]
    ensures CartesianUpdate(s, m1) == CartesianUpdate(s, m2)
  {
    TopLeftDeterminedByEntries(m1.uncertainty, m2.uncertainty, 3);
  }

  // ---------------------------------------------------------------------------
  // Position and orientation model: two 3-vectors and their 6 x 6 uncertainty.
  // ---------------------------------------------------------------------------

  datatype TwistState = TwistState(position: Vector, rotation: Vector, uncertainty: Matrix)

  /** "Use latest measurement": position is data[0..3), rotation data[3..6) and the
      uncertainty the top-left 6 x 6 block; the old state is discarded. */
  function TwistUpdate(state: TwistState, m: Measurement): (r: TwistState)
    requires Covers(m, 6)
    ensures |r.position| == 3 && |r.rotation| == 3
    ensures forall i :: 0 <= i < 3 ==> r.position[i] == m.data[i] && r.rotation[i] == m.data[3 + i]
    ensures |r.uncertainty| == 6 && forall i :: 0 <= i < 6 ==> |r.uncertainty[i]| == 6
    ensures forall i, j :: 0 <= i < 6 && 0 <= j < 6 ==> r.uncertainty[i][j] == m.uncertainty[i][j]
  {
    TwistState(m.data[0..3], m.data[3..6], TopLeft(m.uncertainty, 6))
  }

  /** The position and rotation slices are adjacent and disjoint: together they are
      exactly the first six data entries. */
  lemma TwistSlicesPartitionData(s: TwistState, m: Measurement)
    requires Covers(m, 6)
    ensures TwistUpdate(s, m).position + TwistUpdate(s, m).rotation == m.data[..6]
  {
  }

  /** Newest wins: the result does not depend on the prior state. */
  lemma TwistNewestWins(s: TwistState, m1: Measurement, m2: Measurement)
    requires Covers(m1, 6) && Covers(m2, 6)
    ensures TwistUpdate(TwistUpdate(s, m1), m2) == TwistUpdate(s, m2)
    ensures forall t :: TwistUpdate(t, m2) == TwistUpdate(s, m2)
  {
  }

  /** Applying the same measurement twice is the same as applying it once. */
  lemma TwistIdempotent(s: TwistState, m: Measurement)
    requires Covers(m, 6)
    ensures TwistUpdate(TwistUpdate(s, m), m) == TwistUpdate(s, m)
  {
  }

  /** Only the first six data entries and the top-left 6 x 6 block are read. */
  lemma TwistReadsLeadingOnly(s: TwistState, m1: Measurement, m2: Measurement)
    requires Covers(m1, 6) && Covers(m2, 6)
    requires m1.data[..6] == m2.data[..6]
    requires forall i, j :: 0 <= i < 6 && 0 <= j < 6 ==> m1.uncertainty[i][j] == m2.uncertainty[i][j]
    ensures TwistUpdate(s, m1) == TwistUpdate(s, m2)
  {
    assert m1.data[0..3] == m1.data[..6][0..3] == m2.data[..6][0..3] == m2.data[0..3];
    assert m1.data[3..6] == m1.data[..6][3..6] == m2.data[..6][3..6] == m2.data[3..6];
    TopLeftDeterminedByEntries(m1.uncertainty, m2.uncertainty, 6);
  }

  /** Every measurement of the queue has the dimensions the twist model consumes. */
  predicate AllCoverTwist(ms: seq<Measurement>) {
    forall k :: 0 <= k < |ms| ==> Covers(ms[k], 6)
  }

  /** Draining a node's queue front to back, one update per measurement. */
  function ApplyQueue(s: TwistState, ms: seq<Measurement>): TwistState
    requires AllCoverTwist(ms)
    decreases |ms|
  {
    if ms == [] then s else ApplyQueue(TwistUpdate(s, ms[0]), ms[1..])
  }

  /** Draining a queue leaves exactly the state of its newest measurement, and an
      empty queue leaves the state as it was. */
  lemma {:induction false} ApplyQueueNewestWins(s: TwistState, ms: seq<Measurement>)
    requires AllCoverTwist(ms)
    ensures ms == [] ==> ApplyQueue(s, ms) == s
    ensures ms != [] ==> ApplyQueue(s, ms) == TwistUpdate(s, ms[|ms| - 1])
    decreases |ms|
  {
    if ms != [] {
      var rest := ms[1..];
      if rest != [] {
        ApplyQueueNewestWins(TwistUpdate(s, ms[0]), rest);
        assert rest[|rest| - 1] == ms[|ms| - 1];
      }
    }
  }

  // ---------------------------------------------------------------------------
  // The node tree.
  // ---------------------------------------------------------------------------

  /** A skeleton node: its state estimate, the measurements queued for the next
      fusion (in arrival order), its own name and its parent's name. */
  datatype Node<S> = Node(state: S, measurements: seq<Measurement>, desc: NodeDescriptor, parentDesc: NodeDescriptor)

  type DefaultSensorNode = Node<TwistState>
  type PositionSensorNode = Node<CartesianState>

  /** The measurements tagged with `n` in a list of (measurement, node) pairs, in order. */
  function QueuedFor(pending: seq<(Measurement, NodeDescriptor)>, n: NodeDescriptor): seq<Measurement>
  {
    if pending == [] then []
    else (if pending[0].1 == n then [pending[0].0] else []) + QueuedFor(pending[1..], n)
  }

  lemma {:induction false} QueuedForAppend(a: seq<(Measurement, NodeDescriptor)>, b: seq<(Measurement, NodeDescriptor)>, n: NodeDescriptor)
    ensures QueuedFor(a + b, n) == QueuedFor(a, n) + QueuedFor(b, n)
    decreases |a|
  {
    if a == [] {
      assert a + b == b;
    } else {
      var head := if a[0].1 == n then [a[0].0] else [];
      calc {
        QueuedFor(a + b, n);
        { assert (a + b)[0] == a[0]; }
        head + QueuedFor((a + b)[1..], n);
        { assert (a + b)[1..] == a[1..] + b; }
        head + QueuedFor(a[1..] + b, n);
        { QueuedForAppend(a[1..], b, n); }
        head + (QueuedFor(a[1..], n) + QueuedFor(b, n));
        (head + QueuedFor(a[1..], n)) + QueuedFor(b, n);
      }
    }
  }

  /** Every measurement of `ms` paired with node `n`. */
  function Tagged(ms: seq<Measurement>, n: NodeDescriptor): (r: seq<(Measurement, NodeDescriptor)>)
    ensures |r| == |ms|
    ensures forall k :: 0 <= k < |ms| ==> r[k] == (ms[k], n)
  {
    seq(|ms|, k requires 0 <= k < |ms| => (ms[k], n))
  }

  /** Tagging a queue and selecting one node gives the queue back for that node
      and nothing for any other. */
  lemma {:induction false} QueuedForTagged(ms: seq<Measurement>, n: NodeDescriptor, other: NodeDescriptor)
    ensures QueuedFor(Tagged(ms, n), n) == ms
    ensures other != n ==> QueuedFor(Tagged(ms, n), other) == []
    decreases |ms|
  {
    if ms != [] {
      assert Tagged(ms, n)[1..] == Tagged(ms[1..], n);
      QueuedForTagged(ms[1..], n, other);
    }
  }

  /** Appending node `n`'s tagged queue adds that queue to `n`'s selection, nothing to
      any other node's, and only pairs naming `n`. */
  lemma AppendTaggedBlock(pending: seq<(Measurement, NodeDescriptor)>, ms: seq<Measurement>, n: NodeDescriptor)
    ensures forall p :: p in pending + Tagged(ms, n) ==> p in pending || p.1 == n
    ensures forall other :: QueuedFor(pending + Tagged(ms, n), other)
                            == QueuedFor(pending, other) + (if other == n then ms else [])
  {
    var block := Tagged(ms, n);
    forall p | p in pending + block
      ensures p in pending || p.1 == n
    {
      if p !in pending {
        var k :| 0 <= k < |block| && block[k] == p;
      }
    }
    forall other
      ensures QueuedFor(pending + block, other) == QueuedFor(pending, other) + (if other == n then ms else [])
    {
      QueuedForAppend(pending, block, other);
      QueuedForTagged(ms, n, other);
    }
  }

  /** The skeleton: a map from descriptor to node. */
  class FusionGraph {
    var nodes: map<NodeDescriptor, DefaultSensorNode>
    /** How many times `Fuse` was called; its body is not part of this model. */
    ghost var fuseCalls: nat

    /** Each node is stored under its own descriptor. */
    ghost predicate Valid()
      reads this
    {
      forall n :: n in nodes ==> nodes[n].desc == n
    }

    constructor ()
      ensures Valid() && nodes == map[] && fuseCalls == 0
    {
      nodes := map[];
      fuseCalls := 0;
    }

    /** Adds `node` under `parent` with an empty queue; the initial state estimate
        is left unspecified, as default construction leaves it. */
    method AddNode(node: NodeDescriptor, parent: NodeDescriptor)
      requires Valid()
      modifies this
      ensures Valid()
      ensures nodes.Keys == old(nodes.Keys) + {node}
      ensures nodes[node].measurements == [] && nodes[node].parentDesc == parent
      ensures forall n :: n in old(nodes) && n != node ==> nodes[n] == old(nodes)[n]
      ensures fuseCalls == old(fuseCalls)
    {
      var initial: TwistState :| true;
      nodes := nodes[node := Node(initial, [], node, parent)];
    }

    /** Queues `m` on `node` for the next fusion, after everything queued before.
        A descriptor with no node leaves the graph as it was. */
    method AddMeasurement(node: NodeDescriptor, m: Measurement)
      requires Valid()
      modifies this
      ensures Valid()
      ensures node in old(nodes) ==>
        nodes == old(nodes)[node := old(nodes)[node].(measurements := old(nodes)[node].measurements + [m])]
      ensures node !in old(nodes) ==> nodes == old(nodes)
      ensures fuseCalls == old(fuseCalls)
    {
      if node in nodes {
        nodes := nodes[node := nodes[node].(measurements := nodes[node].measurements + [m])];
      }
    }

    /** The pending measurements of all nodes, each paired with its node. Restricted to
        one node, the list is exactly that node's queue, in arrival order. */
    method GetMeasurements() returns (pending: seq<(Measurement, NodeDescriptor)>)
      ensures forall p :: p in pending ==> p.1 in nodes
      ensures forall n :: n in nodes ==> QueuedFor(pending, n) == nodes[n].measurements
    {
      pending := [];
      var remaining := nodes.Keys;
      while remaining != {}
        invariant remaining <= nodes.Keys
        invariant forall p :: p in pending ==> p.1 in nodes && p.1 !in remaining
        invariant forall n :: n in nodes && n !in remaining ==> QueuedFor(pending, n) == nodes[n].measurements
        invariant forall n :: n in remaining ==> QueuedFor(pending, n) == []
        decreases remaining
      {
        var n :| n in remaining;
        AppendTaggedBlock(pending, nodes[n].measurements, n);
        pending := pending + Tagged(nodes[n].measurements, n);
        remaining := remaining - {n};
      }
    }

    /** Runs one fusion pass. Its body is not part of this model: only the call is recorded. */
    method Fuse()
      requires Valid()
      modifies this
      ensures Valid()
      ensures fuseCalls == old(fuseCalls) + 1
    {
      fuseCalls := fuseCalls + 1;
    }

    /** Empties every node's queue, leaving states, names and parents as they were. */
    method ClearMeasurements()
      requires Valid()
      modifies this
      ensures Valid()
      ensures nodes.Keys == old(nodes.Keys)
      ensures forall n :: n in nodes ==> nodes[n] == old(nodes)[n].(measurements := [])
      ensures fuseCalls == old(fuseCalls)
    {
      nodes := map n | n in nodes :: nodes[n].(measurements := []);
    }
  }
}
