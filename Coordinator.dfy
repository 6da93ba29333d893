/** The ring coordinator (hs/Ringer.java): it appends registering peers to the
    ring, wiring each one between the last and the first peer registered so
    far, activates one peer once the ring is full, and collects the peers'
    final reports. */
module Coordinator {
  import opened Wire
  import opened Reports
  import opened Peer

  /** What a registration did about starting the election (the call of init()). */
  datatype Start =
    | NotFull             // the ring is not full after this registration
    | Activated(index: nat) // the peer at this ring index was activated
    | PickFailed          // an empty full ring (maxNodes == 0): Random.nextInt(0) throws

  /** No two registered peers share a pid. The source assumes this and never
      checks it; its neighbour setters compare pids, not references. */
  ghost predicate DistinctPids(ring: seq<Node>)
  {
    forall i, j :: 0 <= i < j < |ring| ==> ring[i].pid != ring[j].pid
  }

  /** The registered peers in registration order form a closed two-way cycle;
      a lone peer has no neighbours yet. */
  ghost predicate Wired(ring: seq<Node>)
    reads ring
  {
    (|ring| == 1 ==> ring[0].left == null && ring[0].right == null) &&
    (|ring| >= 2 ==>
      (forall i :: 0 <= i < |ring| - 1 ==> ring[i].right == ring[i + 1] && ring[i + 1].left == ring[i]) &&
      ring[|ring| - 1].right == ring[0] && ring[0].left == ring[|ring| - 1])
  }

  /** In a wired ring of N >= 2 peers, peer i's right neighbour is peer
      (i + 1) mod N and its left neighbour is peer (i - 1) mod N. */
  lemma WiredNeighbours(ring: seq<Node>, i: nat)
    requires Wired(ring) && |ring| >= 2 && i < |ring|
    ensures ring[i].right == ring[(i + 1) % |ring|]
    ensures ring[i].left == ring[(i + |ring| - 1) % |ring|]
  {
    var n := |ring|;
    if i == n - 1 {
      ModWrap(i + 1, n);
    } else {
      ModInRange(i + 1, n);
    }
    if i == 0 {
      ModInRange(i + n - 1, n);
    } else {
      ModWrap(i + n - 1, n);
      assert ring[i - 1].right == ring[i] && ring[i].left == ring[i - 1];
    }
  }

  /** Where k steps along `right` (or along `left`) lead, within the ring. */
  ghost function Follow(ring: seq<Node>, n: Node?, k: nat, rightwards: bool): Node?
    reads ring
  {
    if k == 0 || n == null || n !in ring then n
    else Follow(ring, if rightwards then n.right else n.left, k - 1, rightwards)
  }

  /** From peer i, k <= N steps right reach peer i + k, wrapping past the
      last peer to the first. */
  lemma {:induction false} FollowRight(ring: seq<Node>, i: nat, k: nat)
    requires Wired(ring) && |ring| >= 2 && i < |ring| && k <= |ring|
    ensures Follow(ring, ring[i], k, true) == ring[if i + k < |ring| then i + k else i + k - |ring|]
    decreases k
  {
    if k > 0 {
      var r := if i + 1 < |ring| then i + 1 else 0;
      assert ring[i].right == ring[r] by {
        if i + 1 < |ring| { assert ring[i].right == ring[i + 1]; }
      }
      FollowRight(ring, r, k - 1);
    }
  }

  /** From peer i, k <= N steps left reach peer i - k, wrapping past the
      first peer to the last. */
  lemma {:induction false} FollowLeft(ring: seq<Node>, i: nat, k: nat)
    requires Wired(ring) && |ring| >= 2 && i < |ring| && k <= |ring|
    ensures Follow(ring, ring[i], k, false) == ring[if k <= i then i - k else i + |ring| - k]
    decreases k
  {
    if k > 0 {
      var l := if i > 0 then i - 1 else |ring| - 1;
      assert ring[i].left == ring[l] by {
        if i > 0 { assert ring[i - 1 + 1].left == ring[i - 1]; }
      }
      FollowLeft(ring, l, k - 1);
    }
  }

  /** Ring closure: N steps in either direction lead back to the start. */
  lemma RingCloses(ring: seq<Node>, i: nat)
    requires Wired(ring) && |ring| >= 2 && i < |ring|
    ensures Follow(ring, ring[i], |ring|, true) == ring[i]
    ensures Follow(ring, ring[i], |ring|, false) == ring[i]
  {
    FollowRight(ring, i, |ring|);
    FollowLeft(ring, i, |ring|);
  }

  class Ringer {
    const maxNodes: int
    var ring: seq<Node>
    const reportSet: ReportSet

    /** The ring never outgrows maxNodes, and (pids being distinct) is a closed
        cycle in registration order; reports are expected from every peer. */
    ghost predicate Valid()
      reads this, ring
    {
      (ring == [] || |ring| <= maxNodes)
      && (DistinctPids(ring) ==> Wired(ring))
      && reportSet.maxReports == maxNodes
    }

    constructor (maxNodes: int)
      ensures this.maxNodes == maxNodes && ring == [] && Valid()
      ensures fresh(reportSet) && reportSet.author == "Ringer"
      ensures reportSet.reports == {} && !reportSet.available
    {
      this.maxNodes := maxNodes;
      ring := [];
      reportSet := new ReportSet("Ringer", maxNodes);
    }

    /** registerNode(node): while the ring has room, wires the node between the
        last and the first registered peer and appends it; then, whenever the
        ring is full (also after a refused registration), starts the election. */
    method RegisterNode(node: Node) returns (start: Start)
      requires Valid()
      modifies this`ring, node`left, node`right
      modifies (set m | m in ring)`left, (set m | m in ring)`right
      modifies (set m | m in ring + [node])`activated
      ensures Valid()
      ensures ring == if |old(ring)| < maxNodes then old(ring) + [node] else old(ring)
      ensures |old(ring)| < maxNodes && node !in old(ring) ==>
        node.left == (if old(ring) == [] then null else old(ring)[|old(ring)| - 1]) &&
        node.right == (if old(ring) == [] then null else old(ring)[0])
      ensures |old(ring)| >= maxNodes ==>
        node.left == old(node.left) && node.right == old(node.right) &&
        forall m :: m in ring ==> m.left == old(m.left) && m.right == old(m.right)
      ensures |ring| != maxNodes ==> start == NotFull
      ensures |ring| == maxNodes && ring == [] ==> start == PickFailed
      ensures |ring| == maxNodes && ring != [] ==>
        start.Activated? && start.index < |ring| && ring[start.index].activated
      ensures forall m :: m in ring + [node] && !(start.Activated? && m == ring[start.index]) ==>
        m.activated == old(m.activated)
    {
      if |ring| < maxNodes {
        Append(node);
      }
      if |ring| == maxNodes {
        start := Init();
      } else {
        start := NotFull;
      }
    }

    /** The wiring half of registerNode(node): the node's left neighbour becomes
        the last registered peer and its right neighbour the first, whose
        setters close the cycle around it. */
    method Append(node: Node)
      requires Valid() && |ring| < maxNodes
      modifies this`ring, node`left, node`right
      modifies (set m | m in ring)`left, (set m | m in ring)`right
      ensures Valid()
      ensures ring == old(ring) + [node]
      ensures node !in old(ring) ==>
        node.left == (if old(ring) == [] then null else old(ring)[|old(ring)| - 1]) &&
        node.right == (if old(ring) == [] then null else old(ring)[0])
    {
      var last := if ring == [] then null else ring[|ring| - 1];
      var first := if ring == [] then null else ring[0];
      ghost var before := ring;
      node.SetLeft(last);
      node.SetRight(first);
      ring := ring + [node];
      if DistinctPids(ring) {
        var k := |before|;
        assert DistinctPids(before) by {
          forall i, j | 0 <= i < j < k ensures before[i].pid != before[j].pid {
            assert before[i] == ring[i] && before[j] == ring[j];
          }
        }
        forall i | 0 <= i < k ensures ring[i] == before[i] && before[i] != node {
          assert ring[k] == node && ring[i].pid != ring[k].pid;
        }
        if k >= 2 {
          forall i | 0 <= i < k - 1
            ensures ring[i].right == ring[i + 1] && ring[i + 1].left == ring[i]
          {
            assert before[i] != before[k - 1] && before[i + 1] != before[0];
            assert old(before[i].right) == before[i + 1] && old(before[i + 1].left) == before[i];
          }
        }
      }
    }

    /** init(): picks one registered peer (uniformly at random in the source)
        and activates it. */
    method Init() returns (start: Start)
      requires Valid()
      modifies (set m | m in ring)`activated
      ensures Valid()
      ensures ring == [] ==> start == PickFailed
      ensures ring != [] ==> start.Activated? && start.index < |ring| && ring[start.index].activated
      ensures forall m :: m in ring && !(start.Activated? && m == ring[start.index]) ==>
        m.activated == old(m.activated)
    {
      if ring == [] {
        start := PickFailed;
      } else {
        var i :| 0 <= i < |ring|;
        ring[i].Activate();
        start := Activated(i);
      }
    }

    /** report(report): adds the report; the final summary is due exactly when
        the set holds maxNodes reports and its totals are available. */
    method Report(report: Report) returns (prepareNow: bool)
      requires Valid()
      modifies reportSet
      ensures Valid()
      ensures reportSet.reports == old(reportSet.reports) + {report}
      ensures prepareNow == (|reportSet.reports| == maxNodes && reportSet.available)
      ensures prepareNow ==>
        reportSet.totalSentCount == Total(reportSet.reports, SentCount) &&
        reportSet.totalReceiveCount == Total(reportSet.reports, ReceivedCount)
    {
      reportSet.Add(report);
      prepareNow := reportSet.Size() == maxNodes && reportSet.Available();
    }
  }
}
