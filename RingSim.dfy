/** A whole ring of peers, sequentially: the peers' election fields, the status
    of their threads and their inbound queues, with the peers' steps
    interleaved in any order. A send is a remote call that appends the probe
    to the neighbour's queue before it returns, so it is delivered at once;
    a delivery to a peer whose thread has not been started starts it
    (send(probe) and activate() in hs/Node.java). */
module RingSim {
  import opened Wire
  import opened Protocol

  /** The state of a peer's thread. */
  datatype Status =
    | Dormant   // not activated yet
    | Started   // activated, run() has not sent its first probes yet
    | Running   // inside run()'s loop
    | Exited    // left run()'s loop

  /** Peer i's left neighbour is peer i - 1 and its right neighbour peer i + 1,
      around the ring (the wiring Coordinator.Wired describes). */
  datatype Ring = Ring(peers: seq<PeerState>, status: seq<Status>, queues: seq<seq<Probe>>)

  /** At least two peers (a lone peer has no neighbours to send to), each with
      a status and a queue. */
  predicate WellFormed(r: Ring)
  {
    |r.peers| >= 2 && |r.status| == |r.peers| && |r.queues| == |r.peers|
  }

  /** The index of the peer that a send on `side` from peer i reaches. */
  function Neighbour(n: nat, i: nat, side: Side): (j: nat)
    requires n >= 2 && i < n
    ensures j < n && j != i
    ensures side == RightSide ==> j == (i + 1) % n
    ensures side == LeftSide ==> j == (i + n - 1) % n
  {
    if side == RightSide then
      if i + 1 == n then ModWrap(i + 1, n); 0
      else ModInRange(i + 1, n); i + 1
    else if i == 0 then ModInRange(i + n - 1, n); n - 1
    else ModWrap(i + n - 1, n); i - 1
  }

  /** A ring of peers with the given pids, none of them activated. */
  function Start(pids: seq<int>): (r: Ring)
    requires |pids| >= 2
    ensures WellFormed(r) && |r.peers| == |pids|
    ensures forall i :: 0 <= i < |pids| ==>
      r.peers[i] == Initial(pids[i]) && r.status[i] == Dormant && r.queues[i] == []
  {
    Ring(seq(|pids|, i requires 0 <= i < |pids| => Initial(pids[i])),
         seq(|pids|, _ => Dormant),
         seq(|pids|, _ => []))
  }

  /** The sends of peer `from`, made one after the other: each probe joins the
      tail of its neighbour's queue and starts that neighbour if dormant. */
  function Deliver(r: Ring, from: nat, sends: seq<Envelope>): (r': Ring)
    requires WellFormed(r) && from < |r.peers|
    ensures WellFormed(r') && r'.peers == r.peers
    decreases |sends|
  {
    if sends == [] then r
    else
      var j := Neighbour(|r.peers|, from, sends[0].side);
      Deliver(r.(queues := r.queues[j := r.queues[j] + [sends[0].probe]],
                 status := r.status[j := if r.status[j] == Dormant then Started else r.status[j]]),
              from, sends[1..])
  }

  /** The probes among `sends` that go to peer j, in the order they are sent. */
  function Towards(n: nat, from: nat, sends: seq<Envelope>, j: nat): seq<Probe>
    requires n >= 2 && from < n
    decreases |sends|
  {
    if sends == [] then []
    else (if Neighbour(n, from, sends[0].side) == j then [sends[0].probe] else [])
         + Towards(n, from, sends[1..], j)
  }

  /** Delivery is FIFO per link: every peer's queue grows by exactly the probes
      sent its way, in sending order, behind what it held; a peer is started
      exactly when it was dormant and receives something. */
  lemma {:induction false} DeliverFifo(r: Ring, from: nat, sends: seq<Envelope>)
    requires WellFormed(r) && from < |r.peers|
    ensures var r' := Deliver(r, from, sends);
      forall j :: 0 <= j < |r.peers| ==>
        r'.queues[j] == r.queues[j] + Towards(|r.peers|, from, sends, j) &&
        r'.status[j] == (if r.status[j] == Dormant && Towards(|r.peers|, from, sends, j) != []
                         then Started else r.status[j])
    decreases |sends|
  {
    if sends != [] {
      var n := |r.peers|;
      var j0 := Neighbour(n, from, sends[0].side);
      var r1 := r.(queues := r.queues[j0 := r.queues[j0] + [sends[0].probe]],
                   status := r.status[j0 := if r.status[j0] == Dormant then Started else r.status[j0]]);
      DeliverFifo(r1, from, sends[1..]);
      forall j | 0 <= j < n
        ensures Deliver(r, from, sends).queues[j] == r.queues[j] + Towards(n, from, sends, j)
      {
        var head := if j0 == j then [sends[0].probe] else [];
        assert r1.queues[j] == r.queues[j] + head;
        assert r.queues[j] + head + Towards(n, from, sends[1..], j)
            == r.queues[j] + (head + Towards(n, from, sends[1..], j));
      }
    }
  }

  /** What a peer's step does, as the ring's actions. */
  datatype Action =
    | Activate(i: nat)          // the coordinator's init() activates peer i
    | Begin(i: nat, id: int)    // peer i's thread sends its ELECTION both ways at its phase
    | Process(i: nat, id: int)  // peer i takes its oldest probe and processes it
    | Stop(i: nat)              // peer i, a leader whose announcement came back, leaves the loop

  function Actor(a: Action): nat
  {
    match a
    case Activate(i) => i
    case Begin(i, _) => i
    case Process(i, _) => i
    case Stop(i) => i
  }

  /** When an action can happen: a thread sends its first probes once started;
      a running peer processes while its queue is non-empty and leaves the
      loop at the top-of-loop exit test. */
  predicate Enabled(r: Ring, a: Action)
    requires WellFormed(r)
  {
    Actor(a) < |r.peers| &&
    match a
    case Activate(i) => true
    case Begin(i, _) => r.status[i] == Started
    case Process(i, _) => r.status[i] == Running && r.queues[i] != [] && !AnnouncedLeader(r.peers[i])
    case Stop(i) => r.status[i] == Running && AnnouncedLeader(r.peers[i])
  }

  /** The effect of an enabled action. A processed probe may make the peer
      exit by the after-step test; its sends are made before that test. */
  function Apply(r: Ring, a: Action): (r': Ring)
    requires WellFormed(r) && Enabled(r, a)
    ensures WellFormed(r') && |r'.peers| == |r.peers|
  {
    match a
    case Activate(i) =>
      if r.status[i] == Dormant then r.(status := r.status[i := Started]) else r
    case Begin(i, id) =>
      Deliver(r.(status := r.status[i := Running]), i,
              ProbeSends(r.peers[i].pid, Election, r.peers[i].phase, Both, id))
    case Process(i, id) =>
      var o := Step(r.peers[i], r.queues[i][0], id);
      Deliver(r.(peers := r.peers[i := o.state],
                 queues := r.queues[i := r.queues[i][1..]],
                 status := if KnowsOtherLeader(o.state) then r.status[i := Exited] else r.status),
              i, o.sends)
    case Stop(i) => r.(status := r.status[i := Exited])
  }

  /** The ring after a sequence of actions, or None if one of them was not
      enabled when its turn came. */
  function Execute(r: Ring, trace: seq<Action>): Option<Ring>
    requires WellFormed(r)
    decreases |trace|
  {
    if trace == [] then Some(r)
    else if !Enabled(r, trace[0]) then None
    else Execute(Apply(r, trace[0]), trace[1..])
  }

  // ---------------------------------------------------------------------
  // The ring invariant
  // ---------------------------------------------------------------------

  /** Some peer with pid x has declared itself leader. */
  ghost predicate IsLeaderPid(peers: seq<PeerState>, x: int)
  {
    exists j :: 0 <= j < |peers| && peers[j].isLeader && peers[j].pid == x
  }

  /** A probe in flight is sound: an ELECTION has hops left in its budget, and
      an ANNOUNCEMENT names a peer that has declared itself leader. */
  ghost predicate ProbeOk(peers: seq<PeerState>, p: Probe)
  {
    (p.kind == Election ==> p.hops < Pow2(p.phase)) &&
    (p.kind == Announcement ==> IsLeaderPid(peers, p.srcPid))
  }

  ghost predicate QueuesOk(peers: seq<PeerState>, queues: seq<seq<Probe>>)
  {
    forall i, k :: 0 <= i < |queues| && 0 <= k < |queues[i]| ==> ProbeOk(peers, queues[i][k])
  }

  /** Every peer is in a reachable state and any leader it knows has declared
      itself; every probe in flight is sound; an exited peer passed one of
      run()'s exit tests. */
  ghost predicate RingInv(r: Ring)
  {
    WellFormed(r) &&
    (forall i :: 0 <= i < |r.peers| ==>
       PeerInv(r.peers[i]) &&
       (r.peers[i].hasLeader ==> IsLeaderPid(r.peers, r.peers[i].leaderPid))) &&
    QueuesOk(r.peers, r.queues) &&
    (forall i :: 0 <= i < |r.peers| && r.status[i] == Exited ==>
       AnnouncedLeader(r.peers[i]) || KnowsOtherLeader(r.peers[i]))
  }

  /** Peers only gain leadership: pids stay, and a declared leader stays one. */
  ghost predicate Grows(before: seq<PeerState>, after: seq<PeerState>)
  {
    |after| == |before| &&
    forall j :: 0 <= j < |before| ==>
      after[j].pid == before[j].pid && (before[j].isLeader ==> after[j].isLeader)
  }

  lemma LeaderPidPersists(before: seq<PeerState>, after: seq<PeerState>, x: int)
    requires Grows(before, after) && IsLeaderPid(before, x)
    ensures IsLeaderPid(after, x)
  {
    var j :| 0 <= j < |before| && before[j].isLeader && before[j].pid == x;
    assert after[j].isLeader && after[j].pid == x;
  }

  lemma ProbeOkPersists(before: seq<PeerState>, after: seq<PeerState>, p: Probe)
    requires Grows(before, after) && ProbeOk(before, p)
    ensures ProbeOk(after, p)
  {
    if p.kind == Announcement {
      LeaderPidPersists(before, after, p.srcPid);
    }
  }

  /** Delivering sound probes keeps every queue sound. */
  lemma {:induction false} DeliverKeepsQueuesOk(r: Ring, from: nat, sends: seq<Envelope>)
    requires WellFormed(r) && from < |r.peers| && QueuesOk(r.peers, r.queues)
    requires forall e :: e in sends ==> ProbeOk(r.peers, e.probe)
    ensures QueuesOk(r.peers, Deliver(r, from, sends).queues)
    decreases |sends|
  {
    if sends != [] {
      var j := Neighbour(|r.peers|, from, sends[0].side);
      assert sends[0] in sends;
      var r1 := r.(queues := r.queues[j := r.queues[j] + [sends[0].probe]],
                   status := r.status[j := if r.status[j] == Dormant then Started else r.status[j]]);
      forall a, k | 0 <= a < |r1.queues| && 0 <= k < |r1.queues[a]|
        ensures ProbeOk(r.peers, r1.queues[a][k])
      {
        if a != j || k < |r.queues[j]| {
          assert r1.queues[a][k] == r.queues[a][k];
        }
      }
      forall e | e in sends[1..] ensures ProbeOk(r.peers, e.probe) {
        assert e in sends;
      }
      DeliverKeepsQueuesOk(r1, from, sends[1..]);
    }
  }

  /** Delivery touches only queues and dormant peers' status. */
  lemma DeliverStatus(r: Ring, from: nat, sends: seq<Envelope>, j: nat)
    requires WellFormed(r) && from < |r.peers| && j < |r.peers|
    ensures var s := Deliver(r, from, sends).status[j];
      s == r.status[j] || (r.status[j] == Dormant && s == Started)
  {
    DeliverFifo(r, from, sends);
  }

  /** A fresh ring satisfies the invariant. */
  lemma StartInv(pids: seq<int>)
    requires |pids| >= 2
    ensures RingInv(Start(pids))
  {
  }

  /** Processing a probe keeps the invariant. */
  lemma ProcessKeepsInv(r: Ring, i: nat, id: int)
    requires RingInv(r) && Enabled(r, Process(i, id))
    ensures RingInv(Apply(r, Process(i, id)))
  {
    var s, p := r.peers[i], r.queues[i][0];
    var o := Step(s, p, id);
    var peers := r.peers[i := o.state];
    var queues := r.queues[i := r.queues[i][1..]];
    var r1 := r.(peers := peers, queues := queues,
                 status := if KnowsOtherLeader(o.state) then r.status[i := Exited] else r.status);
    StepMonotone(s, p, id);
    StepPreservesInv(s, p, id);
    StepElectionsWithinBudget(s, p, id);
    StepAnnouncementSources(s, p, id);
    assert Grows(r.peers, peers);
    assert ProbeOk(r.peers, p) by {
      assert p == r.queues[i][0];
    }
    assert ProbeOk(peers, p) by {
      ProbeOkPersists(r.peers, peers, p);
    }
    assert IsLeaderPid(peers, s.pid) <== o.state.isLeader by {
      if o.state.isLeader { assert peers[i].isLeader && peers[i].pid == s.pid; }
    }
    forall j | 0 <= j < |peers|
      ensures PeerInv(peers[j]) && (peers[j].hasLeader ==> IsLeaderPid(peers, peers[j].leaderPid))
    {
      if j != i && r.peers[j].hasLeader {
        LeaderPidPersists(r.peers, peers, r.peers[j].leaderPid);
      } else if j == i && o.state.hasLeader && s.hasLeader && o.state.leaderPid == s.leaderPid {
        LeaderPidPersists(r.peers, peers, s.leaderPid);
      }
    }
    assert QueuesOk(peers, queues) by {
      forall a, k | 0 <= a < |queues| && 0 <= k < |queues[a]|
        ensures ProbeOk(peers, queues[a][k])
      {
        var k0 := if a == i then k + 1 else k;
        assert queues[a][k] == r.queues[a][k0];
        ProbeOkPersists(r.peers, peers, r.queues[a][k0]);
      }
    }
    DeliverKeepsQueuesOk(r1, i, o.sends);
    forall j | 0 <= j < |peers| && Apply(r, Process(i, id)).status[j] == Exited
      ensures AnnouncedLeader(peers[j]) || KnowsOtherLeader(peers[j])
    {
      DeliverStatus(r1, i, o.sends, j);
    }
  }

  /** A thread's first probes keep the invariant. */
  lemma BeginKeepsInv(r: Ring, i: nat, id: int)
    requires RingInv(r) && Enabled(r, Begin(i, id))
    ensures RingInv(Apply(r, Begin(i, id)))
  {
    var r1 := r.(status := r.status[i := Running]);
    var sends := ProbeSends(r.peers[i].pid, Election, r.peers[i].phase, Both, id);
    DeliverKeepsQueuesOk(r1, i, sends);
    forall j | 0 <= j < |r.peers| && Apply(r, Begin(i, id)).status[j] == Exited
      ensures AnnouncedLeader(r.peers[j]) || KnowsOtherLeader(r.peers[j])
    {
      DeliverStatus(r1, i, sends, j);
    }
  }

  /** Every enabled action keeps the invariant. */
  lemma ApplyKeepsInv(r: Ring, a: Action)
    requires RingInv(r) && Enabled(r, a)
    ensures RingInv(Apply(r, a))
  {
    match a
    case Activate(i) =>
    case Begin(i, id) => BeginKeepsInv(r, i, id);
    case Process(i, id) => ProcessKeepsInv(r, i, id);
    case Stop(i) =>
  }

  /** The invariant holds after any run of enabled actions. */
  lemma {:induction false} ExecuteKeepsInv(r: Ring, trace: seq<Action>)
    requires RingInv(r)
    ensures Execute(r, trace).Some? ==> RingInv(Execute(r, trace).value)
    decreases |trace|
  {
    if trace != [] && Enabled(r, trace[0]) {
      ApplyKeepsInv(r, trace[0]);
      ExecuteKeepsInv(Apply(r, trace[0]), trace[1..]);
    }
  }

  /** In every ring reachable from a fresh one: any leader a peer knows is a
      peer that declared itself leader; every peer has at most one reply
      pending; and no ELECTION probe ever arrives past its hop budget, so after
      stamping its hops are at most 2^phase and processProbe's "hops exceed the
      budget" branch is never taken. */
  lemma Reachable(pids: seq<int>, trace: seq<Action>)
    requires |pids| >= 2 && Execute(Start(pids), trace).Some?
    ensures var r := Execute(Start(pids), trace).value;
      (forall i :: 0 <= i < |r.peers| && r.peers[i].hasLeader ==>
         exists j :: 0 <= j < |r.peers| && r.peers[j].isLeader && r.peers[j].pid == r.peers[i].leaderPid) &&
      (forall i :: 0 <= i < |r.peers| ==> r.peers[i].replies <= 1) &&
      |r.queues| == |r.peers| &&
      (forall i, k :: 0 <= i < |r.queues| && 0 <= k < |r.queues[i]| && r.queues[i][k].kind == Election ==>
         Stamp(r.queues[i][k], r.peers[i].pid).hops <= Pow2(r.queues[i][k].phase))
  {
    StartInv(pids);
    ExecuteKeepsInv(Start(pids), trace);
    var r := Execute(Start(pids), trace).value;
    forall i, k | 0 <= i < |r.queues| && 0 <= k < |r.queues[i]| && r.queues[i][k].kind == Election
      ensures Stamp(r.queues[i][k], r.peers[i].pid).hops <= Pow2(r.queues[i][k].phase)
    {
      assert ProbeOk(r.peers, r.queues[i][k]);
    }
  }
}
