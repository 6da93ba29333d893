/** A peer of the ring (hs/Node.java): its neighbour pointers, its inbound
    FIFO queue, its election fields and the probes it has sent. Sends are
    recorded in `outbox` as (side, probe) in the order the peer makes them;
    delivering them to the neighbours is the ring's business (RingSim). */
module Peer {
  import opened Wire
  import opened Text
  import opened Reports
  import opened Protocol

  /** The frame a possibly-null neighbour contributes. */
  function Just(n: Node?): set<Node>
  {
    if n == null then {} else {n}
  }

  /** The author of a peer's report: `String.format("Node-%x", pid)`. */
  function NodeAuthor(pid: int): (a: string)
    ensures ' ' !in a
  {
    "Node-" + HexLong(pid)
  }

  /** The dispatch loop's bookkeeping: running Drain from the current state,
      queue and probe counter `k` ends where running it from the start did,
      and the sends made so far plus those still to come are all of them. */
  ghost predicate Tracks(s: PeerState, queue: seq<Probe>, ids: nat -> int, k: nat,
                         r0: RunResult, out0: seq<Envelope>, outbox: seq<Envelope>)
  {
    var r := Drain(s, queue, ids, k);
    r.state == r0.state && r.queue == r0.queue && r.done == r0.done
    && out0 + r0.sends == outbox + r.sends
  }

  /** Processing the head of the queue either ends the loop where Drain ends,
      or leaves the bookkeeping in step with the rest of the queue. */
  lemma TracksStep(s: PeerState, queue: seq<Probe>, ids: nat -> int, k: nat,
                   r0: RunResult, out0: seq<Envelope>, outbox: seq<Envelope>)
    requires Tracks(s, queue, ids, k, r0, out0, outbox) && !AnnouncedLeader(s) && queue != []
    ensures var o := Step(s, queue[0], ids(k));
      if KnowsOtherLeader(o.state) then
        r0.state == o.state && r0.queue == queue[1..] && r0.done && out0 + r0.sends == outbox + o.sends
      else Tracks(o.state, queue[1..], ids, k + 1, r0, out0, outbox + o.sends)
  {
    DrainStep(s, queue, ids, k);
    var o := Step(s, queue[0], ids(k));
    var r' := Drain(o.state, queue[1..], ids, k + 1);
    assert outbox + (o.sends + r'.sends) == (outbox + o.sends) + r'.sends;
  }

  class Node {
    const pid: int
    var left: Node?
    var right: Node?

    var leaderPid: int
    var participating: bool
    var isLeader: bool
    var hasLeader: bool
    var announcedAsLeader: bool
    var phase: nat
    var replies: nat

    /** True once the peer's thread has been started. */
    var activated: bool

    var messages: seq<Probe>
    var outbox: seq<Envelope>
    const report: Report

    /** The election fields as a value. */
    function State(): PeerState
      reads this
    {
      PeerState(pid, leaderPid, isLeader, hasLeader, announcedAsLeader, phase, replies)
    }

    /** The report counts every send, and the election fields are reachable ones. */
    ghost predicate Valid()
      reads this, report
    {
      report.sent == |outbox| && PeerInv(State())
    }

    /** A new peer with the given (randomly drawn) pid. */
    constructor (pid: int)
      ensures this.pid == pid && State() == Initial(pid)
      ensures left == null && right == null
      ensures !participating && !activated && messages == [] && outbox == []
      ensures fresh(report) && report.author == NodeAuthor(pid)
      ensures report.sent == 0 && report.received == 0
      ensures Valid()
    {
      this.pid := pid;
      left, right := null, null;
      leaderPid := 0;
      participating, isLeader, hasLeader, announcedAsLeader := false, false, false, false;
      phase, replies := 0, 0;
      activated := false;
      messages, outbox := [], [];
      report := new Report(NodeAuthor(pid));
    }

    /** activate(): starts the peer's thread if it has not been started; a second
        call does nothing. */
    method Activate()
      modifies this`activated
      ensures activated
    {
      if !activated {
        activated := true;
      }
    }

    /** send(probe), the remote entry point: a peer that has not been started is
        started first, then the probe joins the tail of the queue. */
    method Deliver(p: Probe)
      modifies this`activated, this`messages
      ensures activated && messages == old(messages) + [p]
    {
      if !activated {
        Activate();
      }
      messages := messages + [p];
    }

    /** receive(): removes and returns the oldest queued probe, or None (null)
        when the queue is empty. */
    method Receive() returns (p: Option<Probe>)
      modifies this`messages
      ensures old(messages) == [] ==> p == None && messages == []
      ensures old(messages) != [] ==> p == Some(old(messages)[0]) && messages == old(messages)[1..]
    {
      if messages == [] {
        p := None;
      } else {
        p := Some(messages[0]);
        messages := messages[1..];
      }
    }

    /** left(n): sets the left pointer and, unless n's right pointer already
        names a peer with this pid, points n's right back here. (The callback
        n.right(this) in turn finds this.left == n and stops, so the
        reciprocal repair is one level deep.) */
    method SetLeft(n: Node?)
      modifies this`left, Just(n)`right
      ensures left == n
      ensures n != null ==>
        n.right == (if old(n.right) == null || old(n.right).pid != pid then this else old(n.right))
      ensures n != null ==> n.right != null && n.right.pid == pid
    {
      left := n;
      if n != null && (n.right == null || n.right.pid != pid) {
        n.right := this;
      }
    }

    /** right(n): the mirror image of left(n). */
    method SetRight(n: Node?)
      modifies this`right, Just(n)`left
      ensures right == n
      ensures n != null ==>
        n.left == (if old(n.left) == null || old(n.left).pid != pid then this else old(n.left))
      ensures n != null ==> n.left != null && n.left.pid == pid
    {
      right := n;
      if n != null && (n.left == null || n.left.pid != pid) {
        n.left := this;
      }
    }

    /** send(n, p): one probe out through a neighbour pointer, counted in the report. */
    method SendTo(side: Side, p: Probe)
      modifies this`outbox, report`sent
      ensures outbox == old(outbox) + [Envelope(side, p)]
      ensures report.sent == old(report.sent) + 1
    {
      outbox := outbox + [Envelope(side, p)];
      report.Msg();
    }

    /** probe(type, direction): a fresh probe at the current phase, to the left
        and/or right neighbour. */
    method InitiateProbe(kind: MessageType, dir: Direction, id: int)
      modifies this`outbox, report`sent
      ensures outbox == old(outbox) + ProbeSends(pid, kind, phase, dir, id)
      ensures report.sent == old(report.sent) + (if dir == Both then 2 else 1)
    {
      var p := NewProbe(pid, kind, phase, id);
      if dir == Both || dir == Left {
        p := p.(direction := Some(Left));
        SendTo(LeftSide, p);
      }
      if dir == Both || dir == Right {
        p := p.(direction := Some(Right));
        SendTo(RightSide, p);
      }
    }

    /** forward(probe). */
    method ForwardProbe(q: Probe)
      modifies this`outbox, report`sent
      ensures outbox == old(outbox) + [Forward(q)]
      ensures report.sent == old(report.sent) + 1
    {
      if q.direction == Some(Right) {
        SendTo(RightSide, q);
      } else {
        SendTo(LeftSide, q);
      }
    }

    /** reply(probe). */
    method ReplyProbe(q: Probe)
      modifies this`outbox, report`sent
      ensures outbox == old(outbox) + [ReplyTo(q)]
      ensures report.sent == old(report.sent) + 1
    {
      var r := q.(kind := Reply);
      if r.direction == Some(Right) {
        r := r.(direction := Some(Left));
        SendTo(LeftSide, r);
      } else {
        r := r.(direction := Some(Right));
        SendTo(RightSide, r);
      }
    }

    /** processProbe(probe): the fields and the sends are those of Step; one more
        received message and one more sent message per send are counted. */
    method ProcessProbe(p: Probe, freshId: int)
      modifies this`leaderPid, this`isLeader, this`hasLeader, this`announcedAsLeader
      modifies this`phase, this`replies, this`outbox, report`sent, report`received
      requires Valid()
      ensures State() == Step(old(State()), p, freshId).state
      ensures outbox == old(outbox) + Step(old(State()), p, freshId).sends
      ensures report.received == old(report.received) + 1
      ensures report.sent == old(report.sent) + |Step(old(State()), p, freshId).sends|
      ensures Valid()
    {
      ghost var s0 := State();
      report.Rcv();
      var q := Stamp(p, pid);
      match q.kind {
        case Election => HandleElection(q, freshId);
        case Reply => HandleReply(q, freshId);
        case Announcement => HandleAnnouncement(q);
      }
      StepPreservesInv(s0, p, freshId);
    }

    /** The ELECTION branch of processProbe. */
    method HandleElection(q: Probe, freshId: int)
      modifies this`leaderPid, this`isLeader, this`hasLeader, this`outbox, report`sent
      ensures State() == OnElection(old(State()), q, freshId).state
      ensures outbox == old(outbox) + OnElection(old(State()), q, freshId).sends
      ensures report.sent == old(report.sent) + |OnElection(old(State()), q, freshId).sends|
    {
      if q.srcPid > pid {
        var maxHops := Pow2(q.phase);
        if q.hops < maxHops {
          ForwardProbe(q);
        } else if q.hops == maxHops {
          ReplyProbe(q);
        }
      } else if q.srcPid == pid {
        if !hasLeader {
          isLeader := true;
          hasLeader := true;
          leaderPid := pid;
          InitiateProbe(Announcement, Right, freshId);
        }
      }
    }

    /** The REPLY branch of processProbe. */
    method HandleReply(q: Probe, freshId: int)
      modifies this`phase, this`replies, this`outbox, report`sent
      ensures State() == OnReply(old(State()), q, freshId).state
      ensures outbox == old(outbox) + OnReply(old(State()), q, freshId).sends
      ensures report.sent == old(report.sent) + |OnReply(old(State()), q, freshId).sends|
    {
      if q.srcPid != pid {
        ForwardProbe(q);
      } else {
        replies := replies + 1;
        if replies >= 2 {
          phase := phase + 1;
          InitiateProbe(Election, Both, freshId);
          replies := 0;
        }
      }
    }

    /** The ANNOUNCEMENT branch of processProbe. */
    method HandleAnnouncement(q: Probe)
      modifies this`leaderPid, this`hasLeader, this`announcedAsLeader, this`outbox, report`sent
      ensures State() == OnAnnouncement(old(State()), q).state
      ensures outbox == old(outbox) + OnAnnouncement(old(State()), q).sends
      ensures report.sent == old(report.sent) + |OnAnnouncement(old(State()), q).sends|
    {
      if !hasLeader && q.srcPid != pid {
        ForwardProbe(q);
        leaderPid := q.srcPid;
        hasLeader := true;
      } else {
        announcedAsLeader := true;
      }
    }

    /** The exit tests of run()'s loop. */
    function Finished(): bool
      reads this
    {
      AnnouncedLeader(State()) || KnowsOtherLeader(State())
    }

    /** run(), sequentially: a peer not yet participating sends its ELECTION
        both ways at its current phase (0 on the thread's first run), then
        dispatches its queue. `ids(0)` is the id of that first probe. */
    method Run(ids: nat -> int) returns (done: bool)
      modifies this`participating, this`messages
      modifies this`leaderPid, this`isLeader, this`hasLeader, this`announcedAsLeader
      modifies this`phase, this`replies, this`outbox, report`sent, report`received
      requires Valid()
      ensures Valid() && participating
      ensures var start := if old(participating) then [] else ProbeSends(pid, Election, old(phase), Both, ids(0));
              var r := Drain(old(State()), old(messages), ids, 1);
              State() == r.state && messages == r.queue && outbox == old(outbox) + start + r.sends
              && done == r.done
      ensures done ==> Finished()
      ensures !done ==> messages == []
      ensures report.received == old(report.received) + |old(messages)| - |messages|
    {
      if !participating {
        InitiateProbe(Election, Both, ids(0));
        participating := true;
      }
      done := Dispatch(ids);
    }

    /** The loop of run(): probes are taken from the queue and processed until
        an exit test holds. Where the source polls an empty queue again, this
        returns with `done` false (only a delivery can change anything).
        `ids(k)` is the id of a probe made while processing the k-th probe. */
    method Dispatch(ids: nat -> int) returns (done: bool)
      modifies this`messages
      modifies this`leaderPid, this`isLeader, this`hasLeader, this`announcedAsLeader
      modifies this`phase, this`replies, this`outbox, report`sent, report`received
      requires Valid()
      ensures Valid()
      ensures var r := Drain(old(State()), old(messages), ids, 1);
              State() == r.state && messages == r.queue && outbox == old(outbox) + r.sends
              && done == r.done
      ensures done ==> Finished()
      ensures !done ==> messages == []
      ensures report.received == old(report.received) + |old(messages)| - |messages|
    {
      ghost var r0 := Drain(State(), messages, ids, 1);
      DrainStops(State(), messages, ids, 1);
      ghost var out0 := outbox;
      ghost var m0 := messages;
      var k := 1;
      done := false;
      while true
        invariant Valid()
        invariant !done
        invariant |messages| <= |m0|
        invariant Tracks(State(), messages, ids, k, r0, out0, outbox)
        invariant report.received == old(report.received) + |m0| - |messages|
        decreases |messages|
      {
        ghost var sB, mB, oB := State(), messages, outbox;
        if isLeader && announcedAsLeader {
          done := true;
          break;
        }
        var next := Receive();
        if next.None? {
          break;
        }
        ProcessProbe(next.value, ids(k));
        TracksStep(sB, mB, ids, k, r0, out0, oB);
        k := k + 1;
        if hasLeader && !isLeader {
          done := true;
          break;
        }
      }
    }
  }
}
