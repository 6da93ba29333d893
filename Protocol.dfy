/** The Hirschberg–Sinclair step of one peer, as a pure function: what
    processProbe (hs/Node.java) does to the peer's election fields and which
    probes it sends, and what the run loop does with a queue of probes. */
module Protocol {
  import opened Wire

  /** The election fields of a peer. `pid` never changes. */
  datatype PeerState = PeerState(
    pid: int,
    leaderPid: int,
    isLeader: bool,
    hasLeader: bool,
    announcedAsLeader: bool,
    phase: nat,
    replies: nat)

  /** A peer before it has seen any probe (field initialisers of Node). */
  function Initial(pid: int): (s: PeerState)
    ensures s.pid == pid && s.phase == 0 && s.replies == 0
    ensures !s.isLeader && !s.hasLeader && !s.announcedAsLeader
  {
    PeerState(pid, 0, false, false, false, 0, 0)
  }

  /** One call of send(n, p): probe p goes out through the neighbour pointer on `side`. */
  datatype Envelope = Envelope(side: Side, probe: Probe)

  /** What one processed probe does: the new election fields and the sends, in order. */
  datatype Outcome = Outcome(state: PeerState, sends: seq<Envelope>)

  /** The side that a probe travelling in direction `d` leaves by; anything but
      RIGHT leaves by the left pointer, as in forward(). */
  function SideOf(d: Option<Direction>): Side
  {
    if d == Some(Right) then RightSide else LeftSide
  }

  /** probe(type, direction): a fresh probe from `pid` at `phase`, sent left
      and/or right, its direction set to the side it is sent to. */
  function ProbeSends(pid: int, kind: MessageType, phase: nat, dir: Direction, id: int): (sends: seq<Envelope>)
    ensures |sends| == if dir == Both then 2 else 1
    ensures forall e :: e in sends ==>
      e.probe == NewProbe(pid, kind, phase, id).(direction := Some(if e.side == LeftSide then Left else Right))
    ensures dir == Left ==> sends[0].side == LeftSide
    ensures dir == Right ==> sends[0].side == RightSide
    ensures dir == Both ==> sends[0].side == LeftSide && sends[1].side == RightSide
  {
    var p := NewProbe(pid, kind, phase, id);
    (if dir == Both || dir == Left then [Envelope(LeftSide, p.(direction := Some(Left)))] else [])
    + (if dir == Both || dir == Right then [Envelope(RightSide, p.(direction := Some(Right)))] else [])
  }

  /** forward(probe): the probe unchanged, out through the side of its direction. */
  function Forward(p: Probe): (e: Envelope)
    ensures e.probe == p
    ensures e.side == RightSide <==> p.direction == Some(Right)
  {
    Envelope(SideOf(p.direction), p)
  }

  /** reply(probe): the probe turned into a REPLY with its direction flipped,
      and sent back the way it came. */
  function ReplyTo(p: Probe): (e: Envelope)
    ensures e.probe == p.(kind := Reply, direction := e.probe.direction)
    ensures p.direction == Some(Right) ==> e.probe.direction == Some(Left) && e.side == LeftSide
    ensures p.direction != Some(Right) ==> e.probe.direction == Some(Right) && e.side == RightSide
  {
    if p.direction == Some(Right) then Envelope(LeftSide, p.(kind := Reply, direction := Some(Left)))
    else Envelope(RightSide, p.(kind := Reply, direction := Some(Right)))
  }

  /** The probe as processProbe sees it after stamping: last forwarder is this
      peer, one more hop. */
  function Stamp(p: Probe, pid: int): Probe
  {
    p.(lastPid := pid, hops := p.hops + 1)
  }

  /** processProbe(probe), with `freshId` the random id of the one probe it may
      create: stamp the probe, then branch on its kind. */
  function Step(s: PeerState, p: Probe, freshId: int): Outcome
  {
    var q := Stamp(p, s.pid);
    match q.kind
    case Election => OnElection(s, q, freshId)
    case Reply => OnReply(s, q, freshId)
    case Announcement => OnAnnouncement(s, q)
  }

  /** The ELECTION case, on the stamped probe `q`. */
  function OnElection(s: PeerState, q: Probe, freshId: int): Outcome
  {
    if q.srcPid > s.pid then
      if q.hops < Pow2(q.phase) then Outcome(s, [Forward(q)])
      else if q.hops == Pow2(q.phase) then Outcome(s, [ReplyTo(q)])
      else Outcome(s, [])
    else if q.srcPid == s.pid then
      if s.hasLeader then Outcome(s, [])
      else Outcome(s.(isLeader := true, hasLeader := true, leaderPid := s.pid),
                   ProbeSends(s.pid, Announcement, s.phase, Right, freshId))
    else Outcome(s, [])
  }

  /** The REPLY case, on the stamped probe `q`. */
  function OnReply(s: PeerState, q: Probe, freshId: int): Outcome
  {
    if q.srcPid != s.pid then Outcome(s, [Forward(q)])
    else if s.replies + 1 >= 2 then
      Outcome(s.(phase := s.phase + 1, replies := 0),
              ProbeSends(s.pid, Election, s.phase + 1, Both, freshId))
    else Outcome(s.(replies := s.replies + 1), [])
  }

  /** The ANNOUNCEMENT case, on the stamped probe `q`. */
  function OnAnnouncement(s: PeerState, q: Probe): Outcome
  {
    if !s.hasLeader && q.srcPid != s.pid then
      Outcome(s.(leaderPid := q.srcPid, hasLeader := true), [Forward(q)])
    else Outcome(s.(announcedAsLeader := true), [])
  }

  /** What every reachable peer state satisfies: at most one reply is pending,
      and a leader knows itself as the leader. */
  ghost predicate PeerInv(s: PeerState)
  {
    s.replies <= 1 && (s.isLeader ==> s.hasLeader && s.leaderPid == s.pid)
  }

  // ---------------------------------------------------------------------
  // Properties of one step
  // ---------------------------------------------------------------------

  /** Whatever the probe, every probe sent out carries this peer as its last
      forwarder, and is either the received probe one hop further (same
      origin, id and phase) or a fresh probe of this peer with no hops. */
  lemma StepSendsStamped(s: PeerState, p: Probe, freshId: int)
    ensures var o := Step(s, p, freshId);
      |o.sends| <= 2 &&
      forall e :: e in o.sends ==>
        e.probe.lastPid == s.pid &&
        ((e.probe.srcPid == p.srcPid && e.probe.id == p.id && e.probe.phase == p.phase
          && e.probe.hops == p.hops + 1)
         || (e.probe.srcPid == s.pid && e.probe.id == freshId && e.probe.hops == 0))
  {
  }

  /** Only the leader-related fields, phase and replies ever change; the pid
      never does, the phase never decreases, and once a leader is known it is
      never forgotten or replaced. */
  lemma StepMonotone(s: PeerState, p: Probe, freshId: int)
    ensures var t := Step(s, p, freshId).state;
      t.pid == s.pid && t.phase >= s.phase &&
      (s.hasLeader ==> t.hasLeader && t.leaderPid == s.leaderPid) &&
      (s.isLeader ==> t.isLeader) &&
      (s.announcedAsLeader ==> t.announcedAsLeader)
  {
  }

  /** A step keeps the reply count in {0, 1} and a leader's view of itself. */
  lemma StepPreservesInv(s: PeerState, p: Probe, freshId: int)
    requires PeerInv(s)
    ensures PeerInv(Step(s, p, freshId).state)
  {
  }

  /** An ELECTION from a greater pid still within its hop budget is forwarded
      unchanged in its own direction, and nothing else happens. */
  lemma ElectionForwarded(s: PeerState, p: Probe, freshId: int)
    requires p.kind == Election && p.srcPid > s.pid && p.hops + 1 < Pow2(p.phase)
    ensures Step(s, p, freshId) == Outcome(s, [Envelope(SideOf(p.direction), Stamp(p, s.pid))])
  {
  }

  /** An ELECTION from a greater pid that has used its budget exactly comes back
      as a REPLY, direction flipped, through the pointer of the new direction. */
  lemma ElectionTurnsIntoReply(s: PeerState, p: Probe, freshId: int)
    requires p.kind == Election && p.srcPid > s.pid && p.hops + 1 == Pow2(p.phase)
    ensures var o := Step(s, p, freshId);
      o.state == s && |o.sends| == 1 &&
      o.sends[0].probe == Stamp(p, s.pid).(kind := Reply, direction := o.sends[0].probe.direction) &&
      (p.direction == Some(Right) ==> o.sends[0].probe.direction == Some(Left) && o.sends[0].side == LeftSide) &&
      (p.direction == Some(Left) ==> o.sends[0].probe.direction == Some(Right) && o.sends[0].side == RightSide)
  {
  }

  /** An ELECTION is swallowed (no send, no change) exactly when it comes from a
      smaller pid, or from a greater one past its hop budget. */
  lemma ElectionSwallowed(s: PeerState, p: Probe, freshId: int)
    requires p.kind == Election && p.srcPid != s.pid
    ensures Step(s, p, freshId) == Outcome(s, [])
        <==> p.srcPid < s.pid || p.hops + 1 > Pow2(p.phase)
  {
  }

  /** An own ELECTION that has gone round the ring makes the peer leader and
      sends one ANNOUNCEMENT to the right, unless a leader is already known, in
      which case nothing happens. */
  lemma ElectionCompletesCircuit(s: PeerState, p: Probe, freshId: int)
    requires p.kind == Election && p.srcPid == s.pid
    ensures var o := Step(s, p, freshId);
      if s.hasLeader then o == Outcome(s, [])
      else
        o.state == s.(isLeader := true, hasLeader := true, leaderPid := s.pid) &&
        o.sends == [Envelope(RightSide, NewProbe(s.pid, Announcement, s.phase, freshId).(direction := Some(Right)))]
  {
  }

  /** A REPLY for someone else is forwarded unchanged; an own REPLY counts, and
      the second one moves the peer to the next phase with the count reset and
      two fresh phase probes, left then right. */
  lemma ReplyHandled(s: PeerState, p: Probe, freshId: int)
    requires p.kind == Reply && s.replies <= 1
    ensures var o := Step(s, p, freshId);
      if p.srcPid != s.pid then o == Outcome(s, [Envelope(SideOf(p.direction), Stamp(p, s.pid))])
      else if s.replies == 0 then o == Outcome(s.(replies := 1), [])
      else
        o.state == s.(phase := s.phase + 1, replies := 0) &&
        o.sends == [Envelope(LeftSide, NewProbe(s.pid, Election, s.phase + 1, freshId).(direction := Some(Left))),
                    Envelope(RightSide, NewProbe(s.pid, Election, s.phase + 1, freshId).(direction := Some(Right)))]
  {
  }

  /** An ANNOUNCEMENT reaching a peer without a leader, other than its origin,
      is passed on and adopted; otherwise only `announcedAsLeader` is set. */
  lemma AnnouncementHandled(s: PeerState, p: Probe, freshId: int)
    requires p.kind == Announcement
    ensures var o := Step(s, p, freshId);
      if !s.hasLeader && p.srcPid != s.pid then
        o == Outcome(s.(leaderPid := p.srcPid, hasLeader := true),
                     [Envelope(SideOf(p.direction), Stamp(p, s.pid))])
      else o == Outcome(s.(announcedAsLeader := true), [])
  {
  }

  /** No step sends an ELECTION probe that has already spent its hop budget:
      relayed ones are below it by the forwarding test, fresh ones have no hops. */
  lemma StepElectionsWithinBudget(s: PeerState, p: Probe, freshId: int)
    ensures forall e :: e in Step(s, p, freshId).sends && e.probe.kind == Election ==>
      e.probe.hops < Pow2(e.probe.phase)
  {
  }

  /** Every ANNOUNCEMENT a step sends either relays the received one (same
      origin) or is this peer's own, sent as it takes the lead; and a leader
      newly learnt is either the origin of the received ANNOUNCEMENT or the
      peer itself as leader. */
  lemma StepAnnouncementSources(s: PeerState, p: Probe, freshId: int)
    ensures var o := Step(s, p, freshId);
      (forall e :: e in o.sends && e.probe.kind == Announcement ==>
        (p.kind == Announcement && e.probe.srcPid == p.srcPid)
        || (o.state.isLeader && e.probe.srcPid == s.pid)) &&
      (o.state.hasLeader && !(s.hasLeader && o.state.leaderPid == s.leaderPid) ==>
        (p.kind == Announcement && o.state.leaderPid == p.srcPid)
        || (o.state.isLeader && o.state.leaderPid == s.pid))
  {
  }

  // ---------------------------------------------------------------------
  // The run loop over a queue of probes
  // ---------------------------------------------------------------------

  /** The loop-exit test after a probe: a peer that knows a leader other than
      itself stops contending. */
  predicate KnowsOtherLeader(s: PeerState)
  {
    s.hasLeader && !s.isLeader
  }

  /** The loop-exit test at the top of each iteration: the leader has seen its
      own announcement come back. */
  predicate AnnouncedLeader(s: PeerState)
  {
    s.isLeader && s.announcedAsLeader
  }

  /** The result of running the dispatch loop over `queue`. */
  datatype RunResult = RunResult(state: PeerState, queue: seq<Probe>, sends: seq<Envelope>, done: bool)

  /** run()'s loop, taking probes from the head of `queue` until an exit test
      holds or (where the source would poll again) the queue is empty; `ids(k)`
      is the random id of a probe created while processing the k-th probe. */
  function Drain(s: PeerState, queue: seq<Probe>, ids: nat -> int, k: nat): RunResult
    decreases |queue|
  {
    if AnnouncedLeader(s) then RunResult(s, queue, [], true)
    else if queue == [] then RunResult(s, [], [], false)
    else
      var o := Step(s, queue[0], ids(k));
      if KnowsOtherLeader(o.state) then RunResult(o.state, queue[1..], o.sends, true)
      else
        var r := Drain(o.state, queue[1..], ids, k + 1);
        RunResult(r.state, r.queue, o.sends + r.sends, r.done)
  }

  /** One iteration of the loop that processes a probe. */
  lemma DrainStep(s: PeerState, queue: seq<Probe>, ids: nat -> int, k: nat)
    requires !AnnouncedLeader(s) && queue != []
    ensures var o := Step(s, queue[0], ids(k));
      var r := Drain(s, queue, ids, k);
      if KnowsOtherLeader(o.state) then r == RunResult(o.state, queue[1..], o.sends, true)
      else
        var r' := Drain(o.state, queue[1..], ids, k + 1);
        r.state == r'.state && r.queue == r'.queue && r.done == r'.done && r.sends == o.sends + r'.sends
  {
  }

  /** The loop stops only at an exit test or an empty queue; what it leaves in
      the queue is a suffix of what it was given; the invariant holds after. */
  lemma {:induction false} DrainStops(s: PeerState, queue: seq<Probe>, ids: nat -> int, k: nat)
    requires PeerInv(s)
    ensures var r := Drain(s, queue, ids, k);
      PeerInv(r.state) &&
      (r.done <==> AnnouncedLeader(r.state) || (KnowsOtherLeader(r.state) && r.queue != queue)) &&
      (!r.done ==> r.queue == []) &&
      |r.queue| <= |queue| && r.queue == queue[|queue| - |r.queue|..]
    decreases |queue|
  {
    if !AnnouncedLeader(s) && queue != [] {
      var o := Step(s, queue[0], ids(k));
      StepPreservesInv(s, queue[0], ids(k));
      if !KnowsOtherLeader(o.state) {
        DrainStops(o.state, queue[1..], ids, k + 1);
        var r := Drain(o.state, queue[1..], ids, k + 1);
        assert queue[1..][|queue| - 1 - |r.queue|..] == queue[|queue| - |r.queue|..];
      }
    }
  }
}
