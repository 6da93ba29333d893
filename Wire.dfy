/** The values exchanged between peers: message kinds, directions and the probe
    record itself (hs/MessageType.java, hs/Probe.java, and the Direction enum
    that hs/Node.java refers to). */
module Wire {

  datatype Option<+T> = None | Some(value: T)

  /** MessageType: the three kinds of probe. */
  datatype MessageType = Election | Reply | Announcement

  /** Direction: which neighbour(s) a probe targets. */
  datatype Direction = Left | Right | Both

  /** The neighbour pointer a single send goes through. */
  datatype Side = LeftSide | RightSide

  /** MessageType.toString: the display name of each kind. */
  function Display(t: MessageType): string
  {
    match t
    case Election => "Election"
    case Reply => "Reply"
    case Announcement => "Announcement"
  }

  /** The display mapping is the one the enum override writes out. */
  lemma DisplayNames()
    ensures Display(Election) == "Election"
    ensures Display(Reply) == "Reply"
    ensures Display(Announcement) == "Announcement"
  {
  }

  /** No two kinds share a display string, so the display name identifies the kind. */
  lemma DisplayInjective(a: MessageType, b: MessageType)
    ensures Display(a) == Display(b) <==> a == b
  {
    if a != b {
      assert Display(a)[0] != Display(b)[0];
    }
  }

  /** A probe. `direction` is None until a sender assigns it: the Java
      constructor leaves the field null. Pids are Java longs; the protocol
      only compares them. */
  datatype Probe = Probe(
    id: int,
    srcPid: int,
    lastPid: int,
    phase: nat,
    hops: nat,
    kind: MessageType,
    direction: Option<Direction>)

  /** `new Probe(pid, msgtype, phase)`, with the random id taken as a parameter. */
  function NewProbe(pid: int, kind: MessageType, phase: nat, id: int): (p: Probe)
    ensures p.srcPid == pid && p.lastPid == pid
    ensures p.hops == 0
    ensures p.phase == phase && p.kind == kind && p.id == id
    ensures p.direction == None
  {
    Probe(id, pid, pid, phase, 0, kind, None)
  }

  /** 2^k, the hop budget of a phase-k election probe (integer replacement for
      `(int)Math.pow(2, phase)`). */
  function Pow2(k: nat): (r: nat)
    ensures r >= 1
  {
    if k == 0 then 1 else 2 * Pow2(k - 1)
  }

  /** Ring arithmetic: a position already in range is its own remainder. */
  lemma ModInRange(x: int, n: int)
    requires 0 <= x < n
    ensures x % n == x
  {
  }

  /** Ring arithmetic: a position one lap past the end wraps around. */
  lemma ModWrap(x: int, n: int)
    requires n <= x < 2 * n
    ensures x % n == x - n
  {
    ModInRange(x - n, n);
  }
}
