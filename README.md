# Hirschberg–Sinclair leader election on a ring, in Dafny

This project models the core of a Java program in which peers on a ring
elect a leader with the Hirschberg–Sinclair algorithm. It builds the model
and proves properties of it.

Each peer (`hs/Node.java`) has a random pid. Phase after phase it sends
ELECTION probes both ways, with a hop budget of 2^phase.
- A probe from a greater pid is relayed until its budget is spent. It then
  comes back as a REPLY.
- A probe from a smaller pid is swallowed.
- A peer that gets two REPLYs moves to the next phase.
- A peer whose own ELECTION comes all the way round declares itself leader.
  It then sends an ANNOUNCEMENT to the right, and the others adopt that leader.

A coordinator (`hs/Ringer.java`) builds the ring as peers register. It starts
one peer once the ring is full, and collects each peer's message counters
(`hs/Report.java`, `hs/ReportSet.java`).

The modules:

- `Wire` has the values peers exchange.
  - The message kinds, with their display names.
  - Directions.
  - The probe record and its constructor.
  - `Pow2`, the integer hop budget.
- `Text` has the `%d` formatting of non-negative counts, the `%x` formatting
  of any long (a negative one printed as its two's-complement, unsigned
  64-bit value), and the inverse parse of `%d`.
- `Reports` has the per-peer counters (a class) and the coordinator's report
  set (a class whose `Prepare` sums the counters in a loop).
- `Protocol` has the pure specification of one peer.
  - `Step` states what `processProbe` does to the election fields, and which
    probes it sends.
  - `Drain` states what `run()`'s loop does with a queue of probes.
  - Lemmas cover every branch of the step.
- `Peer` has the peer as a class.
  - Its fields are the Java fields.
  - `messages` is its FIFO queue.
  - `outbox` records every `send(n, p)` in order, as the side it leaves by
    and the probe.
  - `ProcessProbe` and the dispatch loop of `Run` are proved against `Step`
    and `Drain`.
- `Coordinator` has the registration of peers.
  - It proves that with distinct pids the registered peers form a closed
    two-way cycle in registration order.
  - It also covers the start of the election and the trigger of the final
    report.
- `RingSim` is a whole ring on values.
  - Peers' steps interleave in any order.
  - A send appends to the neighbour's queue and starts a dormant neighbour.
  - An invariant is proved for every reachable ring:
    - every leader a peer knows has declared itself leader;
    - every ANNOUNCEMENT in flight names such a leader;
    - no ELECTION probe ever arrives past its hop budget.

Randomness is a parameter wherever the source draws a number.
- Probe ids are `freshId` / `ids(k)`.
- Pids are constructor arguments.
- The coordinator's choice of the peer to activate is `:|`, any index in
  range.

Two places where the code does something other than what the algorithm
expects. The model follows the code in both.
- A ring of one registered peer keeps null neighbour pointers. The code
  does not wire a lone peer to itself. The algorithm expects a lone peer's
  ELECTION to come straight back to it, so that it elects itself. In the
  code, its first send dereferences null instead (see `Peer.Node.SendTo`
  under "## Left out").
- `registerNode` calls `init()` whenever the ring is full. That includes
  after a refused registration.

## Model

| member | source | states |
|---|---|---|
| Wire.DisplayNames | hs/MessageType.java:15-29 | ELECTION, REPLY and ANNOUNCEMENT display as "Election", "Reply" and "Announcement" |
| Wire.DisplayInjective | hs/MessageType.java:17-28 | two kinds have the same display name if and only if they are the same kind |
| Wire.NewProbe | hs/Probe.java:28-37 | a new probe has source and last pid equal to the creator's pid, 0 hops, the given phase, kind and id, and no direction yet |
| Text.HexLong | hs/Node.java:64 | `%x` of a long prints at least one hex digit, with no space or newline |
| Text.DecimalRoundTrip | hs/Report.java:48-50 | parsing what `%d` prints gives back the number |
| Text.SplitAtJoin | hs/Report.java:48-50 | splitting `a + c + b` at the first `c` gives back `a` and `b` when `a` has no `c` |
| Reports.Report.constructor | hs/Report.java:18-24 | a new report has the given author and both counters at 0 |
| Reports.Report.Msg | hs/Report.java:26 | the sent count rises by exactly one; nothing else changes |
| Reports.Report.Rcv | hs/Report.java:28 | the received count rises by exactly one; nothing else changes |
| Reports.Report.Raw | hs/Report.java:48-50 | the raw line parses back into author, sent count and received count when the author has no space |
| Reports.RawLineRoundTrip | hs/Report.java:48-50 | `author + " " + sent + " " + received + "\n"` is read back unambiguously when the author has no space |
| Reports.TotalRemove | hs/ReportSet.java:63-66 | the sum over a set of reports does not depend on the order they are visited in |
| Reports.ReportSet.constructor | hs/ReportSet.java:25-33 | a new set is empty, with zero totals and `available` false |
| Reports.ReportSet.Add | hs/ReportSet.java:36-46 | (1) the report is inserted, and a report already present leaves the size unchanged; (2) once the size reaches the maximum, the set is available and the totals are the sums over the set; (3) otherwise the totals stay, and `available` is cleared if the set was short |
| Reports.ReportSet.Prepare | hs/ReportSet.java:54-74 | the totals become the sums over all reports of each counter, and `available` is set; the totals depend only on the set, so a second call gives the same |
| Protocol.Initial | hs/Node.java:33-43 | a new peer is in phase 0 with no replies, not a leader, without a leader and not announced |
| Protocol.ProbeSends | hs/Node.java:141-167 | probe(type, direction) sends one fresh probe per requested side, left before right, each carrying the direction of its side |
| Protocol.Forward | hs/Node.java:170-175 | forward sends the probe unchanged, to the right exactly when its direction is RIGHT |
| Protocol.ReplyTo | hs/Node.java:178-189 | reply turns the probe into a REPLY with its direction flipped, sent through the pointer of the new direction |
| Protocol.StepSendsStamped | hs/Node.java:200-202 | at most two sends; each carries this peer as last pid, and is either the received probe one hop further (same origin, id, phase) or a fresh probe of this peer |
| Protocol.StepMonotone | hs/Node.java:192-292 | the pid never changes, the phase never decreases, a known leader is never replaced, and isLeader and announcedAsLeader are never cleared |
| Protocol.StepPreservesInv | hs/Node.java:255-270 | replies stay in {0, 1}, and a leader knows itself as the leader |
| Protocol.ElectionForwarded | hs/Node.java:208-218 | an ELECTION from a greater pid still under budget is forwarded in its own direction, and the state is unchanged |
| Protocol.ElectionTurnsIntoReply | hs/Node.java:221-226 | an ELECTION from a greater pid that has exactly spent its budget comes back as a REPLY, direction flipped, sent on the new side, with the state unchanged |
| Protocol.ElectionSwallowed | hs/Node.java:208-249 | an ELECTION from another pid does nothing if and only if its pid is smaller or its budget is exceeded |
| Protocol.ElectionCompletesCircuit | hs/Node.java:231-244 | an own ELECTION makes a peer without a leader the leader and sends one ANNOUNCEMENT to the right; with a leader known nothing happens |
| Protocol.ReplyHandled | hs/Node.java:252-273 | (1) a REPLY for another peer is forwarded; (2) the first own REPLY sets replies to 1; (3) the second moves to the next phase, resets replies to 0, and sends two phase probes, left then right |
| Protocol.AnnouncementHandled | hs/Node.java:275-286 | a peer without a leader that is not the origin forwards the ANNOUNCEMENT and adopts its origin; otherwise only announcedAsLeader is set |
| Protocol.StepElectionsWithinBudget | hs/Node.java:208-221 | no ELECTION a step sends has spent its hop budget |
| Protocol.StepAnnouncementSources | hs/Node.java:239-244 | an ANNOUNCEMENT sent is a relay of the received one or the peer's own as it takes the lead; a newly learnt leader is the origin of the received ANNOUNCEMENT or the peer itself (lines 278-284 give the second half) |
| Protocol.DrainStops | hs/Node.java:314-336 | the loop stops exactly at an exit test, or on an empty queue (the poll); it leaves a suffix of the queue, and the peer invariant holds after |
| Peer.NodeAuthor | hs/Node.java:64 | a peer's report author `Node-%x` has no space, so its raw line reads back |
| Peer.Node.constructor | hs/Node.java:56-65 | a new peer has the given pid, the initial election state, an empty queue, no neighbours, and a fresh zeroed report |
| Peer.Node.Activate | hs/Node.java:79-85 | after activate the peer is started; a second call changes nothing |
| Peer.Node.Deliver | hs/Node.java:117-124 | an incoming probe starts a dormant peer and joins the tail of the queue |
| Peer.Node.Receive | hs/Node.java:128-131 | receive removes and returns the head of the queue, or returns null when the queue is empty |
| Peer.Node.SetLeft | hs/Node.java:101-105 | left(n) sets the left pointer to n; n's right pointer then names a peer with this pid, and is this peer unless it already did |
| Peer.Node.SetRight | hs/Node.java:109-113 | the mirror image of SetLeft |
| Peer.Node.SendTo | hs/Node.java:134-137 | a send appends exactly one outbox entry and counts one sent message |
| Peer.Node.InitiateProbe | hs/Node.java:141-167 | the sends are those of ProbeSends, and each is counted once |
| Peer.Node.ForwardProbe | hs/Node.java:170-175 | the send is that of Forward |
| Peer.Node.ReplyProbe | hs/Node.java:178-189 | the send is that of ReplyTo |
| Peer.Node.ProcessProbe | hs/Node.java:192-292 | the new fields and sends are those of Step; one more received message, one more sent message per send; the peer invariant is kept |
| Peer.Node.HandleElection | hs/Node.java:205-250 | the ELECTION branch follows OnElection |
| Peer.Node.HandleReply | hs/Node.java:252-273 | the REPLY branch follows OnReply |
| Peer.Node.HandleAnnouncement | hs/Node.java:275-286 | the ANNOUNCEMENT branch follows OnAnnouncement |
| Peer.Node.Run | hs/Node.java:296-342 | a peer not yet participating first sends its ELECTION both ways at its current phase (0 on the thread's first run, as in the source); the rest is Drain over its queue, and on return done implies an exit test holds |
| Peer.Node.Dispatch | hs/Node.java:314-336 | the loop's final state, remaining queue and sends are those of Drain; done implies an exit test holds; otherwise the queue is empty |
| Coordinator.WiredNeighbours | hs/Ringer.java:69-74 | in a wired ring of N >= 2 peers, peer i's right neighbour is peer (i + 1) mod N and its left neighbour is peer (i - 1) mod N |
| Coordinator.FollowRight | hs/Ringer.java:69-74 | k <= N steps along `right` from peer i reach peer i + k, wrapping round the ring |
| Coordinator.FollowLeft | hs/Ringer.java:69-74 | k <= N steps along `left` from peer i reach peer i - k, wrapping round the ring |
| Coordinator.RingCloses | hs/Ringer.java:69-74 | N steps in either direction come back to the starting peer |
| Coordinator.Ringer.constructor | hs/Ringer.java:44-49 | an empty ring, and an empty report set expecting maxNodes reports |
| Coordinator.Ringer.RegisterNode | hs/Ringer.java:63-87 | (1) appends only while the ring is below maxNodes, so a full ring is unchanged; (2) with a full ring, one peer in range is activated and no other; (3) a full ring of size 0 is a failed pick; (4) with distinct pids the ring stays a closed cycle |
| Coordinator.Ringer.Append | hs/Ringer.java:69-74 | the new peer's left is the last peer and its right the first (null for the first peer); with distinct pids the ring is a closed cycle in registration order |
| Coordinator.Ringer.Init | hs/Ringer.java:90-108 | exactly one peer, at an index in [0, size), is activated; an empty ring is a failed pick |
| Coordinator.Ringer.Report | hs/Ringer.java:112-123 | the report is always added; the final summary is due exactly when the set holds maxNodes reports and is available, and then the totals are the sums |
| RingSim.Neighbour | hs/Node.java:170-175 | a send on the right reaches peer (i + 1) mod N, on the left peer (i - 1) mod N, never the sender |
| RingSim.Start | hs/Ringer.java:63-87 | a fresh ring: every peer initial, dormant, with an empty queue |
| RingSim.DeliverFifo | hs/Node.java:117-124 | every queue grows by exactly the probes sent its way, in sending order; a peer is started exactly when it was dormant and receives one |
| RingSim.StartInv | hs/Node.java:33-48 | a fresh ring satisfies the ring invariant |
| RingSim.ProcessKeepsInv | hs/Node.java:192-292 | processing a probe keeps the ring invariant |
| RingSim.BeginKeepsInv | hs/Node.java:300-310 | a peer's first ELECTION probes keep the ring invariant |
| RingSim.ApplyKeepsInv | hs/Node.java:296-342 | every enabled action keeps the ring invariant |
| RingSim.ExecuteKeepsInv | hs/Node.java:296-342 | the invariant holds after any sequence of enabled actions |
| RingSim.Reachable | hs/Node.java:208-284 | in every reachable ring: a known leader is a peer that declared itself leader; replies are at most 1; a stamped ELECTION is never over budget, so the "budget exceeded" branch is never taken |

## Left out

- RMI transport and registry (`UnicastRemoteObject`, `Naming`, `LocateRegistry`, `RemoteException` paths, the two `main` methods, `shutdown`). A remote send is a synchronous append to the neighbour's queue. A probe is a value, because RMI passes a serialized copy.
- Threads and timing.
  - A started thread is the `activated` flag.
  - `Thread.sleep`, `join`, `interrupt` and `System.exit` are not modelled.
  - The background thread behind `report` is the boolean result `prepareNow`.
  - Concurrent peers are sequential interleavings in `RingSim`.
- Peer.Node.Dispatch: where `run()` busy-polls an empty queue, the model returns with `done` false. Only a delivery can change anything, so polling again is the caller's job.
- RingSim: an exited peer keeps accepting probes into its queue. In the source its process has exited, so a send to it raises an exception in the sender, which aborts the sender's step. This is not modelled.
- Peer.Node.SendTo: records and counts a send whatever the neighbour pointer holds. In the source, a send through a null neighbour (a lone registered peer, hs/Node.java:135) throws NullPointerException before `report.msg()`. `run()` catches only RemoteException (hs/Node.java:305), so the peer's thread dies before it sets `participating` and never reports. The model does not capture that failure.
- RingSim: covers rings of two or more peers only. The one-peer ring fails in the source as described for `Peer.Node.SendTo`.
- RingSim: routes by index, peer i's neighbours being i - 1 and i + 1 around the ring. This is the wiring `Coordinator.Ringer.Append` proves under distinct pids; `RingSim.Start` does not check that the pids are distinct. The ring invariant does not depend on distinct pids.
- `finish()` and the call that reports a peer's counters to the coordinator are not part of the peer model. `Coordinator.Ringer.Report` takes the report as given.
- Randomness is a parameter or a nondeterministic choice: pid generation, probe ids, and the activation pick.
- `Math.pow` is replaced by the integer `Pow2`. Saturation of `(int)Math.pow(2, phase)` at 2^31 - 1 for phase >= 31 is not modelled.
- Java `int` and `long` overflow of hops, phase, counters and totals is not modelled. They are unbounded naturals. Pids and probe ids are unbounded integers that are only compared.
- The floating-point averages in `prepare` (hs/ReportSet.java:69-70) are not modelled. Line 70 computes the receive average from the sent total, so no property is claimed about it.
- Output and file I/O: `Report.summary`, `Report.export`, `ReportSet.summary`, `ReportSet.export`, `prepareReport`, and `hs/Logger.java` entirely.
- `ReportSet` extends `Report` in the source to reuse `author` and the inherited `export` (file output, left out as above). Its inherited counters are never used, so it is a separate class here.
- Report getters (`Author`, `SentMessageCount`, `ReceiveMessageCount`), the report set's `Reports.ReportSet.Size` and `Reports.ReportSet.Available`, and `Peer.Node.Finished` are functions. They read the fields and change nothing, so they have no contracts of their own.
- Pid uniqueness is assumed by the source and never checked. The cycle property is proved under `DistinctPids`. With a repeated pid the setters' pid comparison can leave pointers unrepaired.
- Global leader uniqueness and termination are not proved. The ring simulation proves only the safety invariant described above.
