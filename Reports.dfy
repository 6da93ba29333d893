/** Per-peer message counters (hs/Report.java) and the coordinator's
    collection of them (hs/ReportSet.java). */
module Reports {
  import opened Wire
  import opened Text

  /** The counters one peer keeps: messages it sent and messages it processed. */
  class Report {
    const author: string
    var sent: nat
    var received: nat

    constructor (a: string)
      ensures author == a && sent == 0 && received == 0
    {
      author := a;
      sent := 0;
      received := 0;
    }

    /** msg(): one more message sent. */
    method Msg()
      modifies this`sent
      ensures sent == old(sent) + 1
    {
      sent := sent + 1;
    }

    /** rcv(): one more message received. */
    method Rcv()
      modifies this`received
      ensures received == old(received) + 1
    {
      received := received + 1;
    }

    function Author(): string
    {
      author
    }

    function SentMessageCount(): nat
      reads this
    {
      sent
    }

    function ReceiveMessageCount(): nat
      reads this
    {
      received
    }

    /** raw(): the machine-readable line of this report. */
    function Raw(): (line: string)
      reads this
      ensures ' ' !in author ==> ParseRaw(line) == Some((author, sent, received))
    {
      if ' ' !in author then
        RawLineRoundTrip(author, sent, received);
        RawLine(author, sent, received)
      else
        RawLine(author, sent, received)
    }
  }

  /** `String.format("%s %d %d\n", author, sent, received)`. */
  function RawLine(author: string, sent: nat, received: nat): string
  {
    author + " " + Decimal(sent) + " " + Decimal(received) + "\n"
  }

  predicate AllDigits(s: string)
  {
    s != [] && forall i :: 0 <= i < |s| ==> IsDecimalDigit(s[i])
  }

  /** Reads a report line back into its three fields: the first space ends the
      author, the second ends the sent count, and the line ends in a newline. */
  function ParseRaw(line: string): Option<(string, nat, nat)>
  {
    match SplitAt(line, ' ')
    case None => None
    case Some((author, rest)) =>
      match SplitAt(rest, ' ')
      case None => None
      case Some((sentText, tail)) =>
        if |tail| >= 1 && tail[|tail| - 1] == '\n'
           && AllDigits(sentText) && AllDigits(tail[..|tail| - 1])
        then Some((author, ParseDecimal(sentText), ParseDecimal(tail[..|tail| - 1])))
        else None
  }

  /** A report line names its author and both counts unambiguously, provided
      the author contains no space. */
  lemma RawLineRoundTrip(author: string, sent: nat, received: nat)
    requires ' ' !in author
    ensures ParseRaw(RawLine(author, sent, received)) == Some((author, sent, received))
  {
    var s, r := Decimal(sent), Decimal(received);
    var tail := r + "\n";
    assert RawLine(author, sent, received) == author + [' '] + (s + [' '] + tail);
    SplitAtJoin(author, ' ', s + [' '] + tail);
    SplitAtJoin(s, ' ', tail);
    assert tail[..|tail| - 1] == r;
    DecimalRoundTrip(sent);
    DecimalRoundTrip(received);
  }

  /** Which of a report's two counters a total is taken over. */
  datatype Counter = SentCount | ReceivedCount

  ghost function Count(r: Report, c: Counter): nat
    reads r
  {
    if c == SentCount then r.sent else r.received
  }

  /** The sum of one counter over a set of reports. */
  ghost function Total(s: set<Report>, c: Counter): nat
    reads s
    decreases s
  {
    if s == {} then 0 else var r :| r in s; Count(r, c) + Total(s - {r}, c)
  }

  /** A total does not depend on the order the set is walked in: any element
      can be taken out first. */
  lemma {:induction false} TotalRemove(s: set<Report>, r: Report, c: Counter)
    requires r in s
    ensures Total(s, c) == Count(r, c) + Total(s - {r}, c)
    decreases s
  {
    var y :| y in s && Total(s, c) == Count(y, c) + Total(s - {y}, c);
    if y != r {
      TotalRemove(s - {y}, r, c);
      TotalRemove(s - {r}, y, c);
      assert s - {y} - {r} == s - {r} - {y};
    }
  }

  /** The coordinator's collection of final reports. The Java class extends
      Report to reuse `author` and the inherited `export` (file output, not
      modelled); its inherited counters are never used. */
  class ReportSet {
    const author: string
    const maxReports: int
    var reports: set<Report>
    var totalSentCount: int
    var totalReceiveCount: int
    var available: bool

    constructor (a: string, maxReports: int)
      ensures author == a && this.maxReports == maxReports
      ensures reports == {} && totalSentCount == 0 && totalReceiveCount == 0
      ensures !available
    {
      author := a;
      this.maxReports := maxReports;
      reports := {};
      totalSentCount := 0;
      totalReceiveCount := 0;
      available := false;
    }

    /** add(report): clears `available` while the set is still short, inserts the
        report (a set: a report already present changes nothing), and prepares
        the totals once the set holds exactly `maxReports` reports. */
    method Add(report: Report)
      modifies this
      ensures reports == old(reports) + {report}
      ensures report in old(reports) ==> |reports| == |old(reports)|
      ensures |reports| == maxReports ==>
        available && totalSentCount == Total(reports, SentCount)
        && totalReceiveCount == Total(reports, ReceivedCount)
      ensures |reports| != maxReports ==>
        totalSentCount == old(totalSentCount) && totalReceiveCount == old(totalReceiveCount)
        && available == (old(available) && |old(reports)| >= maxReports)
    {
      if available && |reports| < maxReports {
        available := false;
      }
      reports := reports + {report};
      assert report in old(reports) ==> reports == old(reports);
      if |reports| == maxReports {
        Prepare();
      }
    }

    function Size(): nat
      reads this
    {
      |reports|
    }

    function Available(): bool
      reads this
    {
      available
    }

    /** prepare(): resets both totals, sums every report's counters into them and
        marks the totals available. The totals depend only on the set, so a
        second call gives the same totals. (The sums are built in locals and
        stored at the end; nothing reads the fields in between.) */
    method Prepare()
      modifies this`totalSentCount, this`totalReceiveCount, this`available
      ensures totalSentCount == Total(reports, SentCount)
      ensures totalReceiveCount == Total(reports, ReceivedCount)
      ensures available
    {
      var sentSum, receivedSum := 0, 0;
      var rest := reports;
      while rest != {}
        invariant sentSum + Total(rest, SentCount) == Total(reports, SentCount)
        invariant receivedSum + Total(rest, ReceivedCount) == Total(reports, ReceivedCount)
        decreases rest
      {
        var r :| r in rest;
        TotalRemove(rest, r, SentCount);
        TotalRemove(rest, r, ReceivedCount);
        sentSum := sentSum + r.SentMessageCount();
        receivedSum := receivedSum + r.ReceiveMessageCount();
        rest := rest - {r};
      }
      totalSentCount, totalReceiveCount := sentSum, receivedSum;
      available := true;
    }
  }
}
