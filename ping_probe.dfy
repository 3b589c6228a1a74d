/**
 * runPing (internal/usecase/network/network_debug.go): the counters come
 * from the summary line "N packets transmitted, M received, ...". The
 * floating-point loss percentage and average latency are not modelled.
 */
module PingProbe {
  import opened Wrappers
  import opened GoStrings
  import opened GoStrconv
  import opened LineScans
  import opened Models
  import opened Probes

  /** The comma-separated parts of a summary line, when the line is one and has at least three parts. */
  function SummaryParts(line: string): Option<seq<string>> {
    if Contains(line, "packets transmitted") then
      var parts := Split(line, ',');
      if |parts| >= 3 then Some(parts) else None
    else None
  }

  /** The count `Sscanf(parts[0], "%d packets transmitted", &sent)` stores, if any. */
  function SentOf(line: string): (r: Option<int>)
    ensures r.Some? ==> InInt64(r.value)
  {
    match SummaryParts(line)
    case Some(parts) => ScanInt(parts[0])
    case None => None
  }

  /**
   * Whether the leading space of a format such as " %d received" is matched:
   * a run of spaces in a Sscanf format must consume at least one blank of the
   * input, or meet its end.
   */
  predicate LeadingSpaceMatches(s: string) {
    s == [] || IsBlank(s[0])
  }

  /**
   * The count `Sscanf(parts[1], " %d received", &received)` stores, if any:
   * none when the part does not start with a blank, because the scan stops
   * at the format's leading space before it reaches `%d`.
   */
  function ReceivedOf(line: string): (r: Option<int>)
    ensures r.Some? ==> InInt64(r.value)
  {
    match SummaryParts(line)
    case Some(parts) => if LeadingSpaceMatches(parts[1]) then ScanInt(parts[1]) else None
    case None => None
  }

  /**
   * runPing: the error of a failed run; otherwise the last stored counts
   * (0 when none was stored) and their difference in 64-bit arithmetic.
   */
  function PingOutcome(proc: Process): (r: Result<PingResult, ProbeError>)
    ensures proc.Exited? ==> r.Success?
  {
    match proc
    case Failed(reason) => Failure(ProcessError(reason))
    case Exited(output) => Success(Counters(LastMatch(Split(output, '\n'), SentOf).GetOr(0), LastMatch(Split(output, '\n'), ReceivedOf).GetOr(0)))
  }

  /** The result runPing builds from the two counters: `Lost` is their difference as a Go `int`. */
  function Counters(sent: int, received: int): (p: PingResult)
    ensures p.sent == sent && p.received == received
    ensures InInt64(p.lost)
    ensures InInt64(sent - received) ==> p.lost == sent - received
  {
    PingResult(sent, received, Wrap64(sent - received))
  }

  /**
   * The counters are 64-bit values, and the lost count is their plain
   * difference whenever that fits in 64 bits, in particular whenever neither
   * counter is negative; otherwise it is the wrapped difference.
   */
  lemma LostIsDifference(output: string)
    ensures PingOutcome(Exited(output)).Success?
    ensures var p := PingOutcome(Exited(output)).value;
      && InInt64(p.sent) && InInt64(p.received) && InInt64(p.lost)
      && (p.sent >= 0 && p.received >= 0 ==> p.lost == p.sent - p.received)
      && (InInt64(p.sent - p.received) ==> p.lost == p.sent - p.received)
  {
    var lines := Split(output, '\n');
    LastMatchIsLast(lines, SentOf);
    LastMatchIsLast(lines, ReceivedOf);
  }

  /** The body of runPing's loop for one line: a summary line overwrites the counters it can read. */
  method ReadSummary(line: string, sent: int, received: int) returns (sent': int, received': int)
    ensures sent' == SentOf(line).GetOr(sent)
    ensures received' == ReceivedOf(line).GetOr(received)
  {
    sent', received' := sent, received;
    if Contains(line, "packets transmitted") {
      var parts := Split(line, ',');
      if |parts| >= 3 {
        assert SummaryParts(line) == Some(parts);
        var s := ScanInt(parts[0]);
        if s.Some? {
          sent' := s.value;
        }
        if LeadingSpaceMatches(parts[1]) {
          var m := ScanInt(parts[1]);
          if m.Some? {
            received' := m.value;
          }
        }
      }
    }
    // The "rtt min/avg/max/mdev" line only sets the average latency, which is not modelled.
  }

  /** The scanning loop of runPing over the captured run of `ping`; it does not stop at the first summary. */
  method RunPing(proc: Process) returns (r: Result<PingResult, ProbeError>)
    ensures r == PingOutcome(proc)
    ensures proc.Failed? ==> r == Failure(ProcessError(proc.reason))
  {
    if proc.Failed? {
      return Failure(ProcessError(proc.reason));
    }
    var lines := Split(proc.stdout, '\n');
    var sent, received := 0, 0;
    for i := 0 to |lines|
      invariant sent == LastMatch(lines[..i], SentOf).GetOr(0)
      invariant received == LastMatch(lines[..i], ReceivedOf).GetOr(0)
    {
      LastMatchStep(lines, i, SentOf);
      LastMatchStep(lines, i, ReceivedOf);
      sent, received := ReadSummary(lines[i], sent, received);
    }
    assert lines[..|lines|] == lines;
    assert proc == Exited(proc.stdout);
    return Success(Counters(sent, received));
  }

  /** Without a summary line the counters stay 0, and the probe still succeeds. */
  lemma NoSummaryMeansZero(output: string)
    requires forall i :: 0 <= i < |Split(output, '\n')| ==> !Contains(Split(output, '\n')[i], "packets transmitted")
    ensures PingOutcome(Exited(output)) == Success(PingResult(0, 0, 0))
  {
    var lines := Split(output, '\n');
    LastMatchIsLast(lines, SentOf);
    LastMatchIsLast(lines, ReceivedOf);
  }

  /**
   * A later summary that sets both counters replaces whatever came before it:
   * the loop has no break, so the last summary wins.
   */
  lemma LaterSummaryWins(before: string, after: string)
    requires LastMatch(Split(after, '\n'), SentOf).Some?
    requires LastMatch(Split(after, '\n'), ReceivedOf).Some?
    ensures PingOutcome(Exited(before + "\n" + after)) == PingOutcome(Exited(after))
  {
    assert before + "\n" + after == before + ['\n'] + after;
    SplitAppend(before, '\n', after);
    LastMatchAppend(Split(before, '\n'), Split(after, '\n'), SentOf);
    LastMatchAppend(Split(before, '\n'), Split(after, '\n'), ReceivedOf);
  }

  /** The text of a summary line as ping prints it. */
  function SummaryLine(sent: nat, received: nat, rest: string): string {
    FormatNat(sent) + " packets transmitted, " + FormatNat(received) + " received, " + rest
  }

  /** A numeral holds neither the comma that separates summary parts nor a line break. */
  lemma NoCommaInNumeral(n: nat)
    ensures ',' !in FormatNat(n) && '\n' !in FormatNat(n)
  {
    assert forall i :: 0 <= i < |FormatNat(n)| ==> IsDigit(FormatNat(n)[i]);
  }

  /** Splitting a printed summary line at commas isolates the two counted parts. */
  lemma SummaryLineSplit(sent: nat, received: nat, rest: string)
    ensures Split(SummaryLine(sent, received, rest), ',') ==
      [FormatNat(sent) + " packets transmitted", " " + FormatNat(received) + " received"] + Split(" " + rest, ',')
  {
    var a := FormatNat(sent) + " packets transmitted";
    var b := " " + FormatNat(received) + " received";
    assert SummaryLine(sent, received, rest) == a + [','] + b + [','] + (" " + rest);
    NoCommaInNumeral(sent);
    NoCommaInNumeral(received);
    assert ',' !in " packets transmitted" && ',' !in " received";
    SplitTwoPieces(a, b, ',', " " + rest);
  }

  /** A printed summary line is recognised, and its first two comma-separated parts hold the two counts. */
  lemma SummaryLineParts(sent: nat, received: nat, rest: string)
    ensures SummaryParts(SummaryLine(sent, received, rest)).Some?
    ensures SummaryParts(SummaryLine(sent, received, rest)).value[0] == FormatNat(sent) + " packets transmitted"
    ensures SummaryParts(SummaryLine(sent, received, rest)).value[1] == " " + FormatNat(received) + " received"
  {
    SummaryLineContains(sent, received, rest);
    SummaryLineSplit(sent, received, rest);
  }

  lemma SummaryLineContains(sent: nat, received: nat, rest: string)
    ensures Contains(SummaryLine(sent, received, rest), "packets transmitted")
  {
    var tail := ", " + FormatNat(received) + " received, " + rest;
    assert SummaryLine(sent, received, rest) == FormatNat(sent) + " " + "packets transmitted" + tail;
    ContainsInfix(FormatNat(sent) + " ", "packets transmitted", tail);
  }

  /** The counts of a printed summary line are read back exactly. */
  lemma SummaryLineCounts(sent: nat, received: nat, rest: string)
    requires InInt64(sent) && InInt64(received)
    ensures SentOf(SummaryLine(sent, received, rest)) == Some(sent)
    ensures ReceivedOf(SummaryLine(sent, received, rest)) == Some(received)
  {
    SummaryLineParts(sent, received, rest);
    AtoiFormatInt(sent);
    AtoiFormatInt(received);
    assert FormatNat(sent) + " packets transmitted" == "" + FormatNat(sent) + " packets transmitted";
    ScanIntNumeral("", FormatNat(sent), " packets transmitted");
    ScanIntNumeral(" ", FormatNat(received), " received");
  }

  /** A summary line whose parts are separated by bare commas, so no blank precedes the received count. */
  function TightSummaryLine(sent: nat, received: nat, rest: string): string {
    FormatNat(sent) + " packets transmitted," + FormatNat(received) + " received," + rest
  }

  /**
   * Without a blank before the received count, `received` is never stored:
   * an output made of that one line reports nothing received and every sent
   * packet lost, whatever count the line shows.
   */
  lemma TightSummaryLosesReceived(sent: nat, received: nat, rest: string)
    requires InInt64(sent)
    requires '\n' !in rest
    ensures PingOutcome(Exited(TightSummaryLine(sent, received, rest))) == Success(PingResult(sent, 0, sent))
  {
    var line := TightSummaryLine(sent, received, rest);
    TightSummaryCounts(sent, received, rest);
    NoCommaInNumeral(sent);
    NoCommaInNumeral(received);
    assert '\n' !in " packets transmitted," + " received,";
    assert '\n' !in line;
    SplitNoSep(line, '\n');
    assert LastMatch([line], SentOf) == Some(sent);
    assert LastMatch([line], ReceivedOf) == None;
  }

  /** The sent count of a tight summary line is read, its received count is not. */
  lemma TightSummaryCounts(sent: nat, received: nat, rest: string)
    requires InInt64(sent)
    ensures SentOf(TightSummaryLine(sent, received, rest)) == Some(sent)
    ensures ReceivedOf(TightSummaryLine(sent, received, rest)) == None
  {
    var a := FormatNat(sent) + " packets transmitted";
    var b := FormatNat(received) + " received";
    TightSummaryParts(sent, received, rest);
    assert b[0] == FormatNat(received)[0] && !LeadingSpaceMatches(b);
    AtoiFormatInt(sent);
    assert a == "" + FormatNat(sent) + " packets transmitted";
    ScanIntNumeral("", FormatNat(sent), " packets transmitted");
  }

  /** A tight summary line is recognised, and its first two parts hold the two counts with no blank before them. */
  lemma TightSummaryParts(sent: nat, received: nat, rest: string)
    ensures SummaryParts(TightSummaryLine(sent, received, rest))
      == Some([FormatNat(sent) + " packets transmitted", FormatNat(received) + " received"] + Split(rest, ','))
  {
    TightSummaryContains(sent, received, rest);
    TightSummarySplit(sent, received, rest);
  }

  lemma TightSummaryContains(sent: nat, received: nat, rest: string)
    ensures Contains(TightSummaryLine(sent, received, rest), "packets transmitted")
  {
    var tail := "," + FormatNat(received) + " received," + rest;
    assert TightSummaryLine(sent, received, rest) == FormatNat(sent) + " " + "packets transmitted" + tail;
    ContainsInfix(FormatNat(sent) + " ", "packets transmitted", tail);
  }

  lemma TightSummarySplit(sent: nat, received: nat, rest: string)
    ensures Split(TightSummaryLine(sent, received, rest), ',')
      == [FormatNat(sent) + " packets transmitted", FormatNat(received) + " received"] + Split(rest, ',')
  {
    var a := FormatNat(sent) + " packets transmitted";
    var b := FormatNat(received) + " received";
    assert TightSummaryLine(sent, received, rest) == a + [','] + b + [','] + rest;
    NoCommaInNumeral(sent);
    NoCommaInNumeral(received);
    assert ',' !in " packets transmitted" && ',' !in " received";
    SplitTwoPieces(a, b, ',', rest);
  }
}
