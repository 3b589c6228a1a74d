/**
 * runIftop (internal/usecase/network/network_debug.go): connection rows
 * from lines with a direction arrow, the total send and receive rates from
 * their labelled lines, and the first three rows as the top connections.
 */
module IftopProbe {
  import opened Wrappers
  import opened GoStrings
  import opened LineScans
  import opened Models
  import opened Probes

  /** The number of connections runIftop keeps. */
  const TopCount := 3

  predicate HasArrow(line: string) {
    Contains(line, "=>") || Contains(line, "<=")
  }

  /** The row a line yields: a line with an arrow and at least six fields gives fields 0, 2, 4 and 5. */
  function IftopConnectionOf(line: string): Option<IftopConnection> {
    if HasArrow(line) then
      var parts := Fields(line);
      if |parts| >= 6 then Some(IftopConnection(parts[0], parts[2], parts[4], parts[5])) else None
    else None
  }

  /**
   * The rate a line tagged `tag` carries: the line must split into exactly
   * two parts at ':', and the rate is the second part without its " KB/s" unit
   * and surrounding white space.
   */
  function RateOf(line: string, tag: string): Option<string> {
    if Contains(line, tag) then
      var parts := Split(line, ':');
      if |parts| == 2 then Some(TrimSpace(TrimSuffix(parts[1], " KB/s"))) else None
    else None
  }

  function SendRateOf(line: string): Option<string> {
    RateOf(line, "Total send rate")
  }

  function ReceiveRateOf(line: string): Option<string> {
    RateOf(line, "Total receive rate")
  }

  /** At most the first three of the rows, in their original order. */
  function Top(conns: seq<IftopConnection>): (top: seq<IftopConnection>)
    ensures |top| <= TopCount && top <= conns
    ensures |top| < TopCount ==> top == conns
  {
    var limit := if |conns| < TopCount then |conns| else TopCount;
    conns[..limit]
  }

  /**
   * runIftop: the error of a failed run; otherwise the last rate read for
   * each direction (empty when none) with " KB/s" appended, and the top rows.
   */
  function IftopOutcome(proc: Process): (r: Result<IftopResult, ProbeError>)
    ensures proc.Exited? ==> r.Success?
    ensures proc.Failed? ==> r == Failure(ProcessError(proc.reason))
  {
    match proc
    case Failed(reason) => Failure(ProcessError(reason))
    case Exited(output) =>
      var lines := Split(output, '\n');
      Success(IftopResult(
        LastMatch(lines, SendRateOf).GetOr("") + " KB/s",
        LastMatch(lines, ReceiveRateOf).GetOr("") + " KB/s",
        Top(FilterMap(lines, IftopConnectionOf))))
  }

  /** The body of runIftop's loop for one line. */
  method ReadLine(line: string, conns: seq<IftopConnection>, sending: string, receiving: string)
    returns (conns': seq<IftopConnection>, sending': string, receiving': string)
    ensures conns' == conns + Keep(IftopConnectionOf(line))
    ensures sending' == SendRateOf(line).GetOr(sending)
    ensures receiving' == ReceiveRateOf(line).GetOr(receiving)
  {
    conns', sending', receiving' := conns, sending, receiving;
    if Contains(line, "=>") || Contains(line, "<=") {
      var parts := Fields(line);
      if |parts| >= 6 {
        conns' := conns' + [IftopConnection(parts[0], parts[2], parts[4], parts[5])];
      }
    }
    if Contains(line, "Total send rate") {
      var parts := Split(line, ':');
      if |parts| == 2 {
        sending' := TrimSpace(TrimSuffix(parts[1], " KB/s"));
      }
    }
    if Contains(line, "Total receive rate") {
      var parts := Split(line, ':');
      if |parts| == 2 {
        receiving' := TrimSpace(TrimSuffix(parts[1], " KB/s"));
      }
    }
  }

  /** The scanning loop of runIftop over the captured run of `iftop -t`, then the cut to three rows. */
  method RunIftop(proc: Process) returns (r: Result<IftopResult, ProbeError>)
    ensures r == IftopOutcome(proc)
  {
    if proc.Failed? {
      return Failure(ProcessError(proc.reason));
    }
    var lines := Split(proc.stdout, '\n');
    var sending, receiving := "", "";
    var topConns: seq<IftopConnection> := [];
    for i := 0 to |lines|
      invariant topConns == FilterMap(lines[..i], IftopConnectionOf)
      invariant sending == LastMatch(lines[..i], SendRateOf).GetOr("")
      invariant receiving == LastMatch(lines[..i], ReceiveRateOf).GetOr("")
    {
      assert lines[..i + 1][..i] == lines[..i];
      LastMatchStep(lines, i, SendRateOf);
      LastMatchStep(lines, i, ReceiveRateOf);
      topConns, sending, receiving := ReadLine(lines[i], topConns, sending, receiving);
    }
    assert lines[..|lines|] == lines;
    var limit := TopCount;
    if |topConns| < TopCount {
      limit := |topConns|;
    }
    topConns := topConns[..limit];
    assert proc == Exited(proc.stdout);
    return Success(IftopResult(sending + " KB/s", receiving + " KB/s", topConns));
  }

  /** `c` is read off `line`: a line with an arrow and at least six fields, whose fields 0, 2, 4 and 5 fill the row. */
  ghost predicate RowFromLine(line: string, c: IftopConnection) {
    var parts := Fields(line);
    HasArrow(line) && |parts| >= 6 && c == IftopConnection(parts[0], parts[2], parts[4], parts[5])
  }

  /**
   * The top connections are the rows of the first arrow lines with at least
   * six fields, in output order: up to three of them, and every such line
   * before the last one kept is kept too.
   */
  lemma TopConnectionsAreFirstRows(output: string) returns (idx: seq<nat>)
    ensures var lines := Split(output, '\n');
      var top := IftopOutcome(Exited(output)).value.topConnections;
      && |idx| == |top| <= TopCount
      && (forall k :: 0 <= k < |idx| ==> idx[k] < |lines| && RowFromLine(lines[idx[k]], top[k]))
      && (forall k, l :: 0 <= k < l < |idx| ==> idx[k] < idx[l])
      && (forall i :: 0 <= i < |lines| && HasArrow(lines[i]) && |Fields(lines[i])| >= 6 ==>
            i in idx || (|idx| == TopCount && idx[TopCount - 1] < i))
  {
    var lines := Split(output, '\n');
    var rows := FilterMap(lines, IftopConnectionOf);
    var top := Top(rows);
    assert IftopOutcome(Exited(output)).value.topConnections == top;
    var all := FilterMapPicks(lines, IftopConnectionOf);
    PicksPrefix(lines, IftopConnectionOf, rows, all, |top|);
    idx := all[..|top|];
    forall k | 0 <= k < |idx|
      ensures idx[k] < |lines| && RowFromLine(lines[idx[k]], top[k])
    {
      assert IftopConnectionOf(lines[all[k]]) == Some(rows[k]);
    }
    forall i | 0 <= i < |lines| && HasArrow(lines[i]) && |Fields(lines[i])| >= 6
      ensures i in idx || (|idx| == TopCount && idx[TopCount - 1] < i)
    {
      assert IftopConnectionOf(lines[i]).Some?;
    }
  }

  /** Without a total line for a direction its rate is the bare unit " KB/s", and the probe still succeeds. */
  lemma RatesWithoutTotals(output: string)
    requires forall i :: 0 <= i < |Split(output, '\n')| ==> !Contains(Split(output, '\n')[i], "Total send rate")
    requires forall i :: 0 <= i < |Split(output, '\n')| ==> !Contains(Split(output, '\n')[i], "Total receive rate")
    ensures IftopOutcome(Exited(output)).value.sendingKBps == " KB/s"
    ensures IftopOutcome(Exited(output)).value.receivingKBps == " KB/s"
  {
    LastMatchIsLast(Split(output, '\n'), SendRateOf);
    LastMatchIsLast(Split(output, '\n'), ReceiveRateOf);
  }

  /** Both rates carry the unit, whatever the output. */
  lemma RatesCarryUnit(output: string)
    ensures HasSuffix(IftopOutcome(Exited(output)).value.sendingKBps, " KB/s")
    ensures HasSuffix(IftopOutcome(Exited(output)).value.receivingKBps, " KB/s")
  {
    var lines := Split(output, '\n');
    var s := LastMatch(lines, SendRateOf).GetOr("");
    var r := LastMatch(lines, ReceiveRateOf).GetOr("");
    assert (s + " KB/s")[|s|..] == " KB/s";
    assert (r + " KB/s")[|r|..] == " KB/s";
  }

  /**
   * The loop has no break: a later total line for a direction overrides every
   * earlier one for that direction.
   */
  lemma LaterTotalsWin(before: string, after: string)
    ensures LastMatch(Split(after, '\n'), SendRateOf).Some? ==>
      IftopOutcome(Exited(before + "\n" + after)).value.sendingKBps == IftopOutcome(Exited(after)).value.sendingKBps
    ensures LastMatch(Split(after, '\n'), ReceiveRateOf).Some? ==>
      IftopOutcome(Exited(before + "\n" + after)).value.receivingKBps == IftopOutcome(Exited(after)).value.receivingKBps
  {
    assert before + "\n" + after == before + ['\n'] + after;
    SplitAppend(before, '\n', after);
    LastMatchAppend(Split(before, '\n'), Split(after, '\n'), SendRateOf);
    LastMatchAppend(Split(before, '\n'), Split(after, '\n'), ReceiveRateOf);
  }

  /** A total line as iftop prints it. */
  function TotalLine(tag: string, rate: string): string {
    tag + ": " + rate + " KB/s"
  }

  /**
   * The rate of a printed total line is read back exactly, provided neither
   * the tag nor the rate holds a ':' and the rate has no white space at its ends.
   */
  lemma TotalLineRate(tag: string, rate: string)
    requires ':' !in tag && ':' !in rate
    requires rate == [] || (!IsSpace(rate[0]) && !IsSpace(rate[|rate| - 1]))
    ensures RateOf(TotalLine(tag, rate), tag) == Some(rate)
  {
    var tail := " " + rate + " KB/s";
    assert TotalLine(tag, rate) == [] + tag + ([':'] + tail);
    assert TotalLine(tag, rate) == tag + [':'] + tail;
    assert ':' !in tail;
    ContainsInfix([], tag, [':'] + tail);
    SplitOneColon(tag, tail);
    TotalTailRate(rate);
  }

  /** A line with a single ':' splits into the text before it and the text after it. */
  lemma SplitOneColon(head: string, tail: string)
    requires ':' !in head && ':' !in tail
    ensures Split(head + [':'] + tail, ':') == [head, tail]
  {
    SplitAppend(head, ':', tail);
    SplitNoSep(head, ':');
    SplitNoSep(tail, ':');
  }

  /** The text after a total line's ':' gives back the rate once the unit and the spaces are trimmed. */
  lemma TotalTailRate(rate: string)
    requires rate == [] || (!IsSpace(rate[0]) && !IsSpace(rate[|rate| - 1]))
    ensures TrimSpace(TrimSuffix(" " + rate + " KB/s", " KB/s")) == rate
  {
    var tail := " " + rate + " KB/s";
    assert HasSuffix(tail, " KB/s");
    assert TrimSuffix(tail, " KB/s") == " " + rate + [];
    TrimSpaceAround(" ", rate, []);
  }

  /**
   * A total line that holds a second ':' (a clock time, say) sets neither
   * rate: it splits into more than two parts.
   */
  lemma ExtraColonIgnored(before: string, mid: string, after: string)
    ensures SendRateOf(before + ":" + mid + ":" + after).None?
    ensures ReceiveRateOf(before + ":" + mid + ":" + after).None?
  {
    var line := before + ":" + mid + ":" + after;
    assert line == (before + [':'] + mid) + [':'] + after;
    SplitAppend(before + [':'] + mid, ':', after);
    SplitAppend(before, ':', mid);
  }
}
