/**
 * runTraceroute (internal/usecase/network/network_debug.go): after the
 * header line, every line "n address time ms ..." whose first field is an
 * integer becomes a hop.
 */
module TracerouteProbe {
  import opened Wrappers
  import opened GoStrings
  import opened GoStrconv
  import opened LineScans
  import opened Models
  import opened Probes

  /** The hop a line yields: a non-empty line of at least three fields whose first field is an integer. */
  function HopOf(line: string): Option<TracerouteHop> {
    if line == "" then None
    else
      var parts := Fields(line);
      if |parts| < 3 then None
      else
        match Atoi(parts[0])
        case None => None
        case Some(n) => Some(TracerouteHop(n, parts[1], parts[|parts| - 2] + " ms"))
  }

  /**
   * `hop` is read off `line`: at least three fields, the first an integer
   * that is the hop number, the second the address, the second-to-last the
   * response time.
   */
  ghost predicate HopFromLine(line: string, hop: TracerouteHop) {
    var parts := Fields(line);
    |parts| >= 3 && Atoi(parts[0]) == Some(hop.hopNumber)
    && hop.address == parts[1] && hop.responseTime == parts[|parts| - 2] + " ms"
  }

  /** Every output line but the first. */
  function HopLines(output: string): seq<string> {
    Split(output, '\n')[1..]
  }

  /** runTraceroute: the error of a failed run, otherwise the hops of the lines after the header. */
  function TracerouteOutcome(proc: Process): Result<TracerouteResult, ProbeError> {
    match proc
    case Failed(reason) => Failure(ProcessError(reason))
    case Exited(output) => Success(TracerouteResult(FilterMap(HopLines(output), HopOf)))
  }

  /** The parsing loop of runTraceroute over the captured run of `traceroute`. */
  method RunTraceroute(proc: Process) returns (r: Result<TracerouteResult, ProbeError>)
    ensures r == TracerouteOutcome(proc)
    ensures proc.Exited? ==> r.Success? && |r.value.hops| < |Split(proc.stdout, '\n')|
    ensures proc.Failed? ==> r == Failure(ProcessError(proc.reason))
  {
    if proc.Failed? {
      return Failure(ProcessError(proc.reason));
    }
    var lines := Split(proc.stdout, '\n');
    var body := lines[1..];
    var hops: seq<TracerouteHop> := [];
    for i := 0 to |body|
      invariant hops == FilterMap(body[..i], HopOf)
    {
      assert body[..i + 1][..i] == body[..i];
      var line := body[i];
      if line == "" {
        continue;
      }
      var parts := Fields(line);
      if |parts| < 3 {
        continue;
      }
      var hopNumber := Atoi(parts[0]);
      if hopNumber.None? {
        continue;
      }
      hops := hops + [TracerouteHop(hopNumber.value, parts[1], parts[|parts| - 2] + " ms")];
    }
    assert body[..|body|] == body;
    return Success(TracerouteResult(hops));
  }

  /**
   * The hops come one per line after the header that has at least three
   * fields and an integer first field, in line order: the hop number is
   * that integer, the address the second field and the response time the
   * second-to-last field followed by " ms".
   */
  lemma HopsAreNumberedLines(output: string) returns (idx: seq<nat>)
    ensures var lines := HopLines(output);
      var hops := TracerouteOutcome(Exited(output)).value.hops;
      && |idx| == |hops| <= |lines|
      && (forall k :: 0 <= k < |idx| ==> idx[k] < |lines| && HopFromLine(lines[idx[k]], hops[k]))
      && (forall k, l :: 0 <= k < l < |idx| ==> idx[k] < idx[l])
      && (forall i :: 0 <= i < |lines| && |Fields(lines[i])| >= 3 && Atoi(Fields(lines[i])[0]).Some? ==> i in idx)
  {
    var lines := HopLines(output);
    var hops := TracerouteOutcome(Exited(output)).value.hops;
    idx := FilterMapPicks(lines, HopOf);
    forall k | 0 <= k < |idx|
      ensures idx[k] < |lines| && HopFromLine(lines[idx[k]], hops[k])
    {
      assert HopOf(lines[idx[k]]) == Some(hops[k]);
    }
    forall i | 0 <= i < |lines| && |Fields(lines[i])| >= 3 && Atoi(Fields(lines[i])[0]).Some?
      ensures i in idx
    {
      assert lines[i] != "";
      assert HopOf(lines[i]).Some?;
    }
  }

  /** The first line never yields a hop, whatever it holds. */
  lemma HeaderIsSkipped(header: string, rest: string)
    requires '\n' !in header
    ensures TracerouteOutcome(Exited(header + "\n" + rest))
         == Success(TracerouteResult(FilterMap(Split(rest, '\n'), HopOf)))
  {
    SplitAppend(header, '\n', rest);
    SplitNoSep(header, '\n');
    assert header + "\n" + rest == header + ['\n'] + rest;
  }
}
