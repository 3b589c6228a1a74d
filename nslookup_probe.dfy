/**
 * runNSLookup (internal/usecase/network/network_debug.go): the address is
 * read off the first "Address:" line that is not the resolver's own
 * "address#port" line.
 */
module NSLookupProbe {
  import opened Wrappers
  import opened GoStrings
  import opened LineScans
  import opened Models
  import opened Probes

  predicate IsAddressLine(line: string) {
    Contains(line, "Address:") && !Contains(line, "#")
  }

  /** The address an "Address:" line offers: the trimmed text between its first and second colon. */
  function AddressOf(line: string): Option<string> {
    if IsAddressLine(line) then
      var parts := Split(line, ':');
      if |parts| > 1 then Some(TrimSpace(parts[1])) else None
    else None
  }

  /** runNSLookup: the error of a failed run; otherwise the first address, which must not be empty. */
  function NSLookupOutcome(proc: Process): Result<NSLookupResult, ProbeError> {
    match proc
    case Failed(reason) => Failure(ProcessError(reason))
    case Exited(output) =>
      var ip := FirstMatch(Split(output, '\n'), AddressOf).GetOr("");
      if ip == "" then Failure(NoIPAddressFound) else Success(NSLookupResult(ip))
  }

  /** The parsing loop of runNSLookup over the captured run of `nslookup`; it stops at the first address line. */
  method RunNSLookup(proc: Process) returns (r: Result<NSLookupResult, ProbeError>)
    ensures r == NSLookupOutcome(proc)
    ensures r.Success? ==> r.value.ip != ""
    ensures proc.Failed? ==> r == Failure(ProcessError(proc.reason))
  {
    if proc.Failed? {
      return Failure(ProcessError(proc.reason));
    }
    var lines := Split(proc.stdout, '\n');
    var ip := "";
    var i := 0;
    while i < |lines|
      invariant 0 <= i <= |lines|
      invariant ip == ""
      invariant FirstMatch(lines[i..], AddressOf) == FirstMatch(lines, AddressOf)
    {
      var line := lines[i];
      if Contains(line, "Address:") && !Contains(line, "#") {
        var parts := Split(line, ':');
        if |parts| > 1 {
          ip := TrimSpace(parts[1]);
          break;
        }
      }
      assert lines[i..][1..] == lines[i + 1..];
      i := i + 1;
    }
    if ip == "" {
      return Failure(NoIPAddressFound);
    }
    return Success(NSLookupResult(ip));
  }

  /** A string with a separator in it splits into at least two pieces. */
  lemma SplitAtSeparator(s: string, sep: char)
    requires sep in s
    ensures |Split(s, sep)| > 1
  {
    JoinSplit(s, sep);
    SplitPiecesFree(s, sep);
  }

  /** Every line that contains "Address:" has a second colon-separated piece, so the length guard never skips one. */
  lemma AddressLineHasSecondPiece(line: string)
    requires Contains(line, "Address:")
    ensures |Split(line, ':')| > 1
  {
    ContainsOccurs(line, "Address:");
    var i: nat :| i <= |line| && OccursAt(line, "Address:", i);
    assert line[i + 7] == "Address:"[7] == ':';
    SplitAtSeparator(line, ':');
  }

  /**
   * The probe succeeds exactly when some line contains "Address:" and no
   * "#", and the first such line has a non-empty trimmed text between its
   * first and second colon; that text is then the address.
   */
  lemma FirstAddressLineDecides(output: string)
    ensures var lines := Split(output, '\n');
      var r := NSLookupOutcome(Exited(output));
      && (r.Success? <==> exists i :: (0 <= i < |lines| && IsAddressLine(lines[i])
            && (forall j :: 0 <= j < i ==> !IsAddressLine(lines[j]))
            && |Split(lines[i], ':')| > 1 && TrimSpace(Split(lines[i], ':')[1]) != ""))
      && (r.Success? ==> exists i :: (0 <= i < |lines| && IsAddressLine(lines[i])
            && (forall j :: 0 <= j < i ==> !IsAddressLine(lines[j]))
            && |Split(lines[i], ':')| > 1 && r.value.ip == TrimSpace(Split(lines[i], ':')[1])))
      && (r.Failure? ==> r.error == NoIPAddressFound)
  {
    var lines := Split(output, '\n');
    forall line | IsAddressLine(line)
      ensures |Split(line, ':')| > 1 && AddressOf(line) == Some(TrimSpace(Split(line, ':')[1]))
    {
      AddressLineHasSecondPiece(line);
    }
    FirstMatchIsFirst(lines, AddressOf);
  }

  /** Once an address line has been seen, nothing after it changes the outcome. */
  lemma LaterLinesIgnored(before: string, after: string)
    requires FirstMatch(Split(before, '\n'), AddressOf).Some?
    ensures NSLookupOutcome(Exited(before + "\n" + after)) == NSLookupOutcome(Exited(before))
  {
    assert before + "\n" + after == before + ['\n'] + after;
    SplitAppend(before, '\n', after);
    FirstMatchAppend(Split(before, '\n'), Split(after, '\n'), AddressOf);
  }

  /**
   * The address is cut at a second colon: a line "Address:" + x + ":" + y
   * (as an IPv6 address would print) offers only the trimmed x.
   */
  lemma AddressEndsAtSecondColon(pre: string, x: string, post: string)
    requires ':' !in pre && ':' !in x
    requires post == [] || post[0] == ':'
    requires IsAddressLine(pre + ":" + x + post)
    ensures AddressOf(pre + ":" + x + post) == Some(TrimSpace(x))
  {
    var line := pre + ":" + x + post;
    assert line == pre + [':'] + (x + post);
    SplitAppend(pre, ':', x + post);
    SplitNoSep(pre, ':');
    if post == [] {
      assert x + post == x;
      SplitNoSep(x, ':');
    } else {
      assert x + post == x + [':'] + post[1..];
      SplitAppend(x, ':', post[1..]);
      SplitNoSep(x, ':');
    }
  }

  /** The resolver's own line, "Address: <ip>#53", is never taken for the answer. */
  lemma ResolverLineSkipped(line: string)
    requires Contains(line, "#")
    ensures AddressOf(line) == None
  {
  }
}
