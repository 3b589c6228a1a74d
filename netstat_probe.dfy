/**
 * runNetstat (internal/usecase/network/network_debug.go): every `tcp` or
 * `udp` line of `netstat -tunapl` with at least six fields becomes a
 * connection.
 */
module NetstatProbe {
  import opened Wrappers
  import opened GoStrings
  import opened LineScans
  import opened Models
  import opened Probes

  predicate IsTransportLine(line: string) {
    HasPrefix(line, "tcp") || HasPrefix(line, "udp")
  }

  /** The connection a line yields: protocol, local and remote address and state are fields 0, 3, 4 and 5. */
  function NetstatConnectionOf(line: string): Option<NetstatConnection> {
    if IsTransportLine(line) then
      var parts := Fields(line);
      if |parts| >= 6 then Some(NetstatConnection(parts[0], parts[3], parts[4], parts[5])) else None
    else None
  }

  /** `c` is read off `line`: a `tcp`/`udp` line of at least six fields, taking fields 0, 3, 4 and 5. */
  ghost predicate ConnectionFromLine(line: string, c: NetstatConnection) {
    var parts := Fields(line);
    IsTransportLine(line) && |parts| >= 6
    && c == NetstatConnection(parts[0], parts[3], parts[4], parts[5])
  }

  /** runNetstat: the error of a failed run, otherwise the connection table. */
  function NetstatOutcome(proc: Process): Result<NetstatResult, ProbeError> {
    match proc
    case Failed(reason) => Failure(ProcessError(reason))
    case Exited(output) => Success(NetstatResult(FilterMap(Split(output, '\n'), NetstatConnectionOf)))
  }

  /** The parsing loop of runNetstat over the captured run of `netstat`. */
  method RunNetstat(proc: Process) returns (r: Result<NetstatResult, ProbeError>)
    ensures r == NetstatOutcome(proc)
    ensures proc.Exited? ==> r.Success?
    ensures proc.Failed? ==> r == Failure(ProcessError(proc.reason))
  {
    if proc.Failed? {
      return Failure(ProcessError(proc.reason));
    }
    var lines := Split(proc.stdout, '\n');
    var connections: seq<NetstatConnection> := [];
    for i := 0 to |lines|
      invariant connections == FilterMap(lines[..i], NetstatConnectionOf)
    {
      assert lines[..i + 1][..i] == lines[..i];
      var line := lines[i];
      if HasPrefix(line, "tcp") || HasPrefix(line, "udp") {
        var parts := Fields(line);
        if |parts| >= 6 {
          connections := connections + [NetstatConnection(parts[0], parts[3], parts[4], parts[5])];
        }
      }
    }
    assert lines[..|lines|] == lines;
    return Success(NetstatResult(connections));
  }

  /**
   * The table has one connection per `tcp`/`udp` line with at least six
   * fields, in line order, built from fields 0, 3, 4 and 5.
   */
  lemma ConnectionsAreTransportLines(output: string) returns (idx: seq<nat>)
    ensures var lines := Split(output, '\n');
      var table := NetstatOutcome(Exited(output)).value.connections;
      && |idx| == |table| <= |lines|
      && (forall k :: 0 <= k < |idx| ==> idx[k] < |lines| && ConnectionFromLine(lines[idx[k]], table[k]))
      && (forall k, l :: 0 <= k < l < |idx| ==> idx[k] < idx[l])
      && (forall i :: 0 <= i < |lines| && IsTransportLine(lines[i]) && |Fields(lines[i])| >= 6 ==> i in idx)
  {
    var lines := Split(output, '\n');
    var table := NetstatOutcome(Exited(output)).value.connections;
    idx := FilterMapPicks(lines, NetstatConnectionOf);
    forall k | 0 <= k < |idx|
      ensures idx[k] < |lines| && ConnectionFromLine(lines[idx[k]], table[k])
    {
      assert NetstatConnectionOf(lines[idx[k]]) == Some(table[k]);
    }
    forall i | 0 <= i < |lines| && IsTransportLine(lines[i]) && |Fields(lines[i])| >= 6
      ensures i in idx
    {
      assert NetstatConnectionOf(lines[i]).Some?;
    }
  }

  lemma ProtocolOfLine(line: string, c: NetstatConnection)
    requires ConnectionFromLine(line, c)
    ensures HasPrefix(c.protocol, "tcp") || HasPrefix(c.protocol, "udp")
  {
    assert NoSpace("tcp") && NoSpace("udp");
    if HasPrefix(line, "tcp") {
      FirstFieldHasPrefix(line, "tcp");
    } else {
      FirstFieldHasPrefix(line, "udp");
    }
  }

  /** Every protocol in the table starts with "tcp" or "udp". */
  lemma ProtocolsAreTransport(output: string)
    ensures forall c :: c in NetstatOutcome(Exited(output)).value.connections ==>
      HasPrefix(c.protocol, "tcp") || HasPrefix(c.protocol, "udp")
  {
    var lines := Split(output, '\n');
    var table := NetstatOutcome(Exited(output)).value.connections;
    var idx := ConnectionsAreTransportLines(output);
    forall c | c in table
      ensures HasPrefix(c.protocol, "tcp") || HasPrefix(c.protocol, "udp")
    {
      var k :| 0 <= k < |table| && table[k] == c;
      ProtocolOfLine(lines[idx[k]], c);
    }
  }
}
