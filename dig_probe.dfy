/**
 * runDig (internal/usecase/network/network_debug.go): `dig +noall +answer`
 * prints one answer per line, "name TTL dnsClass type data"; every line with
 * at least five fields becomes a DNS record.
 */
module DigProbe {
  import opened Wrappers
  import opened GoStrings
  import opened LineScans
  import opened Models
  import opened Probes

  /** The record an answer line yields: its fourth field is the type, its fifth the address. */
  function DigRecord(line: string): Option<DNSRecord> {
    var parts := Fields(line);
    if |parts| < 5 then None else Some(DNSRecord(parts[3], parts[4]))
  }

  /** The lines of the output once its surrounding white space is trimmed. */
  function DigLines(output: string): seq<string> {
    Split(TrimSpace(output), '\n')
  }

  /** runDig: the error of a failed run, otherwise the records of the answer lines. */
  function DigOutcome(proc: Process): Result<DNSLookupResult, ProbeError> {
    match proc
    case Failed(reason) => Failure(ProcessError(reason))
    case Exited(output) => Success(DNSLookupResult(FilterMap(DigLines(output), DigRecord)))
  }

  /** The parsing loop of runDig over the captured run of `dig`. */
  method RunDig(proc: Process) returns (r: Result<DNSLookupResult, ProbeError>)
    ensures r == DigOutcome(proc)
    ensures proc.Exited? ==> r.Success?
    ensures proc.Failed? ==> r == Failure(ProcessError(proc.reason))
  {
    if proc.Failed? {
      return Failure(ProcessError(proc.reason));
    }
    var lines := Split(TrimSpace(proc.stdout), '\n');
    var records: seq<DNSRecord> := [];
    for i := 0 to |lines|
      invariant records == FilterMap(lines[..i], DigRecord)
    {
      assert lines[..i + 1][..i] == lines[..i];
      var parts := Fields(lines[i]);
      if |parts| < 5 {
        continue;
      }
      records := records + [DNSRecord(parts[3], parts[4])];
    }
    assert lines[..|lines|] == lines;
    return Success(DNSLookupResult(records));
  }

  /**
   * The records are one per trimmed output line with at least five fields,
   * in the order of those lines, with type and address taken from fields 3
   * and 4; shorter lines are dropped, so no answer at all is an empty success.
   */
  lemma DigRecordsAreAnswerLines(output: string) returns (idx: seq<nat>)
    ensures var lines := DigLines(output);
      var records := DigOutcome(Exited(output)).value.records;
      && |idx| == |records| <= |lines|
      && (forall k :: 0 <= k < |idx| ==>
            idx[k] < |lines| && |Fields(lines[idx[k]])| >= 5
            && records[k] == DNSRecord(Fields(lines[idx[k]])[3], Fields(lines[idx[k]])[4]))
      && (forall k, l :: 0 <= k < l < |idx| ==> idx[k] < idx[l])
      && (forall i :: 0 <= i < |lines| && |Fields(lines[i])| >= 5 ==> i in idx)
  {
    var lines := DigLines(output);
    idx := FilterMapPicks(lines, DigRecord);
    forall i | 0 <= i < |lines| && |Fields(lines[i])| >= 5
      ensures i in idx
    {
      assert DigRecord(lines[i]).Some?;
    }
  }

  /** An answer line as dig prints it: five tokens separated by single spaces. */
  function AnswerLine(name: string, ttl: string, dnsClass: string, recordType: string, data: string): string {
    Join([name, ttl, dnsClass, recordType, data], ' ')
  }

  predicate IsToken(s: string) {
    s != [] && NoSpace(s)
  }

  /** The record of a printed answer line is its type and data, whatever the other three tokens are. */
  lemma DigRecordOfAnswerLine(name: string, ttl: string, dnsClass: string, recordType: string, data: string)
    requires IsToken(name) && IsToken(ttl) && IsToken(dnsClass) && IsToken(recordType) && IsToken(data)
    ensures DigRecord(AnswerLine(name, ttl, dnsClass, recordType, data)) == Some(DNSRecord(recordType, data))
  {
    FieldsJoin([name, ttl, dnsClass, recordType, data]);
  }
}
