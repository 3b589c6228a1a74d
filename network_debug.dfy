/**
 * NetworkDebugUsecase.NetworkDebug (internal/usecase/network/network_debug.go):
 * seven probes, each run once; a probe that succeeds stores its result in
 * its own field, a probe that fails adds "<tool> error: <message>" to the
 * error list. The goroutines and the mutex are modelled by the order in which
 * the probes complete: any arrangement of the seven tools.
 */
module NetworkDebugUsecase {
  import opened Wrappers
  import opened LineScans
  import opened Models
  import opened Probes
  import opened DigProbe
  import opened NSLookupProbe
  import opened TracerouteProbe
  import opened CurlProbe
  import opened PingProbe
  import opened NetstatProbe
  import opened IftopProbe

  datatype Tool = Dig | NSLookup | Traceroute | Curl | Ping | Netstat | Iftop

  /** The name the error line starts with. */
  function ToolName(t: Tool): string {
    match t
    case Dig => "dig"
    case NSLookup => "nslookup"
    case Traceroute => "traceroute"
    case Curl => "curl"
    case Ping => "ping"
    case Netstat => "netstat"
    case Iftop => "iftop"
  }

  /** The interface runIftop is given; it is fixed in the source. */
  const IftopInterface := "eth0"

  /** The command line each probe runs; netstat and iftop do not see the domain. */
  function Argv(t: Tool, domain: string): seq<string> {
    match t
    case Dig => ["dig", "+noall", "+answer", domain]
    case NSLookup => ["nslookup", domain]
    case Traceroute => ["traceroute", "-m", "5", domain]
    case Curl => ["curl", "-s", "-o", "/dev/null", "-w", "%{http_code} %{time_total} %{content_type}", domain]
    case Ping => ["ping", "-c", "4", domain]
    case Netstat => ["netstat", "-tunapl"]
    case Iftop => ["sudo", "iftop", "-t", "-s", "5", "-i", IftopInterface]
  }

  /**
   * What the probes meet outside the program: the run of each command line,
   * and the wall-clock time curl took, already formatted as "<n> ms".
   */
  datatype Environment = Environment(run: seq<string> -> Process, curlElapsed: string)

  function Capture(env: Environment, t: Tool, domain: string): Process {
    env.run(Argv(t, domain))
  }

  /** What each of the seven probes ends with: its parsed value or its error. */
  datatype Outcomes = Outcomes(
    dig: Result<DNSLookupResult, ProbeError>,
    nsLookup: Result<NSLookupResult, ProbeError>,
    traceroute: Result<TracerouteResult, ProbeError>,
    curl: Result<HTTPRequestResult, ProbeError>,
    ping: Result<PingResult, ProbeError>,
    netstat: Result<NetstatResult, ProbeError>,
    iftop: Result<IftopResult, ProbeError>)

  /** The outcomes of the probes in one environment. */
  function Probed(env: Environment, domain: string): Outcomes {
    Outcomes(
      DigOutcome(Capture(env, Dig, domain)),
      NSLookupOutcome(Capture(env, NSLookup, domain)),
      TracerouteOutcome(Capture(env, Traceroute, domain)),
      CurlOutcome(Capture(env, Curl, domain), env.curlElapsed),
      PingOutcome(Capture(env, Ping, domain)),
      NetstatOutcome(Capture(env, Netstat, domain)),
      IftopOutcome(Capture(env, Iftop, domain)))
  }

  function ErrorOf<T>(r: Result<T, ProbeError>): Option<ProbeError> {
    if r.Failure? then Some(r.error) else None
  }

  /** The error a probe ended with, if it failed. */
  function FailureOf(os: Outcomes, t: Tool): Option<ProbeError> {
    match t
    case Dig => ErrorOf(os.dig)
    case NSLookup => ErrorOf(os.nsLookup)
    case Traceroute => ErrorOf(os.traceroute)
    case Curl => ErrorOf(os.curl)
    case Ping => ErrorOf(os.ping)
    case Netstat => ErrorOf(os.netstat)
    case Iftop => ErrorOf(os.iftop)
  }

  /** The line executeTool adds for a failing probe. */
  function ErrorLine(t: Tool, e: ProbeError): string {
    ToolName(t) + " error: " + Message(e)
  }

  /** The errors of the probes, tool by tool. */
  function Failures(os: Outcomes): Tool -> Option<ProbeError> {
    t => FailureOf(os, t)
  }

  /** For each tool, its error line when it fails. */
  function FailureLines(fail: Tool -> Option<ProbeError>): Tool -> Option<string> {
    t => match fail(t)
         case Some(e) => Some(ErrorLine(t, e))
         case None => None
  }

  /** For each tool, the tool itself when it succeeds. */
  function Successes(fail: Tool -> Option<ProbeError>): Tool -> Option<Tool> {
    t => if fail(t).None? then Some(t) else None
  }

  /**
   * The result the probes leave behind: the parsed value of a successful
   * probe, the zero value of the field of a failed one.
   */
  function GatheredOf(os: Outcomes): NetworkDebugResult {
    NetworkDebugResult(
      os.dig.GetOr(ZeroDNSLookup),
      os.nsLookup.GetOr(ZeroNSLookup),
      os.traceroute.GetOr(ZeroTraceroute),
      os.curl.GetOr(ZeroHTTPRequest),
      os.ping.GetOr(ZeroPing),
      os.netstat.GetOr(ZeroNetstat),
      os.iftop.GetOr(ZeroIftop))
  }

  function Gathered(env: Environment, domain: string): NetworkDebugResult {
    GatheredOf(Probed(env, domain))
  }

  /** The field of the result a tool writes, as one value. */
  datatype Slot =
    | DNSSlot(dns: DNSLookupResult)
    | NSSlot(ns: NSLookupResult)
    | TracerouteSlot(tr: TracerouteResult)
    | HTTPSlot(http: HTTPRequestResult)
    | PingSlot(ping: PingResult)
    | NetstatSlot(netstat: NetstatResult)
    | IftopSlot(iftop: IftopResult)

  function SlotOf(r: NetworkDebugResult, t: Tool): Slot {
    match t
    case Dig => DNSSlot(r.dnsLookup)
    case NSLookup => NSSlot(r.nsLookup)
    case Traceroute => TracerouteSlot(r.traceroute)
    case Curl => HTTPSlot(r.httpRequest)
    case Ping => PingSlot(r.ping)
    case Netstat => NetstatSlot(r.netstat)
    case Iftop => IftopSlot(r.iftop)
  }

  /** Two results with the same field for every tool are the same result. */
  lemma SlotsDetermine(r1: NetworkDebugResult, r2: NetworkDebugResult)
    requires forall t :: SlotOf(r1, t) == SlotOf(r2, t)
    ensures r1 == r2
  {
    assert SlotOf(r1, Dig) == SlotOf(r2, Dig);
    assert SlotOf(r1, NSLookup) == SlotOf(r2, NSLookup);
    assert SlotOf(r1, Traceroute) == SlotOf(r2, Traceroute);
    assert SlotOf(r1, Curl) == SlotOf(r2, Curl);
    assert SlotOf(r1, Ping) == SlotOf(r2, Ping);
    assert SlotOf(r1, Netstat) == SlotOf(r2, Netstat);
    assert SlotOf(r1, Iftop) == SlotOf(r2, Iftop);
  }

  /** The tools in `done` have written their field of `target`; every other field still holds its zero value. */
  ghost predicate Holds(result: NetworkDebugResult, done: seq<Tool>, target: NetworkDebugResult) {
    forall u :: SlotOf(result, u) == if u in done then SlotOf(target, u) else SlotOf(ZeroResult, u)
  }

  /** One more tool completes and writes its own field only. */
  lemma HoldsStep(result: NetworkDebugResult, result': NetworkDebugResult, order: seq<Tool>, i: nat, target: NetworkDebugResult)
    requires i < |order| && forall j :: 0 <= j < i ==> order[j] != order[i]
    requires Holds(result, order[..i], target)
    requires forall u :: u != order[i] ==> SlotOf(result', u) == SlotOf(result, u)
    requires SlotOf(result', order[i]) == SlotOf(target, order[i])
    ensures Holds(result', order[..i + 1], target)
  {
    assert order[..i + 1] == order[..i] + [order[i]];
  }

  /** Once every tool has completed, the result is the target. */
  lemma HoldsAll(result: NetworkDebugResult, done: seq<Tool>, target: NetworkDebugResult)
    requires Holds(result, done, target)
    requires forall t: Tool :: t in done
    ensures result == target
  {
    SlotsDetermine(result, target);
  }

  /** The seven tools, each once: the orders in which the goroutines can finish. */
  predicate IsCompletionOrder(order: seq<Tool>) {
    && |order| == 7
    && (forall i, j :: 0 <= i < j < |order| ==> order[i] != order[j])
    && (forall t: Tool :: t in order)
  }

  /**
   * The probe half of the seven goroutines: each runs its tool and parses
   * what it printed. No probe reads what another one wrote, so they can be
   * run before any of them is merged.
   */
  method RunProbes(env: Environment, domain: string) returns (os: Outcomes)
    ensures os == Probed(env, domain)
  {
    var dig := RunDig(Capture(env, Dig, domain));
    var ns := RunNSLookup(Capture(env, NSLookup, domain));
    var tr := RunTraceroute(Capture(env, Traceroute, domain));
    var http := CurlOutcome(Capture(env, Curl, domain), env.curlElapsed);
    var ping := RunPing(Capture(env, Ping, domain));
    var netstat := RunNetstat(Capture(env, Netstat, domain));
    var iftop := RunIftop(Capture(env, Iftop, domain));
    os := Outcomes(dig, ns, tr, http, ping, netstat, iftop);
  }

  /**
   * executeTool for one finished goroutine: a successful probe stores its
   * value in its own field of the result under the mutex; a failed one adds
   * its error line and leaves the result alone.
   */
  method ExecuteTool(os: Outcomes, t: Tool, result: NetworkDebugResult)
    returns (result': NetworkDebugResult, err: Option<string>)
    ensures err == FailureLines(Failures(os))(t)
    ensures forall u :: u != t ==> SlotOf(result', u) == SlotOf(result, u)
    ensures err.None? ==> SlotOf(result', t) == SlotOf(GatheredOf(os), t)
    ensures err.Some? ==> result' == result && SlotOf(GatheredOf(os), t) == SlotOf(ZeroResult, t)
  {
    result', err := result, None;
    match t {
      case Dig =>
        if os.dig.Failure? { err := Some(ErrorLine(t, os.dig.error)); }
        else { result' := result.(dnsLookup := os.dig.value); }
      case NSLookup =>
        if os.nsLookup.Failure? { err := Some(ErrorLine(t, os.nsLookup.error)); }
        else { result' := result.(nsLookup := os.nsLookup.value); }
      case Traceroute =>
        if os.traceroute.Failure? { err := Some(ErrorLine(t, os.traceroute.error)); }
        else { result' := result.(traceroute := os.traceroute.value); }
      case Curl =>
        if os.curl.Failure? { err := Some(ErrorLine(t, os.curl.error)); }
        else { result' := result.(httpRequest := os.curl.value); }
      case Ping =>
        if os.ping.Failure? { err := Some(ErrorLine(t, os.ping.error)); }
        else { result' := result.(ping := os.ping.value); }
      case Netstat =>
        if os.netstat.Failure? { err := Some(ErrorLine(t, os.netstat.error)); }
        else { result' := result.(netstat := os.netstat.value); }
      case Iftop =>
        if os.iftop.Failure? { err := Some(ErrorLine(t, os.iftop.error)); }
        else { result' := result.(iftop := os.iftop.value); }
    }
  }

  /**
   * The merging half of NetworkDebug, with the goroutines finishing in
   * `order`: whatever the order, every successful probe's value and the zero
   * value of every failed one end up in the result, and the error list has
   * one line per failed probe, in completion order.
   */
  method Merge(os: Outcomes, order: seq<Tool>) returns (result: NetworkDebugResult, errorsList: seq<string>)
    requires IsCompletionOrder(order)
    ensures result == GatheredOf(os)
    ensures errorsList == FilterMap(order, FailureLines(Failures(os)))
  {
    var lines := FailureLines(Failures(os));
    result := ZeroResult;
    errorsList := [];
    for i := 0 to |order|
      invariant Holds(result, order[..i], GatheredOf(os))
      invariant errorsList == FilterMap(order[..i], lines)
    {
      var t := order[i];
      ghost var before := result;
      var err;
      result, err := ExecuteTool(os, t, result);
      HoldsStep(before, result, order, i, GatheredOf(os));
      FilterMapStep(order, i, lines);
      if err.Some? {
        errorsList := errorsList + [err.value];
      }
    }
    assert order[..|order|] == order;
    HoldsAll(result, order, GatheredOf(os));
  }

  /** NetworkDebug: run the seven probes, then merge them as they complete. */
  method NetworkDebug(env: Environment, domain: string, order: seq<Tool>)
    returns (result: NetworkDebugResult, errorsList: seq<string>)
    requires IsCompletionOrder(order)
    ensures result == Gathered(env, domain)
    ensures errorsList == FilterMap(order, FailureLines(Failures(Probed(env, domain))))
  {
    var os := RunProbes(env, domain);
    result, errorsList := Merge(os, order);
  }

  /** Error lines of different tools differ: the tool names already differ in their first two characters. */
  lemma ErrorLinesDiffer(t: Tool, u: Tool, e1: ProbeError, e2: ProbeError)
    requires t != u
    ensures ErrorLine(t, e1) != ErrorLine(u, e2)
  {
    ErrorLineStart(t, e1);
    ErrorLineStart(u, e2);
    NameStartsDiffer(t, u);
    assert ErrorLine(t, e1)[..2] != ErrorLine(u, e2)[..2];
  }

  lemma ErrorLineStart(t: Tool, e: ProbeError)
    ensures |ToolName(t)| >= 2 && |ErrorLine(t, e)| >= 2
    ensures ErrorLine(t, e)[..2] == ToolName(t)[..2]
  {
    var rest := " error: " + Message(e);
    assert ErrorLine(t, e) == ToolName(t) + rest;
  }

  lemma NameStartsDiffer(t: Tool, u: Tool)
    requires t != u
    ensures ToolName(t)[..2] != ToolName(u)[..2]
  {
    NameStart(t);
    NameStart(u);
  }

  /** The first two characters of each tool name, all different. */
  function Initials(t: Tool): string {
    match t
    case Dig => "di"
    case NSLookup => "ns"
    case Traceroute => "tr"
    case Curl => "cu"
    case Ping => "pi"
    case Netstat => "ne"
    case Iftop => "if"
  }

  lemma NameStart(t: Tool)
    ensures ToolName(t)[..2] == Initials(t)
  {
    match t
    case Dig =>
    case NSLookup =>
    case Traceroute =>
    case Curl =>
    case Ping =>
    case Netstat =>
    case Iftop =>
  }

  /** Every failing probe has its line in the error list. */
  lemma FailedProbesReported(fail: Tool -> Option<ProbeError>, order: seq<Tool>, t: Tool)
    requires IsCompletionOrder(order)
    requires fail(t).Some?
    ensures ErrorLine(t, fail(t).value) in FilterMap(order, FailureLines(fail))
  {
    var lines := FailureLines(fail);
    var errs := FilterMap(order, lines);
    var idx := FilterMapPicks(order, lines);
    assert t in order;
    var i :| 0 <= i < |order| && order[i] == t;
    assert lines(order[i]).Some?;
    assert i in idx;
    var k :| 0 <= k < |idx| && idx[k] == i;
    assert errs[k] == ErrorLine(t, fail(t).value);
  }

  /** Every line of the error list is the line of a failing probe. */
  lemma ReportsComeFromFailures(fail: Tool -> Option<ProbeError>, order: seq<Tool>, k: nat)
    requires k < |FilterMap(order, FailureLines(fail))|
    ensures exists t :: fail(t).Some? && FilterMap(order, FailureLines(fail))[k] == ErrorLine(t, fail(t).value)
  {
    var lines := FailureLines(fail);
    var idx := FilterMapPicks(order, lines);
    var t := order[idx[k]];
    assert lines(t) == Some(FilterMap(order, lines)[k]);
  }

  /** No line appears twice in the error list: each tool completes once. */
  lemma ReportsDistinct(fail: Tool -> Option<ProbeError>, order: seq<Tool>)
    requires IsCompletionOrder(order)
    ensures var errs := FilterMap(order, FailureLines(fail));
      forall k, l :: 0 <= k < l < |errs| ==> errs[k] != errs[l]
  {
    var lines := FailureLines(fail);
    var errs := FilterMap(order, lines);
    var idx := FilterMapPicks(order, lines);
    forall k, l | 0 <= k < l < |errs|
      ensures errs[k] != errs[l]
    {
      var t, u := order[idx[k]], order[idx[l]];
      assert lines(t) == Some(errs[k]) && lines(u) == Some(errs[l]);
      ErrorLinesDiffer(t, u, fail(t).value, fail(u).value);
    }
  }

  /** The failing probes and the successful ones together are the seven probes. */
  lemma ReportsAndSuccessesCoverAll(fail: Tool -> Option<ProbeError>, order: seq<Tool>)
    requires IsCompletionOrder(order)
    ensures |FilterMap(order, FailureLines(fail))| + |FilterMap(order, Successes(fail))| == 7
  {
    FilterMapComplement(order, FailureLines(fail), Successes(fail));
  }
}
