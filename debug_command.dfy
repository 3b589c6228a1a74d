/**
 * The Run function of the debug command (internal/commands/network_debug.go):
 * check that every external tool is installed, stop with the list of missing
 * ones if any is not, otherwise run the diagnostics once and show either the
 * errors or the success message.
 */
module DebugCommand {
  import opened Wrappers
  import opened LineScans
  import opened Models
  import opened NetworkDebugUsecase

  /** The tools the command requires, in the order it checks them. */
  const Tools: seq<string> := ["iftop", "dig", "nslookup", "traceroute", "curl", "ping", "netstat"]

  /** For each tool name, the name itself when `available` (exec.LookPath) does not find it. */
  function Missing(available: string -> bool): string -> Option<string> {
    tool => if available(tool) then None else Some(tool)
  }

  /** What the command shows, in order; the styling is not modelled. */
  datatype Screen =
    | MissingTools(tools: seq<string>)              // the warning, the install hint, and the early return
    | Report(result: NetworkDebugResult, domain: string)
    | ErrorListing(errors: seq<string>)
    | SuccessMessage

  /** The pre-flight loop: every tool that is not available, in the order of `Tools`. */
  method FindMissing(available: string -> bool) returns (missingTools: seq<string>)
    ensures missingTools == FilterMap(Tools, Missing(available))
  {
    missingTools := [];
    for i := 0 to |Tools|
      invariant missingTools == FilterMap(Tools[..i], Missing(available))
    {
      assert Tools[..i + 1][..i] == Tools[..i];
      var tool := Tools[i];
      if !available(tool) {
        missingTools := missingTools + [tool];
      }
    }
    assert Tools[..|Tools|] == Tools;
  }

  /**
   * The missing list holds exactly the unavailable tools, each once, in the
   * order of `Tools`: the loop reports all of them, not just the first.
   */
  lemma MissingAreUnavailable(available: string -> bool)
    ensures var missing := FilterMap(Tools, Missing(available));
      && (forall tool :: tool in missing <==> tool in Tools && !available(tool))
      && (forall k, l :: 0 <= k < l < |missing| ==> missing[k] != missing[l])
  {
    ToolsDistinct();
    assert Selects(Missing(available));
    FilterMapSelected(Tools, Missing(available));
    FilterMapDistinct(Tools, Missing(available));
  }

  /** No tool is listed twice. */
  lemma ToolsDistinct()
    ensures forall k, l :: 0 <= k < l < |Tools| ==> Tools[k] != Tools[l]
  {
  }

  /** When every tool is installed nothing is missing. */
  lemma AllAvailable(available: string -> bool)
    requires forall tool :: tool in Tools ==> available(tool)
    ensures FilterMap(Tools, Missing(available)) == []
  {
    forall i | 0 <= i < |Tools|
      ensures Missing(available)(Tools[i]).None?
    {
      assert Tools[i] in Tools;
    }
    FilterMapNone(Tools, Missing(available));
  }

  /**
   * The command's Run: with a tool missing it shows the missing list and never
   * calls NetworkDebug; otherwise it calls NetworkDebug once with the domain,
   * shows the report, then exactly one of the error listing and the success
   * message, decided by whether the error list is empty. `calls` lists the
   * domains NetworkDebug was called with.
   */
  method Run(domain: string, available: string -> bool, env: Environment, order: seq<Tool>)
    returns (screens: seq<Screen>, calls: seq<string>)
    requires IsCompletionOrder(order)
    ensures var missing := FilterMap(Tools, Missing(available));
      && (missing != [] ==> calls == [] && screens == [MissingTools(missing)])
      && (missing == [] ==>
            && calls == [domain]
            && var errors := FilterMap(order, FailureLines(Failures(Probed(env, domain))));
               screens == [Report(Gathered(env, domain), domain)] +
                          (if errors != [] then [ErrorListing(errors)] else [SuccessMessage]))
  {
    var missingTools := FindMissing(available);
    if |missingTools| > 0 {
      return [MissingTools(missingTools)], [];
    }
    var result, errorsList := NetworkDebug(env, domain, order);
    calls := [domain];
    screens := [Report(result, domain)];
    if |errorsList| > 0 {
      screens := screens + [ErrorListing(errorsList)];
    }
    if |errorsList| == 0 {
      screens := screens + [SuccessMessage];
    }
  }
}
