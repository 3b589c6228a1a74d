/**
 * runCurl (internal/usecase/network/network_debug.go): curl is asked to
 * print "%{http_code} %{time_total} %{content_type}"; the first and third
 * fields become the status and content type.
 */
module CurlProbe {
  import opened Wrappers
  import opened GoStrings
  import opened Models
  import opened Probes

  /**
   * runCurl. `elapsed` is the wall-clock time of the run as the source
   * formats it ("%.0f ms"); it is measured outside the output, so the model
   * takes it as given.
   */
  function CurlOutcome(proc: Process, elapsed: string): (r: Result<HTTPRequestResult, ProbeError>)
    ensures proc.Failed? ==> r == Failure(ProcessError(proc.reason))
    ensures proc.Exited? && r.Failure? ==> r.error == UnexpectedCurlOutput(proc.stdout)
  {
    match proc
    case Failed(reason) => Failure(ProcessError(reason))
    case Exited(output) =>
      var parts := Fields(output);
      if |parts| < 3 then Failure(UnexpectedCurlOutput(output))
      else Success(HTTPRequestResult("HTTP " + parts[0], elapsed, parts[2]))
  }

  /**
   * For output made of white-space-free tokens separated by single spaces:
   * the probe succeeds exactly when there are at least three tokens, and then
   * the status is "HTTP " and the first token, the content type the third,
   * the response time the measured one; the second token is never read.
   * Fewer tokens give the unexpected-output error carrying the output.
   */
  lemma CurlTokens(tokens: seq<string>, elapsed: string)
    requires forall k :: 0 <= k < |tokens| ==> tokens[k] != [] && NoSpace(tokens[k])
    ensures var output := Join(tokens, ' ');
      var r := CurlOutcome(Exited(output), elapsed);
      && (r.Success? <==> |tokens| >= 3)
      && (r.Success? ==> r.value == HTTPRequestResult("HTTP " + tokens[0], elapsed, tokens[2]))
      && (r.Failure? ==> r.error == UnexpectedCurlOutput(output))
  {
    FieldsJoin(tokens);
  }

  /**
   * What curl writes for a response with a content type parses back to its
   * status code and content type; the time curl reports is ignored in
   * favour of the measured one.
   */
  lemma CurlWriteOut(code: string, timeTotal: string, contentType: string, elapsed: string)
    requires code != [] && NoSpace(code)
    requires timeTotal != [] && NoSpace(timeTotal)
    requires contentType != [] && NoSpace(contentType)
    ensures CurlOutcome(Exited(code + " " + timeTotal + " " + contentType), elapsed)
         == Success(HTTPRequestResult("HTTP " + code, elapsed, contentType))
  {
    var tokens := [code, timeTotal, contentType];
    FieldsJoin(tokens);
    assert tokens[1..][1..] == [contentType];
    assert Join(tokens[1..], ' ') == timeTotal + " " + contentType;
    assert Join(tokens, ' ') == code + " " + timeTotal + " " + contentType;
  }

  /**
   * A response without a content type makes curl print an empty third
   * field, which the probe reports as an error although the request
   * succeeded.
   */
  lemma CurlWithoutContentType(code: string, timeTotal: string, elapsed: string)
    requires code != [] && NoSpace(code)
    requires timeTotal != [] && NoSpace(timeTotal)
    ensures var output := code + " " + timeTotal + " ";
      CurlOutcome(Exited(output), elapsed) == Failure(UnexpectedCurlOutput(output))
  {
    var output := code + " " + timeTotal + " ";
    var tokens := [code, timeTotal];
    FieldsJoin(tokens);
    FieldsSpaceJoin(code + " " + timeTotal, ' ', "");
    assert tokens[1..] == [timeTotal];
    assert Join(tokens, ' ') == code + " " + timeTotal;
    assert output == (code + " " + timeTotal) + [' '] + "";
  }
}
