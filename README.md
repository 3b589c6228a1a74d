# Network diagnostics of teemo-cli, modelled in Dafny

teemo-cli's `debug` command checks that seven external tools are installed:
`iftop`, `dig`, `nslookup`, `traceroute`, `curl`, `ping` and `netstat`. If
any is missing, it lists them and stops. Otherwise it runs all seven
concurrently against a domain. Each probe turns the text its tool printed
into a typed record. The records are gathered into one `NetworkDebugResult`,
together with one `"<tool> error: ..."` line per probe that failed. The
command then shows either the error lines or a success message. Three small
helpers from the same CLI are modelled as well: parsing an ID, validating
the inputs of the create command, and the yes/no confirmation prompt.

The Dafny modules follow the Go code:

- `Models`: the records of `internal/models/network.go` and their zero values.
- `Probes`: the captured run of a tool, `Exited(stdout)` or `Failed(reason)`, and the probe errors.
- `DigProbe`, `NSLookupProbe`, `TracerouteProbe`, `CurlProbe`, `PingProbe`,
  `NetstatProbe`, `IftopProbe`: the parsing half of each `run*` function.
  - Each parser is a specification function over the captured output (`DigOutcome`, …).
  - Each parser's line loop is a method (`RunDig`, …), proved equal to its specification function.
  - Lemmas state what the specification function accepts and produces.
- `LineScans`: the three loop shapes the parsers share, each with its lemmas.
  - Append a row per productive line: `FilterMap`.
  - Overwrite a variable, so the last productive line wins: `LastMatch`.
  - Take the first productive line and break: `FirstMatch`.
- `GoStrings`, `GoStrconv`: the parts of Go's `strings`, `strconv` and `fmt` the parsers call.
  - `Split`, `Join`, `Fields`, `TrimSpace`, `TrimSuffix`, `Contains`, `HasPrefix`, `ToLower`.
  - `Atoi` with its 64-bit range check, and the `%d` verb of `Sscanf`.
  - The wrap-around of Go `int` subtraction.
- `NetworkDebugUsecase`: `NetworkDebug`.
  - `RunProbes` runs the seven probes.
  - `Merge` applies `executeTool` to their outcomes in any completion order.
  - A completion order is any arrangement of the seven tools.
- `Helpers`: `ParseID`, `ValidateCreateInputs` and `ConfirmAction` from `internal/utils/helpers.go`.
- `DebugCommand`: the `Run` function of the `debug` command, which is the pre-flight filter and the gate before the diagnostics.

Some consequences of the code as written are proved as lemmas:

- `CurlProbe.CurlWithoutContentType`: a response without a content type is reported as an error.
- `NSLookupProbe.AddressEndsAtSecondColon`: an address is cut at the first `':'` after `Address:`, so an IPv6 address keeps only its first group.
- `IftopProbe.ExtraColonIgnored`: a total line with two `':'` sets neither the send nor the receive rate.
- `Helpers.TwoWideCharactersPass`: `ValidateCreateInputs` counts bytes, not characters.

## Model

| member | source | states |
|---|---|---|
| DigProbe.RunDig | internal/usecase/network/network_debug.go:131-157 | A failed run gives its process error. Otherwise the loop over the lines of the trimmed output appends a record for every line with at least five fields, and ends in a success equal to `DigOutcome`. |
| DigProbe.DigRecordsAreAnswerLines | internal/usecase/network/network_debug.go:138-156 | There is one record per trimmed-output line with at least five fields, in line order. Type is field 3 and IP is field 4. Every such line is represented, and shorter lines are dropped. No answer at all is an empty success. |
| DigProbe.DigRecordOfAnswerLine | internal/usecase/network/network_debug.go:141-151 | An answer line "name ttl class type data" yields exactly the record (type, data), whatever the other three tokens are. |
| NSLookupProbe.RunNSLookup | internal/usecase/network/network_debug.go:159-185 | The loop breaks at the first address line and equals `NSLookupOutcome`. A success always carries a non-empty IP, and a failed run gives its process error. |
| NSLookupProbe.FirstAddressLineDecides | internal/usecase/network/network_debug.go:166-180 | The probe succeeds if and only if the first line with "Address:" and no "#" has a non-empty trimmed text between its first and second ':'. That text is then the IP. Every other case is the error "no IP address found". |
| NSLookupProbe.LaterLinesIgnored | internal/usecase/network/network_debug.go:168-174 | Once an address line has been seen, appending any further output leaves the outcome unchanged (the loop breaks). |
| NSLookupProbe.AddressLineHasSecondPiece | internal/usecase/network/network_debug.go:169-171 | A line containing "Address:" always splits into more than one piece at ':', so the length guard never skips it. |
| NSLookupProbe.AddressEndsAtSecondColon | internal/usecase/network/network_debug.go:170-172 | For a line "...:" + x + ":..." the address is the trimmed x alone, so an IPv6 address is cut at its first colon. |
| NSLookupProbe.ResolverLineSkipped | internal/usecase/network/network_debug.go:169 | A line containing "#" (the resolver's own address#port) never offers an address. |
| TracerouteProbe.RunTraceroute | internal/usecase/network/network_debug.go:187-221 | The loop over all lines but the first equals `TracerouteOutcome`. It never fails after a successful run, and it yields fewer hops than the output has lines. |
| TracerouteProbe.HopsAreNumberedLines | internal/usecase/network/network_debug.go:196-216 | There is one hop per post-header line with at least three fields and an integer first field, in line order. The hop number is that integer, the address is field 1, and the time is the second-to-last field + " ms". Every such line is represented. |
| TracerouteProbe.HeaderIsSkipped | internal/usecase/network/network_debug.go:194-196 | The first line never contributes a hop: the outcome is that of the lines after it. |
| CurlProbe.CurlOutcome | internal/usecase/network/network_debug.go:223-244 | A failed run gives its process error. A successful run can fail only with the unexpected-output error carrying that run's output. |
| CurlProbe.CurlTokens | internal/usecase/network/network_debug.go:231-243 | For an output made of any tokens joined by single spaces, the probe succeeds if and only if there are at least three tokens. Then the status is "HTTP " + token 0, the content type is token 2 and the time is the measured one. Otherwise the error is "unexpected curl output" carrying the output. |
| CurlProbe.CurlWriteOut | internal/usecase/network/network_debug.go:225-243 | The write-out "code time type" parses back to "HTTP code" and the type. The time curl prints is ignored in favour of the measured one. |
| CurlProbe.CurlWithoutContentType | internal/usecase/network/network_debug.go:231-234 | A write-out with an empty content type ("code time ") is reported as an unexpected-output error. |
| PingProbe.Counters | internal/usecase/network/network_debug.go:284-290 | The result holds the two counters. `Lost` is a 64-bit value, and it equals `Sent - Received` whenever that difference fits in 64 bits. |
| PingProbe.ReadSummary | internal/usecase/network/network_debug.go:260-268 | A "packets transmitted" line with at least three comma-separated parts overwrites each counter that `Sscanf` can read: sent from part 0, and received from part 1 only when that part starts with a blank, which the format's leading space demands. Every other line leaves both counters alone. |
| PingProbe.RunPing | internal/usecase/network/network_debug.go:247-291 | The loop over all lines (no break) equals `PingOutcome`. A failed run gives its process error. |
| PingProbe.LostIsDifference | internal/usecase/network/network_debug.go:254-290 | The probe never fails after a successful run. All three counters are 64-bit values, and Lost == Sent - Received whenever both counters are non-negative or, more generally, whenever the difference fits in 64 bits. |
| PingProbe.NoSummaryMeansZero | internal/usecase/network/network_debug.go:254-268 | Without a "packets transmitted" line the result is the success (0, 0, 0). |
| PingProbe.LaterSummaryWins | internal/usecase/network/network_debug.go:259-268 | A later summary that sets both counters overrides everything before it. |
| PingProbe.SummaryLineSplit | internal/usecase/network/network_debug.go:262 | Splitting a printed summary line at ',' isolates "N packets transmitted" and " M received" as its first two parts. |
| PingProbe.TightSummaryLosesReceived | internal/usecase/network/network_debug.go:260-290 | For a one-line output "N packets transmitted,M received,..." with no blank after the first comma, the result is Sent = N, Received = 0, Lost = N, whatever M is. |
| PingProbe.TightSummaryCounts | internal/usecase/network/network_debug.go:264-265 | In such a line the sent count is read and the received count is not. |
| PingProbe.SummaryLineCounts | internal/usecase/network/network_debug.go:260-265 | For every sent and received count that fits in 64 bits, the summary line ping prints is read back to exactly those counts. |
| NetstatProbe.RunNetstat | internal/usecase/network/network_debug.go:293-319 | The loop over the lines equals `NetstatOutcome`. It never fails after a successful run, and a failed run gives its process error. |
| NetstatProbe.ConnectionsAreTransportLines | internal/usecase/network/network_debug.go:300-314 | There is one connection per line starting with "tcp" or "udp" that has at least six fields, in line order. Fields 0, 3, 4 and 5 fill protocol, local, remote and status, and every such line is represented. |
| NetstatProbe.ProtocolsAreTransport | internal/usecase/network/network_debug.go:303-307 | Every protocol in the table starts with "tcp" or "udp". |
| IftopProbe.Top | internal/usecase/network/network_debug.go:364-369 | At most three rows are kept, they are a prefix of the candidates, and when fewer than three are kept they are all the candidates. |
| IftopProbe.IftopOutcome | internal/usecase/network/network_debug.go:321-376 | A successful run never fails to parse. A failed run gives its process error. |
| IftopProbe.ReadLine | internal/usecase/network/network_debug.go:337-361 | For one line: an arrow line with at least six fields appends its row. A total line that splits into exactly two parts at ':' overwrites that direction's rate. |
| IftopProbe.RunIftop | internal/usecase/network/network_debug.go:321-376 | The loop over the lines, followed by the cut to three rows, equals `IftopOutcome`. |
| IftopProbe.TopConnectionsAreFirstRows | internal/usecase/network/network_debug.go:336-369 | There are at most three top connections. They come from arrow lines ("=>" or "<=") with at least six fields, in line order, with fields 0, 2, 4 and 5 as source, destination, sent and received. Every earlier candidate is kept, and a candidate is dropped only after three are kept. |
| IftopProbe.RatesCarryUnit | internal/usecase/network/network_debug.go:371-373 | Both rates always end in " KB/s". |
| IftopProbe.RatesWithoutTotals | internal/usecase/network/network_debug.go:348-374 | Without total lines both rates are exactly " KB/s", and the probe still succeeds. |
| IftopProbe.LaterTotalsWin | internal/usecase/network/network_debug.go:348-361 | For each direction, a later total line overrides every earlier one (no break). |
| IftopProbe.TotalLineRate | internal/usecase/network/network_debug.go:348-359 | A printed "tag: rate KB/s" line, with no ':' in tag or rate and no space at the ends of rate, yields exactly that rate. |
| IftopProbe.ExtraColonIgnored | internal/usecase/network/network_debug.go:350-351 | Any line with two ':' sets neither the send rate nor the receive rate, because it splits into more than two parts. |
| NetworkDebugUsecase.RunProbes | internal/usecase/network/network_debug.go:46-122 | Each of the seven probes runs its own command line and parser exactly once. |
| NetworkDebugUsecase.ExecuteTool | internal/usecase/network/network_debug.go:34-41 | A failed probe adds its "<tool> error: <message>" line and leaves the result alone. A successful probe writes only its own field, with its parsed value. |
| NetworkDebugUsecase.HoldsStep | internal/usecase/network/network_debug.go:51-53 | After one more tool completes, exactly the completed tools hold their final field, and every other field still holds its zero value. |
| NetworkDebugUsecase.HoldsAll | internal/usecase/network/network_debug.go:124-126 | Once all seven have completed, the result is the gathered result. |
| NetworkDebugUsecase.Merge | internal/usecase/network/network_debug.go:28-126 | For every completion order, the result holds each successful probe's value and each failed probe's zero value. The error list is the error lines of the failed probes, in completion order. |
| NetworkDebugUsecase.NetworkDebug | internal/usecase/network/network_debug.go:27-127 | Running the probes, then merging them in any completion order, gives the gathered result and the failed probes' error lines. |
| NetworkDebugUsecase.ErrorLinesDiffer | internal/usecase/network/network_debug.go:38 | The error lines of two different tools are different, whatever their errors. |
| NetworkDebugUsecase.FailedProbesReported | internal/usecase/network/network_debug.go:36-39 | Every failed probe has its error line in the list. |
| NetworkDebugUsecase.ReportsComeFromFailures | internal/usecase/network/network_debug.go:36-39 | Every line in the list is the error line of a failed probe. |
| NetworkDebugUsecase.ReportsDistinct | internal/usecase/network/network_debug.go:38-43 | No line appears twice: one entry per failed probe. |
| NetworkDebugUsecase.ReportsAndSuccessesCoverAll | internal/usecase/network/network_debug.go:43-126 | For every completion order, the number of error lines plus the number of successful probes is 7. |
| Helpers.ParseID | internal/utils/helpers.go:77-83 | No error if and only if the text is a signed decimal that fits in 64 bits, and then the value is that number. Otherwise the value is 0 and the error names the text. It is a range error if and only if the text is a decimal, or the digits after its optional sign begin with a run whose value exceeds 2^64-1 (strconv.ParseUint stops there before it sees a later non-digit). |
| Helpers.ParseIDFormatInt | internal/utils/helpers.go:77-83 | Every 64-bit integer written in decimal parses back to itself. |
| Helpers.ParseIDOutOfRange | internal/utils/helpers.go:78-81 | A decimal outside the 64-bit range gives 0 and a range error. |
| Helpers.ParseIDPlusSign | internal/utils/helpers.go:78 | A leading '+' is accepted. |
| Helpers.ParseIDRejectsPadding | internal/utils/helpers.go:78-81 | A number with a leading space is a syntax error. With a trailing space it is a syntax error when its magnitude is at most 2^64-1 and a range error beyond that. |
| Helpers.ParseIDOverflowBeforeJunk | internal/utils/helpers.go:78-81 | Digits whose value exceeds 2^64-1, followed by nothing or by a non-digit, give 0 and a range error. |
| Helpers.NotDecimalCause | internal/utils/helpers.go:78-81 | Text that is not a decimal gives 0 and an error, a range error exactly when its leading digits overflow 64 bits. |
| Helpers.Utf8Len | internal/utils/helpers.go:104 | Go's `len` of a string is between its character count and four times that. |
| Helpers.ValidateCreateInputs | internal/utils/helpers.go:103-111 | There is an error if and only if the name or the DNS name is shorter than three bytes. The name's message wins when both are short. |
| Helpers.ThreeCharactersSuffice | internal/utils/helpers.go:104-110 | Any name and DNS name of at least three characters pass. |
| Helpers.AsciiLength | internal/utils/helpers.go:104 | For ASCII text the byte length is the character count. |
| Helpers.TwoWideCharactersPass | internal/utils/helpers.go:104 | A two-character name passes when one of its characters takes two or more bytes. |
| Helpers.Prompting | internal/utils/helpers.go:57-73 | The loop prompts at least once and at most once per scripted line plus once for the end of input. |
| Helpers.ReadAnswer | internal/utils/helpers.go:59-72 | One read: a read error returns no. After lower-casing and trimming, "yes"/"y" returns yes and "no"/"n" returns no. Anything else does not return. |
| Helpers.ConfirmAction | internal/utils/helpers.go:55-74 | The loop's answer and its number of prompts are those of `Prompting` with the rule of `ReadAnswer`. |
| Helpers.FirstValidAnswerDecides | internal/utils/helpers.go:64-70 | The first read that settles the answer decides it, after exactly one prompt per read up to and including it. |
| Helpers.UndecidedMeansNo | internal/utils/helpers.go:57-73 | If no scripted line settles the answer, the loop reaches the end of input and answers no. |
| Helpers.NoInputAfterAnswer | internal/utils/helpers.go:65-69 | No input after the deciding read is consumed: more lines do not change the answer or the prompt count. |
| Helpers.ReadErrorMeansNo | internal/utils/helpers.go:59-63 | A read error answers no at once, even when the text read with it says yes. |
| Helpers.ClassifyIgnoresSurroundingSpace | internal/utils/helpers.go:64 | White space around the answer does not change its classification. |
| Helpers.ClassifyIgnoresCase | internal/utils/helpers.go:64 | Letter case does not change the classification. |
| DebugCommand.FindMissing | internal/commands/network_debug.go:26-33 | The missing list is the seven tool names, in their fixed order, filtered to those not available. |
| DebugCommand.MissingAreUnavailable | internal/commands/network_debug.go:28-33 | A tool is in the missing list if and only if it is one of the seven and unavailable, so all missing tools are reported. No tool is listed twice. |
| DebugCommand.AllAvailable | internal/commands/network_debug.go:28-34 | With every tool available, the missing list is empty. |
| DebugCommand.Run | internal/commands/network_debug.go:25-69 | With a tool missing, the command shows only the missing list and never calls NetworkDebug. Otherwise it calls NetworkDebug once with the domain and shows the report. It then shows exactly one of the error listing and the success message, according to whether the error list is empty. |
| GoStrconv.Atoi | internal/usecase/network/network_debug.go:204 | Every value `strconv.Atoi` returns is a 64-bit integer. |
| GoStrconv.AtoiFormatInt | internal/utils/helpers.go:78 | `strconv.Atoi` reads every 64-bit integer's decimal form back to the integer. |
| GoStrconv.ScanIntNumeral | internal/usecase/network/network_debug.go:264-265 | The `%d` verb reads blanks, then a numeral, then text that does not continue it, to exactly what Atoi makes of the numeral. |
| GoStrconv.Wrap64 | internal/usecase/network/network_debug.go:287 | Go `int` subtraction is a 64-bit value congruent to the true difference modulo 2^64, and equal to it when it fits. |
| GoStrings.JoinSplit | internal/usecase/network/network_debug.go:166 | `strings.Split` loses nothing: joining the pieces with the separator gives back the text. |
| GoStrings.SplitAppend | internal/usecase/network/network_debug.go:166 | Splitting text joined at a separator gives the pieces of each side in order, which is how appended output lines stay lines. |
| GoStrings.FieldsJoin | internal/usecase/network/network_debug.go:141 | `strings.Fields` splits tokens joined by single spaces back into those tokens. |
| GoStrings.TrimSpaceSlice | internal/usecase/network/network_debug.go:138 | `strings.TrimSpace` is the slice between the leading and trailing white space, and it starts and ends with no space. |
| GoStrings.ContainsOccurs | internal/usecase/network/network_debug.go:169 | `strings.Contains` holds if and only if the substring occurs at some position. |

## Left out

- Running the tools (`exec.Command`, `cmd.Output`, `cmd.Run`, `sudo`) is a parameter `run` from command line to captured `Process`. The command lines passed to `run` are those of the Go code (`Argv`). `exec.LookPath` is the parameter `available`.
- The goroutines, the `WaitGroup` and the mutex of `NetworkDebug` are replaced by a completion order, which is any arrangement of the seven tools.
  - The model runs all probes first (`RunProbes`) and then merges their outcomes in that order.
  - No probe reads another's output or the shared result, so every interleaving of the real program ends in the same result and the same error lines as this merge.
- `runCurl`'s measured response time (`time.Now`, `time.Since`, `%.0f`) is taken as the parameter `curlElapsed`, already formatted.
- The floating-point fields of ping, `LossPercent` and `AvgLatency` (the third `Sscanf` and the "rtt" line), are not part of `PingResult`.
- PingProbe.LostIsDifference: Lost equals Sent - Received only when the difference fits in 64 bits. Outside that range Go's `int` subtraction wraps, and the model states the wrapped value (`Wrap64`).
- White space and case are ASCII only. `strings.Fields`, `TrimSpace` and `ToLower` in Go also handle Unicode white space and letters, and those are not modelled.
- `ParseID`'s error is modelled as the offending text plus the cause (syntax or range). The exact wording of the wrapped `strconv.NumError` is not modelled.
- Standard input for `ConfirmAction` is a script of reads, each a text with or without a read error. Running past the end of the script reads as `io.EOF`. The prompts and messages printed on the way are not modelled, only counted.
- `FormatDate`, `HandleSignals`, `NewHTTPClient` and `ParseErrorResponse` of `internal/utils/helpers.go` are time, signal and HTTP/JSON code and are not part of this model.
- The REST resource usecases are not part of this model: they are HTTP and JSON client calls.
- Presentation is not part of this model. This covers the rendering in `internal/utils/network_helpers.go`, the spinner, the styles and the printed text of each screen. `DebugCommand.Run` records which screens are shown, in order.
- The cobra setup of the commands, `cmd/cli/main.go`, the configuration and the logger are not part of this model.
