/**
 * The records the diagnostics produce (internal/models/network.go), with the
 * zero value each field keeps when its probe fails.
 */
module Models {

  datatype DNSRecord = DNSRecord(recordType: string, ip: string)

  datatype DNSLookupResult = DNSLookupResult(records: seq<DNSRecord>)

  datatype NSLookupResult = NSLookupResult(ip: string)

  datatype TracerouteHop = TracerouteHop(hopNumber: int, address: string, responseTime: string)

  datatype TracerouteResult = TracerouteResult(hops: seq<TracerouteHop>)

  datatype HTTPRequestResult = HTTPRequestResult(status: string, responseTime: string, contentType: string)

  /** The integer counters of a ping summary; the two floating-point fields are not modelled. */
  datatype PingResult = PingResult(sent: int, received: int, lost: int)

  datatype NetstatConnection = NetstatConnection(protocol: string, localAddress: string, remoteAddress: string, status: string)

  datatype NetstatResult = NetstatResult(connections: seq<NetstatConnection>)

  datatype IftopConnection = IftopConnection(source: string, destination: string, sentKBps: string, receivedKBps: string)

  datatype IftopResult = IftopResult(sendingKBps: string, receivingKBps: string, topConnections: seq<IftopConnection>)

  datatype NetworkDebugResult = NetworkDebugResult(
    dnsLookup: DNSLookupResult,
    nsLookup: NSLookupResult,
    traceroute: TracerouteResult,
    httpRequest: HTTPRequestResult,
    ping: PingResult,
    netstat: NetstatResult,
    iftop: IftopResult)

  const ZeroDNSLookup := DNSLookupResult([])
  const ZeroNSLookup := NSLookupResult("")
  const ZeroTraceroute := TracerouteResult([])
  const ZeroHTTPRequest := HTTPRequestResult("", "", "")
  const ZeroPing := PingResult(0, 0, 0)
  const ZeroNetstat := NetstatResult([])
  const ZeroIftop := IftopResult("", "", [])

  /** `&models.NetworkDebugResult{}`: every field at its zero value. */
  const ZeroResult := NetworkDebugResult(
    ZeroDNSLookup, ZeroNSLookup, ZeroTraceroute, ZeroHTTPRequest, ZeroPing, ZeroNetstat, ZeroIftop)
}
