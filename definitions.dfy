/** The metric definition tables of src/metrics.go and the one derived metric they use.
    A table maps an output metric name to where its raw value comes from and how the
    monitoring backend is to treat it. */
module Definitions {
  import opened Common

  /** The SDK's `metric.SourceType`. */
  datatype Kind = GAUGE | RATE | DELTA | ATTRIBUTE

  /** The derivation functions a table entry can name instead of a raw key. */
  datatype Derivation = ConnectionsDroppedFn

  /** The first element of a table entry: a raw bag key, or a function of the whole bag. */
  datatype Source = FromKey(key: string) | FromFn(fn: Derivation)

  datatype Definition = Definition(source: Source, kind: Kind)

  /** A definition table: output metric name to definition. */
  type Table = map<string, Definition>

  /** An entry of the HTTP API table: the output name a flattened API key is renamed to. */
  datatype Renaming = Renaming(name: string, kind: Kind)

  /** `connectionsDropped`: accepted minus handled connections, reported only when both
      counters are present as integers. */
  function ConnectionsDropped(metrics: Bag): (r: (int, bool))
    ensures r.1 <==> Lookup(metrics, "accepted").JInt? && Lookup(metrics, "handled").JInt?
    ensures r.1 ==> r.0 == Lookup(metrics, "accepted").n - Lookup(metrics, "handled").n
    ensures !r.1 ==> r.0 == 0
  {
    match (Lookup(metrics, "accepted"), Lookup(metrics, "handled"))
    case (JInt(accepts), JInt(handled)) => (accepts - handled, true)
    case _ => (0, false)
  }

  /** Calling the function a `FromFn` source names. */
  function Derive(fn: Derivation, metrics: Bag): (int, bool)
  {
    match fn
    case ConnectionsDroppedFn => ConnectionsDropped(metrics)
  }

  /** `metricsStandardDefinition`: the stub status module's bag. */
  const StandardDefinition: Table := map[
    "software.edition" := Definition(FromKey("edition"), ATTRIBUTE),
    "software.version" := Definition(FromKey("version"), ATTRIBUTE),
    "net.connectionsActive" := Definition(FromKey("active"), GAUGE),
    "net.connectionsAcceptedPerSecond" := Definition(FromKey("accepted"), RATE),
    "net.connectionsDroppedPerSecond" := Definition(FromFn(ConnectionsDroppedFn), RATE),
    "net.connectionsReading" := Definition(FromKey("reading"), GAUGE),
    "net.connectionsWaiting" := Definition(FromKey("waiting"), GAUGE),
    "net.connectionsWriting" := Definition(FromKey("writing"), GAUGE),
    "net.requestsPerSecond" := Definition(FromKey("requests"), RATE)
  ]

  /** `metricsPlusDefinition`: the fixed-JSON status module's bag. */
  const PlusDefinition: Table := map[
    "software.edition" := Definition(FromKey("edition"), ATTRIBUTE),
    "software.version" := Definition(FromKey("version"), ATTRIBUTE),
    "net.connectionsActive" := Definition(FromKey("connections.active"), GAUGE),
    "net.connectionsIdle" := Definition(FromKey("connections.idle"), GAUGE),
    "net.connectionsAcceptedPerSecond" := Definition(FromKey("connections.accepted"), RATE),
    "net.connectionsDroppedPerSecond" := Definition(FromKey("connections.dropped"), RATE),
    "net.requestsPerSecond" := Definition(FromKey("requests.total"), RATE),
    "processes.respawned" := Definition(FromKey("processes.respawned"), DELTA),
    "ssl.handshakes" := Definition(FromKey("ssl.handshakes"), DELTA),
    "ssl.failedHandshakes" := Definition(FromKey("ssl.handshakes_failed"), DELTA),
    "ssl.sessionReuses" := Definition(FromKey("ssl.session_reuses"), DELTA)
  ]

  /** `metricsPlusAPIDefinition`: flattened HTTP API key to output name and kind. */
  const PlusApiDefinition: map<string, Renaming> := map[
    "software.version" := Renaming("nginx.version", ATTRIBUTE),
    "connections.active" := Renaming("net.connectionsActive", GAUGE),
    "connections.idle" := Renaming("net.connectionsIdle", GAUGE),
    "connections.accepted" := Renaming("net.connectionsAcceptedPerSecond", RATE),
    "connections.dropped" := Renaming("net.connectionsDroppedPerSecond", RATE),
    "processes.respawned" := Renaming("processes.respawned", DELTA),
    "ssl.handshakes" := Renaming("ssl.handshakes", DELTA),
    "ssl.handshakes_failed" := Renaming("ssl.failedHandshakes", DELTA),
    "ssl.session_reuses" := Renaming("ssl.sessionReuses", DELTA),
    "http.requests.total" := Renaming("net.requestsPerSecond", RATE),
    "http.requests.current" := Renaming("net.requests", GAUGE)
  ]

  /** Whenever the fixed-JSON table and the HTTP API table both produce a metric from the
      same flattened key, they give it the same name and the same kind. */
  lemma PlusTablesAgree(name: string)
    requires name in PlusDefinition && PlusDefinition[name].source.FromKey?
    requires PlusDefinition[name].source.key in PlusApiDefinition
    ensures PlusApiDefinition[PlusDefinition[name].source.key].name == name
    ensures PlusApiDefinition[PlusDefinition[name].source.key].kind == PlusDefinition[name].kind
  {
    var key := PlusDefinition[name].source.key;
    assert key == "connections.active" || key == "connections.idle" || key == "connections.accepted" ||
           key == "connections.dropped" || key == "processes.respawned" || key == "ssl.handshakes" ||
           key == "ssl.handshakes_failed" || key == "ssl.session_reuses";
  }
}
