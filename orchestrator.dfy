/** The choices `getMetricsData` and `getDiscoveredMetricsData` make (src/metrics.go:182-218,
    325-362) once the status page has been fetched: which reader and which definition table
    turn the page into metrics, and the version the stub status path takes from the `Server`
    header. Fetching itself is not part of this model: the page, its content type and its
    headers arrive as parameters. */
module Orchestrator {
  import opened Common
  import opened Text
  import opened Definitions
  import opened StubStatus
  import opened PlusStatus
  import opened MetricMapper
  import opened StubStatusPage

  /** The three wire formats a status surface may expose. */
  datatype Format = StubText | FixedJson | MultiEndpoint

  const HttpStubStatus: string := "ngx_http_stub_status_module"
  const HttpStatus: string := "ngx_http_status_module"
  const HttpAPIStatus: string := "ngx_http_api_module"

  /** The `switch` on the status-module argument: one of the three module names fixes the
      format; anything else (the default is "discover") leaves it to discovery. */
  function Configured(statusModule: string): (f: Option<Format>)
    ensures f == Some(StubText) <==> statusModule == HttpStubStatus
    ensures f == Some(FixedJson) <==> statusModule == HttpStatus
    ensures f == Some(MultiEndpoint) <==> statusModule == HttpAPIStatus
  {
    if statusModule == HttpStubStatus then Some(StubText)
    else if statusModule == HttpStatus then Some(FixedJson)
    else if statusModule == HttpAPIStatus then Some(MultiEndpoint)
    else None
  }

  /** Discovery from the response of the status URL: a JSON response is the HTTP API when its
      body holds the API's marker token, and the fixed-JSON page otherwise; any other content
      type is the stub status page. The marker is a constant outside this model, hence a
      parameter. */
  function Discover(contentType: string, body: string, marker: string): (f: Format)
    ensures f == StubText <==> contentType != "application/json"
    ensures f == MultiEndpoint <==> contentType == "application/json" && Contains(body, marker)
    ensures f == FixedJson <==> contentType == "application/json" && !Contains(body, marker)
  {
    if contentType == "application/json" then
      if Contains(body, marker) then MultiEndpoint else FixedJson
    else StubText
  }

  /** The format a poll reads: the configured one, or the discovered one. */
  function Choose(statusModule: string, contentType: string, body: string, marker: string): (f: Format)
    ensures Configured(statusModule).Some? ==> f == Configured(statusModule).value
    ensures Configured(statusModule).None? ==> f == Discover(contentType, body, marker)
  {
    match Configured(statusModule)
    case Some(f) => f
    case None => Discover(contentType, body, marker)
  }

  /** The definition table each single-page format is mapped with. */
  function TableOf(f: Format): (t: Table)
    requires f != MultiEndpoint
    ensures f == StubText ==> t == StandardDefinition
    ensures f == FixedJson ==> t == PlusDefinition
  {
    if f == StubText then StandardDefinition else PlusDefinition
  }

  /** `strings.Replace(s, pattern, with, -1)` for a non-empty `pattern`: every occurrence, from left to
      right and without overlaps, is replaced. */
  function ReplaceAll(s: string, pattern: string, with: string): string
    requires pattern != ""
    decreases |s|
  {
    if s == [] then []
    else if HasPrefix(s, pattern) then with + ReplaceAll(s[|pattern|..], pattern, with)
    else [s[0]] + ReplaceAll(s[1..], pattern, with)
  }

  /** A text in which `pattern` does not occur is left as it is. */
  lemma {:induction false} ReplaceAllAbsent(s: string, pattern: string, with: string)
    requires pattern != "" && !Contains(s, pattern)
    ensures ReplaceAll(s, pattern, with) == s
    decreases |s|
  {
    if s != [] {
      ReplaceAllAbsent(s[1..], pattern, with);
      assert [s[0]] + s[1..] == s;
    }
  }

  /** The version the stub status path reports: the `Server` header without `nginx/`. */
  function ServerVersion(server: string): string
  {
    ReplaceAll(server, "nginx/", "")
  }

  /** A header `nginx/v` reports `v`; a header without `nginx/` (an absent header reads as "")
      is reported as it is. */
  lemma ServerVersionOf(v: string)
    requires !Contains(v, "nginx/")
    ensures ServerVersion("nginx/" + v) == v
    ensures ServerVersion(v) == v
  {
    var s := "nginx/" + v;
    assert s[..6] == "nginx/";
    assert s[6..] == v;
    ReplaceAllAbsent(v, "nginx/", "");
  }

  /** The raw bag of the stub status path: the page read with `getStandardMetrics`, with the
      version taken from the `Server` header. */
  function StubRawMetrics(body: string, server: string): (r: Result<Bag>)
    ensures r.Err? <==> StandardMetrics(body).Err?
    ensures r.Err? ==> r.error == StandardMetrics(body).error
    ensures r.Ok? ==> "version" in r.value && r.value["version"] == JString(ServerVersion(server))
    ensures r.Ok? ==> forall k :: k != "version" ==>
      (k in r.value <==> k in StandardMetrics(body).value) &&
      (k in r.value ==> r.value[k] == StandardMetrics(body).value[k])
  {
    match StandardMetrics(body)
    case Err(e) => Err(e)
    case Ok(m) => Ok(m["version" := JString(ServerVersion(server))])
  }

  /** The stub status branch of `getMetricsData` and `getDiscoveredMetricsData` after the
      fetch: a page that fails to read is the poll's error and sets nothing; otherwise every
      definition of the standard table is tried against the raw bag. */
  method PollStubStatus(sample: MetricSet, body: string, server: string) returns (err: Option<string>)
    modifies sample
    ensures StubRawMetrics(body, server).Err? ==>
      err == Some(StubRawMetrics(body, server).error) && sample.metrics == old(sample.metrics)
    ensures StubRawMetrics(body, server).Ok? ==> err == None
    ensures StubRawMetrics(body, server).Ok? ==>
      sample.metrics == old(sample.metrics) +
        Populated(StubRawMetrics(body, server).value, StandardDefinition, StandardDefinition.Keys, sample.accepts)
  {
    var raw := GetStandardMetrics(body);
    if raw.Err? {
      return Some(raw.error);
    }
    var metrics := raw.value["version" := JString(ServerVersion(server))];
    err := PopulateMetrics(sample, metrics, StandardDefinition);
  }

  /** The fixed-JSON branch after the fetch and the decoding: a decoding error is the poll's
      error and sets nothing; otherwise every definition of the fixed-JSON table is tried. */
  method PollPlusStatus(sample: MetricSet, decoded: Result<Bag>) returns (err: Option<string>)
    requires decoded.Ok? ==> NumericRoots(decoded.value)
    modifies sample
    ensures PlusMetrics(decoded).Err? ==>
      err == Some(PlusMetrics(decoded).error) && sample.metrics == old(sample.metrics)
    ensures PlusMetrics(decoded).Ok? ==> err == None
    ensures PlusMetrics(decoded).Ok? ==>
      sample.metrics == old(sample.metrics) +
        Populated(PlusMetrics(decoded).value, PlusDefinition, PlusDefinition.Keys, sample.accepts)
  {
    var raw := GetPlusMetrics(decoded);
    if raw.Err? {
      return Some(raw.error);
    }
    err := PopulateMetrics(sample, raw.value, PlusDefinition);
  }

  /** A stub page cut short still reports the header's version, though not the edition. */
  lemma ShortStubPageHasVersion(body: string, server: string)
    requires StubRawMetrics(body, server).Ok? && "edition" !in StandardMetrics(body).value
    ensures "version" in StubRawMetrics(body, server).value
    ensures "edition" !in StubRawMetrics(body, server).value
  {
  }

  /** Whatever the other definitions do, the standard table's dropped-connections metric is
      written, as accepted minus handled, exactly when both counters are integers in the raw
      bag and the set takes the value. */
  lemma DroppedMetric(raw: Bag, accepts: (string, Json, Kind) -> bool)
    ensures var name := "net.connectionsDroppedPerSecond";
      var p := Populated(raw, StandardDefinition, StandardDefinition.Keys, accepts);
      name in p <==>
        Lookup(raw, "accepted").JInt? && Lookup(raw, "handled").JInt? &&
        accepts(name, JInt(Lookup(raw, "accepted").n - Lookup(raw, "handled").n), RATE)
    ensures var name := "net.connectionsDroppedPerSecond";
      var p := Populated(raw, StandardDefinition, StandardDefinition.Keys, accepts);
      name in p ==> p[name] == Sample(JInt(Lookup(raw, "accepted").n - Lookup(raw, "handled").n), RATE)
  {
    var name := "net.connectionsDroppedPerSecond";
    assert StandardDefinition[name] == Definition(FromFn(ConnectionsDroppedFn), RATE);
    if name in Populated(raw, StandardDefinition, StandardDefinition.Keys, accepts) {
      PopulatedOnlyResolved(raw, StandardDefinition, name, accepts);
    } else if Lands(name, raw, StandardDefinition, accepts) {
      PopulatedComplete(raw, StandardDefinition, name, accepts);
    }
  }

  /** The sample stub status page of the tests, read on the stub status path, gives no
      dropped connections. */
  lemma SampleDropped(a: string, l1: string, x: string, z: string, r: string, w: string, wt: string,
                      server: string)
    requires a == "291" && x == "16630948" && z == "31070465" && r == "6" && w == "179" && wt == "106"
    requires l1 == "server accepts handled requests"
    ensures StubRawMetrics(StandardPage(a, l1, x, x, z, r, w, wt, ""), server).Ok?
    ensures ConnectionsDropped(StubRawMetrics(StandardPage(a, l1, x, x, z, r, w, wt, ""), server).value) == (0, true)
  {
    var page := StandardPage(a, l1, x, x, z, r, w, wt, "");
    SamplePage(a, l1, x, z, r, w, wt);
    SampleCounters(StandardMetrics(page).value);
    CountersKept(page, server);
  }

  /** The counters of the sample page's bag. */
  lemma SampleCounters(m: Bag)
    requires m == map[
      "active" := JInt(291), "accepted" := JInt(16630948), "handled" := JInt(16630948),
      "requests" := JInt(31070465), "reading" := JInt(6), "writing" := JInt(179),
      "waiting" := JInt(106), "version" := JString(""), "edition" := JString("open source")]
    ensures Lookup(m, "accepted") == JInt(16630948) && Lookup(m, "handled") == JInt(16630948)
  {
  }

  /** Taking the version from the header leaves the counters of the page. */
  lemma CountersKept(body: string, server: string)
    requires StandardMetrics(body).Ok?
    ensures Lookup(StubRawMetrics(body, server).value, "accepted") == Lookup(StandardMetrics(body).value, "accepted")
    ensures Lookup(StubRawMetrics(body, server).value, "handled") == Lookup(StandardMetrics(body).value, "handled")
  {
    assert "accepted" != "version" && "handled" != "version";
  }
}
