/** Host and port of the monitored server, taken from the status URL (src/nginx.go:132-162),
    and the name of the remote entity built from them (src/nginx.go:86-97). The URL arrives
    already parsed; `url.Parse` is not part of this model. */
module StatusUrl {
  import opened Common

  /** What the collector reads from a parsed URL: `Scheme`, `Hostname()` and `Port()`. The
      last two are "" when the URL has no host or no explicit port. */
  datatype Url = Url(scheme: string, hostname: string, port: string)

  datatype Endpoint = Endpoint(hostname: string, port: string)

  /** A remote entity: its name and its namespace. */
  datatype Entity = Entity(name: string, namespace: string)

  const HttpsProtocol: string := "https"
  const HttpProtocol: string := "http"
  const HttpsDefaultPort: string := "443"
  const HttpDefaultPort: string := "80"
  const EntityRemoteType: string := "server"

  /** `isHTTP`. */
  predicate IsHTTP(u: Url)
  {
    u.scheme == HttpProtocol || u.scheme == HttpsProtocol
  }

  /** `parseStatusURL` on the outcome of `url.Parse`: a parse error is passed on; then the
      scheme must be HTTP(S) and the host non-empty; a missing port defaults by scheme. */
  function ParseStatusURL(parsed: Result<Url>): (r: Result<Endpoint>)
    ensures r.Ok? <==> parsed.Ok? && IsHTTP(parsed.value) && parsed.value.hostname != ""
    ensures parsed.Err? ==> r == Err(parsed.error)
    ensures parsed.Ok? && !IsHTTP(parsed.value) ==> r == Err("unsupported protocol scheme")
    ensures parsed.Ok? && IsHTTP(parsed.value) && parsed.value.hostname == "" ==>
      r == Err("http: no Host in request URL")
    ensures r.Ok? ==> r.value.hostname == parsed.value.hostname && r.value.port != ""
  {
    match parsed
    case Err(e) => Err(e)
    case Ok(u) =>
      if !IsHTTP(u) then Err("unsupported protocol scheme")
      else if u.hostname == "" then Err("http: no Host in request URL")
      else if u.port != "" then Ok(Endpoint(u.hostname, u.port))
      else if u.scheme == HttpsProtocol then Ok(Endpoint(u.hostname, HttpsDefaultPort))
      else Ok(Endpoint(u.hostname, HttpDefaultPort))
  }

  /** The reported port is the URL's own port when it has one, and otherwise 443 for https
      and 80 for http. */
  lemma PortChoice(u: Url)
    requires IsHTTP(u) && u.hostname != ""
    ensures u.port != "" ==> ParseStatusURL(Ok(u)).value.port == u.port
    ensures u.port == "" && u.scheme == "https" ==> ParseStatusURL(Ok(u)).value.port == "443"
    ensures u.port == "" && u.scheme == "http" ==> ParseStatusURL(Ok(u)).value.port == "80"
  {
  }

  /** `entity` under remote monitoring: the entity is named `hostname:port` in the `server`
      namespace; a failure to parse the status URL is passed on. */
  function RemoteEntity(parsed: Result<Url>): (r: Result<Entity>)
    ensures r.Err? <==> ParseStatusURL(parsed).Err?
    ensures r.Err? ==> r.error == ParseStatusURL(parsed).error
    ensures r.Ok? ==> r.value.namespace == "server"
    ensures r.Ok? ==> r.value.name == ParseStatusURL(parsed).value.hostname + ":" + ParseStatusURL(parsed).value.port
  {
    match ParseStatusURL(parsed)
    case Err(e) => Err(e)
    case Ok(ep) => Ok(Entity(ep.hostname + ":" + ep.port, EntityRemoteType))
  }

  /** The entity name ends with the port, after a colon, so the port can be read back. */
  lemma EntityNameEndsWithPort(parsed: Result<Url>)
    requires RemoteEntity(parsed).Ok?
    ensures var name := RemoteEntity(parsed).value.name;
      var port := ParseStatusURL(parsed).value.port;
      |name| > |port| && name[|name| - |port|..] == port && name[|name| - |port| - 1] == ':'
      && name[..|name| - |port| - 1] == ParseStatusURL(parsed).value.hostname
  {
  }

  /** The unit test's URLs `http://localhost/status`, `https://localhost/status` and
      `https://localhost:1234/status`, as `url.Parse` reads them. */
  lemma LocalhostPorts()
    ensures ParseStatusURL(Ok(Url("http", "localhost", ""))) == Ok(Endpoint("localhost", "80"))
    ensures ParseStatusURL(Ok(Url("https", "localhost", ""))) == Ok(Endpoint("localhost", "443"))
    ensures ParseStatusURL(Ok(Url("https", "localhost", "1234"))) == Ok(Endpoint("localhost", "1234"))
  {
  }

  /** `localhost/status` parses as a bare path, with no scheme and no host. */
  lemma SchemelessRejected()
    ensures ParseStatusURL(Ok(Url("", "", ""))) == Err("unsupported protocol scheme")
  {
  }

  /** The remote entity of `http://test:1234/status`. */
  lemma RemoteEntityName()
    ensures RemoteEntity(Ok(Url("http", "test", "1234"))) == Ok(Entity("test:1234", "server"))
  {
    assert "test" + ":" + "1234" == "test:1234";
  }
}
