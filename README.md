# nri-nginx core, modelled in Dafny

This project models the text-to-data core of the New Relic NGINX integration, a collector
that reads an NGINX installation two ways:

- **Inventory.** `populateInventory` reads the NGINX configuration file one rune at a time.
  It keeps a command buffer, a value buffer, a stack of open `{ }` blocks and a line counter.
  It writes one inventory item per `command value;` statement, keyed by the slash-joined path
  of open blocks. An unbalanced `}` is the only error it reports. Reaching the end of the
  input always succeeds, even with blocks still open.
- **Metrics.** The status page of the server comes in three formats:
  - the stub status text page, read by `getStandardMetrics` with four line patterns;
  - the fixed-JSON status page, projected by `getPlusMetrics` onto four roots;
  - the HTTP API, whose flattened keys are prefixed by `pathToPrefix` and named by
    `getAttributeType`.

  The raw bag from either page is mapped to the output metric set by `populateMetrics`.
  It uses the definition tables, where a metric comes from a bag key or from the derived
  `connectionsDropped`.
- **Status URL.** `parseStatusURL` and `isHTTP` take the host and port from the status URL.
  The remote entity is named `host:port` from them.

Files and modules:

| file | module | models |
|---|---|---|
| common.dfy | `Common` | `Option`, `Result`, decoded JSON values, the raw metrics bag |
| text.dfy | `Text` | the pieces of Go's `strings`/`strconv` the core uses |
| inventory.dfy | `InventoryParser` | `populateInventory`: a rune-level specification, the imperative loop proved against it, and the per-rune and per-line properties |
| inventory_sample.dfy | `InventorySample` | the test configuration, read line by line |
| definitions.dfy | `Definitions` | the three definition tables and `connectionsDropped` |
| stub_status.dfy | `StubStatus`, `StubStatusFacts` | `getStandardMetrics` with hand-written matchers for the three line patterns, and its properties |
| stub_status_patterns.dfy | `StubStatusPatterns` | what the status line matcher means: matches, greedy matches, leftmost search |
| stub_status_page.dfy | `StubStatusPage` | well-formed, shifted and sample stub status pages |
| plus_status.dfy | `PlusStatus` | `getPlusMetrics` after decoding |
| plus_sample.dfy | `PlusSample` | the fixed-JSON sample page of the unit test |
| metric_mapper.dfy | `MetricMapper` | the SDK metric set, and `populateMetrics` |
| api_status.dfy | `ApiStatus` | `pathToPrefix`, `getAttributeType`, and `getHTTPAPIMetrics` after decoding and flattening |
| status_url.dfy | `StatusUrl` | `parseStatusURL`, `isHTTP`, and the remote entity name |
| orchestrator.dfy | `Orchestrator` | the format choice and the stub/fixed-JSON branches of `getMetricsData` and `getDiscoveredMetricsData` after the fetch |

The configuration parser is stated twice:
- `Run`/`Parse` give the rune-by-rune meaning as a function.
- `PopulateInventory` is the Go loop, with its inner newline and comment loops. It writes
  into an `Inventory` object, and its `ensures` ties the final items and the returned error
  to `Parse`.

Likewise, `GetStandardMetrics`, `GetPlusMetrics`, `PopulateMetrics` and `GetHTTPAPIMetrics`
are loops. Each is proved against a specification function, and the lemmas are stated
about that function.

Where the system's specification and the code disagree, the model follows the code:
- A statement's value keeps the runs of whitespace between its tokens. It is not trimmed,
  and it is not re-joined with single spaces.
- The line counter goes up once per run of newlines, not once per newline. The newline that
  ends a `#` comment is not counted.
- The unbalanced-`}` error reads "Error parsing config file in Line N".

## Model

| member | source | states |
|---|---|---|
| InventoryParser.PopulateInventory | src/inventory.go:12-81 | the items the loop leaves in the inventory, and the error it returns, are those of the rune-level reading `Parse`; under its precondition the call always returns |
| InventoryParser.Inventory.SetItem | src/inventory.go:50 | a write stores the value under its key; the last write for a key wins |
| InventoryParser.SkipBlanks | src/inventory.go:57-61 | the newline loop stops at the first rune that is not a newline, space or tab, or at end of input |
| InventoryParser.SkipComment | src/inventory.go:62-66 | the comment loop consumes every rune up to and including the next newline |
| InventoryParser.ParseOutcomes | src/inventory.go:19-46 | the call fails exactly when, with comments removed, a `}` closes a block never opened; it never returns exactly when a `#` comment is open at end of input; otherwise it succeeds, and the open-block stack is as deep as opened minus closed blocks |
| InventoryParser.FailsIffUnderflow | src/inventory.go:29-46 | from any live state, the `}` error occurs iff the braces outside comments underflow the stack; otherwise the stack grows by their balance |
| InventoryParser.EndsInCommentIff | src/inventory.go:62-66 | reading ends inside a comment exactly when some `#` has no newline after it |
| InventoryParser.LineNumberBounds | src/inventory.go:55-61 | the line counter never decreases, and it rises by at most one per newline |
| InventoryParser.ReportedLineBound | src/inventory.go:40-45 | the line an unbalanced `}` reports is between 1 and one more than the number of newlines |
| InventoryParser.CloseWithoutBlockFails | src/inventory.go:40-45 | `}` with no open block ends the call with that line's error and the items written so far |
| InventoryParser.ClosePops | src/inventory.go:40-46 | `}` with a block open pops exactly one segment; the buffers and the items are unchanged |
| InventoryParser.OpenPushes | src/inventory.go:30-39 | `{` pushes exactly one segment and clears both buffers |
| InventoryParser.SegmentShape | src/inventory.go:32-37 | the pushed segment is the command when no value was read; otherwise it is the command, `:`, and the slice of the value, with `/` made `:`, that leaves only spaces and tabs on either side and has none at its own ends |
| InventoryParser.PathSegment | src/inventory.go:33-34 | a block opened on `/p` followed by spaces is the segment `cmd::p` |
| InventoryParser.ItemKey | src/inventory.go:49-50 | the key a `;` writes is the slash-join of the open segments followed by the command |
| InventoryParser.SemicolonWrites | src/inventory.go:47-54 | `;` writes the value under the joined key, keeps the stack and clears both buffers |
| InventoryParser.GapsIgnoredWhileEmpty | src/inventory.go:67-70 | spaces and tabs read while the value is empty change nothing |
| InventoryParser.GapEndsCommand | src/inventory.go:71-73 | the first space or tab after the first token makes that token the command |
| InventoryParser.GapKeptInValue | src/inventory.go:74-76 | later spaces and tabs are appended to the value |
| InventoryParser.PlainAppended | src/inventory.go:77-78 | every other rune is appended to the value |
| InventoryParser.InlineAppended | src/inventory.go:67-78 | once a command and a value are read, runs of spaces and tabs stay inside the value |
| InventoryParser.NewlineRun | src/inventory.go:55-61 | a newline and the blanks after it leave the buffers, stack and items alone and count exactly one line |
| InventoryParser.CommentSkipped | src/inventory.go:62-66 | a `#` comment up to and including its newline changes nothing; that newline counts no line |
| InventoryParser.RunLine | src/inventory.go:19-80 | reading one configuration line (comment, statement, continued statement, block open, block close) has the effect the line-level reading `Apply` gives it |
| InventorySample.SampleConfigItems | src/inventory_test.go:62-83 | the test configuration excerpt is read to its end and writes `pid`, `events/worker_connections`, `http/server/server_name` and `http/server/location::status/allow` with the tested values |
| Definitions.ConnectionsDropped | src/metrics.go:70-78 | dropped is accepted minus handled and reported only when both are integers; otherwise it is (0, false) |
| Definitions.PlusTablesAgree | src/metrics.go:34-60 | the fixed-JSON table and the HTTP API table name and type every shared key alike |
| StubStatus.ReadString | src/metrics.go:87-91 | a read returns the text up to and including the first newline, or all that is left with EOF |
| StubStatus.MatchAt | src/metrics.go:63-68 | a match captures digit strings under exactly the pattern's group names, in order |
| StubStatus.Find | src/metrics.go:97 | the leftmost match captures digit strings under the pattern's group names |
| StubStatusPatterns.MatchAtIsGreedy | src/metrics.go:63-68 | what the matcher returns at a position is a match in which every `\s*`, `\s+` and `\d+` takes the whole run that follows, and every such greedy match is what it returns |
| StubStatusPatterns.GreedyUnique | src/metrics.go:63-68 | there is at most one greedy match at a position |
| StubStatusPatterns.GreedyIsMatch | src/metrics.go:63-68 | a greedy match is a match of the pattern |
| StubStatusPatterns.MatchComplete | src/metrics.go:63-68 | for a pattern whose runs are each followed by a token that cannot continue them, the matcher succeeds wherever any split of the text matches the pattern |
| StubStatusPatterns.MatchAtMeaning | src/metrics.go:63-68 | for such a pattern, the matcher succeeds at a position exactly when the pattern matches there |
| StubStatusPatterns.FindLeftmost | src/metrics.go:97 | the search reports nothing exactly when the matcher fails at every position; otherwise it reports the match at the leftmost position where the matcher succeeds |
| StubStatusPatterns.FindMeaning | src/metrics.go:97 | for such a pattern, the search reports nothing exactly when the pattern matches at no position; otherwise it reports the greedy match at a position before which the pattern matches nowhere |
| StubStatusPatterns.ActiveSeparated | src/metrics.go:64 | the `Active connections:` pattern has that separation property |
| StubStatusPatterns.ServerSeparated | src/metrics.go:66 | the accepts/handled/requests pattern has it |
| StubStatusPatterns.ConnectionsSeparated | src/metrics.go:67 | the `Reading:`/`Writing:`/`Waiting:` pattern has it |
| StubStatusPatterns.StatusLineMatch | src/metrics.go:63-98 | each status line fails exactly when its pattern matches nowhere in it, and is otherwise read with the greedy match at the leftmost position where the pattern matches |
| StubStatus.StoreCaptures | src/metrics.go:102-111 | the capture loop stores each capture that converts under its name and skips the others |
| StubStatus.GetStandardMetrics | src/metrics.go:84-117 | the loop returns what the specification `StandardMetrics` of the page gives |
| StubStatusFacts.FailsAtFirstMismatch | src/metrics.go:93-100 | reading fails exactly when a complete line among the first four fails its pattern, and it names the first such line, counting from 0 |
| StubStatusFacts.StoreKeys | src/metrics.go:102-111 | storing captures keeps every earlier key, writes only under capture names, and writes integers |
| StubStatusFacts.StandardKeys | src/metrics.go:84-117 | a successful read holds integers under the seven group names only; `version` = "" and `edition` = "open source" appear exactly when four complete lines were read |
| StubStatusPage.StandardPageMetrics | src/metrics.go:84-117 | a well-formed four-line page gives exactly the seven numbers it shows, the empty version and the "open source" edition |
| StubStatusPage.SecondLineIgnored | src/metrics.go:93-95 | the second line never affects the result |
| StubStatusPage.ShiftedPageFails | src/metrics_test.go:122-131 | a page whose third line holds no digit fails with the error for line 2 |
| StubStatusPage.ThirdLineMessage | src/metrics_test.go:176-179 | that error reads "Line 2 of status doesn't match" |
| StubStatusPage.SamplePage | src/metrics_test.go:91-120 | the sample stub page gives exactly the nine tested entries |
| PlusStatus.PlusMetrics | src/metrics.go:127-131 | a decoding error is returned unchanged, with no bag |
| PlusStatus.AddChildren | src/metrics.go:141-143 | the child loop adds every child of a root under `root.child` |
| PlusStatus.GetPlusMetrics | src/metrics.go:123-148 | the loop over the four roots returns what the specification `PlusMetrics` gives |
| PlusStatus.PlusMetricsKeys | src/metrics.go:133-147 | the output names are `version`, `edition`, and `root.child` for every child of an object-valued root in {connections, requests, ssl, processes}, and nothing else |
| PlusStatus.PlusMetricsValues | src/metrics.go:142-146 | `version` is the page's `nginx_version`, `edition` is "plus", and each other name holds the number of its child |
| PlusStatus.PlusChildStored | src/metrics.go:135-144 | every child of an object-valued root is stored under `root.child` with its value |
| PlusStatus.OtherKeysIgnored | src/metrics.go:133-140 | a top-level key other than the four roots and `nginx_version` does not affect the result |
| PlusSample.SampleProjection | src/metrics_test.go:48-78 | the sample page gives exactly the eight tested metrics |
| MetricMapper.MetricSet.SetMetric | src/metrics.go:172-177 | a value the set accepts is stored under its name with its kind; a refused one changes nothing |
| MetricMapper.Resolve | src/metrics.go:155-166 | a key source resolves exactly when the key is in the bag, to its value; a function source resolves exactly when the function reports success, to its number |
| MetricMapper.PopulateMetrics | src/metrics.go:150-180 | every definition is tried; the set gains exactly the metrics whose source resolved and whose value it accepted; the result is always nil |
| MetricMapper.PopulatedOnlyResolved | src/metrics.go:168-177 | a metric name appears only when its source resolved and the set accepted it, with the table's kind |
| MetricMapper.PopulatedComplete | src/metrics.go:151-178 | every definition that resolves and is accepted is written, whatever the other definitions do |
| MetricMapper.UnresolvedIgnored | src/metrics.go:168-171 | adding a definition that does not resolve changes nothing else (no short-circuit) |
| ApiStatus.PathToPrefix | src/metrics.go:270-283 | the prefix is "" exactly when the path has only `/` and `.`; otherwise it has no `/`, ends with `.` and holds a rune other than `.` |
| ApiStatus.PrefixIdempotent | src/metrics.go:270-283 | the prefix of a prefix is the prefix |
| ApiStatus.SegmentsPrefix | src/metrics_test.go:139-146 | a path of plain segments, with or without a leading or trailing slash, gives the segments joined by dots, followed by a dot |
| ApiStatus.PrefixOfBracketedPath | src/metrics_test.go:146 | "/nginx/version/" gives "nginx.version." |
| ApiStatus.PrefixOfBarePath | src/metrics_test.go:139 | "nginx" gives "nginx." |
| ApiStatus.PrefixOfSlashes | src/metrics_test.go:147-151 | "" and "////" give "" |
| ApiStatus.GetAttributeType | src/metrics.go:285-297 | a key of the API table takes the table's name and kind; any other key keeps its name, and is an attribute exactly when its value is a string, a gauge otherwise |
| ApiStatus.AttributeTypeAgreesWithPlus | src/metrics.go:285-288 | a key the fixed-JSON table also reads gets that table's name and kind, whatever its value |
| ApiStatus.GetHTTPAPIMetrics | src/metrics.go:238-266 | a decoding error or an empty object stores nothing; otherwise every flattened key is stored under the path's prefix through `getAttributeType`, then the edition "plus" |
| ApiStatus.StoreFlatLast | src/metrics.go:255-262 | the last flattened key stored under a name decides that name's entry |
| ApiStatus.StoreFlatUntouched | src/metrics.go:255-262 | a name that no flattened key maps to keeps its entry, or stays absent |
| ApiStatus.ConnectionsEndpointActive | src/metrics.go:255-258 | `active` from the `/connections` endpoint becomes the `net.connectionsActive` gauge |
| StatusUrl.ParseStatusURL | src/nginx.go:132-157 | succeeds exactly for an http(s) URL with a host; a parse error is passed on; other schemes fail with "unsupported protocol scheme"; no host fails with "http: no Host in request URL"; the host is kept |
| StatusUrl.PortChoice | src/nginx.go:149-155 | an explicit port is kept; otherwise https gives 443 and http gives 80 |
| StatusUrl.RemoteEntity | src/nginx.go:86-97 | the remote entity is named `hostname:port` in the `server` namespace; URL errors are passed on |
| StatusUrl.EntityNameEndsWithPort | src/nginx.go:92 | the entity name is the host, a colon and the port |
| StatusUrl.LocalhostPorts | src/nginx_test.go:21-35 | the three tested localhost URLs give ports 80, 443 and 1234 |
| StatusUrl.SchemelessRejected | src/nginx_test.go:40-41 | a URL without a scheme fails with "unsupported protocol scheme" |
| StatusUrl.RemoteEntityName | src/nginx_test.go:44-55 | `http://test:1234/status` gives the entity "test:1234" in namespace "server" |
| Orchestrator.Configured | src/metrics.go:183-217 | each of the three module names selects its format; any other value leaves the choice to discovery |
| Orchestrator.Discover | src/metrics.go:339-360 | a non-JSON response is the stub page; a JSON response is the HTTP API exactly when its body holds the marker, and the fixed-JSON page otherwise |
| Orchestrator.Choose | src/metrics.go:182-218 | a configured format wins over discovery |
| Orchestrator.TableOf | src/metrics.go:347-353 | the stub page is mapped with the standard table, the fixed-JSON page with the plus table |
| Orchestrator.ServerVersionOf | src/metrics.go:197-198 | a `Server` header `nginx/v` reports version `v`; a header without `nginx/` is reported unchanged |
| Orchestrator.StubRawMetrics | src/metrics.go:192-198 | the stub bag fails exactly when the page does, with its error; otherwise it is the page's bag with `version` taken from the header |
| Orchestrator.PollStubStatus | src/metrics.go:184-199 | a page error is the poll's error and sets nothing; otherwise the set gains what the standard table maps from the stub bag |
| Orchestrator.PollPlusStatus | src/metrics.go:200-212 | a decoding error is the poll's error and sets nothing; otherwise the set gains what the plus table maps from the projected bag |
| Orchestrator.ShortStubPageHasVersion | src/metrics.go:86-91 | a stub page cut short still gets the header's version but no edition |
| Orchestrator.DroppedMetric | src/metrics.go:27 | the dropped-connections metric is written exactly when accepted and handled are integers and the set accepts their difference, and it then holds that difference as a rate |
| Orchestrator.SampleDropped | src/metrics.go:70-78 | the sample stub page of the tests, read on the stub status path, gives 0 dropped connections, reported as present |

## Left out

- Reading errors other than end of input (src/inventory.go:26): the configuration arrives as
  a sequence of runes, so a read never fails. Decoding bytes into UTF-8 runes is not modelled.
- InventoryParser.PopulateInventory: requires that every `#` is followed by a newline, unless
  an unbalanced `}` comes first (then the source returns its error before the comment). On
  the remaining inputs the source's comment loop reads end of input forever. The
  specification `Parse` reports that case as `NeverReturns`, and `ParseOutcomes` and
  `EndsInCommentIff` characterise it.
- InventorySample.SampleConfigItems: reads a 13-line excerpt of the test configuration. The
  excerpt holds the lines that write the four tested items. It does not read the full
  text (src/inventory_test.go:10-59), so the other items of that text are not stated.
- HTTP: `httpClient`, `getStatus`, status-code checks, reading the response body, and the
  request loop over the API paths in `pollHttpAPIStatusEndpoints` are network I/O. The page,
  its content type and its `Server` header are parameters instead.
- Orchestrator.Discover: the API marker token is a constant defined outside these files, so
  it is a parameter.
- JSON decoding and flattening are library code. The decoded object (or the decoder's error)
  is a parameter. For the HTTP API, the flattened map is a separate parameter, and the model
  does not relate it to the decoded object. The flattening error path is not modelled.
- JSON numbers are integers. The float-to-int conversion of `getPlusMetrics` is not modelled.
- PlusStatus.GetPlusMetrics: requires every child of an object-valued root to be a number. The
  source panics on any other child, and that panic is not modelled.
- `metric.Set.SetMetric`: its coercion and failure rules are SDK code. They are the fixed
  predicate `accepts` of the set.
- Go's regular expression engine: only the three status patterns are matched, by
  hand-written matchers. `StubStatusPatterns` proves what these matchers mean: a pattern
  matches a prefix of the text, every run is taken whole, and the search is leftmost.
  That the match taking every run whole is the one Go's leftmost-first engine prefers among
  the matches at a position is not proved; it follows from its greedy quantifiers.
- Map iteration order: `PopulateMetrics` and `AddChildren` take keys in an unspecified order.
  `GetHTTPAPIMetrics` takes the order of the flattened keys as a parameter.
- Logging, `main`, `createIntegration`, `entity`/`metricSet` SDK calls, the persist cache,
  `fatalIfErr` and `url.Parse` are process wiring. `ParseStatusURL` takes the outcome of
  `url.Parse` (scheme, hostname, port, or its error).
- The integration tests (tests/integration) drive binaries and containers; they are not part
  of this model.
