/** The HTTP API status module's key handling (src/metrics.go:238-297): the metric-name prefix
    made from an endpoint path, the name and kind chosen for a flattened key, and the loop that
    stores one endpoint's flattened object into the metric set. */
module ApiStatus {
  import opened Common
  import opened Text
  import opened Definitions
  import opened MetricMapper

  /** Whether the regular expression `[^.]` matches somewhere in `s`. */
  predicate HasNonDot(s: string)
  {
    exists i :: 0 <= i < |s| && s[i] != '.'
  }

  /** Every rune of `s` is a slash or a dot. */
  predicate SlashesAndDots(s: string)
  {
    forall i :: 0 <= i < |s| ==> s[i] == '/' || s[i] == '.'
  }

  /** `pathToPrefix`: drops one leading slash, turns the other slashes into dots, makes sure
      the result ends with a dot, and gives "" when no rune other than a dot is left. */
  function PathToPrefix(path: string): (prefix: string)
    ensures prefix == "" <==> SlashesAndDots(path)
    ensures prefix != "" ==> '/' !in prefix && HasSuffix(prefix, ".") && HasNonDot(prefix)
  {
    var trimmed := TrimPrefix(path, "/");
    var dotted := ReplaceChar(trimmed, '/', '.');
    var ended := if !HasSuffix(dotted, ".") then dotted + "." else dotted;
    var single := if ended == "." then "" else ended;
    PrefixKeepsRunes(path);
    PrefixEnds(dotted);
    if !HasNonDot(single) then "" else single
  }

  /** The runes other than slashes survive the first two steps of `pathToPrefix`, and no slash
      does. */
  lemma PrefixKeepsRunes(path: string)
    ensures var dotted := ReplaceChar(TrimPrefix(path, "/"), '/', '.');
      (HasNonDot(dotted) <==> !SlashesAndDots(path)) && '/' !in dotted
  {
    var trimmed := TrimPrefix(path, "/");
    var dotted := ReplaceChar(trimmed, '/', '.');
    var d := |path| - |trimmed|;
    assert d == 0 || d == 1;
    assert forall i :: 0 <= i < |trimmed| ==> trimmed[i] == path[i + d];
    if !SlashesAndDots(path) {
      var i :| 0 <= i < |path| && path[i] != '/' && path[i] != '.';
      if d == 1 {
        assert path[0] == '/';
        assert dotted[i - 1] != '.';
      } else {
        assert dotted[i] != '.';
      }
    } else {
      forall i | 0 <= i < |dotted|
        ensures dotted[i] == '.'
      {
        assert path[i + d] == '/' || path[i + d] == '.';
      }
    }
  }

  /** The last two steps of `pathToPrefix` keep the runes other than dots and add no slash. */
  lemma PrefixEnds(dotted: string)
    ensures var ended := if !HasSuffix(dotted, ".") then dotted + "." else dotted;
      var single := if ended == "." then "" else ended;
      (HasNonDot(single) <==> HasNonDot(dotted)) && ('/' !in single <==> '/' !in dotted) &&
      (single == "" || HasSuffix(single, "."))
  {
    var ended := if !HasSuffix(dotted, ".") then dotted + "." else dotted;
    assert forall i :: 0 <= i < |dotted| ==> ended[i] == dotted[i];
    assert forall i :: |dotted| <= i < |ended| ==> ended[i] == '.';
    if HasNonDot(dotted) {
      var i :| 0 <= i < |dotted| && dotted[i] != '.';
      assert ended[i] != '.';
    }
    if HasNonDot(ended) {
      var i :| 0 <= i < |ended| && ended[i] != '.';
      assert dotted[i] != '.';
    }
  }

  /** A prefix is its own prefix. */
  lemma PrefixIdempotent(path: string)
    ensures PathToPrefix(PathToPrefix(path)) == PathToPrefix(path)
  {
    var r := PathToPrefix(path);
    if r != "" {
      assert r[0] != '/';
      assert TrimPrefix(r, "/") == r;
      ReplaceAbsent(r, '/', '.');
      var i :| 0 <= i < |r| && r[i] != '.';
      assert r != ".";
    }
  }

  /** Replacing the separator of a join whose parts do not contain it. */
  lemma {:induction false} JoinReplace(parts: seq<string>, from: char, to: char)
    requires forall i :: 0 <= i < |parts| ==> from !in parts[i]
    ensures ReplaceChar(Join(parts, [from]), from, to) == Join(parts, [to])
    decreases |parts|
  {
    if |parts| > 1 {
      var init, last := parts[..|parts| - 1], parts[|parts| - 1];
      JoinReplace(init, from, to);
      ReplaceAppend(Join(init, [from]) + [from], last, from, to);
      ReplaceAppend(Join(init, [from]), [from], from, to);
      ReplaceAbsent(last, from, to);
      assert ReplaceChar([from], from, to) == [to];
    } else if |parts| == 1 {
      ReplaceAbsent(parts[0], from, to);
    }
  }

  /** The first and the last rune of a join of non-empty parts. */
  lemma {:induction false} JoinEnds(parts: seq<string>, sep: string)
    requires |parts| > 0 && forall i :: 0 <= i < |parts| ==> parts[i] != ""
    ensures |Join(parts, sep)| > 0
    ensures Join(parts, sep)[0] == parts[0][0]
    ensures Join(parts, sep)[|Join(parts, sep)| - 1] == parts[|parts| - 1][|parts[|parts| - 1]| - 1]
    decreases |parts|
  {
    if |parts| > 1 {
      JoinEnds(parts[..|parts| - 1], sep);
    }
  }

  /** One leading slash is dropped; a path that does not start with one is kept. */
  lemma TrimLeading(body: string, leading: bool)
    requires body != [] && body[0] != '/'
    ensures TrimPrefix((if leading then "/" else "") + body, "/") == body
  {
    if leading {
      assert ("/" + body)[..1] == "/";
      assert ("/" + body)[1..] == body;
    } else {
      assert !HasPrefix(body, "/") by { assert body[..1][0] != '/'; }
    }
  }

  /** The last two steps of `pathToPrefix` on a dotted path whose first and last runes are
      not dots, with or without one trailing dot. */
  lemma EndsWithDot(dots: string, trailing: bool)
    requires dots != [] && dots[0] != '.' && dots[|dots| - 1] != '.'
    ensures var dotted := dots + (if trailing then "." else "");
      var ended := if !HasSuffix(dotted, ".") then dotted + "." else dotted;
      ended == dots + "." && ended != "." && HasNonDot(ended)
  {
    var dotted := dots + (if trailing then "." else "");
    if !trailing {
      assert dotted == dots;
      assert dotted[|dotted| - 1..] != ".";
    } else {
      assert dotted[|dotted| - 1..] == ".";
    }
    assert (dots + ".")[0] != '.';
  }

  /** A path made of non-empty segments without slashes or dots, with or without a leading
      and a trailing slash, gives its segments joined by dots and ended by a dot. */
  lemma SegmentsPrefix(segments: seq<string>, leading: bool, trailing: bool)
    requires |segments| > 0
    requires forall i :: 0 <= i < |segments| ==>
      segments[i] != "" && '/' !in segments[i] && '.' !in segments[i]
    ensures PathToPrefix((if leading then "/" else "") + Join(segments, "/") + (if trailing then "/" else ""))
      == Join(segments, ".") + "."
  {
    var path := (if leading then "/" else "") + Join(segments, "/") + (if trailing then "/" else "");
    var dots := Join(segments, ".");
    JoinedEnds(segments, ".");
    SegmentsTrimmed(segments, leading, trailing);
    SegmentsDotted(segments, trailing);
    DottedPrefix(path, dots, trailing);
  }

  /** Neither end of a join of non-empty parts without dots or slashes is a slash or a dot. */
  lemma JoinedEnds(segments: seq<string>, sep: string)
    requires |segments| > 0
    requires forall i :: 0 <= i < |segments| ==>
      segments[i] != "" && '/' !in segments[i] && '.' !in segments[i]
    ensures var j := Join(segments, sep);
      j != [] && j[0] != '.' && j[0] != '/' && j[|j| - 1] != '.' && j[|j| - 1] != '/'
  {
    JoinEnds(segments, sep);
    assert segments[0][0] in segments[0];
    var last := segments[|segments| - 1];
    assert last[|last| - 1] in last;
  }

  /** The first step of `pathToPrefix` on such a path drops the leading slash only. */
  lemma SegmentsTrimmed(segments: seq<string>, leading: bool, trailing: bool)
    requires |segments| > 0
    requires forall i :: 0 <= i < |segments| ==>
      segments[i] != "" && '/' !in segments[i] && '.' !in segments[i]
    ensures TrimPrefix((if leading then "/" else "") + Join(segments, "/") + (if trailing then "/" else ""), "/")
      == Join(segments, "/") + (if trailing then "/" else "")
  {
    var joined := Join(segments, "/");
    var tail := if trailing then "/" else "";
    JoinedEnds(segments, "/");
    assert (if leading then "/" else "") + joined + tail == (if leading then "/" else "") + (joined + tail);
    TrimLeading(joined + tail, leading);
  }

  /** The second step of `pathToPrefix` on such a path turns every slash into a dot. */
  lemma SegmentsDotted(segments: seq<string>, trailing: bool)
    requires forall i :: 0 <= i < |segments| ==> '/' !in segments[i]
    ensures ReplaceChar(Join(segments, "/") + (if trailing then "/" else ""), '/', '.')
      == Join(segments, ".") + (if trailing then "." else "")
  {
    var tail := if trailing then "/" else "";
    JoinReplace(segments, '/', '.');
    ReplaceAppend(Join(segments, "/"), tail, '/', '.');
    assert ReplaceChar(tail, '/', '.') == if trailing then "." else "";
  }

  /** `pathToPrefix` of a path whose first two steps give a dotted path with no dot at
      either end, with or without one trailing dot. */
  lemma DottedPrefix(path: string, dots: string, trailing: bool)
    requires dots != [] && dots[0] != '.' && dots[|dots| - 1] != '.'
    requires ReplaceChar(TrimPrefix(path, "/"), '/', '.') == dots + (if trailing then "." else "")
    ensures PathToPrefix(path) == dots + "."
  {
    EndsWithDot(dots, trailing);
  }

  lemma JoinTwo(a: string, b: string, sep: string)
    ensures Join([a, b], sep) == a + sep + b
  {
    assert [a, b][..1] == [a];
  }

  /** The segments of the unit test's paths have no slash and no dot. */
  lemma PlainSegment(s: string)
    requires s == "nginx" || s == "version"
    ensures s != "" && '/' !in s && '.' !in s
  {
  }

  /** A bracketed two-segment path. */
  lemma PrefixOfTwoSegments(n: string, v: string)
    requires n != "" && '/' !in n && '.' !in n && v != "" && '/' !in v && '.' !in v
    ensures PathToPrefix("/" + n + "/" + v + "/") == n + "." + v + "."
  {
    var segments := [n, v];
    JoinTwo(n, v, "/");
    JoinTwo(n, v, ".");
    assert "/" + n + "/" + v + "/" == "/" + Join(segments, "/") + "/";
    SegmentsPrefix(segments, true, true);
  }

  lemma BracketedPathPieces()
    ensures "/nginx/version/" == "/" + "nginx" + "/" + "version" + "/"
    ensures "nginx.version." == "nginx" + "." + "version" + "."
  {
  }

  /** The unit test's bracketed two-segment path. */
  lemma PrefixOfBracketedPath(path: string)
    requires path == "/nginx/version/"
    ensures PathToPrefix(path) == "nginx.version."
  {
    PlainSegment("nginx");
    PlainSegment("version");
    BracketedPathPieces();
    PrefixOfTwoSegments("nginx", "version");
  }

  /** The unit test's bare one-segment path. */
  lemma PrefixOfBarePath(path: string)
    requires path == "nginx"
    ensures PathToPrefix(path) == "nginx."
  {
    assert path == "" + Join([path], "/") + "";
    SegmentsPrefix([path], false, false);
  }

  /** Paths of slashes only give no prefix. */
  lemma PrefixOfSlashes(empty: string, quad: string)
    requires empty == "" && quad == "////"
    ensures PathToPrefix(empty) == "" && PathToPrefix(quad) == ""
  {
    assert SlashesAndDots(quad);
  }

  /** `getAttributeType`: a key of the HTTP API table takes the table's name and kind; any
      other key keeps its name and is an attribute when its value is a string, a gauge
      otherwise. */
  function GetAttributeType(key: string, v: Json): (r: Renaming)
    ensures key in PlusApiDefinition ==> r == PlusApiDefinition[key]
    ensures key !in PlusApiDefinition ==> r.name == key
    ensures key !in PlusApiDefinition ==> (r.kind == ATTRIBUTE <==> v.JString?)
    ensures key !in PlusApiDefinition ==> (r.kind == GAUGE <==> !v.JString?)
  {
    if key in PlusApiDefinition then PlusApiDefinition[key]
    else if v.JString? then Renaming(key, ATTRIBUTE)
    else Renaming(key, GAUGE)
  }

  /** A flattened key that the fixed-JSON table also reads is named and typed as that table
      names and types the metric it feeds, whatever its value. */
  lemma AttributeTypeAgreesWithPlus(name: string, v: Json)
    requires name in PlusDefinition && PlusDefinition[name].source.FromKey?
    requires PlusDefinition[name].source.key in PlusApiDefinition
    ensures GetAttributeType(PlusDefinition[name].source.key, v) == Renaming(name, PlusDefinition[name].kind)
  {
    PlusTablesAgree(name);
  }

  /** The metric set after storing the flattened keys `order`, one after the other, under the
      prefix and through `getAttributeType`. */
  function StoreFlat(metrics: map<string, Sample>, prefix: string, flat: Bag, order: seq<string>,
                     accepts: (string, Json, Kind) -> bool): map<string, Sample>
    requires forall i :: 0 <= i < |order| ==> order[i] in flat
    decreases |order|
  {
    if order == [] then metrics
    else
      var t := GetAttributeType(prefix + order[0], flat[order[0]]);
      StoreFlat(Put(metrics, t.name, flat[order[0]], t.kind, accepts), prefix, flat, order[1..], accepts)
  }

  /** `order` visits every key of `flat` once: the order of a Go `range` over the map. */
  predicate Enumerates(order: seq<string>, flat: Bag)
  {
    (forall i :: 0 <= i < |order| ==> order[i] in flat) &&
    (forall k :: k in flat ==> k in order) &&
    (forall i, j :: 0 <= i < j < |order| ==> order[i] != order[j])
  }

  /** `getHTTPAPIMetrics` after decoding and flattening: nothing happens when decoding failed
      or the object is empty; otherwise every flattened key is stored under the path's prefix
      through `getAttributeType`, in the map's order, and then the edition. */
  method GetHTTPAPIMetrics(path: string, sample: MetricSet, decoded: Result<Bag>, flat: Bag,
                           order: seq<string>)
    requires Enumerates(order, flat)
    modifies sample
    ensures decoded.Err? || decoded.value == map[] ==> sample.metrics == old(sample.metrics)
    ensures decoded.Ok? && decoded.value != map[] ==>
      sample.metrics == Put(StoreFlat(old(sample.metrics), PathToPrefix(path), flat, order, sample.accepts),
                            "software.edition", JString("plus"), ATTRIBUTE, sample.accepts)
  {
    if decoded.Err? || decoded.value == map[] {
      return;
    }
    var prefix := PathToPrefix(path);
    var i := 0;
    while i < |order|
      invariant 0 <= i <= |order|
      invariant StoreFlat(sample.metrics, prefix, flat, order[i..], sample.accepts) ==
        StoreFlat(old(sample.metrics), prefix, flat, order, sample.accepts)
    {
      var k := order[i];
      var t := GetAttributeType(prefix + k, flat[k]);
      assert order[i..][1..] == order[i + 1..];
      var ok := sample.SetMetric(t.name, flat[k], t.kind);
      i := i + 1;
    }
    var ok := sample.SetMetric("software.edition", JString("plus"), ATTRIBUTE);
  }

  /** The name and kind the key at position `i` of `order` is stored under. */
  function OutName(prefix: string, flat: Bag, order: seq<string>, i: nat): Renaming
    requires i < |order| && order[i] in flat
  {
    GetAttributeType(prefix + order[i], flat[order[i]])
  }

  /** A name that no flattened key is stored under keeps its entry, or its absence. */
  lemma {:induction false} StoreFlatUntouched(metrics: map<string, Sample>, prefix: string, flat: Bag,
                                              order: seq<string>, accepts: (string, Json, Kind) -> bool,
                                              name: string)
    requires forall i :: 0 <= i < |order| ==> order[i] in flat
    requires forall i: nat :: i < |order| ==> OutName(prefix, flat, order, i).name != name
    ensures name in StoreFlat(metrics, prefix, flat, order, accepts) <==> name in metrics
    ensures name in metrics ==> StoreFlat(metrics, prefix, flat, order, accepts)[name] == metrics[name]
    decreases |order|
  {
    if order != [] {
      var t := OutName(prefix, flat, order, 0);
      var next := Put(metrics, t.name, flat[order[0]], t.kind, accepts);
      forall i: nat | i < |order[1..]|
        ensures OutName(prefix, flat, order[1..], i).name != name
      {
        assert OutName(prefix, flat, order[1..], i) == OutName(prefix, flat, order, i + 1);
      }
      StoreFlatUntouched(next, prefix, flat, order[1..], accepts, name);
    }
  }

  /** The last flattened key stored under a name decides that name's entry: its value with
      the kind `getAttributeType` chose, when the set accepts it. */
  lemma {:induction false} StoreFlatLast(metrics: map<string, Sample>, prefix: string, flat: Bag,
                                         order: seq<string>, accepts: (string, Json, Kind) -> bool,
                                         i: nat)
    requires forall j :: 0 <= j < |order| ==> order[j] in flat
    requires i < |order|
    requires accepts(OutName(prefix, flat, order, i).name, flat[order[i]], OutName(prefix, flat, order, i).kind)
    requires forall j: nat :: i < j < |order| ==>
      OutName(prefix, flat, order, j).name != OutName(prefix, flat, order, i).name
    ensures var t := OutName(prefix, flat, order, i);
      t.name in StoreFlat(metrics, prefix, flat, order, accepts) &&
      StoreFlat(metrics, prefix, flat, order, accepts)[t.name] == Sample(flat[order[i]], t.kind)
    decreases |order|
  {
    var t := OutName(prefix, flat, order, 0);
    var next := Put(metrics, t.name, flat[order[0]], t.kind, accepts);
    if i == 0 {
      forall j: nat | j < |order[1..]|
        ensures OutName(prefix, flat, order[1..], j).name != t.name
      {
        assert OutName(prefix, flat, order[1..], j) == OutName(prefix, flat, order, j + 1);
      }
      StoreFlatUntouched(next, prefix, flat, order[1..], accepts, t.name);
    } else {
      assert OutName(prefix, flat, order[1..], i - 1) == OutName(prefix, flat, order, i);
      forall j: nat | i - 1 < j < |order[1..]|
        ensures OutName(prefix, flat, order[1..], j).name != OutName(prefix, flat, order, i).name
      {
        assert OutName(prefix, flat, order[1..], j) == OutName(prefix, flat, order, j + 1);
      }
      StoreFlatLast(next, prefix, flat, order[1..], accepts, i - 1);
    }
  }

  /** The `/connections` endpoint's `active` counter becomes the connections gauge. */
  lemma ConnectionsEndpointActive(path: string, key: string, v: Json)
    requires path == "/connections" && key == "active"
    ensures GetAttributeType(PathToPrefix(path) + key, v) == Renaming("net.connectionsActive", GAUGE)
  {
    ConnectionsPrefix(path);
    ConnectionsActiveKey("connections.", key);
  }

  /** An endpoint path of one segment gives that segment and a dot. */
  lemma OneSegmentPrefix(root: string)
    requires root != "" && '/' !in root && '.' !in root
    ensures PathToPrefix("/" + root) == root + "."
  {
    assert Join([root], "/") == root && Join([root], ".") == root;
    assert "/" + root == "/" + Join([root], "/") + "";
    SegmentsPrefix([root], true, false);
  }

  /** The `/connections` path gives the prefix `connections.`. */
  lemma ConnectionsPrefix(path: string)
    requires path == "/connections"
    ensures PathToPrefix(path) == "connections."
  {
    var root := "connections";
    assert '/' !in root && '.' !in root;
    assert path == "/" + root;
    OneSegmentPrefix(root);
  }

  lemma ConnectionsActiveKey(prefix: string, key: string)
    requires prefix == "connections." && key == "active"
    ensures prefix + key == "connections.active"
  {
  }
}
