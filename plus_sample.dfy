/** The fixed-JSON status page of src/metrics_test.go:31-45 and what `getPlusMetrics` makes of
    it (src/metrics_test.go:48-78), with the page's numbers as parameters. */
module PlusSample {
  import opened Common
  import opened PlusStatus

  /** The decoded sample page: a timestamp, two object-valued roots and the version. */
  function SamplePage(timestamp: int, accepted: int, dropped: int, active: int, idle: int,
                      total: int, current: int): Bag
  {
    map[
      "timestamp" := JInt(timestamp),
      "connections" := JObject(map["accepted" := JInt(accepted), "dropped" := JInt(dropped),
                                   "active" := JInt(active), "idle" := JInt(idle)]),
      "requests" := JObject(map["total" := JInt(total), "current" := JInt(current)]),
      "nginx_version" := JString("1.0")
    ]
  }

  /** The eight metrics the sample yields. */
  function SampleMetrics(accepted: int, dropped: int, active: int, idle: int,
                         total: int, current: int): Bag
  {
    map[
      "connections.accepted" := JInt(accepted), "connections.dropped" := JInt(dropped),
      "connections.active" := JInt(active), "connections.idle" := JInt(idle),
      "requests.total" := JInt(total), "requests.current" := JInt(current),
      "version" := JString("1.0"), "edition" := JString("plus")
    ]
  }

  /** What two distinct children of a root contribute. */
  lemma ChildrenOfTwo(root: string, node: map<string, Json>, a: string, b: string)
    requires a in node && b in node && a != b
    ensures Children(root, node, {a, b}) == map[root + "." + a := node[a], root + "." + b := node[b]]
  {
    PrefixInjective(root);
  }

  /** What three distinct children of a root contribute. */
  lemma ChildrenOfThree(root: string, node: map<string, Json>, a: string, b: string, c: string)
    requires a in node && b in node && c in node && a != b && a != c && b != c
    ensures Children(root, node, {a, b, c}) ==
      map[root + "." + a := node[a], root + "." + b := node[b]][root + "." + c := node[c]]
  {
    ChildrenOfTwo(root, node, a, b);
    ChildrenStep(root, node, {a, b}, c);
    assert {a, b} + {c} == {a, b, c};
  }

  /** What four distinct children of a root contribute. */
  lemma ChildrenOfFour(root: string, node: map<string, Json>, a: string, b: string, c: string, d: string)
    requires a in node && b in node && c in node && d in node
    requires a != b && a != c && a != d && b != c && b != d && c != d
    ensures Children(root, node, {a, b, c, d}) ==
      map[root + "." + a := node[a], root + "." + b := node[b]][root + "." + c := node[c]][root + "." + d := node[d]]
  {
    ChildrenOfThree(root, node, a, b, c);
    ChildrenStep(root, node, {a, b, c}, d);
    assert {a, b, c} + {d} == {a, b, c, d};
  }

  /** A page whose first two roots are objects and whose last two are not. */
  lemma CollectedFirstTwo(json: Bag, conn: map<string, Json>, req: map<string, Json>)
    requires Lookup(json, Root(0)) == JObject(conn) && Lookup(json, Root(1)) == JObject(req)
    requires !Lookup(json, Root(2)).JObject? && !Lookup(json, Root(3)).JObject?
    ensures Collected(json, 4) == Children(Root(0), conn, conn.Keys) + Children(Root(1), req, req.Keys)
  {
    CollectedStep(json, 0);
    CollectedStep(json, 1);
    CollectedStep(json, 2);
    CollectedStep(json, 3);
  }

  /** The roots of the sample page. */
  lemma SampleRoots(timestamp: int, accepted: int, dropped: int, active: int, idle: int,
                    total: int, current: int)
    ensures var json := SamplePage(timestamp, accepted, dropped, active, idle, total, current);
      Lookup(json, Root(0)) == JObject(map["accepted" := JInt(accepted), "dropped" := JInt(dropped),
                                           "active" := JInt(active), "idle" := JInt(idle)]) &&
      Lookup(json, Root(1)) == JObject(map["total" := JInt(total), "current" := JInt(current)]) &&
      Lookup(json, Root(2)) == JNull && Lookup(json, Root(3)) == JNull &&
      Lookup(json, "nginx_version") == JString("1.0")
  {
  }

  lemma ConnectionsNames()
    ensures Root(0) + "." + "accepted" == "connections.accepted"
    ensures Root(0) + "." + "dropped" == "connections.dropped"
    ensures Root(0) + "." + "active" == "connections.active"
    ensures Root(0) + "." + "idle" == "connections.idle"
  {
  }

  lemma RequestsNames()
    ensures Root(1) + "." + "total" == "requests.total"
    ensures Root(1) + "." + "current" == "requests.current"
  {
  }

  /** Only numbers under the sample's roots. */
  lemma SampleNumeric(timestamp: int, accepted: int, dropped: int, active: int, idle: int,
                      total: int, current: int)
    ensures NumericRoots(SamplePage(timestamp, accepted, dropped, active, idle, total, current))
  {
    var json := SamplePage(timestamp, accepted, dropped, active, idle, total, current);
    SampleRoots(timestamp, accepted, dropped, active, idle, total, current);
    forall i: nat, child | i < 4 && Lookup(json, Root(i)).JObject? && child in Lookup(json, Root(i)).fields
      ensures Lookup(json, Root(i)).fields[child].JInt?
    {
      assert i == 0 || i == 1;
    }
  }

  /** What the sample's `connections` object contributes. */
  lemma SampleConnections(accepted: int, dropped: int, active: int, idle: int)
    ensures var conn := map["accepted" := JInt(accepted), "dropped" := JInt(dropped),
                            "active" := JInt(active), "idle" := JInt(idle)];
      Children(Root(0), conn, conn.Keys) ==
      map["connections.accepted" := JInt(accepted), "connections.dropped" := JInt(dropped),
          "connections.active" := JInt(active), "connections.idle" := JInt(idle)]
  {
    var conn := map["accepted" := JInt(accepted), "dropped" := JInt(dropped),
                    "active" := JInt(active), "idle" := JInt(idle)];
    assert conn.Keys == {"accepted", "dropped", "active", "idle"};
    ChildrenOfFour(Root(0), conn, "accepted", "dropped", "active", "idle");
    ConnectionsNames();
  }

  /** What the sample's `requests` object contributes. */
  lemma SampleRequests(total: int, current: int)
    ensures var req := map["total" := JInt(total), "current" := JInt(current)];
      Children(Root(1), req, req.Keys) ==
      map["requests.total" := JInt(total), "requests.current" := JInt(current)]
  {
    var req := map["total" := JInt(total), "current" := JInt(current)];
    assert req.Keys == {"total", "current"};
    ChildrenOfTwo(Root(1), req, "total", "current");
    RequestsNames();
  }

  /** The sample's roots contribute the six counters. */
  lemma SampleCollected(timestamp: int, accepted: int, dropped: int, active: int, idle: int,
                        total: int, current: int)
    ensures Collected(SamplePage(timestamp, accepted, dropped, active, idle, total, current), 4) ==
      map["connections.accepted" := JInt(accepted), "connections.dropped" := JInt(dropped),
          "connections.active" := JInt(active), "connections.idle" := JInt(idle),
          "requests.total" := JInt(total), "requests.current" := JInt(current)]
  {
    var json := SamplePage(timestamp, accepted, dropped, active, idle, total, current);
    var conn := map["accepted" := JInt(accepted), "dropped" := JInt(dropped),
                    "active" := JInt(active), "idle" := JInt(idle)];
    var req := map["total" := JInt(total), "current" := JInt(current)];
    SampleRoots(timestamp, accepted, dropped, active, idle, total, current);
    CollectedFirstTwo(json, conn, req);
    SampleConnections(accepted, dropped, active, idle);
    SampleRequests(total, current);
    var c4 := map["connections.accepted" := JInt(accepted), "connections.dropped" := JInt(dropped),
                  "connections.active" := JInt(active), "connections.idle" := JInt(idle)];
    UnionUpdate(c4, map["requests.total" := JInt(total)], "requests.current", JInt(current));
    UnionUpdate(c4, map[], "requests.total", JInt(total));
    UnionEmpty(c4);
  }

  lemma UnionEmpty(m: Bag)
    ensures m + map[] == m
  {
  }

  /** The sample page gives exactly the eight metrics the unit test checks: the four
      connection counters, the two request counters, the version "1.0" and the edition. */
  lemma SampleProjection(timestamp: int, accepted: int, dropped: int, active: int, idle: int,
                         total: int, current: int)
    ensures NumericRoots(SamplePage(timestamp, accepted, dropped, active, idle, total, current))
    ensures PlusMetrics(Ok(SamplePage(timestamp, accepted, dropped, active, idle, total, current))) ==
      Ok(SampleMetrics(accepted, dropped, active, idle, total, current))
  {
    SampleNumeric(timestamp, accepted, dropped, active, idle, total, current);
    SampleRoots(timestamp, accepted, dropped, active, idle, total, current);
    SampleCollected(timestamp, accepted, dropped, active, idle, total, current);
  }
}
