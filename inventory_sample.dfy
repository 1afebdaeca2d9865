/** The configuration of the inventory test (src/inventory_test.go:11-58), cut down to
    the lines that produce the four items the test checks, read through the line-level
    reading of `InventoryParser`. */
module InventorySample {
  import opened Text
  import opened InventoryParser

  const Comment := CommentLine(Indent(0, 0), [" This", " is", " a", " comment", " that", " should", " be", " ignored"])
  const Pid := Directive(Indent(0, 0), "pid", 1, ["/run/nginx.pid"])
  const Events := BlockOpen(Indent(1, 0), "events", 1, [])
  const WorkerConnections := Directive(Indent(0, 2), "worker_connections", 1, ["1024"])
  const EventsEnd := BlockClose(Indent(0, 0))
  const Http := BlockOpen(Indent(1, 0), "http", 1, [])
  const Server := BlockOpen(Indent(0, 2), "server", 1, [])
  const ServerName := Directive(Indent(0, 4), "server_name", 2, ["www.example.com"])
  const Location := BlockOpen(Indent(1, 4), "location", 1, ["/status", " "])
  const Allow := Directive(Indent(0, 6), "allow", 1, ["192.168.100.0/24"])
  const LocationEnd := BlockClose(Indent(0, 4))
  const ServerEnd := BlockClose(Indent(0, 2))
  const HttpEnd := BlockClose(Indent(0, 0))

  /** The `events` part: the comment, `pid` and the `events` block. */
  function EventsPart(rest: string): string
  {
    LineThen(Comment, LineThen(Pid, LineThen(Events, LineThen(WorkerConnections, LineThen(EventsEnd, rest)))))
  }

  /** The `location /status` block inside `server`. */
  function LocationPart(rest: string): string
  {
    LineThen(Location, LineThen(Allow, LineThen(LocationEnd, rest)))
  }

  /** The `server` block: `server`, `server_name` and the location block. */
  function ServerPart(rest: string): string
  {
    LineThen(Server, LineThen(ServerName, LocationPart(LineThen(ServerEnd, rest))))
  }

  /** The `http` block around the server block. */
  function HttpPart(rest: string): string
  {
    LineThen(Http, ServerPart(LineThen(HttpEnd, rest)))
  }

  /** The whole excerpt: a leading newline, the comment and then the statements. */
  function SampleText(): string
  {
    EventsPart(HttpPart(""))
  }

  /** The items the four tested lines write. */
  const SampleItems: map<string, string> := map[
    "pid" := "/run/nginx.pid",
    "events/worker_connections" := "1024",
    "http/server/server_name" := "www.example.com",
    "http/server/location::status/allow" := "192.168.100.0/24"]

  /** Whatever the inventory held before, the excerpt is read to its end with every block
      closed, and the only items written are the four that the test checks. */
  lemma SampleConfigItems(items: map<string, string>)
    ensures Parse(SampleText(), items) == Outcome(Finished, items + SampleItems)
  {
    var st := Start(items);
    EventsRead(HttpPart(""), st);
    var mid := st.(lineNo := 6, items := items["pid" := "/run/nginx.pid"]["events/worker_connections" := "1024"]);
    HttpRead("", mid);
    var last := mid.(lineNo := 14, items := mid.items
      ["http/server/server_name" := "www.example.com"]
      ["http/server/location::status/allow" := "192.168.100.0/24"]);
    assert Run("", last) == last;
    SampleItemsWritten(items);
  }

  /** Adding the four items one by one is adding `SampleItems`. */
  lemma SampleItemsWritten(items: map<string, string>)
    ensures items["pid" := "/run/nginx.pid"]["events/worker_connections" := "1024"]
      ["http/server/server_name" := "www.example.com"]
      ["http/server/location::status/allow" := "192.168.100.0/24"] == items + SampleItems
  { }

  lemma EventsRead(rest: string, st: Scanner)
    requires st.mode == Dispatching && st.cmd == "" && st.value == "" && st.prefix == []
    ensures Run(EventsPart(rest), st) == Run(rest, st.(lineNo := st.lineNo + 5, items := st.items
      ["pid" := "/run/nginx.pid"]["events/worker_connections" := "1024"]))
  {
    var t2 := LineThen(Events, LineThen(WorkerConnections, LineThen(EventsEnd, rest)));
    CommentRead(LineThen(Pid, t2), st);
    var s1 := st.(lineNo := st.lineNo + 1);
    PidRead(t2, s1);
    EventsBlockRead(rest, s1.(lineNo := s1.lineNo + 1, items := s1.items["pid" := "/run/nginx.pid"]));
  }

  lemma EventsBlockRead(rest: string, st: Scanner)
    requires st.mode == Dispatching && st.cmd == "" && st.value == "" && st.prefix == []
    ensures Run(LineThen(Events, LineThen(WorkerConnections, LineThen(EventsEnd, rest))), st)
         == Run(rest, st.(lineNo := st.lineNo + 3, items := st.items["events/worker_connections" := "1024"]))
  {
    var t4 := LineThen(EventsEnd, rest);
    EventsTokens();
    BlockOpenRead(Indent(1, 0), "events", LineThen(WorkerConnections, t4), st);
    var s3 := st.(lineNo := st.lineNo + 1, prefix := ["events"]);
    assert st.(lineNo := st.lineNo + 1, prefix := st.prefix + ["events"]) == s3;
    WorkerConnectionsRead(t4, s3);
    var s4 := s3.(lineNo := s3.lineNo + 1, items := s3.items["events/worker_connections" := "1024"]);
    BlockCloseRead(Indent(0, 0), rest, s4);
    assert s4.(lineNo := s4.lineNo + 1, prefix := s4.prefix[..|s4.prefix| - 1])
        == st.(lineNo := st.lineNo + 3, items := st.items["events/worker_connections" := "1024"]);
  }

  lemma HttpRead(rest: string, st: Scanner)
    requires st.mode == Dispatching && st.cmd == "" && st.value == "" && st.prefix == []
    ensures Run(HttpPart(rest), st) == Run(rest, st.(lineNo := st.lineNo + 8, items := st.items
      ["http/server/server_name" := "www.example.com"]
      ["http/server/location::status/allow" := "192.168.100.0/24"]))
  {
    var t5 := LineThen(HttpEnd, rest);
    HttpTokens();
    BlockOpenRead(Indent(1, 0), "http", ServerPart(t5), st);
    var s1 := st.(lineNo := st.lineNo + 1, prefix := ["http"]);
    assert st.(lineNo := st.lineNo + 1, prefix := st.prefix + ["http"]) == s1;
    ServerRead(t5, s1);
    var s5 := s1.(lineNo := s1.lineNo + 6, items := s1.items
      ["http/server/server_name" := "www.example.com"]
      ["http/server/location::status/allow" := "192.168.100.0/24"]);
    BlockCloseRead(Indent(0, 0), rest, s5);
    assert s5.(lineNo := s5.lineNo + 1, prefix := s5.prefix[..|s5.prefix| - 1])
        == st.(lineNo := st.lineNo + 8, items := st.items
             ["http/server/server_name" := "www.example.com"]
             ["http/server/location::status/allow" := "192.168.100.0/24"]);
  }

  lemma ServerRead(rest: string, st: Scanner)
    requires st.mode == Dispatching && st.cmd == "" && st.value == "" && st.prefix == ["http"]
    ensures Run(ServerPart(rest), st) == Run(rest, st.(lineNo := st.lineNo + 6, items := st.items
      ["http/server/server_name" := "www.example.com"]
      ["http/server/location::status/allow" := "192.168.100.0/24"]))
  {
    var t4 := LineThen(ServerEnd, rest);
    var t3 := LocationPart(t4);
    HttpTokens();
    BlockOpenRead(Indent(0, 2), "server", LineThen(ServerName, t3), st);
    var s2 := st.(lineNo := st.lineNo + 1, prefix := ["http", "server"]);
    assert st.(lineNo := st.lineNo + 1, prefix := st.prefix + ["server"]) == s2;
    ServerNameRead(t3, s2);
    var s3 := s2.(lineNo := s2.lineNo + 1, items := s2.items["http/server/server_name" := "www.example.com"]);
    LocationRead(t4, s3);
    var s4 := s3.(lineNo := s3.lineNo + 3, items := s3.items["http/server/location::status/allow" := "192.168.100.0/24"]);
    BlockCloseRead(Indent(0, 2), rest, s4);
    assert s4.(lineNo := s4.lineNo + 1, prefix := s4.prefix[..|s4.prefix| - 1])
        == st.(lineNo := st.lineNo + 6, items := st.items
             ["http/server/server_name" := "www.example.com"]
             ["http/server/location::status/allow" := "192.168.100.0/24"]);
  }

  lemma CommentRead(rest: string, st: Scanner)
    requires st.mode == Dispatching
    ensures Run(LineThen(Comment, rest), st) == Run(rest, st.(lineNo := st.lineNo + 1))
  {
    CommentFits(st);
    assert Apply(Comment, st) == st.(lineNo := st.lineNo + 1);
    RunLine(Comment, rest, st);
  }

  /** A `cmd {` line without a value, read with empty buffers, opens the block `cmd`. */
  lemma BlockOpenRead(ind: Indent, cmd: string, rest: string, st: Scanner)
    requires cmd != [] && AllPlain(cmd) && st.mode == Dispatching && st.cmd == "" && st.value == ""
    ensures Run(LineThen(BlockOpen(ind, cmd, 1, []), rest), st)
         == Run(rest, st.(lineNo := st.lineNo + 1, prefix := st.prefix + [cmd]))
  {
    assert Segment(cmd, Flat([])) == cmd;
    assert Apply(BlockOpen(ind, cmd, 1, []), st) == st.(lineNo := st.lineNo + 1, prefix := st.prefix + [cmd]);
    RunLine(BlockOpen(ind, cmd, 1, []), rest, st);
  }

  /** A `}` line inside a block closes it. */
  lemma BlockCloseRead(ind: Indent, rest: string, st: Scanner)
    requires st.mode == Dispatching && st.prefix != []
    ensures Run(LineThen(BlockClose(ind), rest), st)
         == Run(rest, st.(lineNo := st.lineNo + 1, prefix := st.prefix[..|st.prefix| - 1]))
  {
    assert Apply(BlockClose(ind), st) == st.(lineNo := st.lineNo + 1, prefix := st.prefix[..|st.prefix| - 1]);
    RunLine(BlockClose(ind), rest, st);
  }

  lemma PidRead(rest: string, st: Scanner)
    requires st.mode == Dispatching && st.cmd == "" && st.value == "" && st.prefix == []
    ensures Run(LineThen(Pid, rest), st) == Run(rest, st.(lineNo := st.lineNo + 1, items := st.items["pid" := "/run/nginx.pid"]))
  {
    assert Fits(Pid, st) && Apply(Pid, st) == st.(lineNo := st.lineNo + 1, items := st.items["pid" := "/run/nginx.pid"]) by {
      EventsTokens();
      assert ItemKey([], "pid") == "pid";
      assert Flat(["/run/nginx.pid"]) == "/run/nginx.pid";
    }
    RunLine(Pid, rest, st);
  }

  lemma WorkerConnectionsRead(rest: string, st: Scanner)
    requires st.mode == Dispatching && st.cmd == "" && st.value == "" && st.prefix == ["events"]
    ensures Run(LineThen(WorkerConnections, rest), st)
         == Run(rest, st.(lineNo := st.lineNo + 1, items := st.items["events/worker_connections" := "1024"]))
  {
    assert Fits(WorkerConnections, st)
        && Apply(WorkerConnections, st) == st.(lineNo := st.lineNo + 1, items := st.items["events/worker_connections" := "1024"]) by {
      EventsTokens();
      EventsKey();
      assert Flat(["1024"]) == "1024";
    }
    RunLine(WorkerConnections, rest, st);
  }

  lemma ServerNameRead(rest: string, st: Scanner)
    requires st.mode == Dispatching && st.cmd == "" && st.value == "" && st.prefix == ["http", "server"]
    ensures Run(LineThen(ServerName, rest), st)
         == Run(rest, st.(lineNo := st.lineNo + 1, items := st.items["http/server/server_name" := "www.example.com"]))
  {
    assert Fits(ServerName, st)
        && Apply(ServerName, st) == st.(lineNo := st.lineNo + 1, items := st.items["http/server/server_name" := "www.example.com"]) by {
      HttpTokens();
      ServerNameKey();
      assert Flat(["www.example.com"]) == "www.example.com";
    }
    RunLine(ServerName, rest, st);
  }

  lemma LocationRead(rest: string, st: Scanner)
    requires st.mode == Dispatching && st.cmd == "" && st.value == "" && st.prefix == ["http", "server"]
    ensures Run(LocationPart(rest), st)
         == Run(rest, st.(lineNo := st.lineNo + 3, items := st.items["http/server/location::status/allow" := "192.168.100.0/24"]))
  {
    LocationTokens();
    assert "/status" == "/" + "status";
    PathBlockRead("location", "status", " ", "allow", "192.168.100.0/24", rest, st);
    AllowKey("location", "status");
  }

  /** A block opened on a path `/p` holding one directive, as in `location /status { allow ...; }`,
      writes that directive under the segment `cmd::p`. */
  lemma PathBlockRead(cmd: string, p: string, g: string, key: string, val: string, rest: string, st: Scanner)
    requires st.mode == Dispatching && st.cmd == "" && st.value == ""
    requires cmd != [] && AllPlain(cmd) && p != [] && AllPlain(p) && '/' !in p && g != [] && AllGap(g)
    requires key != [] && AllPlain(key) && val != [] && AllPlain(val)
    ensures Run(LineThen(BlockOpen(Indent(1, 4), cmd, 1, ["/" + p, g]),
              LineThen(Directive(Indent(0, 6), key, 1, [val]), LineThen(BlockClose(Indent(0, 4)), rest))), st)
         == Run(rest, st.(lineNo := st.lineNo + 3, items := st.items[ItemKey(st.prefix + [cmd + "::" + p], key) := val]))
  {
    var inner := LineThen(Directive(Indent(0, 6), key, 1, [val]), LineThen(BlockClose(Indent(0, 4)), rest));
    PathOpenRead(cmd, p, g, inner, st);
    var s1 := st.(lineNo := st.lineNo + 1, prefix := st.prefix + [cmd + "::" + p]);
    ItemThenCloseRead(key, val, rest, s1);
    assert (st.prefix + [cmd + "::" + p])[..|st.prefix|] == st.prefix;
  }

  lemma PathOpenRead(cmd: string, p: string, g: string, rest: string, st: Scanner)
    requires st.mode == Dispatching && st.cmd == "" && st.value == ""
    requires cmd != [] && AllPlain(cmd) && p != [] && AllPlain(p) && '/' !in p && g != [] && AllGap(g)
    ensures Run(LineThen(BlockOpen(Indent(1, 4), cmd, 1, ["/" + p, g]), rest), st)
         == Run(rest, st.(lineNo := st.lineNo + 1, prefix := st.prefix + [cmd + "::" + p]))
  {
    var open := BlockOpen(Indent(1, 4), cmd, 1, ["/" + p, g]);
    PathOpenFits(cmd, p, g, st);
    PathOpenApply(cmd, p, g, st);
    RunLine(open, rest, st);
  }

  lemma PathOpenFits(cmd: string, p: string, g: string, st: Scanner)
    requires st.mode == Dispatching && st.cmd == "" && st.value == ""
    requires cmd != [] && AllPlain(cmd) && p != [] && AllPlain(p) && g != [] && AllGap(g)
    ensures Fits(BlockOpen(Indent(1, 4), cmd, 1, ["/" + p, g]), st)
  {
    assert IsPlain(("/" + p)[0]);
    assert AllInline("/" + p) by {
      assert forall i :: 1 <= i < |"/" + p| ==> ("/" + p)[i] == p[i - 1];
    }
    assert AllInline(g);
  }

  lemma PathOpenApply(cmd: string, p: string, g: string, st: Scanner)
    requires p != [] && AllPlain(p) && '/' !in p && AllGap(g)
    ensures Apply(BlockOpen(Indent(1, 4), cmd, 1, ["/" + p, g]), st)
         == st.(lineNo := st.lineNo + 1, prefix := st.prefix + [cmd + "::" + p])
  {
    FlatPair("/" + p, g);
    assert IsPlain(p[|p| - 1]);
    PathSegment(cmd, p, g);
  }

  lemma FlatPair(a: string, b: string)
    ensures Flat([a, b]) == a + b
  {
    assert [a, b][1..] == [b];
    assert Flat([b]) == b;
  }

  lemma ItemThenCloseRead(key: string, val: string, rest: string, st: Scanner)
    requires st.mode == Dispatching && st.cmd == "" && st.value == "" && st.prefix != []
    requires key != [] && AllPlain(key) && val != [] && AllPlain(val)
    ensures Run(LineThen(Directive(Indent(0, 6), key, 1, [val]), LineThen(BlockClose(Indent(0, 4)), rest)), st)
         == Run(rest, st.(lineNo := st.lineNo + 2, prefix := st.prefix[..|st.prefix| - 1],
                          items := st.items[ItemKey(st.prefix, key) := val]))
  {
    var item := Directive(Indent(0, 6), key, 1, [val]);
    assert IsPlain(val[0]) && AllInline(val);
    RunLine(item, LineThen(BlockClose(Indent(0, 4)), rest), st);
    assert Flat([val]) == val;
    var s1 := st.(lineNo := st.lineNo + 1, items := st.items[ItemKey(st.prefix, key) := val]);
    assert Apply(item, st) == s1;
    RunLine(BlockClose(Indent(0, 4)), rest, s1);
  }

  /** Every piece of the comment is free of newlines. */
  lemma CommentFits(st: Scanner)
    requires st.mode == Dispatching
    ensures Fits(Comment, st)
  { }

  lemma EventsTokens()
    ensures AllPlain("pid") && IsValue(["/run/nginx.pid"])
    ensures AllPlain("events") && AllPlain("worker_connections") && IsValue(["1024"])
  { }

  lemma HttpTokens()
    ensures AllPlain("http") && AllPlain("server")
    ensures AllPlain("server_name") && IsValue(["www.example.com"])
  { }

  lemma LocationTokens()
    ensures AllPlain("location") && AllPlain("status") && '/' !in "status" && AllGap(" ")
    ensures AllPlain("allow") && AllPlain("192.168.100.0/24")
  { }

  lemma EventsKey()
    ensures ItemKey(["events"], "worker_connections") == "events/worker_connections"
  {
    assert ["events"] + ["worker_connections"] == ["events", "worker_connections"];
    assert "events" + "/" + "worker_connections" == "events/worker_connections";
  }

  lemma JoinThree(a: string, b: string, c: string, sep: string)
    ensures Join([a, b, c], sep) == a + sep + b + sep + c
  {
    assert [a, b, c][..2] == [a, b];
    assert [a, b][..1] == [a];
    assert Join([a, b], sep) == a + sep + b;
  }

  lemma ServerNameKey()
    ensures ItemKey(["http", "server"], "server_name") == "http/server/server_name"
  {
    assert ["http", "server"][..1] == ["http"];
    assert "http" + "/" + "server" + "/" + "server_name" == "http/server/server_name";
  }

  lemma AllowKey(cmd: string, p: string)
    requires cmd == "location" && p == "status"
    ensures ItemKey(["http", "server"] + [cmd + "::" + p], "allow") == "http/server/location::status/allow"
  {
    assert ["http", "server"] + [cmd + "::" + p] == ["http", "server", cmd + "::" + p];
    JoinThree("http", "server", cmd + "::" + p, "/");
    AllowKeyText("http", "/", "server", "/", cmd + "::" + p, "/", "allow");
  }

  lemma AllowKeyText(a: string, b: string, c: string, d: string, e: string, f: string, h: string)
    requires a == "http" && b == "/" && c == "server" && d == "/" && e == "location" + "::" + "status" && f == "/" && h == "allow"
    ensures a + b + c + d + e + f + h == "http/server/location::status/allow"
  {
    assert a + b + c + d + e + f + h == (a + b + c + d) + (e + f + h);
    ServerPrefixText();
    LocationAllowText();
    AllowJoinText();
  }

  lemma ServerPrefixText()
    ensures "http" + "/" + "server" + "/" == "http/server/"
  { }

  lemma LocationAllowText()
    ensures "location" + "::" + "status" + "/" + "allow" == "location::status/allow"
  { }

  lemma AllowJoinText()
    ensures "http/server/" + "location::status/allow" == "http/server/location::status/allow"
  { }
}
