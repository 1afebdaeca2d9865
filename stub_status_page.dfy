/** Whole stub status pages: how the matcher reads each of the three status lines, the page
    of src/metrics_test.go:19-23 and the page with an extra line of src/metrics_test.go:24-29. */
module StubStatusPage {
  import opened Common
  import opened Text
  import opened StubStatus
  import opened StubStatusFacts

  /** A non-empty run of decimal digits that fits a Go `int`. */
  predicate Number(d: string)
  {
    d != [] && AllDigits(d) && DecimalValue(d) <= MaxInt64
  }

  /** The leading run of spaces of `sp + s` is `sp` when `s` does not start with a space. */
  lemma SpanSpacesOf(sp: string, s: string)
    requires forall i :: 0 <= i < |sp| ==> IsSpace(sp[i])
    requires s == [] || !IsSpace(s[0])
    ensures SpanSpaces(sp + s) == |sp|
  {
    var n := SpanSpaces(sp + s);
    assert forall i :: 0 <= i < |sp| ==> (sp + s)[i] == sp[i];
    assert s != [] ==> (sp + s)[|sp|] == s[0];
  }

  /** The leading run of digits of `d + s` is `d` when `s` does not start with a digit. */
  lemma SpanDigitsOf(d: string, s: string)
    requires AllDigits(d)
    requires s == [] || !IsDigit(s[0])
    ensures SpanDigits(d + s) == |d|
  {
    var n := SpanDigits(d + s);
    assert forall i :: 0 <= i < |d| ==> (d + s)[i] == d[i];
    assert s != [] ==> (d + s)[|d|] == s[0];
  }

  /** A literal token consumes its text. */
  lemma MatchLit(t: string, p: Pattern, s: string)
    ensures MatchAt([Lit(t)] + p, t + s) == MatchAt(p, s)
  {
    var q := [Lit(t)] + p;
    assert q[0] == Lit(t) && q[1..] == p;
    assert (t + s)[..|t|] == t;
    assert (t + s)[|t|..] == s;
  }

  /** A `\s*` or `\s+` token consumes a whole run of spaces. */
  lemma MatchSpaces(one: bool, p: Pattern, sp: string, s: string)
    requires forall i :: 0 <= i < |sp| ==> IsSpace(sp[i])
    requires one ==> sp != []
    requires s == [] || !IsSpace(s[0])
    ensures MatchAt([Spaces(one)] + p, sp + s) == MatchAt(p, s)
  {
    var q := [Spaces(one)] + p;
    assert q[0] == Spaces(one) && q[1..] == p;
    SpanSpacesOf(sp, s);
    assert (sp + s)[|sp|..] == s;
  }

  /** A `\d+` group captures a whole run of digits. */
  lemma MatchDigits(name: string, p: Pattern, d: string, s: string)
    requires d != [] && AllDigits(d)
    requires s == [] || !IsDigit(s[0])
    ensures MatchAt([Digits(name)] + p, d + s) ==
      match MatchAt(p, s)
      case None => None
      case Some(caps) => Some([Capture(name, d)] + caps)
  {
    var q := [Digits(name)] + p;
    assert q[0] == Digits(name) && q[1..] == p;
    SpanDigitsOf(d, s);
    assert (d + s)[..|d|] == d;
    assert (d + s)[|d|..] == s;
  }

  /** The token sequences of the three patterns, one token at a time. */
  lemma ExpressionTokens()
    ensures ActiveExpression == [Lit("Active connections:")] + ([Spaces(true)] + ([Digits("active")] + []))
    ensures ServerExpression == [Spaces(false)] + ([Digits("accepted")] + ([Spaces(true)] +
      ([Digits("handled")] + ([Spaces(true)] + ([Digits("requests")] + [])))))
    ensures ConnectionsExpression == [Lit("Reading: ")] + ([Digits("reading")] + ([Spaces(true)] +
      ([Lit("Writing: ")] + ([Digits("writing")] + ([Spaces(true)] + ([Lit("Waiting: ")] +
      ([Digits("waiting")] + [])))))))
  {
  }

  lemma SingleSpace()
    ensures forall i :: 0 <= i < |" "| ==> IsSpace(" "[i])
    ensures !IsDigit('\n') && !IsSpace('W')
  {
  }

  lemma MatchEnd(s: string)
    ensures MatchAt([], s) == Some([])
  {
  }

  /** A match at the very start is the one `Find` reports. */
  lemma FindAtStart(p: Pattern, s: string)
    requires MatchAt(p, s).Some?
    ensures Find(p, s) == MatchAt(p, s)
  {
  }

  /** Appending is associative. */
  lemma Append(a: string, b: string, c: string)
    ensures (a + b) + c == a + (b + c)
  {
  }

  /** The first line without its newline. */
  function ActiveText(a: string): string
  {
    "Active connections:" + (" " + a)
  }

  /** The third line without its newline. */
  function ServerText(x: string, y: string, z: string): string
  {
    " " + (x + (" " + (y + (" " + z))))
  }

  /** The fourth line without its newline. */
  function ConnectionsText(r: string, w: string, wt: string): string
  {
    "Reading: " + (r + (" " + ("Writing: " + (w + (" " + ("Waiting: " + wt))))))
  }

  /** A literal, a run of spaces and a digit group, as the first line's pattern has them. */
  lemma LitSpacesDigits(t: string, name: string, a: string)
    requires a != [] && AllDigits(a)
    ensures Find([Lit(t), Spaces(true), Digits(name)], t + (" " + (a + "\n"))) == Some([Capture(name, a)])
  {
    SingleSpace();
    var p := [Lit(t), Spaces(true), Digits(name)];
    assert p == [Lit(t)] + ([Spaces(true)] + ([Digits(name)] + []));
    MatchEnd("\n");
    MatchDigits(name, [], a, "\n");
    assert IsDigit(a[0]);
    MatchSpaces(true, [Digits(name)] + [], " ", a + "\n");
    MatchLit(t, [Spaces(true)] + ([Digits(name)] + []), " " + (a + "\n"));
    assert [Capture(name, a)] + [] == [Capture(name, a)];
    FindAtStart(p, t + (" " + (a + "\n")));
  }

  /** The first line, `Active connections: N`. */
  lemma ActiveLine(a: string)
    requires a != [] && AllDigits(a)
    ensures Find(ActiveExpression, ActiveText(a) + "\n") == Some([Capture("active", a)])
  {
    LitSpacesDigits("Active connections:", "active", a);
    Append(" ", a, "\n");
    Append("Active connections:", " " + a, "\n");
  }

  lemma ThreeCaptures(a: Capture, b: Capture, c: Capture)
    ensures [a] + ([b] + ([c] + [])) == [a, b, c]
  {
  }

  /** One space followed by a digit group, when the rest of the pattern matches the rest. */
  lemma SpaceDigits(one: bool, name: string, p: Pattern, d: string, s: string, caps: seq<Capture>)
    requires d != [] && AllDigits(d)
    requires s == [] || !IsDigit(s[0])
    requires MatchAt(p, s) == Some(caps)
    ensures MatchAt([Spaces(one)] + ([Digits(name)] + p), " " + (d + s)) == Some([Capture(name, d)] + caps)
  {
    SingleSpace();
    MatchDigits(name, p, d, s);
    assert IsDigit(d[0]);
    MatchSpaces(one, [Digits(name)] + p, " ", d + s);
  }

  /** Three space-separated digit groups, as the third line's pattern has them. */
  lemma SpacedTriple(n1: string, n2: string, n3: string, x: string, y: string, z: string)
    requires x != [] && AllDigits(x) && y != [] && AllDigits(y) && z != [] && AllDigits(z)
    ensures Find([Spaces(false)] + ([Digits(n1)] + ([Spaces(true)] + ([Digits(n2)] + ([Spaces(true)] +
                   ([Digits(n3)] + []))))), " " + (x + (" " + (y + (" " + (z + "\n")))))) ==
      Some([Capture(n1, x), Capture(n2, y), Capture(n3, z)])
  {
    var p3: Pattern := [Spaces(true)] + ([Digits(n3)] + []);
    var p2: Pattern := [Spaces(true)] + ([Digits(n2)] + p3);
    var p1: Pattern := [Spaces(false)] + ([Digits(n1)] + p2);
    MatchEnd("\n");
    SpaceDigits(true, n3, [], z, "\n", []);
    SpaceDigits(true, n2, p3, y, " " + (z + "\n"), [Capture(n3, z)] + []);
    SpaceDigits(false, n1, p2, x, " " + (y + (" " + (z + "\n"))), [Capture(n2, y)] + ([Capture(n3, z)] + []));
    ThreeCaptures(Capture(n1, x), Capture(n2, y), Capture(n3, z));
    FindAtStart(p1, " " + (x + (" " + (y + (" " + (z + "\n"))))));
  }

  /** The third line, ` A H R`. */
  lemma ServerLine(x: string, y: string, z: string)
    requires x != [] && AllDigits(x) && y != [] && AllDigits(y) && z != [] && AllDigits(z)
    ensures Find(ServerExpression, ServerText(x, y, z) + "\n") ==
      Some([Capture("accepted", x), Capture("handled", y), Capture("requests", z)])
  {
    ExpressionTokens();
    SpacedTriple("accepted", "handled", "requests", x, y, z);
    Append(" ", z, "\n");
    Append(y, " " + z, "\n");
    Append(" ", y + (" " + z), "\n");
    Append(x, " " + (y + (" " + z)), "\n");
    Append(" ", x + (" " + (y + (" " + z))), "\n");
  }

  /** A literal followed by a digit group, when the rest of the pattern matches the rest. */
  lemma LitDigits(t: string, name: string, p: Pattern, d: string, s: string, caps: seq<Capture>)
    requires d != [] && AllDigits(d)
    requires s == [] || !IsDigit(s[0])
    requires MatchAt(p, s) == Some(caps)
    ensures MatchAt([Lit(t)] + ([Digits(name)] + p), t + (d + s)) == Some([Capture(name, d)] + caps)
  {
    MatchDigits(name, p, d, s);
    MatchLit(t, [Digits(name)] + p, d + s);
  }

  /** A literal, a digit group and a run of spaces, when the rest of the pattern matches
      the rest and the rest starts with something other than a space. */
  lemma LitDigitsSpace(t: string, name: string, p: Pattern, d: string, s: string, caps: seq<Capture>)
    requires d != [] && AllDigits(d)
    requires s != [] && !IsSpace(s[0])
    requires MatchAt(p, s) == Some(caps)
    ensures MatchAt([Lit(t)] + ([Digits(name)] + ([Spaces(true)] + p)), t + (d + (" " + s))) ==
      Some([Capture(name, d)] + caps)
  {
    SingleSpace();
    MatchSpaces(true, p, " ", s);
    LitDigits(t, name, [Spaces(true)] + p, d, " " + s, caps);
  }

  /** A literal, a digit group and a run of spaces, three times over, as the fourth line's
      pattern has them; the literals after the first start with something other than a space. */
  lemma LabelledTriple(t1: string, t2: string, t3: string, n1: string, n2: string, n3: string,
                       r: string, w: string, wt: string)
    requires r != [] && AllDigits(r) && w != [] && AllDigits(w) && wt != [] && AllDigits(wt)
    requires t2 != [] && !IsSpace(t2[0]) && t3 != [] && !IsSpace(t3[0])
    ensures Find([Lit(t1)] + ([Digits(n1)] + ([Spaces(true)] + ([Lit(t2)] + ([Digits(n2)] + ([Spaces(true)] +
                   ([Lit(t3)] + ([Digits(n3)] + []))))))), t1 + (r + (" " + (t2 + (w + (" " + (t3 + (wt + "\n")))))))) ==
      Some([Capture(n1, r), Capture(n2, w), Capture(n3, wt)])
  {
    SingleSpace();
    var s3 := t3 + (wt + "\n");
    var s2 := t2 + (w + (" " + s3));
    var s1 := t1 + (r + (" " + s2));
    assert s3[0] == t3[0] && s2[0] == t2[0];
    var c3 := [Capture(n3, wt)] + [];
    var c2 := [Capture(n2, w)] + c3;
    var p3: Pattern := [Lit(t3)] + ([Digits(n3)] + []);
    var p2: Pattern := [Lit(t2)] + ([Digits(n2)] + ([Spaces(true)] + p3));
    var p1: Pattern := [Lit(t1)] + ([Digits(n1)] + ([Spaces(true)] + p2));
    MatchEnd("\n");
    LitDigits(t3, n3, [], wt, "\n", []);
    LitDigitsSpace(t2, n2, p3, w, s3, c3);
    LitDigitsSpace(t1, n1, p2, r, s2, c2);
    ThreeCaptures(Capture(n1, r), Capture(n2, w), Capture(n3, wt));
    FindAtStart(p1, s1);
  }

  /** The fourth line, `Reading: R Writing: W Waiting: T`. */
  lemma ConnectionsLine(r: string, w: string, wt: string)
    requires r != [] && AllDigits(r) && w != [] && AllDigits(w) && wt != [] && AllDigits(wt)
    ensures Find(ConnectionsExpression, ConnectionsText(r, w, wt) + "\n") ==
      Some([Capture("reading", r), Capture("writing", w), Capture("waiting", wt)])
  {
    SingleSpace();
    ExpressionTokens();
    LabelledTriple("Reading: ", "Writing: ", "Waiting: ", "reading", "writing", "waiting", r, w, wt);
    var s3 := "Waiting: " + wt;
    var s2 := "Writing: " + (w + (" " + s3));
    Append("Waiting: ", wt, "\n");
    Append(" ", s3, "\n");
    Append(w, " " + s3, "\n");
    Append("Writing: ", w + (" " + s3), "\n");
    Append(" ", s2, "\n");
    Append(r, " " + s2, "\n");
    Append("Reading: ", r + (" " + s2), "\n");
  }

  /** A run of digits holds no newline. */
  lemma DigitsNoNewline(d: string)
    requires AllDigits(d)
    ensures '\n' !in d
  {
    assert forall i :: 0 <= i < |d| ==> d[i] != '\n';
  }

  /** Storing one capture of a number. */
  lemma StoreOneNumber(metrics: Bag, n: string, d: string)
    requires Number(d)
    ensures Store(metrics, [Capture(n, d)]) == metrics[n := JInt(DecimalValue(d))]
  {
    assert [Capture(n, d)][1..] == [];
  }

  /** Storing three captures of numbers, in order. */
  lemma StoreThreeNumbers(metrics: Bag, n1: string, d1: string, n2: string, d2: string, n3: string, d3: string)
    requires Number(d1) && Number(d2) && Number(d3)
    ensures Store(metrics, [Capture(n1, d1), Capture(n2, d2), Capture(n3, d3)]) ==
      metrics[n1 := JInt(DecimalValue(d1))][n2 := JInt(DecimalValue(d2))][n3 := JInt(DecimalValue(d3))]
  {
    var caps := [Capture(n1, d1), Capture(n2, d2), Capture(n3, d3)];
    assert caps[1..] == [Capture(n2, d2), Capture(n3, d3)];
    assert caps[1..][1..] == [Capture(n3, d3)];
    var m1 := metrics[n1 := JInt(DecimalValue(d1))];
    var m2 := m1[n2 := JInt(DecimalValue(d2))];
    StoreOneNumber(m2, n3, d3);
  }

  /** A four-line status page: the first line, any second line, the counters line and the
      connection states line, followed by anything. */
  function StandardPage(a: string, l1: string, x: string, y: string, z: string,
                        r: string, w: string, wt: string, rest: string): string
  {
    ActiveText(a) + "\n" + (l1 + "\n" + (ServerText(x, y, z) + "\n" + (ConnectionsText(r, w, wt) + "\n" + rest)))
  }

  /** The bag `getStandardMetrics` returns for such a page: the seven numbers under their
      group names, and the fixed version and edition. */
  function PageMetrics(a: string, x: string, y: string, z: string, r: string, w: string, wt: string): Bag
    requires AllDigits(a) && AllDigits(x) && AllDigits(y) && AllDigits(z)
    requires AllDigits(r) && AllDigits(w) && AllDigits(wt)
  {
    map["active" := JInt(DecimalValue(a)), "accepted" := JInt(DecimalValue(x)),
        "handled" := JInt(DecimalValue(y)), "requests" := JInt(DecimalValue(z)),
        "reading" := JInt(DecimalValue(r)), "writing" := JInt(DecimalValue(w)),
        "waiting" := JInt(DecimalValue(wt)),
        "version" := JString(""), "edition" := JString("open source")]
  }

  lemma ActiveTextNoNewline(a: string)
    requires AllDigits(a)
    ensures '\n' !in ActiveText(a)
  {
    DigitsNoNewline(a);
  }

  lemma ServerTextNoNewline(x: string, y: string, z: string)
    requires AllDigits(x) && AllDigits(y) && AllDigits(z)
    ensures '\n' !in ServerText(x, y, z)
  {
    DigitsNoNewline(x);
    DigitsNoNewline(y);
    DigitsNoNewline(z);
  }

  lemma ConnectionsTextNoNewline(r: string, w: string, wt: string)
    requires AllDigits(r) && AllDigits(w) && AllDigits(wt)
    ensures '\n' !in ConnectionsText(r, w, wt)
  {
    DigitsNoNewline(r);
    DigitsNoNewline(w);
    DigitsNoNewline(wt);
  }

  /** A complete line that matches its pattern stores its captures. */
  lemma MatchedLineRead(line: string, tail: string, k: nat, p: Pattern, metrics: Bag, caps: seq<Capture>)
    requires k < 4 && '\n' !in line && StatusExpression(k) == Some(p)
    requires Find(p, line + "\n") == Some(caps)
    ensures Numeric(caps)
    ensures Scan(line + "\n" + tail, k, metrics) == Scan(tail, k + 1, Store(metrics, caps))
  {
    ScanLine(line + "\n" + tail, k, metrics);
    ReadLine(line, tail);
  }

  /** After the fourth line the bag gets the version and the edition. */
  lemma ScanEnd(tail: string, metrics: Bag)
    ensures Scan(tail, 4, metrics) == Ok(metrics["version" := JString("")]["edition" := JString("open source")])
  {
  }

  /** Reading the first line stores the active connections. */
  lemma FirstLineRead(a: string, tail: string, k: nat, metrics: Bag)
    requires Number(a) && k == 0
    ensures Scan(ActiveText(a) + "\n" + tail, k, metrics) ==
      Scan(tail, k + 1, metrics["active" := JInt(DecimalValue(a))])
  {
    StoreOneNumber(metrics, "active", a);
    ActiveTextNoNewline(a);
    ActiveLine(a);
    MatchedLineRead(ActiveText(a), tail, k, ActiveExpression, metrics, [Capture("active", a)]);
  }

  /** The second line is read and dropped, whatever it holds. */
  lemma SecondLineRead(l1: string, tail: string, metrics: Bag)
    requires '\n' !in l1
    ensures Scan(l1 + "\n" + tail, 1, metrics) == Scan(tail, 2, metrics)
  {
    ScanLine(l1 + "\n" + tail, 1, metrics);
    ReadLine(l1, tail);
  }

  /** Reading the third line stores the accepted, handled and requests counters. */
  lemma ThirdLineRead(x: string, y: string, z: string, tail: string, metrics: Bag)
    requires Number(x) && Number(y) && Number(z)
    ensures Scan(ServerText(x, y, z) + "\n" + tail, 2, metrics) ==
      Scan(tail, 3, metrics["accepted" := JInt(DecimalValue(x))]["handled" := JInt(DecimalValue(y))]
                           ["requests" := JInt(DecimalValue(z))])
  {
    StoreThreeNumbers(metrics, "accepted", x, "handled", y, "requests", z);
    ServerTextNoNewline(x, y, z);
    ServerLine(x, y, z);
    MatchedLineRead(ServerText(x, y, z), tail, 2, ServerExpression, metrics,
                    [Capture("accepted", x), Capture("handled", y), Capture("requests", z)]);
  }

  /** Reading the fourth line stores the connection states and closes the bag with the
      version and edition. */
  lemma FourthLineRead(r: string, w: string, wt: string, tail: string, metrics: Bag)
    requires Number(r) && Number(w) && Number(wt)
    ensures Scan(ConnectionsText(r, w, wt) + "\n" + tail, 3, metrics) ==
      Ok(metrics["reading" := JInt(DecimalValue(r))]["writing" := JInt(DecimalValue(w))]
                ["waiting" := JInt(DecimalValue(wt))]["version" := JString("")]
                ["edition" := JString("open source")])
  {
    StoreThreeNumbers(metrics, "reading", r, "writing", w, "waiting", wt);
    ConnectionsTextNoNewline(r, w, wt);
    ConnectionsLine(r, w, wt);
    MatchedLineRead(ConnectionsText(r, w, wt), tail, 3, ConnectionsExpression, metrics,
                    [Capture("reading", r), Capture("writing", w), Capture("waiting", wt)]);
    ScanEnd(tail, metrics["reading" := JInt(DecimalValue(r))]["writing" := JInt(DecimalValue(w))]
                         ["waiting" := JInt(DecimalValue(wt))]);
  }

  /** The counters line and the connection states line, read from any bag. */
  lemma LastTwoLinesRead(x: string, y: string, z: string, r: string, w: string, wt: string,
                         rest: string, metrics: Bag)
    requires Number(x) && Number(y) && Number(z) && Number(r) && Number(w) && Number(wt)
    ensures Scan(ServerText(x, y, z) + "\n" + (ConnectionsText(r, w, wt) + "\n" + rest), 2, metrics) ==
      Ok(metrics["accepted" := JInt(DecimalValue(x))]["handled" := JInt(DecimalValue(y))]
                ["requests" := JInt(DecimalValue(z))]["reading" := JInt(DecimalValue(r))]
                ["writing" := JInt(DecimalValue(w))]["waiting" := JInt(DecimalValue(wt))]
                ["version" := JString("")]["edition" := JString("open source")])
  {
    var m2 := metrics["accepted" := JInt(DecimalValue(x))]["handled" := JInt(DecimalValue(y))]
                     ["requests" := JInt(DecimalValue(z))];
    ThirdLineRead(x, y, z, ConnectionsText(r, w, wt) + "\n" + rest, metrics);
    FourthLineRead(r, w, wt, rest, m2);
  }

  /** A well-formed page yields the seven numbers it shows, the empty version and the "open
      source" edition, and nothing else; the second line and whatever follows the fourth do not
      matter. */
  lemma StandardPageMetrics(a: string, l1: string, x: string, y: string, z: string,
                            r: string, w: string, wt: string, rest: string)
    requires Number(a) && Number(x) && Number(y) && Number(z) && Number(r) && Number(w) && Number(wt)
    requires '\n' !in l1
    ensures StandardMetrics(StandardPage(a, l1, x, y, z, r, w, wt, rest)) == Ok(PageMetrics(a, x, y, z, r, w, wt))
  {
    var t2 := ServerText(x, y, z) + "\n" + (ConnectionsText(r, w, wt) + "\n" + rest);
    var m1: Bag := map[]["active" := JInt(DecimalValue(a))];
    FirstLineRead(a, l1 + "\n" + t2, 0, map[]);
    SecondLineRead(l1, t2, m1);
    LastTwoLinesRead(x, y, z, r, w, wt, rest, m1);
  }

  /** Text without a single decimal digit. */
  predicate NoDigits(s: string)
  {
    forall i :: 0 <= i < |s| ==> !IsDigit(s[i])
  }

  /** A pattern with a group cannot match at any place in text without digits. */
  lemma {:induction false} NoDigitsMatchAt(p: Pattern, s: string)
    requires GroupNames(p) != [] && NoDigits(s)
    ensures MatchAt(p, s) == None
    decreases |p|
  {
    assert p != [];
    match p[0]
    case Lit(t) =>
      if HasPrefix(s, t) {
        assert GroupNames(p[1..]) == GroupNames(p);
        assert forall i :: 0 <= i < |s[|t|..]| ==> s[|t|..][i] == s[|t| + i];
        NoDigitsMatchAt(p[1..], s[|t|..]);
      }
    case Spaces(one) =>
      var n := SpanSpaces(s);
      assert GroupNames(p[1..]) == GroupNames(p);
      assert forall i :: 0 <= i < |s[n..]| ==> s[n..][i] == s[n + i];
      NoDigitsMatchAt(p[1..], s[n..]);
    case Digits(name) =>
      assert s == [] || !IsDigit(s[0]);
  }

  /** Nor can it be found anywhere in such text. */
  lemma {:induction false} NoDigitsFind(p: Pattern, s: string)
    requires GroupNames(p) != [] && NoDigits(s)
    ensures Find(p, s) == None
    decreases |s|
  {
    NoDigitsMatchAt(p, s);
    if s != [] {
      assert forall i :: 0 <= i < |s[1..]| ==> s[1..][i] == s[1 + i];
      NoDigitsFind(p, s[1..]);
    }
  }

  /** A page whose third line holds no digit (an extra line pushed the counters down) fails
      at that line, counted from 0, before anything is returned. */
  lemma ShiftedPageFails(a: string, l1: string, l2: string, rest: string)
    requires Number(a) && '\n' !in l1 && '\n' !in l2 && NoDigits(l2)
    ensures StandardMetrics(ActiveText(a) + "\n" + (l1 + "\n" + (l2 + "\n" + rest))) == Err(NoMatch(2))
  {
    var t2 := l2 + "\n" + rest;
    var t1 := l1 + "\n" + t2;
    var m1: Bag := map[]["active" := JInt(DecimalValue(a))];
    FirstLineRead(a, t1, 0, map[]);
    SecondLineRead(l1, t2, m1);
    ServerNames();
    assert forall i :: 0 <= i < |l2| ==> (l2 + "\n")[i] == l2[i];
    NoDigitsFind(ServerExpression, l2 + "\n");
    ScanLine(t2, 2, m1);
    ReadLine(l2, rest);
  }

  /** The message of that failure. */
  lemma ThirdLineMessage()
    ensures NoMatch(2) == "Line 2 of status doesn't match"
  {
  }

  /** The second line is never looked at: any two second lines give the same result. */
  lemma SecondLineIgnored(l0: string, l1: string, l1b: string, rest: string)
    requires '\n' !in l0 && '\n' !in l1 && '\n' !in l1b
    ensures StandardMetrics(l0 + "\n" + (l1 + "\n" + rest)) == StandardMetrics(l0 + "\n" + (l1b + "\n" + rest))
  {
    var s := l0 + "\n" + (l1 + "\n" + rest);
    var sb := l0 + "\n" + (l1b + "\n" + rest);
    ScanLine(s, 0, map[]);
    ScanLine(sb, 0, map[]);
    ReadLine(l0, l1 + "\n" + rest);
    ReadLine(l0, l1b + "\n" + rest);
    var m := Find(ActiveExpression, l0 + "\n");
    if m.Some? {
      SecondLineRead(l1, rest, Store(map[], m.value));
      SecondLineRead(l1b, rest, Store(map[], m.value));
    }
  }

  /** One printing step: the digits of `n` are those of `n / 10` and then its last digit. */
  lemma PrintStep(n: nat, init: string, last: char)
    requires n >= 10 && NatToString(n / 10) == init && last == DigitChar(n % 10)
    ensures NatToString(n) == init + [last]
  {
  }

  lemma Value291(d: string)
    requires d == "291"
    ensures Number(d) && DecimalValue(d) == 291
  {
    assert NatToString(2) == "2";
    PrintStep(29, "2", '9');
    PrintStep(291, "29", '1');
    assert "29" + ['1'] == d;
  }

  lemma Value16630948(d: string)
    requires d == "16630948"
    ensures Number(d) && DecimalValue(d) == 16630948
  {
    assert NatToString(1) == "1";
    PrintStep(16, "1", '6');
    PrintStep(166, "16", '6');
    PrintStep(1663, "166", '3');
    PrintStep(16630, "1663", '0');
    PrintStep(166309, "16630", '9');
    PrintStep(1663094, "166309", '4');
    PrintStep(16630948, "1663094", '8');
    assert "1663094" + ['8'] == d;
  }

  lemma Value31070465(d: string)
    requires d == "31070465"
    ensures Number(d) && DecimalValue(d) == 31070465
  {
    assert NatToString(3) == "3";
    PrintStep(31, "3", '1');
    PrintStep(310, "31", '0');
    PrintStep(3107, "310", '7');
    PrintStep(31070, "3107", '0');
    PrintStep(310704, "31070", '4');
    PrintStep(3107046, "310704", '6');
    PrintStep(31070465, "3107046", '5');
    assert "3107046" + ['5'] == d;
  }

  lemma Value6(d: string)
    requires d == "6"
    ensures Number(d) && DecimalValue(d) == 6
  {
    assert NatToString(6) == "6";

  }

  lemma Value179(d: string)
    requires d == "179"
    ensures Number(d) && DecimalValue(d) == 179
  {
    assert NatToString(1) == "1";
    PrintStep(17, "1", '7');
    PrintStep(179, "17", '9');
    assert "17" + ['9'] == d;
  }

  lemma Value106(d: string)
    requires d == "106"
    ensures Number(d) && DecimalValue(d) == 106
  {
    assert NatToString(1) == "1";
    PrintStep(10, "1", '0');
    PrintStep(106, "10", '6');
    assert "10" + ['6'] == d;
  }

  /** The sample page of the stub status tests gives the nine expected entries. */
  lemma SamplePage(a: string, l1: string, x: string, z: string, r: string, w: string, wt: string)
    requires a == "291" && x == "16630948" && z == "31070465" && r == "6" && w == "179" && wt == "106"
    requires l1 == "server accepts handled requests"
    ensures StandardMetrics(StandardPage(a, l1, x, x, z, r, w, wt, "")) == Ok(map[
      "active" := JInt(291), "accepted" := JInt(16630948), "handled" := JInt(16630948),
      "requests" := JInt(31070465), "reading" := JInt(6), "writing" := JInt(179),
      "waiting" := JInt(106), "version" := JString(""), "edition" := JString("open source")])
  {
    Value291(a);
    Value16630948(x);
    Value31070465(z);
    Value6(r);
    Value179(w);
    Value106(wt);
    StandardPageMetrics(a, l1, x, x, z, r, w, wt, "");
  }
}
