/** The stub status line reader `getStandardMetrics` (src/metrics.go:63-68, 84-117): reads up
    to four lines of the status page, matches each against a fixed pattern and puts the
    captured numbers into a raw metrics bag. */
module StubStatus {
  import opened Common
  import opened Text

  /** What `bufio.Reader.ReadString('\n')` hands back: the line up to and including the first
      newline, or all that is left together with `io.EOF` when there is no newline. */
  datatype Read = Read(line: string, rest: string, eof: bool)

  function ReadString(s: string): (r: Read)
    ensures r.line + r.rest == s
    ensures r.eof <==> '\n' !in s
    ensures r.eof ==> r.rest == []
    ensures !r.eof ==> r.line != [] && r.line[|r.line| - 1] == '\n' && '\n' !in r.line[..|r.line| - 1]
    decreases |s|
  {
    if s == [] then Read([], [], true)
    else if s[0] == '\n' then Read([s[0]], s[1..], false)
    else
      var t := ReadString(s[1..]);
      assert !t.eof ==> ([s[0]] + t.line)[..|t.line|] == [s[0]] + t.line[..|t.line| - 1];
      Read([s[0]] + t.line, t.rest, t.eof)
  }

  /** Reading a line that ends in a newline. */
  lemma ReadLine(l: string, rest: string)
    requires '\n' !in l
    ensures ReadString(l + "\n" + rest) == Read(l + "\n", rest, false)
  {
    var s := l + "\n" + rest;
    assert s[|l|] == '\n';
    var r := ReadString(s);
    var k := |r.line| - 1;
    assert forall i :: 0 <= i < |l| ==> s[i] == l[i];
    assert r.line == s[..k + 1];
    assert r.line[..k] == s[..k];
    assert k == |l|;
    assert r.line == l + "\n";
  }

  /** RE2's `\s`: space, tab, newline, form feed (code 12) and carriage return. */
  predicate IsSpace(c: char) { c == ' ' || c == '\t' || c == '\n' || c as int == 12 || c == '\r' }

  /** One element of a status line pattern: literal text, `\s*` or `\s+`, or a named `\d+`
      group. */
  datatype Token = Lit(text: string) | Spaces(atLeastOne: bool) | Digits(name: string)

  type Pattern = seq<Token>

  /** A named group and the digits it captured. */
  datatype Capture = Capture(name: string, digits: string)

  /** `re.SubexpNames()` without the unnamed whole-match entry. */
  function GroupNames(p: Pattern): seq<string>
  {
    if p == [] then []
    else (if p[0].Digits? then [p[0].name] else []) + GroupNames(p[1..])
  }

  function CaptureNames(caps: seq<Capture>): seq<string>
  {
    if caps == [] then [] else [caps[0].name] + CaptureNames(caps[1..])
  }

  predicate Numeric(caps: seq<Capture>)
  {
    forall i :: 0 <= i < |caps| ==> caps[i].digits != [] && AllDigits(caps[i].digits)
  }

  /** Length of the leading run of `\s` runes. */
  function SpanSpaces(s: string): (n: nat)
    ensures n <= |s| && (forall i :: 0 <= i < n ==> IsSpace(s[i])) && (n == |s| || !IsSpace(s[n]))
  {
    if s != [] && IsSpace(s[0]) then 1 + SpanSpaces(s[1..]) else 0
  }

  /** Length of the leading run of `\d` runes. */
  function SpanDigits(s: string): (n: nat)
    ensures n <= |s| && AllDigits(s[..n]) && (n == |s| || !IsDigit(s[n]))
  {
    if s != [] && IsDigit(s[0]) then
      var n := 1 + SpanDigits(s[1..]);
      assert forall i :: 1 <= i < n ==> s[..n][i] == s[1..][..n - 1][i - 1];
      n
    else 0
  }

  /** Matching `p` at the start of `s`, taking every run of `\s` and `\d` whole. Every
      repeated class in the three status patterns is followed by a token whose first rune
      lies outside it, so the run taken here is the only one a match can use
      (`StubStatusPatterns.MatchAtIsGreedy` and `StubStatusPatterns.MatchAtMeaning`). */
  function MatchAt(p: Pattern, s: string): (r: Option<seq<Capture>>)
    ensures r.Some? ==> Numeric(r.value) && CaptureNames(r.value) == GroupNames(p)
    decreases |p|
  {
    if p == [] then Some([])
    else match p[0]
      case Lit(t) => if HasPrefix(s, t) then MatchAt(p[1..], s[|t|..]) else None
      case Spaces(one) =>
        var n := SpanSpaces(s);
        if one && n == 0 then None else MatchAt(p[1..], s[n..])
      case Digits(name) =>
        var n := SpanDigits(s);
        if n == 0 then None
        else match MatchAt(p[1..], s[n..])
          case None => None
          case Some(caps) => Some([Capture(name, s[..n])] + caps)
  }

  /** `re.FindStringSubmatch`: the match that starts leftmost in `s`. */
  function Find(p: Pattern, s: string): (r: Option<seq<Capture>>)
    ensures r.Some? ==> Numeric(r.value) && CaptureNames(r.value) == GroupNames(p)
    decreases |s|
  {
    var m := MatchAt(p, s);
    if m.Some? || s == [] then m else Find(p, s[1..])
  }

  /** `Active connections:\s+(?P<active>\d+)` */
  const ActiveExpression: Pattern := [Lit("Active connections:"), Spaces(true), Digits("active")]

  /** `\s*(?P<accepted>\d+)\s+(?P<handled>\d+)\s+(?P<requests>\d+)` */
  const ServerExpression: Pattern :=
    [Spaces(false), Digits("accepted"), Spaces(true), Digits("handled"), Spaces(true), Digits("requests")]

  /** `Reading: (?P<reading>\d+)\s+Writing: (?P<writing>\d+)\s+Waiting: (?P<waiting>\d+)` */
  const ConnectionsExpression: Pattern :=
    [Lit("Reading: "), Digits("reading"), Spaces(true), Lit("Writing: "), Digits("writing"),
     Spaces(true), Lit("Waiting: "), Digits("waiting")]

  /** Entry `lineNo` of `nginxStatusExpressions`: the pattern of that line; the second line
      has none. */
  function StatusExpression(lineNo: nat): Option<Pattern>
    requires lineNo < 4
  {
    if lineNo == 0 then Some(ActiveExpression)
    else if lineNo == 1 then None
    else if lineNo == 2 then Some(ServerExpression)
    else Some(ConnectionsExpression)
  }

  /** The inner loop over the groups: each capture that `strconv.Atoi` accepts is stored
      under its group name, the others are skipped. */
  function Store(metrics: Bag, caps: seq<Capture>): Bag
    requires Numeric(caps)
    decreases |caps|
  {
    if caps == [] then metrics
    else
      var v := Atoi(caps[0].digits);
      Store(if v.Some? then metrics[caps[0].name := JInt(v.value)] else metrics, caps[1..])
  }

  function NoMatch(lineNo: nat): string
  {
    "Line " + NatToString(lineNo) + " of status doesn't match"
  }

  /** The loop of `getStandardMetrics` from line `lineNo` on, with `s` left to read. */
  function Scan(s: string, lineNo: nat, metrics: Bag): Result<Bag>
    requires lineNo <= 4
    decreases 4 - lineNo
  {
    if lineNo == 4 then
      Ok(metrics["version" := JString("")]["edition" := JString("open source")])
    else
      var rd := ReadString(s);
      if rd.eof then Ok(metrics)
      else match StatusExpression(lineNo)
        case None => Scan(rd.rest, lineNo + 1, metrics)
        case Some(p) =>
          match Find(p, rd.line)
          case None => Err(NoMatch(lineNo))
          case Some(caps) => Scan(rd.rest, lineNo + 1, Store(metrics, caps))
  }

  /** What `getStandardMetrics` returns for the status page `input`. */
  function StandardMetrics(input: string): Result<Bag>
  {
    Scan(input, 0, map[])
  }

  /** One line of `Scan`: end of input, the skipped line, a failed match or a matched line. */
  lemma ScanLine(s: string, lineNo: nat, metrics: Bag)
    requires lineNo < 4
    ensures ReadString(s).eof ==> Scan(s, lineNo, metrics) == Ok(metrics)
    ensures !ReadString(s).eof && StatusExpression(lineNo).None? ==>
      Scan(s, lineNo, metrics) == Scan(ReadString(s).rest, lineNo + 1, metrics)
    ensures !ReadString(s).eof && StatusExpression(lineNo).Some? ==>
      var m := Find(StatusExpression(lineNo).value, ReadString(s).line);
      Scan(s, lineNo, metrics) ==
        if m.None? then Err(NoMatch(lineNo)) else Scan(ReadString(s).rest, lineNo + 1, Store(metrics, m.value))
  {
  }

  /** One capture of `Store`. */
  lemma StoreOne(metrics: Bag, caps: seq<Capture>, i: nat)
    requires Numeric(caps) && i < |caps|
    ensures Store(metrics, caps[i..]) ==
      Store(if Atoi(caps[i].digits).Some? then metrics[caps[i].name := JInt(Atoi(caps[i].digits).value)]
            else metrics, caps[i + 1..])
  {
    assert caps[i..][1..] == caps[i + 1..];
  }

  /** The loop over a match's groups in `getStandardMetrics`. */
  method StoreCaptures(metrics: Bag, caps: seq<Capture>) returns (r: Bag)
    requires Numeric(caps)
    ensures r == Store(metrics, caps)
  {
    r := metrics;
    var i := 0;
    while i < |caps|
      invariant 0 <= i <= |caps|
      invariant Store(r, caps[i..]) == Store(metrics, caps)
    {
      StoreOne(r, caps, i);
      var v := Atoi(caps[i].digits);
      if v.Some? {
        r := r[caps[i].name := JInt(v.value)];
      }
      i := i + 1;
    }
  }

  /** `getStandardMetrics`, with the reader's content given as `input`. */
  method GetStandardMetrics(input: string) returns (r: Result<Bag>)
    ensures r == StandardMetrics(input)
  {
    var metrics: Bag := map[];
    var reader := input;
    var lineNo := 0;
    while lineNo < 4
      invariant 0 <= lineNo <= 4
      invariant Scan(reader, lineNo, metrics) == StandardMetrics(input)
    {
      ScanLine(reader, lineNo, metrics);
      var rd := ReadString(reader);
      if rd.eof {
        return Ok(metrics);
      }
      reader := rd.rest;
      var re := StatusExpression(lineNo);
      if re.Some? {
        var m := Find(re.value, rd.line);
        if m.None? {
          return Err(NoMatch(lineNo));
        }
        metrics := StoreCaptures(metrics, m.value);
      }
      lineNo := lineNo + 1;
    }
    metrics := metrics["version" := JString("")];
    metrics := metrics["edition" := JString("open source")];
    return Ok(metrics);
  }
}

/** Properties of the stub status reader. */
module StubStatusFacts {
  import opened Common
  import opened Text
  import opened StubStatus

  /** The complete, newline-terminated lines of `s`, in order. */
  function Lines(s: string): seq<string>
    decreases |s|
  {
    var rd := ReadString(s);
    if rd.eof then [] else [rd.line] + Lines(rd.rest)
  }

  lemma LinesStep(s: string)
    ensures ReadString(s).eof ==> Lines(s) == []
    ensures !ReadString(s).eof ==> Lines(s) == [ReadString(s).line] + Lines(ReadString(s).rest)
  {
  }

  /** Line `i` of the page (counted from 0) is complete, has a pattern, and fails it. */
  predicate Mismatch(lines: seq<string>, i: nat)
  {
    i < 4 && i < |lines| && StatusExpression(i).Some? && Find(StatusExpression(i).value, lines[i]).None?
  }

  /** The first line from `from` on, among the first four, that fails its pattern. */
  function FirstMismatch(lines: seq<string>, from: nat): (r: Option<nat>)
    ensures r.Some? ==> from <= r.value && Mismatch(lines, r.value)
    ensures r.Some? ==> forall j: nat :: from <= j < r.value ==> !Mismatch(lines, j)
    ensures r.None? ==> forall j: nat :: from <= j ==> !Mismatch(lines, j)
    decreases 4 - from
  {
    if from >= 4 then None
    else if Mismatch(lines, from) then Some(from)
    else FirstMismatch(lines, from + 1)
  }

  /** `Scan` from line `|pre|` on, where `pre` are the lines already read, fails exactly at
      the first failing line. */
  lemma {:induction false} ScanFails(pre: seq<string>, s: string, metrics: Bag)
    requires |pre| <= 4
    ensures Scan(s, |pre|, metrics).Err? <==> FirstMismatch(pre + Lines(s), |pre|).Some?
    ensures Scan(s, |pre|, metrics).Err? ==>
      Scan(s, |pre|, metrics).error == NoMatch(FirstMismatch(pre + Lines(s), |pre|).value)
    decreases 4 - |pre|, 1
  {
    if |pre| < 4 {
      var k := |pre|;
      var rd := ReadString(s);
      ScanLine(s, k, metrics);
      LinesStep(s);
      if rd.eof {
        assert pre + Lines(s) == pre;
        NoMismatchPast(pre, k);
      } else {
        assert (pre + Lines(s))[k] == rd.line;
        match StatusExpression(k)
        case None =>
          ScanFailsPass(pre, s, metrics, rd.line, rd.rest, metrics);
        case Some(p) =>
          var m := Find(p, rd.line);
          if m.Some? {
            ScanFailsPass(pre, s, metrics, rd.line, rd.rest, Store(metrics, m.value));
          }
      }
    }
  }

  /** A line that passes its pattern, or has none: the outcome is that of the lines after it. */
  lemma {:induction false} ScanFailsPass(pre: seq<string>, s: string, metrics: Bag,
                                         line: string, rest: string, next: Bag)
    requires |pre| < 4
    requires Lines(s) == [line] + Lines(rest)
    requires Scan(s, |pre|, metrics) == Scan(rest, |pre| + 1, next)
    requires !Mismatch(pre + Lines(s), |pre|)
    ensures Scan(s, |pre|, metrics).Err? <==> FirstMismatch(pre + Lines(s), |pre|).Some?
    ensures Scan(s, |pre|, metrics).Err? ==>
      Scan(s, |pre|, metrics).error == NoMatch(FirstMismatch(pre + Lines(s), |pre|).value)
    decreases 4 - |pre|, 0
  {
    assert pre + Lines(s) == (pre + [line]) + Lines(rest);
    ScanFails(pre + [line], rest, next);
  }

  /** No line past the end of `lines` fails. */
  lemma NoMismatchPast(lines: seq<string>, from: nat)
    requires |lines| <= from
    ensures FirstMismatch(lines, from).None?
    decreases 4 - from
  {
    if from < 4 {
      NoMismatchPast(lines, from + 1);
    }
  }

  /** `getStandardMetrics` fails exactly when some complete line among the first four does
      not match its pattern, and then it reports the first such line, counted from 0. */
  lemma FailsAtFirstMismatch(input: string)
    ensures StandardMetrics(input).Err? <==> exists i: nat :: Mismatch(Lines(input), i)
    ensures StandardMetrics(input).Err? ==>
      var i := FirstMismatch(Lines(input), 0).value;
      StandardMetrics(input).error == NoMatch(i) && Mismatch(Lines(input), i) &&
      forall j: nat :: j < i ==> !Mismatch(Lines(input), j)
  {
    ScanFails([], input, map[]);
    assert [] + Lines(input) == Lines(input);
  }


  lemma ActiveNames()
    ensures GroupNames(ActiveExpression) == ["active"]
    ensures forall n :: n in GroupNames(ActiveExpression) ==> StubKey(n)
  {
  }

  lemma ServerNames()
    ensures GroupNames(ServerExpression) == ["accepted", "handled", "requests"]
    ensures forall n :: n in GroupNames(ServerExpression) ==> StubKey(n)
  {
  }

  lemma ConnectionsNames()
    ensures GroupNames(ConnectionsExpression) == ["reading", "writing", "waiting"]
    ensures forall n :: n in GroupNames(ConnectionsExpression) ==> StubKey(n)
  {
  }

  /** `Store` keeps every key, writes only under the captures' names, and writes integers. */
  lemma {:induction false} StoreKeys(metrics: Bag, caps: seq<Capture>)
    requires Numeric(caps)
    ensures forall key :: key in metrics ==> key in Store(metrics, caps)
    ensures forall key :: key in Store(metrics, caps) && key !in CaptureNames(caps) ==>
      key in metrics && Store(metrics, caps)[key] == metrics[key]
    ensures (forall key :: key in metrics ==> metrics[key].JInt?) ==>
      forall key :: key in Store(metrics, caps) ==> Store(metrics, caps)[key].JInt?
    decreases |caps|
  {
    if caps != [] {
      var v := Atoi(caps[0].digits);
      var next := if v.Some? then metrics[caps[0].name := JInt(v.value)] else metrics;
      StoreKeys(next, caps[1..]);
      assert CaptureNames(caps) == [caps[0].name] + CaptureNames(caps[1..]);
    }
  }

  /** The names of the groups of the three patterns. */
  predicate StubKey(key: string)
  {
    key in {"active", "accepted", "handled", "requests", "reading", "writing", "waiting"}
  }

  /** What a bag read so far holds: integers under group names only. */
  predicate GroupBag(metrics: Bag)
  {
    forall key :: key in metrics ==> StubKey(key) && metrics[key].JInt?
  }

  /** Every group name of a pattern is a stub key. */
  lemma PatternKeys(k: nat)
    requires k < 4 && StatusExpression(k).Some?
    ensures forall n :: n in GroupNames(StatusExpression(k).value) ==> StubKey(n)
  {
    if k == 0 { ActiveNames(); } else if k == 2 { ServerNames(); } else { ConnectionsNames(); }
  }

  /** Storing captures named by stub keys keeps a bag a group bag. */
  lemma StoreGroups(metrics: Bag, caps: seq<Capture>, names: seq<string>)
    requires Numeric(caps) && CaptureNames(caps) == names
    requires forall n :: n in names ==> StubKey(n)
    requires GroupBag(metrics)
    ensures GroupBag(Store(metrics, caps))
  {
    StoreKeys(metrics, caps);
  }

  /** What `ScanKeys` states of `Scan(s, k, metrics)`. */
  predicate KeysShape(s: string, k: nat, metrics: Bag)
    requires k <= 4
  {
    Scan(s, k, metrics).Ok? ==>
      var r := Scan(s, k, metrics).value;
      (forall key :: key in r && key != "version" && key != "edition" ==> StubKey(key) && r[key].JInt?) &&
      ("version" in r <==> k + |Lines(s)| >= 4) && ("edition" in r <==> k + |Lines(s)| >= 4) &&
      (k + |Lines(s)| >= 4 ==> r["version"] == JString("") && r["edition"] == JString("open source"))
  }

  /** The bag `Scan` returns holds integers under group names, and `version` and `edition`
      exactly when four complete lines were read. */
  lemma {:induction false} ScanKeys(s: string, k: nat, metrics: Bag)
    requires k <= 4 && GroupBag(metrics)
    ensures KeysShape(s, k, metrics)
    decreases 4 - k, 1
  {
    if k < 4 {
      var rd := ReadString(s);
      ScanLine(s, k, metrics);
      LinesStep(s);
      if rd.eof {
        assert !StubKey("version") && !StubKey("edition");
      } else {
        match StatusExpression(k)
        case None =>
          ScanKeysPass(s, k, metrics, rd.line, rd.rest, metrics);
        case Some(p) =>
          var m := Find(p, rd.line);
          if m.Some? {
            PatternKeys(k);
            StoreGroups(metrics, m.value, GroupNames(p));
            ScanKeysPass(s, k, metrics, rd.line, rd.rest, Store(metrics, m.value));
          }
      }
    }
  }

  lemma {:induction false} ScanKeysPass(s: string, k: nat, metrics: Bag, line: string, rest: string, next: Bag)
    requires k < 4 && GroupBag(next)
    requires Lines(s) == [line] + Lines(rest)
    requires Scan(s, k, metrics) == Scan(rest, k + 1, next)
    ensures KeysShape(s, k, metrics)
    decreases 4 - k, 0
  {
    ScanKeys(rest, k + 1, next);
  }

  /** A page cut short (fewer than four complete lines) yields the numbers read so far and no
      `version` or `edition`; a full page yields both, as "" and "open source". */
  lemma StandardKeys(input: string)
    requires StandardMetrics(input).Ok?
    ensures KeysShape(input, 0, map[])
    ensures var r := StandardMetrics(input).value;
      (forall key :: key in r && key != "version" && key != "edition" ==> StubKey(key) && r[key].JInt?) &&
      ("version" in r <==> |Lines(input)| >= 4) && ("edition" in r <==> |Lines(input)| >= 4) &&
      (|Lines(input)| >= 4 ==> r["version"] == JString("") && r["edition"] == JString("open source"))
  {
    ScanKeys(input, 0, map[]);
  }
}


