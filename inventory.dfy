/** The configuration-file inventory parser of `populateInventory` (src/inventory.go): one
    pass over the runes of the file that turns statements `cmd value;` into inventory items
    keyed by the slash-joined stack of open `{ }` blocks. */
module InventoryParser {
  import opened Common
  import opened Text

  /** The runes the inner loop after a newline swallows. */
  predicate IsBlank(r: char) { r == '\n' || r == ' ' || r == '\t' }

  /** Where the rune loop is: dispatching on the next rune in the outer `switch`, inside the
      inner loop that swallows the blanks after a newline, inside a `#` comment, or returned
      with the unbalanced-`}` error at the given line. */
  datatype Mode = Dispatching | SkippingBlanks | InComment | Failed(line: nat)

  /** The local state of `populateInventory` together with the items written so far. */
  datatype Scanner = Scanner(
    cmd: string,
    value: string,
    prefix: seq<string>,
    lineNo: nat,
    items: map<string, string>,
    mode: Mode)

  function Start(items: map<string, string>): Scanner
  {
    Scanner("", "", [], 1, items, Dispatching)
  }

  /** The path segment a `{` pushes. */
  function Segment(cmd: string, value: string): string
  {
    if value != "" then cmd + ":" + Trim(ReplaceChar(value, '/', ':'), " \t") else cmd
  }

  /** The inventory key a `;` writes: the open segments and the command, slash-joined. */
  function ItemKey(prefix: seq<string>, cmd: string): (k: string)
    ensures k == Join(prefix + [cmd], "/")
  {
    assert (prefix + [cmd])[..|prefix|] == prefix;
    if prefix == [] then cmd else Join(prefix, "/") + "/" + cmd
  }

  /** One pass of the outer `switch` on rune `r`. */
  function Dispatch(st: Scanner, r: char): Scanner
  {
    if r == '{' then
      st.(prefix := st.prefix + [Segment(st.cmd, st.value)], cmd := "", value := "")
    else if r == '}' then
      if |st.prefix| == 0 then st.(mode := Failed(st.lineNo))
      else st.(prefix := st.prefix[..|st.prefix| - 1])
    else if r == ';' then
      st.(items := st.items[ItemKey(st.prefix, st.cmd) := st.value], cmd := "", value := "")
    else if r == '\n' then
      st.(mode := SkippingBlanks, lineNo := st.lineNo + 1)
    else if r == '#' then
      st.(mode := InComment)
    else if r == ' ' || r == '\t' then
      if st.value == "" then st
      else if st.cmd == "" then st.(cmd := st.value, value := "")
      else st.(value := st.value + [r])
    else
      st.(value := st.value + [r])
  }

  /** The effect of reading rune `r` in the scanner's current mode. The rune that ends a run
      of blanks is put back and dispatched. */
  function Step(st: Scanner, r: char): Scanner
  {
    match st.mode
    case Failed(_) => st
    case InComment => if r == '\n' then st.(mode := Dispatching) else st
    case SkippingBlanks => if IsBlank(r) then st else Dispatch(st.(mode := Dispatching), r)
    case Dispatching => Dispatch(st, r)
  }

  /** Reading all of `s`. */
  function Run(s: seq<char>, st: Scanner): Scanner
    decreases |s|
  {
    if s == [] then st else Run(s[1..], Step(st, s[0]))
  }

  /** How the source's call ends: returning nil, returning the unbalanced-`}` error, or never
      returning (a `#` comment still open at end of input makes its comment loop read EOF
      forever). */
  datatype Status = Finished | UnbalancedClose(line: nat) | NeverReturns

  /** What a caller can observe: how the call ends and the items written by then. */
  datatype Outcome = Outcome(status: Status, items: map<string, string>)

  function Observe(st: Scanner): Outcome
  {
    Outcome(
      match st.mode
      case Failed(n) => UnbalancedClose(n)
      case InComment => NeverReturns
      case _ => Finished,
      st.items)
  }

  /** `populateInventory` on the runes `s` with an inventory that already holds `items`. */
  function Parse(s: seq<char>, items: map<string, string>): Outcome
  {
    Observe(Run(s, Start(items)))
  }

  function ErrorMessage(line: nat): string
  {
    "Error parsing config file in Line " + NatToString(line)
  }

  /** The error value the source returns for each way of ending. */
  function Report(status: Status): Option<string>
  {
    match status
    case UnbalancedClose(n) => Some(ErrorMessage(n))
    case _ => None
  }

  /** Some `#` has no newline after it. */
  predicate DanglingComment(s: seq<char>)
    decreases |s|
  {
    s != [] && ((s[0] == '#' && '\n' !in s) || DanglingComment(s[1..]))
  }

  /** The SDK inventory that `populateInventory` fills: `SetItem(key, "value", v)` with the
      last write for a key winning. */
  class Inventory {
    var items: map<string, string>

    constructor ()
      ensures items == map[]
    {
      items := map[];
    }

    method SetItem(key: string, value: string)
      modifies this
      ensures items == old(items)[key := value]
    {
      items := items[key := value];
    }
  }

  /** `populateInventory`: reads the runes of `input` one at a time, writing items into
      `inv`. The source never returns when a `#` comment is open at end of input and no
      unbalanced `}` came before it, so such input is excluded. */
  method PopulateInventory(input: seq<char>, inv: Inventory) returns (err: Option<string>)
    requires !DanglingComment(input) || Underflows(Braces(input, false), 0)
    modifies inv
    ensures Parse(input, old(inv.items)).status != NeverReturns
    ensures inv.items == Parse(input, old(inv.items)).items
    ensures err == Report(Parse(input, old(inv.items)).status)
  {
    var curCmd: string := "";
    var curValue: string := "";
    var prefix: seq<string> := [];
    var lineNo: nat := 1;
    var pos := 0;
    ghost var goal := Parse(input, inv.items);
    ParseOutcomes(input, inv.items);
    while true
      invariant 0 <= pos <= |input|
      invariant Observe(Run(input[pos..], Scanner(curCmd, curValue, prefix, lineNo, inv.items, Dispatching))) == goal
      decreases |input| - pos
    {
      if pos == |input| {
        return None;
      }
      var r := input[pos];
      ghost var before := Scanner(curCmd, curValue, prefix, lineNo, inv.items, Dispatching);
      Advance(input, pos, before);
      pos := pos + 1;
      ghost var after := Step(before, r);
      if r == '{' {
        if curValue != "" {
          curValue := ReplaceChar(curValue, '/', ':');
          prefix := prefix + [curCmd + ":" + Trim(curValue, " \t")];
        } else {
          prefix := prefix + [curCmd];
        }
        curCmd := "";
        curValue := "";
        assert Scanner(curCmd, curValue, prefix, lineNo, inv.items, Dispatching) == after;
      } else if r == '}' {
        var closeIdx := |prefix| - 1;
        if closeIdx < 0 {
          FailedIsFinal(input[pos..], after);
          return Some(ErrorMessage(lineNo));
        }
        prefix := prefix[..closeIdx];
        assert Scanner(curCmd, curValue, prefix, lineNo, inv.items, Dispatching) == after;
      } else if r == ';' {
        prefix := prefix + [curCmd];
        assert Join(prefix, "/") == ItemKey(prefix[..|prefix| - 1], curCmd);
        inv.SetItem(Join(prefix, "/"), curValue);
        prefix := prefix[..|prefix| - 1];
        curValue := "";
        curCmd := "";
        assert Scanner(curCmd, curValue, prefix, lineNo, inv.items, Dispatching) == after;
      } else if r == '\n' {
        var next := SkipBlanks(input, pos);
        SkippedBlanks(input, pos, next, after);
        pos := next;
        lineNo := lineNo + 1;
        ResumeAfterBlanks(input[pos..], after);
      } else if r == '#' {
        if '\n' !in input[pos..] {
          OpenCommentNeverReturns(input, pos - 1, before);
          assert false;
        }
        var next := SkipComment(input, pos);
        SkippedComment(input, pos, next, after);
        pos := next;
      } else if r == ' ' || r == '\t' {
        if curValue == "" {
          continue;
        }
        if curValue != "" && curCmd == "" {
          curCmd := curValue;
          curValue := "";
        } else {
          curValue := curValue + [r];
        }
      } else {
        curValue := curValue + [r];
      }
    }
  }

  /** The inner loop after a newline: the position of the first rune from `pos` on that is
      not a newline, space or tab, or the end of input. */
  method SkipBlanks(input: seq<char>, pos: nat) returns (next: nat)
    requires pos <= |input|
    ensures pos <= next <= |input|
    ensures forall k :: pos <= k < next ==> IsBlank(input[k])
    ensures next == |input| || !IsBlank(input[next])
  {
    next := pos;
    while next < |input| && IsBlank(input[next])
      invariant pos <= next <= |input|
      invariant forall k :: pos <= k < next ==> IsBlank(input[k])
    {
      next := next + 1;
    }
  }

  /** The comment loop: the position just after the first newline from `pos` on. */
  method SkipComment(input: seq<char>, pos: nat) returns (next: nat)
    requires pos <= |input| && '\n' in input[pos..]
    ensures pos < next <= |input| && input[next - 1] == '\n'
    ensures forall k :: pos <= k < next - 1 ==> input[k] != '\n'
  {
    next := pos;
    while input[next] != '\n'
      invariant pos <= next < |input|
      invariant '\n' in input[next..]
      invariant forall k :: pos <= k < next ==> input[k] != '\n'
      decreases |input| - next
    {
      assert input[next..] == [input[next]] + input[next + 1..];
      next := next + 1;
    }
    next := next + 1;
  }

  /** Blanks read while skipping blanks change nothing. */
  lemma {:induction false} SkippedBlanks(input: seq<char>, pos: nat, next: nat, st: Scanner)
    requires pos <= next <= |input| && st.mode == SkippingBlanks
    requires forall k :: pos <= k < next ==> IsBlank(input[k])
    ensures Run(input[pos..], st) == Run(input[next..], st)
    decreases next - pos
  {
    if pos < next {
      Advance(input, pos, st);
      SkippedBlanks(input, pos + 1, next, st);
    }
  }

  /** A comment up to and including its newline changes nothing but the mode. */
  lemma {:induction false} SkippedComment(input: seq<char>, pos: nat, next: nat, st: Scanner)
    requires pos < next <= |input| && input[next - 1] == '\n' && st.mode == InComment
    requires forall k :: pos <= k < next - 1 ==> input[k] != '\n'
    ensures Run(input[pos..], st) == Run(input[next..], st.(mode := Dispatching))
    decreases next - pos
  {
    Advance(input, pos, st);
    if pos < next - 1 {
      SkippedComment(input, pos + 1, next, st);
    }
  }

  /** Reading the rest of `input` from `pos` is reading the rune at `pos` and then the rest. */
  lemma Advance(input: seq<char>, pos: nat, st: Scanner)
    requires pos < |input|
    ensures Run(input[pos..], st) == Run(input[pos + 1..], Step(st, input[pos]))
  {
    assert input[pos..][1..] == input[pos + 1..];
  }

  /** Once the `}` error is taken nothing further changes. */
  lemma {:induction false} FailedIsFinal(s: seq<char>, st: Scanner)
    requires st.mode.Failed?
    ensures Run(s, st) == st
    decreases |s|
  {
    if s != [] {
      FailedIsFinal(s[1..], st);
    }
  }

  /** Reading `a` and then `b` is reading `a + b`. */
  lemma {:induction false} RunAppend(a: seq<char>, b: seq<char>, st: Scanner)
    ensures Run(a + b, st) == Run(b, Run(a, st))
    decreases |a|
  {
    if a == [] {
      assert a + b == b;
    } else {
      assert (a + b)[0] == a[0] && (a + b)[1..] == a[1..] + b;
      RunAppend(a[1..], b, Step(st, a[0]));
    }
  }

  /** The rune that ends a run of blanks is dispatched as if no blanks had come; at end of
      input the two states are observed alike. */
  lemma ResumeAfterBlanks(s: seq<char>, st: Scanner)
    requires st.mode == SkippingBlanks
    requires s == [] || !IsBlank(s[0])
    ensures Observe(Run(s, st)) == Observe(Run(s, st.(mode := Dispatching)))
  {
    if s != [] {
      assert Step(st, s[0]) == Step(st.(mode := Dispatching), s[0]);
    }
  }

  /** A `#` read from a live state with no newline after it leaves the call in its comment
      loop for good. */
  lemma OpenCommentNeverReturns(s: seq<char>, i: nat, st: Scanner)
    requires i < |s| && s[i] == '#' && '\n' !in s[i + 1..]
    requires st.mode == Dispatching
    ensures Observe(Run(s[i..], st)).status == NeverReturns
  {
    var c := s[i..];
    assert c == [s[i]] + s[i + 1..];
    assert '\n' !in c;
    CommentHasNoBraces(s[i + 1..]);
    assert Braces(c, false) == [];
    FailsIffUnderflow(c, st);
    EndsInCommentIff(c, st);
  }

  /** Inside a comment that no newline ends, no brace is dispatched. */
  lemma {:induction false} CommentHasNoBraces(s: seq<char>)
    requires '\n' !in s
    ensures Braces(s, true) == []
    decreases |s|
  {
    if s != [] {
      assert s[0] != '\n' && '\n' !in s[1..];
      CommentHasNoBraces(s[1..]);
    }
  }

  /** The `{` and `}` runes the outer `switch` dispatches on: those outside `#` comments,
      reading from inside a comment when `inComment` holds. */
  function Braces(s: seq<char>, inComment: bool): seq<char>
    decreases |s|
  {
    if s == [] then []
    else if inComment then Braces(s[1..], s[0] != '\n')
    else if s[0] == '#' then Braces(s[1..], true)
    else if s[0] == '{' || s[0] == '}' then [s[0]] + Braces(s[1..], false)
    else Braces(s[1..], false)
  }

  /** Reading the braces `bs` with `depth` blocks open, some `}` finds no open block. */
  predicate Underflows(bs: seq<char>, depth: nat)
    decreases |bs|
  {
    bs != [] && (if bs[0] == '{' then Underflows(bs[1..], depth + 1) else depth == 0 || Underflows(bs[1..], depth - 1))
  }

  /** Opened minus closed blocks. */
  function Balance(bs: seq<char>): int
  {
    if bs == [] then 0 else (if bs[0] == '{' then 1 else -1) + Balance(bs[1..])
  }

  /** Reading `s` from a live state fails exactly when, with comments removed, some `}`
      closes a block that was never opened; otherwise the section stack grows by the
      opened minus the closed blocks. */
  lemma {:induction false} FailsIffUnderflow(s: seq<char>, st: Scanner)
    requires !st.mode.Failed?
    ensures Run(s, st).mode.Failed? <==> Underflows(Braces(s, st.mode == InComment), |st.prefix|)
    ensures !Run(s, st).mode.Failed? ==>
      |Run(s, st).prefix| == |st.prefix| + Balance(Braces(s, st.mode == InComment))
    decreases |s|
  {
    if s != [] {
      var next := Step(st, s[0]);
      StepOnBraces(st, s[0]);
      var bs := Braces(s, st.mode == InComment);
      var tail := Braces(s[1..], next.mode == InComment);
      if st.mode != InComment && (s[0] == '{' || s[0] == '}') {
        assert bs == [s[0]] + tail;
        assert bs[1..] == tail;
      } else {
        assert bs == tail;
      }
      if next.mode.Failed? {
        FailedIsFinal(s[1..], next);
      } else {
        FailsIffUnderflow(s[1..], next);
      }
    }
  }

  /** What one rune does to the comment state and to the depth of the stack. */
  lemma StepOnBraces(st: Scanner, r: char)
    requires !st.mode.Failed?
    ensures (Step(st, r).mode == InComment) == (if st.mode == InComment then r != '\n' else r == '#')
    ensures Step(st, r).mode.Failed? <==> st.mode != InComment && r == '}' && st.prefix == []
    ensures !Step(st, r).mode.Failed? ==>
      |Step(st, r).prefix| == |st.prefix| +
        (if st.mode == InComment then 0 else if r == '{' then 1 else if r == '}' then -1 else 0)
  {
  }

  /** Reading `s` from a live state ends inside a comment exactly when it does not fail and
      some `#` of `s` has no newline after it, or a comment was already open and `s` holds
      no newline. */
  lemma {:induction false} EndsInCommentIff(s: seq<char>, st: Scanner)
    requires !st.mode.Failed?
    ensures Run(s, st).mode == InComment <==>
      !Run(s, st).mode.Failed? && (DanglingComment(s) || (st.mode == InComment && '\n' !in s))
    decreases |s|
  {
    if s != [] {
      var next := Step(st, s[0]);
      if next.mode.Failed? {
        FailedIsFinal(s[1..], next);
      } else {
        EndsInCommentIff(s[1..], next);
        assert '\n' in s <==> s[0] == '\n' || '\n' in s[1..];
      }
    }
  }

  /** How `populateInventory` ends: with the unbalanced-`}` error exactly when the text
      with comments removed closes a block it never opened; never, exactly when that does
      not happen and a `#` comment is still open at end of input; and otherwise with
      success, whatever blocks are still open. */
  lemma ParseOutcomes(s: seq<char>, items: map<string, string>)
    ensures Parse(s, items).status.UnbalancedClose? <==> Underflows(Braces(s, false), 0)
    ensures Parse(s, items).status == NeverReturns <==>
      DanglingComment(s) && !Underflows(Braces(s, false), 0)
    ensures Parse(s, items).status == Finished ==>
      |Run(s, Start(items)).prefix| == Balance(Braces(s, false))
  {
    FailsIffUnderflow(s, Start(items));
    EndsInCommentIff(s, Start(items));
  }

  /** Lines are counted from 1 and never more than once per newline. */
  lemma {:induction false} LineNumberBounds(s: seq<char>, st: Scanner)
    requires st.mode.Failed? ==> st.mode.line == st.lineNo
    ensures st.lineNo <= Run(s, st).lineNo <= st.lineNo + Count(s, '\n')
    ensures Run(s, st).mode.Failed? ==> Run(s, st).mode.line == Run(s, st).lineNo
    decreases |s|
  {
    if s != [] {
      LineNumberBounds(s[1..], Step(st, s[0]));
    }
  }

  /** The line an unbalanced `}` reports is between 1 and one more than the number of
      newlines in the text. */
  lemma ReportedLineBound(s: seq<char>, items: map<string, string>)
    ensures Parse(s, items).status.UnbalancedClose? ==>
      1 <= Parse(s, items).status.line <= 1 + Count(s, '\n')
  {
    LineNumberBounds(s, Start(items));
  }

  // Effects of single runes and of short stretches of text, each stated for any text that
  // follows.

  /** Reading rune `c` and then `rest`. */
  lemma ReadOne(c: char, rest: seq<char>, st: Scanner)
    ensures Run([c] + rest, st) == Run(rest, Step(st, c))
  {
    assert ([c] + rest)[1..] == rest;
  }

  /** `{` pushes exactly one segment and clears both buffers. */
  lemma OpenPushes(rest: seq<char>, st: Scanner)
    requires st.mode == Dispatching
    ensures Run(['{'] + rest, st) ==
      Run(rest, st.(prefix := st.prefix + [Segment(st.cmd, st.value)], cmd := "", value := ""))
  {
    ReadOne('{', rest, st);
  }

  /** The segment is the command alone when no value was read; otherwise it is the command,
      a colon, and the value with every `/` turned into `:` and the spaces and tabs at either
      end dropped: the slice of the value that starts at `i` and leaves only blanks around it. */
  lemma SegmentShape(cmd: string, value: string) returns (i: nat)
    ensures value == "" ==> Segment(cmd, value) == cmd
    ensures value != "" ==>
      var seg := Segment(cmd, value);
      var tail := seg[|cmd| + 1..];
      |cmd| < |seg| && seg[..|cmd| + 1] == cmd + ":" && '/' !in tail &&
      (tail == [] || (tail[0] !in " \t" && tail[|tail| - 1] !in " \t"))
    ensures value != "" ==> KeptSlice(value, i, Segment(cmd, value)[|cmd| + 1..])
  {
    if value != "" {
      var replaced := ReplaceChar(value, '/', ':');
      var t := Trim(replaced, " \t");
      var seg := cmd + ":" + t;
      assert Segment(cmd, value) == seg;
      assert seg[|cmd| + 1..] == t;
      assert seg[..|cmd| + 1] == cmd + ":";
      NoSlashSurvivesTrim(replaced);
      i := TrimmedSlice(value);
    } else {
      i := 0;
    }
  }

  /** Where the trimmed, slash-replaced value lies in the value. */
  lemma TrimmedSlice(value: string) returns (i: nat)
    ensures KeptSlice(value, i, Trim(ReplaceChar(value, '/', ':'), " \t"))
  {
    var replaced := ReplaceChar(value, '/', ':');
    var t := Trim(replaced, " \t");
    i := TrimIsSlice(replaced, " \t");
    forall k | 0 <= k < i || i + |t| <= k < |value|
      ensures IsGap(value[k])
    {
      GapInCutset(replaced[k]);
    }
  }

  lemma GapInCutset(c: char)
    ensures c in " \t" <==> IsGap(c)
  {
  }

  /** `tail` is the slice of `value`, with `/` turned into `:`, that starts at `i`, and every
      rune of `value` outside that slice is a space or a tab. */
  predicate KeptSlice(value: string, i: nat, tail: string)
  {
    i + |tail| <= |value| && tail == ReplaceChar(value, '/', ':')[i..i + |tail|] &&
    (forall k :: 0 <= k < i ==> IsGap(value[k])) &&
    (forall k :: i + |tail| <= k < |value| ==> IsGap(value[k]))
  }

  /** Trimming a text without `/` leaves none. */
  lemma NoSlashSurvivesTrim(s: string)
    requires '/' !in s
    ensures '/' !in Trim(s, " \t")
  {
    var t := Trim(s, " \t");
    var i := TrimIsSlice(s, " \t");
    assert forall k :: 0 <= k < |t| ==> t[k] == s[i + k];
  }

  /** `Trim` drops trailing spaces and tabs from a text whose ends are not blank. */
  lemma TrimTrailingGaps(s: string, g: string)
    requires s != [] && s[0] !in " \t" && s[|s| - 1] !in " \t" && AllGap(g)
    ensures Trim(s + g, " \t") == s
  {
    assert TrimLeft(s + g, " \t") == s + g;
    TrimRightGaps(s, g);
  }

  /** `TrimRight` drops spaces and tabs after a text that does not end in one. */
  lemma {:induction false} TrimRightGaps(s: string, g: string)
    requires s != [] && s[|s| - 1] !in " \t" && AllGap(g)
    ensures TrimRight(s + g, " \t") == s
    decreases |g|
  {
    if g == [] {
      assert s + g == s;
    } else {
      var h := g[..|g| - 1];
      assert (s + g)[..|s + g| - 1] == s + h;
      TrimRightGaps(s, h);
    }
  }

  /** A block opened on a path `/p` (as in `location /status {`) is the segment `cmd::p`. */
  lemma PathSegment(cmd: string, p: string, g: string)
    requires p != [] && '/' !in p && p[|p| - 1] !in " \t" && AllGap(g)
    ensures Segment(cmd, "/" + p + g) == cmd + "::" + p
  {
    PathTrimmed(p, g);
    SegmentOfValue(cmd, "/" + p + g, ":" + p);
    assert cmd + ":" + (":" + p) == cmd + "::" + p;
  }

  /** What `{` trims out of a replaced path value: the path with its slash turned into `:`. */
  lemma PathTrimmed(p: string, g: string)
    requires p != [] && '/' !in p && p[|p| - 1] !in " \t" && AllGap(g)
    ensures Trim(ReplaceChar("/" + p + g, '/', ':'), " \t") == ":" + p
  {
    PathReplaced(p, g);
    TrimTrailingGaps(":" + p, g);
  }

  /** Replacing `/` by `:` in `/p` followed by gaps touches only the leading slash. */
  lemma PathReplaced(p: string, g: string)
    requires '/' !in p && AllGap(g)
    ensures ReplaceChar("/" + p + g, '/', ':') == ":" + p + g
  {
    ReplaceAppend("/" + p, g, '/', ':');
    ReplaceAppend("/", p, '/', ':');
    ReplaceAbsent(p, '/', ':');
    assert '/' !in g;
    ReplaceAbsent(g, '/', ':');
    assert ReplaceChar("/", '/', ':') == ":";
  }

  /** The segment of a nonempty value, given what trimming its replaced text leaves. */
  lemma SegmentOfValue(cmd: string, value: string, t: string)
    requires value != "" && Trim(ReplaceChar(value, '/', ':'), " \t") == t
    ensures Segment(cmd, value) == cmd + ":" + t
  { }

  /** `}` with no open block ends the call with that line's error and changes nothing else. */
  lemma CloseWithoutBlockFails(rest: seq<char>, st: Scanner)
    requires st.mode == Dispatching && st.prefix == []
    ensures Run(['}'] + rest, st) == st.(mode := Failed(st.lineNo))
    ensures Observe(Run(['}'] + rest, st)) == Outcome(UnbalancedClose(st.lineNo), st.items)
  {
    ReadOne('}', rest, st);
    FailedIsFinal(rest, st.(mode := Failed(st.lineNo)));
  }

  /** `}` with a block open pops exactly that segment; the buffers and items stay. */
  lemma ClosePops(rest: seq<char>, st: Scanner)
    requires st.mode == Dispatching && st.prefix != []
    ensures Run(['}'] + rest, st) == Run(rest, st.(prefix := st.prefix[..|st.prefix| - 1]))
  {
    ReadOne('}', rest, st);
  }

  /** `;` writes the slash-joined key of the open segments and the command, with the value
      as read; the stack stays and both buffers are cleared. */
  lemma SemicolonWrites(rest: seq<char>, st: Scanner)
    requires st.mode == Dispatching
    ensures Run([';'] + rest, st) ==
      Run(rest, st.(items := st.items[Join(st.prefix + [st.cmd], "/") := st.value], cmd := "", value := ""))
  {
    ReadOne(';', rest, st);
  }

  predicate IsGap(r: char) { r == ' ' || r == '\t' }

  /** A rune that the outer `switch` only appends to the value. */
  predicate IsPlain(r: char)
  {
    r != '{' && r != '}' && r != ';' && r != '\n' && r != '#' && r != ' ' && r != '\t'
  }

  predicate AllPlain(w: string) { forall i :: 0 <= i < |w| ==> IsPlain(w[i]) }

  predicate AllGap(w: string) { forall i :: 0 <= i < |w| ==> IsGap(w[i]) }

  predicate AllInline(w: string) { forall i :: 0 <= i < |w| ==> IsPlain(w[i]) || IsGap(w[i]) }

  predicate AllBlank(w: string) { forall i :: 0 <= i < |w| ==> IsBlank(w[i]) }

  /** Spaces and tabs read while the value is empty are ignored. */
  lemma {:induction false} GapsIgnoredWhileEmpty(g: string, rest: seq<char>, st: Scanner)
    requires st.mode == Dispatching && st.value == "" && AllGap(g)
    ensures Run(g + rest, st) == Run(rest, st)
    decreases |g|
  {
    if g == [] {
      assert g + rest == rest;
    } else {
      assert g + rest == [g[0]] + (g[1..] + rest);
      ReadOne(g[0], g[1..] + rest, st);
      GapsIgnoredWhileEmpty(g[1..], rest, st);
    }
  }

  /** A space or tab after the first token (no command yet) makes that token the command;
      the spaces and tabs after it are then ignored. */
  lemma GapEndsCommand(g: string, rest: seq<char>, st: Scanner)
    requires st.mode == Dispatching && st.cmd == "" && st.value != ""
    requires g != [] && AllGap(g)
    ensures Run(g + rest, st) == Run(rest, st.(cmd := st.value, value := ""))
  {
    assert g + rest == [g[0]] + (g[1..] + rest);
    ReadOne(g[0], g[1..] + rest, st);
    GapsIgnoredWhileEmpty(g[1..], rest, st.(cmd := st.value, value := ""));
  }

  /** A space or tab once both a command and a value have been read is kept in the value. */
  lemma GapKeptInValue(c: char, rest: seq<char>, st: Scanner)
    requires st.mode == Dispatching && st.cmd != "" && st.value != "" && IsGap(c)
    ensures Run([c] + rest, st) == Run(rest, st.(value := st.value + [c]))
  {
    assert c == ' ' || c == '\t';
    assert Step(st, c) == st.(value := st.value + [c]);
    ReadOne(c, rest, st);
  }

  /** Plain runes are appended to the value. */
  lemma {:induction false} PlainAppended(w: string, rest: seq<char>, st: Scanner)
    requires st.mode == Dispatching && AllPlain(w)
    ensures Run(w + rest, st) == Run(rest, st.(value := st.value + w))
    decreases |w|
  {
    if w == [] {
      assert w + rest == rest;
      assert st.value + w == st.value;
    } else {
      assert w + rest == [w[0]] + (w[1..] + rest);
      ReadOne(w[0], w[1..] + rest, st);
      PlainAppended(w[1..], rest, st.(value := st.value + [w[0]]));
      assert st.value + [w[0]] + w[1..] == st.value + w;
    }
  }

  /** Once a command and a value have been read, plain runes, spaces and tabs all go into
      the value: runs of whitespace inside a value are kept. */
  lemma {:induction false} InlineAppended(w: string, rest: seq<char>, st: Scanner)
    requires st.mode == Dispatching && st.cmd != "" && st.value != "" && AllInline(w)
    ensures Run(w + rest, st) == Run(rest, st.(value := st.value + w))
    decreases |w|
  {
    if w == [] {
      assert w + rest == rest;
      assert st.value + w == st.value;
    } else {
      assert w + rest == [w[0]] + (w[1..] + rest);
      ReadOne(w[0], w[1..] + rest, st);
      InlineAppended(w[1..], rest, st.(value := st.value + [w[0]]));
      assert st.value + [w[0]] + w[1..] == st.value + w;
    }
  }

  /** Blanks read by the inner loop after a newline change nothing. */
  lemma {:induction false} BlanksSwallowed(ind: string, rest: seq<char>, st: Scanner)
    requires st.mode == SkippingBlanks && AllBlank(ind)
    ensures Run(ind + rest, st) == Run(rest, st)
    decreases |ind|
  {
    if ind == [] {
      assert ind + rest == rest;
    } else {
      assert ind + rest == [ind[0]] + (ind[1..] + rest);
      ReadOne(ind[0], ind[1..] + rest, st);
      BlanksSwallowed(ind[1..], rest, st);
    }
  }

  /** A newline and the newlines, spaces and tabs right after it leave the buffers, the stack
      and the items alone and count one line. */
  lemma NewlineRun(ind: string, rest: seq<char>, st: Scanner)
    requires st.mode == Dispatching && AllBlank(ind)
    requires rest == [] || !IsBlank(rest[0])
    ensures Observe(Run(['\n'] + (ind + rest), st)) == Observe(Run(rest, st.(lineNo := st.lineNo + 1)))
    ensures rest != [] ==> Run(['\n'] + (ind + rest), st) == Run(rest, st.(lineNo := st.lineNo + 1))
  {
    var next := st.(lineNo := st.lineNo + 1);
    var skipping := next.(mode := SkippingBlanks);
    assert Step(st, '\n') == skipping;
    ReadOne('\n', ind + rest, st);
    BlanksSwallowed(ind, rest, skipping);
    if rest != [] {
      assert Step(skipping, rest[0]) == Step(next, rest[0]);
      assert Run(rest, skipping) == Run(rest[1..], Step(skipping, rest[0]));
      assert Run(rest, next) == Run(rest[1..], Step(next, rest[0]));
    } else {
      assert Run(rest, skipping) == skipping && Run(rest, next) == next;
    }
  }

  /** A `#` comment, up to and including its newline, changes nothing: that newline counts
      no line. */
  lemma CommentSkipped(body: string, rest: seq<char>, st: Scanner)
    requires st.mode == Dispatching && '\n' !in body
    ensures Run(['#'] + (body + (['\n'] + rest)), st) == Run(rest, st)
  {
    var text := ['#'] + (body + (['\n'] + rest));
    var inComment := st.(mode := InComment);
    assert text[1..] == body + (['\n'] + rest);
    ReadOne('#', text[1..], st);
    assert forall k :: 0 <= k < |body| ==> body[k] != '\n';
    SkippedComment(text, 1, |body| + 2, inComment);
    assert text[|body| + 2..] == rest;
  }

  // A line-level reading of configuration text, proved to agree with the rune loop.

  /** `n` copies of `c`. */
  function Repeat(c: char, n: nat): (r: string)
    ensures |r| == n && forall i :: 0 <= i < n ==> r[i] == c
  {
    if n == 0 then "" else [c] + Repeat(c, n - 1)
  }

  /** A value written as consecutive pieces (words and the whitespace between them). */
  function Flat(pieces: seq<string>): string
  {
    if pieces == [] then "" else pieces[0] + Flat(pieces[1..])
  }

  /** The blank lines and the indentation after the newline that starts a line. */
  datatype Indent = Indent(blankLines: nat, spaces: nat)

  function IndentText(ind: Indent): string
  {
    Repeat('\n', ind.blankLines) + Repeat(' ', ind.spaces)
  }

  /** One line of configuration text: the newline that starts it, the blank lines and
      indentation after that newline, and its content. Commands are followed by `gap`
      spaces; values and comment bodies are given piece by piece. */
  datatype ConfigLine =
    | CommentLine(ind: Indent, body: seq<string>)
    | Directive(ind: Indent, cmd: string, gap: nat, val: seq<string>)
    | DirectiveStart(ind: Indent, cmd: string, gap: nat, val: seq<string>)
    | DirectiveMore(ind: Indent, val: seq<string>)
    | DirectiveEnd(ind: Indent, val: seq<string>)
    | BlockOpen(ind: Indent, cmd: string, gap: nat, val: seq<string>)
    | BlockClose(ind: Indent)

  /** The text of a line followed by `rest`. A line is `# body` with its newline,
      `cmd gap val;`, `cmd gap val` continued on later lines, `val` continuing it, `val;`
      ending it, `cmd gap val{`, or `}`. */
  function LineThen(line: ConfigLine, rest: string): string
  {
    ['\n'] + (IndentText(line.ind) +
      match line
      case CommentLine(_, body) => ['#'] + (Flat(body) + (['\n'] + rest))
      case Directive(_, cmd, gap, val) => cmd + (Repeat(' ', gap) + (Flat(val) + ([';'] + rest)))
      case DirectiveStart(_, cmd, gap, val) => cmd + (Repeat(' ', gap) + (Flat(val) + rest))
      case DirectiveMore(_, val) => Flat(val) + rest
      case DirectiveEnd(_, val) => Flat(val) + ([';'] + rest)
      case BlockOpen(_, cmd, gap, val) => cmd + (Repeat(' ', gap) + (Flat(val) + (['{'] + rest)))
      case BlockClose(_) => ['}'] + rest)
  }

  /** The text of a sequence of lines followed by `rest`. */
  function RenderThen(lines: seq<ConfigLine>, rest: string): string
  {
    if lines == [] then rest else LineThen(lines[0], RenderThen(lines[1..], rest))
  }

  /** The text of a sequence of lines. */
  function Render(lines: seq<ConfigLine>): string
  {
    RenderThen(lines, "")
  }

  /** Value pieces that are all nonempty and made of plain runes, spaces and tabs. */
  predicate IsPieces(val: seq<string>)
  {
    forall i :: 0 <= i < |val| ==> val[i] != [] && AllInline(val[i])
  }

  /** Value pieces that, when there are any, start with a plain rune. */
  predicate IsValue(val: seq<string>)
  {
    IsPieces(val) && (val != [] ==> IsPlain(val[0][0]))
  }

  /** The scanner state in which `line` reads as its kind says. */
  predicate Fits(line: ConfigLine, st: Scanner)
  {
    st.mode == Dispatching &&
    match line
    case CommentLine(_, body) => forall i :: 0 <= i < |body| ==> '\n' !in body[i]
    case Directive(_, cmd, gap, val) =>
      st.cmd == "" && st.value == "" && cmd != [] && AllPlain(cmd) && gap > 0 && IsValue(val)
    case DirectiveStart(_, cmd, gap, val) =>
      st.cmd == "" && st.value == "" && cmd != [] && AllPlain(cmd) && gap > 0 && IsValue(val) && val != []
    case DirectiveMore(_, val) => st.cmd != "" && st.value != "" && IsValue(val) && val != []
    case DirectiveEnd(_, val) => st.cmd != "" && st.value != "" && IsValue(val) && val != []
    case BlockOpen(_, cmd, gap, val) =>
      st.cmd == "" && st.value == "" && cmd != [] && AllPlain(cmd) && gap > 0 && IsValue(val)
    case BlockClose(_) => st.prefix != []
  }

  /** What reading a line that fits does: it counts one line and then writes an item,
      extends the value, opens or closes a block, or (a comment) nothing more. */
  function Apply(line: ConfigLine, st: Scanner): Scanner
  {
    var next := st.(lineNo := st.lineNo + 1);
    match line
    case CommentLine(_, _) => next
    case Directive(_, cmd, _, val) => next.(items := st.items[ItemKey(st.prefix, cmd) := Flat(val)])
    case DirectiveStart(_, cmd, _, val) => next.(cmd := cmd, value := Flat(val))
    case DirectiveMore(_, val) => next.(value := st.value + Flat(val))
    case DirectiveEnd(_, val) =>
      next.(items := st.items[ItemKey(st.prefix, st.cmd) := st.value + Flat(val)], cmd := "", value := "")
    case BlockOpen(_, cmd, _, val) => next.(prefix := st.prefix + [Segment(cmd, Flat(val))])
    case BlockClose(_) =>
      if st.prefix == [] then next else next.(prefix := st.prefix[..|st.prefix| - 1])
  }

  /** Indentation is blank and its text starts with no other rune. */
  lemma IndentIsBlank(ind: Indent)
    ensures AllBlank(IndentText(ind))
  {
    var t := IndentText(ind);
    assert forall i :: 0 <= i < |t| ==> t[i] == (if i < ind.blankLines then '\n' else ' ');
  }

  /** The pieces of a value flatten to one value that is inline and starts with a plain rune. */
  lemma {:induction false} FlatValue(val: seq<string>)
    requires IsPieces(val)
    ensures Flat(val) == [] <==> val == []
    ensures AllInline(Flat(val))
    ensures val != [] ==> Flat(val)[0] == val[0][0]
    decreases |val|
  {
    if val != [] {
      var tail := val[1..];
      assert forall i :: 0 <= i < |tail| ==> tail[i] == val[i + 1];
      FlatValue(tail);
      var f := Flat(val);
      assert f == val[0] + Flat(tail);
      assert forall i :: 0 <= i < |f| ==> f[i] == if i < |val[0]| then val[0][i] else Flat(tail)[i - |val[0]|];
    }
  }

  /** Pieces without a newline flatten to a text without one. */
  lemma {:induction false} FlatNoNewline(body: seq<string>)
    requires forall i :: 0 <= i < |body| ==> '\n' !in body[i]
    ensures '\n' !in Flat(body)
    decreases |body|
  {
    if body != [] {
      var tail := body[1..];
      assert forall i :: 0 <= i < |tail| ==> tail[i] == body[i + 1];
      FlatNoNewline(tail);
    }
  }

  /** Reading a command and the gap after it from empty buffers names the command. */
  lemma CommandRead(cmd: string, gap: string, rest: seq<char>, st: Scanner)
    requires st.mode == Dispatching && st.cmd == "" && st.value == ""
    requires cmd != [] && AllPlain(cmd) && gap != [] && AllGap(gap)
    ensures Run(cmd + (gap + rest), st) == Run(rest, st.(cmd := cmd))
  {
    PlainAppended(cmd, gap + rest, st);
    assert st.value + cmd == cmd;
    GapEndsCommand(gap, rest, st.(value := cmd));
  }

  /** Reading a value that starts with a plain rune, once a command is named, sets it. */
  lemma ValueRead(val: string, rest: seq<char>, st: Scanner)
    requires st.mode == Dispatching && st.cmd != "" && st.value == ""
    requires val == [] || (IsPlain(val[0]) && AllInline(val))
    ensures Run(val + rest, st) == Run(rest, st.(value := val))
  {
    if val == [] {
      assert val + rest == rest;
    } else {
      var c, w := val[0], val[1..];
      assert val + rest == [c] + (w + rest);
      ValueStarts(c, w + rest, st);
      InlineTail(val);
      InlineAppended(w, rest, st.(value := [c]));
      assert [c] + w == val;
    }
  }

  /** The first rune of a value, read once a command is named, starts the value. */
  lemma ValueStarts(c: char, rest: seq<char>, st: Scanner)
    requires st.mode == Dispatching && st.value == "" && IsPlain(c)
    ensures Run([c] + rest, st) == Run(rest, st.(value := [c]))
  {
    ReadOne(c, rest, st);
    FirstRuneStartsValue(st, c);
  }

  /** The runes after the first of an inline text are inline. */
  lemma InlineTail(w: string)
    requires w != [] && AllInline(w)
    ensures AllInline(w[1..])
  {
    assert forall i :: 0 <= i < |w| - 1 ==> w[1..][i] == w[i + 1];
  }

  /** A plain rune read with an empty value starts the value. */
  lemma FirstRuneStartsValue(st: Scanner, r: char)
    requires st.mode == Dispatching && st.value == "" && IsPlain(r)
    ensures Step(st, r) == st.(value := [r])
  {
    assert st.value + [r] == [r];
  }

  /** Reading a command, its gap and a value from empty buffers sets both buffers. */
  lemma HeadRead(cmd: string, gap: string, val: string, rest: seq<char>, st: Scanner)
    requires st.mode == Dispatching && st.cmd == "" && st.value == ""
    requires cmd != [] && AllPlain(cmd) && gap != [] && AllGap(gap)
    requires val == [] || (IsPlain(val[0]) && AllInline(val))
    ensures Run(cmd + (gap + (val + rest)), st) == Run(rest, st.(cmd := cmd, value := val))
  {
    CommandRead(cmd, gap, val + rest, st);
    ValueRead(val, rest, st.(cmd := cmd));
  }

  /** The line-level reading agrees with the rune loop on every line that fits. */
  lemma RunLine(line: ConfigLine, rest: seq<char>, st: Scanner)
    requires Fits(line, st)
    ensures Run(LineThen(line, rest), st) == Run(rest, Apply(line, st))
  {
    match line
    case CommentLine(ind, body) => CommentLineRead(ind, body, rest, st);
    case Directive(ind, cmd, gap, val) => DirectiveRead(ind, cmd, gap, val, rest, st);
    case DirectiveStart(ind, cmd, gap, val) => DirectiveStartRead(ind, cmd, gap, val, rest, st);
    case DirectiveMore(ind, val) => DirectiveMoreRead(ind, val, rest, st);
    case DirectiveEnd(ind, val) => DirectiveEndRead(ind, val, rest, st);
    case BlockOpen(ind, cmd, gap, val) => BlockOpenLineRead(ind, cmd, gap, val, rest, st);
    case BlockClose(ind) => BlockCloseLineRead(ind, rest, st);
  }

  lemma CommentLineRead(ind: Indent, body: seq<string>, rest: seq<char>, st: Scanner)
    requires Fits(CommentLine(ind, body), st)
    ensures Run(LineThen(CommentLine(ind, body), rest), st) == Run(rest, st.(lineNo := st.lineNo + 1))
  {
    IndentIsBlank(ind);
    FlatNoNewline(body);
    NewlineRun(IndentText(ind), ['#'] + (Flat(body) + (['\n'] + rest)), st);
    CommentSkipped(Flat(body), rest, st.(lineNo := st.lineNo + 1));
  }

  lemma DirectiveRead(ind: Indent, cmd: string, gap: nat, val: seq<string>, rest: seq<char>, st: Scanner)
    requires Fits(Directive(ind, cmd, gap, val), st)
    ensures Run(LineThen(Directive(ind, cmd, gap, val), rest), st)
         == Run(rest, st.(lineNo := st.lineNo + 1, items := st.items[ItemKey(st.prefix, cmd) := Flat(val)]))
  {
    var next := st.(lineNo := st.lineNo + 1);
    IndentIsBlank(ind);
    FlatValue(val);
    assert AllGap(Repeat(' ', gap));
    NewlineRun(IndentText(ind), cmd + (Repeat(' ', gap) + (Flat(val) + ([';'] + rest))), st);
    HeadRead(cmd, Repeat(' ', gap), Flat(val), [';'] + rest, next);
    SemicolonWrites(rest, next.(cmd := cmd, value := Flat(val)));
  }

  lemma DirectiveStartRead(ind: Indent, cmd: string, gap: nat, val: seq<string>, rest: seq<char>, st: Scanner)
    requires Fits(DirectiveStart(ind, cmd, gap, val), st)
    ensures Run(LineThen(DirectiveStart(ind, cmd, gap, val), rest), st)
         == Run(rest, st.(lineNo := st.lineNo + 1, cmd := cmd, value := Flat(val)))
  {
    IndentIsBlank(ind);
    FlatValue(val);
    assert AllGap(Repeat(' ', gap));
    NewlineRun(IndentText(ind), cmd + (Repeat(' ', gap) + (Flat(val) + rest)), st);
    HeadRead(cmd, Repeat(' ', gap), Flat(val), rest, st.(lineNo := st.lineNo + 1));
  }

  lemma DirectiveMoreRead(ind: Indent, val: seq<string>, rest: seq<char>, st: Scanner)
    requires Fits(DirectiveMore(ind, val), st)
    ensures Run(LineThen(DirectiveMore(ind, val), rest), st)
         == Run(rest, st.(lineNo := st.lineNo + 1, value := st.value + Flat(val)))
  {
    IndentIsBlank(ind);
    FlatValue(val);
    NewlineRun(IndentText(ind), Flat(val) + rest, st);
    InlineAppended(Flat(val), rest, st.(lineNo := st.lineNo + 1));
  }

  lemma DirectiveEndRead(ind: Indent, val: seq<string>, rest: seq<char>, st: Scanner)
    requires Fits(DirectiveEnd(ind, val), st)
    ensures Run(LineThen(DirectiveEnd(ind, val), rest), st)
         == Run(rest, st.(lineNo := st.lineNo + 1, cmd := "", value := "",
                          items := st.items[ItemKey(st.prefix, st.cmd) := st.value + Flat(val)]))
  {
    var next := st.(lineNo := st.lineNo + 1);
    IndentIsBlank(ind);
    FlatValue(val);
    NewlineRun(IndentText(ind), Flat(val) + ([';'] + rest), st);
    InlineAppended(Flat(val), [';'] + rest, next);
    SemicolonWrites(rest, next.(value := st.value + Flat(val)));
  }

  lemma BlockOpenLineRead(ind: Indent, cmd: string, gap: nat, val: seq<string>, rest: seq<char>, st: Scanner)
    requires Fits(BlockOpen(ind, cmd, gap, val), st)
    ensures Run(LineThen(BlockOpen(ind, cmd, gap, val), rest), st)
         == Run(rest, st.(lineNo := st.lineNo + 1, prefix := st.prefix + [Segment(cmd, Flat(val))]))
  {
    var next := st.(lineNo := st.lineNo + 1);
    IndentIsBlank(ind);
    FlatValue(val);
    assert AllGap(Repeat(' ', gap));
    NewlineRun(IndentText(ind), cmd + (Repeat(' ', gap) + (Flat(val) + (['{'] + rest))), st);
    HeadRead(cmd, Repeat(' ', gap), Flat(val), ['{'] + rest, next);
    OpenPushes(rest, next.(cmd := cmd, value := Flat(val)));
  }

  lemma BlockCloseLineRead(ind: Indent, rest: seq<char>, st: Scanner)
    requires Fits(BlockClose(ind), st)
    ensures Run(LineThen(BlockClose(ind), rest), st)
         == Run(rest, st.(lineNo := st.lineNo + 1, prefix := st.prefix[..|st.prefix| - 1]))
  {
    IndentIsBlank(ind);
    NewlineRun(IndentText(ind), ['}'] + rest, st);
    ClosePops(rest, st.(lineNo := st.lineNo + 1));
  }

  /** Rendering from line `k` on is line `k` followed by the rest. */
  lemma RenderFrom(lines: seq<ConfigLine>, k: nat, rest: string)
    requires k < |lines|
    ensures RenderThen(lines[k..], rest) == LineThen(lines[k], RenderThen(lines[k + 1..], rest))
  {
    assert lines[k..][1..] == lines[k + 1..];
  }
}
