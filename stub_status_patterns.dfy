/** What the hand-written matcher of the status lines means, stated without it: a pattern
    matches a text when the text begins with a split into the pattern's literals, runs of `\s`
    and runs of `\d`. `MatchAt` finds exactly the match whose runs are all maximal, and for
    the three status patterns it finds one whenever any match exists; `Find` reports the
    match at the leftmost position where there is one. */
module StubStatusPatterns {
  import opened Common
  import opened Text
  import opened StubStatus

  predicate AllSpaces(w: string) { forall i :: 0 <= i < |w| ==> IsSpace(w[i]) }

  /** `p` matches a prefix of `s`, with `caps` the digits each `\d+` group took. */
  predicate Matches(p: Pattern, s: string, caps: seq<Capture>)
    decreases |p|
  {
    if p == [] then caps == []
    else match p[0]
      case Lit(t) => HasPrefix(s, t) && Matches(p[1..], s[|t|..], caps)
      case Spaces(one) =>
        exists n :: (if one then 1 else 0) <= n <= |s| && AllSpaces(s[..n]) && Matches(p[1..], s[n..], caps)
      case Digits(name) =>
        caps != [] && caps[0].name == name && caps[0].digits != [] && AllDigits(caps[0].digits) &&
        HasPrefix(s, caps[0].digits) && Matches(p[1..], s[|caps[0].digits|..], caps[1..])
  }

  /** A match in which every run of `\s` and every `\d+` group takes all the runes of its
      class that follow, as a greedy quantifier prefers. */
  predicate Greedy(p: Pattern, s: string, caps: seq<Capture>)
    decreases |p|
  {
    if p == [] then caps == []
    else match p[0]
      case Lit(t) => HasPrefix(s, t) && Greedy(p[1..], s[|t|..], caps)
      case Spaces(one) =>
        exists n :: (if one then 1 else 0) <= n <= |s| && AllSpaces(s[..n]) &&
          (n == |s| || !IsSpace(s[n])) && Greedy(p[1..], s[n..], caps)
      case Digits(name) =>
        caps != [] && caps[0].name == name && caps[0].digits != [] && AllDigits(caps[0].digits) &&
        HasPrefix(s, caps[0].digits) &&
        (|caps[0].digits| == |s| || !IsDigit(s[|caps[0].digits|])) &&
        Greedy(p[1..], s[|caps[0].digits|..], caps[1..])
  }

  /** A maximal run of spaces at the start of `s` is the one `SpanSpaces` measures. */
  lemma SpacesRunUnique(s: string, n: nat)
    requires n <= |s| && AllSpaces(s[..n]) && (n == |s| || !IsSpace(s[n]))
    ensures SpanSpaces(s) == n
  {
    assert forall i :: 0 <= i < n ==> s[..n][i] == s[i];
  }

  /** A maximal run of digits at the start of `s` is the one `SpanDigits` measures. */
  lemma DigitsRunUnique(s: string, d: string)
    requires AllDigits(d) && HasPrefix(s, d) && (|d| == |s| || !IsDigit(s[|d|]))
    ensures SpanDigits(s) == |d| && s[..|d|] == d
  {
    var m := SpanDigits(s);
    assert forall i :: 0 <= i < m ==> s[..m][i] == s[i];
    assert forall i :: 0 <= i < |d| ==> s[i] == d[i];
  }

  /** A run of spaces at the start of `s` is no longer than the one `SpanSpaces` measures. */
  lemma SpacesRunBound(s: string, n: nat)
    requires n <= |s| && AllSpaces(s[..n])
    ensures n <= SpanSpaces(s)
  {
    assert forall i :: 0 <= i < n ==> s[..n][i] == s[i];
  }

  /** A run of digits at the start of `s` is no longer than the one `SpanDigits` measures. */
  lemma DigitsRunBound(s: string, d: string)
    requires AllDigits(d) && HasPrefix(s, d)
    ensures |d| <= SpanDigits(s)
  {
    assert forall i :: 0 <= i < |d| ==> s[i] == d[i];
  }

  /** `MatchAt` succeeds exactly with the greedy match: what it returns is one, and any
      greedy match is what it returns. */
  lemma {:induction false} MatchAtIsGreedy(p: Pattern, s: string)
    ensures MatchAt(p, s).Some? ==> Greedy(p, s, MatchAt(p, s).value)
    ensures forall caps :: Greedy(p, s, caps) ==> MatchAt(p, s) == Some(caps)
    decreases |p|
  {
    if p != [] {
      match p[0]
      case Lit(t) =>
        if HasPrefix(s, t) {
          MatchAtIsGreedy(p[1..], s[|t|..]);
        }
      case Spaces(one) =>
        var n := SpanSpaces(s);
        MatchAtIsGreedy(p[1..], s[n..]);
        assert AllSpaces(s[..n]);
        forall caps: seq<Capture> | Greedy(p, s, caps)
          ensures MatchAt(p, s) == Some(caps)
        {
          var k :| (if one then 1 else 0) <= k <= |s| && AllSpaces(s[..k]) &&
            (k == |s| || !IsSpace(s[k])) && Greedy(p[1..], s[k..], caps);
          SpacesRunUnique(s, k);
        }
      case Digits(name) =>
        var n := SpanDigits(s);
        if n > 0 {
          MatchAtIsGreedy(p[1..], s[n..]);
        }
        forall caps: seq<Capture> | Greedy(p, s, caps)
          ensures MatchAt(p, s) == Some(caps)
        {
          var d := caps[0].digits;
          DigitsRunUnique(s, d);
          assert MatchAt(p[1..], s[n..]) == Some(caps[1..]);
          assert caps[0] == Capture(name, s[..n]);
          assert caps == [Capture(name, s[..n])] + caps[1..];
        }
    }
  }

  /** There is at most one greedy match. */
  lemma GreedyUnique(p: Pattern, s: string, c1: seq<Capture>, c2: seq<Capture>)
    requires Greedy(p, s, c1) && Greedy(p, s, c2)
    ensures c1 == c2
  {
    MatchAtIsGreedy(p, s);
  }

  /** A greedy match is a match. */
  lemma {:induction false} GreedyIsMatch(p: Pattern, s: string, caps: seq<Capture>)
    requires Greedy(p, s, caps)
    ensures Matches(p, s, caps)
    decreases |p|
  {
    if p != [] {
      match p[0]
      case Lit(t) =>
        GreedyIsMatch(p[1..], s[|t|..], caps);
      case Spaces(one) =>
        var n :| (if one then 1 else 0) <= n <= |s| && AllSpaces(s[..n]) &&
          (n == |s| || !IsSpace(s[n])) && Greedy(p[1..], s[n..], caps);
        GreedyIsMatch(p[1..], s[n..], caps);
      case Digits(name) =>
        GreedyIsMatch(p[1..], s[|caps[0].digits|..], caps[1..]);
    }
  }

  /** Every match of `b` starts with a rune that is not `\s`. */
  predicate SpaceFree(b: Token)
  {
    b.Digits? || (b.Lit? && b.text != [] && !IsSpace(b.text[0]))
  }

  /** Every match of `b` starts with a rune that is not `\d`. */
  predicate DigitFree(b: Token)
  {
    (b.Spaces? && b.atLeastOne) || (b.Lit? && b.text != [] && !IsDigit(b.text[0]))
  }

  /** Each run of `\s` is followed by a token that cannot start with `\s`, and each `\d+`
      group by one that cannot start with `\d`: a match can then end a run only where the
      runes of its class end. */
  predicate Separated(p: Pattern)
  {
    forall i :: 0 <= i < |p| - 1 ==>
      (p[i].Spaces? ==> SpaceFree(p[i + 1])) && (p[i].Digits? ==> DigitFree(p[i + 1]))
  }

  lemma SeparatedTail(p: Pattern)
    requires p != [] && Separated(p)
    ensures Separated(p[1..])
  {
    forall i | 0 <= i < |p[1..]| - 1
      ensures (p[1..][i].Spaces? ==> SpaceFree(p[1..][i + 1])) &&
              (p[1..][i].Digits? ==> DigitFree(p[1..][i + 1]))
    {
      assert p[1..][i] == p[i + 1] && p[1..][i + 1] == p[i + 2];
    }
  }

  /** The first rune of a match. */
  lemma MatchStart(p: Pattern, s: string, caps: seq<Capture>)
    requires p != [] && Matches(p, s, caps)
    ensures SpaceFree(p[0]) ==> s != [] && !IsSpace(s[0])
    ensures DigitFree(p[0]) ==> s != [] && !IsDigit(s[0])
  {
    match p[0]
    case Lit(t) =>
      if t != [] {
        assert s[0] == s[..|t|][0];
      }
    case Spaces(one) =>
      if one {
        var n :| 1 <= n <= |s| && AllSpaces(s[..n]) && Matches(p[1..], s[n..], caps);
        assert s[0] == s[..n][0];
      }
    case Digits(name) =>
      assert s[0] == s[..|caps[0].digits|][0];
  }

  /** For a separated pattern, `MatchAt` fails only where no match exists. */
  lemma {:induction false} MatchComplete(p: Pattern, s: string, caps: seq<Capture>)
    requires Separated(p) && Matches(p, s, caps)
    ensures MatchAt(p, s).Some?
    decreases |p|
  {
    if p != [] {
      SeparatedTail(p);
      match p[0]
      case Lit(t) =>
        MatchComplete(p[1..], s[|t|..], caps);
      case Spaces(one) =>
        var n :| (if one then 1 else 0) <= n <= |s| && AllSpaces(s[..n]) && Matches(p[1..], s[n..], caps);
        if p[1..] != [] {
          assert p[1..][0] == p[1];
          MatchStart(p[1..], s[n..], caps);
          assert s[n..][0] == s[n];
          SpacesRunUnique(s, n);
          MatchComplete(p[1..], s[n..], caps);
        } else {
          SpacesRunBound(s, n);
        }
      case Digits(name) =>
        var d := caps[0].digits;
        if p[1..] != [] {
          assert p[1..][0] == p[1];
          MatchStart(p[1..], s[|d|..], caps[1..]);
          assert s[|d|..][0] == s[|d|];
          DigitsRunUnique(s, d);
          MatchComplete(p[1..], s[|d|..], caps[1..]);
        } else {
          DigitsRunBound(s, d);
        }
    }
  }

  /** The pattern of the first status line is separated. */
  lemma ActiveSeparated()
    ensures Separated(ActiveExpression)
  {
  }

  /** The pattern of the third status line is separated. */
  lemma ServerSeparated()
    ensures Separated(ServerExpression)
  {
  }

  /** The pattern of the fourth status line is separated: each `\d+` group is followed by
      `\s+` or by the end, and each `\s+` by a literal that starts with a letter. */
  lemma ConnectionsSeparated()
    ensures Separated(ConnectionsExpression)
  {
    var p := ConnectionsExpression;
    assert !IsSpace('W');
    forall i | 0 <= i < |p| - 1
      ensures (p[i].Spaces? ==> SpaceFree(p[i + 1])) && (p[i].Digits? ==> DigitFree(p[i + 1]))
    {
    }
  }

  /** `Find` reports the match at the leftmost position where `MatchAt` succeeds, and nothing
      exactly when it succeeds at no position. */
  lemma {:induction false} FindLeftmost(p: Pattern, s: string)
    ensures Find(p, s).None? <==> forall i :: 0 <= i <= |s| ==> MatchAt(p, s[i..]).None?
    ensures Find(p, s).Some? ==>
      exists i :: 0 <= i <= |s| && Find(p, s) == MatchAt(p, s[i..]) &&
                  (forall j :: 0 <= j < i ==> MatchAt(p, s[j..]).None?)
    decreases |s|
  {
    assert s[0..] == s;
    if MatchAt(p, s).None? && s != [] {
      FindLeftmost(p, s[1..]);
      forall i | 1 <= i <= |s|
        ensures s[1..][i - 1..] == s[i..]
      {
      }
      if Find(p, s).Some? {
        var k :| 0 <= k <= |s[1..]| && Find(p, s[1..]) == MatchAt(p, s[1..][k..]) &&
          forall j :: 0 <= j < k ==> MatchAt(p, s[1..][j..]).None?;
        assert Find(p, s) == MatchAt(p, s[k + 1..]);
        forall j | 0 <= j < k + 1
          ensures MatchAt(p, s[j..]).None?
        {
          if j > 0 {
            assert s[j..] == s[1..][j - 1..];
          }
        }
      }
    }
  }

  /** The pattern matches a prefix of `s`, with some captures. */
  ghost predicate MatchesHere(p: Pattern, s: string) {
    exists caps :: Matches(p, s, caps)
  }

  /** For a separated pattern, `MatchAt` succeeds exactly where the pattern matches. */
  lemma MatchAtMeaning(p: Pattern, s: string)
    requires Separated(p)
    ensures MatchAt(p, s).Some? <==> MatchesHere(p, s)
  {
    if MatchAt(p, s).Some? {
      var caps := MatchAt(p, s).value;
      MatchAtIsGreedy(p, s);
      GreedyIsMatch(p, s, caps);
      assert Matches(p, s, caps);
    }
    if MatchesHere(p, s) {
      var caps :| Matches(p, s, caps);
      MatchComplete(p, s, caps);
    }
  }

  /** `MatchAtMeaning` at every position of the line. */
  lemma PositionsMeaning(p: Pattern, line: string)
    requires Separated(p)
    ensures forall i :: 0 <= i <= |line| ==> (MatchAt(p, line[i..]).Some? <==> MatchesHere(p, line[i..]))
  {
    forall i | 0 <= i <= |line|
      ensures MatchAt(p, line[i..]).Some? <==> MatchesHere(p, line[i..])
    {
      MatchAtMeaning(p, line[i..]);
    }
  }

  /** What `re.FindStringSubmatch` reports for a separated pattern, stated without the
      matcher: nothing exactly when the pattern matches at no position of the line;
      otherwise the greedy match at the leftmost position where the pattern matches. */
  lemma FindMeaning(p: Pattern, line: string)
    requires Separated(p)
    ensures Find(p, line).None? <==> forall i :: 0 <= i <= |line| ==> !MatchesHere(p, line[i..])
    ensures Find(p, line).Some? ==>
      exists i :: 0 <= i <= |line| && Greedy(p, line[i..], Find(p, line).value) &&
                  (forall j :: 0 <= j < i ==> !MatchesHere(p, line[j..]))
  {
    FindLeftmost(p, line);
    PositionsMeaning(p, line);
    if Find(p, line).Some? {
      var i :| 0 <= i <= |line| && Find(p, line) == MatchAt(p, line[i..]) &&
        forall j :: 0 <= j < i ==> MatchAt(p, line[j..]).None?;
      MatchAtIsGreedy(p, line[i..]);
      assert Greedy(p, line[i..], Find(p, line).value);
    }
  }

  /** The patterns of the four status lines are separated. */
  lemma StatusExpressionSeparated(lineNo: nat)
    requires lineNo < 4 && StatusExpression(lineNo).Some?
    ensures Separated(StatusExpression(lineNo).value)
  {
    if lineNo == 0 {
      ActiveSeparated();
    } else if lineNo == 2 {
      ServerSeparated();
    } else {
      ConnectionsSeparated();
    }
  }

  /** The lines of the status page are read with the greedy leftmost match of their
      pattern, and a line fails exactly when its pattern matches nowhere in it. */
  lemma StatusLineMatch(lineNo: nat, line: string)
    requires lineNo < 4 && StatusExpression(lineNo).Some?
    ensures var p := StatusExpression(lineNo).value;
      Find(p, line).None? <==> forall i :: 0 <= i <= |line| ==> !MatchesHere(p, line[i..])
    ensures var p := StatusExpression(lineNo).value;
      Find(p, line).Some? ==>
        exists i :: 0 <= i <= |line| && Greedy(p, line[i..], Find(p, line).value) &&
                    (forall j :: 0 <= j < i ==> !MatchesHere(p, line[j..]))
  {
    StatusExpressionSeparated(lineNo);
    FindMeaning(StatusExpression(lineNo).value, line);
  }
}
