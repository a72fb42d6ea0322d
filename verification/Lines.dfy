/** How the diff splits a text into lines. */
module Lines {
  import opened Text

  function StripCr(l: string): string {
    if EndsWith(l, '\r') then l[..|l| - 1] else l
  }

  function StripAll(lines: seq<string>): (r: seq<string>)
    ensures |r| == |lines|
    ensures forall k :: 0 <= k < |lines| ==> r[k] == StripCr(lines[k])
  {
    seq(|lines|, k requires 0 <= k < |lines| => StripCr(lines[k]))
  }

  lemma {:induction false} StripNothing(l: string)
    requires '\r' !in l
    ensures StripCr(l) == l
  {
    assert |l| > 0 ==> l[|l| - 1] in l;
  }

  /** The lines of a text: a final newline ends the last line instead of starting one more, and
      one carriage return per line is dropped. */
  function LinesOf(s: string): seq<string> {
    if s == "" then []
    else
      var all := Split(s);
      var lines := if EndsWith(s, '\n') then all[..|all| - 1] else all;
      StripAll(lines)
  }

  method SplitLines(s: string) returns (lines: seq<string>)
    ensures lines == LinesOf(s)
  {
    if s == "" {
      return [];
    }
    lines := Split(s);
    if EndsWith(s, '\n') {
      lines := lines[..|lines| - 1];
    }
    ghost var was := lines;
    SplitHoldsNoNew(s, '\r');
    if '\r' in s {
      for i := 0 to |lines|
        invariant |lines| == |was|
        invariant forall k :: 0 <= k < i ==> lines[k] == StripCr(was[k])
        invariant forall k :: i <= k < |was| ==> lines[k] == was[k]
      {
        var l := lines[i];
        if EndsWith(l, '\r') {
          lines := lines[i := l[..|l| - 1]];
        }
      }
    } else {
      forall k | 0 <= k < |lines| ensures StripCr(lines[k]) == lines[k] {
        StripNothing(lines[k]);
      }
    }
  }

  /** Splitting makes no character up. */
  lemma {:induction false} SplitHoldsNoNew(s: string, c: char)
    ensures c !in s ==> forall k :: 0 <= k < |Split(s)| ==> c !in Split(s)[k]
  {
    if s != "" {
      SplitHoldsNoNew(s[1..], c);
    }
  }

  /** A change that only adds the final newline is invisible, except to an empty file. */
  lemma {:induction false} FinalNewlineInvisible(s: string)
    requires !EndsWith(s, '\n')
    ensures LinesOf(s + "\n") == LinesOf(s) <==> s != ""
  {
    SplitTerminated(s);
    assert Split(s) + [""] != [""] && (Split(s) + [""])[..|Split(s)|] == Split(s);
  }

  /** Short of carriage returns, that newline is all the split loses. */
  lemma {:induction false} LinesOfLoses(s: string)
    requires '\r' !in s
    ensures s == Join(LinesOf(s)) || s == Join(LinesOf(s)) + "\n"
  {
    if s != "" {
      JoinSplit(s);
      SplitHoldsNoNew(s, '\r');
      var all := Split(s);
      forall k | 0 <= k < |all| ensures StripCr(all[k]) == all[k] {
        StripNothing(all[k]);
      }
      if EndsWith(s, '\n') {
        var t := s[..|s| - 1];
        assert t + "\n" == s;
        SplitTerminated(t);
        JoinSplit(t);
        assert LinesOf(s) == Split(t);
      } else {
        assert LinesOf(s) == all;
      }
    }
  }

  /** The same text with every newline written as a carriage return and a newline. */
  function Crlf(s: string): string {
    if s == "" then "" else (if s[0] == '\n' then "\r\n" else [s[0]]) + Crlf(s[1..])
  }

  /** Some newline has its carriage return already. */
  predicate HoldsCrlf(s: string) {
    exists k :: 0 <= k < |s| - 1 && s[k] == '\r' && s[k + 1] == '\n'
  }

  /** Rewriting a file's line endings does not touch its lines, exactly when no newline has a carriage
      return in front of it already: of two in a row only one is dropped. */
  lemma {:induction false} CrlfInvisibleIff(s: string)
    ensures LinesOf(Crlf(s)) == LinesOf(s) <==> !HoldsCrlf(s)
  {
    if s != "" {
      hide Crlf, Split, HoldsCrlf;
      SplitCrlf(s);
      CrlfEnds(s);
      EndsInCr(s);
      LinewiseStrips(Split(s), Split(Crlf(s)));
    }
  }

  /** Some line but the last ends in a carriage return. */
  predicate CrBeforeLast(p: seq<string>) {
    exists k :: 0 <= k < |p| - 1 && EndsWith(p[k], '\r')
  }

  lemma {:induction false} EndsInCr(s: string)
    ensures HoldsCrlf(s) <==> CrBeforeLast(Split(s))
  {
    if s != "" {
      EndsInCr(s[1..]);
      FirstEmpty(s[1..]);
      HoldsCrlfRest(s);
      var p, rest := Split(s), Split(s[1..]);
      if s[0] == '\n' {
        CrBeforeLastTail(p);
        assert p[1..] == rest;
      } else {
        CrBeforeLastTail(p);
        CrBeforeLastTail(rest);
        assert p[1..] == rest[1..];
        assert EndsWith(p[0], '\r') <==> if rest[0] == "" then s[0] == '\r' else EndsWith(rest[0], '\r');
      }
    }
  }

  lemma {:induction false} FirstEmpty(s: string)
    ensures |Split(s)| > 1 && Split(s)[0] == "" <==> s != "" && s[0] == '\n'
  {
  }

  lemma {:induction false} HoldsCrlfRest(s: string)
    requires s != ""
    ensures HoldsCrlf(s) <==> (|s| > 1 && s[0] == '\r' && s[1] == '\n') || HoldsCrlf(s[1..])
  {
    if k :| 0 <= k < |s[1..]| - 1 && s[1..][k] == '\r' && s[1..][k + 1] == '\n' {
      assert s[k + 1] == '\r' && s[k + 1 + 1] == '\n';
    }
    if k :| 0 < k < |s| - 1 && s[k] == '\r' && s[k + 1] == '\n' {
      assert s[1..][k - 1] == '\r' && s[1..][k - 1 + 1] == '\n';
    }
  }

  lemma {:induction false} CrBeforeLastTail(p: seq<string>)
    requires p != []
    ensures CrBeforeLast(p) <==> (|p| > 1 && EndsWith(p[0], '\r')) || CrBeforeLast(p[1..])
  {
    if k :| 0 <= k < |p[1..]| - 1 && EndsWith(p[1..][k], '\r') {
      assert EndsWith(p[k + 1], '\r');
    }
    if k :| 0 < k < |p| - 1 && EndsWith(p[k], '\r') {
      assert EndsWith(p[1..][k - 1], '\r');
    }
  }

  lemma {:induction false} CrlfEnds(s: string)
    requires s != ""
    ensures Crlf(s) != "" && EndsWith(Crlf(s), '\n') == EndsWith(s, '\n')
  {
    if |s| > 1 {
      CrlfEnds(s[1..]);
    } else {
      assert s == [s[0]] && s[1..] == "";
    }
  }

  /** `q` is `p` with a carriage return after every line but the last. */
  ghost predicate Linewise(p: seq<string>, q: seq<string>) {
    && |p| > 0 && |q| == |p| && q[|p| - 1] == p[|p| - 1]
    && (forall k :: 0 <= k < |p| - 1 ==> q[k] == p[k] + "\r")
  }

  /** Dropping one carriage return a line undoes that, exactly on the lines that had none. */
  lemma {:induction false} LinewiseStrips(p: seq<string>, q: seq<string>)
    requires Linewise(p, q)
    ensures StripAll(q) == StripAll(p) <==> !CrBeforeLast(p)
    ensures StripAll(q[..|q| - 1]) == StripAll(p[..|p| - 1]) <==> !CrBeforeLast(p)
  {
    hide StripAll, StripCr;
    var m := |p| - 1;
    var all, all', most, most' := StripAll(p), StripAll(q), StripAll(p[..m]), StripAll(q[..m]);
    forall k | 0 <= k < m ensures all'[k] == most'[k] == p[k] && all[k] == most[k] == StripCr(p[k]) {
      StripsBack(p[k]);
    }
    if k :| 0 <= k < m && EndsWith(p[k], '\r') {
      StripsBack(p[k]);
      assert all'[k] != all[k] && most'[k] != most[k];
    } else {
      forall k | 0 <= k < m ensures all'[k] == all[k] {
        StripsBack(p[k]);
      }
      assert all' == all && most' == most;
    }
  }

  lemma {:induction false} StripsBack(l: string)
    ensures StripCr(l + "\r") == l && (StripCr(l) == l <==> !EndsWith(l, '\r'))
  {
    assert (l + "\r")[..|l|] == l;
  }

  lemma {:induction false} SplitCrlf(s: string)
    ensures Linewise(Split(s), Split(Crlf(s)))
  {
    if s != "" {
      hide Linewise;
      SplitCrlf(s[1..]);
      var p, q := Split(s[1..]), Split(Crlf(s[1..]));
      if s[0] == '\n' {
        SplitAfterLine("\r", Crlf(s[1..]));
        assert "\r" + "\n" + Crlf(s[1..]) == Crlf(s);
        LinewiseBreak(p, q);
      } else {
        assert Crlf(s)[1..] == Crlf(s[1..]);
        LinewiseCons(s[0], p, q);
      }
    }
  }

  lemma {:induction false} LinewiseBreak(p: seq<string>, q: seq<string>)
    requires Linewise(p, q)
    ensures Linewise([""] + p, ["\r"] + q)
  {
    assert "" + "\r" == "\r";
  }

  lemma {:induction false} LinewiseCons(c: char, p: seq<string>, q: seq<string>)
    requires Linewise(p, q)
    ensures Linewise([[c] + p[0]] + p[1..], [[c] + q[0]] + q[1..])
  {
    assert [c] + (p[0] + "\r") == ([c] + p[0]) + "\r";
  }
}
