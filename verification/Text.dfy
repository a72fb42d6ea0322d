/** The JavaScript string operations the diff and the conflict parser are built from:
    splitting on a newline, joining, and white-space folding.  A `char` stands for one
    UTF-16 code unit. */
module Text {

  predicate EndsWith(s: string, c: char) {
    |s| > 0 && s[|s| - 1] == c
  }

  /** `s.split("\n")`: never empty, and the pieces hold no newline. */
  function Split(s: string): (r: seq<string>)
    ensures |r| >= 1
    ensures forall k :: 0 <= k < |r| ==> '\n' !in r[k]
  {
    if s == "" then [""]
    else
      var rest := Split(s[1..]);
      if s[0] == '\n' then [""] + rest else [[s[0]] + rest[0]] + rest[1..]
  }

  /** `lines.join("\n")`. */
  function Join(lines: seq<string>): string {
    if lines == [] then ""
    else if |lines| == 1 then lines[0]
    else lines[0] + "\n" + Join(lines[1..])
  }

  /** Joining what was split gives the text back. */
  lemma {:induction false} JoinSplit(s: string)
    ensures Join(Split(s)) == s
  {
    if s != "" {
      JoinSplit(s[1..]);
      var rest := Split(s[1..]);
      if s[0] == '\n' {
        assert Split(s)[1..] == rest;
      } else {
        assert Split(s)[1..] == rest[1..];
      }
    }
  }

  /** Splitting what was joined gives the lines back, when no line holds a newline. */
  lemma {:induction false} SplitJoin(lines: seq<string>)
    requires lines != [] && forall k :: 0 <= k < |lines| ==> '\n' !in lines[k]
    ensures Split(Join(lines)) == lines
  {
    if |lines| == 1 {
      SplitPlain(lines[0]);
    } else {
      SplitJoin(lines[1..]);
      SplitAfterLine(lines[0], Join(lines[1..]));
      assert Join(lines) == lines[0] + "\n" + Join(lines[1..]);
    }
  }

  lemma {:induction false} SplitPlain(s: string)
    requires '\n' !in s
    ensures Split(s) == [s]
  {
    if s != "" {
      assert s[0] in s;
      SplitPlain(s[1..]);
      assert [s[0]] + s[1..] == s;
    }
  }

  lemma {:induction false} SplitAfterLine(line: string, rest: string)
    requires '\n' !in line
    ensures Split(line + "\n" + rest) == [line] + Split(rest)
  {
    var s := line + "\n" + rest;
    if line == "" {
      assert s[1..] == rest;
    } else {
      assert line[0] in line;
      SplitAfterLine(line[1..], rest);
      assert s[1..] == line[1..] + "\n" + rest;
      assert [s[0]] + line[1..] == line;
      assert ([line[1..]] + Split(rest))[1..] == Split(rest);
    }
  }

  /** A final newline only adds an empty last piece. */
  lemma {:induction false} SplitTerminated(s: string)
    ensures Split(s + "\n") == Split(s) + [""]
  {
    if s == "" {
      assert s + "\n" == "\n" && "\n"[1..] == "";
    } else {
      SplitTerminated(s[1..]);
      assert (s + "\n")[1..] == s[1..] + "\n";
    }
  }

  /** The characters JavaScript's `\s` matches and `trim` strips. */
  predicate IsSpace(c: char) {
    || '\t' <= c <= '\r' || c == ' ' || c == '\U{A0}' || c == '\U{1680}' || '\U{2000}' <= c <= '\U{200A}'
    || c == '\U{2028}' || c == '\U{2029}' || c == '\U{202F}' || c == '\U{205F}' || c == '\U{3000}' || c == '\U{FEFF}'
  }

  /** The white space of ECMA-262, as code units. */
  lemma {:induction false} SpaceIs(c: char)
    ensures IsSpace(c) <==> c as int in {9, 10, 11, 12, 13, 32, 160, 5760, 8192, 8193, 8194, 8195, 8196, 8197,
                                         8198, 8199, 8200, 8201, 8202, 8232, 8233, 8239, 8287, 12288, 65279}
  {
  }

  function TrimStart(s: string): (r: string)
    ensures r == "" || !IsSpace(r[0])
    ensures |r| <= |s| && r == s[|s| - |r|..]
  {
    if s != "" && IsSpace(s[0]) then TrimStart(s[1..]) else s
  }

  function TrimEnd(s: string): (r: string)
    ensures r == "" || !IsSpace(r[|r| - 1])
    ensures r <= s
  {
    if s != "" && IsSpace(s[|s| - 1]) then TrimEnd(s[..|s| - 1]) else s
  }

  function Trim(s: string): string {
    TrimEnd(TrimStart(s))
  }

  predicate Blank(s: string) {
    forall k :: 0 <= k < |s| ==> IsSpace(s[k])
  }

  /** `trim` empties exactly the blank strings. */
  lemma {:induction false} TrimEmptyIffBlank(s: string)
    ensures Trim(s) == "" <==> Blank(s)
  {
    hide TrimStart, TrimEnd, IsSpace;
    TrimStartEmpty(s);
    TrimEndEmpty(TrimStart(s));
    assert TrimStart(s) != "" ==> !Blank(TrimStart(s));
  }

  lemma {:induction false} TrimStartEmpty(s: string)
    ensures TrimStart(s) == "" <==> Blank(s)
  {
    hide IsSpace;
    if s != "" {
      TrimStartEmpty(s[1..]);
      BlankCons(s[0], s[1..]);
      assert s == [s[0]] + s[1..];
    }
  }

  lemma {:induction false} TrimEndEmpty(s: string)
    ensures TrimEnd(s) == "" <==> Blank(s)
  {
    hide IsSpace;
    if s != "" {
      var init, last := s[..|s| - 1], s[|s| - 1];
      TrimEndEmpty(init);
      BlankSnoc(init, last);
      assert s == init + [last];
    }
  }

  lemma {:induction false} BlankCons(c: char, s: string)
    ensures Blank([c] + s) <==> IsSpace(c) && Blank(s)
  {
    hide IsSpace;
    assert ([c] + s)[0] == c;
    assert forall k :: 0 <= k < |s| ==> ([c] + s)[k + 1] == s[k];
  }

  lemma {:induction false} BlankSnoc(s: string, c: char)
    ensures Blank(s + [c]) <==> Blank(s) && IsSpace(c)
  {
    hide IsSpace;
    assert (s + [c])[|s|] == c;
    assert forall k :: 0 <= k < |s| ==> (s + [c])[k] == s[k];
  }

  /** `s.replace(/\s+/g, " ")`: every run of white space becomes one blank. */
  function Collapse(s: string): string {
    if s == "" then ""
    else if !IsSpace(s[0]) then [s[0]] + Collapse(s[1..])
    else if |s| > 1 && IsSpace(s[1]) then Collapse(s[1..])
    else " " + Collapse(s[1..])
  }

  /** The form two lines are compared in when white space is ignored. */
  function Normalize(s: string): string {
    Trim(Collapse(s))
  }

  /** Take `c` into the first word of `rest`, where `rest` starts right after `c`. */
  function Glue(c: char, glued: bool, rest: seq<string>): seq<string> {
    if glued && rest != [] then [[c] + rest[0]] + rest[1..] else [[c]] + rest
  }

  /** The maximal runs of ink in a line, an independent reading of "the same but for white space". */
  function Words(s: string): (ws: seq<string>)
    ensures forall k :: 0 <= k < |ws| ==> ws[k] != "" && forall i :: 0 <= i < |ws[k]| ==> !IsSpace(ws[k][i])
    ensures ws == [] <==> Blank(s)
  {
    if s == "" then []
    else if IsSpace(s[0]) then Words(s[1..])
    else Glue(s[0], |s| > 1 && !IsSpace(s[1]), Words(s[1..]))
  }

  /** `words.join(" ")`. */
  function Spaced(ws: seq<string>): string {
    if ws == [] then "" else if |ws| == 1 then ws[0] else ws[0] + " " + Spaced(ws[1..])
  }

  function Blanks(some: bool): string {
    if some then " " else ""
  }

  /** Collapsed text is its words joined by blanks, inside at most one blank on each side. */
  lemma {:induction false} CollapseIsSpaced(s: string)
    ensures Collapse(s) == Blanks(s != "" && IsSpace(s[0])) + Spaced(Words(s))
      + Blanks(Words(s) != [] && IsSpace(s[|s| - 1]))
  {
    hide Collapse, Words, Spaced, IsSpace;
    if s == "" {
      CollapseNothing();
    } else {
      var rest, ws := s[1..], Words(s[1..]);
      CollapseIsSpaced(rest);
      if IsSpace(s[0]) {
        CollapseBlank(s, rest, ws);
      } else {
        CollapseInk(s, rest, ws);
      }
    }
  }

  lemma {:induction false} CollapseNothing()
    ensures Collapse("") == "" && Words("") == [] && Spaced([]) == ""
  {
  }

  lemma {:induction false} CollapseBlank(s: string, rest: string, ws: seq<string>)
    requires s != "" && IsSpace(s[0]) && rest == s[1..] && ws == Words(rest)
    requires Collapse(rest) == Blanks(rest != "" && IsSpace(rest[0])) + Spaced(ws)
      + Blanks(ws != [] && IsSpace(rest[|rest| - 1]))
    ensures Words(s) == ws && Collapse(s) == Blanks(true) + Spaced(ws) + Blanks(ws != [] && IsSpace(s[|s| - 1]))
  {
    hide Spaced, IsSpace, Collapse, Words;
    StepOverBlank(s);
    assert rest != "" ==> rest[|rest| - 1] == s[|s| - 1];
    if rest == "" || !IsSpace(rest[0]) {
      var p, q := Spaced(ws), Blanks(ws != [] && IsSpace(s[|s| - 1]));
      assert "" + p == p;
      ConcatAssociates(" ", p, q);
    }
  }

  lemma {:induction false} StepOverBlank(s: string)
    requires s != "" && IsSpace(s[0])
    ensures Words(s) == Words(s[1..]) && (Words(s) != [] ==> s[1..] != "")
    ensures Collapse(s) == (if |s| > 1 && IsSpace(s[1]) then "" else " ") + Collapse(s[1..])
  {
    hide IsSpace;
  }

  lemma {:induction false} CollapseInk(s: string, rest: string, ws: seq<string>)
    requires s != "" && !IsSpace(s[0]) && rest == s[1..] && ws == Words(rest)
    requires Collapse(rest) == Blanks(rest != "" && IsSpace(rest[0])) + Spaced(ws)
      + Blanks(ws != [] && IsSpace(rest[|rest| - 1]))
    ensures Collapse(s) == Spaced(Words(s)) + Blanks(IsSpace(s[|s| - 1]))
  {
    var glued := |s| > 1 && !IsSpace(s[1]);
    SpacedGlue(s[0], glued, ws);
    var head, tail := [s[0]], Blanks(IsSpace(s[|s| - 1]));
    if ws == [] {
      InkThenBlank(s, rest);
    } else {
      assert rest[0] == s[1] && rest[|rest| - 1] == s[|s| - 1];
      Regroup(head, Blanks(!glued), Spaced(ws), tail);
    }
  }

  lemma {:induction false} InkThenBlank(s: string, rest: string)
    requires s != "" && !IsSpace(s[0]) && rest == s[1..] && Blank(rest)
    requires Collapse(rest) == Blanks(rest != "" && IsSpace(rest[0]))
    ensures Collapse(s) == Spaced(Words(s)) + Blanks(IsSpace(s[|s| - 1]))
  {
    assert rest != "" ==> IsSpace(rest[0]) && IsSpace(rest[|rest| - 1]);
    assert Spaced(Words(s)) == [s[0]];
  }

  lemma {:induction false} Regroup(a: string, b: string, c: string, d: string)
    ensures a + (b + c + d) == (a + b + c) + d
  {
  }

  lemma {:induction false} SpacedGlue(c: char, glued: bool, ws: seq<string>)
    ensures Spaced(Glue(c, glued, ws)) == [c] + Blanks(ws != [] && !glued) + Spaced(ws)
  {
    if glued && |ws| > 1 {
      assert Glue(c, glued, ws)[1..] == ws[1..];
    } else if !glued && ws != [] {
      assert Glue(c, glued, ws)[1..] == ws;
    }
  }

  /** Trimming a text whose own ends are ink drops exactly the blanks around it. */
  lemma {:induction false} TrimPadded(t: string, before: bool, after: bool)
    requires t != "" && !IsSpace(t[0]) && !IsSpace(t[|t| - 1])
    ensures Trim(Blanks(before) + t + Blanks(after)) == t
  {
    hide TrimStart, TrimEnd, IsSpace, Blanks;
    var u := t + Blanks(after);
    assert u[0] == t[0];
    TrimStartPadded(u, before);
    TrimEndPadded(t, after);
    ConcatAssociates(Blanks(before), t, Blanks(after));
  }

  /** A slice cut in two. */
  lemma {:induction false} SliceCut<T>(s: seq<T>, lo: nat, mid: nat, hi: nat)
    requires lo <= mid <= hi <= |s|
    ensures s[lo..hi][..mid - lo] == s[lo..mid] && s[lo..hi][mid - lo..] == s[mid..hi]
    ensures s[lo..mid] + s[mid..hi] == s[lo..hi]
  {
  }

  lemma {:induction false} ConcatAssociates<T>(x: seq<T>, y: seq<T>, z: seq<T>)
    ensures x + y + z == x + (y + z)
  {
  }

  lemma {:induction false} TrimStartPadded(u: string, before: bool)
    requires u != "" && !IsSpace(u[0])
    ensures TrimStart(Blanks(before) + u) == u
  {
    var s := Blanks(before) + u;
    assert if before then s[0] == ' ' && s[1..] == u else s == u;
    assert TrimStart(u) == u;
  }

  lemma {:induction false} TrimEndPadded(t: string, after: bool)
    requires t != "" && !IsSpace(t[|t| - 1])
    ensures TrimEnd(t + Blanks(after)) == t
  {
    var u := t + Blanks(after);
    assert if after then u[|u| - 1] == ' ' && u[..|u| - 1] == t else u == t;
    assert TrimEnd(t) == t;
  }

  lemma {:induction false} SpacedEnds(ws: seq<string>)
    requires ws != []
    requires forall k :: 0 <= k < |ws| ==> ws[k] != "" && forall i :: 0 <= i < |ws[k]| ==> !IsSpace(ws[k][i])
    ensures var t := Spaced(ws); t != "" && !IsSpace(t[0]) && !IsSpace(t[|t| - 1])
  {
    if |ws| > 1 {
      SpacedEnds(ws[1..]);
    }
  }

  /** The normal form of a line is its words with one blank between them. */
  lemma {:induction false} NormalizeIsSpaced(s: string)
    ensures Normalize(s) == Spaced(Words(s))
  {
    CollapseIsSpaced(s);
    var ws := Words(s);
    if ws == [] {
      assert Collapse(s) == "" || Collapse(s) == " ";
      TrimEmptyIffBlank(Collapse(s));
    } else {
      SpacedEnds(ws);
      TrimPadded(Spaced(ws), IsSpace(s[0]), IsSpace(s[|s| - 1]));
    }
  }

  /** Blanks inside a spaced text are exactly the joints, so the words can be read back. */
  lemma {:induction false} WordsOfSpaced(ws: seq<string>)
    requires forall k :: 0 <= k < |ws| ==> ws[k] != "" && forall i :: 0 <= i < |ws[k]| ==> !IsSpace(ws[k][i])
    ensures Words(Spaced(ws)) == ws
  {
    if |ws| == 1 {
      WordsAfterWord(ws[0], "");
      assert ws[0] + "" == ws[0];
    } else if |ws| > 1 {
      WordsOfSpaced(ws[1..]);
      var rest := " " + Spaced(ws[1..]);
      assert rest[1..] == Spaced(ws[1..]);
      WordsAfterWord(ws[0], rest);
      assert ws[0] + rest == Spaced(ws);
    }
  }

  lemma {:induction false} WordsAfterWord(w: string, rest: string)
    requires w != "" && forall i :: 0 <= i < |w| ==> !IsSpace(w[i])
    requires rest == "" || IsSpace(rest[0])
    ensures Words(w + rest) == [w] + Words(rest)
  {
    if |w| == 1 {
      assert (w + rest)[1..] == rest;
      assert w == [w[0]];
    } else {
      WordsAfterWord(w[1..], rest);
      assert (w + rest)[1..] == w[1..] + rest;
      assert [w[0]] + w[1..] == w;
      assert ([w[1..]] + Words(rest))[1..] == Words(rest);
    }
  }

  /** With white space ignored, two lines compare equal exactly when they hold the same words. */
  lemma {:induction false} NormalizeEqualIffSameWords(s: string, t: string)
    ensures Normalize(s) == Normalize(t) <==> Words(s) == Words(t)
  {
    hide Normalize, Spaced, Words;
    NormalizeIsSpaced(s);
    NormalizeIsSpaced(t);
    WordsOfSpaced(Words(s));
    WordsOfSpaced(Words(t));
  }
}
