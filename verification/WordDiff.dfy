/** Intra-line diff: which characters of a modified line changed. */
module WordDiff {
  import opened Alignment
  import Diff
  import opened Text

  /** A half-open range of characters in one line. */
  datatype CharRange = CharRange(start: nat, end: nat)

  datatype Marks = None | Marks(del: seq<CharRange>, add: seq<CharRange>)

  datatype Token = Token(text: string, start: nat)

  const MAX_WORD_TOKENS := 400
  const MAX_WORD_RUNS := 8

  datatype CharClass = Word | Gap | Other

  function ClassOf(c: char): CharClass {
    if '0' <= c <= '9' || 'A' <= c <= 'Z' || 'a' <= c <= 'z' || c == '_' || c == '$' || c >= '\U{80}' then Word
    else if c == ' ' || c == '\t' then Gap
    else Other
  }

  function EndOf(t: Token): nat {
    t.start + |t.text|
  }

  // ----------------------------------------------------------------------- tokens

  /** Where the first `n` tokens end. */
  function Reach(toks: seq<Token>, n: nat): nat
    requires n <= |toks|
  {
    if n == 0 then 0 else EndOf(toks[n - 1])
  }

  /** `t` holds the characters at its own place: one character of no class, or a run of one class
      that stops only where the class does. */
  ghost predicate IsToken(t: Token, s: string) {
    && t.text != "" && EndOf(t) <= |s| && t.text == s[t.start..EndOf(t)]
    && (ClassOf(s[t.start]) == Other ==> |t.text| == 1)
    && (ClassOf(s[t.start]) != Other ==>
          && (forall i :: t.start <= i < EndOf(t) ==> ClassOf(s[i]) == ClassOf(s[t.start]))
          && (EndOf(t) < |s| ==> ClassOf(s[EndOf(t)]) != ClassOf(s[t.start])))
  }

  /** The tokens lie end to end over `s[..n]`. */
  ghost predicate Tiles(toks: seq<Token>, s: string, n: nat) {
    && n <= |s| && Reach(toks, |toks|) == n
    && (forall k {:trigger Reach(toks, k)} :: 0 <= k < |toks| ==> toks[k].start == Reach(toks, k))
    && (forall k :: 0 <= k < |toks| ==> EndOf(toks[k]) <= n)
    && (forall k :: 0 <= k < |toks| ==> IsToken(toks[k], s))
  }

  lemma {:induction false} TilesPush(toks: seq<Token>, t: Token, s: string, n: nat)
    requires Tiles(toks, s, n) && IsToken(t, s) && t.start == n
    ensures Tiles(toks + [t], s, EndOf(t))
  {
    var more := toks + [t];
    forall k | 0 <= k < |more| ensures more[k].start == Reach(more, k) {
      assert k < |toks| ==> more[k] == toks[k] && Reach(more, k) == Reach(toks, k);
      assert k == |toks| ==> Reach(more, k) == Reach(toks, k);
    }
  }

  /** The end of the run of `c`-class characters that starts at `from`. */
  method RunEnd(s: string, from: nat, c: CharClass) returns (i: nat)
    requires from <= |s|
    ensures from <= i <= |s|
    ensures forall k :: from <= k < i ==> ClassOf(s[k]) == c
    ensures i < |s| ==> ClassOf(s[i]) != c
  {
    i := from;
    while i < |s| && ClassOf(s[i]) == c
      invariant from <= i <= |s|
      invariant forall k :: from <= k < i ==> ClassOf(s[k]) == c
    {
      i := i + 1;
    }
  }

  /** A line split into identifier runs, blank runs and single other characters. */
  method SplitWords(s: string) returns (out: seq<Token>)
    ensures Tiles(out, s, |s|)
  {
    out := [];
    var i := 0;
    while i < |s|
      invariant i <= |s| && Tiles(out, s, i)
    {
      var start := i;
      var c := ClassOf(s[i]);
      if c == Other {
        i := i + 1;
      } else {
        i := RunEnd(s, start, c);
      }
      TilesPush(out, Token(s[start..i], start), s, start);
      out := out + [Token(s[start..i], start)];
    }
  }

  /** There is only one way to tile a line. */
  lemma {:induction false} TilesUnique(a: seq<Token>, b: seq<Token>, s: string, k: nat)
    requires Tiles(a, s, |s|) && Tiles(b, s, |s|) && k <= |a|
    ensures k <= |b| && forall j :: 0 <= j < k ==> a[j] == b[j]
  {
    hide Tiles;
    if k > 0 {
      TilesUnique(a, b, s, k - 1);
      SameNextToken(a, b, s, k - 1);
    }
  }

  lemma {:induction false} SameNextToken(a: seq<Token>, b: seq<Token>, s: string, k: nat)
    requires Tiles(a, s, |s|) && Tiles(b, s, |s|) && k < |a| && k <= |b|
    requires k > 0 ==> a[k - 1] == b[k - 1]
    ensures k < |b| && a[k] == b[k]
  {
    var at := Reach(a, k);
    assert at == Reach(b, k);
    var t := a[k];
    assert IsToken(t, s) && t.start == at;
    assert at < |s|;
    assert k < |b|;
    SameToken(t, b[k], s);
  }

  lemma {:induction false} SameToken(t: Token, u: Token, s: string)
    requires IsToken(t, s) && IsToken(u, s) && t.start == u.start
    ensures t == u
  {
    assert EndOf(t) == EndOf(u);
  }

  /** What an identifier is written in: letters, digits, `_`, `$`, and everything beyond ASCII. */
  predicate Identifier(c: char) {
    65 <= c as int <= 90 || 97 <= c as int <= 122 || c in "0123456789_$" || c as int >= 128
  }

  lemma {:induction false} ClassIs(c: char)
    ensures ClassOf(c) == Word <==> Identifier(c)
    ensures ClassOf(c) == Gap <==> c in " \t"
  {
    if '0' <= c <= '9' {
      assert "0123456789_$"[c as int - '0' as int] == c;
    }
  }

  lemma {:induction false} TokenAt(toks: seq<Token>, s: string, k: nat, m: nat) returns (n: nat)
    requires Tiles(toks, s, |s|) && m <= |toks| && k < Reach(toks, m)
    ensures n < |toks| && toks[n].start <= k < EndOf(toks[n])
  {
    n := m - 1;
    assert toks[n].start == Reach(toks, n);
    if k < Reach(toks, n) {
      n := TokenAt(toks, s, k, n);
    }
  }

  /** A line is cut between any two characters but two of an identifier and two blanks. */
  lemma {:induction false} CutsBetween(toks: seq<Token>, s: string, k: nat)
    requires Tiles(toks, s, |s|) && 0 < k < |s|
    ensures (exists n :: 0 <= n < |toks| && toks[n].start == k) <==>
      !(Identifier(s[k - 1]) && Identifier(s[k])) && !(s[k - 1] in " \t" && s[k] in " \t")
  {
    hide ClassOf, Identifier;
    ClassIs(s[k - 1]);
    ClassIs(s[k]);
    if n :| 0 <= n < |toks| && toks[n].start == k {
      assert toks[0].start == Reach(toks, 0) && toks[n].start == Reach(toks, n) == EndOf(toks[n - 1]);
      assert IsToken(toks[n - 1], s);
    } else {
      var n := TokenAt(toks, s, k, |toks|);
      assert IsToken(toks[n], s);
    }
  }

  // ------------------------------------------------------------------------ ranges

  /** Non-empty ranges inside `n` characters, in order, with a gap between any two. */
  predicate Separated(rs: seq<CharRange>, n: nat) {
    && (forall k :: 0 <= k < |rs| ==> rs[k].start < rs[k].end <= n)
    && (forall k :: 0 <= k < |rs| - 1 ==> rs[k].end < rs[k + 1].start)
  }

  /** What is left of `s` once the ranges are cut out. */
  function Cut(s: string, rs: seq<CharRange>): string
    requires Separated(rs, |s|)
    decreases |rs|
  {
    if rs == [] then s
    else
      var last, rest := rs[|rs| - 1], rs[..|rs| - 1];
      SeparatedPrefix(rs, |s|);
      Cut(s[..last.start], rest) + s[last.end..]
  }

  lemma {:induction false} SeparatedPrefix(rs: seq<CharRange>, n: nat)
    requires Separated(rs, n) && rs != []
    ensures Separated(rs[..|rs| - 1], rs[|rs| - 1].start)
  {
    if |rs| > 1 {
      var k := |rs| - 2;
      while k > 0
        invariant 0 <= k <= |rs| - 2
        invariant forall l :: k <= l <= |rs| - 2 ==> rs[l].end < rs[|rs| - 1].start
        decreases k
      {
        assert rs[k - 1].end < rs[k].start;
        k := k - 1;
      }
    }
  }

  /** Characters past the last range survive the cut. */
  lemma {:induction false} CutExtend(s: string, rs: seq<CharRange>, i: nat, j: nat)
    requires i <= j <= |s| && Separated(rs, i)
    ensures Separated(rs, j) && Cut(s[..j], rs) == Cut(s[..i], rs) + s[i..j]
  {
    if rs == [] {
      assert s[..j] == s[..i] + s[i..j];
    } else {
      var last := rs[|rs| - 1];
      assert s[..j][..last.start] == s[..i][..last.start];
      assert s[..j][last.end..] == s[..i][last.end..] + s[i..j];
    }
  }

  /** One more token marked: it lengthens the last range when it starts where that ends. */
  method PushRange(out: seq<CharRange>, tok: Token, ghost s: string) returns (more: seq<CharRange>)
    requires tok.text != "" && EndOf(tok) <= |s| && Separated(out, tok.start)
    ensures Separated(more, EndOf(tok)) && Cut(s[..EndOf(tok)], more) == Cut(s[..tok.start], out)
  {
    hide Cut;
    var end := tok.start + |tok.text|;
    if out != [] && out[|out| - 1].end == tok.start {
      var last := out[|out| - 1];
      more := out[|out| - 1 := CharRange(last.start, end)];
      LastLonger(s, out, tok.start, end);
    } else {
      more := out + [CharRange(tok.start, end)];
      LastAppended(s, out, tok.start, end);
    }
  }

  /** The last range lengthened by the characters right behind it. */
  lemma {:induction false} LastLonger(s: string, out: seq<CharRange>, from: nat, to: nat)
    requires from < to <= |s| && Separated(out, from) && out != [] && out[|out| - 1].end == from
    ensures var more := out[|out| - 1 := CharRange(out[|out| - 1].start, to)];
      Separated(more, to) && Cut(s[..to], more) == Cut(s[..from], out)
  {
    var last := out[|out| - 1];
    var more := out[|out| - 1 := CharRange(last.start, to)];
    assert more[..|more| - 1] == out[..|out| - 1];
    assert s[..to][..last.start] == s[..from][..last.start];
    assert s[..to][to..] == "" && s[..from][last.end..] == "";
  }

  /** One more range, of characters further on. */
  lemma {:induction false} LastAppended(s: string, out: seq<CharRange>, from: nat, to: nat)
    requires from < to <= |s| && Separated(out, from) && (out != [] ==> out[|out| - 1].end < from)
    ensures Separated(out + [CharRange(from, to)], to)
    ensures Cut(s[..to], out + [CharRange(from, to)]) == Cut(s[..from], out)
  {
    var more := out + [CharRange(from, to)];
    assert Separated(more, to);
    hide Separated;
    assert more[..|more| - 1] == out;
    assert s[..to][..from] == s[..from] && s[..to][to..] == "";
    assert Cut(s[..from], out) + "" == Cut(s[..from], out);
  }

  // -------------------------------------------------------------------- the answer

  function Texts(toks: seq<Token>): (r: seq<string>)
    ensures |r| == |toks| && forall k :: 0 <= k < |toks| ==> r[k] == toks[k].text
  {
    seq(|toks|, k requires 0 <= k < |toks| => toks[k].text)
  }

  /** The texts of the tokens an alignment keeps, run together. */
  ghost function Kept(p: seq<Pair>, texts: seq<string>): string
    requires forall k :: 0 <= k < |p| ==> p[k].i < |texts|
  {
    if p == [] then "" else Kept(p[..|p| - 1], texts) + texts[p[|p| - 1].i]
  }

  /** The tokens the walk keeps from here on: equal ones are kept, and otherwise it steps to the side that
      can still keep more, to the old one on a tie. */
  ghost function Walked(at: seq<string>, bt: seq<string>, i: nat, j: nat): seq<Pair>
    requires i <= |at| && j <= |bt|
    decreases |at| - i + |bt| - j
  {
    if i == |at| || j == |bt| then []
    else if at[i] == bt[j] then [Pair(i, j)] + Walked(at, bt, i + 1, j + 1)
    else if Lcs(at[i + 1..], bt[j..]) >= Lcs(at[i..], bt[j + 1..]) then Walked(at, bt, i + 1, j)
    else Walked(at, bt, i, j + 1)
  }

  /** The marks explain the change, and mark as little as a token diff can: what they leave on the
      two sides is the same text, made of the tokens the walk keeps, which are a longest common
      subsequence of the two token lists. */
  ghost predicate Explains(oldLine: string, newLine: string, del: seq<CharRange>, add: seq<CharRange>) {
    && Separated(del, |oldLine|) && Separated(add, |newLine|)
    && Cut(oldLine, del) == Cut(newLine, add)
    && exists a, b, p :: KeepsLongest(oldLine, newLine, a, b, p) && Kept(p, Texts(a)) == Cut(oldLine, del)
  }

  ghost predicate KeepsLongest(oldLine: string, newLine: string, a: seq<Token>, b: seq<Token>, p: seq<Pair>) {
    && Tiles(a, oldLine, |oldLine|) && Tiles(b, newLine, |newLine|)
    && Fits(p, |a|) && IsAlignment(p, Texts(a), Texts(b)) && |p| == Lcs(Texts(a), Texts(b))
    && p == Walked(Texts(a), Texts(b), 0, 0)
  }

  ghost predicate Fits(p: seq<Pair>, n: nat) {
    forall k :: 0 <= k < |p| ==> p[k].i < n
  }

  /** One side of the walk: `n` tokens are behind it and `rs` marks what they lost. */
  ghost predicate Behind(line: string, toks: seq<Token>, n: nat, rs: seq<CharRange>, kept: string) {
    && Tiles(toks, line, |line|) && n <= |toks| && Reach(toks, n) <= |line|
    && Separated(rs, Reach(toks, n)) && Cut(line[..Reach(toks, n)], rs) == kept
  }

  lemma {:induction false} BehindStart(line: string, toks: seq<Token>)
    requires Tiles(toks, line, |line|)
    ensures Behind(line, toks, 0, [], "")
  {
    assert line[..0] == "";
  }

  /** Keeping a token adds its text to what is left. */
  lemma {:induction false} BehindKeep(line: string, toks: seq<Token>, n: nat, rs: seq<CharRange>, kept: string)
    requires Behind(line, toks, n, rs, kept) && n < |toks|
    ensures Behind(line, toks, n + 1, rs, kept + toks[n].text)
  {
    assert IsToken(toks[n], line) && Reach(toks, n + 1) == EndOf(toks[n]);
    CutExtend(line, rs, Reach(toks, n), Reach(toks, n + 1));
  }

  /** Marking a token leaves what is left alone. */
  method MarkToken(ghost line: string, toks: seq<Token>, n: nat, rs: seq<CharRange>, ghost kept: string)
    returns (more: seq<CharRange>)
    requires Behind(line, toks, n, rs, kept) && n < |toks|
    ensures Behind(line, toks, n + 1, more, kept)
  {
    assert IsToken(toks[n], line) && toks[n].start == Reach(toks, n);
    assert Reach(toks, n + 1) == EndOf(toks[n]);
    more := PushRange(rs, toks[n], line);
  }

  /** The tokens kept so far, as an alignment, and how far from the longest one they can still get. */
  ghost predicate Keeping(at: seq<string>, bt: seq<string>, i: nat, j: nat, p: seq<Pair>) {
    && i <= |at| && j <= |bt| && IsAlignment(p, at[..i], bt[..j]) && Fits(p, |at|)
    && |p| + Lcs(at[i..], bt[j..]) == Lcs(at, bt)
  }

  /** `p` is what the walk kept on its way here. */
  ghost predicate OnWalk(at: seq<string>, bt: seq<string>, i: nat, j: nat, p: seq<Pair>) {
    i <= |at| && j <= |bt| && p + Walked(at, bt, i, j) == Walked(at, bt, 0, 0)
  }

  lemma {:induction false} OnWalkMatch(at: seq<string>, bt: seq<string>, i: nat, j: nat, p: seq<Pair>)
    requires OnWalk(at, bt, i, j, p) && i < |at| && j < |bt| && at[i] == bt[j]
    ensures OnWalk(at, bt, i + 1, j + 1, p + [Pair(i, j)])
  {
    ConcatAssociates(p, [Pair(i, j)], Walked(at, bt, i + 1, j + 1));
  }

  lemma {:induction false} OnWalkEnd(at: seq<string>, bt: seq<string>, i: nat, j: nat, p: seq<Pair>)
    requires OnWalk(at, bt, i, j, p) && (i == |at| || j == |bt|)
    ensures p == Walked(at, bt, 0, 0)
  {
    assert p + [] == p;
  }

  lemma {:induction false} KeepingWider(at: seq<string>, bt: seq<string>, i: nat, j: nat, i': nat, j': nat,
                                        p: seq<Pair>)
    requires i <= i' <= |at| && j <= j' <= |bt| && IsAlignment(p, at[..i], bt[..j])
    ensures IsAlignment(p, at[..i'], bt[..j']) && Fits(p, |at|)
  {
    forall k | 0 <= k < |p| ensures Joins(p[k], at[..i'], bt[..j']) && p[k].i < |at| {
      assert Joins(p[k], at[..i], bt[..j]);
    }
  }

  lemma {:induction false} KeepingMatch(at: seq<string>, bt: seq<string>, i: nat, j: nat, p: seq<Pair>)
    requires Keeping(at, bt, i, j, p) && i < |at| && j < |bt| && at[i] == bt[j]
    ensures Keeping(at, bt, i + 1, j + 1, p + [Pair(i, j)])
    ensures Fits(p + [Pair(i, j)], |at|) && Kept(p + [Pair(i, j)], at) == Kept(p, at) + at[i]
  {
    KeepingWider(at, bt, i, j, i + 1, j + 1, p);
    var q := p + [Pair(i, j)];
    assert q[..|q| - 1] == p;
    assert Joins(q[|p|], at[..i + 1], bt[..j + 1]);
    forall k | 0 <= k < |p| ensures Before(q[k], q[|p|]) {
      assert Joins(p[k], at[..i], bt[..j]);
    }
    assert at[i..][1..] == at[i + 1..] && bt[j..][1..] == bt[j + 1..];
  }

  lemma {:induction false} KeepingSkip(at: seq<string>, bt: seq<string>, i: nat, j: nat, i': nat, j': nat, p: seq<Pair>)
    requires Keeping(at, bt, i, j, p) && i <= i' <= |at| && j <= j' <= |bt|
    requires Lcs(at[i'..], bt[j'..]) == Lcs(at[i..], bt[j..])
    ensures Keeping(at, bt, i', j', p)
  {
    KeepingWider(at, bt, i, j, i', j', p);
  }

  /** Whether two lines are too alike, or too long, for word marks to say anything. */
  predicate Unmarkable(oldLine: string, newLine: string) {
    oldLine == newLine || oldLine == "" || newLine == ""
  }

  ghost predicate TooManyTokens(line: string) {
    exists toks :: Tiles(toks, line, |line|) && |toks| > MAX_WORD_TOKENS
  }

  lemma {:induction false} KeepBoth(oldLine: string, newLine: string, a: seq<Token>, b: seq<Token>, i: nat, j: nat,
                                    del: seq<CharRange>, add: seq<CharRange>, p: seq<Pair>)
    requires i < |a| && j < |b| && a[i].text == b[j].text && Keeping(Texts(a), Texts(b), i, j, p)
    requires Behind(oldLine, a, i, del, Kept(p, Texts(a))) && Behind(newLine, b, j, add, Kept(p, Texts(a)))
    ensures var q := p + [Pair(i, j)];
      && Keeping(Texts(a), Texts(b), i + 1, j + 1, q) && Kept(q, Texts(a)) == Kept(p, Texts(a)) + a[i].text
      && Behind(oldLine, a, i + 1, del, Kept(q, Texts(a))) && Behind(newLine, b, j + 1, add, Kept(q, Texts(a)))
  {
    KeepingMatch(Texts(a), Texts(b), i, j, p);
    BehindKeep(oldLine, a, i, del, Kept(p, Texts(a)));
    BehindKeep(newLine, b, j, add, Kept(p, Texts(a)));
  }

  lemma {:induction false} SkipOne(at: seq<string>, bt: seq<string>, i: nat, j: nat, p: seq<Pair>, below: nat,
                                   right: nat)
    requires Keeping(at, bt, i, j, p) && i < |at| && j < |bt| && at[i] != bt[j]
    requires below == Lcs(at[i + 1..], bt[j..]) && right == Lcs(at[i..], bt[j + 1..])
    ensures below >= right ==> Keeping(at, bt, i + 1, j, p) && (OnWalk(at, bt, i, j, p) ==> OnWalk(at, bt, i + 1, j, p))
    ensures below < right ==> Keeping(at, bt, i, j + 1, p) && (OnWalk(at, bt, i, j, p) ==> OnWalk(at, bt, i, j + 1, p))
  {
    assert at[i..][1..] == at[i + 1..] && bt[j..][1..] == bt[j + 1..];
    if below >= right {
      KeepingSkip(at, bt, i, j, i + 1, j, p);
    } else {
      KeepingSkip(at, bt, i, j, i, j + 1, p);
    }
  }

  /** The walk over the token table, collecting the marks and counting the ink they spare. */
  method MarkTokens(oldLine: string, newLine: string, a: seq<Token>, b: seq<Token>)
    returns (del: seq<CharRange>, add: seq<CharRange>, matchedInk: nat)
    requires Tiles(a, oldLine, |oldLine|) && Tiles(b, newLine, |newLine|)
    ensures Explains(oldLine, newLine, del, add)
    ensures matchedInk == 0 <==> Blank(Cut(oldLine, del))
  {
    hide Lcs, Behind, Kept, Blank, Tiles, IsAlignment, Texts, Explains, OnWalk;
    var at, bt := Texts(a), Texts(b);
    var t := Diff.LcsTable(at, bt);
    del, add, matchedInk := [], [], 0;
    var i, j := 0, 0;
    ghost var p: seq<Pair> := [];
    BehindStart(oldLine, a);
    BehindStart(newLine, b);
    KeepingStart(at, bt);
    while i < |a| && j < |b|
      invariant Diff.IsTable(t, at, bt) && Keeping(at, bt, i, j, p) && OnWalk(at, bt, i, j, p)
      invariant Behind(oldLine, a, i, del, Kept(p, at)) && Behind(newLine, b, j, add, Kept(p, at))
      invariant matchedInk == 0 <==> Blank(Kept(p, at))
      decreases |a| - i + |b| - j
    {
      if at[i] == bt[j] {
        KeepBoth(oldLine, newLine, a, b, i, j, del, add, p);
        OnWalkMatch(at, bt, i, j, p);
        matchedInk := CountInk(matchedInk, at[i], Kept(p, at));
        p := p + [Pair(i, j)];
        i, j := i + 1, j + 1;
      } else {
        SkipOne(at, bt, i, j, p, t[i + 1, j], t[i, j + 1]);
        if t[i + 1, j] >= t[i, j + 1] {
          del := MarkToken(oldLine, a, i, del, Kept(p, at));
          i := i + 1;
        } else {
          add := MarkToken(newLine, b, j, add, Kept(p, at));
          j := j + 1;
        }
      }
    }
    LcsStep(at, i, bt, j);
    LcsStep(at, |a|, bt, |b|);
    KeepingSkip(at, bt, i, j, |a|, |b|, p);
    OnWalkEnd(at, bt, i, j, p);
    del := MarkRest(oldLine, a, i, del, Kept(p, at));
    add := MarkRest(newLine, b, j, add, Kept(p, at));
    AllMarked(oldLine, newLine, a, b, p, del, add);
  }

  lemma {:induction false} KeepingStart(at: seq<string>, bt: seq<string>)
    ensures Keeping(at, bt, 0, 0, []) && OnWalk(at, bt, 0, 0, []) && Kept([], at) == "" && Blank("")
  {
    assert at[0..] == at && bt[0..] == bt;
    assert [] + Walked(at, bt, 0, 0) == Walked(at, bt, 0, 0);
  }

  lemma {:induction false} AllMarked(oldLine: string, newLine: string, a: seq<Token>, b: seq<Token>, p: seq<Pair>,
                                     del: seq<CharRange>, add: seq<CharRange>)
    requires Keeping(Texts(a), Texts(b), |a|, |b|, p) && p == Walked(Texts(a), Texts(b), 0, 0)
    requires Behind(oldLine, a, |a|, del, Kept(p, Texts(a))) && Behind(newLine, b, |b|, add, Kept(p, Texts(a)))
    requires Tiles(a, oldLine, |oldLine|) && Tiles(b, newLine, |newLine|)
    ensures Explains(oldLine, newLine, del, add) && Cut(oldLine, del) == Kept(p, Texts(a))
  {
    hide Kept, Lcs, IsAlignment, Texts, Walked;
    var at, bt := Texts(a), Texts(b);
    LcsStep(at, |a|, bt, |b|);
    assert oldLine[..|oldLine|] == oldLine && newLine[..|newLine|] == newLine;
    assert at[..|a|] == at && bt[..|b|] == bt;
    assert KeepsLongest(oldLine, newLine, a, b, p);
  }

  /** Add a kept token's length to the ink, unless it is blank. */
  method CountInk(matchedInk: nat, text: string, ghost kept: string) returns (more: nat)
    requires matchedInk == 0 <==> Blank(kept)
    ensures more == 0 <==> Blank(kept + text)
  {
    TrimEmptyIffBlank(text);
    assert forall k :: 0 <= k < |kept| ==> (kept + text)[k] == kept[k];
    assert forall k :: 0 <= k < |text| ==> (kept + text)[|kept| + k] == text[k];
    more := if Trim(text) != "" then matchedInk + |text| else matchedInk;
  }

  lemma {:induction false} BehindFits(line: string, toks: seq<Token>, n: nat, rs: seq<CharRange>, kept: string)
    requires Behind(line, toks, n, rs, kept)
    ensures n <= |toks|
  {
  }

  /** Mark every token from the `n`th on. */
  method MarkRest(ghost line: string, toks: seq<Token>, n: nat, rs: seq<CharRange>, ghost kept: string)
    returns (more: seq<CharRange>)
    requires Behind(line, toks, n, rs, kept)
    ensures Behind(line, toks, |toks|, more, kept)
  {
    hide Behind;
    assert n <= |toks| by { BehindFits(line, toks, n, rs, kept); }
    more := rs;
    for i := n to |toks|
      invariant Behind(line, toks, i, more, kept)
    {
      more := MarkToken(line, toks, i, more, kept);
    }
  }

  /** The changed characters of a line pair, or nothing when marks would not beat the row's tint. */
  method WordDiff(oldLine: string, newLine: string) returns (r: Marks)
    ensures r.Marks? ==>
      && Explains(oldLine, newLine, r.del, r.add) && !Blank(Cut(oldLine, r.del))
      && |r.del| <= MAX_WORD_RUNS && |r.add| <= MAX_WORD_RUNS
    ensures r.None? ==>
      || Unmarkable(oldLine, newLine) || TooManyTokens(oldLine) || TooManyTokens(newLine)
      || exists del, add :: Explains(oldLine, newLine, del, add)
          && (Blank(Cut(oldLine, del)) || |del| > MAX_WORD_RUNS || |add| > MAX_WORD_RUNS)
    ensures Unmarkable(oldLine, newLine) || TooManyTokens(oldLine) || TooManyTokens(newLine) ==> r.None?
  {
    if oldLine == newLine || oldLine == "" || newLine == "" {
      return None;
    }
    var a := SplitWords(oldLine);
    var b := SplitWords(newLine);
    SameTokenCount(a, oldLine);
    SameTokenCount(b, newLine);
    if |a| > MAX_WORD_TOKENS || |b| > MAX_WORD_TOKENS {
      return None;
    }
    var del, add, matchedInk := MarkTokens(oldLine, newLine, a, b);
    if matchedInk == 0 || |del| > MAX_WORD_RUNS || |add| > MAX_WORD_RUNS {
      return None;
    }
    r := Marks(del, add);
  }

  lemma {:induction false} SameTokens(a: seq<Token>, b: seq<Token>, line: string)
    requires Tiles(a, line, |line|) && Tiles(b, line, |line|)
    ensures a == b
  {
    TilesUnique(a, b, line, |a|);
    TilesUnique(b, a, line, |b|);
  }

  lemma {:induction false} SameTokenCount(toks: seq<Token>, line: string)
    requires Tiles(toks, line, |line|)
    ensures TooManyTokens(line) <==> |toks| > MAX_WORD_TOKENS
  {
    forall other | Tiles(other, line, |line|) ensures |other| == |toks| {
      SameTokens(other, toks, line);
    }
  }

  /** Marked lines share a token that is not blank. */
  lemma {:induction false} MarksNeedSharedInk(oldLine: string, newLine: string, del: seq<CharRange>,
                                              add: seq<CharRange>, a: seq<Token>, b: seq<Token>)
    requires Tiles(a, oldLine, |oldLine|) && Tiles(b, newLine, |newLine|)
    requires Explains(oldLine, newLine, del, add) && !Blank(Cut(oldLine, del))
    ensures exists k, l :: 0 <= k < |a| && 0 <= l < |b| && a[k].text == b[l].text && !Blank(a[k].text)
  {
    var a': seq<Token>, b': seq<Token>, p: seq<Pair> :|
      KeepsLongest(oldLine, newLine, a', b', p) && Kept(p, Texts(a')) == Cut(oldLine, del);
    SameTokens(a', a, oldLine);
    SameTokens(b', b, newLine);
    var k := InkyToken(p, Texts(a));
    assert Joins(p[k], Texts(a), Texts(b));
    assert a[p[k].i].text == b[p[k].j].text;
  }

  lemma {:induction false} InkyToken(p: seq<Pair>, texts: seq<string>) returns (k: nat)
    requires Fits(p, |texts|) && !Blank(Kept(p, texts))
    ensures k < |p| && !Blank(texts[p[k].i])
  {
    var n := |p| - 1;
    if Blank(texts[p[n].i]) {
      k := InkyToken(p[..n], texts);
    } else {
      k := n;
    }
  }

  /** The tokens of one side that are blank. */
  function Blanks(texts: seq<string>): nat {
    if texts == [] then 0 else Blanks(texts[..|texts| - 1]) + if Blank(texts[|texts| - 1]) then 1 else 0
  }

  lemma {:induction false} BlanksPrefix(texts: seq<string>, n: nat)
    requires n <= |texts|
    ensures Blanks(texts[..n]) <= Blanks(texts)
    decreases |texts|
  {
    if n < |texts| {
      BlanksPrefix(texts[..|texts| - 1], n);
      assert texts[..|texts| - 1][..n] == texts[..n];
    } else {
      assert texts[..n] == texts;
    }
  }

  /** Rising places of blank tokens are no more than there are such tokens. */
  lemma {:induction false} BlanksBound(at: seq<nat>, texts: seq<string>)
    requires forall k :: 0 <= k < |at| ==> at[k] < |texts| && Blank(texts[at[k]])
    requires forall k, l :: 0 <= k < l < |at| ==> at[k] < at[l]
    ensures |at| <= Blanks(texts)
  {
    if at != [] {
      var last := at[|at| - 1];
      BlanksBound(at[..|at| - 1], texts[..last]);
      assert texts[..last + 1][..last] == texts[..last];
      BlanksPrefix(texts, last + 1);
    }
  }

  /** Lines whose token lists have more in common than one of them has blank tokens leave ink unmarked,
      so only the number of ranges can still make the answer nothing. */
  lemma {:induction false} EnoughInCommon(oldLine: string, newLine: string, del: seq<CharRange>,
                                          add: seq<CharRange>, a: seq<Token>, b: seq<Token>)
    requires Tiles(a, oldLine, |oldLine|) && Tiles(b, newLine, |newLine|)
    requires Explains(oldLine, newLine, del, add)
    requires var at, bt := Texts(a), Texts(b); Lcs(at, bt) > Blanks(at) || Lcs(at, bt) > Blanks(bt)
    ensures !Blank(Cut(oldLine, del))
  {
    var a': seq<Token>, b': seq<Token>, p: seq<Pair> :|
      KeepsLongest(oldLine, newLine, a', b', p) && Kept(p, Texts(a')) == Cut(oldLine, del);
    SameTokens(a', a, oldLine);
    SameTokens(b', b, newLine);
    if Blank(Cut(oldLine, del)) {
      AllBlank(p, Texts(a), Texts(b));
    }
  }

  /** A blank text is kept of no more tokens than either side has blank ones. */
  lemma {:induction false} AllBlank(p: seq<Pair>, at: seq<string>, bt: seq<string>)
    requires Fits(p, |at|) && IsAlignment(p, at, bt) && Blank(Kept(p, at))
    ensures |p| <= Blanks(at) && |p| <= Blanks(bt)
  {
    var olds := seq(|p|, k requires 0 <= k < |p| => p[k].i);
    var news := seq(|p|, k requires 0 <= k < |p| => p[k].j);
    forall k | 0 <= k < |p| ensures Joins(p[k], at, bt) && Blank(at[p[k].i]) {
      KeptBlank(p, at, k);
    }
    forall k, l | 0 <= k < l < |p| ensures olds[k] < olds[l] && news[k] < news[l] {
      assert Before(p[k], p[l]);
    }
    BlanksBound(olds, at);
    BlanksBound(news, bt);
  }

  lemma {:induction false} KeptBlank(p: seq<Pair>, texts: seq<string>, k: nat)
    requires Fits(p, |texts|) && Blank(Kept(p, texts)) && k < |p|
    ensures Blank(texts[p[k].i])
  {
    var n := |p| - 1;
    var init, last := Kept(p[..n], texts), texts[p[n].i];
    assert forall m :: 0 <= m < |init| ==> init[m] == (init + last)[m];
    assert forall m :: 0 <= m < |last| ==> last[m] == (init + last)[|init| + m];
    if k < n {
      KeptBlank(p[..n], texts, k);
    }
  }

  /** Two lines that share a word, of which the walk keeps the blank only: marking them says nothing. */
  lemma {:induction false} SharedInkCanBeMissed(del: seq<CharRange>, add: seq<CharRange>)
    requires Explains("x ", " x", del, add)
    ensures Tiles([Token("x", 0), Token(" ", 1)], "x ", 2) && Tiles([Token(" ", 0), Token("x", 1)], " x", 2)
    ensures Blank(Cut("x ", del))
  {
    hide Kept, Cut, Lcs, Tiles, Walked, Separated, Blank;
    var a, b := [Token("x", 0), Token(" ", 1)], [Token(" ", 0), Token("x", 1)];
    SmallTiles();
    var a': seq<Token>, b': seq<Token>, p: seq<Pair> :|
      KeepsLongest("x ", " x", a', b', p) && Kept(p, Texts(a')) == Cut("x ", del);
    SameTokens(a', a, "x ");
    SameTokens(b', b, " x");
    assert Texts(a) == ["x", " "] && Texts(b) == [" ", "x"];
    SmallWalk();
  }

  lemma {:induction false} SmallTiles()
    ensures Tiles([Token("x", 0), Token(" ", 1)], "x ", 2) && Tiles([Token(" ", 0), Token("x", 1)], " x", 2)
  {
    assert IsToken(Token("x", 0), "x ") && IsToken(Token(" ", 1), "x ");
    assert IsToken(Token(" ", 0), " x") && IsToken(Token("x", 1), " x");
  }

  lemma {:induction false} SmallWalk()
    ensures var p := Walked(["x", " "], [" ", "x"], 0, 0); Fits(p, 2) && Blank(Kept(p, ["x", " "]))
  {
    var at, bt := ["x", " "], [" ", "x"];
    LcsStep(at, 0, bt, 1);
    LcsStep(at, 1, bt, 1);
    LcsStep(at, 1, bt, 2);
    LcsStep(at, 0, bt, 2);
    LcsStep(at, 1, bt, 0);
    LcsStep(at, 2, bt, 1);
    LcsStep(at, 2, bt, 0);
    assert Walked(at, bt, 0, 0) == Walked(at, bt, 1, 0) == [Pair(1, 0)] + Walked(at, bt, 2, 1);
    assert [Pair(1, 0)][..0] == [] && Kept([], at) == "" && Kept([Pair(1, 0)], at) == "" + " ";
  }
}
