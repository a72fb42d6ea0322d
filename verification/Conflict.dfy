/** Merge conflicts: finding the hunks of a file and rewriting it with one of them resolved. */
module Conflict {
  import opened Text

  datatype Hunk = Hunk(startLine: nat, endLine: nat, ourLabel: string, theirLabel: string,
                       ours: seq<string>, theirs: seq<string>)

  datatype ConflictFile = ConflictFile(lines: seq<string>, trailingNewline: bool, hunks: seq<Hunk>)

  datatype Resolution = Ours | Theirs | Both

  // ---------------------------------------------------------------------------- markers

  /** What a `.` of a regular expression refuses. */
  predicate LineEnd(c: char) {
    c == '\n' || c == '\r' || c == '\U{2028}' || c == '\U{2029}'
  }

  predicate Sevenfold(l: string, c: char) {
    |l| >= 7 && forall k :: 0 <= k < 7 ==> l[k] == c
  }

  /** Seven times `c`, then nothing, or a blank and a label. */
  predicate Labelled(l: string, c: char) {
    && Sevenfold(l, c)
    && (|l| > 7 ==> l[7] == ' ' && forall k :: 8 <= k < |l| ==> !LineEnd(l[k]))
  }

  predicate IsHead(l: string) { Labelled(l, '<') }
  predicate IsBase(l: string) { Labelled(l, '|') }
  predicate IsEnd(l: string) { Labelled(l, '>') }
  predicate IsSep(l: string) { |l| == 7 && Sevenfold(l, '=') }

  datatype Mark = Head | Base | Sep | End | Content

  /** What kind of line this is. */
  function MarkOf(l: string): Mark {
    if IsHead(l) then Head else if IsBase(l) then Base else if IsSep(l) then Sep else if IsEnd(l) then End else Content
  }

  /** No line is a marker of two kinds, so the order of the tests does not matter. */
  lemma {:induction false} MarkExact(l: string)
    ensures (MarkOf(l) == Head <==> IsHead(l)) && (MarkOf(l) == Base <==> IsBase(l))
    ensures (MarkOf(l) == Sep <==> IsSep(l)) && (MarkOf(l) == End <==> IsEnd(l))
  {
    assert Sevenfold(l, '<') ==> l[0] == '<';
    assert Sevenfold(l, '|') ==> l[0] == '|';
    assert Sevenfold(l, '=') ==> l[0] == '=';
    assert Sevenfold(l, '>') ==> l[0] == '>';
  }

  predicate OneLine(text: string) {
    forall k :: 0 <= k < |text| ==> text[k] as int !in {10, 13, 0x2028, 0x2029}
  }

  /** Seven of the one character; a separator is nothing else, any other marker may have a blank and a
      label behind it. */
  lemma {:induction false} MarkIs(l: string)
    ensures MarkOf(l) == Sep <==> l == "======="
    ensures MarkOf(l) == Head <==> exists x :: LabelPart(x) && l == "<<<<<<<" + x
    ensures MarkOf(l) == Base <==> exists x :: LabelPart(x) && l == "|||||||" + x
    ensures MarkOf(l) == End <==> exists x :: LabelPart(x) && l == ">>>>>>>" + x
  {
    hide MarkOf;
    MarkExact(l);
    LabelledIs(l, '<', "<<<<<<<");
    LabelledIs(l, '|', "|||||||");
    LabelledIs(l, '>', ">>>>>>>");
  }

  predicate LabelPart(x: string) {
    x == "" || (x[0] == ' ' && OneLine(x[1..]))
  }

  lemma {:induction false} LabelledIs(l: string, c: char, seven: string)
    requires seven == [c, c, c, c, c, c, c]
    ensures Labelled(l, c) <==> exists x :: LabelPart(x) && l == seven + x
  {
    if Labelled(l, c) {
      var x := l[7..];
      assert l[..7] == seven;
      assert x != "" ==> forall k :: 0 <= k < |x[1..]| ==> x[1..][k] == l[8 + k];
      assert LabelPart(x) && l == seven + x;
    }
    if x :| LabelPart(x) && l == seven + x {
      assert forall k :: 0 <= k < 7 ==> l[k] == seven[k];
      forall k | 8 <= k < |l| ensures !LineEnd(l[k]) {
        assert l[k] == x[1..][k - 8];
      }
    }
  }

  function Marks(lines: seq<string>): (m: seq<Mark>)
    ensures |m| == |lines| && forall k :: 0 <= k < |lines| ==> m[k] == MarkOf(lines[k])
  {
    if lines == [] then [] else Marks(lines[..|lines| - 1]) + [MarkOf(lines[|lines| - 1])]
  }

  /** The label behind a marker, "" when there is none. */
  function LabelOf(l: string): string {
    if |l| <= 7 then "" else Trim(l[7..])
  }

  // ------------------------------------------------------------------------------ hunks

  /** A hunk opens at line `i`: its separator is the first one after it, with no second opener in
      between; its end is the first end marker after that; `base` is the first base marker in front
      of the separator, or -1. */
  ghost predicate IsHunk(marks: seq<Mark>, i: int, base: int, sep: int, end: int) {
    && 0 <= i < sep < end < |marks| && marks[i] == Head && marks[sep] == Sep && marks[end] == End
    && (forall k :: i < k < sep ==> marks[k] != Sep && marks[k] != Head)
    && (forall k :: sep < k < end ==> marks[k] != End)
    && FirstBase(marks, i, base, sep)
  }

  ghost predicate FirstBase(marks: seq<Mark>, i: int, base: int, to: int)
    requires 0 <= i < to <= |marks|
  {
    if base == -1 then forall k :: i < k < to ==> marks[k] != Base
    else i < base < to && marks[base] == Base && forall k :: i < k < base ==> marks[k] != Base
  }

  lemma {:induction false} HunkUnique(marks: seq<Mark>, i: int, b: int, s: int, e: int, b': int, s': int, e': int)
    requires IsHunk(marks, i, b, s, e) && IsHunk(marks, i, b', s', e')
    ensures b == b' && s == s' && e == e'
  {
    assert s == s';
    assert e == e';
  }

  function MakeHunk(lines: seq<string>, i: nat, base: int, sep: nat, end: nat): Hunk
    requires i < sep < end < |lines| && (base == -1 || i < base < sep)
  {
    Hunk(i, end, LabelOf(lines[i]), LabelOf(lines[end]),
         lines[i + 1..if base == -1 then sep else base], lines[sep + 1..end])
  }

  ghost predicate Opens(marks: seq<Mark>, i: int) {
    exists base, sep, end :: IsHunk(marks, i, base, sep, end)
  }

  /** The hunks from line `i` on: the first that opens, and then those past its end. */
  ghost function HunksFrom(lines: seq<string>, marks: seq<Mark>, i: nat): seq<Hunk>
    requires |marks| == |lines|
    decreases |lines| - i
  {
    if i >= |lines| then []
    else if Opens(marks, i) then
      var base, sep, end :| IsHunk(marks, i, base, sep, end);
      [MakeHunk(lines, i, base, sep, end)] + HunksFrom(lines, marks, end + 1)
    else HunksFrom(lines, marks, i + 1)
  }

  lemma {:induction false} HunksFromHunk(lines: seq<string>, marks: seq<Mark>, i: nat, base: int, sep: int, end: int)
    requires |marks| == |lines| && IsHunk(marks, i, base, sep, end)
    ensures HunksFrom(lines, marks, i) == [MakeHunk(lines, i, base, sep, end)] + HunksFrom(lines, marks, end + 1)
  {
    var b, s, e :| IsHunk(marks, i, b, s, e)
      && HunksFrom(lines, marks, i) == [MakeHunk(lines, i, b, s, e)] + HunksFrom(lines, marks, e + 1);
    HunkUnique(marks, i, base, sep, end, b, s, e);
  }

  lemma {:induction false} NoHunkHere(lines: seq<string>, marks: seq<Mark>, i: nat)
    requires |marks| == |lines| && i < |lines| && (marks[i] != Head || !Opens(marks, i))
    ensures HunksFrom(lines, marks, i) == HunksFrom(lines, marks, i + 1)
  {
  }

  /** The lines of a text, its final newline set apart. */
  function FileLines(content: string): seq<string> {
    var text := if EndsWith(content, '\n') then content[..|content| - 1] else content;
    if text == "" then [] else Split(text)
  }

  ghost function Parse(content: string): ConflictFile {
    var lines := FileLines(content);
    ConflictFile(lines, EndsWith(content, '\n'), HunksFrom(lines, Marks(lines), 0))
  }

  /** The search for the base, separator and end of the hunk that opens at line `i`. */
  method FindMarkers(lines: seq<string>, i: nat) returns (base: int, sep: int, end: int)
    requires i < |lines| && MarkOf(lines[i]) == Head
    ensures sep != -1 && end != -1 ==> IsHunk(Marks(lines), i, base, sep, end)
    ensures sep == -1 || end == -1 ==> !Opens(Marks(lines), i)
  {
    ghost var marks := Marks(lines);
    base, sep, end := -1, -1, -1;
    for j := i + 1 to |lines|
      invariant end == -1
      invariant sep == -1 ==> FirstBase(marks, i, base, j)
      invariant sep == -1 ==> forall k :: i < k < j ==> marks[k] != Sep && marks[k] != Head
      invariant sep != -1 ==> i < sep < j && marks[sep] == Sep && FirstBase(marks, i, base, sep)
      invariant sep != -1 ==> forall k :: i < k < sep ==> marks[k] != Sep && marks[k] != Head
      invariant sep != -1 ==> forall k :: sep < k < j ==> marks[k] != End
    {
      var mark := MarkOf(lines[j]);
      assert mark == marks[j];
      if sep == -1 && base == -1 && mark == Base {
        base := j;
      } else if sep == -1 && mark == Sep {
        sep := j;
      } else if sep != -1 && mark == End {
        end := j;
        break;
      } else if sep == -1 && mark == Head {
        break;
      }
    }
  }

  /** One turn of the scan: the hunk that opens at line `i`, or none, and the line to go on from. */
  method HunkOrLine(lines: seq<string>, i: nat) returns (found: seq<Hunk>, next: nat)
    requires i < |lines|
    ensures i < next <= |lines|
    ensures HunksFrom(lines, Marks(lines), i) == found + HunksFrom(lines, Marks(lines), next)
  {
    hide HunksFrom, MarkOf, Marks, MakeHunk;
    found, next := [], i + 1;
    if MarkOf(lines[i]) != Head {
      NoHunkHere(lines, Marks(lines), i);
    } else {
      var base, sep, end := FindMarkers(lines, i);
      if sep != -1 && end != -1 {
        HunksFromHunk(lines, Marks(lines), i, base, sep, end);
        found, next := [MakeHunk(lines, i, base, sep, end)], end + 1;
      } else {
        NoHunkHere(lines, Marks(lines), i);
      }
    }
  }

  method ParseConflicts(content: string) returns (file: ConflictFile)
    ensures file == Parse(content)
  {
    hide HunksFrom, Marks, Split, MarkOf;
    var trailing := EndsWith(content, '\n');
    var text := if trailing then content[..|content| - 1] else content;
    var lines := if text == "" then [] else Split(text);
    ghost var marks := Marks(lines);
    var hunks := [];
    var i := 0;
    while i < |lines|
      invariant 0 <= i <= |lines|
      invariant hunks + HunksFrom(lines, marks, i) == HunksFrom(lines, marks, 0)
    {
      var found, next := HunkOrLine(lines, i);
      ConcatAssociates(hunks, found, HunksFrom(lines, marks, next));
      hunks, i := hunks + found, next;
    }
    NoneAfter(lines, marks);
    assert hunks + [] == hunks;
    file := ConflictFile(lines, trailing, hunks);
  }

  // ------------------------------------------------------------------------- resolving

  function JoinFile(lines: seq<string>, trailing: bool): string {
    Join(lines) + if trailing then "\n" else ""
  }

  function Replacement(h: Hunk, r: Resolution): seq<string> {
    match r
    case Ours => h.ours
    case Theirs => h.theirs
    case Both => h.ours + h.theirs
  }

  /** A hunk's sides are lines of the file, and it is longer than both together by its three markers at least. */
  predicate Spans(lines: seq<string>, h: Hunk) {
    && h.startLine + 2 <= h.endLine < |lines|
    && |h.ours| + |h.theirs| + 3 <= h.endLine + 1 - h.startLine
    && (forall l :: l in h.ours ==> l in lines) && (forall l :: l in h.theirs ==> l in lines)
  }

  predicate AllSpan(lines: seq<string>, hunks: seq<Hunk>) {
    forall k :: 0 <= k < |hunks| ==> Spans(lines, hunks[k])
  }

  /** What `Parse` promises about the hunks of a file. */
  predicate ValidFile(file: ConflictFile) {
    AllSpan(file.lines, file.hunks)
  }

  /** The lines of a file with one hunk replaced. */
  function ResolvedLines(file: ConflictFile, k: nat, r: Resolution): seq<string>
    requires ValidFile(file) && k < |file.hunks|
  {
    var h := file.hunks[k];
    file.lines[..h.startLine] + Replacement(h, r) + file.lines[h.endLine + 1..]
  }

  /** The file's text with one hunk resolved; an index that names no hunk changes nothing. */
  function ResolveHunk(file: ConflictFile, k: nat, r: Resolution): string
    requires ValidFile(file)
  {
    if k >= |file.hunks| then JoinFile(file.lines, file.trailingNewline)
    else JoinFile(ResolvedLines(file, k, r), file.trailingNewline)
  }

  /** Parsing then joining is the identity on every text. */
  lemma {:induction false} ParseJoin(content: string)
    ensures JoinFile(Parse(content).lines, Parse(content).trailingNewline) == content
  {
    hide HunksFrom, Marks, Split;
    var text := if EndsWith(content, '\n') then content[..|content| - 1] else content;
    JoinSplit(text);
  }

  lemma {:induction false} HunkSpans(lines: seq<string>, i: nat, base: int, sep: nat, end: nat)
    requires i < sep < end < |lines| && (base == -1 || i < base < sep)
    ensures Spans(lines, MakeHunk(lines, i, base, sep, end))
  {
    var top := if base == -1 then sep else base;
    SliceHolds(lines, i + 1, top);
    SliceHolds(lines, sep + 1, end);
  }

  lemma {:induction false} SliceHolds(lines: seq<string>, from: nat, to: nat)
    requires from <= to <= |lines|
    ensures |lines[from..to]| == to - from && forall l :: l in lines[from..to] ==> l in lines
  {
  }

  lemma {:induction false} AllSpanCons(lines: seq<string>, h: Hunk, rest: seq<Hunk>)
    requires Spans(lines, h) && AllSpan(lines, rest)
    ensures AllSpan(lines, [h] + rest)
  {
  }

  lemma {:induction false} HunksSpan(lines: seq<string>, marks: seq<Mark>, i: nat)
    requires |marks| == |lines|
    ensures AllSpan(lines, HunksFrom(lines, marks, i))
    decreases |lines| - i
  {
    hide Spans, MakeHunk;
    if i < |lines| {
      if Opens(marks, i) {
        var base, sep, end :| IsHunk(marks, i, base, sep, end);
        HunksFromHunk(lines, marks, i, base, sep, end);
        HunkSpans(lines, i, base, sep, end);
        HunksSpan(lines, marks, end + 1);
        AllSpanCons(lines, MakeHunk(lines, i, base, sep, end), HunksFrom(lines, marks, end + 1));
      } else {
        HunksSpan(lines, marks, i + 1);
      }
    }
  }

  /** A text never has more lines than it was joined from. */
  lemma {:induction false} ReparseLength(lines: seq<string>, trailing: bool)
    requires forall k :: 0 <= k < |lines| ==> '\n' !in lines[k]
    ensures |FileLines(JoinFile(lines, trailing))| <= |lines|
  {
    var text, joined := JoinFile(lines, trailing), Join(lines);
    if lines != [] {
      SplitJoin(lines);
    }
    if trailing {
      assert text[..|text| - 1] == joined;
    } else if EndsWith(text, '\n') {
      assert text == joined && joined[..|joined| - 1] + "\n" == joined;
      SplitTerminated(joined[..|joined| - 1]);
      assert |Split(joined)| == |Split(joined[..|joined| - 1])| + 1;
    } else {
      assert text == joined;
    }
  }

  lemma {:induction false} ParseValid(content: string)
    ensures ValidFile(Parse(content))
    ensures forall k :: 0 <= k < |FileLines(content)| ==> '\n' !in FileLines(content)[k]
  {
    HunksSpan(FileLines(content), Marks(FileLines(content)), 0);
  }

  /** Resolving a hunk and parsing again leaves at least three lines fewer. */
  lemma {:induction false} ReparseShrinks(content: string, k: nat, r: Resolution)
    requires k < |Parse(content).hunks|
    ensures ValidFile(Parse(content))
    ensures |FileLines(ResolveHunk(Parse(content), k, r))| + 3 <= |FileLines(content)|
  {
    ParseValid(content);
    var file := Parse(content);
    var h := file.hunks[k];
    assert Spans(file.lines, h);
    var out := ResolvedLines(file, k, r);
    assert |out| + 3 <= |file.lines|;
    forall j | 0 <= j < |out| ensures out[j] in file.lines {
      var rep := Replacement(h, r);
      assert forall l :: l in rep ==> l in h.ours || l in h.theirs;
      assert h.startLine <= j < h.startLine + |rep| ==> out[j] == rep[j - h.startLine];
    }
    ReparseLength(out, file.trailingNewline);
  }

  /** Each text is the one before it with some hunk resolved. */
  ghost predicate Session(texts: seq<string>) {
    forall t :: 0 <= t < |texts| - 1 ==> Resolves(texts[t], texts[t + 1])
  }

  ghost predicate Resolves(text: string, next: string) {
    exists k, r :: 0 <= k < |Parse(text).hunks| && ValidFile(Parse(text)) && next == ResolveHunk(Parse(text), k, r)
  }

  /** Resolving and parsing again comes to an end on every input, whatever is chosen. */
  lemma {:induction false} SessionEnds(texts: seq<string>)
    requires texts != [] && Session(texts)
    ensures 3 * (|texts| - 1) + |FileLines(texts[|texts| - 1])| <= |FileLines(texts[0])|
  {
    if |texts| > 1 {
      var init := texts[..|texts| - 1];
      forall t | 0 <= t < |init| - 1 ensures Resolves(init[t], init[t + 1]) {
        assert Resolves(texts[t], texts[t + 1]);
      }
      SessionEnds(init);
      var last := texts[|texts| - 2];
      assert Resolves(texts[|texts| - 2], texts[|texts| - 2 + 1]);
      var k, r :| 0 <= k < |Parse(last).hunks| && ValidFile(Parse(last))
                  && texts[|texts| - 1] == ResolveHunk(Parse(last), k, r);
      ReparseShrinks(last, k, r);
    }
  }

  // -------------------------------------------------------- files with no stray markers

  /** A piece of a file: text without markers, or a conflict, numbered from its own first line, with
      the side it is going to be resolved to. */
  datatype Segment =
    | Prose(lines: seq<string>)
    | Block(lines: seq<string>, hunk: Hunk, choice: Resolution)

  function Flatten(segs: seq<Segment>): seq<string> {
    if segs == [] then [] else segs[0].lines + Flatten(segs[1..])
  }

  /** A hunk, seen from `off` lines further up. */
  function Moved(h: Hunk, off: nat): Hunk {
    h.(startLine := h.startLine + off, endLine := h.endLine + off)
  }

  function HunksOf(segs: seq<Segment>, off: nat): seq<Hunk> {
    if segs == [] then []
    else if segs[0].Prose? then HunksOf(segs[1..], off + |segs[0].lines|)
    else [Moved(segs[0].hunk, off)] + HunksOf(segs[1..], off + |segs[0].lines|)
  }

  function Choices(segs: seq<Segment>): seq<Resolution> {
    if segs == [] then [] else (if segs[0].Prose? then [] else [segs[0].choice]) + Choices(segs[1..])
  }

  lemma {:induction false} HunkCount(segs: seq<Segment>, off: nat)
    ensures |HunksOf(segs, off)| == |Choices(segs)|
  {
    if segs != [] {
      HunkCount(segs[1..], off + |segs[0].lines|);
    }
  }

  /** What a block becomes. */
  function Settled(s: Segment): Segment {
    if s.Prose? then s else Prose(Replacement(s.hunk, s.choice))
  }

  /** The segments with the `k`th conflict settled. */
  function SettleAt(segs: seq<Segment>, k: nat): seq<Segment>
    requires k < |Choices(segs)|
  {
    if segs[0].Block? && k == 0 then [Settled(segs[0])] + segs[1..]
    else [segs[0]] + SettleAt(segs[1..], if segs[0].Prose? then k else k - 1)
  }

  /** The segments with every conflict settled. */
  function SettleAll(segs: seq<Segment>): seq<Segment> {
    if segs == [] then [] else [Settled(segs[0])] + SettleAll(segs[1..])
  }

  // Resolving a hunk settles its block.

  /** A block's hunk is the whole of its lines. */
  predicate Whole(segs: seq<Segment>) {
    forall k :: 0 <= k < |segs| && segs[k].Block? ==>
      segs[k].lines != [] && segs[k].hunk.startLine == 0 && segs[k].hunk.endLine == |segs[k].lines| - 1
  }

  /** `ls` with lines `from..to` replaced. */
  function Spliced(ls: seq<string>, from: int, to: int, rep: seq<string>): seq<string>
    requires 0 <= from <= to <= |ls|
  {
    ls[..from] + rep + ls[to..]
  }

  lemma {:induction false} SplicedLater(first: seq<string>, rest: seq<string>, from: int, to: int, rep: seq<string>)
    requires 0 <= from <= to <= |rest|
    ensures Spliced(first + rest, |first| + from, |first| + to, rep) == first + Spliced(rest, from, to, rep)
  {
  }

  lemma {:induction false} SplicedFirst(first: seq<string>, rest: seq<string>, rep: seq<string>)
    ensures Spliced(first + rest, 0, |first|, rep) == rep + rest
  {
    assert (first + rest)[..0] + rep == rep && (first + rest)[|first|..] == rest;
  }

  /** Cutting the `k`th hunk out of the lines and putting its choice in is settling the `k`th block. */
  lemma {:induction false} SettleLines(segs: seq<Segment>, off: nat, k: nat)
    requires Whole(segs) && k < |Choices(segs)|
    ensures |HunksOf(segs, off)| == |Choices(segs)|
    ensures var h := HunksOf(segs, off)[k];
      && off <= h.startLine <= h.endLine < off + |Flatten(segs)|
      && Flatten(SettleAt(segs, k)) ==
         Spliced(Flatten(segs), h.startLine - off, h.endLine + 1 - off, Replacement(h, Choices(segs)[k]))
  {
    hide Spliced;
    HunkCount(segs, off);
    var s, rest := segs[0], segs[1..];
    if s.Block? && k == 0 {
      assert ([Settled(s)] + rest)[1..] == rest;
      SplicedFirst(s.lines, Flatten(rest), Settled(s).lines);
    } else {
      hide Replacement, Settled;
      var k' := if s.Prose? then k else k - 1;
      var off' := off + |s.lines|;
      SettleLines(rest, off', k');
      var h := HunksOf(rest, off')[k'];
      assert HunksOf(segs, off)[k] == h && Choices(segs)[k] == Choices(rest)[k'];
      assert ([s] + SettleAt(rest, k'))[1..] == SettleAt(rest, k');
      SplicedLater(s.lines, Flatten(rest), h.startLine - off', h.endLine + 1 - off', Replacement(h, Choices(rest)[k']));
    }
  }

  function Without<T>(s: seq<T>, k: nat): seq<T>
    requires k < |s|
  {
    s[..k] + s[k + 1..]
  }

  lemma {:induction false} WithoutLater<T>(first: seq<T>, rest: seq<T>, k: nat)
    requires k < |rest|
    ensures Without(first + rest, |first| + k) == first + Without(rest, k)
  {
  }

  /** Settling one conflict takes away its choice and no other, and leaves the end result alone. */
  lemma {:induction false} SettleOne(segs: seq<Segment>, k: nat)
    requires k < |Choices(segs)|
    ensures Choices(SettleAt(segs, k)) == Without(Choices(segs), k)
    ensures SettleAll(SettleAt(segs, k)) == SettleAll(segs)
  {
    var s, rest := segs[0], segs[1..];
    if s.Block? && k == 0 {
      assert ([Settled(s)] + rest)[1..] == rest;
      assert Choices([Settled(s)] + rest) == [] + Choices(rest);
    } else {
      var k' := if s.Prose? then k else k - 1;
      SettleOne(rest, k');
      assert ([s] + SettleAt(rest, k'))[1..] == SettleAt(rest, k');
      WithoutLater(if s.Prose? then [] else [s.choice], Choices(rest), k');
    }
  }

  // The parser sees exactly the blocks.

  /** No marker but a hunk's own. */
  predicate OwnMarkersOnly(marks: seq<Mark>, base: int, sep: int) {
    forall k :: 0 < k < |marks| - 1 && k != base && k != sep ==> marks[k] == Content
  }

  /** None of the lines is such a marker. */
  predicate None(lines: seq<string>, marks: set<Mark>) {
    forall k :: 0 <= k < |lines| ==> MarkOf(lines[k]) !in marks
  }

  ghost predicate BlockOk(lines: seq<string>, h: Hunk, base: int, sep: int) {
    && IsHunk(Marks(lines), 0, base, sep, |lines| - 1) && OwnMarkersOnly(Marks(lines), base, sep)
    && h == MakeHunk(lines, 0, base, sep, |lines| - 1)
  }

  predicate Unmarked(lines: seq<string>) {
    forall k :: 0 <= k < |lines| ==> MarkOf(lines[k]) == Content
  }

  predicate OneLiners(lines: seq<string>) {
    forall k :: 0 <= k < |lines| ==> '\n' !in lines[k]
  }

  ghost predicate SegmentOk(s: Segment) {
    && OneLiners(s.lines)
    && if s.Prose? then Unmarked(s.lines) else exists base, sep :: BlockOk(s.lines, s.hunk, base, sep)
  }

  ghost predicate AllOk(segs: seq<Segment>) {
    forall k :: 0 <= k < |segs| ==> SegmentOk(segs[k])
  }

  /** The lines of a file from `off` on start with these. */
  ghost predicate StandsAt(part: seq<string>, lines: seq<string>, off: nat) {
    off + |part| <= |lines| && forall k :: off <= k < off + |part| ==> lines[k] == part[k - off]
  }

  lemma {:induction false} MarksMove(part: seq<string>, lines: seq<string>, off: nat, base: int, sep: int, end: int)
    requires StandsAt(part, lines, off) && IsHunk(Marks(part), 0, base, sep, end)
    ensures IsHunk(Marks(lines), off, if base == -1 then -1 else off + base, off + sep, off + end)
  {
    var m, n := Marks(part), Marks(lines);
    assert forall k :: off <= k < off + |part| ==> n[k] == m[k - off];
    assert FirstBase(n, off, if base == -1 then -1 else off + base, off + sep);
  }

  lemma {:induction false} HunkMoves(part: seq<string>, lines: seq<string>, off: nat, base: int, sep: nat)
    requires StandsAt(part, lines, off) && 0 < sep < |part| - 1 && (base == -1 || 0 < base < sep)
    ensures var end := |part| - 1;
      MakeHunk(lines, off, if base == -1 then -1 else off + base, off + sep, off + end) ==
        Moved(MakeHunk(part, 0, base, sep, end), off)
  {
    hide LabelOf;
    var end := |part| - 1;
    var top := if base == -1 then sep else base;
    PartMoves(part, lines, off, 1, top);
    PartMoves(part, lines, off, sep + 1, end);
    assert lines[off] == part[0] && lines[off + end] == part[end];
  }

  lemma {:induction false} PartMoves(part: seq<string>, lines: seq<string>, off: nat, from: nat, to: nat)
    requires StandsAt(part, lines, off) && from <= to <= |part|
    ensures lines[off + from..off + to] == part[from..to]
  {
  }

  lemma {:induction false} OneLineOfProse(part: seq<string>, lines: seq<string>, off: nat)
    requires StandsAt(part, lines, off) && None(part, {Head}) && part != []
    ensures off < |lines| && Marks(lines)[off] != Head
    ensures StandsAt(part[1..], lines, off + 1) && None(part[1..], {Head})
  {
    hide MarkOf, Marks;
    assert part[0] == lines[off] && MarkOf(part[0]) != Head;
    assert forall k :: 0 <= k < |part| - 1 ==> part[1..][k] == part[k + 1];
  }

  lemma {:induction false} ProseIsSkipped(part: seq<string>, lines: seq<string>, off: nat)
    requires StandsAt(part, lines, off) && None(part, {Head})
    ensures HunksFrom(lines, Marks(lines), off) == HunksFrom(lines, Marks(lines), off + |part|)
    decreases |part|
  {
    if part != [] {
      hide HunksFrom, MarkOf, Marks, StandsAt, None;
      OneLineOfProse(part, lines, off);
      NoHunkHere(lines, Marks(lines), off);
      ProseIsSkipped(part[1..], lines, off + 1);
    }
  }

  lemma {:induction false} ProseIsFound(s: Segment, lines: seq<string>, off: nat)
    requires s.Prose? && SegmentOk(s) && StandsAt(s.lines, lines, off)
    ensures HunksFrom(lines, Marks(lines), off) == HunksFrom(lines, Marks(lines), off + |s.lines|)
  {
    hide HunksFrom, Marks;
    ProseIsSkipped(s.lines, lines, off);
  }

  lemma {:induction false} BlockIsFound(s: Segment, lines: seq<string>, off: nat)
    requires s.Block? && SegmentOk(s) && StandsAt(s.lines, lines, off)
    ensures HunksFrom(lines, Marks(lines), off) ==
      [Moved(s.hunk, off)] + HunksFrom(lines, Marks(lines), off + |s.lines|)
  {
    hide HunksFrom, MakeHunk, Marks;
    var base, sep :| BlockOk(s.lines, s.hunk, base, sep);
    var end := |s.lines| - 1;
    MarksMove(s.lines, lines, off, base, sep, end);
    HunkMoves(s.lines, lines, off, base, sep);
    HunksFromHunk(lines, Marks(lines), off, if base == -1 then -1 else off + base, off + sep, off + end);
  }

  /** The lines of a conflict: our side, what the two came from when that is written too, their side. */
  function Written(a: string, ours: seq<string>, ancestor: seq<string>, theirs: seq<string>, b: string): seq<string> {
    ["<<<<<<<" + a] + ours + ancestor + ["======="] + theirs + [">>>>>>>" + b]
  }

  predicate Writable(a: string, ours: seq<string>, ancestor: seq<string>, theirs: seq<string>, b: string) {
    && LabelPart(a) && LabelPart(b)
    && None(ours, {Head, Base, Sep}) && None(ancestor, {Head, Sep}) && None(theirs, {End})
    && (ancestor != [] ==> MarkOf(ancestor[0]) == Base)
  }

  lemma {:induction false} WrittenIsHunk(a: string, ours: seq<string>, ancestor: seq<string>, theirs: seq<string>,
                                         b: string)
    returns (base: int, sep: int)
    requires Writable(a, ours, ancestor, theirs, b)
    ensures var block := Written(a, ours, ancestor, theirs, b);
      && IsHunk(Marks(block), 0, base, sep, |block| - 1)
      && MakeHunk(block, 0, base, sep, |block| - 1) == Hunk(0, |block| - 1, Trim(a), Trim(b), ours, theirs)
  {
    hide MarkOf, Trim, Marks, LabelOf, LabelPart;
    base := if ancestor == [] then -1 else |ours| + 1;
    sep := |ours| + |ancestor| + 1;
    WrittenMarks(a, ours, ancestor, theirs, b);
    var block := Written(a, ours, ancestor, theirs, b);
    assert block[1..|ours| + 1] == ours && block[sep + 1..|block| - 1] == theirs;
    LabelIs("<<<<<<<", a);
    LabelIs(">>>>>>>", b);
  }

  lemma {:induction false} WrittenMarks(a: string, ours: seq<string>, ancestor: seq<string>, theirs: seq<string>,
                                        b: string)
    requires Writable(a, ours, ancestor, theirs, b)
    ensures var marks := Marks(Written(a, ours, ancestor, theirs, b));
      var sep := |ours| + |ancestor| + 1;
      && |marks| == sep + |theirs| + 2
      && marks[0] == Head && marks[sep] == Sep && marks[|marks| - 1] == End
      && (forall k :: 0 < k <= |ours| ==> marks[k] !in {Head, Base, Sep})
      && (forall k :: |ours| < k < sep ==> marks[k] !in {Head, Sep})
      && (ancestor != [] ==> marks[|ours| + 1] == Base)
      && (forall k :: sep < k < |marks| - 1 ==> marks[k] != End)
  {
    hide MarkOf, LabelPart;
    var block, sep := Written(a, ours, ancestor, theirs, b), |ours| + |ancestor| + 1;
    MarkIs("<<<<<<<" + a);
    MarkIs("=======");
    MarkIs(">>>>>>>" + b);
    assert block[0] == "<<<<<<<" + a && block[sep] == "=======" && block[|block| - 1] == ">>>>>>>" + b;
    assert forall k :: 0 < k <= |ours| ==> block[k] == ours[k - 1];
    assert forall k :: |ours| < k < sep ==> block[k] == ancestor[k - 1 - |ours|];
    assert forall k :: sep < k < |block| - 1 ==> block[k] == theirs[k - 1 - sep];
  }

  lemma {:induction false} LabelIs(seven: string, x: string)
    requires |seven| == 7
    ensures LabelOf(seven + x) == Trim(x)
  {
    assert (seven + x)[7..] == x;
  }

  /** A conflict written out is read back as it was written, wherever it stands, and resolving it
      leaves the text around it and the lines that were chosen. */
  lemma {:induction false} WrittenConflict(before: seq<string>, a: string, ours: seq<string>, ancestor: seq<string>,
                                           theirs: seq<string>, b: string, after: seq<string>, trailing: bool)
    requires Writable(a, ours, ancestor, theirs, b) && None(before, {Head})
    requires var lines := before + Written(a, ours, ancestor, theirs, b) + after;
      OneLiners(lines) && (trailing || !OpenEnded(lines))
    ensures var n := |Written(a, ours, ancestor, theirs, b)|;
      var file := Parse(JoinFile(before + Written(a, ours, ancestor, theirs, b) + after, trailing));
      && ValidFile(file) && file.hunks != []
      && file.hunks[0] == Hunk(|before|, |before| + n - 1, Trim(a), Trim(b), ours, theirs)
      && ResolveHunk(file, 0, Ours) == JoinFile(before + ours + after, trailing)
      && ResolveHunk(file, 0, Theirs) == JoinFile(before + theirs + after, trailing)
      && ResolveHunk(file, 0, Both) == JoinFile(before + ours + theirs + after, trailing)
  {
    hide MarkOf, Trim, Marks, MakeHunk, Spans, Written, LabelOf, HunksFrom, FileLines, JoinFile, Writable, None;
    hide OneLiners, OpenEnded, ResolveHunk;
    var block := Written(a, ours, ancestor, theirs, b);
    var lines := before + block + after;
    var base, sep := WrittenIsHunk(a, ours, ancestor, theirs, b);
    var marks, off := Marks(lines), |before|;
    MarksMove(block, lines, off, base, sep, |block| - 1);
    HunkMoves(block, lines, off, base, sep);
    HunksFromHunk(lines, marks, off, if base == -1 then -1 else off + base, off + sep, off + |block| - 1);
    assert forall k :: 0 <= k < off ==> lines[k] == before[k];
    ProseIsSkipped(before, lines, 0);
    LinesReadBack(lines, trailing);
    var file := Parse(JoinFile(lines, trailing));
    ParseValid(JoinFile(lines, trailing));
    ResolvedAround(file, before, block, after);
  }

  lemma {:induction false} ResolvedAround(file: ConflictFile, before: seq<string>, block: seq<string>,
                                          after: seq<string>)
    requires ValidFile(file) && file.lines == before + block + after && file.hunks != []
    requires file.hunks[0].startLine == |before| && file.hunks[0].endLine + 1 == |before| + |block|
    ensures var h, trailing := file.hunks[0], file.trailingNewline;
      && ResolveHunk(file, 0, Ours) == JoinFile(before + h.ours + after, trailing)
      && ResolveHunk(file, 0, Theirs) == JoinFile(before + h.theirs + after, trailing)
      && ResolveHunk(file, 0, Both) == JoinFile(before + h.ours + h.theirs + after, trailing)
  {
    hide JoinFile, ValidFile;
    var lines, h := file.lines, file.hunks[0];
    assert lines[..|before|] == before && lines[h.endLine + 1..] == after;
    assert before + (h.ours + h.theirs) + after == before + h.ours + h.theirs + after;
  }

  lemma {:induction false} FlattenStands(segs: seq<Segment>, lines: seq<string>, off: nat)
    requires segs != [] && off <= |lines| && lines[off..] == Flatten(segs)
    ensures off + |segs[0].lines| <= |lines|
    ensures StandsAt(segs[0].lines, lines, off) && lines[off + |segs[0].lines|..] == Flatten(segs[1..])
  {
    var first, rest := segs[0].lines, Flatten(segs[1..]);
    assert |lines[off..]| == |first| + |rest|;
    forall k | off <= k < off + |first| ensures lines[k] == first[k - off] {
      assert lines[k] == lines[off..][k - off] == (first + rest)[k - off];
    }
    assert lines[off + |first|..] == lines[off..][|first|..] == rest;
  }

  lemma {:induction false} HunksOfSegments(segs: seq<Segment>, lines: seq<string>, off: nat)
    requires AllOk(segs) && off <= |lines| && lines[off..] == Flatten(segs)
    ensures HunksFrom(lines, Marks(lines), off) == HunksOf(segs, off)
    decreases |segs|
  {
    hide HunksFrom, Marks, SegmentOk, StandsAt, AllOk;
    if segs == [] {
      NoneAfter(lines, Marks(lines));
    } else {
      RestOk(segs);
      FlattenStands(segs, lines, off);
      HunksOfSegments(segs[1..], lines, off + |segs[0].lines|);
      SegmentIsFound(segs[0], lines, off);
    }
  }

  lemma {:induction false} SegmentIsFound(s: Segment, lines: seq<string>, off: nat)
    requires SegmentOk(s) && StandsAt(s.lines, lines, off) && off + |s.lines| <= |lines|
    ensures HunksFrom(lines, Marks(lines), off) ==
            (if s.Prose? then [] else [Moved(s.hunk, off)]) + HunksFrom(lines, Marks(lines), off + |s.lines|)
  {
    hide HunksFrom, Marks, SegmentOk, StandsAt;
    if s.Prose? {
      ProseIsFound(s, lines, off);
    } else {
      BlockIsFound(s, lines, off);
    }
  }

  lemma {:induction false} SettledOk(s: Segment)
    requires SegmentOk(s)
    ensures SegmentOk(Settled(s))
  {
    hide LabelOf, Marks, MarkOf;
    if s.Block? {
      var base, sep :| BlockOk(s.lines, s.hunk, base, sep);
      var ours := SidePlain(s.lines, base, sep, 1, if base == -1 then sep else base);
      var theirs := SidePlain(s.lines, base, sep, sep + 1, |s.lines| - 1);
      assert s.hunk.ours == ours && s.hunk.theirs == theirs;
    }
  }

  /** Lines of a block that are none of its markers are plain. */
  lemma {:induction false} SidePlain(lines: seq<string>, base: int, sep: int, from: nat, to: nat)
    returns (part: seq<string>)
    requires OneLiners(lines) && OwnMarkersOnly(Marks(lines), base, sep) && 0 < from <= to < |lines|
    requires !(from <= base < to) && !(from <= sep < to)
    ensures part == lines[from..to] && Unmarked(part) && OneLiners(part)
  {
    part := lines[from..to];
    forall k | 0 <= k < |part| ensures MarkOf(part[k]) == Content {
      assert Marks(lines)[from + k] == Content;
    }
  }

  lemma {:induction false} SettleAtOk(segs: seq<Segment>, k: nat)
    requires AllOk(segs) && k < |Choices(segs)|
    ensures AllOk(SettleAt(segs, k))
  {
    hide SegmentOk, AllOk;
    RestOk(segs);
    var s, rest := segs[0], segs[1..];
    if s.Block? && k == 0 {
      SettledOk(s);
      AllOkCons(Settled(s), rest);
    } else {
      var k' := if s.Prose? then k else k - 1;
      SettleAtOk(rest, k');
      AllOkCons(s, SettleAt(rest, k'));
    }
  }

  // Reading a file of segments back.

  function TextOf(segs: seq<Segment>, trailing: bool): string {
    JoinFile(Flatten(segs), trailing)
  }

  /** The last line of these is empty, so that joined without a final newline they end in one. */
  predicate OpenEnded(lines: seq<string>) {
    lines != [] && lines[|lines| - 1] == ""
  }

  lemma {:induction false} FlattenOneLiners(segs: seq<Segment>)
    requires AllOk(segs)
    ensures OneLiners(Flatten(segs))
  {
    if segs != [] {
      FlattenOneLiners(segs[1..]);
      OneLinersConcat(segs[0].lines, Flatten(segs[1..])) by { assert SegmentOk(segs[0]); }
    }
  }

  lemma {:induction false} OneLinersConcat(a: seq<string>, b: seq<string>)
    requires OneLiners(a) && OneLiners(b)
    ensures OneLiners(a + b)
  {
  }

  lemma {:induction false} JoinEnds(lines: seq<string>)
    requires OneLiners(lines)
    ensures EndsWith(Join(lines), '\n') <==> |lines| > 1 && OpenEnded(lines)
    ensures Join(lines) == "" <==> lines == [] || lines == [""]
  {
    if |lines| > 1 {
      JoinEnds(lines[1..]);
    }
  }

  /** Lines joined under a final newline, or with a last line of their own, are read back as they were. */
  lemma {:induction false} LinesReadBack(lines: seq<string>, trailing: bool)
    requires OneLiners(lines) && (trailing || !OpenEnded(lines))
    ensures EndsWith(JoinFile(lines, trailing), '\n') == trailing
    ensures FileLines(JoinFile(lines, trailing)) == if lines == [""] then [] else lines
  {
    var text, joined := JoinFile(lines, trailing), Join(lines);
    JoinEnds(lines);
    if trailing {
      assert text[..|text| - 1] == joined;
    } else {
      assert text == joined;
    }
    if lines != [] {
      SplitJoin(lines);
    }
  }

  /** The hunks the parser finds are the blocks. */
  lemma {:induction false} SegmentsReadBack(segs: seq<Segment>, trailing: bool)
    requires AllOk(segs) && (trailing || !OpenEnded(Flatten(segs)))
    ensures Parse(TextOf(segs, trailing)).hunks == HunksOf(segs, 0)
    ensures Choices(segs) != [] ==>
      Parse(TextOf(segs, trailing)) == ConflictFile(Flatten(segs), trailing, HunksOf(segs, 0))
  {
    hide HunksFrom, Marks;
    var lines := Flatten(segs);
    FlattenOneLiners(segs);
    LinesReadBack(lines, trailing);
    assert lines[0..] == lines;
    HunksOfSegments(segs, lines, 0);
    if lines == [""] {
      ShortHasNoHunk([""]);
      ShortHasNoHunk([]);
      HunkCount(segs, 0);
    }
  }

  lemma {:induction false} ShortHasNoHunk(lines: seq<string>)
    requires |lines| < 2
    ensures HunksFrom(lines, Marks(lines), 0) == []
  {
  }

  lemma {:induction false} AllWhole(segs: seq<Segment>)
    requires AllOk(segs)
    ensures Whole(segs)
  {
    forall k | 0 <= k < |segs| && segs[k].Block?
      ensures segs[k].lines != [] && segs[k].hunk.startLine == 0 && segs[k].hunk.endLine == |segs[k].lines| - 1
    {
      assert SegmentOk(segs[k]);
    }
  }

  /** Resolving the `k`th hunk of a file of segments is settling its `k`th block. */
  lemma {:induction false} ResolveSegment(segs: seq<Segment>, trailing: bool, k: nat)
    requires AllOk(segs) && (trailing || !OpenEnded(Flatten(segs))) && k < |Choices(segs)|
    ensures var file := Parse(TextOf(segs, trailing));
      && ValidFile(file) && |file.hunks| == |Choices(segs)|
      && ResolveHunk(file, k, Choices(segs)[k]) == TextOf(SettleAt(segs, k), trailing)
    ensures AllOk(SettleAt(segs, k))
  {
    hide AllOk, OpenEnded, Flatten, Parse, HunksOf, SettleAt, JoinFile;
    SegmentsReadBack(segs, trailing);
    ParseValid(TextOf(segs, trailing));
    HunkCount(segs, 0);
    AllWhole(segs);
    SettleLines(segs, 0, k);
    SettleAtOk(segs, k);
  }

  // ------------------------------------------------------------ resolving in any order

  /** The choices made in some order: each step resolves one of the hunks still there, as its own
      choice says, and reads the text again. */
  ghost function Play(content: string, choices: seq<Resolution>, order: seq<nat>): string
    requires ValidOrder(order, |choices|)
    decreases |order|
  {
    if order == [] then content
    else
      ParseValid(content);
      Play(ResolveHunk(Parse(content), order[0], choices[order[0]]), Without(choices, order[0]), order[1..])
  }

  /** A way to run through `n` hunks, one of those left at each step. */
  predicate ValidOrder(order: seq<nat>, n: nat) {
    |order| == n && forall t :: 0 <= t < n ==> order[t] < n - t
  }

  lemma {:induction false} SettledAlready(segs: seq<Segment>)
    requires Choices(segs) == []
    ensures SettleAll(segs) == segs
  {
    if segs != [] {
      SettledAlready(segs[1..]);
    }
  }

  /** Under a final newline, any order ends in the text where every hunk has been replaced. */
  lemma {:induction false} PlayTerminated(segs: seq<Segment>, order: seq<nat>)
    requires AllOk(segs) && ValidOrder(order, |Choices(segs)|)
    ensures Play(TextOf(segs, true), Choices(segs), order) == TextOf(SettleAll(segs), true)
    decreases |order|
  {
    hide AllOk, TextOf, Parse, SettleAt, SettleAll, Choices;
    if order == [] {
      SettledAlready(segs);
    } else {
      var k := order[0];
      ResolveSegment(segs, true, k);
      SettleOne(segs, k);
      PlayTerminated(SettleAt(segs, k), order[1..]);
    }
  }

  /** Between a hunk's markers nothing else is one. */
  ghost predicate OnlyOwn(marks: seq<Mark>, i: nat, base: int, sep: int, end: int)
    requires end <= |marks|
  {
    forall k :: i < k < end && k != base && k != sep ==> marks[k] == Content
  }

  /** From line `i` on, the only markers are those of the hunks the parser finds. */
  ghost predicate Clean(marks: seq<Mark>, i: nat)
    decreases |marks| - i
  {
    if i >= |marks| then true
    else if Opens(marks, i) then
      var base, sep, end :| IsHunk(marks, i, base, sep, end);
      OnlyOwn(marks, i, base, sep, end) && Clean(marks, end + 1)
    else marks[i] == Content && Clean(marks, i + 1)
  }

  ghost predicate CleanText(content: string) {
    Clean(Marks(FileLines(content)), 0)
  }

  /** The lines from `i` on, every hunk among `hunks` replaced by what it is to become. */
  function AllReplaced(lines: seq<string>, i: nat, hunks: seq<Hunk>, choices: seq<Resolution>): seq<string>
    requires AllSpan(lines, hunks) && |choices| == |hunks|
    decreases |lines| - i
  {
    if i >= |lines| then []
    else if hunks != [] && hunks[0].startLine == i then
      Replacement(hunks[0], choices[0]) + AllReplaced(lines, hunks[0].endLine + 1, hunks[1..], choices[1..])
    else [lines[i]] + AllReplaced(lines, i + 1, hunks, choices)
  }

  function BlockAt(lines: seq<string>, i: nat, base: int, sep: nat, end: nat, choice: Resolution): Segment
    requires i < sep < end < |lines| && (base == -1 || i < base < sep)
  {
    var part := lines[i..end + 1];
    Block(part, MakeHunk(part, 0, if base == -1 then -1 else base - i, sep - i, end - i), choice)
  }

  lemma {:induction false} BlockAtOk(lines: seq<string>, i: nat, base: int, sep: int, end: int, choice: Resolution)
    requires IsHunk(Marks(lines), i, base, sep, end) && OneLiners(lines)
    requires OnlyOwn(Marks(lines), i, base, sep, end)
    ensures SegmentOk(BlockAt(lines, i, base, sep, end, choice))
  {
    hide MakeHunk, MarkOf, Marks;
    var part := lines[i..end + 1];
    var m, n := Marks(part), Marks(lines);
    assert forall k :: 0 <= k < |part| ==> m[k] == n[i + k];
    var base' := if base == -1 then -1 else base - i;
    assert FirstBase(m, 0, base', sep - i);
    assert IsHunk(m, 0, base', sep - i, |part| - 1);
    assert BlockOk(part, BlockAt(lines, i, base, sep, end, choice).hunk, base', sep - i);
  }

  lemma {:induction false} AllOkCons(s: Segment, segs: seq<Segment>)
    requires SegmentOk(s) && AllOk(segs)
    ensures AllOk([s] + segs)
  {
  }

  predicate Filled(segs: seq<Segment>) {
    forall k :: 0 <= k < |segs| ==> segs[k].lines != []
  }

  lemma {:induction false} PutInFront(s: Segment, rest: seq<Segment>)
    ensures var segs := [s] + rest;
      && Choices(segs) == (if s.Prose? then [] else [s.choice]) + Choices(rest)
      && Flatten(segs) == s.lines + Flatten(rest)
      && Flatten(SettleAll(segs)) == Settled(s).lines + Flatten(SettleAll(rest))
  {
    var segs := [s] + rest;
    assert segs[1..] == rest;
    assert SettleAll(segs)[1..] == SettleAll(rest);
  }

  lemma {:induction false} CleanOpens(marks: seq<Mark>, i: nat) returns (base: int, sep: int, end: int)
    requires Clean(marks, i) && i < |marks| && Opens(marks, i)
    ensures IsHunk(marks, i, base, sep, end) && OnlyOwn(marks, i, base, sep, end) && Clean(marks, end + 1)
  {
    base, sep, end :| IsHunk(marks, i, base, sep, end) && OnlyOwn(marks, i, base, sep, end) && Clean(marks, end + 1);
  }

  lemma {:induction false} CleanHunk(marks: seq<Mark>, i: nat, base: int, sep: int, end: int)
    requires IsHunk(marks, i, base, sep, end) && Clean(marks, i)
    ensures OnlyOwn(marks, i, base, sep, end) && Clean(marks, end + 1)
  {
    hide Clean, FirstBase;
    assert Opens(marks, i);
    var b, s, e := CleanOpens(marks, i);
    HunkUnique(marks, i, base, sep, end, b, s, e);
  }

  lemma {:induction false} HunksComeLater(lines: seq<string>, marks: seq<Mark>, i: nat)
    requires |marks| == |lines|
    ensures HunksFrom(lines, marks, i) != [] ==> HunksFrom(lines, marks, i)[0].startLine >= i
    decreases |lines| - i
  {
    if i < |lines| && !Opens(marks, i) {
      HunksComeLater(lines, marks, i + 1);
    }
  }

  /** A clean file falls into segments, and settling them all replaces every hunk. */
  lemma {:induction false} Segmented(lines: seq<string>, i: nat, choices: seq<Resolution>) returns (segs: seq<Segment>)
    requires i <= |lines| && |choices| == |HunksFrom(lines, Marks(lines), i)|
    requires Clean(Marks(lines), i) && OneLiners(lines)
    ensures AllOk(segs) && Choices(segs) == choices && Flatten(segs) == lines[i..]
    ensures AllSpan(lines, HunksFrom(lines, Marks(lines), i))
    ensures Flatten(SettleAll(segs)) == AllReplaced(lines, i, HunksFrom(lines, Marks(lines), i), choices)
    ensures Filled(segs)
    decreases |lines| - i
  {
    var marks := Marks(lines);
    HunksSpan(lines, marks, i);
    if i == |lines| {
      segs := [];
    } else if Opens(marks, i) {
      var base, sep, end :| IsHunk(marks, i, base, sep, end);
      segs := SegmentedHunk(lines, i, choices, base, sep, end);
    } else {
      segs := SegmentedLine(lines, i, choices);
    }
  }

  lemma {:induction false} SegmentedHunk(lines: seq<string>, i: nat, choices: seq<Resolution>,
                                         base: int, sep: int, end: int) returns (segs: seq<Segment>)
    requires IsHunk(Marks(lines), i, base, sep, end) && |choices| == |HunksFrom(lines, Marks(lines), i)|
    requires Clean(Marks(lines), i) && OneLiners(lines)
    ensures AllOk(segs) && Choices(segs) == choices && Flatten(segs) == lines[i..]
    ensures AllSpan(lines, HunksFrom(lines, Marks(lines), i))
    ensures Flatten(SettleAll(segs)) == AllReplaced(lines, i, HunksFrom(lines, Marks(lines), i), choices)
    ensures Filled(segs)
    decreases |lines| - i, 0
  {
    hide SegmentOk, Marks, AllOk, MakeHunk, HunksFrom, Clean, AllReplaced, Replacement, AllSpan, OneLiners;
    var marks := Marks(lines);
    HunksSpan(lines, marks, i);
    HunksFromHunk(lines, marks, i, base, sep, end);
    CleanHunk(marks, i, base, sep, end);
    var rest := Segmented(lines, end + 1, choices[1..]);
    var s := BlockAt(lines, i, base, sep, end, choices[0]);
    BlockAtOk(lines, i, base, sep, end, choices[0]);
    AllOkCons(s, rest);
    segs := [s] + rest;
    BlockMoves(lines, i, base, sep, end, choices[0]);
    ReplacedHunk(lines, i, base, sep, end, HunksFrom(lines, marks, end + 1), choices);
    PutInFront(s, rest);
    assert lines[i..end + 1] + lines[end + 1..] == lines[i..];
  }

  lemma {:induction false} ReplacedHunk(lines: seq<string>, i: nat, base: int, sep: nat, end: nat,
                                        later: seq<Hunk>, choices: seq<Resolution>)
    requires i < sep < end < |lines| && (base == -1 || i < base < sep) && |choices| == |later| + 1
    requires AllSpan(lines, [MakeHunk(lines, i, base, sep, end)] + later)
    ensures AllSpan(lines, later)
    ensures var h := MakeHunk(lines, i, base, sep, end);
      AllReplaced(lines, i, [h] + later, choices) ==
        Replacement(h, choices[0]) + AllReplaced(lines, end + 1, later, choices[1..])
  {
    hide Spans, AllReplaced, MakeHunk, AllSpan, Replacement;
    HunkPlace(lines, i, base, sep, end);
    ReplacedFirst(lines, MakeHunk(lines, i, base, sep, end), later, choices);
  }

  lemma {:induction false} HunkPlace(lines: seq<string>, i: nat, base: int, sep: nat, end: nat)
    requires i < sep < end < |lines| && (base == -1 || i < base < sep)
    ensures MakeHunk(lines, i, base, sep, end).startLine == i && MakeHunk(lines, i, base, sep, end).endLine == end
  {
  }

  lemma {:induction false} ReplacedFirst(lines: seq<string>, h: Hunk, later: seq<Hunk>, choices: seq<Resolution>)
    requires AllSpan(lines, [h] + later) && |choices| == |later| + 1 && h.startLine < |lines|
    ensures AllSpan(lines, later)
    ensures AllReplaced(lines, h.startLine, [h] + later, choices) ==
            Replacement(h, choices[0]) + AllReplaced(lines, h.endLine + 1, later, choices[1..])
  {
    hide Replacement, Spans;
    var hunks := [h] + later;
    assert hunks[1..] == later;
    forall k | 0 <= k < |later| ensures Spans(lines, later[k]) {
      assert later[k] == hunks[k + 1];
    }
  }

  /** A block cut out of the file is the parsed hunk but for its line numbers. */
  lemma {:induction false} BlockMoves(lines: seq<string>, i: nat, base: int, sep: nat, end: nat, choice: Resolution)
    requires i < sep < end < |lines| && (base == -1 || i < base < sep)
    ensures Settled(BlockAt(lines, i, base, sep, end, choice)).lines ==
      Replacement(MakeHunk(lines, i, base, sep, end), choice)
  {
    hide StandsAt, MakeHunk;
    var part := lines[i..end + 1];
    var base' := if base == -1 then -1 else base - i;
    StandsThere(lines, i, end + 1);
    HunkMoves(part, lines, i, base', sep - i);
    assert MakeHunk(lines, i, base, sep, end) == Moved(MakeHunk(part, 0, base', sep - i, end - i), i);
  }

  lemma {:induction false} StandsThere(lines: seq<string>, from: nat, to: nat)
    requires from <= to <= |lines|
    ensures StandsAt(lines[from..to], lines, from)
  {
  }

  lemma {:induction false} CleanLineIs(marks: seq<Mark>, i: nat)
    requires i < |marks| && Clean(marks, i) && !Opens(marks, i)
    ensures marks[i] == Content && Clean(marks, i + 1)
  {
  }

  lemma {:induction false} LineIsOk(lines: seq<string>, i: nat)
    requires i < |lines| && Marks(lines)[i] == Content && OneLiners(lines)
    ensures SegmentOk(Prose([lines[i]]))
  {
    hide MarkOf;
  }

  lemma {:induction false} ReplacedLine(lines: seq<string>, i: nat, hunks: seq<Hunk>, choices: seq<Resolution>)
    requires i < |lines| && AllSpan(lines, hunks) && |choices| == |hunks| && (hunks != [] ==> hunks[0].startLine > i)
    ensures AllReplaced(lines, i, hunks, choices) == [lines[i]] + AllReplaced(lines, i + 1, hunks, choices)
  {
  }

  lemma {:induction false} SegmentedLine(lines: seq<string>, i: nat, choices: seq<Resolution>)
    returns (segs: seq<Segment>)
    requires i < |lines| && !Opens(Marks(lines), i) && |choices| == |HunksFrom(lines, Marks(lines), i)|
    requires Clean(Marks(lines), i) && OneLiners(lines)
    ensures AllOk(segs) && Choices(segs) == choices && Flatten(segs) == lines[i..]
    ensures AllSpan(lines, HunksFrom(lines, Marks(lines), i))
    ensures Flatten(SettleAll(segs)) == AllReplaced(lines, i, HunksFrom(lines, Marks(lines), i), choices)
    ensures Filled(segs)
    decreases |lines| - i, 0
  {
    hide AllOk, MakeHunk, HunksFrom, Clean, Marks, AllReplaced, Spans;
    var marks := Marks(lines);
    NoHunkHere(lines, marks, i);
    CleanLineIs(marks, i);
    HunksSpan(lines, marks, i + 1);
    var rest := Segmented(lines, i + 1, choices);
    HunksComeLater(lines, marks, i + 1);
    var s := Prose([lines[i]]);
    LineIsOk(lines, i);
    AllOkCons(s, rest);
    segs := [s] + rest;
    PutInFront(s, rest);
    ReplacedLine(lines, i, HunksFrom(lines, marks, i), choices);
  }

  /** On a newline-ended file whose only markers are its hunks' own, every order of the same choices
      ends in the same text: the one with each hunk replaced by what was chosen for it. */
  lemma {:induction false} OrderDoesNotMatter(content: string, choices: seq<Resolution>, order: seq<nat>)
    requires EndsWith(content, '\n') && CleanText(content)
    requires |choices| == |Parse(content).hunks| && ValidOrder(order, |choices|)
    ensures ValidFile(Parse(content))
    ensures Play(content, choices, order) ==
            JoinFile(AllReplaced(Parse(content).lines, 0, Parse(content).hunks, choices), true)
  {
    hide AllOk, Clean, AllReplaced, HunksFrom, Marks;
    var file := Parse(content);
    ParseValid(content);
    ParseJoin(content);
    var segs := Segmented(file.lines, 0, choices);
    assert file.lines[0..] == file.lines;
    PlayTerminated(segs, order);
  }

  // ------------------------------------------------- files without a final newline

  /** A file whose text does not end in a newline, but whose lines end in an empty one once the rest is
      resolved, is read back under a final newline and one line shorter. */
  lemma {:induction false} Chopped(segs: seq<Segment>) returns (chopped: seq<Segment>)
    requires AllOk(segs) && OpenEnded(Flatten(segs))
    ensures AllOk(chopped) && Choices(chopped) == Choices(segs)
    ensures Flatten(segs) == Flatten(chopped) + [""] && Flatten(SettleAll(segs)) == Flatten(SettleAll(chopped)) + [""]
  {
    hide SegmentOk, Settled, AllOk, Choices, SettleAll;
    RestOk(segs);
    var s, rest := segs[0], segs[1..];
    assert segs == [s] + rest;
    PutInFront(s, rest);
    if Flatten(rest) == [] {
      EmptyIsProse(rest);
      LastIsProse(s);
      ProseFront(s);
      var front := Prose(s.lines[..|s.lines| - 1]);
      chopped := [front] + rest;
      AllOkCons(front, rest);
      PutInFront(front, rest);
      SettledProse(s.lines);
      SettledProse(front.lines);
    } else {
      var later := Chopped(rest);
      chopped := [s] + later;
      AllOkCons(s, later);
      PutInFront(s, later);
      ConcatAssociates(s.lines, Flatten(later), [""]);
      ConcatAssociates(Settled(s).lines, Flatten(SettleAll(later)), [""]);
    }
  }

  lemma {:induction false} SettledShape(s: Segment)
    ensures s.Prose? ==> Settled(s) == s
  {
  }

  lemma {:induction false} SettledProse(lines: seq<string>)
    ensures Settled(Prose(lines)) == Prose(lines)
  {
  }

  lemma {:induction false} ProseFront(s: Segment)
    requires s.Prose? && SegmentOk(s) && s.lines != []
    ensures SegmentOk(Prose(s.lines[..|s.lines| - 1]))
  {
  }

  /** A block ends in its end marker. */
  lemma {:induction false} BlockCloses(s: Segment)
    requires SegmentOk(s) && s.Block?
    ensures !OpenEnded(s.lines)
  {
    hide MarkOf, MakeHunk;
    var base, sep :| BlockOk(s.lines, s.hunk, base, sep);
    assert Marks(s.lines)[|s.lines| - 1] == End;
    EmptyIsContent();
  }

  lemma {:induction false} EmptyIsContent()
    ensures MarkOf("") == Content
  {
  }

  lemma {:induction false} LastIsProse(s: Segment)
    requires SegmentOk(s)
    ensures OpenEnded(s.lines) ==> s.Prose?
  {
    if s.Block? {
      BlockCloses(s);
    }
  }

  lemma {:induction false} EmptyIsProse(segs: seq<Segment>)
    requires AllOk(segs) && Flatten(segs) == []
    ensures Choices(segs) == [] && Flatten(SettleAll(segs)) == []
  {
    if segs != [] {
      AllWhole(segs);
      EmptyIsProse(segs[1..]);
    }
  }

  lemma {:induction false} JoinSnoc(lines: seq<string>)
    requires lines != []
    ensures Join(lines + [""]) == Join(lines) + "\n"
  {
    if |lines| > 1 {
      JoinSnoc(lines[1..]);
      assert (lines + [""])[1..] == lines[1..] + [""];
    }
  }

  /** Once the lines end in an empty one and a hunk is left, the final newline stays. */
  lemma {:induction false} PlayReopened(segs: seq<Segment>, order: seq<nat>)
    requires AllOk(segs) && OpenEnded(Flatten(segs)) && ValidOrder(order, |Choices(segs)|) && order != []
    ensures var all := Flatten(SettleAll(segs));
      Play(TextOf(segs, false), Choices(segs), order) == if all == [""] then "\n" else Join(all)
  {
    hide AllOk, OpenEnded, Choices, SettleAll;
    var chopped := Chopped(segs);
    var left, all := Flatten(chopped), Flatten(SettleAll(chopped));
    PlayTerminated(chopped, order);
    if left == [] {
      EmptyIsProse(chopped);
    }
    JoinSnoc(left);
    assert TextOf(segs, false) == TextOf(chopped, true);
    if all != [] {
      JoinSnoc(all);
      assert |all + [""]| != |[""]|;
    }
  }

  /** Without a final newline the text is still the one with every hunk replaced, except where that
      is a single empty line: it may then be written with or without a newline. */
  lemma {:induction false} PlayOpen(segs: seq<Segment>, order: seq<nat>)
    requires AllOk(segs) && ValidOrder(order, |Choices(segs)|)
    ensures var all, text := Flatten(SettleAll(segs)), Play(TextOf(segs, false), Choices(segs), order);
      text == Join(all) || (all == [""] && text == "\n" && Stray(segs))
    decreases |order|
  {
    hide AllOk, OpenEnded, Flatten, Parse, SettleAt, SettleAll, Choices, Stray;
    if order == [] {
      SettledAlready(segs);
    } else if OpenEnded(Flatten(segs)) {
      PlayReopened(segs, order);
      if Flatten(SettleAll(segs)) == [""] {
        ReopenedIsStray(segs);
      }
    } else {
      var k := order[0];
      ResolveSegment(segs, false, k);
      SettleOne(segs, k);
      PlayOpen(SettleAt(segs, k), order[1..]);
      if Stray(SettleAt(segs, k)) {
        StrayBefore(segs, k);
      }
    }
  }

  /** The first hunk vanishes and nothing but one empty line is left behind it. */
  predicate Stray(segs: seq<Segment>) {
    && segs != [] && Settled(segs[0]).lines == []
    && if segs[0].Prose? then Stray(segs[1..]) else Flatten(SettleAll(segs[1..])) == [""]
  }

  lemma {:induction false} StrayLeavesBlank(segs: seq<Segment>)
    requires Stray(segs)
    ensures Flatten(SettleAll(segs)) == [""] && Choices(segs) != []
  {
    if segs[0].Prose? {
      StrayLeavesBlank(segs[1..]);
    }
  }

  lemma {:induction false} StrayBefore(segs: seq<Segment>, k: nat)
    requires k < |Choices(segs)| && Stray(SettleAt(segs, k))
    ensures Stray(segs)
  {
    var s, rest := segs[0], segs[1..];
    if s.Block? && k == 0 {
      assert ([Settled(s)] + rest)[1..] == rest;
      StrayLeavesBlank(rest);
    } else {
      var k' := if s.Prose? then k else k - 1;
      assert ([s] + SettleAt(rest, k'))[1..] == SettleAt(rest, k');
      if s.Prose? {
        StrayBefore(rest, k');
      } else {
        SettleOne(rest, k');
      }
    }
  }

  lemma {:induction false} VanishedIsClosed(segs: seq<Segment>)
    requires AllOk(segs) && Flatten(SettleAll(segs)) == []
    ensures !OpenEnded(Flatten(segs))
    ensures Flatten(segs) == [] ==> Choices(segs) == []
  {
    hide SegmentOk, AllOk;
    if segs != [] {
      RestOk(segs);
      VanishedIsClosed(segs[1..]);
      LastIsProse(segs[0]);
      if Flatten(segs) == [] {
        EmptyIsProse(segs);
      }
    }
  }

  lemma {:induction false} ReopenedIsStray(segs: seq<Segment>)
    requires AllOk(segs) && OpenEnded(Flatten(segs)) && Flatten(SettleAll(segs)) == [""] && Choices(segs) != []
    ensures Stray(segs)
  {
    hide SegmentOk, AllOk;
    var s, rest := segs[0], segs[1..];
    RestOk(segs);
    if Settled(s).lines == [] {
      if s.Prose? {
        ReopenedIsStray(rest);
      }
    } else {
      assert Flatten(SettleAll(rest)) == [];
      VanishedIsClosed(rest);
      if Flatten(rest) == [] {
        EmptyIsProse(rest);
        assert Flatten(segs) == s.lines;
        LastIsProse(s);
      }
    }
  }

  lemma {:induction false} RestOk(segs: seq<Segment>)
    requires AllOk(segs) && segs != []
    ensures SegmentOk(segs[0]) && AllOk(segs[1..])
  {
  }

  /** A block closes the file. */
  predicate BlockLast(segs: seq<Segment>) {
    segs != [] && (BlockLast(segs[1..]) || (segs[0].Block? && Flatten(segs[1..]) == []))
  }

  lemma {:induction false} BlockLastCloses(segs: seq<Segment>)
    requires AllOk(segs) && BlockLast(segs)
    ensures !OpenEnded(Flatten(segs)) && Choices(segs) != [] && Flatten(segs) != []
  {
    hide SegmentOk, AllOk;
    RestOk(segs);
    if BlockLast(segs[1..]) {
      BlockLastCloses(segs[1..]);
    } else {
      BlockCloses(segs[0]);
      AllWhole(segs);
    }
  }

  lemma {:induction false} ClosedIsBlockLast(segs: seq<Segment>)
    requires AllOk(segs) && !OpenEnded(Flatten(segs)) && Flatten(segs) != []
    requires Flatten(SettleAll(segs)) in [[], [""]]
    ensures BlockLast(segs)
  {
    hide SegmentOk, AllOk, Settled;
    RestOk(segs);
    SettledShape(segs[0]);
    var s, rest := segs[0], segs[1..];
    var here, later := Settled(s).lines, Flatten(SettleAll(rest));
    assert |here| + |later| <= 1 && (here == [] ==> here + later == later);
    if Flatten(rest) != [] {
      if here == [] {
        ClosedIsBlockLast(rest);
      } else {
        ClosedIsBlockLast(rest) by { assert later == []; }
      }
    } else {
      assert s.Prose? ==> here == s.lines == Flatten(segs) == [""];
    }
  }

  lemma {:induction false} BlockStaysLast(segs: seq<Segment>)
    requires BlockLast(segs) && |Choices(segs)| > 1 && AllOk(segs)
    ensures BlockLast(SettleAt(segs, 0))
  {
    hide SegmentOk, AllOk;
    RestOk(segs);
    var s, rest := segs[0], segs[1..];
    if s.Block? {
      assert ([Settled(s)] + rest)[1..] == rest;
      if !BlockLast(rest) {
        EmptyIsProse(rest);
      }
    } else {
      BlockStaysLast(rest);
      assert ([s] + SettleAt(rest, 0))[1..] == SettleAt(rest, 0);
    }
  }

  /** Resolving from the top down keeps the file open to the end. */
  lemma {:induction false} TopDown(segs: seq<Segment>) returns (order: seq<nat>)
    requires AllOk(segs) && BlockLast(segs)
    ensures ValidOrder(order, |Choices(segs)|)
    ensures Play(TextOf(segs, false), Choices(segs), order) == Join(Flatten(SettleAll(segs)))
    decreases |Choices(segs)|
  {
    hide AllOk, OpenEnded, Flatten, Parse, SettleAt, SettleAll, Choices, BlockLast;
    BlockLastCloses(segs);
    ResolveSegment(segs, false, 0);
    SettleOne(segs, 0);
    var next := SettleAt(segs, 0);
    var rest: seq<nat> := [];
    if |Choices(segs)| == 1 {
      SettledAlready(next);
    } else {
      BlockStaysLast(segs);
      rest := TopDown(next);
    }
    order := [0] + rest;
    assert order[1..] == rest;
  }

  lemma {:induction false} StrayStays(segs: seq<Segment>, k: nat)
    requires Stray(segs) && 0 < k < |Choices(segs)|
    ensures Stray(SettleAt(segs, k))
  {
    var s, rest := segs[0], segs[1..];
    var k' := if s.Prose? then k else k - 1;
    assert ([s] + SettleAt(rest, k'))[1..] == SettleAt(rest, k');
    if s.Prose? {
      StrayStays(rest, k);
    } else {
      SettleOne(rest, k');
    }
  }

  lemma {:induction false} SoleStrayIsOpen(segs: seq<Segment>)
    requires Stray(segs) && |Choices(segs)| == 1
    ensures OpenEnded(Flatten(segs))
  {
    if segs[0].Prose? {
      SoleStrayIsOpen(segs[1..]);
    } else {
      SettledAlready(segs[1..]);
    }
  }

  /** Resolving from the bottom up leaves the empty line in front of a hunk, and so a newline. */
  lemma {:induction false} BottomUp(segs: seq<Segment>) returns (order: seq<nat>)
    requires AllOk(segs) && Stray(segs) && !OpenEnded(Flatten(segs))
    ensures ValidOrder(order, |Choices(segs)|)
    ensures Play(TextOf(segs, false), Choices(segs), order) == "\n"
    decreases |Choices(segs)|
  {
    hide AllOk, OpenEnded, Flatten, Parse, SettleAt, SettleAll, Choices, Stray;
    StrayLeavesBlank(segs);
    if |Choices(segs)| == 1 {
      SoleStrayIsOpen(segs);
    }
    var k := |Choices(segs)| - 1;
    ResolveSegment(segs, false, k);
    SettleOne(segs, k);
    StrayStays(segs, k);
    var next := SettleAt(segs, k);
    var rest: seq<nat>;
    if OpenEnded(Flatten(next)) {
      rest := seq(k, _ => 0);
      PlayReopened(next, rest);
      StrayLeavesBlank(next);
    } else {
      rest := BottomUp(next);
    }
    order := [k] + rest;
    assert order[1..] == rest;
  }

  /** The file opens with a hunk that vanishes, and a single empty line is all that comes of the rest. */
  predicate StrayFile(file: ConflictFile, choices: seq<Resolution>)
    requires ValidFile(file) && |choices| == |file.hunks|
  {
    && file.hunks != [] && file.hunks[0].startLine == 0 && Replacement(file.hunks[0], choices[0]) == []
    && AllReplaced(file.lines, 0, file.hunks, choices) == [""]
  }

  lemma {:induction false} HunksOfLater(segs: seq<Segment>, off: nat)
    ensures HunksOf(segs, off) != [] ==> HunksOf(segs, off)[0].startLine >= off
  {
    if segs != [] && segs[0].Prose? {
      HunksOfLater(segs[1..], off + |segs[0].lines|);
    }
  }

  lemma {:induction false} StrayIsVisible(segs: seq<Segment>)
    requires AllOk(segs) && Filled(segs)
    ensures |HunksOf(segs, 0)| == |Choices(segs)|
    ensures Stray(segs) <==> Choices(segs) != [] && HunksOf(segs, 0)[0].startLine == 0
                             && Replacement(HunksOf(segs, 0)[0], Choices(segs)[0]) == []
                             && Flatten(SettleAll(segs)) == [""]
  {
    hide SegmentOk;
    HunkCount(segs, 0);
    if segs != [] {
      AllWhole(segs);
      if segs[0].Prose? {
        HunksOfLater(segs[1..], |segs[0].lines|);
      }
    }
  }

  /** Every order of the same choices ends in the same text. */
  ghost predicate OrderFree(content: string, choices: seq<Resolution>) {
    forall one, two :: ValidOrder(one, |choices|) && ValidOrder(two, |choices|) ==>
      Play(content, choices, one) == Play(content, choices, two)
  }

  /** On a file whose only markers are its hunks' own, the order of the choices matters exactly when there
      is no final newline, the file opens with a hunk that vanishes, and one empty line is left in the end. */
  lemma {:induction false} OrderFreeIff(content: string, choices: seq<Resolution>)
    requires CleanText(content) && |choices| == |Parse(content).hunks|
    ensures ValidFile(Parse(content))
    ensures OrderFree(content, choices) <==> EndsWith(content, '\n') || !StrayFile(Parse(content), choices)
  {
    hide AllOk, Clean, AllReplaced, HunksFrom, Marks, Play, Stray, BlockLast;
    ParseValid(content);
    var file := Parse(content);
    if EndsWith(content, '\n') {
      forall order | ValidOrder(order, |choices|)
        ensures Play(content, choices, order) == JoinFile(AllReplaced(file.lines, 0, file.hunks, choices), true)
      {
        OrderDoesNotMatter(content, choices, order);
      }
    } else {
      var segs := OpenSegments(content, choices);
      if StrayFile(file, choices) {
        ClosedIsBlockLast(segs);
        var down := TopDown(segs);
        var up := BottomUp(segs);
        assert Play(content, choices, down) == "" != Play(content, choices, up);
      } else {
        forall order | ValidOrder(order, |choices|)
          ensures Play(content, choices, order) == Join(Flatten(SettleAll(segs)))
        {
          PlayOpen(segs, order);
        }
      }
    }
  }

  lemma {:induction false} OpenSegments(content: string, choices: seq<Resolution>) returns (segs: seq<Segment>)
    requires CleanText(content) && |choices| == |Parse(content).hunks| && !EndsWith(content, '\n')
    ensures AllOk(segs) && TextOf(segs, false) == content && Choices(segs) == choices && !OpenEnded(Flatten(segs))
    ensures Flatten(segs) == [] ==> choices == []
    ensures ValidFile(Parse(content))
    ensures StrayFile(Parse(content), choices) <==> Stray(segs)
    ensures Flatten(SettleAll(segs)) == AllReplaced(Parse(content).lines, 0, Parse(content).hunks, choices)
  {
    hide AllOk, Clean, AllReplaced, HunksFrom, Marks, Stray, SettleAll, Choices;
    ParseValid(content);
    ParseJoin(content);
    var file := Parse(content);
    segs := Segmented(file.lines, 0, choices);
    assert file.lines[0..] == file.lines;
    JoinEnds(file.lines);
    HunksOfSegments(segs, file.lines, 0);
    StrayIsVisible(segs);
    if Flatten(segs) == [] {
      EmptyIsProse(segs);
    }
  }

  lemma {:induction false} MarkerLines()
    ensures MarkOf("<<<<<<<") == Head && MarkOf("=======") == Sep && MarkOf(">>>>>>>") == End && MarkOf("") == Content
    ensures '\n' !in "<<<<<<<" && '\n' !in "=======" && '\n' !in ">>>>>>>"
  {
    MarkExact("<<<<<<<");
    MarkExact("=======");
    MarkExact(">>>>>>>");
  }

  /** A file of two conflicts without text, the second holding an empty line on their side. */
  lemma {:induction false} OrderCanMatter() returns (content: string, choices: seq<Resolution>)
    ensures CleanText(content) && |choices| == |Parse(content).hunks| && !OrderFree(content, choices)
  {
    hide MarkOf, FileLines, Clean, HunksFrom, OrderFree, IsHunk, AllReplaced, Join;
    var head, sep, end := "<<<<<<<", "=======", ">>>>>>>";
    MarkerLines();
    var lines := [head, sep, end, head, sep, "", end];
    content, choices := Join(lines), [Ours, Theirs];
    assert JoinFile(lines, false) == content;
    LinesReadBack(lines, false);
    TwoHunks(lines, Marks(lines)) by { TwoAreHunks(Marks(lines)); }
    OrderFreeIff(content, choices);
  }

  lemma {:induction false} TwoAreHunks(marks: seq<Mark>)
    requires marks == [Head, Sep, End, Head, Sep, Content, End]
    ensures IsHunk(marks, 0, -1, 1, 2) && IsHunk(marks, 3, -1, 4, 6)
  {
  }

  lemma {:induction false} TwoHunks(lines: seq<string>, marks: seq<Mark>)
    requires |marks| == |lines| == 7 && lines[5] == "" && marks[5] == Content
    requires IsHunk(marks, 0, -1, 1, 2) && IsHunk(marks, 3, -1, 4, 6)
    ensures Clean(marks, 0) && |HunksFrom(lines, marks, 0)| == 2 && AllSpan(lines, HunksFrom(lines, marks, 0))
    ensures HunksFrom(lines, marks, 0)[0].startLine == 0 && Replacement(HunksFrom(lines, marks, 0)[0], Ours) == []
    ensures AllReplaced(lines, 0, HunksFrom(lines, marks, 0), [Ours, Theirs]) == [""]
  {
    hide Clean, HunksFrom, Spans, LabelOf;
    HunksFromHunk(lines, marks, 0, -1, 1, 2);
    HunksFromHunk(lines, marks, 3, -1, 4, 6);
    NoneAfter(lines, marks);
    HunksSpan(lines, marks, 0);
    CleanStep(marks, 3, -1, 4, 6);
    CleanStep(marks, 0, -1, 1, 2);
    ReplacedHunk(lines, 0, -1, 1, 2, HunksFrom(lines, marks, 3), [Ours, Theirs]);
    ReplacedHunk(lines, 3, -1, 4, 6, [], [Theirs]);
  }

  lemma {:induction false} NoneAfter(lines: seq<string>, marks: seq<Mark>)
    requires |marks| == |lines|
    ensures HunksFrom(lines, marks, |lines|) == [] && Clean(marks, |lines|)
  {
  }

  lemma {:induction false} CleanStep(marks: seq<Mark>, i: nat, base: int, sep: int, end: int)
    requires IsHunk(marks, i, base, sep, end) && Clean(marks, end + 1)
    requires forall k :: i < k < end && k != base && k != sep ==> marks[k] == Content
    ensures Clean(marks, i)
  {
    forall b, s, e | IsHunk(marks, i, b, s, e) ensures b == base && s == sep && e == end {
      HunkUnique(marks, i, base, sep, end, b, s, e);
    }
  }

  // ----------------------------------------------- resolving removes one hunk, no more

  /** `later` is `before` without its `k`th hunk, those behind it `by` lines further up. */
  predicate LosesOne(before: seq<Hunk>, later: seq<Hunk>, k: nat, up: nat) {
    && k < |before| && |later| == |before| - 1
    && (forall j :: 0 <= j < k ==> later[j] == before[j])
    && (forall j :: k <= j < |later| ==> Moved(later[j], up) == before[j + 1])
  }

  lemma {:induction false} HunksShift(segs: seq<Segment>, off: nat, up: nat)
    ensures |HunksOf(segs, off)| == |HunksOf(segs, off + up)|
    ensures forall j :: 0 <= j < |HunksOf(segs, off)| ==> Moved(HunksOf(segs, off)[j], up) == HunksOf(segs, off + up)[j]
  {
    if segs != [] {
      HunksShift(segs[1..], off + |segs[0].lines|, up);
    }
  }

  lemma {:induction false} BlockSpans(s: Segment)
    requires SegmentOk(s) && s.Block?
    ensures |s.hunk.ours| + |s.hunk.theirs| + 3 <= |s.lines|
  {
    var base, sep :| BlockOk(s.lines, s.hunk, base, sep);
    HunkSpans(s.lines, 0, base, sep, |s.lines| - 1);
  }

  /** How many lines a resolved hunk gives up. */
  function Given(h: Hunk, r: Resolution): int {
    h.endLine + 1 - h.startLine - |Replacement(h, r)|
  }

  /** Settling block `k` loses its hunk and moves those behind it up. */
  predicate SettlingLosesOne(segs: seq<Segment>, off: nat, k: nat)
    requires k < |Choices(segs)|
  {
    var before, later := HunksOf(segs, off), HunksOf(SettleAt(segs, k), off);
    && |before| == |Choices(segs)| && Given(before[k], Choices(segs)[k]) >= 3
    && LosesOne(before, later, k, Given(before[k], Choices(segs)[k]))
  }

  lemma {:induction false} SettleLosesOne(segs: seq<Segment>, off: nat, k: nat)
    requires AllOk(segs) && k < |Choices(segs)|
    ensures SettlingLosesOne(segs, off, k)
    decreases |segs|, 1
  {
    hide SegmentOk, AllOk, LosesOne, Given;
    RestOk(segs);
    HunkCount(segs, off);
    var s, rest := segs[0], segs[1..];
    if s.Block? && k == 0 {
      FirstIsSettled(segs, off);
    } else {
      SettleLosesOneLater(segs, off, k);
    }
  }

  lemma {:induction false} FirstIsSettled(segs: seq<Segment>, off: nat)
    requires AllOk(segs) && segs != [] && segs[0].Block?
    ensures var h, r := HunksOf(segs, off)[0], Choices(segs)[0];
      && Given(h, r) >= 3 && LosesOne(HunksOf(segs, off), HunksOf(SettleAt(segs, 0), off), 0, Given(h, r))
  {
    hide SegmentOk, AllOk, HunksOf, Choices;
    RestOk(segs);
    AllWhole(segs);
    var s, rest := segs[0], segs[1..];
    BlockSpans(s);
    var r := Settled(s).lines;
    var now := [Settled(s)] + rest;
    assert now[1..] == rest;
    FirstHunkOf(segs, off);
    FirstHunkOf(now, off);
    HunksShift(rest, off + |r|, |s.lines| - |r|);
  }

  lemma {:induction false} FirstHunkOf(segs: seq<Segment>, off: nat)
    requires segs != []
    ensures var s, later := segs[0], HunksOf(segs[1..], off + |segs[0].lines|);
      && HunksOf(segs, off) == (if s.Prose? then [] else [Moved(s.hunk, off)]) + later
      && Choices(segs) == (if s.Prose? then [] else [s.choice]) + Choices(segs[1..])
  {
  }

  lemma {:induction false} SettleLosesOneLater(segs: seq<Segment>, off: nat, k: nat)
    requires AllOk(segs) && k < |Choices(segs)| && !(segs[0].Block? && k == 0)
    ensures SettlingLosesOne(segs, off, k)
    decreases |segs|, 0
  {
    hide SegmentOk, AllOk, SettlingLosesOne;
    RestOk(segs);
    SettleAtLater(segs, k);
    if segs[0].Prose? {
      SettleLosesOne(segs[1..], off + |segs[0].lines|, k);
      BehindProse(segs, off, k);
    } else {
      SettleLosesOne(segs[1..], off + |segs[0].lines|, k - 1);
      BehindBlock(segs, off, k);
    }
  }

  lemma {:induction false} BehindProse(segs: seq<Segment>, off: nat, k: nat)
    requires segs != [] && segs[0].Prose? && k < |Choices(segs)| && k < |Choices(segs[1..])|
    requires SettlingLosesOne(segs[1..], off + |segs[0].lines|, k)
    ensures SettlingLosesOne(segs, off, k)
  {
    hide Given, LosesOne, HunksOf;
    SettleAtLater(segs, k);
    FirstHunkOf(segs, off);
    FirstHunkOf(SettleAt(segs, k), off);
    assert HunksOf(segs, off) == HunksOf(segs[1..], off + |segs[0].lines|);
    assert HunksOf(SettleAt(segs, k), off) == HunksOf(SettleAt(segs[1..], k), off + |segs[0].lines|);
  }

  lemma {:induction false} BehindBlock(segs: seq<Segment>, off: nat, k: nat)
    requires segs != [] && segs[0].Block? && 0 < k < |Choices(segs)| && k - 1 < |Choices(segs[1..])|
    requires SettlingLosesOne(segs[1..], off + |segs[0].lines|, k - 1)
    ensures SettlingLosesOne(segs, off, k)
  {
    hide Given, LosesOne, HunksOf, Choices;
    var s, rest, off' := segs[0], segs[1..], off + |segs[0].lines|;
    SettleAtLater(segs, k);
    FirstHunkOf(segs, off);
    FirstHunkOf(SettleAt(segs, k), off);
    assert Choices(segs) == [s.choice] + Choices(rest);
    assert HunksOf(segs, off) == [Moved(s.hunk, off)] + HunksOf(rest, off');
    assert HunksOf(SettleAt(segs, k), off) == [Moved(s.hunk, off)] + HunksOf(SettleAt(rest, k - 1), off');
    LosesOneBehind(Moved(s.hunk, off), HunksOf(rest, off'), HunksOf(SettleAt(rest, k - 1), off'), k - 1,
                   Given(HunksOf(rest, off')[k - 1], Choices(rest)[k - 1]));
  }

  lemma {:induction false} SettleAtLater(segs: seq<Segment>, k: nat)
    requires k < |Choices(segs)| && !(segs[0].Block? && k == 0)
    ensures segs != [] && SettleAt(segs, k) != [] && SettleAt(segs, k)[0] == segs[0]
    ensures segs[0].Prose? ==> k < |Choices(segs[1..])| && SettleAt(segs, k)[1..] == SettleAt(segs[1..], k)
    ensures segs[0].Block? ==> k - 1 < |Choices(segs[1..])| && SettleAt(segs, k)[1..] == SettleAt(segs[1..], k - 1)
  {
  }

  lemma {:induction false} LosesOneBehind(first: Hunk, before: seq<Hunk>, later: seq<Hunk>, k: nat, up: nat)
    requires LosesOne(before, later, k, up)
    ensures LosesOne([first] + before, [first] + later, k + 1, up)
  {
    var b, l := [first] + before, [first] + later;
    forall j | k + 1 <= j < |l| ensures Moved(l[j], up) == b[j + 1] {
      assert l[j] == later[j - 1] && b[j + 1] == before[j];
    }
  }

  // The parser accepts what is left.

  lemma {:induction false} ProseIsClean(part: seq<string>, lines: seq<string>, off: nat)
    requires StandsAt(part, lines, off) && Unmarked(part) && Clean(Marks(lines), off + |part|)
    ensures Clean(Marks(lines), off)
    decreases |part|
  {
    if part != [] {
      hide Clean, MarkOf;
      assert Marks(lines)[off] == Content;
      ProseIsClean(part[1..], lines, off + 1);
      CleanLine(Marks(lines), off);
    }
  }

  lemma {:induction false} CleanLine(marks: seq<Mark>, i: nat)
    requires i < |marks| && marks[i] == Content && Clean(marks, i + 1)
    ensures Clean(marks, i)
  {
  }

  lemma {:induction false} BlockIsClean(s: Segment, lines: seq<string>, off: nat)
    requires s.Block? && SegmentOk(s) && StandsAt(s.lines, lines, off) && Clean(Marks(lines), off + |s.lines|)
    ensures Clean(Marks(lines), off)
  {
    hide MakeHunk, Clean, MarkOf, IsHunk;
    var base, sep :| BlockOk(s.lines, s.hunk, base, sep);
    var end := |s.lines| - 1;
    MarksMove(s.lines, lines, off, base, sep, end);
    forall k | off < k < off + end ensures Marks(lines)[k] == Marks(s.lines)[k - off] {
      assert lines[k] == s.lines[k - off];
    }
    CleanStep(Marks(lines), off, if base == -1 then -1 else off + base, off + sep, off + end);
  }

  lemma {:induction false} SegmentsClean(segs: seq<Segment>, lines: seq<string>, off: nat)
    requires AllOk(segs) && off <= |lines| && lines[off..] == Flatten(segs)
    ensures Clean(Marks(lines), off)
    decreases |segs|
  {
    hide Clean, Marks, SegmentOk, StandsAt, AllOk;
    if segs == [] {
      NoneAfter(lines, Marks(lines));
    } else {
      RestOk(segs);
      FlattenStands(segs, lines, off);
      SegmentsClean(segs[1..], lines, off + |segs[0].lines|);
      SegmentIsClean(segs[0], lines, off);
    }
  }

  lemma {:induction false} SegmentIsClean(s: Segment, lines: seq<string>, off: nat)
    requires SegmentOk(s) && StandsAt(s.lines, lines, off) && Clean(Marks(lines), off + |s.lines|)
    ensures Clean(Marks(lines), off)
  {
    hide Clean, Marks;
    if s.Prose? {
      ProseUnmarked(s);
      ProseIsClean(s.lines, lines, off);
    } else {
      BlockIsClean(s, lines, off);
    }
  }

  lemma {:induction false} ProseUnmarked(s: Segment)
    requires s.Prose? && SegmentOk(s)
    ensures Unmarked(s.lines)
  {
  }

  /** On a newline-ended file whose only markers are its hunks' own, resolving a hunk and reading the
      text again removes exactly that hunk: the others keep their labels and sides, those behind it
      move up by what it gave up, and no stray marker appears. */
  lemma {:induction false} ResolvingRemovesOne(content: string, k: nat, r: Resolution)
    requires EndsWith(content, '\n') && CleanText(content) && k < |Parse(content).hunks|
    ensures ValidFile(Parse(content))
    ensures var next := ResolveHunk(Parse(content), k, r);
      && EndsWith(next, '\n') && CleanText(next)
      && Given(Parse(content).hunks[k], r) >= 3
      && LosesOne(Parse(content).hunks, Parse(next).hunks, k, Given(Parse(content).hunks[k], r))
  {
    hide AllOk, Clean, AllReplaced, HunksFrom, Marks, LosesOne, Given;
    ParseValid(content);
    ParseJoin(content);
    var file := Parse(content);
    var choices := seq(|file.hunks|, _ => r);
    var segs := Segmented(file.lines, 0, choices);
    assert file.lines[0..] == file.lines;
    HunksOfSegments(segs, file.lines, 0);
    ResolveSegment(segs, true, k);
    SettleLosesOne(segs, 0, k);
    ReadAgain(SettleAt(segs, k));
  }

  lemma {:induction false} ReadAgain(segs: seq<Segment>)
    requires AllOk(segs)
    ensures EndsWith(TextOf(segs, true), '\n') && CleanText(TextOf(segs, true))
    ensures Parse(TextOf(segs, true)).hunks == HunksOf(segs, 0)
  {
    hide AllOk, Clean, HunksFrom, Marks;
    var lines := Flatten(segs);
    SegmentsReadBack(segs, true);
    FlattenOneLiners(segs);
    LinesReadBack(lines, true);
    if lines == [""] {
      NoneAfter([], Marks([]));
    } else {
      assert lines[0..] == lines;
      SegmentsClean(segs, lines, 0);
    }
  }
}
