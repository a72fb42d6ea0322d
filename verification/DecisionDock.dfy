/** Questions waiting for a person, one first-in-first-out queue a chat, shown by several docks at once.
    The queues sit in a JavaScript map, which is walked in the order its keys were inserted. */
module DecisionDock {
  import Strings = Text

  const RUN_CHAT_PREFIX := "run:"

  datatype Kind = Permission | Elicitation | UserInput | RunInput

  /** A decision.  Two of them are the same object exactly when their `ref` is the same: it counts the
      pushes.  `identity` is the request id or the ask id, `runID` and `node` are "" when there is none. */
  datatype Decision = Decision(ref: nat, chatID: string, kind: Kind, identity: string, runID: string,
                               workflowID: string, node: string, text: string)

  datatype Row = Row(chat: string, queue: seq<Decision>)

  // ------------------------------------------------------------------------- the queues

  function QueueOf(rows: seq<Row>, chat: string): seq<Decision> {
    if rows == [] then [] else if rows[0].chat == chat then rows[0].queue else QueueOf(rows[1..], chat)
  }

  /** A queue put back: in its place, at the end when it is new, and nowhere when it is empty. */
  function Put(rows: seq<Row>, chat: string, queue: seq<Decision>): seq<Row> {
    if rows == [] then Single(chat, queue)
    else if rows[0].chat == chat then Single(chat, queue) + rows[1..]
    else [rows[0]] + Put(rows[1..], chat, queue)
  }

  function Single(chat: string, queue: seq<Decision>): seq<Row> {
    if queue == [] then [] else [Row(chat, queue)]
  }

  predicate SameAsk(d: Decision, e: Decision) {
    d.kind == e.kind && d.identity == e.identity
  }

  /** A queue is never empty, holds its own chat's decisions, none of them twice, in the order they came. */
  predicate RowOk(row: Row) {
    && row.queue != []
    && (forall k :: 0 <= k < |row.queue| ==> row.queue[k].chatID == row.chat)
    && (forall j, k :: 0 <= j < k < |row.queue| ==>
          !SameAsk(row.queue[j], row.queue[k]) && row.queue[j].ref < row.queue[k].ref)
  }

  predicate RowsOk(rows: seq<Row>) {
    && (forall k :: 0 <= k < |rows| ==> RowOk(rows[k]))
    && (forall j, k :: 0 <= j < k < |rows| ==> rows[j].chat != rows[k].chat)
  }

  predicate Holds(rows: seq<Row>, d: Decision) {
    d in QueueOf(rows, d.chatID)
  }

  // -------------------------------------------------------------------------- removals

  /** What a remover looks for. */
  datatype Removal =
    | One(d: Decision)
    | OfChat(chat: string)
    | OfRunKeys
    | OfRun(workflow: string)
    | OfTurn(chat: string)
    | OfRequest(chat: string, kind: Kind, identity: string)
    | OfAsk(workflow: string, ask: string)

  predicate StartsWith(s: string, prefix: string) {
    prefix <= s
  }

  /** The asks of a workflow run, wherever they are filed. */
  predicate OwnedBy(d: Decision, workflow: string) {
    workflow != "" && (d.runID == workflow || d.chatID == RUN_CHAT_PREFIX + workflow)
  }

  predicate Takes(r: Removal, d: Decision) {
    match r
    case One(e) => d == e
    case OfChat(chat) => d.chatID == chat
    case OfRunKeys => StartsWith(d.chatID, RUN_CHAT_PREFIX)
    case OfRun(workflow) => OwnedBy(d, workflow)
    case OfTurn(chat) => d.chatID == chat && d.runID == ""
    case OfRequest(chat, kind, identity) =>
      d.chatID == chat && d.kind == kind && d.kind != RunInput && d.identity == identity
    case OfAsk(workflow, ask) => d.kind == RunInput && d.identity == ask && d.workflowID == workflow
  }

  function Left(queue: seq<Decision>, r: Removal): seq<Decision> {
    if queue == [] then []
    else
      var rest := Left(queue[..|queue| - 1], r);
      if Takes(r, queue[|queue| - 1]) then rest else rest + [queue[|queue| - 1]]
  }

  /** Every queue without what is taken, the emptied ones gone. */
  function Kept(rows: seq<Row>, r: Removal): seq<Row> {
    if rows == [] then []
    else
      var last := rows[|rows| - 1];
      Kept(rows[..|rows| - 1], r) + Single(last.chat, Left(last.queue, r))
  }

  lemma {:induction false} LeftHolds(queue: seq<Decision>, r: Removal, d: Decision)
    ensures d in Left(queue, r) <==> d in queue && !Takes(r, d)
  {
    if queue != [] {
      LeftHolds(queue[..|queue| - 1], r, d);
      assert queue == queue[..|queue| - 1] + [queue[|queue| - 1]];
    }
  }

  lemma {:induction false} LeftConcat(a: seq<Decision>, b: seq<Decision>, r: Removal)
    ensures Left(a + b, r) == Left(a, r) + Left(b, r)
  {
    if b == [] {
      assert a + b == a;
    } else {
      LeftConcat(a, b[..|b| - 1], r);
      assert (a + b)[..|a + b| - 1] == a + b[..|b| - 1];
    }
  }

  lemma {:induction false} LeftShrinks(queue: seq<Decision>, r: Removal)
    ensures |Left(queue, r)| <= |queue|
    ensures |Left(queue, r)| == |queue| ==> Left(queue, r) == queue
  {
    if queue != [] {
      hide Takes;
      LeftShrinks(queue[..|queue| - 1], r);
      assert queue == queue[..|queue| - 1] + [queue[|queue| - 1]];
    }
  }

  lemma {:induction false} LeftNone(queue: seq<Decision>, r: Removal)
    requires forall k :: 0 <= k < |queue| ==> !Takes(r, queue[k])
    ensures Left(queue, r) == queue
  {
    if queue != [] {
      hide Takes;
      LeftNone(queue[..|queue| - 1], r);
      assert queue == queue[..|queue| - 1] + [queue[|queue| - 1]];
    }
  }

  lemma {:induction false} LeftEvery(queue: seq<Decision>, r: Removal)
    requires forall k :: 0 <= k < |queue| ==> Takes(r, queue[k])
    ensures Left(queue, r) == []
  {
    if queue != [] {
      hide Takes;
      LeftEvery(queue[..|queue| - 1], r);
    }
  }

  lemma {:induction false} LeftAll(queue: seq<Decision>, r: Removal)
    ensures (forall k :: 0 <= k < |queue| ==> !Takes(r, queue[k])) ==> Left(queue, r) == queue
    ensures (forall k :: 0 <= k < |queue| ==> Takes(r, queue[k])) ==> Left(queue, r) == []
    ensures |Left(queue, r)| == |queue| ==> Left(queue, r) == queue
    ensures |Left(queue, r)| <= |queue|
  {
    hide Takes, Left;
    LeftShrinks(queue, r);
    if forall k :: 0 <= k < |queue| ==> !Takes(r, queue[k]) {
      LeftNone(queue, r);
    }
    if forall k :: 0 <= k < |queue| ==> Takes(r, queue[k]) {
      LeftEvery(queue, r);
    }
  }

  /** Taking one decision out of the middle. */
  lemma {:induction false} LeftSplice(queue: seq<Decision>, i: nat, r: Removal)
    requires i < |queue| && Takes(r, queue[i])
    requires forall k :: 0 <= k < |queue| && k != i ==> !Takes(r, queue[k])
    ensures Left(queue, r) == queue[..i] + queue[i + 1..]
  {
    hide Takes, Left;
    var front, back := queue[..i], queue[i + 1..];
    LeftConcat(front + [queue[i]], back, r);
    LeftConcat(front, [queue[i]], r);
    LeftAll(front, r);
    LeftAll([queue[i]], r);
    LeftAll(back, r);
    assert front + [queue[i]] + back == queue;
  }

  lemma {:induction false} LeftOk(row: Row, r: Removal)
    requires RowOk(row) && Left(row.queue, r) != []
    ensures RowOk(Row(row.chat, Left(row.queue, r)))
    decreases |row.queue|
  {
    hide RowOk, Takes, SameAsk;
    var queue := row.queue;
    RowInit(row);
    var init, last := queue[..|queue| - 1], queue[|queue| - 1];
    var rest := Left(init, r);
    if rest != [] {
      LeftAll(init, r);
      LeftOk(Row(row.chat, init), r);
    }
    forall k | 0 <= k < |rest| ensures !SameAsk(rest[k], last) && rest[k].ref < last.ref {
      LeftHolds(init, r, rest[k]);
      var j :| 0 <= j < |init| && init[j] == rest[k];
    }
    if !Takes(r, last) {
      AppendOk(Row(row.chat, rest), last);
    }
  }

  lemma {:induction false} RowInit(row: Row)
    requires RowOk(row)
    ensures row.queue != [] && row.queue[|row.queue| - 1].chatID == row.chat
    ensures var init, last := row.queue[..|row.queue| - 1], row.queue[|row.queue| - 1];
      && (init != [] ==> RowOk(Row(row.chat, init)))
      && forall j :: 0 <= j < |init| ==> !SameAsk(init[j], last) && init[j].ref < last.ref
  {
    hide SameAsk;
  }

  lemma {:induction false} AppendOk(row: Row, d: Decision)
    requires row.queue == [] || RowOk(row)
    requires d.chatID == row.chat
    requires forall k :: 0 <= k < |row.queue| ==> !SameAsk(row.queue[k], d) && row.queue[k].ref < d.ref
    ensures RowOk(Row(row.chat, row.queue + [d]))
  {
    hide SameAsk;
  }

  /** No queue is emptied and kept, and what is kept is kept in order. */
  lemma {:induction false} KeptOk(rows: seq<Row>, r: Removal)
    requires RowsOk(rows)
    ensures RowsOk(Kept(rows, r))
    ensures forall k :: 0 <= k < |Kept(rows, r)| ==>
      exists j :: 0 <= j < |rows| && rows[j].chat == Kept(rows, r)[k].chat
  {
    hide RowOk, RowsOk, Left;
    forall k | 0 <= k < |Kept(rows, r)| ensures exists j :: 0 <= j < |rows| && rows[j].chat == Kept(rows, r)[k].chat {
      var _ := KeptFrom(rows, r, k);
    }
    if rows == [] {
      NoRowsOk();
    } else {
      var init, last := rows[..|rows| - 1], rows[|rows| - 1];
      LastRowOk(rows);
      KeptOk(init, r);
      assert Kept(rows, r) == Kept(init, r) + Single(last.chat, Left(last.queue, r));
      if Left(last.queue, r) == [] {
        assert Kept(rows, r) == Kept(init, r);
      } else {
        LeftOk(last, r);
        assert NoRow(Kept(init, r), last.chat);
        OneRowMore(Kept(init, r), Row(last.chat, Left(last.queue, r)));
      }
    }
  }

  lemma {:induction false} KeptFrom(rows: seq<Row>, r: Removal, k: nat) returns (j: nat)
    requires k < |Kept(rows, r)|
    ensures j < |rows| && rows[j].chat == Kept(rows, r)[k].chat
  {
    var init := rows[..|rows| - 1];
    if k < |Kept(init, r)| {
      j := KeptFrom(init, r, k);
    } else {
      j := |init|;
    }
  }

  lemma {:induction false} NoRowsOk()
    ensures RowsOk([])
  {
  }

  lemma {:induction false} LastRowOk(rows: seq<Row>)
    requires RowsOk(rows) && rows != []
    ensures var init, last := rows[..|rows| - 1], rows[|rows| - 1];
      RowsOk(init) && RowOk(last) && NoRow(init, last.chat)
  {
    hide RowOk;
  }

  lemma {:induction false} OneRowMore(rows: seq<Row>, row: Row)
    requires RowsOk(rows) && RowOk(row) && NoRow(rows, row.chat)
    ensures RowsOk(rows + [row])
  {
    hide RowOk;
  }

  lemma {:induction false} QueueOfAt(rows: seq<Row>, k: nat)
    requires RowsOk(rows) && k < |rows|
    ensures QueueOf(rows, rows[k].chat) == rows[k].queue
  {
    if k > 0 {
      assert RowsOk(rows[1..]);
      QueueOfAt(rows[1..], k - 1);
    }
  }

  lemma {:induction false} QueueOfConcat(a: seq<Row>, b: seq<Row>, chat: string)
    ensures NoRow(a, chat) ==> QueueOf(a + b, chat) == QueueOf(b, chat) && QueueOf(a, chat) == []
    ensures (exists k :: 0 <= k < |a| && a[k].chat == chat) ==> QueueOf(a + b, chat) == QueueOf(a, chat)
  {
    if a == [] {
      assert a + b == b;
    } else {
      QueueOfConcat(a[1..], b, chat);
      assert (a + b)[1..] == a[1..] + b;
    }
  }

  predicate NoRow(rows: seq<Row>, chat: string) {
    forall k :: 0 <= k < |rows| ==> rows[k].chat != chat
  }

  lemma {:induction false} NoQueue(rows: seq<Row>, chat: string)
    requires NoRow(rows, chat)
    ensures QueueOf(rows, chat) == []
  {
    QueueOfConcat(rows, [], chat);
  }

  lemma {:induction false} QueueOfFront(a: seq<Row>, b: seq<Row>, chat: string)
    requires NoRow(b, chat)
    ensures QueueOf(a + b, chat) == QueueOf(a, chat)
  {
    QueueOfConcat(a, b, chat);
    NoQueue(b, chat);
  }

  lemma {:induction false} QueueOfOne(chat: string, queue: seq<Decision>)
    ensures QueueOf([Row(chat, queue)], chat) == queue == QueueOf(Single(chat, queue), chat)
  {
  }

  /** Keeping works queue by queue. */
  lemma {:induction false} KeptQueue(rows: seq<Row>, r: Removal, chat: string)
    requires RowsOk(rows)
    ensures QueueOf(Kept(rows, r), chat) == Left(QueueOf(rows, chat), r)
  {
    if rows != [] {
      hide RowOk, Takes, Left, QueueOf;
      var init, last := rows[..|rows| - 1], rows[|rows| - 1];
      var left := Left(last.queue, r);
      assert rows == init + [last] && Kept(rows, r) == Kept(init, r) + Single(last.chat, left);
      KeptQueue(init, r, chat);
      KeptOk(init, r);
      if last.chat == chat {
        QueueOfConcat(init, [last], chat);
        QueueOfConcat(Kept(init, r), Single(chat, left), chat);
        QueueOfOne(chat, left);
        QueueOfOne(chat, last.queue);
      } else {
        QueueOfFront(init, [last], chat);
        QueueOfFront(Kept(init, r), Single(last.chat, left), chat);
      }
    }
  }

  lemma {:induction false} KeptHolds(rows: seq<Row>, r: Removal, d: Decision)
    requires RowsOk(rows)
    ensures Holds(Kept(rows, r), d) <==> Holds(rows, d) && !Takes(r, d)
  {
    KeptQueue(rows, r, d.chatID);
    LeftHolds(QueueOf(rows, d.chatID), r, d);
  }

  lemma {:induction false} KeptConcat(a: seq<Row>, b: seq<Row>, r: Removal)
    ensures Kept(a + b, r) == Kept(a, r) + Kept(b, r)
  {
    if b == [] {
      assert a + b == a;
    } else {
      hide Left, Single;
      var init, last := b[..|b| - 1], b[|b| - 1];
      KeptConcat(a, init, r);
      assert (a + b)[..|a + b| - 1] == a + init && (a + b)[|a + b| - 1] == last;
      Strings.ConcatAssociates(Kept(a, r), Kept(init, r), Single(last.chat, Left(last.queue, r)));
    }
  }

  /** Nothing of the row is taken. */
  predicate Spared(row: Row, r: Removal) {
    forall k :: 0 <= k < |row.queue| ==> !Takes(r, row.queue[k])
  }

  lemma {:induction false} SparedIsLeft(row: Row, r: Removal)
    requires Spared(row, r)
    ensures Left(row.queue, r) == row.queue
  {
    LeftNone(row.queue, r);
  }

  /** Nothing changes where nothing is taken. */
  lemma {:induction false} KeptAll(rows: seq<Row>, r: Removal)
    requires forall k :: 0 <= k < |rows| ==> RowOk(rows[k]) && Spared(rows[k], r)
    ensures Kept(rows, r) == rows
  {
    hide Left, RowOk, Spared;
    if rows != [] {
      var init, last := rows[..|rows| - 1], rows[|rows| - 1];
      KeptAll(init, r);
      NotEmpty(last);
      SparedIsLeft(last, r);
      assert rows == init + [Row(last.chat, last.queue)];
    }
  }

  lemma {:induction false} PutAt(a: seq<Row>, row: Row, b: seq<Row>, queue: seq<Decision>)
    requires NoRow(a, row.chat)
    ensures Put(a + [row] + b, row.chat, queue) == a + Single(row.chat, queue) + b
  {
    var all := a + [row] + b;
    if a == [] {
      assert all[1..] == b;
    } else {
      PutAt(a[1..], row, b, queue);
      assert all[1..] == a[1..] + [row] + b;
      assert a == [a[0]] + a[1..];
    }
  }

  lemma {:induction false} PutNew(rows: seq<Row>, chat: string, queue: seq<Decision>)
    requires NoRow(rows, chat)
    ensures Put(rows, chat, queue) == rows + Single(chat, queue)
  {
    if rows != [] {
      PutNew(rows[1..], chat, queue);
    }
  }

  lemma {:induction false} KeptOther(rows: seq<Row>, chat: string, r: Removal)
    requires RowsOk(rows) && forall d :: Takes(r, d) ==> d.chatID == chat
    requires NoRow(rows, chat)
    ensures Kept(rows, r) == rows
  {
    hide Takes;
    forall k | 0 <= k < |rows| ensures RowOk(rows[k]) && Spared(rows[k], r) {
      assert RowOk(rows[k]);
    }
    KeptAll(rows, r);
  }

  lemma {:induction false} KeptSingle(row: Row, r: Removal)
    ensures Kept([row], r) == Single(row.chat, Left(row.queue, r))
  {
    assert [row][..0] == [];
  }

  /** The rows around one of them. */
  lemma {:induction false} Around(rows: seq<Row>, i: nat)
    requires RowsOk(rows) && i < |rows|
    ensures rows == rows[..i] + [rows[i]] + rows[i + 1..] && RowsOk(rows[..i]) && RowsOk(rows[i + 1..])
    ensures NoRow(rows[..i], rows[i].chat) && NoRow(rows[i + 1..], rows[i].chat)
  {
    hide RowOk;
  }

  /** Rewriting one queue without what is taken is taking it from the whole dock, when it can be
      nowhere else. */
  lemma {:induction false} PutIsKept(rows: seq<Row>, chat: string, r: Removal)
    requires RowsOk(rows) && forall d :: Takes(r, d) ==> d.chatID == chat
    ensures Put(rows, chat, Left(QueueOf(rows, chat), r)) == Kept(rows, r)
  {
    hide Takes, Left, RowsOk, Kept, Put, QueueOf;
    if i :| 0 <= i < |rows| && rows[i].chat == chat {
      Around(rows, i);
      var a, b := rows[..i], rows[i + 1..];
      QueueOfAt(rows, i);
      PutAt(a, rows[i], b, Left(rows[i].queue, r));
      KeptConcat(a + [rows[i]], b, r);
      KeptConcat(a, [rows[i]], r);
      KeptSingle(rows[i], r);
      KeptOther(a, chat, r);
      KeptOther(b, chat, r);
    } else {
      NoQueue(rows, chat);
      PutNew(rows, chat, []);
      KeptOther(rows, chat, r);
      LeftAll([], r);
    }
  }

  // --------------------------------------------------------------------------- the dock

  /** The words typed for a run's asks, until they are over. */
  type Words = map<string, map<string, string>>

  function HeldFor(held: Words, workflow: string, ask: string): string {
    if workflow in held && ask in held[workflow] then held[workflow][ask] else ""
  }

  function Hold(held: Words, workflow: string, ask: string, text: string): Words {
    held[workflow := (if workflow in held then held[workflow] else map[])[ask := text]]
  }

  function Forget(held: Words, workflow: string, ask: string): Words {
    if workflow !in held then held
    else
      var byAsk := held[workflow] - {ask};
      if byAsk == map[] then held - {workflow} else held[workflow := byAsk]
  }

  /** What the queues, the held words and the answers sent so far are. */
  datatype Dock = Dock(rows: seq<Row>, held: Words, next: nat, submitted: seq<nat>)

  datatype Answer = Answered | Text(text: string) | WithoutAnswering

  /** A decision arrives; one that is already waiting in its queue is not queued again. */
  function Push(s: Dock, d: Decision): Dock {
    var card := d.(ref := s.next);
    var queue := QueueOf(s.rows, d.chatID);
    if exists k :: 0 <= k < |queue| && SameAsk(queue[k], d) then s.(next := s.next + 1)
    else s.(next := s.next + 1, rows := Put(s.rows, d.chatID, queue + [card]))
  }

  function Take(s: Dock, r: Removal): Dock {
    s.(rows := Kept(s.rows, r))
  }

  /** A click on any card, on any dock, shown now or long ago. */
  function Settled(s: Dock, d: Decision, answer: Answer): Dock {
    if !Holds(s.rows, d) then s
    else Take(s, One(d)).(submitted := s.submitted + [d.ref], held := HeldAfter(s.held, d, answer))
  }

  function HeldAfter(held: Words, d: Decision, answer: Answer): Words {
    if d.kind != RunInput || answer.Answered? then held
    else if answer.Text? then Hold(held, d.workflowID, d.identity, answer.text)
    else Forget(held, d.workflowID, d.identity)
  }

  function WithoutRunAsks(s: Dock, workflow: string): Dock {
    if workflow == "" then s else Take(s, OfRun(workflow)).(held := s.held - {workflow})
  }

  /** The first queued card of a run's ask, by walking the queues. */
  function AskCard(rows: seq<Row>, workflow: string, ask: string): seq<Decision> {
    if rows == [] then []
    else
      var found := FirstOf(rows[0].queue, OfAsk(workflow, ask));
      if found != [] then found else AskCard(rows[1..], workflow, ask)
  }

  function FirstOf(queue: seq<Decision>, r: Removal): (found: seq<Decision>)
    ensures |found| <= 1
  {
    if queue == [] then [] else if Takes(r, queue[0]) then [queue[0]] else FirstOf(queue[1..], r)
  }

  function SettleRunInput(s: Dock, workflow: string, ask: string): Dock {
    if workflow == "" || ask == "" then s
    else
      var card, t := AskCard(s.rows, workflow, ask), s.(held := Forget(s.held, workflow, ask));
      if card == [] then t else Take(t, One(card[0]))
  }

  class DecisionQueues {
    var rows: seq<Row>
    var held: Words
    var next: nat
    var submitted: seq<nat>

    ghost predicate Valid()
      reads this
    {
      RowsOk(rows) && FreshRefs(rows, next)
    }

    ghost function Abs(): Dock
      reads this
    {
      Dock(rows, held, next, submitted)
    }

    constructor ()
      ensures Valid() && Abs() == Dock([], map[], 0, [])
    {
      rows, held, next, submitted := [], map[], 0, [];
    }

    /** `findIndex`: the first of a queue a remover looks for, or its length. */
    static method FindIndex(queue: seq<Decision>, r: Removal) returns (i: nat)
      ensures i <= |queue| && (forall k :: 0 <= k < i ==> !Takes(r, queue[k]))
      ensures i < |queue| ==> Takes(r, queue[i])
    {
      i := 0;
      while i < |queue| && !Takes(r, queue[i])
        invariant i <= |queue| && forall k :: 0 <= k < i ==> !Takes(r, queue[k])
      {
        i := i + 1;
      }
    }

    static method Filter(queue: seq<Decision>, r: Removal) returns (rest: seq<Decision>)
      ensures rest == Left(queue, r)
    {
      rest := [];
      for i := 0 to |queue|
        invariant rest == Left(queue[..i], r)
      {
        assert queue[..i + 1][..i] == queue[..i];
        if !Takes(r, queue[i]) {
          rest := rest + [queue[i]];
        }
      }
      assert queue[..|queue|] == queue;
    }

    method PushDecision(d: Decision)
      requires Valid()
      modifies this`rows, this`next
      ensures Valid() && Abs() == Push(old(Abs()), d)
    {
      hide RowsOk, FreshRefs;
      PushOk(Abs(), d);
      var card := d.(ref := next);
      next := next + 1;
      var q := QueueOf(rows, card.chatID);
      for i := 0 to |q|
        invariant forall k :: 0 <= k < i ==> !SameAsk(q[k], card)
      {
        if SameAsk(q[i], card) {
          return;
        }
      }
      rows := Put(rows, card.chatID, q + [card]);
    }

    method DropDecisions(chat: string)
      requires Valid()
      modifies this`rows
      ensures Valid() && Abs() == Take(old(Abs()), OfChat(chat))
    {
      hide RowsOk, FreshRefs;
      KeptOk(rows, OfChat(chat));
      KeptFresh(rows, OfChat(chat), next);
      PutIsKept(rows, chat, OfChat(chat));
      AllOfChat(rows, chat);
      rows := Put(rows, chat, []);
    }

    method DropTurnDecisions(chat: string)
      requires Valid()
      modifies this`rows
      ensures Valid() && Abs() == Take(old(Abs()), OfTurn(chat))
    {
      hide RowsOk, FreshRefs;
      KeptOk(rows, OfTurn(chat));
      KeptFresh(rows, OfTurn(chat), next);
      PutIsKept(rows, chat, OfTurn(chat));
      var q := QueueOf(rows, chat);
      var rest := Filter(q, OfTurn(chat));
      if |rest| == |q| {
        LeftAll(q, OfTurn(chat));
        PutSame(rows, chat);
        return;
      }
      rows := Put(rows, chat, rest);
    }

    /** The queues of runs that have no chat. */
    method DropRunDecisions()
      requires Valid()
      modifies this`rows
      ensures Valid() && Abs() == Take(old(Abs()), OfRunKeys)
    {
      hide RowsOk, FreshRefs, Kept, Put;
      KeptOk(rows, OfRunKeys);
      KeptFresh(rows, OfRunKeys, next);
      var snapshot := rows;
      NothingKept(OfRunKeys);
      for i := 0 to |snapshot|
        invariant rows == Kept(snapshot[..i], OfRunKeys) + snapshot[i..]
      {
        KeptStep(snapshot, i, OfRunKeys);
        RunKeyRow(snapshot, i);
        if StartsWith(snapshot[i].chat, RUN_CHAT_PREFIX) {
          rows := Put(rows, snapshot[i].chat, []);
        }
      }
      assert snapshot[..|snapshot|] == snapshot && snapshot[|snapshot|..] == [];
      assert rows == Kept(snapshot, OfRunKeys);
    }

    method DropRunAsks(workflow: string)
      requires Valid()
      modifies this`rows, this`held
      ensures Valid() && Abs() == WithoutRunAsks(old(Abs()), workflow)
    {
      hide RowsOk, FreshRefs, Kept, Put;
      if workflow == "" {
        return;
      }
      held := held - {workflow};
      KeptOk(rows, OfRun(workflow));
      KeptFresh(rows, OfRun(workflow), next);
      NothingKept(OfRun(workflow));
      var snapshot := rows;
      for i := 0 to |snapshot|
        invariant held == old(held) - {workflow}
        invariant rows == Kept(snapshot[..i], OfRun(workflow)) + snapshot[i..]
      {
        KeptStep(snapshot, i, OfRun(workflow));
        var q := snapshot[i].queue;
        var rest := Filter(q, OfRun(workflow));
        LeftAll(q, OfRun(workflow));
        if |rest| != |q| {
          rows := Put(rows, snapshot[i].chat, rest);
        }
      }
      assert snapshot[..|snapshot|] == snapshot && snapshot[|snapshot|..] == [];
      assert rows == Kept(snapshot, OfRun(workflow));
    }

    /** An ask of the agent answered elsewhere; the run it was about, when its card was queued here. */
    method CollapseSettledDecision(chat: string, kind: Kind, identity: string) returns (found: bool, run: string)
      requires Valid()
      modifies this`rows
      ensures Valid() && Abs() == Take(old(Abs()), OfRequest(chat, kind, identity))
      ensures found <==> exists d :: d in QueueOf(old(rows), chat) && Takes(OfRequest(chat, kind, identity), d)
      ensures found ==>
        exists d :: d in QueueOf(old(rows), chat) && Takes(OfRequest(chat, kind, identity), d) && run == d.runID
    {
      hide RowsOk, FreshRefs, Kept, Put;
      var r := OfRequest(chat, kind, identity);
      KeptOk(rows, r);
      KeptFresh(rows, r, next);
      PutIsKept(rows, chat, r);
      QueueIsOwn(rows, chat);
      var q := QueueOf(rows, chat);
      var i := FindIndex(q, r);
      if i == |q| {
        LeftAll(q, r);
        PutSame(rows, chat);
        return false, "";
      }
      OneAskInQueue(Row(chat, q), i, r);
      LeftSplice(q, i, r);
      rows := Put(rows, chat, q[..i] + q[i + 1..]);
      assert q[i] in q;
      return true, q[i].runID;
    }

    /** The words of a reader: kept while a retry may bring the ask back. */
    method HoldAnswer(d: Decision, answer: Answer)
      requires d.kind == RunInput && !answer.Answered?
      modifies this`held
      ensures held == HeldAfter(old(held), d, answer)
    {
      if answer.WithoutAnswering? {
        held := Forget(held, d.workflowID, d.identity);
        return;
      }
      var byAsk := if d.workflowID in held then held[d.workflowID] else map[];
      held := held[d.workflowID := byAsk[d.identity := answer.text]];
    }

    /** The answer of a card: sent when its decision is still queued, and only then. */
    method Settle(d: Decision, answer: Answer)
      requires Valid()
      modifies this
      ensures Valid() && Abs() == Settled(old(Abs()), d, answer)
    {
      hide RowsOk, FreshRefs, Kept, Put;
      KeptOk(rows, One(d));
      KeptFresh(rows, One(d), next);
      PutIsKept(rows, d.chatID, One(d));
      QueueIsOwn(rows, d.chatID);
      var q := QueueOf(rows, d.chatID);
      var i := FindIndex(q, One(d));
      if i == |q| {
        return;
      }
      OneInQueue(Row(d.chatID, q), i);
      LeftSplice(q, i, One(d));
      rows := Put(rows, d.chatID, q[..i] + q[i + 1..]);
      if d.kind == RunInput && !answer.Answered? {
        HoldAnswer(d, answer);
      }
      submitted := submitted + [d.ref];
    }

    /** A run's ask answered or waived elsewhere. */
    method CollapseSettledRunInput(workflow: string, ask: string)
      requires Valid()
      modifies this`rows, this`held
      ensures Valid() && Abs() == SettleRunInput(old(Abs()), workflow, ask)
    {
      hide RowsOk, FreshRefs, Kept, Put;
      if workflow == "" || ask == "" {
        return;
      }
      held := Forget(held, workflow, ask);
      var r := OfAsk(workflow, ask);
      for k := 0 to |rows|
        invariant held == Forget(old(held), workflow, ask)
        invariant rows == old(rows) && AskCard(rows, workflow, ask) == AskCard(rows[k..], workflow, ask)
      {
        var q := rows[k].queue;
        var i := FindIndex(q, r);
        FirstAt(q, r, i);
        assert rows[k..][0] == rows[k] && rows[k..][1..] == rows[k + 1..];
        if i < |q| {
          var d := q[i];
          QueueOfAt(rows, k);
          QueueIsOwn(rows, rows[k].chat);
          assert d == QueueOf(rows, rows[k].chat)[i];
          KeptOk(rows, One(d));
          KeptFresh(rows, One(d), next);
          PutIsKept(rows, d.chatID, One(d));
          OneInQueue(Row(rows[k].chat, q), i);
          LeftSplice(q, i, One(d));
          assert AskCard(rows[k..], workflow, ask) == [d];
          assert q == QueueOf(rows, d.chatID);
          rows := Put(rows, d.chatID, q[..i] + q[i + 1..]);
          assert rows == Kept(old(rows), One(d));
          return;
        }
      }
    }

    method Do(op: Op)
      requires Valid()
      modifies this
      ensures Valid() && Abs() == Step(old(Abs()), op)
    {
      hide RowsOk, FreshRefs, Push, Take, Settled, WithoutRunAsks, SettleRunInput;
      match op
      case Arrives(d) => PushDecision(d);
      case Click(d, answer) => Settle(d, answer);
      case ChatGone(chat) => DropDecisions(chat);
      case RunKeysGone => DropRunDecisions();
      case RunEnded(workflow) => DropRunAsks(workflow);
      case TurnEnded(chat) => DropTurnDecisions(chat);
      case AnsweredElsewhere(chat, kind, identity) => var _, _ := CollapseSettledDecision(chat, kind, identity);
      case RunInputOver(workflow, ask) => CollapseSettledRunInput(workflow, ask);
    }

    method Play(ops: seq<Op>)
      requires Valid()
      modifies this
      ensures Valid() && Abs() == Run(old(Abs()), ops)
    {
      hide Step;
      for i := 0 to |ops|
        invariant Valid() && Abs() == Run(old(Abs()), ops[..i])
      {
        assert ops[..i + 1][..i] == ops[..i];
        Do(ops[i]);
      }
      assert ops[..|ops|] == ops;
    }

    method HasPendingDecision(chat: string) returns (pending: bool)
      requires Valid()
      ensures pending <==> exists k :: 0 <= k < |rows| && rows[k].chat == chat
    {
      pending := |QueueOf(rows, chat)| > 0;
      if k :| 0 <= k < |rows| && rows[k].chat == chat {
        QueueOfAt(rows, k);
        assert RowOk(rows[k]);
      } else {
        NoQueue(rows, chat);
      }
    }

    /** What one run waits for: how many asks, of which nodes, and the first one that says something. */
    method RunPendingAsks(workflow: string) returns (count: nat, nodes: set<string>, text: string)
      ensures count == |Asks(rows, workflow)|
      ensures forall n :: n in nodes <==> n != "" && Names(Asks(rows, workflow), n)
      ensures text == FirstText(Asks(rows, workflow))
    {
      count, nodes, text := 0, {}, "";
      if workflow == "" {
        NoAsks(rows);
        return;
      }
      ghost var seen: seq<Decision> := [];
      for k := 0 to |rows|
        invariant seen == Asks(rows[..k], workflow) && Counted(seen, count, nodes, text)
      {
        var q := rows[k].queue;
        ghost var before := seen;
        for j := 0 to |q|
          invariant seen == before + Owned(q[..j], workflow) && Counted(seen, count, nodes, text)
        {
          assert q[..j + 1][..j] == q[..j];
          if OwnedBy(q[j], workflow) {
            CountOne(seen, count, nodes, text, q[j]);
            seen := seen + [q[j]];
            count := count + 1;
            if q[j].node != "" {
              nodes := nodes + {q[j].node};
            }
            if text == "" {
              text := q[j].text;
            }
          }
        }
        assert q[..|q|] == q && rows[..k + 1][..k] == rows[..k];
      }
      assert rows[..|rows|] == rows;
    }
  }

  function Owned(queue: seq<Decision>, workflow: string): seq<Decision> {
    if queue == [] then []
    else
      var rest, last := Owned(queue[..|queue| - 1], workflow), queue[|queue| - 1];
      if OwnedBy(last, workflow) then rest + [last] else rest
  }

  /** A run's asks, over every queue. */
  function Asks(rows: seq<Row>, workflow: string): seq<Decision> {
    if rows == [] then [] else Asks(rows[..|rows| - 1], workflow) + Owned(rows[|rows| - 1].queue, workflow)
  }

  function FirstText(asks: seq<Decision>): string {
    if asks == [] then ""
    else
      var text := FirstText(asks[..|asks| - 1]);
      if text != "" then text else asks[|asks| - 1].text
  }

  ghost predicate Counted(asks: seq<Decision>, count: nat, nodes: set<string>, text: string) {
    && count == |asks| && text == FirstText(asks)
    && forall n :: n in nodes <==> n != "" && Names(asks, n)
  }

  predicate Names(asks: seq<Decision>, node: string) {
    exists k :: 0 <= k < |asks| && asks[k].node == node
  }

  lemma {:induction false} CountOne(asks: seq<Decision>, count: nat, nodes: set<string>, text: string, d: Decision)
    requires Counted(asks, count, nodes, text)
    ensures Counted(asks + [d], count + 1, if d.node != "" then nodes + {d.node} else nodes,
                    if text == "" then d.text else text)
  {
    var more := asks + [d];
    assert more[..|asks|] == asks;
    forall n ensures Names(more, n) <==> Names(asks, n) || n == d.node {
      if k :| 0 <= k < |asks| && asks[k].node == n {
        assert more[k].node == n;
      } else {
        assert more[|asks|].node == d.node;
      }
    }
  }

  lemma {:induction false} NoneOwned(queue: seq<Decision>)
    ensures Owned(queue, "") == []
  {
    if queue != [] {
      NoneOwned(queue[..|queue| - 1]);
    }
  }

  /** The first words any of them says. */
  lemma {:induction false} FirstTextIs(asks: seq<Decision>, k: nat)
    requires k < |asks| && asks[k].text != "" && forall j :: 0 <= j < k ==> asks[j].text == ""
    ensures FirstText(asks) == asks[k].text
    decreases |asks| - k
  {
    if k < |asks| - 1 {
      FirstTextIs(asks[..|asks| - 1], k);
    } else {
      NothingSaid(asks[..k]);
    }
  }

  lemma {:induction false} NothingSaid(asks: seq<Decision>)
    requires forall j :: 0 <= j < |asks| ==> asks[j].text == ""
    ensures FirstText(asks) == ""
  {
    if asks != [] {
      NothingSaid(asks[..|asks| - 1]);
    }
  }

  /** A run waits for the decisions filed under it and those that name it, each once. */
  lemma {:induction false} AsksAre(rows: seq<Row>, workflow: string, d: Decision)
    requires RowsOk(rows)
    ensures multiset(Asks(rows, workflow))[d] ==
      if Holds(rows, d) && workflow != "" && (d.runID == workflow || d.chatID == "run:" + workflow) then 1 else 0
  {
    if rows != [] {
      hide RowOk, OwnedBy, Owned, QueueOf;
      var init, last := rows[..|rows| - 1], rows[|rows| - 1];
      assert rows == init + [last];
      AsksAre(init, workflow, d);
      OwnedAre(last, workflow, d);
      OwnedIs(d, workflow);
      if last.chat == d.chatID {
        QueueOfConcat(init, [last], d.chatID);
      } else {
        QueueOfFront(init, [last], d.chatID);
      }
      QueueOfOne(last.chat, last.queue);
    }
  }

  lemma {:induction false} OwnedIs(d: Decision, workflow: string)
    ensures OwnedBy(d, workflow) <==> workflow != "" && (d.runID == workflow || d.chatID == "run:" + workflow)
  {
  }

  lemma {:induction false} OwnedAre(row: Row, workflow: string, d: Decision)
    requires RowOk(row)
    ensures multiset(Owned(row.queue, workflow))[d] == if d in row.queue && OwnedBy(d, workflow) then 1 else 0
    ensures d in row.queue ==> d.chatID == row.chat
    decreases |row.queue|
  {
    hide OwnedBy;
    var init, last := row.queue[..|row.queue| - 1], row.queue[|row.queue| - 1];
    assert row.queue == init + [last];
    if init != [] {
      OwnedAre(Row(row.chat, init), workflow, d);
    }
    assert last !in init;
  }

  lemma {:induction false} NoAsks(rows: seq<Row>)
    ensures Asks(rows, "") == []
  {
    if rows != [] {
      NoAsks(rows[..|rows| - 1]);
      NoneOwned(rows[|rows| - 1].queue);
    }
  }

  lemma {:induction false} NothingKept(r: Removal)
    ensures Kept([], r) == []
  {
  }

  /** The next queue rewritten, the ones in front of it already without what is taken. */
  lemma {:induction false} KeptStep(rows: seq<Row>, i: nat, r: Removal)
    requires RowsOk(rows) && i < |rows|
    ensures var left := Left(rows[i].queue, r);
      && Put(Kept(rows[..i], r) + rows[i..], rows[i].chat, left) == Kept(rows[..i + 1], r) + rows[i + 1..]
      && (left == rows[i].queue ==> Kept(rows[..i], r) + rows[i..] == Kept(rows[..i + 1], r) + rows[i + 1..])
  {
    hide RowOk, Left, Put;
    var row, done := rows[i], Kept(rows[..i], r);
    Around(rows, i);
    KeptOk(rows[..i], r);
    assert NoRow(done, row.chat);
    PutAt(done, row, rows[i + 1..], Left(row.queue, r));
    assert done + rows[i..] == done + [row] + rows[i + 1..];
    assert rows[..i + 1][..i] == rows[..i];
    NotEmpty(row);
  }

  lemma {:induction false} RunKeyRow(rows: seq<Row>, i: nat)
    requires RowsOk(rows) && i < |rows|
    ensures Left(rows[i].queue, OfRunKeys) == if StartsWith(rows[i].chat, RUN_CHAT_PREFIX) then [] else rows[i].queue
  {
    assert RowOk(rows[i]);
    LeftAll(rows[i].queue, OfRunKeys);
  }

  lemma {:induction false} OneAskInQueue(row: Row, i: nat, r: Removal)
    requires RowOk(row) && r.OfRequest? && i < |row.queue| && Takes(r, row.queue[i])
    ensures forall k :: 0 <= k < |row.queue| && k != i ==> !Takes(r, row.queue[k])
  {
    forall k | 0 <= k < |row.queue| && k != i ensures !SameAsk(row.queue[k], row.queue[i]) {
      assert if k < i then !SameAsk(row.queue[k], row.queue[i]) else !SameAsk(row.queue[i], row.queue[k]);
    }
  }

  lemma {:induction false} OneInQueue(row: Row, i: nat)
    requires RowOk(row) && i < |row.queue|
    ensures forall k :: 0 <= k < |row.queue| && k != i ==> !Takes(One(row.queue[i]), row.queue[k])
  {
    forall k | 0 <= k < |row.queue| && k != i ensures row.queue[k].ref != row.queue[i].ref {
    }
  }

  lemma {:induction false} FirstAt(queue: seq<Decision>, r: Removal, i: nat)
    requires i <= |queue| && (forall k :: 0 <= k < i ==> !Takes(r, queue[k])) && (i < |queue| ==> Takes(r, queue[i]))
    ensures FirstOf(queue, r) == if i < |queue| then [queue[i]] else []
  {
    if i > 0 {
      FirstAt(queue[1..], r, i - 1);
    }
  }

  lemma {:induction false} AllOfChat(rows: seq<Row>, chat: string)
    requires RowsOk(rows)
    ensures Left(QueueOf(rows, chat), OfChat(chat)) == []
  {
    QueueIsOwn(rows, chat);
    LeftAll(QueueOf(rows, chat), OfChat(chat));
  }

  lemma {:induction false} QueueIsOwn(rows: seq<Row>, chat: string)
    requires RowsOk(rows)
    ensures forall k :: 0 <= k < |QueueOf(rows, chat)| ==> QueueOf(rows, chat)[k].chatID == chat
    ensures QueueOf(rows, chat) != [] ==> RowOk(Row(chat, QueueOf(rows, chat)))
  {
    if i :| 0 <= i < |rows| && rows[i].chat == chat {
      QueueOfAt(rows, i);
      assert RowOk(rows[i]) && rows[i] == Row(chat, rows[i].queue);
    } else {
      NoQueue(rows, chat);
    }
  }

  lemma {:induction false} RowAt(rows: seq<Row>, i: nat)
    requires RowsOk(rows) && i < |rows|
    ensures RowOk(rows[i])
  {
  }

  lemma {:induction false} PutSame(rows: seq<Row>, chat: string)
    requires RowsOk(rows)
    ensures Put(rows, chat, QueueOf(rows, chat)) == rows
  {
    if i :| 0 <= i < |rows| && rows[i].chat == chat {
      hide QueueOf, Put, RowsOk;
      QueueOfAt(rows, i);
      Around(rows, i);
      PutAt(rows[..i], rows[i], rows[i + 1..], rows[i].queue);
      assert RowOk(rows[i]) by { RowAt(rows, i); }
    } else {
      NoQueue(rows, chat);
      PutNew(rows, chat, []);
    }
  }

  /** Every queued decision was pushed earlier. */
  predicate FreshRefs(rows: seq<Row>, next: nat) {
    forall k :: 0 <= k < |rows| ==> AllBelow(rows[k].queue, next)
  }

  predicate AllBelow(queue: seq<Decision>, next: nat) {
    forall j :: 0 <= j < |queue| ==> queue[j].ref < next
  }

  lemma {:induction false} KeptFresh(rows: seq<Row>, r: Removal, next: nat)
    requires FreshRefs(rows, next)
    ensures FreshRefs(Kept(rows, r), next)
  {
    if rows != [] {
      var queue := rows[|rows| - 1].queue;
      KeptFresh(rows[..|rows| - 1], r, next);
      forall j | 0 <= j < |Left(queue, r)| ensures Left(queue, r)[j].ref < next {
        LeftHolds(queue, r, Left(queue, r)[j]);
      }
    }
  }

  /** A queue put back into its row keeps the rows in order. */
  lemma {:induction false} PutOk(rows: seq<Row>, chat: string, queue: seq<Decision>, next: nat)
    requires RowsOk(rows) && FreshRefs(rows, next) && RowOk(Row(chat, queue)) && AllBelow(queue, next)
    ensures RowsOk(Put(rows, chat, queue)) && FreshRefs(Put(rows, chat, queue), next)
  {
    hide RowOk, AllBelow, Put;
    assert queue != [] by { NotEmpty(Row(chat, queue)); }
    if i :| 0 <= i < |rows| && rows[i].chat == chat {
      Around(rows, i);
      PutAt(rows[..i], rows[i], rows[i + 1..], queue);
      assert Put(rows, chat, queue) == rows[i := Row(chat, queue)];
    } else {
      PutNew(rows, chat, queue);
    }
  }

  lemma {:induction false} NotEmpty(row: Row)
    requires RowOk(row)
    ensures row.queue != []
  {
  }

  lemma {:induction false} PushOk(s: Dock, d: Decision)
    requires RowsOk(s.rows) && FreshRefs(s.rows, s.next)
    ensures RowsOk(Push(s, d).rows) && FreshRefs(Push(s, d).rows, Push(s, d).next)
  {
    hide RowOk, RowsOk, Put;
    var queue, card := QueueOf(s.rows, d.chatID), d.(ref := s.next);
    FreshRefsGrow(s.rows, s.next);
    if forall k :: 0 <= k < |queue| ==> !SameAsk(queue[k], d) {
      QueueIsOwn(s.rows, d.chatID);
      QueueIsFresh(s.rows, d.chatID, s.next);
      AppendOk(Row(d.chatID, queue), card);
      PutOk(s.rows, d.chatID, queue + [card], s.next + 1);
    }
  }

  lemma {:induction false} FreshRefsGrow(rows: seq<Row>, next: nat)
    requires FreshRefs(rows, next)
    ensures FreshRefs(rows, next + 1)
  {
  }

  lemma {:induction false} QueueIsFresh(rows: seq<Row>, chat: string, next: nat)
    requires RowsOk(rows) && FreshRefs(rows, next)
    ensures forall k :: 0 <= k < |QueueOf(rows, chat)| ==> QueueOf(rows, chat)[k].ref < next
  {
    if i :| 0 <= i < |rows| && rows[i].chat == chat {
      QueueOfAt(rows, i);
    } else {
      NoQueue(rows, chat);
    }
  }

  // ------------------------------------------------------------------------ over every run

  datatype Op =
    | Arrives(d: Decision)
    | Click(d: Decision, answer: Answer)
    | ChatGone(chat: string)
    | RunKeysGone
    | RunEnded(workflow: string)
    | TurnEnded(chat: string)
    | AnsweredElsewhere(chat: string, kind: Kind, identity: string)
    | RunInputOver(workflow: string, ask: string)

  function Step(s: Dock, op: Op): Dock {
    match op
    case Arrives(d) => Push(s, d)
    case Click(d, answer) => Settled(s, d, answer)
    case ChatGone(chat) => Take(s, OfChat(chat))
    case RunKeysGone => Take(s, OfRunKeys)
    case RunEnded(workflow) => WithoutRunAsks(s, workflow)
    case TurnEnded(chat) => Take(s, OfTurn(chat))
    case AnsweredElsewhere(chat, kind, identity) => Take(s, OfRequest(chat, kind, identity))
    case RunInputOver(workflow, ask) => SettleRunInput(s, workflow, ask)
  }

  function Run(s: Dock, ops: seq<Op>): Dock {
    if ops == [] then s else Step(Run(s, ops[..|ops| - 1]), ops[|ops| - 1])
  }

  /** Every queue in order, no answer sent twice, and nothing both answered and still waiting. */
  ghost predicate Orderly(s: Dock) {
    && RowsOk(s.rows) && FreshRefs(s.rows, s.next)
    && (forall d, e :: Holds(s.rows, d) && Holds(s.rows, e) && d.ref == e.ref ==> d == e)
    && (forall k :: 0 <= k < |s.submitted| ==> s.submitted[k] < s.next && !Waiting(s.rows, s.submitted[k]))
    && (forall j, k :: 0 <= j < k < |s.submitted| ==> s.submitted[j] != s.submitted[k])
  }

  ghost predicate Waiting(rows: seq<Row>, ref: nat) {
    exists d :: Holds(rows, d) && d.ref == ref
  }

  lemma {:induction false} PutQueue(rows: seq<Row>, chat: string, queue: seq<Decision>, other: string)
    requires RowsOk(rows)
    ensures QueueOf(Put(rows, chat, queue), other) == if other == chat then queue else QueueOf(rows, other)
  {
    hide RowOk;
    if rows != [] {
      if rows[0].chat == chat {
        NoQueue(rows[1..], chat);
        assert rows == [rows[0]] + rows[1..];
        QueueOfConcat(Single(chat, queue), rows[1..], other);
      } else {
        assert RowsOk(rows[1..]);
        PutQueue(rows[1..], chat, queue, other);
        assert ([rows[0]] + Put(rows[1..], chat, queue))[1..] == Put(rows[1..], chat, queue);
      }
    }
  }

  predicate Accepts(s: Dock, d: Decision) {
    forall k :: 0 <= k < |QueueOf(s.rows, d.chatID)| ==> !SameAsk(QueueOf(s.rows, d.chatID)[k], d)
  }

  lemma {:induction false} PushHolds(s: Dock, d: Decision, e: Decision)
    requires RowsOk(s.rows)
    ensures Holds(Push(s, d).rows, e) <==> Holds(s.rows, e) || (Accepts(s, d) && e == d.(ref := s.next))
  {
    hide Put;
    var queue := QueueOf(s.rows, d.chatID);
    PutQueue(s.rows, d.chatID, queue + [d.(ref := s.next)], e.chatID);
  }

  lemma {:induction false} HeldRefBelow(s: Dock, d: Decision)
    requires RowsOk(s.rows) && FreshRefs(s.rows, s.next) && Holds(s.rows, d)
    ensures d.ref < s.next
  {
    QueueIsFresh(s.rows, d.chatID, s.next);
  }

  lemma {:induction false} PushOrderly(s: Dock, d: Decision)
    requires Orderly(s)
    ensures Orderly(Push(s, d))
  {
    hide RowsOk, FreshRefs, Holds, Accepts;
    PushOk(s, d);
    var t := Push(s, d);
    forall e ensures Holds(t.rows, e) <==> Holds(s.rows, e) || (Accepts(s, d) && e == d.(ref := s.next)) {
      PushHolds(s, d, e);
    }
    forall e | Holds(s.rows, e) ensures e.ref < s.next {
      HeldRefBelow(s, e);
    }
  }

  lemma {:induction false} TakeOrderly(s: Dock, r: Removal)
    requires Orderly(s)
    ensures Orderly(Take(s, r))
    ensures forall d :: Holds(Take(s, r).rows, d) <==> Holds(s.rows, d) && !Takes(r, d)
  {
    hide RowsOk, FreshRefs, Holds, Takes;
    KeptOk(s.rows, r);
    KeptFresh(s.rows, r, s.next);
    forall d ensures Holds(Kept(s.rows, r), d) <==> Holds(s.rows, d) && !Takes(r, d) {
      KeptHolds(s.rows, r, d);
    }
  }

  lemma {:induction false} SettledOrderly(s: Dock, d: Decision, answer: Answer)
    requires Orderly(s)
    ensures Orderly(Settled(s, d, answer))
  {
    hide RowsOk, FreshRefs, Holds;
    TakeOrderly(s, One(d));
    if Holds(s.rows, d) {
      HeldRefBelow(s, d);
    }
  }

  lemma {:induction false} StepOrderly(s: Dock, op: Op)
    requires Orderly(s)
    ensures Orderly(Step(s, op))
  {
    hide Push, Settled, Kept, Takes, RowsOk, FreshRefs, AskCard, Holds;
    match op
    case Arrives(d) => PushOrderly(s, d);
    case Click(d, answer) => SettledOrderly(s, d, answer);
    case RunInputOver(workflow, ask) =>
      if AskCard(s.rows, workflow, ask) != [] {
        TakeOrderly(s, One(AskCard(s.rows, workflow, ask)[0]));
      }
    case ChatGone(chat) => TakeOrderly(s, OfChat(chat));
    case RunKeysGone => TakeOrderly(s, OfRunKeys);
    case RunEnded(workflow) => TakeOrderly(s, OfRun(workflow));
    case TurnEnded(chat) => TakeOrderly(s, OfTurn(chat));
    case AnsweredElsewhere(chat, kind, identity) => TakeOrderly(s, OfRequest(chat, kind, identity));
  }

  /** Over every interleaving of arrivals, clicks on any dock and removals: no queue is empty, no ask is
      queued twice, each queue is in order of arrival, and no answer goes out twice. */
  lemma {:induction false} RunOrderly(s: Dock, ops: seq<Op>)
    requires Orderly(s)
    ensures Orderly(Run(s, ops))
  {
    hide Orderly, Step;
    if ops != [] {
      RunOrderly(s, ops[..|ops| - 1]);
      StepOrderly(Run(s, ops[..|ops| - 1]), ops[|ops| - 1]);
    }
  }

  lemma {:induction false} StepGone(s: Dock, op: Op, ref: nat)
    requires Orderly(s) && ref < s.next && !Waiting(s.rows, ref)
    ensures var t := Step(s, op);
      ref < t.next && !Waiting(t.rows, ref) && (ref in t.submitted <==> ref in s.submitted)
  {
    hide Orderly, Holds, RowsOk, Takes;
    assert RowsOk(s.rows) by { OrderlyRows(s); }
    match op
    case Arrives(d) =>
      forall e | Holds(Step(s, op).rows, e) ensures e.ref != ref {
        PushHolds(s, d, e);
      }
    case Click(d, answer) => TakeOrderly(s, One(d));
    case RunInputOver(workflow, ask) =>
      if AskCard(s.rows, workflow, ask) != [] {
        TakeOrderly(s, One(AskCard(s.rows, workflow, ask)[0]));
      }
    case ChatGone(chat) => TakeOrderly(s, OfChat(chat));
    case RunKeysGone => TakeOrderly(s, OfRunKeys);
    case RunEnded(workflow) => TakeOrderly(s, OfRun(workflow));
    case TurnEnded(chat) => TakeOrderly(s, OfTurn(chat));
    case AnsweredElsewhere(chat, kind, identity) => TakeOrderly(s, OfRequest(chat, kind, identity));
  }

  lemma {:induction false} OrderlyRows(s: Dock)
    requires Orderly(s)
    ensures RowsOk(s.rows)
  {
  }

  /** A decision that has left its queue never comes back and is never answered any more, whatever is
      clicked later and wherever its card is still on screen. */
  lemma {:induction false} GoneForGood(s: Dock, ops: seq<Op>, ref: nat)
    requires Orderly(s) && ref < s.next && !Waiting(s.rows, ref)
    ensures var t := Run(s, ops);
      ref < t.next && !Waiting(t.rows, ref) && (ref in t.submitted <==> ref in s.submitted)
  {
    hide Orderly, Step, Waiting;
    if ops != [] {
      GoneForGood(s, ops[..|ops| - 1], ref);
      RunOrderly(s, ops[..|ops| - 1]);
      StepGone(Run(s, ops[..|ops| - 1]), ops[|ops| - 1], ref);
    }
  }

  // What is answered.

  /** A click on a queued decision answers it and takes it alone; a click on any other does nothing. */
  lemma {:induction false} ClickAnswers(s: Dock, d: Decision, answer: Answer, e: Decision)
    requires RowsOk(s.rows)
    ensures var t := Step(s, Click(d, answer));
      && (Holds(s.rows, d) ==> t.submitted == s.submitted + [d.ref])
      && (Holds(s.rows, d) ==> (Holds(t.rows, e) <==> Holds(s.rows, e) && e != d))
      && (!Holds(s.rows, d) ==> t == s)
  {
    hide RowsOk, Holds, Kept;
    KeptHolds(s.rows, One(d), e);
  }

  /** Nothing but a click answers anything. */
  lemma {:induction false} OnlyClicksAnswer(s: Dock, op: Op)
    requires !op.Click?
    ensures Step(s, op).submitted == s.submitted
  {
  }

  /** Step `k` of the run is a click on the decision of this number, while it is queued. */
  ghost predicate ClickedAt(s: Dock, ops: seq<Op>, k: nat, ref: nat) {
    k < |ops| && ops[k].Click? && ops[k].d.ref == ref && Holds(Run(s, ops[..k]).rows, ops[k].d)
  }

  /** Over every run a decision is answered exactly when it was clicked while it was queued. */
  lemma {:induction false} AnsweredIffClicked(s: Dock, ops: seq<Op>, ref: nat)
    requires Orderly(s)
    ensures ref in Run(s, ops).submitted <==> ref in s.submitted || exists k :: ClickedAt(s, ops, k, ref)
  {
    hide Orderly, Step, Holds;
    if ops != [] {
      var init, last := ops[..|ops| - 1], ops[|ops| - 1];
      AnsweredIffClicked(s, init, ref);
      RunOrderly(s, init);
      OrderlyRows(Run(s, init));
      if last.Click? {
        ClickAnswers(Run(s, init), last.d, last.answer, last.d);
      } else {
        OnlyClicksAnswer(Run(s, init), last);
      }
      forall k: nat | k < |init| ensures ClickedAt(s, init, k, ref) <==> ClickedAt(s, ops, k, ref) {
        assert init[..k] == ops[..k];
      }
      assert ClickedAt(s, ops, |init|, ref) <==> last.Click? && last.d.ref == ref && Holds(Run(s, init).rows, last.d);
    }
  }

  // What a run waits for.

  lemma {:induction false} LeftNotOwned(queue: seq<Decision>, workflow: string)
    requires workflow != ""
    ensures Owned(Left(queue, OfRun(workflow)), workflow) == []
  {
    if queue != [] {
      var rest := Left(queue[..|queue| - 1], OfRun(workflow));
      LeftNotOwned(queue[..|queue| - 1], workflow);
      assert (rest + [queue[|queue| - 1]])[..|rest|] == rest;
    }
  }

  /** Once a run's asks are dropped it waits for nothing: the remover and the count read the same join. */
  lemma {:induction false} NothingPending(s: Dock, workflow: string)
    requires workflow != ""
    ensures Asks(WithoutRunAsks(s, workflow).rows, workflow) == []
  {
    NothingOwned(s.rows, workflow);
  }

  lemma {:induction false} NothingOwned(rows: seq<Row>, workflow: string)
    requires workflow != ""
    ensures Asks(Kept(rows, OfRun(workflow)), workflow) == []
  {
    if rows != [] {
      var last := rows[|rows| - 1];
      var done, left := Kept(rows[..|rows| - 1], OfRun(workflow)), Left(last.queue, OfRun(workflow));
      NothingOwned(rows[..|rows| - 1], workflow);
      LeftNotOwned(last.queue, workflow);
      if left != [] {
        assert (done + [Row(last.chat, left)])[..|done|] == done;
      } else {
        assert done + [] == done;
      }
    }
  }

  /** What an operation may take out of the queues. */
  predicate MayTake(s: Dock, op: Op, d: Decision) {
    match op
    case Arrives(_) => false
    case Click(e, _) => d == e
    case ChatGone(chat) => d.chatID == chat
    case RunKeysGone => "run:" <= d.chatID
    case RunEnded(workflow) => workflow != "" && (d.runID == workflow || d.chatID == "run:" + workflow)
    case TurnEnded(chat) => d.chatID == chat && d.runID == ""
    case AnsweredElsewhere(chat, kind, identity) =>
      d.chatID == chat && d.kind == kind && kind != RunInput && d.identity == identity
    case RunInputOver(workflow, ask) => d.kind == RunInput && d.workflowID == workflow && d.identity == ask
  }

  lemma {:induction false} AskCardIsOne(rows: seq<Row>, workflow: string, ask: string)
    ensures |AskCard(rows, workflow, ask)| <= 1
    ensures AskCard(rows, workflow, ask) != [] ==> Takes(OfAsk(workflow, ask), AskCard(rows, workflow, ask)[0])
  {
    if rows != [] {
      FirstTakes(rows[0].queue, OfAsk(workflow, ask));
      AskCardIsOne(rows[1..], workflow, ask);
    }
  }

  lemma {:induction false} FirstTakes(queue: seq<Decision>, r: Removal)
    ensures FirstOf(queue, r) != [] ==> Takes(r, FirstOf(queue, r)[0])
  {
    if queue != [] {
      FirstTakes(queue[1..], r);
    }
  }

  /** Every other decision stays where it is; a run's ask survives the end of a turn. */
  lemma {:induction false} OthersStay(s: Dock, op: Op, d: Decision)
    requires Orderly(s) && Holds(s.rows, d) && !MayTake(s, op, d)
    ensures Holds(Step(s, op).rows, d)
  {
    hide Orderly, Holds, RowsOk;
    assert RowsOk(s.rows) by { OrderlyRows(s); }
    match op
    case Arrives(e) => PushHolds(s, e, d);
    case Click(e, answer) => TakeOrderly(s, One(e));
    case RunInputOver(workflow, ask) =>
      AskCardIsOne(s.rows, workflow, ask);
      if AskCard(s.rows, workflow, ask) != [] {
        TakeOrderly(s, One(AskCard(s.rows, workflow, ask)[0]));
      }
    case ChatGone(chat) => TakeOrderly(s, OfChat(chat));
    case RunKeysGone => TakeOrderly(s, OfRunKeys);
    case RunEnded(workflow) => TakeOrderly(s, OfRun(workflow));
    case TurnEnded(chat) => TakeOrderly(s, OfTurn(chat));
    case AnsweredElsewhere(chat, kind, identity) => TakeOrderly(s, OfRequest(chat, kind, identity));
  }

  /** And what may be taken is taken, of every queue it waits in; of a run's ask that is over only one
      card (`OneCardLeaves`). */
  lemma {:induction false} TakesExactly(s: Dock, op: Op, d: Decision)
    requires RowsOk(s.rows) && !op.Arrives? && !op.RunInputOver?
    ensures Holds(Step(s, op).rows, d) <==> Holds(s.rows, d) && !MayTake(s, op, d)
  {
    hide Holds, RowsOk, Kept;
    match op
    case Click(e, answer) => KeptHolds(s.rows, One(e), d);
    case ChatGone(chat) => KeptHolds(s.rows, OfChat(chat), d);
    case RunKeysGone => KeptHolds(s.rows, OfRunKeys, d);
    case RunEnded(workflow) => KeptHolds(s.rows, OfRun(workflow), d);
    case TurnEnded(chat) => KeptHolds(s.rows, OfTurn(chat), d);
    case AnsweredElsewhere(chat, kind, identity) => KeptHolds(s.rows, OfRequest(chat, kind, identity), d);
  }

  /** What arrives comes last in its own chat's queue, unless that queue holds one of its kind and
      identity; either way it has a number of its own, and nothing else changes. */
  lemma {:induction false} ArrivalQueues(s: Dock, d: Decision, chat: string)
    requires RowsOk(s.rows)
    ensures var t, queue := Step(s, Arrives(d)), QueueOf(s.rows, d.chatID);
      && (chat != d.chatID ==> QueueOf(t.rows, chat) == QueueOf(s.rows, chat))
      && ((exists k :: 0 <= k < |queue| && queue[k].kind == d.kind && queue[k].identity == d.identity) ==>
            QueueOf(t.rows, d.chatID) == queue)
      && ((forall k :: 0 <= k < |queue| ==> queue[k].kind != d.kind || queue[k].identity != d.identity) ==>
            QueueOf(t.rows, d.chatID) == queue + [d.(ref := s.next)])
      && t.next == s.next + 1 && t.held == s.held && t.submitted == s.submitted
  {
    hide RowsOk, Put, QueueOf;
    var queue := QueueOf(s.rows, d.chatID);
    PutQueue(s.rows, d.chatID, queue + [d.(ref := s.next)], d.chatID);
    PutQueue(s.rows, d.chatID, queue + [d.(ref := s.next)], chat);
  }

  // What a settle frame leaves.

  lemma {:induction false} FirstOfFinds(queue: seq<Decision>, r: Removal)
    ensures FirstOf(queue, r) != [] ==> FirstOf(queue, r)[0] in queue
    ensures FirstOf(queue, r) == [] ==> forall d :: d in queue ==> !Takes(r, d)
  {
    hide Takes;
    if queue != [] {
      FirstOfFinds(queue[1..], r);
      assert forall d :: d in queue ==> d == queue[0] || d in queue[1..];
    }
  }

  /** The walk finds a card of the ask whenever one is queued anywhere. */
  lemma {:induction false} AskCardFinds(rows: seq<Row>, workflow: string, ask: string)
    requires RowsOk(rows)
    ensures AskCard(rows, workflow, ask) != [] ==> Holds(rows, AskCard(rows, workflow, ask)[0])
    ensures AskCard(rows, workflow, ask) == [] ==> forall d :: Holds(rows, d) ==> !Takes(OfAsk(workflow, ask), d)
  {
    hide Takes;
    if rows != [] {
      assert RowOk(rows[0]) && RowsOk(rows[1..]);
      FirstOfFinds(rows[0].queue, OfAsk(workflow, ask));
      AskCardFinds(rows[1..], workflow, ask);
      NoQueue(rows[1..], rows[0].chat);
    }
  }

  /** A queue holds one decision of an ask at most. */
  lemma {:induction false} OneAskAQueue(rows: seq<Row>, d: Decision, e: Decision)
    requires RowsOk(rows) && Holds(rows, d) && Holds(rows, e) && d.chatID == e.chatID && SameAsk(d, e)
    ensures d == e
  {
    QueueIsOwn(rows, d.chatID);
  }

  /** A card of a run's ask that is queued somewhere. */
  predicate Asked(rows: seq<Row>, workflow: string, ask: string, d: Decision) {
    IsAsk(d, workflow, ask) && Holds(rows, d)
  }

  /** It takes the first card of the ask that the walk finds, and nothing else. */
  lemma {:induction false} SettleTakesFirst(s: Dock, workflow: string, ask: string, d: Decision)
    requires RowsOk(s.rows) && workflow != "" && ask != ""
    ensures Holds(Step(s, RunInputOver(workflow, ask)).rows, d) <==>
      Holds(s.rows, d) && (AskCard(s.rows, workflow, ask) != [] ==> d != AskCard(s.rows, workflow, ask)[0])
  {
    hide RowsOk, Kept, Holds, AskCard;
    if AskCard(s.rows, workflow, ask) != [] {
      KeptHolds(s.rows, One(AskCard(s.rows, workflow, ask)[0]), d);
    }
  }

  predicate IsAsk(d: Decision, workflow: string, ask: string) {
    d.kind == RunInput && d.workflowID == workflow && d.identity == ask
  }

  /** Rows in front of `i` hold no card of the ask, and row `i` holds this one. */
  predicate FirstCard(rows: seq<Row>, i: int, workflow: string, ask: string, d: Decision) {
    && 0 <= i < |rows| && d in rows[i].queue && IsAsk(d, workflow, ask)
    && forall j, e :: 0 <= j < i && e in rows[j].queue ==> !IsAsk(e, workflow, ask)
  }

  lemma {:induction false} CardIsFirst(rows: seq<Row>, workflow: string, ask: string) returns (i: nat)
    requires AskCard(rows, workflow, ask) != []
    ensures FirstCard(rows, i, workflow, ask, AskCard(rows, workflow, ask)[0])
  {
    FirstOfFinds(rows[0].queue, OfAsk(workflow, ask));
    FirstTakes(rows[0].queue, OfAsk(workflow, ask));
    if FirstOf(rows[0].queue, OfAsk(workflow, ask)) != [] {
      i := 0;
    } else {
      i := CardIsFirst(rows[1..], workflow, ask);
      i := i + 1;
      assert forall j :: 0 < j <= i ==> rows[j] == rows[1..][j - 1];
    }
  }

  /** A run's ask that is over loses the card of the first queue that holds one, wherever it is, and no
      other decision leaves. */
  lemma {:induction false} OneCardLeaves(s: Dock, workflow: string, ask: string, d: Decision)
    requires RowsOk(s.rows)
    ensures workflow == "" || ask == "" ==> Step(s, RunInputOver(workflow, ask)) == s
    ensures workflow != "" && ask != "" ==>
      (Holds(Step(s, RunInputOver(workflow, ask)).rows, d) <==>
       Holds(s.rows, d) && !exists i :: FirstCard(s.rows, i, workflow, ask, d))
  {
    if workflow == "" || ask == "" {
      return;
    }
    hide RowsOk, Holds, AskCard, Step, FirstCard;
    SettleTakesFirst(s, workflow, ask, d);
    AskCardFinds(s.rows, workflow, ask);
    if AskCard(s.rows, workflow, ask) == [] {
      forall i | FirstCard(s.rows, i, workflow, ask, d) ensures !Holds(s.rows, d) {
        FirstIsAsk(s.rows, i, workflow, ask, d);
      }
    } else {
      var n := CardIsFirst(s.rows, workflow, ask);
      forall i | FirstCard(s.rows, i, workflow, ask, d) ensures d == AskCard(s.rows, workflow, ask)[0] {
        OneFirst(s.rows, i, n, workflow, ask, d, AskCard(s.rows, workflow, ask)[0]);
      }
    }
  }

  lemma {:induction false} FirstIsAsk(rows: seq<Row>, i: int, workflow: string, ask: string, d: Decision)
    requires FirstCard(rows, i, workflow, ask, d)
    ensures Takes(OfAsk(workflow, ask), d)
  {
  }

  lemma {:induction false} OneFirst(rows: seq<Row>, i: int, n: int, workflow: string, ask: string, d: Decision,
                                    e: Decision)
    requires RowsOk(rows) && FirstCard(rows, i, workflow, ask, d) && FirstCard(rows, n, workflow, ask, e)
    ensures d == e
  {
    assert i == n && RowOk(rows[i]);
    var j, k :| 0 <= j < |rows[i].queue| && 0 <= k < |rows[i].queue|
                && rows[i].queue[j] == d && rows[i].queue[k] == e;
    assert SameAsk(d, e);
  }

  /** The frame that settles a run's ask leaves no card of it waiting, exactly when at most one queue
      held one. */
  lemma {:induction false} SettleClearsIff(s: Dock, workflow: string, ask: string)
    requires RowsOk(s.rows) && workflow != "" && ask != ""
    ensures (forall d :: !Asked(Step(s, RunInputOver(workflow, ask)).rows, workflow, ask, d)) <==>
      forall d, e :: Asked(s.rows, workflow, ask, d) && Asked(s.rows, workflow, ask, e) ==> d.chatID == e.chatID
  {
    hide RowsOk, Kept, Holds, AskCard, Step;
    var rows, after := s.rows, Step(s, RunInputOver(workflow, ask)).rows;
    AskCardIsOne(rows, workflow, ask);
    AskCardFinds(rows, workflow, ask);
    forall d
      ensures Asked(after, workflow, ask, d) <==>
        Asked(rows, workflow, ask, d) && d != AskCard(rows, workflow, ask)[0]
    {
      SettleTakesFirst(s, workflow, ask, d);
    }
    if d, e :| Asked(rows, workflow, ask, d) && Asked(rows, workflow, ask, e) && d.chatID != e.chatID {
      assert Asked(after, workflow, ask, d) || Asked(after, workflow, ask, e);
    } else if d :| Asked(after, workflow, ask, d) {
      OneAskAQueue(rows, d, AskCard(rows, workflow, ask)[0]);
    }
  }

  lemma {:induction false} FirstArrives(d: Decision)
    requires d.ref == 0
    ensures Push(Dock([], map[], 0, []), d) == Dock([Row(d.chatID, [d])], map[], 1, [])
  {
    assert Put([], d.chatID, [d]) == [Row(d.chatID, [d])];
    assert QueueOf([], d.chatID) + [d] == [d];
  }

  lemma {:induction false} SecondArrives(d: Decision, e: Decision)
    requires e.ref == 1 && d.chatID != e.chatID
    ensures Push(Dock([Row(d.chatID, [d])], map[], 1, []), e) ==
      Dock([Row(d.chatID, [d]), Row(e.chatID, [e])], map[], 2, [])
  {
    var rows := [Row(d.chatID, [d])];
    assert rows[1..] == [] && QueueOf(rows, e.chatID) + [e] == [e];
    assert Put([], e.chatID, [e]) == [Row(e.chatID, [e])];
    assert [rows[0]] + [Row(e.chatID, [e])] == [Row(d.chatID, [d]), Row(e.chatID, [e])];
  }

  /** An ask filed under a chat and under its run: the second card stays. */
  lemma {:induction false} SettleCanLeaveOne()
    ensures var d := Decision(0, "c", RunInput, "a", "w", "w", "n", "t");
      var e := d.(ref := 1, chatID := RUN_CHAT_PREFIX + "w");
      var s := Step(Step(Dock([], map[], 0, []), Arrives(d)), Arrives(e));
      Asked(Step(s, RunInputOver("w", "a")).rows, "w", "a", e)
  {
    hide Push;
    var d := Decision(0, "c", RunInput, "a", "w", "w", "n", "t");
    var e := d.(ref := 1, chatID := RUN_CHAT_PREFIX + "w");
    assert e.chatID[0] != d.chatID[0];
    FirstArrives(d);
    SecondArrives(d, e);
    var s := Dock([Row("c", [d]), Row(e.chatID, [e])], map[], 2, []);
    assert s.rows[1..] == [Row(e.chatID, [e])] && QueueOf(s.rows, e.chatID) == [e];
    assert AskCard(s.rows, "w", "a") == [d];
    SettleTakesFirst(s, "w", "a", e);
  }

  // Words.

  /** What may change the words held for an ask. */
  predicate ChangesWords(op: Op, workflow: string, ask: string) {
    match op
    case Click(d, answer) => d.kind == RunInput && d.workflowID == workflow && d.identity == ask && !answer.Answered?
    case RunEnded(w) => w == workflow
    case RunInputOver(w, a) => w == workflow && a == ask
    case _ => false
  }

  lemma {:induction false} ForgetOne(held: Words, workflow: string, ask: string, other: string, otherAsk: string)
    ensures HeldFor(Forget(held, workflow, ask), other, otherAsk) ==
            if other == workflow && otherAsk == ask then "" else HeldFor(held, other, otherAsk)
  {
    if workflow in held && other == workflow {
      var byAsk := held[workflow] - {ask};
      assert otherAsk in byAsk <==> otherAsk in held[workflow] && otherAsk != ask;
    }
  }

  lemma {:induction false} WordsStay(s: Dock, op: Op, workflow: string, ask: string)
    requires !ChangesWords(op, workflow, ask)
    ensures HeldFor(Step(s, op).held, workflow, ask) == HeldFor(s.held, workflow, ask)
  {
    hide Kept, Put, Forget, HeldFor;
    match op
    case Click(d, answer) =>
      if d.kind == RunInput && answer.WithoutAnswering? {
        ForgetOne(s.held, d.workflowID, d.identity, workflow, ask);
      } else if d.kind == RunInput && answer.Text? {
        HoldOne(s.held, d.workflowID, d.identity, answer.text, workflow, ask);
      }
    case RunInputOver(w, a) => ForgetOne(s.held, w, a, workflow, ask);
    case RunEnded(w) => DropWords(s.held, w, workflow, ask);
    case _ =>
  }

  lemma {:induction false} HoldOne(held: Words, workflow: string, ask: string, text: string, other: string,
                                   otherAsk: string)
    ensures HeldFor(Hold(held, workflow, ask, text), other, otherAsk) ==
            if other == workflow && otherAsk == ask then text else HeldFor(held, other, otherAsk)
  {
  }

  lemma {:induction false} DropWords(held: Words, workflow: string, other: string, otherAsk: string)
    ensures HeldFor(held - {workflow}, other, otherAsk) ==
      if other == workflow then "" else HeldFor(held, other, otherAsk)
  {
  }

  /** The words held for an ask after any operation: those of a click on one of its queued cards; none
      once it was answered without any, or it or its run is over; else those there were. */
  lemma {:induction false} WordsExactly(s: Dock, op: Op, workflow: string, ask: string)
    ensures HeldFor(Step(s, op).held, workflow, ask) ==
      if op.Click? && Holds(s.rows, op.d) && IsAsk(op.d, workflow, ask) && op.answer.Text? then op.answer.text
      else if op.Click? && Holds(s.rows, op.d) && IsAsk(op.d, workflow, ask) && op.answer.WithoutAnswering? then ""
      else if op == RunEnded(workflow) && workflow != "" then ""
      else if op == RunInputOver(workflow, ask) && workflow != "" && ask != "" then ""
      else HeldFor(s.held, workflow, ask)
  {
    hide Kept, Put, Forget, Hold, HeldFor, Holds;
    if op.Click? {
      HoldOne(s.held, op.d.workflowID, op.d.identity, if op.answer.Text? then op.answer.text else "", workflow, ask);
      ForgetOne(s.held, op.d.workflowID, op.d.identity, workflow, ask);
    } else if workflow != "" && ask != "" {
      WordsEnd(s, workflow, ask);
    } else if op.RunEnded? {
      DropWords(s.held, op.workflow, workflow, ask);
    }
    if !ChangesWords(op, workflow, ask) {
      WordsStay(s, op, workflow, ask);
    }
  }

  /** The words of an answer are there for the ask when it comes back, however long that takes, unless
      the ask or its run is over or it was answered anew. */
  lemma {:induction false} WordsComeBack(s: Dock, d: Decision, text: string, ops: seq<Op>)
    requires Holds(s.rows, d) && d.kind == RunInput
    requires forall k :: 0 <= k < |ops| ==> !ChangesWords(ops[k], d.workflowID, d.identity)
    ensures HeldFor(Run(Settled(s, d, Text(text)), ops).held, d.workflowID, d.identity) == text
  {
    hide Step, Kept;
    if ops != [] {
      WordsComeBack(s, d, text, ops[..|ops| - 1]);
      WordsStay(Run(Settled(s, d, Text(text)), ops[..|ops| - 1]), ops[|ops| - 1], d.workflowID, d.identity);
    }
  }

  /** Once the ask or its run is over, its words are forgotten. */
  lemma {:induction false} WordsEnd(s: Dock, workflow: string, ask: string)
    requires workflow != "" && ask != ""
    ensures HeldFor(Step(s, RunInputOver(workflow, ask)).held, workflow, ask) == ""
    ensures HeldFor(Step(s, RunEnded(workflow)).held, workflow, ask) == ""
  {
    hide Kept;
  }
}
