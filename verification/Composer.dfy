/** The text typed and not yet sent, one draft a chat, behind a single text box.  The box is a display:
    it may show a prompt from the history while the draft stays what was typed.  The composer moves the
    attachment row along whenever it moves itself. */
module Composer {
  import Row = Attachments

  datatype Save = Save(chat: string, text: string)

  datatype Slot = Idle | Pending(save: Save)

  // ------------------------------------------------------------- the plain map of drafts

  datatype Desk = Desk(drafts: map<string, string>, live: string, box: string, pending: Slot, sent: seq<Save>,
                       shelf: Row.Shelf)
  {
    /** A chat nothing was typed into has an empty draft. */
    function Draft(chat: string): string {
      if chat in drafts then drafts[chat] else ""
    }

    function Scheduled(chat: string): Desk {
      this.(pending := Pending(Save(chat, Draft(chat))))
    }

    function Sent(chat: string): Desk {
      this.(pending := Idle, sent := sent + [Save(chat, Draft(chat))])
    }
  }

  /** A change of the box that is announced: typing, the clear on submit. */
  function Typed(s: Desk, text: string): Desk {
    var t := s.(box := text);
    if s.live == "" || (s.live in s.drafts && s.drafts[s.live] == text) then t
    else t.(drafts := s.drafts[s.live := text]).Scheduled(s.live)
  }

  function Flush(s: Desk): Desk {
    if s.live == "" || s.pending.Idle? then s else s.Sent(s.live)
  }

  function Park(s: Desk): Desk {
    Flush(s).(shelf := Row.Park(s.shelf), live := "")
  }

  function Show(s: Desk, chat: string): Desk {
    s.(live := chat, box := s.Draft(chat), shelf := Row.Show(s.shelf, chat))
  }

  function Retarget(s: Desk, chat: string): Desk {
    Show(Park(s), chat)
  }

  function Seed(s: Desk, chat: string, text: string, paths: seq<string>): Desk {
    var t := s.(shelf := Row.Seed(s.shelf, chat, paths));
    if chat in s.drafts then t
    else t.(drafts := s.drafts[chat := text], box := if chat == s.live && s.box == "" then text else s.box)
  }

  function FailedSend(s: Desk, chat: string, text: string): Desk {
    if chat == "" || text == "" || s.Draft(chat) != "" then s
    else
      var box := if chat == s.live && s.box == "" then text else s.box;
      s.(drafts := s.drafts[chat := text], box := box).Scheduled(chat)
  }

  function RefusedEdit(s: Desk, chat: string, taken: string, before: string): Desk {
    if chat == "" || chat !in s.drafts || s.drafts[chat] != taken then s
    else
      var drafts := s.drafts[chat := before];
      if chat == s.live then s.(drafts := drafts, box := if s.box == taken then before else s.box).Scheduled(chat)
      else Flush(s).(drafts := drafts).Sent(chat)
  }

  function Adopt(s: Desk, chat: string, text: string, paths: seq<string>): Desk {
    var t := s.(shelf := Row.Adopt(s.shelf, chat, paths));
    if chat == "" || chat == s.live then t else t.(drafts := s.drafts[chat := text])
  }

  function Drop(s: Desk, chat: string): Desk {
    var t := s.(drafts := s.drafts - {chat}, shelf := Row.Drop(s.shelf, chat));
    if chat == s.live then t.(live := "", box := "") else t
  }

  function Blur(s: Desk): Desk {
    Flush(s).(shelf := Row.Flush(s.shelf))
  }

  function Fire(s: Desk): Desk {
    if s.pending.Idle? then s else s.(pending := Idle, sent := s.sent + [s.pending.save])
  }

  // ------------------------------------------------------------------- the shared text box

  class ComposerState {
    const row: Row.AttachmentRow
    var drafts: map<string, string>
    var liveChatID: string
    var box: string
    var pending: Slot
    var sent: seq<Save>

    /** The box and the row belong to the same chat. */
    ghost predicate Valid()
      reads this, row
    {
      row.Valid() && row.liveChatID == liveChatID
    }

    ghost function Abs(): Desk
      reads this, row
    {
      Desk(drafts, liveChatID, box, pending, sent, row.Abs())
    }

    constructor ()
      ensures Valid() && fresh(row)
      ensures Abs() == Desk(map[], "", "", Idle, [], Row.Shelf(map[], "", {}, map[], Row.Idle, []))
    {
      row := new Row.AttachmentRow();
      drafts, liveChatID, box, pending, sent := map[], "", "", Idle, [];
    }

    /** The text in the box becomes the live chat's draft. */
    method NoteComposerText(text: string)
      requires Valid() && text == box
      modifies this`drafts, this`pending
      ensures Valid() && Abs() == Typed(old(Abs()), text)
    {
      if liveChatID == "" {
        return;
      }
      if liveChatID in drafts && drafts[liveChatID] == text {
        return;
      }
      drafts := drafts[liveChatID := text];
      pending := Pending(Save(liveChatID, text));
    }

    method TypeText(text: string)
      requires Valid()
      modifies this`box, this`drafts, this`pending
      ensures Valid() && Abs() == Typed(old(Abs()), text)
    {
      box := text;
      NoteComposerText(box);
    }

    function LiveDraft(): string
      reads this
    {
      if liveChatID in drafts then drafts[liveChatID] else ""
    }

    method FlushComposerDraft()
      requires row.Valid()
      modifies this`pending, this`sent
      ensures Abs() == Flush(old(Abs()))
    {
      if liveChatID == "" || pending.Idle? {
        return;
      }
      pending, sent := Idle, sent + [Save(liveChatID, LiveDraft())];
    }

    method SaveComposerState()
      requires Valid()
      modifies this, row
      ensures Valid() && Abs() == Park(old(Abs()))
    {
      hide Row.Lists, Row.Flush, Row.AttachmentRow.Valid;
      FlushComposerDraft();
      row.StashAttachments();
      liveChatID := "";
    }

    method RestoreComposerState(chat: string)
      requires Valid()
      modifies this, row
      ensures Valid() && Abs() == Show(old(Abs()), chat)
    {
      hide Row.Lists, Row.AttachmentRow.Valid;
      liveChatID := chat;
      box := if chat in drafts then drafts[chat] else "";
      row.RestoreAttachments(chat);
    }

    /** The box and the row pointed at another chat, what they held parked first. */
    method RetargetComposer(chat: string)
      requires Valid()
      modifies this, row
      ensures Valid() && Abs() == Retarget(old(Abs()), chat)
    {
      hide Park, Show;
      SaveComposerState();
      RestoreComposerState(chat);
    }

    /** `text` and `paths` are the chat's record on the server. */
    method SeedComposerState(chat: string, text: string, paths: seq<string>)
      requires Valid()
      modifies this, row
      ensures Valid() && Abs() == Seed(old(Abs()), chat, text, paths)
    {
      hide Row.Lists, Row.AttachmentRow.Valid;
      row.SeedAttachments(chat, paths);
      if chat in drafts {
        return;
      }
      drafts := drafts[chat := text];
      if text == "" || chat != liveChatID {
        return;
      }
      if box == "" {
        box := text;
      }
    }

    method RestoreFailedSend(chat: string, text: string)
      requires Valid()
      modifies this
      ensures Valid() && Abs() == FailedSend(old(Abs()), chat, text)
    {
      if chat == "" || text == "" {
        return;
      }
      if (if chat in drafts then drafts[chat] else "") != "" {
        return;
      }
      drafts := drafts[chat := text];
      pending := Pending(Save(chat, text));
      if chat == liveChatID && box == "" {
        box := text;
      }
    }

    method RestoreRefusedEdit(chat: string, taken: string, before: string)
      requires Valid()
      modifies this
      ensures Valid() && Abs() == RefusedEdit(old(Abs()), chat, taken, before)
    {
      if chat == "" || chat !in drafts || drafts[chat] != taken {
        return;
      }
      drafts := drafts[chat := before];
      if chat == liveChatID {
        pending := Pending(Save(chat, before));
        if box == taken {
          box := before;
        }
        return;
      }
      FlushComposerDraft();
      pending, sent := Idle, sent + [Save(chat, before)];
    }

    method AdoptRemoteComposerState(chat: string, text: string, paths: seq<string>)
      requires Valid()
      modifies this, row
      ensures Valid() && Abs() == Adopt(old(Abs()), chat, text, paths)
    {
      hide Row.Lists, Row.AttachmentRow.Valid;
      row.AdoptRemoteAttachments(chat, paths);
      if chat == "" || chat == liveChatID {
        return;
      }
      drafts := drafts[chat := text];
    }

    method DropComposerState(chat: string)
      requires Valid()
      modifies this, row
      ensures Valid() && Abs() == Drop(old(Abs()), chat)
    {
      hide Row.Lists, Row.AttachmentRow.Valid;
      drafts := drafts - {chat};
      row.DropAttachments(chat);
      if chat == liveChatID {
        liveChatID := "";
        box := "";
      }
    }

    method OnBlur()
      requires Valid()
      modifies this, row
      ensures Valid() && Abs() == Blur(old(Abs()))
    {
      hide Row.Lists;
      FlushComposerDraft();
      row.FlushAttachments();
    }

    method FirePending()
      requires Valid()
      modifies this`pending, this`sent
      ensures Valid() && Abs() == Fire(old(Abs()))
    {
      if pending.Pending? {
        pending, sent := Idle, sent + [pending.save];
      }
    }

    method Do(op: Op)
      requires Valid()
      modifies this, row
      ensures Valid() && Abs() == Step(old(Abs()), op)
    {
      hide Typed, Flush, Park, Retarget, Seed, FailedSend, RefusedEdit, Adopt, Drop, Blur, Fire, Row.Step;
      match op
      case Type(text) => TypeText(text);
      case Recall(text) => box := text;
      case Move(chat) => RetargetComposer(chat);
      case SeedChat(chat, text, paths) => SeedComposerState(chat, text, paths);
      case SendFailed(chat, text) => RestoreFailedSend(chat, text);
      case EditRefused(chat, taken, before) => RestoreRefusedEdit(chat, taken, before);
      case Frame(chat, text, paths) => AdoptRemoteComposerState(chat, text, paths);
      case DropChat(chat) => DropComposerState(chat);
      case LoseFocus => OnBlur();
      case TimerFires => FirePending();
      case Stage(op') =>
        StagingKeepsLive(row.Abs(), op');
        row.Do(op');
    }

    /** A whole run on the box and the row is the same run on the plain map of drafts. */
    method Play(ops: seq<Op>)
      requires Valid()
      modifies this, row
      ensures Valid() && Abs() == Run(old(Abs()), ops)
    {
      hide Step;
      for i := 0 to |ops|
        invariant Valid() && Abs() == Run(old(Abs()), ops[..i])
      {
        RunSnoc(old(Abs()), ops[..i], ops[i]);
        assert ops[..i + 1] == ops[..i] + [ops[i]];
        Do(ops[i]);
      }
      assert ops[..|ops|] == ops;
    }
  }

  // ------------------------------------------------------------------------ over every run

  /** What is done to the row alone; moving it is the composer's. */
  type Staging = op: Row.Op | !op.ParkRow? && !op.Switch? && !op.DropChat? witness Row.TakeRow

  datatype Op =
    | Type(text: string)
    | Recall(text: string)
    | Move(chat: string)
    | SeedChat(chat: string, text: string, paths: seq<string>)
    | SendFailed(chat: string, text: string)
    | EditRefused(chat: string, taken: string, before: string)
    | Frame(chat: string, text: string, paths: seq<string>)
    | DropChat(chat: string)
    | LoseFocus
    | TimerFires
    | Stage(staging: Staging)

  function Step(s: Desk, op: Op): Desk {
    match op
    case Type(text) => Typed(s, text)
    case Recall(text) => s.(box := text)
    case Move(chat) => Retarget(s, chat)
    case SeedChat(chat, text, paths) => Seed(s, chat, text, paths)
    case SendFailed(chat, text) => FailedSend(s, chat, text)
    case EditRefused(chat, taken, before) => RefusedEdit(s, chat, taken, before)
    case Frame(chat, text, paths) => Adopt(s, chat, text, paths)
    case DropChat(chat) => Drop(s, chat)
    case LoseFocus => Blur(s)
    case TimerFires => Fire(s)
    case Stage(op') => s.(shelf := Row.Step(s.shelf, op'))
  }

  lemma {:induction false} StagingKeepsLive(s: Row.Shelf, op: Staging)
    ensures Row.Step(s, op).live == s.live
  {
  }

  function Run(s: Desk, ops: seq<Op>): Desk {
    if ops == [] then s else Step(Run(s, ops[..|ops| - 1]), ops[|ops| - 1])
  }

  lemma {:induction false} RunSnoc(s: Desk, ops: seq<Op>, op: Op)
    ensures Run(s, ops + [op]) == Step(Run(s, ops), op)
  {
    assert (ops + [op])[..|ops|] == ops;
  }

  // Drafts.

  /** Moving to a chat changes no draft and no list of files, and shows that chat's draft. */
  lemma {:induction false} MoveKeepsAll(s: Desk, chat: string, other: string)
    requires other != ""
    ensures var t := Step(s, Move(chat));
      t.drafts == s.drafts && t.live == chat && t.box == s.Draft(chat)
      && (s.shelf.live == s.live ==> t.shelf.live == chat && t.shelf.ListOf(other) == s.shelf.ListOf(other))
  {
    Row.SwitchKeepsLists(s.shelf, chat, other);
  }

  /** What may change a chat's draft: typing, while it is live; and what arrives for it by name, but a
      seed only when there is none, a failed send only when it is empty, a refused edit only while
      it is what the edit wrote, and a remote frame only while it is not live. */
  predicate MayChange(s: Desk, op: Op, chat: string) {
    match op
    case Type(_) => chat == s.live
    case SeedChat(c, _, _) => c == chat && chat !in s.drafts
    case SendFailed(c, _) => c == chat && s.Draft(chat) == ""
    case EditRefused(c, taken, _) => c == chat && chat in s.drafts && s.drafts[chat] == taken
    case Frame(c, _, _) => c == chat && chat != s.live
    case DropChat(c) => c == chat
    case _ => false
  }

  lemma {:induction false} OthersKeepTheirDraft(s: Desk, op: Op, chat: string)
    requires chat != "" && !MayChange(s, op, chat)
    ensures Step(s, op).Draft(chat) == s.Draft(chat) && (chat in Step(s, op).drafts <==> chat in s.drafts)
  {
  }

  /** What the draft is once it has been changed. */
  lemma {:induction false} DraftAfter(s: Desk, op: Op, chat: string)
    requires chat != "" && MayChange(s, op, chat)
    ensures var t := Step(s, op);
      match op
      case Type(text) => chat in t.drafts && t.Draft(chat) == text
      case SeedChat(_, text, _) => chat in t.drafts && t.Draft(chat) == text
      case SendFailed(_, text) => t.Draft(chat) == text
      case EditRefused(_, _, before) => chat in t.drafts && t.Draft(chat) == before
      case Frame(_, text, _) => chat in t.drafts && t.Draft(chat) == text
      case DropChat(_) => chat !in t.drafts
      case _ => false
  {
  }

  /** A refused edit finds the draft it wrote. */
  predicate Undoes(s: Desk, op: Op)
    requires op.EditRefused?
  {
    op.chat != "" && op.chat in s.drafts && s.drafts[op.chat] == op.taken
  }

  /** A failed send finds no draft. */
  predicate PutsBack(s: Desk, op: Op)
    requires op.SendFailed?
  {
    op.chat != "" && op.text != "" && s.Draft(op.chat) == ""
  }

  /** Which chat the box belongs to, and what it shows, after any operation: what is typed or recalled,
      the draft of a chat that is moved to, and of what arrives for the live chat only what finds the box
      empty or, for a refused edit, still as the edit left it. */
  lemma {:induction false} BoxAfter(s: Desk, op: Op)
    ensures var t := Step(s, op);
      && t.live == (if op.Move? then op.chat else if op == DropChat(s.live) then "" else s.live)
      && t.box ==
         match op
         case Type(text) => text
         case Recall(text) => text
         case Move(chat) => s.Draft(chat)
         case SeedChat(chat, text, _) => if chat == s.live && chat !in s.drafts && s.box == "" then text else s.box
         case SendFailed(chat, text) => if chat == s.live && PutsBack(s, op) && s.box == "" then text else s.box
         case EditRefused(chat, taken, before) =>
           if chat == s.live && Undoes(s, op) && s.box == taken then before else s.box
         case DropChat(chat) => if chat == s.live then "" else s.box
         case _ => s.box
  {
  }

  predicate Schedules(s: Desk, op: Op) {
    match op
    case Type(text) => s.live != "" && !(s.live in s.drafts && s.drafts[s.live] == text)
    case SendFailed(_, _) => PutsBack(s, op)
    case EditRefused(chat, _, _) => chat == s.live && Undoes(s, op)
    case _ => false
  }

  /** The draft of the live chat goes out while something waits: the chat or the box is left, or an edit
      of a chat out of sight is taken back. */
  predicate Flushes(s: Desk, op: Op) {
    && s.live != "" && s.pending.Pending?
    && (op.Move? || op.LoseFocus? || (op.EditRefused? && op.chat != s.live && Undoes(s, op)))
  }

  /** Exactly what waits and what has been sent after any operation. */
  lemma {:induction false} SavesExactly(s: Desk, op: Op)
    ensures var t := Step(s, op);
      var chat := if op.Type? then s.live else if op.SendFailed? || op.EditRefused? then op.chat else "";
      var undone := op.EditRefused? && op.chat != s.live && Undoes(s, op);
      && t.pending == (if Schedules(s, op) then Pending(Save(chat, t.Draft(chat)))
                       else if Flushes(s, op) || undone || op.TimerFires? then Idle else s.pending)
      && t.sent == s.sent + (if Flushes(s, op) then [Save(s.live, s.Draft(s.live))] else [])
                          + (if undone then [Save(chat, t.Draft(chat))] else [])
                          + (if op.TimerFires? && s.pending.Pending? then [s.pending.save] else [])
  {
  }

  /** The row is moved, seeded, told and flushed along with the box. */
  lemma {:induction false} RowFollows(s: Desk, op: Op)
    ensures var shelf := Step(s, op).shelf;
      match op
      case Move(chat) => shelf == Row.Step(s.shelf, Row.Switch(chat))
      case SeedChat(chat, _, paths) => shelf == Row.Step(s.shelf, Row.SeedChat(chat, paths))
      case Frame(chat, _, paths) => shelf == Row.Step(s.shelf, Row.AdoptChat(chat, paths))
      case DropChat(chat) => shelf == Row.Step(s.shelf, Row.DropChat(chat))
      case LoseFocus => shelf == Row.Step(s.shelf, Row.FlushRow)
      case Stage(op') => shelf == Row.Step(s.shelf, op')
      case _ => shelf == s.shelf
  {
    hide Row.Seed, Row.Adopt, Row.Drop, Row.Flush, Row.Park, Row.Show;
  }

  /** Leaving a chat and coming to one, each by itself. */
  lemma {:induction false} LeaveAndCome(s: Desk, chat: string)
    ensures var t := Park(s);
      && t.live == "" && t.box == s.box && t.drafts == s.drafts && t.shelf == Row.Step(s.shelf, Row.ParkRow)
      && (if s.live == "" || s.pending.Idle? then t.pending == s.pending && t.sent == s.sent
          else t.pending == Idle && t.sent == s.sent + [Save(s.live, s.Draft(s.live))])
    ensures var t := Show(s, chat);
      && t.live == t.shelf.live == chat && t.box == s.Draft(chat) && t.drafts == s.drafts
      && t.pending == s.pending && t.sent == s.sent
      && forall c :: t.shelf.ListOf(c) == if c == s.shelf.live then [] else s.shelf.ListOf(c)
  {
  }

  /** What is meant to change a draft that is there. */
  predicate Overwrites(s: Desk, op: Op, chat: string) {
    if op.Type? then chat == s.live else (op.EditRefused? || op.Frame? || op.DropChat?) && op.chat == chat
  }

  /** A draft that is not empty survives any run of seeds, failed sends, moves, saves, previews and file
      operations, and of anything that is done to other chats, typing into them included. */
  lemma {:induction false} DraftSurvives(s: Desk, ops: seq<Op>, chat: string)
    requires chat != "" && s.Draft(chat) != ""
    requires forall k :: 0 <= k < |ops| ==> !Overwrites(Run(s, ops[..k]), ops[k], chat)
    ensures Run(s, ops).Draft(chat) == s.Draft(chat)
  {
    hide Step;
    if ops != [] {
      var init, last := ops[..|ops| - 1], ops[|ops| - 1];
      forall k | 0 <= k < |init| ensures !Overwrites(Run(s, init[..k]), init[k], chat) {
        assert init[..k] == ops[..k] && init[k] == ops[k];
      }
      DraftSurvives(s, init, chat);
      OthersKeepTheirDraft(Run(s, init), last, chat);
    }
  }

  /** The box shows the live chat's draft. */
  predicate BoxShowsDraft(s: Desk) {
    s.live != "" ==> s.box == s.Draft(s.live)
  }

  lemma {:induction false} StepShowsDraft(s: Desk, op: Op)
    requires !op.Recall? && BoxShowsDraft(s)
    ensures BoxShowsDraft(Step(s, op))
  {
  }

  /** As long as nobody leafs through the history, the box shows the live draft throughout every run. */
  lemma {:induction false} BoxAlwaysShowsDraft(s: Desk, ops: seq<Op>)
    requires BoxShowsDraft(s) && forall k :: 0 <= k < |ops| ==> !ops[k].Recall?
    ensures BoxShowsDraft(Run(s, ops))
  {
    hide Step, BoxShowsDraft;
    if ops != [] {
      BoxAlwaysShowsDraft(s, ops[..|ops| - 1]);
      StepShowsDraft(Run(s, ops[..|ops| - 1]), ops[|ops| - 1]);
    }
  }

  // Saves.

  predicate TrueNow(save: Save, s: Desk) {
    save.chat != "" && save.text == s.Draft(save.chat)
  }

  /** `save` is what its chat's draft was at some moment of the run. */
  ghost predicate WasTrue(save: Save, s: Desk, ops: seq<Op>) {
    exists n :: 0 <= n <= |ops| && TrueNow(save, Run(s, ops[..n]))
  }

  /** What an operation schedules or flushes carries its own chat's draft of that moment; only the
      timer sends what was scheduled earlier. */
  lemma {:induction false} SavesAreTrue(s: Desk, op: Op)
    ensures var t := Step(s, op);
      && (t.pending != s.pending && t.pending.Pending? ==> TrueNow(t.pending.save, t))
      && |s.sent| <= |t.sent| && t.sent[..|s.sent|] == s.sent
      && (forall k :: |s.sent| <= k < |t.sent| ==>
            TrueNow(t.sent[k], t) || (op == TimerFires && s.pending == Pending(t.sent[k])))
  {
  }

  lemma {:induction false} WasTrueStays(save: Save, s: Desk, ops: seq<Op>, op: Op)
    requires WasTrue(save, s, ops)
    ensures WasTrue(save, s, ops + [op])
  {
    var n :| 0 <= n <= |ops| && TrueNow(save, Run(s, ops[..n]));
    assert (ops + [op])[..n] == ops[..n];
  }

  lemma {:induction false} TrueAtTheEnd(save: Save, s: Desk, ops: seq<Op>)
    requires TrueNow(save, Run(s, ops))
    ensures WasTrue(save, s, ops)
  {
    assert ops[..|ops|] == ops;
  }

  /** Every save a run sends, and the one it leaves waiting, is a draft its own chat really had. */
  lemma {:induction false} EverySaveWasTrue(s: Desk, ops: seq<Op>)
    requires s.pending.Idle? && s.sent == []
    ensures var t := Run(s, ops);
      && (t.pending.Pending? ==> WasTrue(t.pending.save, s, ops))
      && (forall k :: 0 <= k < |t.sent| ==> WasTrue(t.sent[k], s, ops))
  {
    hide Step, WasTrue, TrueNow;
    if ops != [] {
      var init, last := ops[..|ops| - 1], ops[|ops| - 1];
      var before, t := Run(s, init), Run(s, ops);
      EverySaveWasTrue(s, init);
      SavesAreTrue(before, last);
      assert init + [last] == ops;
      if before.pending.Pending? {
        WasTrueStays(before.pending.save, s, init, last);
      }
      if t.pending.Pending? && t.pending != before.pending {
        TrueAtTheEnd(t.pending.save, s, ops);
      }
      forall k | 0 <= k < |t.sent| ensures WasTrue(t.sent[k], s, ops) {
        if k < |before.sent| {
          WasTrueStays(before.sent[k], s, init, last);
          assert t.sent[k] == t.sent[..|before.sent|][k] == before.sent[k];
        } else if TrueNow(t.sent[k], t) {
          TrueAtTheEnd(t.sent[k], s, ops);
        }
      }
    }
  }

  /** Some save of the chat is waiting or has just gone out. */
  predicate StillSaved(s: Desk, t: Desk, chat: string) {
    || (t.pending.Pending? && t.pending.save.chat == chat)
    || (exists k :: |s.sent| <= k < |t.sent| && t.sent[k].chat == chat)
  }

  /** With one slot for all chats, the live chat's waiting save is lost by exactly one thing: a failed
      send put back under another chat. */
  lemma {:induction false} LiveSaveLostIff(s: Desk, op: Op)
    requires s.live != "" && s.pending.Pending? && s.pending.save.chat == s.live
    ensures !StillSaved(s, Step(s, op), s.live) <==>
            op.SendFailed? && op.chat != "" && op.chat != s.live && op.text != "" && s.Draft(op.chat) == ""
  {
    var t := Step(s, op);
    if |t.sent| > |s.sent| {
      assert t.sent[|s.sent|].chat == s.live;
    }
  }

  // What a flush sends.

  /** A save that waits for the live chat is the draft recorded for it. */
  predicate OwnSave(s: Desk) {
    s.pending.Pending? && s.pending.save.chat == s.live ==>
      s.live in s.drafts && s.drafts[s.live] == s.pending.save.text
  }

  lemma {:induction false} StepKeepsOwnSave(s: Desk, op: Op)
    requires OwnSave(s) && s.live != "" && Step(s, op).live != ""
    ensures OwnSave(Step(s, op))
  {
  }

  lemma {:induction false} RunKeepsOwnSave(s: Desk, ops: seq<Op>)
    requires OwnSave(s) && forall k :: 0 <= k <= |ops| ==> Run(s, ops[..k]).live != ""
    ensures OwnSave(Run(s, ops)) && Run(s, ops).live != ""
  {
    hide Step, OwnSave;
    assert ops[..|ops|] == ops;
    if ops != [] {
      var init, last := ops[..|ops| - 1], ops[|ops| - 1];
      forall k | 0 <= k <= |init| ensures Run(s, init[..k]).live != "" {
        assert init[..k] == ops[..k];
      }
      RunKeepsOwnSave(s, init);
      StepKeepsOwnSave(Run(s, init), last);
    }
  }

  /** Over every run with some chat on screen throughout, a flush sends the text that scheduled the
      pending save exactly when that save is the live chat's, and then that chat has a draft. */
  lemma {:induction false} FlushSendsScheduledIff(s: Desk, ops: seq<Op>)
    requires OwnSave(s) && forall k :: 0 <= k <= |ops| ==> Run(s, ops[..k]).live != ""
    ensures var t := Run(s, ops);
      t.pending.Pending? ==>
        && (Flush(t).sent == t.sent + [t.pending.save] <==> t.pending.save.chat == t.live)
        && (t.pending.save.chat == t.live ==> t.live in t.drafts)
  {
    hide Step;
    RunKeepsOwnSave(s, ops);
    var t := Run(s, ops);
    if t.pending.Pending? {
      assert Flush(t).sent[|t.sent|] == Save(t.live, t.Draft(t.live));
    }
  }

  /** With no chat on screen for a moment, the live chat's own save need not be its draft any more: the
      chat may have been dropped and opened again, ... */
  lemma {:induction false} DropOutdatesSave(s: Desk, chat: string, text: string)
    requires chat != "" && text != "" && s.drafts == map[] && s.sent == [] && s.pending.Idle?
    ensures var t := Step(Step(Step(Step(s, Move(chat)), Type(text)), DropChat(chat)), Move(chat));
      t.pending == Pending(Save(t.live, text)) && chat !in t.drafts && Flush(t).sent == [Save(chat, "")]
  {
  }

  /** ... or a remote frame may have come in for it. */
  lemma {:induction false} FrameOutdatesSave(s: Desk, chat: string, text: string, newer: string)
    requires chat != "" && text != "" && s.live == "" && s.drafts == map[] && s.sent == [] && s.pending.Idle?
    ensures var t := Step(Step(Step(s, SendFailed(chat, text)), Frame(chat, newer, [])), Move(chat));
      t.pending == Pending(Save(t.live, text)) && Flush(t).sent == [Save(chat, newer)]
  {
  }

  /** A waiting save does not mean that the live chat has a draft: after a send of another chat failed,
      a blur sends the live chat's empty text and the other chat's text is never sent. */
  lemma {:induction false} BlurCanSendAnother(s: Desk, one: string, other: string, text: string)
    requires one != "" && other != "" && one != other && text != ""
    requires s.drafts == map[] && s.sent == [] && s.pending.Idle?
    ensures var t := Step(Step(Step(s, Move(one)), SendFailed(other, text)), LoseFocus);
      t.sent == [Save(one, "")] && t.pending.Idle? && t.Draft(other) == text
  {
  }

  // What the server holds.

  function Filed(server: map<string, string>, log: seq<Save>): map<string, string>
    decreases |log|
  {
    if log == [] then server else Filed(server[log[0].chat := log[0].text], log[1..])
  }

  function Told(server: map<string, string>, s: Desk, op: Op): map<string, string> {
    match op
    case SeedChat(chat, text, _) => if chat in s.drafts then server else server[chat := text]
    case Frame(chat, text, _) => server[chat := text]
    case DropChat(chat) => server - {chat}
    case _ => server
  }

  /** The server's drafts after a step: its own record and a remote frame tell of one, a dropped chat has
      none, and whatever is sent is stored. */
  function Stored(server: map<string, string>, s: Desk, op: Op): map<string, string> {
    Filed(Told(server, s, op), Row.NewSaves(s.sent, Step(s, op).sent))
  }

  function StoredRun(server: map<string, string>, s: Desk, ops: seq<Op>): map<string, string> {
    if ops == [] then server
    else
      var init := ops[..|ops| - 1];
      Stored(StoredRun(server, s, init), Run(s, init), ops[|ops| - 1])
  }

  /** A save waits for this chat. */
  predicate Waits(s: Desk, chat: string) {
    s.pending.Pending? && s.pending.save.chat == chat
  }

  predicate Holds(server: map<string, string>, chat: string, text: string) {
    chat in server && server[chat] == text
  }

  /** The server holds every draft, but for the live one while its save waits. */
  predicate AllStored(s: Desk, server: map<string, string>) {
    && (forall c :: c in s.drafts && c != "" && !(c == s.live && Waits(s, c)) ==> Holds(server, c, s.drafts[c]))
    && (s.pending.Pending? ==>
          var save := s.pending.save;
          save.chat != "" && (save.chat in s.drafts ==> save.chat == s.live && save.text == s.drafts[s.live]))
  }

  /** What leaves the server with another text than the map: a failed send put back under another chat,
      whose save takes the one slot; a remote frame for the live chat, which is passed over; and a
      draft that arrives for a chat that was dropped while its own save waited. */
  predicate Parts(s: Desk, op: Op) {
    match op
    case SendFailed(chat, text) => chat != "" && chat != s.live && text != "" && s.Draft(chat) == ""
    case Frame(chat, text, _) =>
      if chat == "" then false
      else if chat == s.live then chat in s.drafts && !Waits(s, chat) && text != s.drafts[chat]
      else Waits(s, chat)
    case SeedChat(chat, text, _) =>
      chat != "" && chat !in s.drafts && Waits(s, chat) && !(chat == s.live && s.pending.save.text == text)
    case _ => false
  }

  lemma {:induction false} FiledShort(server: map<string, string>, log: seq<Save>, one: Save, two: Save)
    ensures Filed(server, Row.NewSaves(log, log)) == server
    ensures Filed(server, Row.NewSaves(log, log + [one])) == server[one.chat := one.text]
    ensures Filed(server, Row.NewSaves(log, log + [one] + [two])) == server[one.chat := one.text][two.chat := two.text]
  {
    var first := server[one.chat := one.text];
    assert Row.NewSaves(log, log) == [];
    assert Row.NewSaves(log, log + [one]) == [one] && [one][1..] == [];
    assert Filed(server, [one]) == Filed(first, []);
    assert Row.NewSaves(log, log + [one] + [two]) == [one, two] && [one, two][1..] == [two] && [two][1..] == [];
    assert Filed(server, [one, two]) == Filed(first, [two]) == Filed(first[two.chat := two.text], []);
  }

  lemma {:induction false} TypingStored(s: Desk, server: map<string, string>, op: Op)
    requires AllStored(s, server) && (op.Type? || op.SendFailed?)
    ensures Parts(s, op) ==> !AllStored(Step(s, op), Stored(server, s, op))
    ensures !Parts(s, op) ==> AllStored(Step(s, op), Stored(server, s, op))
  {
    hide Filed, Row.NewSaves;
    FiledShort(Told(server, s, op), s.sent, Save("", ""), Save("", ""));
  }

  /** Where one chat changes, here and on the server, only that one is to be looked at. */
  lemma {:induction false} OneChatStored(s: Desk, t: Desk, server: map<string, string>, server': map<string, string>,
                                         chat: string)
    requires AllStored(s, server) && t.live == s.live && t.pending == s.pending
    requires forall c :: c != chat ==> (c in t.drafts <==> c in s.drafts) && (c in server' <==> c in server)
    requires forall c :: c != chat && c in s.drafts ==> t.drafts[c] == s.drafts[c]
    requires forall c :: c != chat && c in server ==> server'[c] == server[c]
    ensures AllStored(t, server') <==> (chat != "" ==>
      && (chat in t.drafts && !(chat == t.live && Waits(t, chat)) ==> Holds(server', chat, t.drafts[chat]))
      && (chat in t.drafts && Waits(t, chat) ==> chat == t.live && t.pending.save.text == t.drafts[chat]))
    ensures chat in s.drafts && chat != "" && !(chat == s.live && Waits(s, chat)) ==>
      Holds(server, chat, s.drafts[chat])
    ensures Waits(s, chat) ==> chat != ""
    ensures Waits(s, chat) && chat in s.drafts ==> chat == s.live && s.pending.save.text == s.drafts[chat]
  {
  }

  lemma {:induction false} HearingStored(s: Desk, server: map<string, string>, op: Op)
    requires AllStored(s, server) && (op.SeedChat? || op.Frame?)
    ensures Parts(s, op) ==> !AllStored(Step(s, op), Stored(server, s, op))
    ensures !Parts(s, op) ==> AllStored(Step(s, op), Stored(server, s, op))
  {
    hide Filed, Row.NewSaves, AllStored;
    FiledShort(Told(server, s, op), s.sent, Save("", ""), Save("", ""));
    OneChatStored(s, Step(s, op), server, Told(server, s, op), op.chat);
  }

  lemma {:induction false} DroppedStored(s: Desk, server: map<string, string>, op: Op)
    requires AllStored(s, server) && op.DropChat?
    ensures AllStored(Step(s, op), Stored(server, s, op))
  {
    hide Filed, Row.NewSaves;
    FiledShort(server - {op.chat}, s.sent, Save("", ""), Save("", ""));
  }

  lemma {:induction false} FlushStored(s: Desk, server: map<string, string>)
    requires AllStored(s, server)
    ensures AllStored(Flush(s), Filed(server, Row.NewSaves(s.sent, Flush(s).sent)))
    ensures s.live != "" ==> Flush(s).pending.Idle?
  {
    hide Filed, Row.NewSaves;
    FiledShort(server, s.sent, Save(s.live, s.Draft(s.live)), Save("", ""));
  }

  lemma {:induction false} SendingStored(s: Desk, server: map<string, string>, op: Op)
    requires AllStored(s, server) && (op.Move? || op.LoseFocus? || op.TimerFires?)
    ensures AllStored(Step(s, op), Stored(server, s, op))
  {
    hide Filed, Row.NewSaves;
    FlushStored(s, server);
    if s.pending.Pending? {
      FiledShort(server, s.sent, s.pending.save, Save("", ""));
    } else {
      FiledShort(server, s.sent, Save("", ""), Save("", ""));
    }
  }

  lemma {:induction false} RefusedStored(s: Desk, server: map<string, string>, op: Op)
    requires AllStored(s, server) && op.EditRefused?
    ensures AllStored(Step(s, op), Stored(server, s, op))
  {
    hide Filed, Row.NewSaves;
    var live, own := Save(s.live, s.Draft(s.live)), Save(op.chat, op.before);
    FiledShort(server, s.sent, live, own);
    FiledShort(server, s.sent, own, own);
  }

  lemma {:induction false} QuietStored(s: Desk, server: map<string, string>, op: Op)
    requires AllStored(s, server) && (op.Recall? || op.Stage?)
    ensures AllStored(Step(s, op), Stored(server, s, op))
  {
    hide Filed, Row.NewSaves;
    FiledShort(server, s.sent, Save("", ""), Save("", ""));
  }

  /** One step keeps the server up to date exactly when it is none of those. */
  lemma {:induction false} StepStoredIff(s: Desk, server: map<string, string>, op: Op)
    requires AllStored(s, server)
    ensures AllStored(Step(s, op), Stored(server, s, op)) <==> !Parts(s, op)
  {
    hide AllStored, Step, Stored;
    match op
    case Type(_) => TypingStored(s, server, op);
    case SendFailed(_, _) => TypingStored(s, server, op);
    case SeedChat(_, _, _) => HearingStored(s, server, op);
    case Frame(_, _, _) => HearingStored(s, server, op);
    case EditRefused(_, _, _) => RefusedStored(s, server, op);
    case DropChat(_) => DroppedStored(s, server, op);
    case Move(_) => SendingStored(s, server, op);
    case LoseFocus => SendingStored(s, server, op);
    case TimerFires => SendingStored(s, server, op);
    case Recall(_) => QuietStored(s, server, op);
    case Stage(_) => QuietStored(s, server, op);
  }

  /** With nothing pending the server holds every draft, over every run without such a step. */
  lemma {:induction false} IdleMeansStored(s: Desk, server: map<string, string>, ops: seq<Op>)
    requires AllStored(s, server) && forall k :: 0 <= k < |ops| ==> !Parts(Run(s, ops[..k]), ops[k])
    ensures var t, held := Run(s, ops), StoredRun(server, s, ops);
      && AllStored(t, held)
      && (t.pending.Idle? ==> forall c :: c in t.drafts && c != "" ==> Holds(held, c, t.drafts[c]))
  {
    hide Step, Stored, Parts;
    if ops != [] {
      hide AllStored;
      var init := ops[..|ops| - 1];
      forall k | 0 <= k < |init| ensures !Parts(Run(s, init[..k]), init[k]) {
        assert init[..k] == ops[..k] && init[k] == ops[k];
      }
      IdleMeansStored(s, server, init);
      StepStoredIff(Run(s, init), StoredRun(server, s, init), ops[|ops| - 1]);
    }
    StoredMeans(Run(s, ops), StoredRun(server, s, ops));
  }

  lemma {:induction false} StoredMeans(s: Desk, server: map<string, string>)
    ensures AllStored(s, server) && s.pending.Idle? ==>
      forall c :: c in s.drafts && c != "" ==> Holds(server, c, s.drafts[c])
  {
  }

  /** A new desk and a server without drafts are such a start. */
  lemma {:induction false} NewDeskStored(shelf: Row.Shelf)
    ensures AllStored(Desk(map[], "", "", Idle, [], shelf), map[])
  {
  }
}
