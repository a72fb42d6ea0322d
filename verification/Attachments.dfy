/** Files staged beside a prompt, one list a chat.  On screen there is a single row: it shows the live
    chat's list, and the other chats' lists are parked.  An attached file is its workspace path; the
    name a pill shows is computed from it. */
module Attachments {

  /** One save of a chat's list, as sent to the server. */
  datatype Save = Save(chat: string, paths: seq<string>)

  /** The one debounce slot all chats share. */
  datatype Slot = Idle | Pending(save: Save)

  datatype Token = NoToken | Token(generation: nat)

  // ------------------------------------------------------------------------- path lists

  /** The row is keyed by path: a path that comes again stays where it was. */
  function Upsert(row: seq<string>, path: string): (r: seq<string>)
    ensures path in r
  {
    if path in row then row else row + [path]
  }

  /** The paths of a list in the order of their first occurrences. */
  function Distinct(paths: seq<string>): (r: seq<string>)
    ensures r == [] <==> paths == []
    ensures forall p :: p in r <==> p in paths
  {
    if paths == [] then []
    else
      assert paths == paths[..|paths| - 1] + [paths[|paths| - 1]];
      Upsert(Distinct(paths[..|paths| - 1]), paths[|paths| - 1])
  }

  predicate AllDifferent(paths: seq<string>) {
    forall j, k :: 0 <= j < k < |paths| ==> paths[j] != paths[k]
  }

  lemma {:induction false} DistinctSnoc(paths: seq<string>, path: string)
    ensures Distinct(paths + [path]) == Upsert(Distinct(paths), path)
    ensures Distinct(paths + [path]) == Distinct(paths) + if path in paths then [] else [path]
  {
    assert (paths + [path])[..|paths|] == paths;
  }

  lemma {:induction false} DistinctDiffers(paths: seq<string>)
    ensures AllDifferent(Distinct(paths))
  {
    if paths != [] {
      DistinctDiffers(paths[..|paths| - 1]);
    }
  }

  lemma {:induction false} DistinctSame(paths: seq<string>)
    requires AllDifferent(paths)
    ensures Distinct(paths) == paths
  {
    if paths != [] {
      DistinctSame(paths[..|paths| - 1]);
      assert paths == paths[..|paths| - 1] + [paths[|paths| - 1]];
    }
  }

  function Removed(row: seq<string>, path: string): (r: seq<string>)
    ensures forall p :: p in r <==> p in row && p != path
  {
    if row == [] then []
    else
      var rest := Removed(row[1..], path);
      assert row == [row[0]] + row[1..];
      if row[0] == path then rest else [row[0]] + rest
  }

  lemma {:induction false} RemovedDiffers(row: seq<string>, path: string)
    requires AllDifferent(row)
    ensures AllDifferent(Removed(row, path))
  {
    if row != [] {
      RemovedDiffers(row[1..], path);
      assert row[0] !in row[1..];
    }
  }

  // ---------------------------------------------- the plain map the shared row stands for

  /** What each chat has staged: the lists that are not empty, the row's under its own chat,
      or under "" when it belongs to none. */
  datatype Shelf = Shelf(lists: map<string, seq<string>>, live: string, touched: set<string>,
                         generations: map<string, nat>, pending: Slot, sent: seq<Save>)
  {
    function ListOf(chat: string): seq<string> {
      if chat in lists then lists[chat] else []
    }

    function Generation(chat: string): nat {
      if chat in generations then generations[chat] else 0
    }

    function WithList(chat: string, list: seq<string>): Shelf {
      this.(lists := if list == [] then lists - {chat} else lists[chat := list])
    }

    /** `chat`'s list, waiting to be saved. */
    function Scheduled(chat: string): Shelf {
      if chat == "" then this
      else this.(touched := touched + {chat}, pending := Pending(Save(chat, ListOf(chat))))
    }

    function Sent(chat: string): Shelf {
      this.(pending := Idle, sent := sent + [Save(chat, ListOf(chat))])
    }
  }

  function Add(s: Shelf, path: string): Shelf {
    if path in s.ListOf(s.live) then s
    else s.WithList(s.live, s.ListOf(s.live) + [path]).Scheduled(s.live)
  }

  /** An add to a named chat; a stale token makes it nothing, and no chat means the live one. */
  function AddTo(s: Shelf, chat: string, path: string, token: Token): Shelf {
    if token.Token? && token.generation != s.Generation(chat) then s
    else if chat == "" then Add(s, path)
    else if path in s.ListOf(chat) then s
    else s.WithList(chat, s.ListOf(chat) + [path]).Scheduled(chat)
  }

  function Remove(s: Shelf, path: string): Shelf {
    s.WithList(s.live, Removed(s.ListOf(s.live), path)).Scheduled(s.live)
  }

  /** A send takes the live list, and the empty list goes out at once. */
  function Take(s: Shelf): Shelf {
    var t := s.WithList(s.live, []);
    if s.ListOf(s.live) == [] || s.live == "" then t
    else t.(touched := t.touched + {s.live}).Sent(s.live)
  }

  function Flush(s: Shelf): Shelf {
    if s.live == "" || s.pending.Idle? then s else s.Sent(s.live)
  }

  /** The row is handed back to its chat and belongs to none. */
  function Park(s: Shelf): Shelf {
    Flush(s).(live := "", lists := s.lists - {""})
  }

  /** The row is handed to `chat`; what was still on it is gone. */
  function Show(s: Shelf, chat: string): Shelf {
    s.(live := chat, lists := s.lists - {s.live})
  }

  function Drop(s: Shelf, chat: string): Shelf {
    s.(lists := s.lists - {chat}, touched := s.touched - {chat},
       generations := s.generations[chat := s.Generation(chat) + 1], live := if s.live == chat then "" else s.live)
  }

  /** The server's list, for a chat nothing was ever staged into. */
  function Seed(s: Shelf, chat: string, paths: seq<string>): Shelf {
    if chat == "" || chat in s.touched then s
    else
      var t := s.(touched := s.touched + {chat});
      if paths == [] || (chat == s.live && s.ListOf(chat) != []) then t else t.WithList(chat, Distinct(paths))
  }

  /** Another device's list, for any chat but the live one. */
  function Adopt(s: Shelf, chat: string, paths: seq<string>): Shelf {
    if chat == "" || chat == s.live then s
    else s.(touched := s.touched + {chat}).WithList(chat, Distinct(paths))
  }

  /** The debounce runs out. */
  function Fire(s: Shelf): Shelf {
    if s.pending.Idle? then s else s.(pending := Idle, sent := s.sent + [s.pending.save])
  }

  // ------------------------------------------------------------------- the row and the stash

  function Plain(save: Save): Save {
    Save(save.chat, Distinct(save.paths))
  }

  function PlainSlot(slot: Slot): Slot {
    if slot.Idle? then Idle else Pending(Plain(slot.save))
  }

  function PlainLog(log: seq<Save>): seq<Save> {
    if log == [] then [] else PlainLog(log[..|log| - 1]) + [Plain(log[|log| - 1])]
  }

  lemma {:induction false} PlainLogSnoc(log: seq<Save>, save: Save)
    ensures PlainLog(log + [save]) == PlainLog(log) + [Plain(save)]
  {
    assert (log + [save])[..|log|] == log;
  }

  lemma {:induction false} PlainIsPlain(save: Save)
    requires AllDifferent(save.paths)
    ensures Plain(save) == save
  {
    DistinctSame(save.paths);
  }

  /** The lists of a row and a stash. */
  function Lists(row: seq<string>, live: string, stash: map<string, seq<string>>): map<string, seq<string>> {
    var parked := map c | c in stash :: Distinct(stash[c]);
    if row == [] then parked else parked[live := row]
  }

  lemma {:induction false} ListsRow(row: seq<string>, live: string, stash: map<string, seq<string>>, next: seq<string>)
    requires live !in stash
    ensures var lists := Lists(row, live, stash);
      && (live in lists <==> row != []) && (row != [] ==> lists[live] == row)
      && Lists(next, live, stash) == if next == [] then lists - {live} else lists[live := next]
  {
  }

  lemma {:induction false} AddIsAddTo(s: Shelf, chat: string, path: string, token: Token)
    requires chat == "" || chat == s.live
    requires token.Token? ==> token.generation == s.Generation(chat)
    ensures AddTo(s, chat, path, token) == Add(s, path)
  {
  }

  lemma {:induction false} ListsParked(row: seq<string>, live: string, stash: map<string, seq<string>>, chat: string)
    requires live !in stash && chat != live
    ensures var lists := Lists(row, live, stash);
      (chat in lists <==> chat in stash) && (chat in stash ==> lists[chat] == Distinct(stash[chat]))
  {
    hide Distinct;
  }

  lemma {:induction false} ListsPut(row: seq<string>, live: string, stash: map<string, seq<string>>, chat: string,
                                    next: seq<string>)
    requires live !in stash && chat != live
    ensures Lists(row, live, stash[chat := next]) == Lists(row, live, stash)[chat := Distinct(next)]
  {
    hide Distinct;
    assert Lists([], live, stash[chat := next]) == Lists([], live, stash)[chat := Distinct(next)];
  }

  lemma {:induction false} ListsGone(row: seq<string>, live: string, stash: map<string, seq<string>>, chat: string)
    requires live !in stash && chat != live
    ensures Lists(row, live, stash - {chat}) == Lists(row, live, stash) - {chat}
  {
    hide Distinct;
    assert Lists([], live, stash - {chat}) == Lists([], live, stash) - {chat};
  }

  /** The row handed back to its chat. */
  lemma {:induction false} ListsHandedBack(row: seq<string>, live: string, stash: map<string, seq<string>>)
    requires AllDifferent(row) && live !in stash && "" !in stash
    ensures var parked := if live != "" && row != [] then stash[live := row] else stash;
      Lists([], "", parked) == Lists(row, live, stash) - {""}
    ensures stash - {live} == stash
  {
    hide Distinct, AllDifferent;
    DistinctSame(row);
  }

  /** A parked list moved onto the row, in place of what the row held. */
  lemma {:induction false} ListsTaken(row: seq<string>, live: string, stash: map<string, seq<string>>, chat: string)
    requires live !in stash
    ensures var lists := Lists(row, live, stash);
      && (chat !in stash ==> Lists([], chat, stash) == lists - {live})
      && (chat in stash && stash[chat] != [] ==> Lists(Distinct(stash[chat]), chat, stash - {chat}) == lists - {live})
  {
    hide Distinct;
    if chat in stash && stash[chat] != [] {
      assert Lists(Distinct(stash[chat]), chat, stash - {chat}) == Lists([], chat, stash);
    }
  }

  lemma {:induction false} ListsDropped(row: seq<string>, live: string, stash: map<string, seq<string>>, chat: string)
    requires live !in stash
    ensures Lists(row, live, stash) - {chat} ==
            if chat == live then Lists([], "", stash - {chat}) else Lists(row, live, stash - {chat})
  {
    hide Distinct;
    if chat != live {
      ListsGone(row, live, stash, chat);
    } else {
      assert stash - {chat} == stash;
    }
  }

  lemma {:induction false} ListsSeeded(row: seq<string>, live: string, stash: map<string, seq<string>>, chat: string,
                                       paths: seq<string>)
    requires live !in stash && chat !in stash && (chat == live ==> row == [])
    ensures var lists := Lists(row, live, stash);
      && chat !in lists && lists - {chat} == lists
      && lists[chat := Distinct(paths)] == (if chat != live then Lists(row, live, stash[chat := paths])
                                            else if paths == [] then lists[chat := []]
                                            else Lists(Distinct(paths), live, stash))
  {
    hide Distinct;
    if chat != live {
      ListsPut(row, live, stash, chat, paths);
    } else if paths != [] {
      ListsRow(row, live, stash, Distinct(paths));
    }
  }

  lemma {:induction false} NothingDiffers()
    ensures AllDifferent([])
  {
  }

  lemma {:induction false} AddedDiffers(row: seq<string>, path: string)
    requires AllDifferent(row) && path !in row
    ensures AllDifferent(row + [path])
  {
  }

  class AttachmentRow {
    var attached: seq<string>
    var stash: map<string, seq<string>>
    var liveChatID: string
    var generations: map<string, nat>
    var touched: set<string>
    var pending: Slot
    var sent: seq<Save>

    /** A chat's list is on the row or parked, never both; a list belongs to a chat that was touched. */
    ghost predicate Valid()
      reads this
    {
      && AllDifferent(attached)
      && "" !in stash && liveChatID !in stash
      && (forall c :: c in stash ==> stash[c] != [] && c in touched)
      && (attached != [] && liveChatID != "" ==> liveChatID in touched)
    }

    /** The plain map, repeated paths counted once. */
    ghost function Abs(): Shelf
      reads this
    {
      Shelf(Lists(attached, liveChatID, stash), liveChatID, touched, generations, PlainSlot(pending), PlainLog(sent))
    }

    constructor ()
      ensures Valid() && Abs() == Shelf(map[], "", {}, map[], Idle, [])
    {
      attached, stash, liveChatID, generations, touched, pending, sent := [], map[], "", map[], {}, Idle, [];
    }

    method Persist(chat: string, paths: seq<string>, now: bool)
      modifies this`touched, this`pending, this`sent
      ensures chat == "" ==> unchanged(this)
      ensures chat != "" ==> touched == old(touched) + {chat}
      ensures chat != "" && !now ==> pending == Pending(Save(chat, paths)) && sent == old(sent)
      ensures chat != "" && now ==> pending == Idle && sent == old(sent) + [Save(chat, paths)]
    {
      if chat == "" {
        return;
      }
      touched := touched + {chat};
      if now {
        pending, sent := Idle, sent + [Save(chat, paths)];
        return;
      }
      pending := Pending(Save(chat, paths));
    }

    method AddAttachment(path: string)
      requires Valid()
      modifies this
      ensures Valid() && Abs() == Add(old(Abs()), path)
    {
      if path in attached {
        ListsRow(attached, liveChatID, stash, attached);
        return;
      }
      hide Lists, Distinct, AllDifferent;
      ListsRow(attached, liveChatID, stash, attached + [path]);
      AddedDiffers(attached, path);
      attached := attached + [path];
      Persist(liveChatID, attached, false);
      DistinctSame(attached);
    }

    method AddAttachmentTo(chat: string, path: string, token: Token)
      requires Valid()
      modifies this
      ensures Valid() && Abs() == AddTo(old(Abs()), chat, path, token)
    {
      hide Lists, Distinct, AllDifferent, Add;
      if token.Token? && token.generation != (if chat in generations then generations[chat] else 0) {
        return;
      }
      if chat == "" || chat == liveChatID {
        AddIsAddTo(Abs(), chat, path, token);
        AddAttachment(path);
        return;
      }
      AddParked(chat, path);
    }

    /** The same for a chat that is not on screen. */
    method AddParked(chat: string, path: string)
      requires Valid() && chat != "" && chat != liveChatID
      modifies this
      ensures Valid() && Abs() == AddTo(old(Abs()), chat, path, NoToken)
    {
      hide Lists, Distinct, AllDifferent;
      var held := if chat in stash then stash[chat] else [];
      var next := held + [path];
      ListsParked(attached, liveChatID, stash, chat);
      ListsPut(attached, liveChatID, stash, chat, next);
      DistinctSnoc(held, path);
      if path in held {
        return;
      }
      stash := stash[chat := next];
      Persist(chat, next, false);
    }

    method RemoveAttachment(path: string)
      requires Valid()
      modifies this
      ensures Valid() && Abs() == Remove(old(Abs()), path)
    {
      hide Lists, Distinct, AllDifferent;
      ListsRow(attached, liveChatID, stash, Removed(attached, path));
      RemovedDiffers(attached, path);
      attached := Removed(attached, path);
      Persist(liveChatID, attached, false);
      DistinctSame(attached);
    }

    method TakeAttachments() returns (out: seq<string>)
      requires Valid()
      modifies this
      ensures out == old(Abs()).ListOf(old(liveChatID))
      ensures Valid() && Abs() == Take(old(Abs()))
    {
      hide Lists, Distinct, AllDifferent, PlainLog;
      ListsRow(attached, liveChatID, stash, []);
      NothingDiffers();
      DistinctSame([]);
      out := attached;
      attached := [];
      if |out| > 0 {
        PlainLogSnoc(sent, Save(liveChatID, []));
        Persist(liveChatID, [], true);
      }
    }

    method FlushAttachments()
      requires AllDifferent(attached)
      modifies this`pending, this`sent
      ensures if liveChatID == "" || old(pending).Idle? then pending == old(pending) && sent == old(sent)
              else pending == Idle && sent == old(sent) + [Save(liveChatID, attached)]
      ensures old(Valid()) ==> Valid() && Abs() == Flush(old(Abs()))
    {
      hide Lists, Distinct, AllDifferent, PlainLog, Plain;
      if liveChatID == "" || pending.Idle? {
        return;
      }
      PlainLogSnoc(sent, Save(liveChatID, attached));
      PlainIsPlain(Save(liveChatID, attached));
      if liveChatID !in stash {
        ListsRow(attached, liveChatID, stash, attached);
      }
      SendPending();
    }

    /** What waits goes out as the live chat's list. */
    method SendPending()
      modifies this`pending, this`sent
      ensures pending == Idle && sent == old(sent) + [Save(liveChatID, attached)]
    {
      pending, sent := Idle, sent + [Save(liveChatID, attached)];
    }

    /** The row's list under its chat, when it belongs to one. */
    method ParkRow()
      modifies this`stash
      ensures stash == if liveChatID == "" then old(stash)
                       else if attached == [] then old(stash) - {liveChatID}
                       else old(stash)[liveChatID := attached]
    {
      if liveChatID != "" {
        if |attached| > 0 {
          stash := stash[liveChatID := attached];
        } else {
          stash := stash - {liveChatID};
        }
      }
    }

    /** Before the active chat changes: the row goes back to its chat. */
    method StashAttachments()
      requires Valid()
      modifies this
      ensures Valid() && Abs() == Park(old(Abs()))
    {
      hide Lists, Distinct, AllDifferent, PlainLog, Plain;
      ListsHandedBack(attached, liveChatID, stash);
      ListsRow(attached, liveChatID, stash, attached);
      PlainLogSnoc(sent, Save(liveChatID, attached));
      PlainIsPlain(Save(liveChatID, attached));
      ParkRow();
      FlushAttachments();
      liveChatID := "";
      attached := [];
      NothingDiffers();
    }

    /** `chat`'s list comes onto the row. */
    method RestoreAttachments(chat: string)
      requires Valid()
      modifies this
      ensures Valid() && Abs() == Show(old(Abs()), chat)
    {
      hide Lists, Distinct, AllDifferent;
      ListsTaken(attached, liveChatID, stash, chat);
      NothingDiffers();
      liveChatID := chat;
      attached := [];
      if chat !in stash || stash[chat] == [] {
        return;
      }
      var held := stash[chat];
      stash := stash - {chat};
      DistinctDiffers(held);
      UpsertAll(held);
    }

    /** The row takes in paths one by one, each where it was when it is there already. */
    method UpsertAll(held: seq<string>)
      requires attached == []
      modifies this`attached
      ensures attached == Distinct(held)
    {
      for i := 0 to |held|
        invariant attached == Distinct(held[..i])
      {
        DistinctSnoc(held[..i], held[i]);
        assert held[..i + 1] == held[..i] + [held[i]];
        attached := Upsert(attached, held[i]);
      }
      assert held[..|held|] == held;
    }

    method DropAttachments(chat: string)
      requires Valid()
      modifies this
      ensures Valid() && Abs() == Drop(old(Abs()), chat)
    {
      hide Lists, Distinct, AllDifferent;
      ListsDropped(attached, liveChatID, stash, chat);
      NothingDiffers();
      stash := stash - {chat};
      touched := touched - {chat};
      generations := generations[chat := (if chat in generations then generations[chat] else 0) + 1];
      if chat == liveChatID {
        liveChatID := "";
        attached := [];
      }
    }

    method SeedAttachments(chat: string, paths: seq<string>)
      requires Valid()
      modifies this
      ensures Valid() && Abs() == Seed(old(Abs()), chat, paths)
    {
      hide Lists, Distinct, AllDifferent;
      if chat == "" || chat in touched {
        return;
      }
      ListsSeeded(attached, liveChatID, stash, chat, paths);
      touched := touched + {chat};
      if |paths| == 0 {
        return;
      }
      if chat != liveChatID {
        stash := stash[chat := paths];
        return;
      }
      if |attached| > 0 {
        return;
      }
      DistinctDiffers(paths);
      UpsertAll(paths);
    }

    method AdoptRemoteAttachments(chat: string, paths: seq<string>)
      requires Valid()
      modifies this
      ensures Valid() && Abs() == Adopt(old(Abs()), chat, paths)
    {
      hide Lists, Distinct, AllDifferent;
      if chat == "" || chat == liveChatID {
        return;
      }
      touched := touched + {chat};
      ListsGone(attached, liveChatID, stash, chat);
      ListsPut(attached, liveChatID, stash, chat, paths);
      if |paths| == 0 {
        stash := stash - {chat};
        return;
      }
      stash := stash[chat := paths];
    }

    method FirePending()
      requires Valid()
      modifies this`pending, this`sent
      ensures Valid() && Abs() == Fire(old(Abs()))
    {
      hide Lists, Distinct, AllDifferent, PlainLog, Plain;
      if pending.Pending? {
        PlainLogSnoc(sent, pending.save);
        pending, sent := Idle, sent + [pending.save];
      }
    }

    method Do(op: Op)
      requires Valid()
      modifies this
      ensures Valid() && Abs() == Step(old(Abs()), op)
    {
      hide Add, AddTo, Remove, Take, Flush, Park, Show, Drop, Seed, Adopt, Fire;
      hide Lists, PlainLog, PlainSlot, AllDifferent;
      match op
      case AddPath(path) => AddAttachment(path);
      case AddPathTo(chat, path, token) => AddAttachmentTo(chat, path, token);
      case RemovePath(path) => RemoveAttachment(path);
      case TakeRow => var _ := TakeAttachments();
      case ParkRow => StashAttachments();
      case Switch(chat) =>
        StashAttachments();
        RestoreAttachments(chat);
      case DropChat(chat) => DropAttachments(chat);
      case SeedChat(chat, paths) => SeedAttachments(chat, paths);
      case AdoptChat(chat, paths) => AdoptRemoteAttachments(chat, paths);
      case FlushRow => FlushAttachments();
      case TimerFires => FirePending();
    }

    /** A whole run on the row and the stash is the same run on the plain map. */
    method Play(ops: seq<Op>)
      requires Valid()
      modifies this
      ensures Valid() && Abs() == Run(old(Abs()), ops)
    {
      hide Step;
      for i := 0 to |ops|
        invariant Valid() && Abs() == Run(old(Abs()), ops[..i])
      {
        RunSnoc(old(Abs()), ops[..i], ops[i]);
        assert ops[..i + 1] == ops[..i] + [ops[i]];
        Do(ops[i]);
      }
      assert ops[..|ops|] == ops;
    }
  }

  // ------------------------------------------------------------------------ over every run

  datatype Op =
    | AddPath(path: string)
    | AddPathTo(chat: string, path: string, token: Token)
    | RemovePath(path: string)
    | TakeRow
    | ParkRow
    | Switch(chat: string)
    | DropChat(chat: string)
    | SeedChat(chat: string, paths: seq<string>)
    | AdoptChat(chat: string, paths: seq<string>)
    | FlushRow
    | TimerFires

  function Step(s: Shelf, op: Op): Shelf {
    match op
    case AddPath(path) => Add(s, path)
    case AddPathTo(chat, path, token) => AddTo(s, chat, path, token)
    case RemovePath(path) => Remove(s, path)
    case TakeRow => Take(s)
    case ParkRow => Park(s)
    case Switch(chat) => Show(Park(s), chat)
    case DropChat(chat) => Drop(s, chat)
    case SeedChat(chat, paths) => Seed(s, chat, paths)
    case AdoptChat(chat, paths) => Adopt(s, chat, paths)
    case FlushRow => Flush(s)
    case TimerFires => Fire(s)
  }

  function Run(s: Shelf, ops: seq<Op>): Shelf {
    if ops == [] then s else Step(Run(s, ops[..|ops| - 1]), ops[|ops| - 1])
  }

  lemma {:induction false} RunSnoc(s: Shelf, ops: seq<Op>, op: Op)
    ensures Run(s, ops + [op]) == Step(Run(s, ops), op)
  {
    assert (ops + [op])[..|ops|] == ops;
  }

  /** A list is never empty, belongs to a touched chat, and only a row without a chat has none. */
  predicate Proper(s: Shelf) {
    && (forall c :: c in s.lists ==> s.lists[c] != [])
    && (forall c :: c in s.lists && c != "" ==> c in s.touched)
    && ("" in s.lists ==> s.live == "")
  }

  lemma {:induction false} RunProper(s: Shelf, ops: seq<Op>)
    requires Proper(s)
    ensures Proper(Run(s, ops))
  {
    if ops != [] {
      RunProper(s, ops[..|ops| - 1]);
      StepProper(Run(s, ops[..|ops| - 1]), ops[|ops| - 1]);
    }
  }

  lemma {:induction false} StepProper(s: Shelf, op: Op)
    requires Proper(s)
    ensures Proper(Step(s, op))
  {
    match op
    case AddPath(_) =>
    case AddPathTo(_, _, _) =>
    case SeedChat(_, _) =>
    case AdoptChat(_, _) =>
    case _ =>
  }

  // What each operation does.

  /** One more path, at the end, unless it was there. */
  predicate Gains(before: seq<string>, after: seq<string>, path: string) {
    && before <= after && |after| <= |before| + 1 && path in after
    && (path in before ==> after == before)
  }

  /** The path is gone, and what stood before and behind it is closed up. */
  predicate Loses(before: seq<string>, after: seq<string>, path: string) {
    && (path !in before ==> after == before)
    && forall i :: 0 <= i < |before| && before[i] == path ==> after == before[..i] + before[i + 1..]
  }

  lemma {:induction false} RemovedLoses(row: seq<string>, path: string)
    requires AllDifferent(row)
    ensures Loses(row, Removed(row, path), path)
  {
    hide AllDifferent;
    RemovedAbsent(row, path);
    forall i | 0 <= i < |row| && row[i] == path ensures Removed(row, path) == row[..i] + row[i + 1..] {
      RemovedAt(row, path, i);
    }
  }

  lemma {:induction false} RemovedAbsent(row: seq<string>, path: string)
    ensures path !in row ==> Removed(row, path) == row
  {
    if row != [] {
      RemovedAbsent(row[1..], path);
    }
  }

  lemma {:induction false} RemovedAt(row: seq<string>, path: string, i: nat)
    requires AllDifferent(row) && i < |row| && row[i] == path
    ensures Removed(row, path) == row[..i] + row[i + 1..]
  {
    if i == 0 {
      RemovedAbsent(row[1..], path);
    } else {
      RemovedAt(row[1..], path, i - 1);
      assert [row[0]] + row[1..][..i - 1] == row[..i] && row[1..][i..] == row[i + 1..];
    }
  }

  predicate Fresh(s: Shelf, op: Op)
    requires op.AddPathTo?
  {
    op.token.Token? ==> op.token.generation == s.Generation(op.chat)
  }

  /** What is staged for an operation's own chat afterwards; the named chats it is not about keep theirs
      (`OthersKeepTheirs`). */
  lemma {:induction false} StagedAfter(s: Shelf, op: Op)
    requires Proper(s) && AllDifferent(s.ListOf(s.live))
    ensures var t, chat := Step(s, op), Target(s, op);
      var before, after := s.ListOf(chat), t.ListOf(chat);
      match op
      case AddPath(path) => Gains(before, after, path)
      case AddPathTo(_, path, _) => if Fresh(s, op) then Gains(before, after, path) else t == s
      case RemovePath(path) => Loses(before, after, path)
      case TakeRow => after == []
      case ParkRow => t.ListOf("") == [] && (chat != "" ==> after == before)
      case Switch(next) => (next == "" ==> t.ListOf("") == []) && (chat != "" && next != "" ==> after == before)
      case DropChat(_) => after == []
      case SeedChat(_, paths) => after == if chat == "" || chat in s.touched then before else Distinct(paths)
      case AdoptChat(_, paths) => after == if chat == "" || chat == s.live then before else Distinct(paths)
      case FlushRow => t.lists == s.lists
      case TimerFires => t.lists == s.lists
  {
    hide Distinct, AllDifferent, Removed, Loses;
    match op
    case RemovePath(path) => RemovedLoses(s.ListOf(s.live), path);
    case AddPath(_) =>
    case AddPathTo(_, _, _) =>
    case _ =>
  }

  /** A list that changes under the reader's hand is to be saved: an added file, under a token that is
      not stale, and any removal. */
  predicate Schedules(s: Shelf, op: Op) {
    match op
    case AddPath(path) => s.live != "" && path !in s.ListOf(s.live)
    case AddPathTo(_, path, _) =>
      var chat := Target(s, op);
      chat != "" && path !in s.ListOf(chat) && Fresh(s, op)
    case RemovePath(_) => s.live != ""
    case _ => false
  }

  /** What sends right away: taking a row with files, leaving or flushing a chat while something
      waits, and the timer. */
  predicate Sends(s: Shelf, op: Op) {
    match op
    case TakeRow => s.live != "" && s.ListOf(s.live) != []
    case ParkRow => s.live != "" && s.pending.Pending?
    case Switch(_) => s.live != "" && s.pending.Pending?
    case FlushRow => s.live != "" && s.pending.Pending?
    case TimerFires => s.pending.Pending?
    case _ => false
  }

  /** Exactly what is waiting and what has been sent after any operation: a save of the chat the
      operation is about, with its list of that moment, or, from the timer, the save that waited. */
  lemma {:induction false} SavesExactly(s: Shelf, op: Op)
    ensures var t, chat := Step(s, op), Target(s, op);
      && t.pending == (if Schedules(s, op) then Pending(Save(chat, t.ListOf(chat)))
                       else if Sends(s, op) then Idle else s.pending)
      && t.sent == s.sent + (if !Sends(s, op) then []
                             else [if op.TimerFires? then s.pending.save else Save(s.live, t.ListOf(s.live))])
  {
    hide Distinct, Removed;
  }

  /** Which chats count as touched, and which one is on screen. */
  lemma {:induction false} MarksExactly(s: Shelf, op: Op)
    ensures var t, chat := Step(s, op), Target(s, op);
      && t.touched == (if op.DropChat? then s.touched - {chat}
                       else if Schedules(s, op) || (op.TakeRow? && Sends(s, op)) || (op.SeedChat? && chat != "")
                               || (op.AdoptChat? && chat != "" && chat != s.live)
                       then s.touched + {chat} else s.touched)
      && t.live == (if op.ParkRow? then "" else if op.Switch? then op.chat
                    else if op == DropChat(s.live) then "" else s.live)
  {
    hide Distinct, Removed;
  }

  /** Moving between chats changes no chat's list. */
  lemma {:induction false} SwitchKeepsLists(s: Shelf, chat: string, other: string)
    requires other != ""
    ensures Step(s, Switch(chat)).ListOf(other) == s.ListOf(other) && Step(s, Switch(chat)).live == chat
  {
  }

  /** The chat whose list an operation may change. */
  function Target(s: Shelf, op: Op): string {
    match op
    case AddPathTo(chat, _, _) => if chat == "" then s.live else chat
    case DropChat(chat) => chat
    case SeedChat(chat, _) => chat
    case AdoptChat(chat, _) => chat
    case _ => s.live
  }

  /** An operation leaves every other chat's list alone. */
  lemma {:induction false} OthersKeepTheirs(s: Shelf, op: Op, other: string)
    requires other != "" && other != Target(s, op)
    ensures Step(s, op).ListOf(other) == s.ListOf(other)
  {
  }

  /** A seed writes over what is parked without looking; still it changes no list that is there, at any
      moment of any run, because only chats nobody touched are seeded and those have none. */
  lemma {:induction false} SeedNeverOverwrites(start: Shelf, ops: seq<Op>, chat: string, paths: seq<string>,
                                               other: string)
    requires Proper(start) && Run(start, ops).ListOf(other) != []
    ensures Seed(Run(start, ops), chat, paths).ListOf(other) == Run(start, ops).ListOf(other)
  {
    RunProper(start, ops);
  }

  /** The generation of a chat moves exactly when the chat is dropped. */
  lemma {:induction false} GenerationCountsDrops(s: Shelf, ops: seq<Op>, chat: string)
    ensures Run(s, ops).Generation(chat) >= s.Generation(chat)
    ensures Run(s, ops).Generation(chat) == s.Generation(chat) <==> DropChat(chat) !in ops
  {
    if ops != [] {
      hide Step;
      var init, last := ops[..|ops| - 1], ops[|ops| - 1];
      GenerationCountsDrops(s, init, chat);
      assert ops == init + [last];
      StepGeneration(Run(s, init), last, chat);
    }
  }

  lemma {:induction false} StepGeneration(s: Shelf, op: Op, chat: string)
    ensures Step(s, op).Generation(chat) == s.Generation(chat) + if op == DropChat(chat) then 1 else 0
  {
  }

  /** A restore with a token taken before the run brings a file back exactly when the chat was not
      dropped in between; otherwise it changes nothing at all. */
  lemma {:induction false} RestoreIffNotDropped(s: Shelf, ops: seq<Op>, chat: string, path: string)
    requires chat != ""
    ensures var now := Run(s, ops);
      var restored := AddTo(now, chat, path, Token(s.Generation(chat)));
      if DropChat(chat) in ops then restored == now
      else path in restored.ListOf(chat) && forall p :: p in now.ListOf(chat) ==> p in restored.ListOf(chat)
  {
    GenerationCountsDrops(s, ops, chat);
  }

  /** Showing a chat without parking the row first keeps every list exactly when the row is empty. */
  lemma {:induction false} ShowKeepsIff(s: Shelf, chat: string)
    requires s.live != ""
    ensures (forall c :: Show(s, chat).ListOf(c) == s.ListOf(c)) <==> s.ListOf(s.live) == []
  {
    assert Show(s, chat).ListOf(s.live) == [];
  }

  /** What may stage files for a chat. */
  predicate Stages(s: Shelf, op: Op, chat: string) {
    match op
    case AddPath(_) => chat == s.live
    case AddPathTo(c, _, _) => c == chat || (c == "" && chat == s.live)
    case SeedChat(c, _) => c == chat && chat !in s.touched
    case AdoptChat(c, _) => c == chat && chat != s.live
    case _ => false
  }

  /** And really does, into an empty list, unless it came with a stale token or without any file. */
  lemma {:induction false} StagingFills(s: Shelf, op: Op, chat: string)
    requires chat != "" && Stages(s, op, chat) && s.ListOf(chat) == []
    ensures Step(s, op).ListOf(chat) == [] ==>
      (op.AddPathTo? && !Fresh(s, op)) || ((op.SeedChat? || op.AdoptChat?) && op.paths == [])
  {
    match op
    case AddPath(path) => assert Step(s, op).ListOf(chat) == [path];
    case AddPathTo(_, path, _) =>
      if Fresh(s, op) {
        assert Step(s, op).ListOf(chat) == [path];
      }
    case SeedChat(_, paths) =>
    case AdoptChat(_, paths) =>
  }

  /** The chat has no files, and no save past the first `n` gives it any. */
  predicate Cleared(s: Shelf, chat: string, n: nat) {
    && s.ListOf(chat) == []
    && (s.pending.Pending? && s.pending.save.chat == chat ==> s.pending.save.paths == [])
    && n <= |s.sent| && forall k :: n <= k < |s.sent| && s.sent[k].chat == chat ==> s.sent[k].paths == []
  }

  lemma {:induction false} StaysEmpty(s: Shelf, op: Op, chat: string)
    requires chat != "" && s.ListOf(chat) == [] && !Stages(s, op, chat)
    ensures Step(s, op).ListOf(chat) == []
  {
    hide Distinct;
  }

  lemma {:induction false} StepStaysCleared(s: Shelf, op: Op, chat: string, n: nat)
    requires chat != "" && Cleared(s, chat, n) && !Stages(s, op, chat)
    ensures Cleared(Step(s, op), chat, n) && s.sent <= Step(s, op).sent
  {
    StaysEmpty(s, op, chat);
    SavesAreTrue(s, op);
    hide Step, Stages;
    var t := Step(s, op);
    forall k | n <= k < |t.sent| && t.sent[k].chat == chat ensures t.sent[k].paths == [] {
      assert k < |s.sent| ==> t.sent[..|s.sent|][k] == s.sent[k];
    }
  }

  /** A send leaves its chat without files and says so at once, on no debounce; and over every run in
      which nothing is staged for that chat again, no save brings the sent files back. */
  lemma {:induction false} SentFilesStayGone(s: Shelf, ops: seq<Op>)
    requires s.live != "" && s.ListOf(s.live) != []
    requires forall k :: 0 <= k < |ops| ==> !Stages(Run(Take(s), ops[..k]), ops[k], s.live)
    ensures Take(s).pending.Idle? && Take(s).sent == s.sent + [Save(s.live, [])] <= Run(Take(s), ops).sent
    ensures Cleared(Run(Take(s), ops), s.live, |s.sent|)
  {
    hide Step, Cleared, Stages;
    if ops == [] {
      assert Cleared(Take(s), s.live, |s.sent|) by { TakeClears(s); }
    } else {
      var init, last := ops[..|ops| - 1], ops[|ops| - 1];
      forall k | 0 <= k < |init| ensures !Stages(Run(Take(s), init[..k]), init[k], s.live) {
        assert init[..k] == ops[..k] && init[k] == ops[k];
      }
      SentFilesStayGone(s, init);
      StepStaysCleared(Run(Take(s), init), last, s.live, |s.sent|);
    }
  }

  lemma {:induction false} TakeClears(s: Shelf)
    requires s.live != "" && s.ListOf(s.live) != []
    ensures Cleared(Take(s), s.live, |s.sent|)
  {
  }

  // Saves.

  /** `save` is what its chat's list was at some moment of the run. */
  ghost predicate WasTrue(save: Save, s: Shelf, ops: seq<Op>) {
    exists n :: 0 <= n <= |ops| && TrueNow(save, Run(s, ops[..n]))
  }

  predicate TrueNow(save: Save, s: Shelf) {
    save.chat != "" && save.paths == s.ListOf(save.chat)
  }

  /** Only the timer sends anything but the list its chat has right then. */
  lemma {:induction false} SavesAreTrue(s: Shelf, op: Op)
    ensures var t := Step(s, op);
      && (t.pending != s.pending && t.pending.Pending? ==> TrueNow(t.pending.save, t))
      && (t.sent == s.sent || (|t.sent| == |s.sent| + 1 && t.sent[..|s.sent|] == s.sent))
      && (t.sent != s.sent ==>
            TrueNow(t.sent[|s.sent|], t) || (op == TimerFires && s.pending == Pending(t.sent[|s.sent|])))
  {
  }

  lemma {:induction false} WasTrueStays(save: Save, s: Shelf, ops: seq<Op>, op: Op)
    requires WasTrue(save, s, ops)
    ensures WasTrue(save, s, ops + [op])
  {
    var n :| 0 <= n <= |ops| && TrueNow(save, Run(s, ops[..n]));
    assert (ops + [op])[..n] == ops[..n];
  }

  /** Every save a run sends, and the one it leaves waiting, is a list its own chat really had. */
  lemma {:induction false} EverySaveWasTrue(s: Shelf, ops: seq<Op>)
    requires s.pending.Idle? && s.sent == []
    ensures var t := Run(s, ops);
      && (t.pending.Pending? ==> WasTrue(t.pending.save, s, ops))
      && (forall k :: 0 <= k < |t.sent| ==> WasTrue(t.sent[k], s, ops))
  {
    hide Step, WasTrue, TrueNow;
    if ops != [] {
      var init, last := ops[..|ops| - 1], ops[|ops| - 1];
      var before, t := Run(s, init), Run(s, ops);
      EverySaveWasTrue(s, init);
      SavesAreTrue(before, last);
      assert init + [last] == ops;
      if before.pending.Pending? {
        WasTrueStays(before.pending.save, s, init, last);
      }
      if t.pending.Pending? && t.pending != before.pending {
        TrueAtTheEnd(t.pending.save, s, ops);
      }
      forall k | 0 <= k < |t.sent| ensures WasTrue(t.sent[k], s, ops) {
        if k < |before.sent| {
          WasTrueStays(before.sent[k], s, init, last);
          assert t.sent[k] == before.sent[k];
        } else if TrueNow(t.sent[k], t) {
          TrueAtTheEnd(t.sent[k], s, ops);
        }
      }
    }
  }

  lemma {:induction false} TrueAtTheEnd(save: Save, s: Shelf, ops: seq<Op>)
    requires TrueNow(save, Run(s, ops))
    ensures WasTrue(save, s, ops)
  {
    assert ops[..|ops|] == ops;
  }

  /** Some save of the chat is waiting or has just gone out. */
  predicate StillSaved(s: Shelf, t: Shelf, chat: string) {
    || (t.pending.Pending? && t.pending.save.chat == chat)
    || (exists k :: |s.sent| <= k < |t.sent| && t.sent[k].chat == chat)
  }

  /** With one slot for all chats, the live chat's waiting save is lost by exactly one thing: a new
      file added to another chat's parked list, under no token or one that is not stale. */
  lemma {:induction false} LiveSaveLostIff(s: Shelf, op: Op)
    requires s.live != "" && s.pending.Pending? && s.pending.save.chat == s.live
    ensures !StillSaved(s, Step(s, op), s.live) <==>
            && op.AddPathTo? && op.chat != "" && op.chat != s.live && op.path !in s.ListOf(op.chat)
            && (op.token.Token? ==> op.token.generation == s.Generation(op.chat))
  {
    var t := Step(s, op);
    if |t.sent| > |s.sent| {
      assert t.sent[|s.sent|].chat == s.live;
    }
  }

  // What the server holds.

  function NewSaves<T>(before: seq<T>, after: seq<T>): seq<T> {
    if |before| <= |after| then after[|before|..] else []
  }

  function Filed(server: map<string, seq<string>>, log: seq<Save>): map<string, seq<string>>
    decreases |log|
  {
    if log == [] then server else Filed(server[log[0].chat := log[0].paths], log[1..])
  }

  /** The server's lists after a step, repeated paths once: its own record and another device's list tell
      of one, a dropped chat has none, and whatever is sent is stored. */
  function Stored(server: map<string, seq<string>>, s: Shelf, op: Op): map<string, seq<string>> {
    Filed(Told(server, s, op), NewSaves(s.sent, Step(s, op).sent))
  }

  function Told(server: map<string, seq<string>>, s: Shelf, op: Op): map<string, seq<string>> {
    match op
    case SeedChat(chat, paths) => if chat in s.touched then server else server[chat := Distinct(paths)]
    case AdoptChat(chat, paths) => server[chat := Distinct(paths)]
    case DropChat(chat) => server - {chat}
    case _ => server
  }

  function StoredRun(server: map<string, seq<string>>, s: Shelf, ops: seq<Op>): map<string, seq<string>> {
    if ops == [] then server
    else
      var init := ops[..|ops| - 1];
      Stored(StoredRun(server, s, init), Run(s, init), ops[|ops| - 1])
  }

  /** A save waits for this chat. */
  predicate Waits(s: Shelf, chat: string) {
    s.pending.Pending? && s.pending.save.chat == chat
  }

  function Held(server: map<string, seq<string>>, chat: string): seq<string> {
    if chat in server then server[chat] else []
  }

  /** Of every chat staged into, the server holds the list, but for the live one while its save waits. */
  predicate AllStored(s: Shelf, server: map<string, seq<string>>) {
    && (forall c :: c in s.touched && c != "" && !(c == s.live && Waits(s, c)) ==> s.ListOf(c) == Held(server, c))
    && (s.pending.Pending? ==>
          var save := s.pending.save;
          save.chat != "" && (save.chat in s.touched ==> save.chat == s.live && save.paths == s.ListOf(s.live)))
  }

  /** What leaves the server with another list than the row or the stash: a file added to a parked list,
      whose save takes the one slot; a list of another device for the live chat, which is passed over;
      and a list for a chat that was dropped while its own save waited. */
  predicate Parts(s: Shelf, op: Op) {
    match op
    case AddPathTo(chat, path, token) =>
      && chat != "" && chat != s.live && path !in s.ListOf(chat)
      && (token.Token? ==> token.generation == s.Generation(chat))
    case AdoptChat(chat, paths) =>
      if chat == "" then false
      else if chat == s.live then chat in s.touched && !Waits(s, chat) && Distinct(paths) != s.ListOf(chat)
      else Waits(s, chat) && chat !in s.touched
    case SeedChat(chat, paths) =>
      && chat != "" && chat !in s.touched && Waits(s, chat)
      && !(chat == s.live && s.pending.save.paths == Distinct(paths))
    case _ => false
  }

  lemma {:induction false} FiledShort(server: map<string, seq<string>>, log: seq<Save>, save: Save)
    ensures Filed(server, NewSaves(log, log)) == server
    ensures Filed(server, NewSaves(log, log + [save])) == server[save.chat := save.paths]
  {
    assert NewSaves(log, log) == [];
    assert NewSaves(log, log + [save]) == [save] && [save][1..] == [];
    assert Filed(server, [save]) == Filed(server[save.chat := save.paths], []);
  }

  /** The one save a step sends, if any. */
  function SentBy(s: Shelf, op: Op): Save {
    var t := Step(s, op);
    if |t.sent| > |s.sent| then t.sent[|s.sent|] else Save("", [])
  }

  lemma {:induction false} SentByIs(s: Shelf, op: Op)
    ensures Step(s, op).sent == s.sent || Step(s, op).sent == s.sent + [SentBy(s, op)]
  {
    SavesAreTrue(s, op);
  }

  /** A list of the live chat that changes is waiting afterwards. */
  lemma {:induction false} LiveStored(s: Shelf, server: map<string, seq<string>>, list: seq<string>)
    requires AllStored(s, server)
    ensures AllStored(s.WithList(s.live, list).Scheduled(s.live), server)
  {
  }

  lemma {:induction false} StagingStoredIff(s: Shelf, server: map<string, seq<string>>, op: Op)
    requires Proper(s) && AllStored(s, server) && (op.AddPath? || op.AddPathTo? || op.RemovePath?)
    ensures AllStored(Step(s, op), Stored(server, s, op)) <==> !Parts(s, op)
  {
    hide Filed, NewSaves, AllStored, Proper;
    FiledShort(Told(server, s, op), s.sent, SentBy(s, op));
    if op.RemovePath? {
      LiveStored(s, server, Removed(s.ListOf(s.live), op.path));
    } else {
      LiveStored(s, server, s.ListOf(s.live) + [op.path]);
      if op.AddPathTo? {
        ParkedNotStored(s, Step(s, op), server, op.chat);
      }
    }
  }

  /** A save that waits for a chat out of sight breaks it. */
  lemma {:induction false} ParkedNotStored(s: Shelf, t: Shelf, server: map<string, seq<string>>, chat: string)
    ensures t.pending.Pending? && t.pending.save.chat == chat != t.live && chat in t.touched ==> !AllStored(t, server)
  {
  }

  lemma {:induction false} SendingStored(s: Shelf, server: map<string, seq<string>>, op: Op)
    requires Proper(s) && AllStored(s, server) && (op.TakeRow? || op.FlushRow? || op.TimerFires? || op.ParkRow?)
    ensures AllStored(Step(s, op), Stored(server, s, op)) <==> !Parts(s, op)
  {
    hide Distinct, Removed, Filed, NewSaves;
    FiledShort(Told(server, s, op), s.sent, SentBy(s, op));
    SentByIs(s, op);
  }

  lemma {:induction false} LeavingStored(s: Shelf, server: map<string, seq<string>>, op: Op)
    requires Proper(s) && AllStored(s, server) && (op.Switch? || op.DropChat?)
    ensures AllStored(Step(s, op), Stored(server, s, op)) <==> !Parts(s, op)
  {
    hide Distinct, Removed, Filed, NewSaves;
    FiledShort(Told(server, s, op), s.sent, SentBy(s, op));
    SentByIs(s, op);
  }

  /** Where one chat changes, here and on the server, only that one is to be looked at. */
  lemma {:induction false} OneChatStored(s: Shelf, t: Shelf, server: map<string, seq<string>>,
                                         server': map<string, seq<string>>, chat: string)
    requires AllStored(s, server) && chat != "" && t.live == s.live && t.pending == s.pending
    requires forall c :: c != chat ==>
      (c in t.touched <==> c in s.touched) && t.ListOf(c) == s.ListOf(c) && Held(server', c) == Held(server, c)
    ensures AllStored(t, server') <==>
      && (chat in t.touched && !(chat == t.live && Waits(t, chat)) ==> t.ListOf(chat) == Held(server', chat))
      && (chat in t.touched && Waits(t, chat) ==> chat == t.live && t.pending.save.paths == t.ListOf(t.live))
    ensures Waits(s, chat) && chat in s.touched ==> chat == s.live && s.pending.save.paths == s.ListOf(chat)
  {
  }

  lemma {:induction false} SeedStoredIff(s: Shelf, server: map<string, seq<string>>, op: Op)
    requires Proper(s) && AllStored(s, server) && op.SeedChat?
    ensures AllStored(Step(s, op), Stored(server, s, op)) <==> !Parts(s, op)
  {
    hide Removed, Filed, NewSaves, AllStored;
    FiledShort(Told(server, s, op), s.sent, SentBy(s, op));
    if op.chat != "" && op.chat !in s.touched {
      assert Step(s, op).ListOf(op.chat) == Distinct(op.paths);
      OneChatStored(s, Step(s, op), server, Told(server, s, op), op.chat);
    } else {
      NoChatStored(s, server, Told(server, s, op));
    }
  }

  lemma {:induction false} AdoptStoredIff(s: Shelf, server: map<string, seq<string>>, op: Op)
    requires Proper(s) && AllStored(s, server) && op.AdoptChat?
    ensures AllStored(Step(s, op), Stored(server, s, op)) <==> !Parts(s, op)
  {
    hide Removed, Filed, NewSaves, AllStored;
    FiledShort(Told(server, s, op), s.sent, SentBy(s, op));
    if op.chat != "" {
      OneChatStored(s, Step(s, op), server, Told(server, s, op), op.chat);
    } else {
      NoChatStored(s, server, Told(server, s, op));
    }
  }

  /** What the server holds for no chat at all is nobody's list. */
  lemma {:induction false} NoChatStored(s: Shelf, server: map<string, seq<string>>, server': map<string, seq<string>>)
    requires AllStored(s, server) && forall c :: c != "" ==> Held(server', c) == Held(server, c)
    ensures AllStored(s, server')
  {
  }

  /** One step keeps the server up to date exactly when it is none of those. */
  lemma {:induction false} StepStoredIff(s: Shelf, server: map<string, seq<string>>, op: Op)
    requires Proper(s) && AllStored(s, server)
    ensures AllStored(Step(s, op), Stored(server, s, op)) <==> !Parts(s, op)
  {
    hide Proper, AllStored, Step, Stored, Parts;
    if op.AddPath? || op.AddPathTo? || op.RemovePath? {
      StagingStoredIff(s, server, op);
    } else if op.TakeRow? || op.FlushRow? || op.TimerFires? || op.ParkRow? {
      SendingStored(s, server, op);
    } else if op.Switch? || op.DropChat? {
      LeavingStored(s, server, op);
    } else if op.SeedChat? {
      SeedStoredIff(s, server, op);
    } else {
      AdoptStoredIff(s, server, op);
    }
  }

  /** With nothing pending the server holds the current list of every chat staged into, over every run
      without such a step. */
  lemma {:induction false} IdleMeansStored(s: Shelf, server: map<string, seq<string>>, ops: seq<Op>)
    requires Proper(s) && AllStored(s, server)
    requires forall k :: 0 <= k < |ops| ==> !Parts(Run(s, ops[..k]), ops[k])
    ensures var t, held := Run(s, ops), StoredRun(server, s, ops);
      && Proper(t) && AllStored(t, held)
      && (t.pending.Idle? ==>
            forall c :: c in t.touched && c != "" ==> t.ListOf(c) == Held(held, c))
  {
    hide Step, Stored, Parts, Proper;
    RunProper(s, ops);
    if ops != [] {
      var init := ops[..|ops| - 1];
      forall k | 0 <= k < |init| ensures !Parts(Run(s, init[..k]), init[k]) {
        assert init[..k] == ops[..k] && init[k] == ops[k];
      }
      IdleMeansStored(s, server, init);
      StepStoredIff(Run(s, init), StoredRun(server, s, init), ops[|ops| - 1]);
    }
  }

  /** A new row and a server without lists are such a start. */
  lemma {:induction false} NewShelfStored()
    ensures var s := Shelf(map[], "", {}, map[], Idle, []); Proper(s) && AllStored(s, map[])
  {
  }
}
