/**
 The identities of table chat. A message has its number in the archive before the first checkpoint
 that holds it, so that filing it again, from whichever checkpoint, is always the same row.
 */
module Messages {
  import opened Common
  import opened Model
  import opened Settling
  import opened Recovery

  const MAX_ID := 0x7fff_ffff

  // ---------------------------------------------------------------------------------------------
  // Filing.

  /** Whether these messages can be filed together with what is there. */
  ghost predicate Fileable(rows: map<int, Message>, entries: seq<Chat>) {
    && (forall i {:trigger entries[i]} :: 0 <= i < |entries| ==>
          && entries[i].id.Some? && entries[i].id.value > 0
          && (entries[i].id.value in rows ==> rows[entries[i].id.value] == MessageOf(entries[i])))
    && (forall i, j {:trigger entries[i], entries[j]} ::
          (0 <= i < j < |entries| && entries[i].id == entries[j].id) ==>
            MessageOf(entries[i]) == MessageOf(entries[j]))
  }

  function MessageOf(c: Chat): Message {
    Message(c.user, c.content)
  }

  /**
   Filing fails exactly when an identity is missing, not positive, or stands for another message
   already; in whatever order, it adds one row for each identity and changes none.
   */
  lemma {:induction false} FilingIsExact(rows: map<int, Message>, entries: seq<Chat>)
    ensures Filed(rows, entries).Some? <==> Fileable(rows, entries)
    ensures Filed(rows, entries).Some? ==> FiledRows(rows, entries, Filed(rows, entries).value)
    decreases |entries|
  {
    if entries == [] {
    } else {
      var c, rest := entries[0], entries[1..];
      if c.id.Some? && c.id.value > 0 && (c.id.value in rows ==> rows[c.id.value] == MessageOf(c)) {
        var more := rows[c.id.value := MessageOf(c)];
        FilingIsExact(more, rest);
        FileableRest(rows, entries);
        if Filed(more, rest).Some? {
          FiledRest(rows, entries, Filed(more, rest).value);
        }
      }
    }
  }

  ghost predicate FiledRows(rows: map<int, Message>, entries: seq<Chat>, after: map<int, Message>) {
    && (forall k {:trigger rows[k]} {:trigger k in after} :: k in rows ==> k in after && after[k] == rows[k])
    && (forall i {:trigger entries[i]} :: 0 <= i < |entries| ==>
          entries[i].id.Some? && entries[i].id.value in after && after[entries[i].id.value] == MessageOf(entries[i]))
    && (forall k {:trigger k in after} :: k in after ==> k in rows || Named(entries, k))
  }

  predicate Named(entries: seq<Chat>, k: int) {
    exists i :: 0 <= i < |entries| && entries[i].id == Some(k)
  }

  lemma FileableRest(rows: map<int, Message>, entries: seq<Chat>)
    requires entries != [] && entries[0].id.Some? && entries[0].id.value > 0
    requires entries[0].id.value in rows ==> rows[entries[0].id.value] == MessageOf(entries[0])
    ensures Fileable(rows, entries) <==> Fileable(rows[entries[0].id.value := MessageOf(entries[0])], entries[1..])
  {
    var rest := entries[1..];
    var more := rows[entries[0].id.value := MessageOf(entries[0])];
    assert forall i {:trigger rest[i]} :: 0 <= i < |rest| ==> rest[i] == entries[i + 1];
    if Fileable(more, rest) {
      forall i | 0 <= i < |entries|
        ensures entries[i].id.Some? && entries[i].id.value > 0
                && (entries[i].id.value in rows ==> rows[entries[i].id.value] == MessageOf(entries[i]))
      {
        if i > 0 {
          assert entries[i] == rest[i - 1];
        }
      }
      forall i, j | 0 <= i < j < |entries| && entries[i].id == entries[j].id
        ensures MessageOf(entries[i]) == MessageOf(entries[j])
      {
        assert entries[j] == rest[j - 1];
        if i > 0 {
          assert entries[i] == rest[i - 1];
        }
      }
    }
  }

  lemma FiledRest(rows: map<int, Message>, entries: seq<Chat>, after: map<int, Message>)
    requires entries != [] && entries[0].id.Some?
    requires entries[0].id.value in rows ==> rows[entries[0].id.value] == MessageOf(entries[0])
    requires FiledRows(rows[entries[0].id.value := MessageOf(entries[0])], entries[1..], after)
    ensures FiledRows(rows, entries, after)
  {
    var k0 := entries[0].id.value;
    var more := rows[k0 := MessageOf(entries[0])];
    assert more[k0] == MessageOf(entries[0]);
    forall i | 0 <= i < |entries|
      ensures entries[i].id.Some? && entries[i].id.value in after && after[entries[i].id.value] == MessageOf(entries[i])
    {
      if i > 0 {
        assert entries[i] == entries[1..][i - 1];
      }
    }
    forall k | k in after
      ensures k in rows || Named(entries, k)
    {
      if k == k0 {
        assert entries[0].id == Some(k);
      } else if k !in rows {
        var i :| 0 <= i < |entries[1..]| && entries[1..][i].id == Some(k);
        assert entries[i + 1].id == Some(k);
      }
    }
    forall k | k in rows
      ensures k in after && after[k] == rows[k]
    {
      assert more[k] == rows[k];
    }
  }

  // ---------------------------------------------------------------------------------------------
  // Numbering.

  function Unnumbered(chat: seq<Chat>, archived: nat): nat
    requires archived <= |chat|
    decreases |chat|
  {
    if |chat| == archived then 0
    else Unnumbered(chat[..|chat| - 1], archived) + if chat[|chat| - 1].id.None? then 1 else 0
  }

  /** The messages with a number for each one that had none. */
  function Numbered(chat: seq<Chat>, archived: nat, ids: seq<int>): (numbered: seq<Chat>)
    requires archived <= |chat| && |ids| == Unnumbered(chat, archived)
    ensures |numbered| == |chat|
    decreases |chat|
  {
    if |chat| == archived then chat
    else
      var last := chat[|chat| - 1];
      if last.id.None? then Numbered(chat[..|chat| - 1], archived, ids[..|ids| - 1]) + [last.(id := Some(ids[|ids| - 1]))]
      else Numbered(chat[..|chat| - 1], archived, ids) + [last]
  }

  method PrepareChat(chat: seq<Chat>, archived: nat, ids: seq<int>) returns (numbered: Option<seq<Chat>>)
    requires archived <= |chat| && |ids| == Unnumbered(chat, archived)
    ensures numbered.Some? <==> Unnumbered(chat, archived) <= MAX_LIST && forall i {:trigger ids[i]} :: 0 <= i < |ids| ==> ids[i] <= MAX_ID
    ensures numbered.Some? ==> numbered.value == Numbered(chat, archived, ids)
  {
    if |ids| > MAX_LIST {
      return None;
    }
    var done: seq<Chat> := chat[..archived];
    var used: nat := 0;
    UnnumberedGrows(chat, archived, archived);
    assert chat[..archived][..archived] == chat[..archived];
    for i := archived to |chat|
      invariant used == Unnumbered(chat[..i], archived) <= |ids|
      invariant forall k {:trigger ids[k]} :: 0 <= k < used ==> ids[k] <= MAX_ID
      invariant done == Numbered(chat[..i], archived, ids[..used])
    {
      UnnumberedGrows(chat, archived, i + 1);
      assert chat[..i + 1][..i] == chat[..i];
      var c := chat[i];
      if c.id.None? {
        if ids[used] > MAX_ID {
          return None;
        }
        assert ids[..used + 1][..used] == ids[..used];
        done := done + [c.(id := Some(ids[used]))];
        used := used + 1;
      } else {
        done := done + [c];
      }
    }
    assert chat[..|chat|] == chat && ids[..|ids|] == ids;
    numbered := Some(done);
  }

  lemma {:induction false} UnnumberedGrows(chat: seq<Chat>, archived: nat, i: nat)
    requires archived <= i <= |chat|
    ensures Unnumbered(chat[..i], archived) <= Unnumbered(chat, archived)
    decreases |chat|
  {
    if i == |chat| {
      assert chat[..i] == chat;
    } else {
      UnnumberedGrows(chat[..|chat| - 1], archived, i);
      assert chat[..|chat| - 1][..i] == chat[..i];
    }
  }

  // ---------------------------------------------------------------------------------------------
  // Every table, checkpoint, crash and retry.

  datatype History = History(chat: seq<Chat>, archived: nat)

  /** Who a number was drawn for, and for what. */
  datatype Author = Author(table: int, message: Message)

  /** A reservation that is under way: what it is for, and the numbers drawn so far. */
  datatype Drawing = Drawing(messages: seq<Message>, ids: seq<int>)

  /**
   The checkpoints, the reservations under way, the new messages that actors numbered but have not saved,
   the archive, and the next number of its sequence. `authors` remembers what each number was drawn for;
   no step looks at it.
   */
  datatype State = State(
    next: int, saved: map<int, History>, drawing: map<int, Drawing>, drafts: map<int, seq<Chat>>,
    rows: map<int, Message>, authors: map<int, Author>
  )

  datatype Step =
    | Reserve(table: int, messages: seq<Message>)
    | Draw(table: int, id: int)
    | Prepare(table: int)
    | Abandon(table: int)
    | Checkpoint(table: int)
    | File(table: int)
    | Advance(table: int)
    | Copy(table: int, target: int)
    | Drop(table: int)
    | Crash

  function Waiting(h: History): seq<Chat> {
    if h.archived <= |h.chat| then h.chat[h.archived..] else []
  }

  function New(messages: seq<Message>, ids: seq<int>): (chat: seq<Chat>)
    requires |messages| == |ids|
    ensures |chat| == |messages|
  {
    seq(|messages|, i requires 0 <= i < |messages| == |ids| => Chat(Some(ids[i]), messages[i].user, messages[i].content))
  }

  predicate AllArchived(s: State, t: int) {
    t in s.saved && s.saved[t].archived == |s.saved[t].chat|
  }

  ghost predicate Enabled(s: State, step: Step) {
    match step
    case Reserve(t, _) => t !in s.drawing
    // The sequence hands out one number at a time, to whichever reservation asks next.
    case Draw(t, id) => t in s.drawing && |s.drawing[t].ids| < |s.drawing[t].messages| && s.next <= id
    case Prepare(t) => t in s.drawing && |s.drawing[t].ids| == |s.drawing[t].messages|
    // The answer fails, or a number does not fit, and the change is rejected.
    case Abandon(t) => t in s.drawing
    case Checkpoint(t) => t in s.drafts && t !in s.drawing
    // Both the actor and a recovery file what a checkpoint holds, however often.
    case File(t) => t in s.saved
    // The cursor moves after the messages were filed: filing them again would change nothing.
    case Advance(t) => t in s.saved && Filed(s.rows, Waiting(s.saved[t])) == Some(s.rows)
    // A restarted table takes over the chat, all of which is archived.
    case Copy(t, target) => AllArchived(s, t) && target !in s.saved && target !in s.drafts && target !in s.drawing
    case Drop(t) => AllArchived(s, t)
    case Crash => true
  }

  function ChatOf(s: State, t: int): seq<Chat> {
    if t in s.saved then s.saved[t].chat else []
  }

  ghost function Apply(s: State, step: Step): State
    requires Enabled(s, step)
  {
    match step
    case Reserve(t, messages) => s.(drawing := s.drawing[t := Drawing(messages, [])], drafts := s.drafts - {t})
    case Draw(t, id) =>
      var d := s.drawing[t];
      s.(next := id + 1, drawing := s.drawing[t := d.(ids := d.ids + [id])],
         authors := s.authors[id := Author(t, d.messages[|d.ids|])])
    case Prepare(t) =>
      s.(drafts := s.drafts[t := New(s.drawing[t].messages, s.drawing[t].ids)], drawing := s.drawing - {t})
    case Abandon(t) => s.(drawing := s.drawing - {t})
    case Checkpoint(t) =>
      s.(saved := s.saved[t := History(ChatOf(s, t) + s.drafts[t], if t in s.saved then s.saved[t].archived else 0)],
         drafts := s.drafts - {t})
    case File(t) =>
      var filed := Filed(s.rows, Waiting(s.saved[t]));
      if filed.Some? then s.(rows := filed.value) else s
    case Advance(t) => s.(saved := s.saved[t := s.saved[t].(archived := |s.saved[t].chat|)])
    case Copy(t, target) => s.(saved := s.saved[target := s.saved[t]])
    case Drop(t) => s.(saved := s.saved - {t}, drawing := s.drawing - {t}, drafts := s.drafts - {t})
    case Crash => s.(drawing := map[], drafts := map[])
  }

  /** A message under the number that was drawn for it. */
  predicate Authored(s: State, c: Chat) {
    && c.id.Some? && 0 < c.id.value && c.id.value in s.authors
    && s.authors[c.id.value].message == MessageOf(c)
  }

  ghost predicate Genuine(s: State, chat: seq<Chat>) {
    && (forall i {:trigger chat[i]} :: 0 <= i < |chat| ==> Authored(s, chat[i]))
    && (forall i, j {:trigger chat[i], chat[j]} :: 0 <= i < j < |chat| ==> chat[i].id.value < chat[j].id.value)
  }

  ghost predicate OwnFrom(s: State, t: int, chat: seq<Chat>, from: nat)
    requires Genuine(s, chat)
  {
    forall i {:trigger chat[i]} :: from <= i < |chat| ==> s.authors[chat[i].id.value].table == t
  }

  ghost predicate HistoryFits(s: State, t: int, h: History) {
    && h.archived <= |h.chat| && Genuine(s, h.chat)
    && (forall i {:trigger h.chat[i]} :: 0 <= i < h.archived ==> h.chat[i].id.value in s.rows)
    && OwnFrom(s, t, h.chat, h.archived)
  }

  ghost predicate DraftFits(s: State, t: int, draft: seq<Chat>) {
    && Genuine(s, draft) && OwnFrom(s, t, draft, 0)
    && Follows(ChatOf(s, t), draft)
  }

  ghost predicate Follows(chat: seq<Chat>, draft: seq<Chat>) {
    forall i, j {:trigger chat[i], draft[j]} :: 0 <= i < |chat| && 0 <= j < |draft| ==> Earlier(chat[i], draft[j])
  }

  predicate Earlier(c: Chat, e: Chat) {
    c.id.Some? && e.id.Some? && c.id.value < e.id.value
  }

  /** The numbers drawn so far were drawn for these messages, and after everything that the table has. */
  ghost predicate DrawingFits(s: State, t: int, d: Drawing) {
    && |d.ids| <= |d.messages|
    && (forall i {:trigger d.ids[i]} :: 0 <= i < |d.ids| ==>
          0 < d.ids[i] && d.ids[i] in s.authors && s.authors[d.ids[i]] == Author(t, d.messages[i]))
    && (forall i, j {:trigger d.ids[i], d.ids[j]} :: 0 <= i < j < |d.ids| ==> d.ids[i] < d.ids[j])
    && Above(ChatOf(s, t), d.ids)
  }

  ghost predicate Above(chat: seq<Chat>, ids: seq<int>) {
    forall i, j {:trigger chat[i], ids[j]} :: 0 <= i < |chat| && 0 <= j < |ids| ==>
      chat[i].id.Some? && chat[i].id.value < ids[j]
  }

  ghost predicate Inv(s: State) {
    && s.next > 0
    && (forall k {:trigger s.authors[k]} {:trigger k in s.authors} :: k in s.authors ==> k < s.next)
    && (forall k {:trigger s.rows[k]} {:trigger k in s.rows} :: k in s.rows ==> k in s.authors && s.authors[k].message == s.rows[k])
    && (forall t {:trigger s.saved[t]} :: t in s.saved ==> HistoryFits(s, t, s.saved[t]))
    && (forall t {:trigger s.drafts[t]} :: t in s.drafts ==> DraftFits(s, t, s.drafts[t]))
    && (forall t {:trigger s.drawing[t]} :: t in s.drawing ==> DrawingFits(s, t, s.drawing[t]))
  }

  // ---------------------------------------------------------------------------------------------
  // Each step keeps the numbers genuine.

  /** Genuine messages of a checkpoint can always be filed. */
  lemma GenuineIsFileable(s: State, chat: seq<Chat>)
    requires Genuine(s, chat)
    requires forall k {:trigger s.rows[k]} {:trigger k in s.rows} :: k in s.rows ==> k in s.authors && s.authors[k].message == s.rows[k]
    ensures Fileable(s.rows, chat)
  {}

  lemma WaitingIsGenuine(s: State, t: int)
    requires Inv(s) && t in s.saved
    ensures Genuine(s, Waiting(s.saved[t]))
    ensures Filed(s.rows, Waiting(s.saved[t])).Some?
    ensures FiledRows(s.rows, Waiting(s.saved[t]), Filed(s.rows, Waiting(s.saved[t])).value)
  {
    hide Filed, FiledRows, Fileable, DraftFits;
    var h := s.saved[t];
    var w := Waiting(h);
    assert HistoryFits(s, t, h);
    forall i | 0 <= i < |w|
      ensures Authored(s, w[i])
    {
      assert w[i] == h.chat[h.archived + i];
    }
    forall i, j | 0 <= i < j < |w|
      ensures w[i].id.value < w[j].id.value
    {
      assert w[i] == h.chat[h.archived + i] && w[j] == h.chat[h.archived + j];
    }
    GenuineIsFileable(s, w);
    FilingIsExact(s.rows, w);
  }

  /** What was genuine stays so when only numbers, rows and other tables are added. */
  lemma GenuineStays(s: State, after: State, chat: seq<Chat>)
    requires Genuine(s, chat)
    requires forall k {:trigger s.authors[k]} :: k in s.authors ==> k in after.authors && after.authors[k] == s.authors[k]
    ensures Genuine(after, chat)
    ensures forall i {:trigger chat[i]} :: 0 <= i < |chat| ==> after.authors[chat[i].id.value] == s.authors[chat[i].id.value]
  {
    forall i | 0 <= i < |chat|
      ensures Authored(after, chat[i]) && after.authors[chat[i].id.value] == s.authors[chat[i].id.value]
    {
      assert Authored(s, chat[i]);
      assert s.authors[chat[i].id.value] == after.authors[chat[i].id.value];
    }
  }

  ghost predicate Grows(s: State, after: State) {
    && (forall k {:trigger s.authors[k]} :: k in s.authors ==> k in after.authors && after.authors[k] == s.authors[k])
    && (forall k {:trigger s.rows[k]} {:trigger k in after.rows} :: k in s.rows ==> k in after.rows)
  }

  lemma HistoryStays(s: State, after: State, t: int, h: History)
    requires HistoryFits(s, t, h) && Grows(s, after)
    ensures HistoryFits(after, t, h)
  {
    GenuineStays(s, after, h.chat);
    forall i | 0 <= i < h.archived
      ensures h.chat[i].id.value in after.rows
    {
      assert h.chat[i].id.value in s.rows;
      assert s.rows[h.chat[i].id.value] == s.rows[h.chat[i].id.value];
    }
  }

  lemma DraftStays(s: State, after: State, t: int, draft: seq<Chat>)
    requires DraftFits(s, t, draft) && Grows(s, after) && ChatOf(after, t) == ChatOf(s, t)
    ensures DraftFits(after, t, draft)
  {
    GenuineStays(s, after, draft);
  }

  lemma DrawingStays(s: State, after: State, t: int, d: Drawing)
    requires DrawingFits(s, t, d) && Grows(s, after) && ChatOf(after, t) == ChatOf(s, t)
    ensures DrawingFits(after, t, d)
  {}

  lemma FileKeepsInv(s: State, t: int)
    requires Inv(s) && t in s.saved
    ensures Inv(Apply(s, File(t)))
  {
    hide HistoryFits, DraftFits, DrawingFits, Filed;
    var after := Apply(s, File(t));
    WaitingIsGenuine(s, t);
    var w := Waiting(s.saved[t]);
    forall k | k in after.rows
      ensures k in after.authors && after.authors[k].message == after.rows[k]
    {
      if k !in s.rows {
        var i :| 0 <= i < |w| && w[i].id == Some(k);
        assert Authored(s, w[i]);
      }
    }
    forall u | u in after.saved
      ensures HistoryFits(after, u, after.saved[u])
    {
      HistoryStays(s, after, u, s.saved[u]);
    }
    forall u | u in after.drafts
      ensures DraftFits(after, u, after.drafts[u])
    {
      DraftStays(s, after, u, s.drafts[u]);
    }
    forall u | u in after.drawing
      ensures DrawingFits(after, u, after.drawing[u])
    {
      DrawingStays(s, after, u, s.drawing[u]);
    }
  }

  lemma ReserveKeepsInv(s: State, t: int, messages: seq<Message>)
    requires Inv(s) && t !in s.drawing
    ensures Inv(Apply(s, Reserve(t, messages)))
  {
    hide HistoryFits, DraftFits;
    var after := Apply(s, Reserve(t, messages));
    forall u | u in after.saved
      ensures HistoryFits(after, u, after.saved[u])
    {
      HistoryStays(s, after, u, s.saved[u]);
    }
    forall u | u in after.drafts
      ensures DraftFits(after, u, after.drafts[u])
    {
      DraftStays(s, after, u, s.drafts[u]);
    }
    forall u | u in after.drawing
      ensures DrawingFits(after, u, after.drawing[u])
    {
      if u != t {
        DrawingStays(s, after, u, s.drawing[u]);
      }
    }
  }

  lemma DrawKeepsInv(s: State, t: int, id: int)
    requires Inv(s) && Enabled(s, Draw(t, id))
    ensures Inv(Apply(s, Draw(t, id)))
  {
    hide HistoryFits, DraftFits, DrawingFits;
    var after := Apply(s, Draw(t, id));
    assert id !in s.authors;
    forall u | u in after.saved
      ensures HistoryFits(after, u, after.saved[u])
    {
      HistoryStays(s, after, u, s.saved[u]);
    }
    forall u | u in after.drafts
      ensures DraftFits(after, u, after.drafts[u])
    {
      DraftStays(s, after, u, s.drafts[u]);
    }
    forall u | u in after.drawing
      ensures DrawingFits(after, u, after.drawing[u])
    {
      if u != t {
        DrawingStays(s, after, u, s.drawing[u]);
      } else {
        OneMoreDrawn(s, after, t, id);
      }
    }
  }

  /** Whatever others drew in between, the number is above all that came before it. */
  lemma OneMoreDrawn(s: State, after: State, t: int, id: int)
    requires Inv(s) && Enabled(s, Draw(t, id)) && after == Apply(s, Draw(t, id))
    ensures DrawingFits(after, t, after.drawing[t])
  {
    hide DraftFits;
    var d, more, chat := s.drawing[t], after.drawing[t], ChatOf(s, t);
    assert DrawingFits(s, t, d);
    forall i | 0 <= i < |more.ids|
      ensures 0 < more.ids[i] && more.ids[i] in after.authors && after.authors[more.ids[i]] == Author(t, more.messages[i])
    {
      if i < |d.ids| {
        assert more.ids[i] == d.ids[i];
      }
    }
    forall i, j | 0 <= i < j < |more.ids|
      ensures more.ids[i] < more.ids[j]
    {
      assert more.ids[i] == d.ids[i];
      if j < |d.ids| {
        assert more.ids[j] == d.ids[j];
      }
    }
    forall i, j | 0 <= i < |chat| && 0 <= j < |more.ids|
      ensures chat[i].id.Some? && chat[i].id.value < more.ids[j]
    {
      assert HistoryFits(s, t, s.saved[t]);
      assert Authored(s, chat[i]);
      if j < |d.ids| {
        assert more.ids[j] == d.ids[j];
      }
    }
  }

  lemma PrepareKeepsInv(s: State, t: int)
    requires Inv(s) && Enabled(s, Prepare(t))
    ensures Inv(Apply(s, Prepare(t)))
  {
    hide HistoryFits, DraftFits, DrawingFits;
    var after := Apply(s, Prepare(t));
    forall u | u in after.saved
      ensures HistoryFits(after, u, after.saved[u])
    {
      HistoryStays(s, after, u, s.saved[u]);
    }
    forall u | u in after.drafts
      ensures DraftFits(after, u, after.drafts[u])
    {
      if u == t {
        DrawnFits(s, t, s.drawing[t]);
        DraftStays(s, after, t, after.drafts[t]);
      } else {
        DraftStays(s, after, u, s.drafts[u]);
      }
    }
    forall u | u in after.drawing
      ensures DrawingFits(after, u, after.drawing[u])
    {
      DrawingStays(s, after, u, s.drawing[u]);
    }
  }

  /** What was reserved numbers the messages as genuinely as it was drawn. */
  lemma DrawnFits(s: State, t: int, d: Drawing)
    requires DrawingFits(s, t, d) && |d.ids| == |d.messages|
    ensures DraftFits(s, t, New(d.messages, d.ids))
  {
    var draft := New(d.messages, d.ids);
    assert forall i {:trigger draft[i]} :: 0 <= i < |draft| ==>
             draft[i].id == Some(d.ids[i]) && MessageOf(draft[i]) == d.messages[i];
    hide New;
    DrawnIsGenuine(s, t, d, draft);
    DrawnFollows(ChatOf(s, t), d.ids, draft);
  }

  lemma DrawnIsGenuine(s: State, t: int, d: Drawing, draft: seq<Chat>)
    requires DrawingFits(s, t, d) && |draft| == |d.ids| == |d.messages|
    requires forall i {:trigger draft[i]} :: 0 <= i < |draft| ==>
               draft[i].id == Some(d.ids[i]) && MessageOf(draft[i]) == d.messages[i]
    ensures Genuine(s, draft) && OwnFrom(s, t, draft, 0)
  {
    hide Above, ChatOf;
    forall i | 0 <= i < |draft|
      ensures Authored(s, draft[i]) && s.authors[draft[i].id.value].table == t
    {
      assert s.authors[d.ids[i]] == Author(t, d.messages[i]);
    }
    forall i, j | 0 <= i < j < |draft|
      ensures draft[i].id.value < draft[j].id.value
    {
      assert d.ids[i] < d.ids[j];
    }
  }

  lemma DrawnFollows(chat: seq<Chat>, ids: seq<int>, draft: seq<Chat>)
    requires Above(chat, ids) && |draft| == |ids|
    requires forall i {:trigger draft[i]} :: 0 <= i < |draft| ==> draft[i].id == Some(ids[i])
    ensures Follows(chat, draft)
  {
    forall i, j | 0 <= i < |chat| && 0 <= j < |draft|
      ensures Earlier(chat[i], draft[j])
    {
      assert draft[j].id == Some(ids[j]);
    }
  }

  lemma CheckpointKeepsInv(s: State, t: int)
    requires Inv(s) && Enabled(s, Checkpoint(t))
    ensures Inv(Apply(s, Checkpoint(t)))
  {
    var after := Apply(s, Checkpoint(t));
    CheckpointFits(s, after, t);
    hide HistoryFits, DraftFits, DrawingFits;
    forall u | u in after.saved
      ensures HistoryFits(after, u, after.saved[u])
    {
      if u != t {
        HistoryStays(s, after, u, s.saved[u]);
      }
    }
    forall u | u in after.drafts
      ensures DraftFits(after, u, after.drafts[u])
    {
      DraftStays(s, after, u, s.drafts[u]);
    }
    forall u | u in after.drawing
      ensures DrawingFits(after, u, after.drawing[u])
    {
      DrawingStays(s, after, u, s.drawing[u]);
    }
  }

  lemma CheckpointFits(s: State, after: State, t: int)
    requires Inv(s) && Enabled(s, Checkpoint(t)) && after == Apply(s, Checkpoint(t))
    ensures HistoryFits(after, t, after.saved[t])
  {
    var chat, draft := ChatOf(s, t), s.drafts[t];
    assert DraftFits(s, t, draft);
    assert t in s.saved ==> HistoryFits(s, t, s.saved[t]);
    var whole := chat + draft;
    forall i | 0 <= i < |whole|
      ensures Authored(after, whole[i])
    {
      assert whole[i] == if i < |chat| then chat[i] else draft[i - |chat|];
    }
    forall i, j | 0 <= i < j < |whole|
      ensures whole[i].id.value < whole[j].id.value
    {
      assert whole[i] == if i < |chat| then chat[i] else draft[i - |chat|];
      assert whole[j] == if j < |chat| then chat[j] else draft[j - |chat|];
    }
    forall i | after.saved[t].archived <= i < |whole|
      ensures s.authors[whole[i].id.value].table == t
    {
      assert whole[i] == if i < |chat| then chat[i] else draft[i - |chat|];
    }
    forall i | 0 <= i < after.saved[t].archived
      ensures whole[i].id.value in s.rows
    {
      assert whole[i] == chat[i];
    }
  }

  lemma AdvanceKeepsInv(s: State, t: int)
    requires Inv(s) && Enabled(s, Advance(t))
    ensures Inv(Apply(s, Advance(t)))
  {
    var after := Apply(s, Advance(t));
    AdvanceFits(s, after, t);
    hide HistoryFits, DraftFits, DrawingFits, Filed, Waiting, MessageOf;
    forall u | u in after.saved
      ensures HistoryFits(after, u, after.saved[u])
    {
      if u != t {
        HistoryStays(s, after, u, s.saved[u]);
      }
    }
    forall u | u in after.drafts
      ensures DraftFits(after, u, after.drafts[u])
    {
      DraftStays(s, after, u, s.drafts[u]);
    }
    forall u | u in after.drawing
      ensures DrawingFits(after, u, after.drawing[u])
    {
      DrawingStays(s, after, u, s.drawing[u]);
    }
  }

  lemma AdvanceFits(s: State, after: State, t: int)
    requires Inv(s) && Enabled(s, Advance(t)) && after == Apply(s, Advance(t))
    ensures HistoryFits(after, t, after.saved[t])
  {
    hide Filed, DraftFits;
    var h := s.saved[t];
    assert HistoryFits(s, t, h);
    WaitingIsGenuine(s, t);
    var w := Waiting(h);
    forall i | 0 <= i < |h.chat|
      ensures h.chat[i].id.value in s.rows
    {
      if i >= h.archived {
        assert w[i - h.archived] == h.chat[i];
      }
    }
    GenuineStays(s, after, h.chat);
  }

  lemma CopyKeepsInv(s: State, t: int, target: int)
    requires Inv(s) && Enabled(s, Copy(t, target))
    ensures Inv(Apply(s, Copy(t, target)))
  {
    var after := Apply(s, Copy(t, target));
    assert HistoryFits(s, t, s.saved[t]);
    assert HistoryFits(s, target, s.saved[t]);
    hide HistoryFits, DraftFits, DrawingFits;
    forall u | u in after.saved
      ensures HistoryFits(after, u, after.saved[u])
    {
      HistoryStays(s, after, u, after.saved[u]);
    }
    forall u | u in after.drafts
      ensures DraftFits(after, u, after.drafts[u])
    {
      DraftStays(s, after, u, s.drafts[u]);
    }
    forall u | u in after.drawing
      ensures DrawingFits(after, u, after.drawing[u])
    {
      DrawingStays(s, after, u, s.drawing[u]);
    }
  }

  lemma FewerKeepsInv(s: State, after: State)
    requires Inv(s)
    requires after == s.(saved := after.saved, drawing := after.drawing, drafts := after.drafts)
    requires forall t {:trigger after.drawing[t]} :: t in after.drawing ==> t in s.drawing && after.drawing[t] == s.drawing[t] && ChatOf(after, t) == ChatOf(s, t)
    requires forall t {:trigger after.saved[t]} :: t in after.saved ==> t in s.saved && after.saved[t] == s.saved[t]
    requires forall t {:trigger after.drafts[t]} :: t in after.drafts ==> t in s.drafts && after.drafts[t] == s.drafts[t] && ChatOf(after, t) == ChatOf(s, t)
    ensures Inv(after)
  {
    hide HistoryFits, DraftFits, DrawingFits;
    forall u | u in after.saved
      ensures HistoryFits(after, u, after.saved[u])
    {
      HistoryStays(s, after, u, s.saved[u]);
    }
    forall u | u in after.drafts
      ensures DraftFits(after, u, after.drafts[u])
    {
      DraftStays(s, after, u, s.drafts[u]);
    }
    forall u | u in after.drawing
      ensures DrawingFits(after, u, after.drawing[u])
    {
      DrawingStays(s, after, u, s.drawing[u]);
    }
  }

  lemma StepKeepsInv(s: State, step: Step)
    requires Inv(s) && Enabled(s, step)
    ensures Inv(Apply(s, step))
  {
    hide Inv;
    match step
    case Reserve(t, messages) => ReserveKeepsInv(s, t, messages);
    case Draw(t, id) => DrawKeepsInv(s, t, id);
    case Prepare(t) => PrepareKeepsInv(s, t);
    case Abandon(t) => FewerKeepsInv(s, Apply(s, step));
    case Checkpoint(t) => CheckpointKeepsInv(s, t);
    case File(t) => FileKeepsInv(s, t);
    case Advance(t) => AdvanceKeepsInv(s, t);
    case Copy(t, target) => CopyKeepsInv(s, t, target);
    case Drop(t) => FewerKeepsInv(s, Apply(s, step));
    case Crash => FewerKeepsInv(s, Apply(s, step));
  }

  // ---------------------------------------------------------------------------------------------
  // Runs.

  const EMPTY := State(1, map[], map[], map[], map[], map[])

  ghost predicate IsRun(states: seq<State>, steps: seq<Step>) {
    && |states| == |steps| + 1 && states[0] == EMPTY
    && (forall i {:trigger states[i]} :: 0 <= i < |steps| ==> Moves(states[i], steps[i], states[i + 1]))
  }

  ghost predicate Moves(s: State, step: Step, next: State) {
    Enabled(s, step) && next == Apply(s, step)
  }

  lemma {:induction false} RunKeepsInv(states: seq<State>, steps: seq<Step>, i: nat)
    requires IsRun(states, steps) && i < |states|
    ensures Inv(states[i])
  {
    hide Inv, Apply, Enabled;
    if i == 0 {
      EmptyFits();
    } else {
      RunKeepsInv(states, steps, i - 1);
      assert Moves(states[i - 1], steps[i - 1], states[i - 1 + 1]);
      StepKeepsInv(states[i - 1], steps[i - 1]);
    }
  }

  lemma EmptyFits()
    ensures Inv(EMPTY)
  {}

  /** Whoever files a checkpoint again, however late, never meets a conflict. */
  lemma FilingNeverConflicts(states: seq<State>, steps: seq<Step>, i: nat, t: int)
    requires IsRun(states, steps) && i < |states| && t in states[i].saved
    ensures Filed(states[i].rows, Waiting(states[i].saved[t])).Some?
  {
    hide Inv, IsRun;
    RunKeepsInv(states, steps, i);
    WaitingIsGenuine(states[i], t);
  }

  /** A row keeps its message for good. */
  lemma {:induction false} RowsStay(states: seq<State>, steps: seq<Step>, i: nat, j: nat, k: int)
    requires IsRun(states, steps) && i <= j < |states| && k in states[i].rows
    ensures k in states[j].rows && states[j].rows[k] == states[i].rows[k]
    decreases j - i
  {
    hide Inv, Apply, Enabled;
    if i < j {
      assert Moves(states[i], steps[i], states[i + 1]);
      RunKeepsInv(states, steps, i);
      StepKeepsRow(states[i], steps[i], k);
      RowsStay(states, steps, i + 1, j, k);
    }
  }

  lemma StepKeepsRow(s: State, step: Step, k: int)
    requires Inv(s) && Enabled(s, step) && k in s.rows
    ensures k in Apply(s, step).rows && Apply(s, step).rows[k] == s.rows[k]
  {
    hide Inv, Filed;
    if step.File? {
      WaitingIsGenuine(s, step.table);
    }
  }

  /**
   Each archived message of a checkpoint has its own row with its own content, even if another
   message says the same: the numbers within a table are all different.
   */
  lemma ArchivedExactlyOnce(states: seq<State>, steps: seq<Step>, i: nat, t: int, m: nat, n: nat)
    requires IsRun(states, steps) && i < |states| && t in states[i].saved
    requires m < states[i].saved[t].archived && n < |states[i].saved[t].chat| && m != n
    ensures m < |states[i].saved[t].chat|
    ensures var c, d := states[i].saved[t].chat[m], states[i].saved[t].chat[n];
            && c.id.Some? && d.id.Some? && c.id != d.id
            && c.id.value in states[i].rows && states[i].rows[c.id.value] == MessageOf(c)
  {
    hide IsRun;
    RunKeepsInv(states, steps, i);
    var s := states[i];
    assert HistoryFits(s, t, s.saved[t]);
    var chat := s.saved[t].chat;
    assert Authored(s, chat[m]) && Authored(s, chat[n]);
    if m < n {
      assert chat[m].id.value < chat[n].id.value;
    } else {
      assert chat[n].id.value < chat[m].id.value;
    }
  }

  /** Messages that wait in different tables have different numbers, as recovery needs. */
  lemma WaitingNumbersDiffer(states: seq<State>, steps: seq<Step>, i: nat, t: int, u: int, m: nat, n: nat)
    requires IsRun(states, steps) && i < |states| && t in states[i].saved && u in states[i].saved && t != u
    requires states[i].saved[t].archived <= m < |states[i].saved[t].chat|
    requires states[i].saved[u].archived <= n < |states[i].saved[u].chat|
    ensures states[i].saved[t].chat[m].id != states[i].saved[u].chat[n].id
  {
    hide IsRun;
    RunKeepsInv(states, steps, i);
    var s := states[i];
    assert HistoryFits(s, t, s.saved[t]) && HistoryFits(s, u, s.saved[u]);
    var a, b := s.saved[t].chat[m], s.saved[u].chat[n];
    assert Authored(s, a) && Authored(s, b);
    assert s.authors[a.id.value].table == t && s.authors[b.id.value].table == u;
  }
}
