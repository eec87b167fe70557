/** The chat routes of the server, over an in-memory store: creating and
    listing chats, saving a batch of messages in one transaction, and listing
    the messages of one chat. Ids come from per-table serial counters and
    every insert reads a clock that advances by one per insert. */
module ChatRoutes {
  import opened Wrappers
  import opened Schema

  const DefaultTitle := "Nuevo Chat"

  /** A message as it arrives in the body of a save request; either field may be missing. */
  datatype IncomingMessage = IncomingMessage(role: Option<string>, content: Option<string>)

  /** `req.body.title || 'Nuevo Chat'`: a missing or empty title becomes the
      default; any other title is kept verbatim, whitespace included. */
  function TitleOrDefault(title: Option<string>): (t: string)
    ensures t != ""
    ensures title.None? || title == Some("") <==> t == DefaultTitle && title != Some(DefaultTitle)
    ensures title.Some? && title.value != "" ==> t == title.value
  {
    if title.Some? && title.value != "" then title.value else DefaultTitle
  }

  /** The fields the save route inserts for one incoming message: the path's
      chat id, the role and the content; no timestamp, so the default applies. */
  function InsertedFields(chatId: nat, m: IncomingMessage): MessageFields {
    MessageFields(Some(chatId), m.role, m.content, None)
  }

  /** Whether the store accepts the insert of `m`. */
  predicate Insertable(m: IncomingMessage) {
    m.role.Some? && ParseRole(m.role.value).Some? && PresentText(m.content)
  }

  /** The insert of message `k` of a batch, with id `firstId + k` at time `now + k`. */
  function InsertAt(chatId: nat, batch: seq<IncomingMessage>, k: nat, firstId: nat, now: nat): Result<Message, seq<FieldError>>
    requires k < |batch|
  {
    NewMessage(firstId + k, InsertedFields(chatId, batch[k]), now + k)
  }

  /** One insert succeeds exactly when the incoming message has a known role
      and non-empty content (the chat id always comes from the path); the row
      then has the next id, the path's chat id, the message's role and
      content verbatim and the store's clock as its time; otherwise the
      insert fails with the missing or invalid fields. */
  lemma InsertAtSpec(chatId: nat, batch: seq<IncomingMessage>, k: nat, firstId: nat, now: nat)
    requires k < |batch|
    ensures var r := InsertAt(chatId, batch, k, firstId, now);
      && (r.Success? <==> Insertable(batch[k]))
      && (r.Success? ==>
            && r.value.id == firstId + k && r.value.chatId == chatId
            && RoleName(r.value.role) == batch[k].role.value
            && r.value.content == batch[k].content.value
            && r.value.timestamp == now + k)
      && (r.Failure? ==> r.error == MessageErrors(InsertedFields(chatId, batch[k])) && r.error != [])
  {
  }

  /** The inserts of a whole batch, message by message. */
  function Inserts(chatId: nat, batch: seq<IncomingMessage>, firstId: nat, now: nat): (rs: seq<Result<Message, seq<FieldError>>>)
    ensures |rs| == |batch|
    ensures forall k :: 0 <= k < |batch| ==> rs[k] == InsertAt(chatId, batch, k, firstId, now)
  {
    seq(|batch|, k requires 0 <= k < |batch| => InsertAt(chatId, batch, k, firstId, now))
  }

  /** The outcome of a transaction made of the inserts `rs`, in order: the
      inserted rows when all succeed, otherwise the errors of the first that
      fails (the later ones are never attempted). */
  function Collect<T, E>(rs: seq<Result<T, E>>): Result<seq<T>, E> {
    if rs == [] then Success([])
    else if rs[0].Failure? then Failure(rs[0].error)
    else match Collect(rs[1..])
      case Success(rest) => Success([rs[0].value] + rest)
      case Failure(e) => Failure(e)
  }

  /** A transaction succeeds exactly when each of its inserts does, and then
      its rows are theirs, one for one and in order. */
  lemma {:induction false} CollectAll<T, E>(rs: seq<Result<T, E>>)
    ensures Collect(rs).Success? <==> forall k :: 0 <= k < |rs| ==> rs[k].Success?
    ensures Collect(rs).Success? ==>
      && |Collect(rs).value| == |rs|
      && forall k :: 0 <= k < |rs| ==> Collect(rs).value[k] == rs[k].value
  {
    if rs != [] {
      CollectAll(rs[1..]);
      assert forall k :: 1 <= k < |rs| ==> rs[k] == rs[1..][k - 1];
    }
  }

  /** These rows are the outcome when every insert yields its own row. */
  lemma CollectRows<T, E>(rs: seq<Result<T, E>>, rows: seq<T>)
    requires |rs| == |rows|
    requires forall k :: 0 <= k < |rs| ==> rs[k] == Success(rows[k])
    ensures Collect(rs) == Success(rows)
  {
    CollectAll(rs);
    assert Collect(rs).value == rows;
  }

  /** After successful inserts up to a rejected one at `j`, the outcome is
      the rejected insert's error. */
  lemma {:induction false} CollectFirstFailure<T, E>(rs: seq<Result<T, E>>, j: nat)
    requires j < |rs| && rs[j].Failure?
    requires forall k :: 0 <= k < j ==> rs[k].Success?
    ensures Collect(rs) == Failure(rs[j].error)
  {
    if j > 0 {
      CollectFirstFailure(rs[1..], j - 1);
    }
  }

  /** The outcome of inserting the whole batch, starting at id `firstId` and time `now`. */
  function SaveBatch(chatId: nat, batch: seq<IncomingMessage>, firstId: nat, now: nat): Result<seq<Message>, seq<FieldError>> {
    Collect(Inserts(chatId, batch, firstId, now))
  }

  /** A saved batch has one row per incoming message, in input order: row `k`
      belongs to the path's chat, copies the role and content of message `k`,
      and takes id `firstId + k` and timestamp `now + k`. */
  lemma SaveBatchRows(chatId: nat, batch: seq<IncomingMessage>, firstId: nat, now: nat)
    requires SaveBatch(chatId, batch, firstId, now).Success?
    ensures var saved := SaveBatch(chatId, batch, firstId, now).value;
      && |saved| == |batch|
      && forall k :: 0 <= k < |saved| ==>
           && saved[k].chatId == chatId
           && Some(RoleName(saved[k].role)) == batch[k].role
           && Some(saved[k].content) == batch[k].content
           && ValidMessage(saved[k])
           && saved[k].id == firstId + k
           && saved[k].timestamp == now + k
  {
    CollectAll(Inserts(chatId, batch, firstId, now));
  }

  /** A batch fails exactly when one of its messages cannot be inserted; so
      an empty batch always succeeds, with no rows. */
  lemma SaveBatchFails(chatId: nat, batch: seq<IncomingMessage>, firstId: nat, now: nat)
    ensures SaveBatch(chatId, batch, firstId, now).Failure? <==> exists k :: 0 <= k < |batch| && !Insertable(batch[k])
    ensures batch == [] ==> SaveBatch(chatId, batch, firstId, now) == Success([])
  {
    var rs := Inserts(chatId, batch, firstId, now);
    CollectAll(rs);
    assert forall k :: 0 <= k < |batch| ==> (rs[k].Success? <==> Insertable(batch[k]));
  }

  /** Rows that satisfy the schema, lie below the next id and the clock, and
      are in insertion order. */
  predicate RowsValid(ms: seq<Message>, nextId: nat, clock: nat) {
    && (forall i :: 0 <= i < |ms| ==> ValidMessage(ms[i]) && ms[i].id < nextId && ms[i].timestamp < clock)
    && InsertionOrdered(ms)
  }

  /** Committing a successful batch keeps the rows valid. */
  lemma CommitBatch(ms: seq<Message>, chatId: nat, batch: seq<IncomingMessage>, nextId: nat, clock: nat)
    requires RowsValid(ms, nextId, clock)
    requires SaveBatch(chatId, batch, nextId, clock).Success?
    ensures var saved := SaveBatch(chatId, batch, nextId, clock).value;
      && |saved| == |batch|
      && RowsValid(ms + saved, nextId + |batch|, clock + |batch|)
  {
    var saved := SaveBatch(chatId, batch, nextId, clock).value;
    SaveBatchRows(chatId, batch, nextId, clock);
    AppendRowsValid(ms, saved, nextId, clock);
  }

  /** Chats that satisfy the schema, lie below the next id and the clock,
      and are in insertion order. */
  predicate ChatRowsValid(cs: seq<Chat>, nextId: nat, clock: nat) {
    && (forall i :: 0 <= i < |cs| ==> ValidChat(cs[i]) && cs[i].id < nextId && cs[i].createdAt < clock)
    && (forall i, j :: 0 <= i < j < |cs| ==> cs[i].id < cs[j].id && cs[i].createdAt < cs[j].createdAt)
  }

  /** Rows stay valid while the clock moves forward. */
  lemma ChatRowsLater(cs: seq<Chat>, nextId: nat, clock: nat, later: nat)
    requires ChatRowsValid(cs, nextId, clock) && clock <= later
    ensures ChatRowsValid(cs, nextId, later)
  {
  }

  /** Appending the rows of a saved batch keeps the rows valid once the
      counters move past them. */
  lemma AppendRowsValid(ms: seq<Message>, saved: seq<Message>, nextId: nat, clock: nat)
    requires RowsValid(ms, nextId, clock)
    requires forall k :: 0 <= k < |saved| ==>
               ValidMessage(saved[k]) && saved[k].id == nextId + k && saved[k].timestamp == clock + k
    ensures RowsValid(ms + saved, nextId + |saved|, clock + |saved|)
  {
    var all := ms + saved;
    forall a, b | 0 <= a < b < |all|
      ensures all[a].id < all[b].id && all[a].timestamp < all[b].timestamp
    {
      if b >= |ms| { assert all[b] == saved[b - |ms|]; }
      if a >= |ms| { assert all[a] == saved[a - |ms|]; }
    }
    forall k | 0 <= k < |all|
      ensures ValidMessage(all[k]) && all[k].id < nextId + |saved| && all[k].timestamp < clock + |saved|
    {
      if k >= |ms| { assert all[k] == saved[k - |ms|]; }
    }
  }

  /** The messages of `ms` that belong to chat `chatId`, in the order of `ms`:
      the `where chatId = ...` part of the messages query. */
  function OfChat(ms: seq<Message>, chatId: nat): (r: seq<Message>)
    ensures |r| <= |ms|
    ensures forall m :: m in r <==> m in ms && m.chatId == chatId
  {
    if ms == [] then []
    else
      var init := ms[..|ms| - 1];
      assert ms == init + [ms[|ms| - 1]];
      if ms[|ms| - 1].chatId == chatId then OfChat(init, chatId) + [ms[|ms| - 1]]
      else OfChat(init, chatId)
  }

  /** Filtering a concatenation filters each part. */
  lemma {:induction false} OfChatAppend(a: seq<Message>, b: seq<Message>, chatId: nat)
    ensures OfChat(a + b, chatId) == OfChat(a, chatId) + OfChat(b, chatId)
    decreases |b|
  {
    if b != [] {
      assert (a + b)[..|a + b| - 1] == a + b[..|b| - 1];
      OfChatAppend(a, b[..|b| - 1], chatId);
    } else {
      assert a + b == a;
    }
  }

  /** A sequence whose messages all belong to `chatId` is its own filter. */
  lemma {:induction false} OfChatAll(b: seq<Message>, chatId: nat)
    requires forall k :: 0 <= k < |b| ==> b[k].chatId == chatId
    ensures OfChat(b, chatId) == b
    decreases |b|
  {
    if b != [] {
      OfChatAll(b[..|b| - 1], chatId);
    }
  }

  /** A sequence with no message of `chatId` filters to nothing. */
  lemma {:induction false} OfChatNone(b: seq<Message>, chatId: nat)
    requires forall k :: 0 <= k < |b| ==> b[k].chatId != chatId
    ensures OfChat(b, chatId) == []
    decreases |b|
  {
    if b != [] {
      OfChatNone(b[..|b| - 1], chatId);
    }
  }

  /** Listing the chat a batch went to after saving it gives the earlier
      listing followed by the batch, in the same order. */
  lemma ListAfterSave(ms: seq<Message>, saved: seq<Message>, chatId: nat)
    requires forall k :: 0 <= k < |saved| ==> saved[k].chatId == chatId
    ensures OfChat(ms + saved, chatId) == OfChat(ms, chatId) + saved
  {
    OfChatAppend(ms, saved, chatId);
    OfChatAll(saved, chatId);
  }

  /** Listing another chat after saving a batch to `chatId` gives the earlier listing. */
  lemma ListOtherAfterSave(ms: seq<Message>, saved: seq<Message>, chatId: nat, other: nat)
    requires forall k :: 0 <= k < |saved| ==> saved[k].chatId == chatId
    requires other != chatId
    ensures OfChat(ms + saved, other) == OfChat(ms, other)
  {
    OfChatAppend(ms, saved, other);
    OfChatNone(saved, other);
    assert saved + [] == saved;
    assert OfChat(ms, other) + [] == OfChat(ms, other);
  }

  predicate SortedByCreation(cs: seq<Chat>) {
    forall i, j :: 0 <= i < j < |cs| ==> cs[i].createdAt <= cs[j].createdAt
  }

  predicate SortedByTimestamp(ms: seq<Message>) {
    forall i, j :: 0 <= i < j < |ms| ==> ms[i].timestamp <= ms[j].timestamp
  }

  /** Strictly increasing ids and timestamps, as serial ids and a clock that moves on every insert give. */
  predicate InsertionOrdered(ms: seq<Message>) {
    forall i, j :: 0 <= i < j < |ms| ==> ms[i].id < ms[j].id && ms[i].timestamp < ms[j].timestamp
  }

  /** Filtering keeps the insertion order, so the filtered messages come out by timestamp. */
  lemma {:induction false} OfChatOrdered(ms: seq<Message>, chatId: nat)
    requires InsertionOrdered(ms)
    ensures InsertionOrdered(OfChat(ms, chatId))
    decreases |ms|
  {
    if ms != [] {
      var init := ms[..|ms| - 1];
      assert InsertionOrdered(init);
      OfChatOrdered(init, chatId);
      if ms[|ms| - 1].chatId == chatId {
        var r := OfChat(init, chatId);
        forall i | 0 <= i < |r| ensures r[i].id < ms[|ms| - 1].id && r[i].timestamp < ms[|ms| - 1].timestamp {
          assert r[i] in init;
        }
      }
    }
  }

  /** The body of the save transaction: inserts the messages one after the
      other, stopping at the first the store rejects, and collects the saved
      rows in input order. It writes nothing itself; the caller commits the
      rows only when every insert succeeded. */
  method InsertBatch(chatId: nat, batch: seq<IncomingMessage>, firstId: nat, now: nat)
    returns (r: Result<seq<Message>, seq<FieldError>>)
    ensures r == SaveBatch(chatId, batch, firstId, now)
  {
    var saved: seq<Message> := [];
    var i := 0;
    while i < |batch|
      invariant 0 <= i <= |batch| && |saved| == i
      invariant forall k :: 0 <= k < i ==> InsertAt(chatId, batch, k, firstId, now) == Success(saved[k])
    {
      var inserted := NewMessage(firstId + i, InsertedFields(chatId, batch[i]), now + i);
      if inserted.Failure? {
        CollectFirstFailure(Inserts(chatId, batch, firstId, now), i);
        return Failure(inserted.error);
      }
      saved := saved + [inserted.value];
      i := i + 1;
    }
    CollectRows(Inserts(chatId, batch, firstId, now), saved);
    r := Success(saved);
  }

  class ChatStore {
    var chats: seq<Chat>
    var messages: seq<Message>
    var nextChatId: nat
    var nextMessageId: nat
    var clock: nat

    /** Every stored row satisfies the schema, ids and times increase in
        insertion order, and the counters and the clock lie beyond every row. */
    ghost predicate Valid()
      reads this
    {
      && ChatRowsValid(chats, nextChatId, clock)
      && RowsValid(messages, nextMessageId, clock)
    }

    /** An empty store whose serial ids start at 1 and whose clock reads `now`. */
    constructor (now: nat)
      ensures Valid()
      ensures chats == [] && messages == [] && nextChatId == 1 && nextMessageId == 1 && clock == now
    {
      chats, messages := [], [];
      nextChatId, nextMessageId := 1, 1;
      clock := now;
    }

    /** `GET /api/chats`: every chat, ordered by `createdAt`. */
    function ListChats(): (r: seq<Chat>)
      reads this
      requires Valid()
      ensures SortedByCreation(r)
      ensures |r| == |chats| && forall c :: c in r <==> c in chats
    {
      chats
    }

    /** `GET /api/chats/:chatId/messages`: exactly the stored messages of that
        chat, each once and ordered by `timestamp`; an id without messages
        gives `[]`. */
    function ListMessages(chatId: nat): (r: seq<Message>)
      reads this
      requires Valid()
      ensures forall m :: m in r <==> m in messages && m.chatId == chatId
      ensures SortedByTimestamp(r) && InsertionOrdered(r)
      ensures (forall m :: m in messages ==> m.chatId != chatId) ==> r == []
    {
      OfChatOrdered(messages, chatId);
      var r := OfChat(messages, chatId);
      assert r != [] ==> r[0] in messages;
      r
    }

    /** `POST /api/chats`: inserts one chat with the next id, the defaulted
        title and the current time, and returns that row; nothing else changes. */
    method CreateChat(title: Option<string>) returns (chat: Chat)
      requires Valid()
      modifies this
      ensures Valid()
      ensures chat == Chat(old(nextChatId), TitleOrDefault(title), old(clock))
      ensures forall c :: c in old(chats) ==> c.id != chat.id
      ensures chats == old(chats) + [chat]
      ensures messages == old(messages) && nextMessageId == old(nextMessageId)
      ensures nextChatId == old(nextChatId) + 1 && clock == old(clock) + 1
    {
      var r := NewChat(nextChatId, ChatFields(Some(TitleOrDefault(title)), None), clock);
      chat := r.value;
      chats := chats + [chat];
      nextChatId := nextChatId + 1;
      clock := clock + 1;
    }

    /** `POST /api/chats/:chatId/messages`: inserts the batch in one
        transaction. On success the saved rows, in input order, are appended
        to the store and returned, and listing the chat afterwards gives the
        earlier listing followed by them; when any insert is rejected the
        store is left as it was. */
    method SaveMessages(chatId: nat, batch: seq<IncomingMessage>) returns (r: Result<seq<Message>, seq<FieldError>>)
      requires Valid()
      modifies this
      ensures Valid()
      ensures r == SaveBatch(chatId, batch, old(nextMessageId), old(clock))
      ensures chats == old(chats) && nextChatId == old(nextChatId)
      ensures r.Success? ==>
                && messages == old(messages) + r.value
                && nextMessageId == old(nextMessageId) + |batch| && clock == old(clock) + |batch|
      ensures r.Failure? ==>
                messages == old(messages) && nextMessageId == old(nextMessageId) && clock == old(clock)
    {
      r := InsertBatch(chatId, batch, nextMessageId, clock);
      if r.Success? {
        assert |r.value| == |batch| && RowsValid(messages + r.value, nextMessageId + |batch|, clock + |batch|) by {
          CommitBatch(messages, chatId, batch, nextMessageId, clock);
        }
        assert ChatRowsValid(chats, nextChatId, clock + |batch|) by {
          ChatRowsLater(chats, nextChatId, clock, clock + |batch|);
        }
        messages := messages + r.value;
        nextMessageId, clock := nextMessageId + |batch|, clock + |batch|;
      }
    }
  }
}
