/** The chat endpoints (services/api/routers/chat.py) over the thread and
    message tables (services/api/models/thread.py). A thread's `mode` and an
    assistant message's citations are kept as the code intends them in the
    `metadata` columns. The citations never reach the client: a message is
    answered as a `MessageResponse` read from the stored row's attributes,
    and the row has no `citations` attribute, so the field keeps its default
    empty list. Generated ids and the clocks are parameters. */
module Chat {
  import opened Common
  import opened Sorting
  import opened Orchestrator

  datatype Thread = Thread(id: string, userId: string, metadata: map<string, string>, createdAt: int, updatedAt: int)

  datatype Message = Message(id: string, threadId: string, role: string, content: string,
                             citations: seq<Citation>, createdAt: int)

  /** `MessageResponse`: what the API answers for one message. */
  datatype MessageResponse = MessageResponse(id: string, role: string, content: string,
                                             citations: seq<Citation>, createdAt: int)

  /** `ThreadResponse`. */
  datatype ThreadSummary = ThreadSummary(id: string, userId: string, createdAt: int, updatedAt: int, messageCount: nat)

  /** `ThreadDetailResponse`. */
  datatype ThreadDetail = ThreadDetail(id: string, userId: string, createdAt: int, updatedAt: int,
                                       messageCount: nat, messages: seq<MessageResponse>)

  /** `MessageResponse` validated from a stored message: the fields the
      row has, and the default empty citation list, which the row cannot
      supply. */
  function Respond(m: Message): (r: MessageResponse)
    ensures r.id == m.id && r.role == m.role && r.content == m.content && r.createdAt == m.createdAt
    ensures r.citations == []
  {
    MessageResponse(m.id, m.role, m.content, [], m.createdAt)
  }

  function Responses(ms: seq<Message>): (r: seq<MessageResponse>)
    ensures |r| == |ms| && forall i :: 0 <= i < |ms| ==> r[i] == Respond(ms[i])
  {
    seq(|ms|, i requires 0 <= i < |ms| => Respond(ms[i]))
  }

  /** An answer stored with citations is sent without them. */
  lemma CitationsNotSent(m: Message)
    requires m.citations != []
    ensures Respond(m).citations != m.citations
    ensures Respond(m).id == m.id && Respond(m).content == m.content
  {
  }

  const DEFAULT_MODE := "quick"

  /** What the framework answers when a route raises an unhandled error. */
  const INTERNAL_ERROR := HttpError(SERVER_ERROR, "Internal Server Error")

  function ThreadIds(threads: seq<Thread>): (r: seq<string>)
    ensures |r| == |threads| && forall i :: 0 <= i < |threads| ==> r[i] == threads[i].id
  {
    if |threads| == 0 then [] else ThreadIds(threads[..|threads| - 1]) + [threads[|threads| - 1].id]
  }

  function MessageIds(messages: seq<Message>): (r: seq<string>)
    ensures |r| == |messages| && forall i :: 0 <= i < |messages| ==> r[i] == messages[i].id
  {
    if |messages| == 0 then [] else MessageIds(messages[..|messages| - 1]) + [messages[|messages| - 1].id]
  }

  /** `Message.thread_id == thread_id`, in table order. */
  function MessagesOf(messages: seq<Message>, threadId: string): (r: seq<Message>)
    ensures forall m :: m in r <==> m in messages && m.threadId == threadId
  {
    if |messages| == 0 then []
    else
      var last := messages[|messages| - 1];
      var front := messages[..|messages| - 1];
      assert messages == front + [last];
      MessagesOf(front, threadId) + (if last.threadId == threadId then [last] else [])
  }

  lemma {:induction false} MessagesOfAppend(a: seq<Message>, b: seq<Message>, threadId: string)
    ensures MessagesOf(a + b, threadId) == MessagesOf(a, threadId) + MessagesOf(b, threadId)
    decreases |b|
  {
    if |b| > 0 {
      var b' := b[..|b| - 1];
      assert (a + b)[..|a + b| - 1] == a + b';
      assert (a + b)[|a + b| - 1] == b[|b| - 1];
      MessagesOfAppend(a, b', threadId);
    } else {
      assert a + b == a;
    }
  }

  /** The sort key of `order_by(Message.created_at)`, ascending. */
  function EarliestFirst(m: Message): real { -(m.createdAt as real) }

  /** The sort key of `order_by(Thread.updated_at.desc())`. */
  function UpdatedKey(t: Thread): real { t.updatedAt as real }

  /** A thread's messages in `created_at` order; messages created in the
      same transaction keep the order they were added in. */
  function Transcript(messages: seq<Message>, threadId: string): seq<Message> {
    SortDesc(MessagesOf(messages, threadId), EarliestFirst)
  }

  /** The index of the thread with this id and owner. */
  function FindThread(threads: seq<Thread>, threadId: string, userId: string): (r: Option<nat>)
    ensures r.Some? ==> r.value < |threads| && threads[r.value].id == threadId && threads[r.value].userId == userId
    ensures r.None? ==> forall t :: t in threads ==> !(t.id == threadId && t.userId == userId)
  {
    if |threads| == 0 then None
    else if threads[|threads| - 1].id == threadId && threads[|threads| - 1].userId == userId then Some(|threads| - 1)
    else
      var r := FindThread(threads[..|threads| - 1], threadId, userId);
      assert threads == threads[..|threads| - 1] + [threads[|threads| - 1]];
      r
  }

  function Summary(t: Thread, messages: seq<Message>): ThreadSummary {
    ThreadSummary(t.id, t.userId, t.createdAt, t.updatedAt, |MessagesOf(messages, t.id)|)
  }

  function OwnedThreads(threads: seq<Thread>, userId: string): (r: seq<Thread>)
    ensures forall t :: t in r <==> t in threads && t.userId == userId
  {
    if |threads| == 0 then []
    else
      var last := threads[|threads| - 1];
      var front := threads[..|threads| - 1];
      assert threads == front + [last];
      OwnedThreads(front, userId) + (if last.userId == userId then [last] else [])
  }

  /** The threads `list_threads` returns: the user's, most recently updated first, paged. */
  function ThreadPage(threads: seq<Thread>, userId: string, offset: nat, limit: nat): seq<Thread> {
    Page(SortDesc(OwnedThreads(threads, userId), UpdatedKey), offset, limit)
  }

  /** Two messages with the same key are already in order. */
  lemma PairSorted(u: Message, a: Message)
    requires EarliestFirst(u) == EarliestFirst(a)
    ensures SortDesc([u, a], EarliestFirst) == [u, a]
  {
    assert [u, a][1..] == [a];
    assert [a][1..] == [];
  }

  /** Primary keys on both tables, and the foreign key from messages to threads. */
  ghost predicate ValidTables(threads: seq<Thread>, messages: seq<Message>) {
    Distinct(ThreadIds(threads)) && Distinct(MessageIds(messages))
    && forall m :: m in messages ==> m.threadId in ThreadIds(threads)
  }

  /** A new thread with its first exchange keeps the keys valid. */
  lemma NewThreadValid(ts: seq<Thread>, ms: seq<Message>, t: Thread, u: Message, a: Message)
    requires ValidTables(ts, ms)
    requires t.id !in ThreadIds(ts)
    requires u.id !in MessageIds(ms) && a.id !in MessageIds(ms) && u.id != a.id
    requires u.threadId == t.id && a.threadId == t.id
    ensures ValidTables(ts + [t], ms + [u, a])
  {
    NewThreadKey(ts, t);
    ExchangeKeys(ms, u, a);
    NewThreadReferences(ts, ms, t, u, a);
  }

  lemma NewThreadKey(ts: seq<Thread>, t: Thread)
    requires Distinct(ThreadIds(ts)) && t.id !in ThreadIds(ts)
    ensures Distinct(ThreadIds(ts + [t]))
  {
    StoreIdsAppend(ts, [t], [], []);
    DistinctExtend(ThreadIds(ts), [t.id]);
  }

  lemma ExchangeKeys(ms: seq<Message>, u: Message, a: Message)
    requires Distinct(MessageIds(ms))
    requires u.id !in MessageIds(ms) && a.id !in MessageIds(ms) && u.id != a.id
    ensures Distinct(MessageIds(ms + [u, a]))
  {
    StoreIdsAppend([], [], ms, [u, a]);
    DistinctExtend(MessageIds(ms), [u.id, a.id]);
  }

  lemma NewThreadReferences(ts: seq<Thread>, ms: seq<Message>, t: Thread, u: Message, a: Message)
    requires forall m :: m in ms ==> m.threadId in ThreadIds(ts)
    requires u.threadId == t.id && a.threadId == t.id
    ensures forall m :: m in ms + [u, a] ==> m.threadId in ThreadIds(ts + [t])
  {
    var ids := ThreadIds(ts + [t]);
    assert ids[|ts|] == t.id;
    forall m | m in ms + [u, a] ensures m.threadId in ids {
      if m in ms {
        var i :| 0 <= i < |ts| && ThreadIds(ts)[i] == m.threadId;
        assert ids[i] == m.threadId;
      }
    }
  }

  /** An exchange on an existing thread keeps the keys valid. */
  lemma ExchangeValid(ts: seq<Thread>, ms: seq<Message>, k: nat, clock: int, u: Message, a: Message)
    requires ValidTables(ts, ms) && k < |ts|
    requires u.id !in MessageIds(ms) && a.id !in MessageIds(ms) && u.id != a.id
    requires u.threadId == ts[k].id && a.threadId == ts[k].id
    ensures ValidTables(ts[k := ts[k].(updatedAt := clock)], ms + [u, a])
  {
    var ts' := ts[k := ts[k].(updatedAt := clock)];
    assert ThreadIds(ts') == ThreadIds(ts);
    ExchangeKeys(ms, u, a);
    assert ts[k].id in ThreadIds(ts);
  }

  lemma DistinctExtend(a: seq<string>, b: seq<string>)
    requires Distinct(a) && Distinct(b)
    requires forall x :: x in b ==> x !in a
    ensures Distinct(a + b)
  {
    var c := a + b;
    forall i, j | 0 <= i < j < |c| ensures c[i] != c[j] {
      if i < |a| && j >= |a| {
        assert c[j] == b[j - |a|] && c[j] in b;
      }
    }
  }

  lemma PairOf(u: Message, a: Message, threadId: string)
    requires u.threadId == threadId && a.threadId == threadId
    ensures MessagesOf([u, a], threadId) == [u, a]
  {
    assert [u, a][..1] == [u];
    assert [u][..0] == [];
    assert MessagesOf([u], threadId) == MessagesOf([], threadId) + [u];
    assert MessagesOf([u, a], threadId) == MessagesOf([u], threadId) + [a];
  }

  /** A table with no message of the thread yields none. */
  lemma {:induction false} NoMessagesOf(ms: seq<Message>, threadId: string)
    requires forall m :: m in ms ==> m.threadId != threadId
    ensures MessagesOf(ms, threadId) == []
    decreases |ms|
  {
    if |ms| > 0 {
      assert ms[|ms| - 1] in ms;
      NoMessagesOf(ms[..|ms| - 1], threadId);
    }
  }

  class ChatStore {
    var threads: seq<Thread>
    var messages: seq<Message>

    /** Primary keys on both tables, and the foreign key from messages to threads. */
    ghost predicate Valid()
      reads this
    {
      ValidTables(threads, messages)
    }

    constructor ()
      ensures threads == [] && messages == [] && Valid()
    {
      threads := [];
      messages := [];
    }

    /** `create_thread`: the thread with its mode, the user's message, the
        orchestrator's answer with its citations, all at transaction time
        `now`; the reply counts the thread's two messages. */
    method CreateThread(userId: string, message: string, mode: string,
                        threadId: string, userMsgId: string, assistantMsgId: string, now: int,
                        search: SearchRequest -> Reply<SearchBody>,
                        complete: CompletionRequest -> Reply<CompletionBody>)
      returns (r: ThreadSummary, reply: ChatResult)
      requires Valid()
      requires threadId !in ThreadIds(threads)
      requires userMsgId !in MessageIds(messages) && assistantMsgId !in MessageIds(messages) && userMsgId != assistantMsgId
      modifies this
      ensures Valid()
      ensures threads == old(threads) + [Thread(threadId, userId, map["mode" := mode], now, now)]
      ensures messages == old(messages) + [Message(userMsgId, threadId, "user", message, [], now),
                                           Message(assistantMsgId, threadId, "assistant", reply.content, reply.citations, now)]
      ensures r == ThreadSummary(threadId, userId, now, now, 2)
      ensures reply.citations == ExtractedCitations(userId, message, search)
      ensures reply.content == Answer(userId, message, mode, search, complete)
    {
      var thread := Thread(threadId, userId, map["mode" := mode], now, now);
      var userMessage := Message(userMsgId, threadId, "user", message, [], now);
      reply := ProcessMessage(userId, message, mode, search, complete);
      CitationsExtracted(userId, message, search, reply.citations);
      var assistant := Message(assistantMsgId, threadId, "assistant", reply.content, reply.citations, now);
      NewThreadExchange(threads, messages, thread, userMessage, assistant);
      threads := threads + [thread];
      messages := messages + [userMessage, assistant];
      r := ThreadSummary(threadId, userId, now, now, |MessagesOf(messages, threadId)|);
    }

    /** `add_message`: 404 and no change unless the caller owns the thread;
        otherwise the user's message and then the answer are appended, and
        the thread's `updated_at` becomes `clock`. The reply is the stored
        answer as a `MessageResponse`, without its citations. */
    method AddMessage(userId: string, threadId: string, content: string,
                      userMsgId: string, assistantMsgId: string, now: int, clock: int,
                      search: SearchRequest -> Reply<SearchBody>,
                      complete: CompletionRequest -> Reply<CompletionBody>)
      returns (r: Result<MessageResponse, HttpError>)
      requires Valid()
      requires userMsgId !in MessageIds(messages) && assistantMsgId !in MessageIds(messages) && userMsgId != assistantMsgId
      modifies this
      ensures Valid()
      ensures FindThread(old(threads), threadId, userId).None? ==>
        r == Err(HttpError(NOT_FOUND, "Thread not found")) && threads == old(threads) && messages == old(messages)
      ensures FindThread(old(threads), threadId, userId).Some? ==>
        var k := FindThread(old(threads), threadId, userId).value;
        var mode := if "mode" in old(threads)[k].metadata then old(threads)[k].metadata["mode"] else DEFAULT_MODE;
        var answer := Message(assistantMsgId, threadId, "assistant", Answer(userId, content, mode, search, complete),
                              ExtractedCitations(userId, content, search), now);
        r == Ok(MessageResponse(assistantMsgId, "assistant", answer.content, [], now))
        && messages == old(messages) + [Message(userMsgId, threadId, "user", content, [], now), answer]
        && threads == old(threads)[k := old(threads)[k].(updatedAt := clock)]
    {
      var found := FindThread(threads, threadId, userId);
      if found.None? {
        return Err(HttpError(NOT_FOUND, "Thread not found"));
      }
      var k := found.value;
      var thread := threads[k];
      var userMessage := Message(userMsgId, threadId, "user", content, [], now);
      var mode := if "mode" in thread.metadata then thread.metadata["mode"] else DEFAULT_MODE;
      var reply := ProcessMessage(userId, content, mode, search, complete);
      CitationsExtracted(userId, content, search, reply.citations);
      var assistant := Message(assistantMsgId, threadId, "assistant", reply.content, reply.citations, now);
      ExchangeValid(threads, messages, k, clock, userMessage, assistant);
      var updated := threads[k := thread.(updatedAt := clock)];
      messages := messages + [userMessage, assistant];
      threads := updated;
      r := Ok(Respond(assistant));
    }

    /** `get_thread`: 404 unless the caller owns the thread; otherwise its
        messages in creation order, as responses without citations, and
        their number. */
    function GetThread(userId: string, threadId: string): (r: Result<ThreadDetail, HttpError>)
      reads this
      ensures FindThread(threads, threadId, userId).None? <==> r.Err?
      ensures r.Err? ==> r.error == HttpError(NOT_FOUND, "Thread not found")
      ensures r.Ok? ==>
        var t := Transcript(messages, threadId);
        r.value.id == threadId && r.value.userId == userId
        && r.value.messageCount == |r.value.messages| == |MessagesOf(messages, threadId)|
        && multiset(t) == multiset(MessagesOf(messages, threadId))
        && (forall i, j :: 0 <= i < j < |t| ==> t[i].createdAt <= t[j].createdAt)
        && r.value.messages == Responses(t)
        && forall i :: 0 <= i < |r.value.messages| ==> r.value.messages[i].citations == []
    {
      match FindThread(threads, threadId, userId)
      case None => Err(HttpError(NOT_FOUND, "Thread not found"))
      case Some(k) =>
        var t := threads[k];
        var ms := Transcript(messages, threadId);
        Ok(ThreadDetail(t.id, t.userId, t.createdAt, t.updatedAt, |ms|, Responses(ms)))
    }

    /** `list_threads`: the caller's threads, most recently updated first,
        paged, each with its message count. A negative limit or offset is
        refused by the database, and the route does not catch the error. */
    method ListThreads(userId: string, limit: int, offset: int) returns (r: Result<seq<ThreadSummary>, HttpError>)
      ensures limit < 0 || offset < 0 ==> r == Err(INTERNAL_ERROR)
      ensures limit >= 0 && offset >= 0 ==>
        var page := ThreadPage(threads, userId, offset, limit);
        r.Ok? && |r.value| == |page| && |r.value| <= limit
        && forall i :: 0 <= i < |page| ==> r.value[i] == Summary(page[i], messages)
    {
      if RowCountError(limit, offset).Some? {
        return Err(INTERNAL_ERROR);
      }
      var page := ThreadPage(threads, userId, offset, limit);
      var out: seq<ThreadSummary> := [];
      var i := 0;
      while i < |page|
        invariant 0 <= i <= |page|
        invariant |out| == i
        invariant forall j :: 0 <= j < i ==> out[j] == Summary(page[j], messages)
      {
        out := out + [Summary(page[i], messages)];
        i := i + 1;
      }
      r := Ok(out);
    }
  }

  /** The thread `create_thread` stores as written. The declarative
      constructor accepts `metadata=` because the model class has a
      `metadata` attribute (the table schema), so the mode is set on the
      instance only and the `metadata` column keeps its default `{}`. An
      assistant message's citations are lost the same way. */
  function CreatedThreadAsWritten(threadId: string, userId: string, now: int): (t: Thread)
    ensures t.id == threadId && t.userId == userId && t.metadata == map[]
  {
    Thread(threadId, userId, map[], now, now)
  }

  /** `add_message` as written: on a loaded thread `thread.metadata` is the
      schema, which has no `get`, so once the caller's thread is found the
      route raises before the orchestrator runs, nothing is committed, and
      the framework answers 500. */
  function AddMessageAsWritten(threads: seq<Thread>, userId: string, threadId: string): (r: Result<MessageResponse, HttpError>)
    ensures FindThread(threads, threadId, userId).None? ==> r == Err(HttpError(NOT_FOUND, "Thread not found"))
    ensures FindThread(threads, threadId, userId).Some? ==> r == Err(INTERNAL_ERROR)
  {
    if FindThread(threads, threadId, userId).None? then Err(HttpError(NOT_FOUND, "Thread not found"))
    else Err(INTERNAL_ERROR)
  }

  /** As written, a thread just created has no mode, and no message can be
      added to it by its owner. */
  lemma ModeLookupFails(ts: seq<Thread>, threadId: string, userId: string, now: int)
    ensures var ts' := ts + [CreatedThreadAsWritten(threadId, userId, now)];
      FindThread(ts', threadId, userId).Some?
      && AddMessageAsWritten(ts', userId, threadId) == Err(INTERNAL_ERROR)
      && "mode" !in ts'[|ts|].metadata
  {
  }

  /** The answer the orchestrator gives. */
  function Answer(userId: string, message: string, mode: string,
                  search: SearchRequest -> Reply<SearchBody>,
                  complete: CompletionRequest -> Reply<CompletionBody>): string
  {
    var context := Retrieve(search(SearchRequest(message, userId, SEARCH_TOP_K)));
    Generate(complete(CompletionRequest("main", SYSTEM_PROMPT, BuildUserPrompt(message, context), Temperature(mode), 1000)))
  }

  /** The citations the orchestrator extracts: one per retrieved chunk. */
  function ExtractedCitations(userId: string, message: string, search: SearchRequest -> Reply<SearchBody>): seq<Citation> {
    var context := Retrieve(search(SearchRequest(message, userId, SEARCH_TOP_K)));
    seq(|context|, i requires 0 <= i < |context| => CitationOf(context[i]))
  }

  /** The orchestrator's citations, element by element, are the extracted citations. */
  lemma CitationsExtracted(userId: string, message: string, search: SearchRequest -> Reply<SearchBody>, cs: seq<Citation>)
    requires var context := Retrieve(search(SearchRequest(message, userId, SEARCH_TOP_K)));
      |cs| == |context| && forall i :: 0 <= i < |context| ==> cs[i] == CitationOf(context[i])
    ensures cs == ExtractedCitations(userId, message, search)
  {
  }

  /** A new thread with its first exchange keeps the keys valid, and the
      exchange is all the thread's messages. */
  lemma NewThreadExchange(ts: seq<Thread>, ms: seq<Message>, t: Thread, u: Message, a: Message)
    requires ValidTables(ts, ms)
    requires t.id !in ThreadIds(ts)
    requires u.id !in MessageIds(ms) && a.id !in MessageIds(ms) && u.id != a.id
    requires u.threadId == t.id && a.threadId == t.id
    ensures ValidTables(ts + [t], ms + [u, a])
    ensures MessagesOf(ms + [u, a], t.id) == [u, a]
  {
    forall m | m in ms ensures m.threadId != t.id {
      assert m.threadId in ThreadIds(ts);
    }
    AppendExchange(ms, u, a, t.id);
    NewThreadValid(ts, ms, t, u, a);
  }

  lemma StoreIdsAppend(t1: seq<Thread>, t2: seq<Thread>, m1: seq<Message>, m2: seq<Message>)
    ensures ThreadIds(t1 + t2) == ThreadIds(t1) + ThreadIds(t2)
    ensures MessageIds(m1 + m2) == MessageIds(m1) + MessageIds(m2)
  {
    assert forall i :: 0 <= i < |t1 + t2| ==> ThreadIds(t1 + t2)[i] == (ThreadIds(t1) + ThreadIds(t2))[i];
    assert forall i :: 0 <= i < |m1 + m2| ==> MessageIds(m1 + m2)[i] == (MessageIds(m1) + MessageIds(m2))[i];
  }

  /** The two messages of an exchange are the thread's only messages when the
      thread is new. */
  lemma AppendExchange(old_: seq<Message>, u: Message, a: Message, threadId: string)
    requires forall m :: m in old_ ==> m.threadId != threadId
    requires u.threadId == threadId && a.threadId == threadId
    ensures MessagesOf(old_ + [u, a], threadId) == [u, a]
  {
    MessagesOfAppend(old_, [u, a], threadId);
    NoMessagesOf(old_, threadId);
    PairOf(u, a, threadId);
  }

  /** Each exchange extends the transcript by exactly the user's message and
      then the answer, when the clock has not gone back. */
  lemma TranscriptGrows(messages: seq<Message>, u: Message, a: Message, threadId: string, now: int)
    requires forall m :: m in messages ==> m.createdAt <= now
    requires u.threadId == threadId && a.threadId == threadId && u.createdAt == now && a.createdAt == now
    ensures Transcript(messages + [u, a], threadId) == Transcript(messages, threadId) + [u, a]
  {
    MessagesOfAppend(messages, [u, a], threadId);
    PairOf(u, a, threadId);
    PairSorted(u, a);
    SortAppendLowest(MessagesOf(messages, threadId), [u, a], EarliestFirst);
  }

  /** The listing holds only the caller's threads, most recently updated
      first, at most `limit` of them. */
  lemma ThreadPageProps(threads: seq<Thread>, userId: string, offset: nat, limit: nat)
    ensures var p := ThreadPage(threads, userId, offset, limit);
      |p| <= limit
      && (forall t :: t in p ==> t in threads && t.userId == userId)
      && (forall i, j :: 0 <= i < j < |p| ==> p[i].updatedAt >= p[j].updatedAt)
  {
    var s := SortDesc(OwnedThreads(threads, userId), UpdatedKey);
    var p := Page(s, offset, limit);
    forall t | t in p ensures t in threads && t.userId == userId {
      var i :| 0 <= i < |p| && p[i] == t;
      assert s[offset + i] == t;
      assert t in multiset(s);
    }
    forall i, j | 0 <= i < j < |p| ensures p[i].updatedAt >= p[j].updatedAt {
      assert UpdatedKey(s[offset + i]) >= UpdatedKey(s[offset + j]);
    }
  }
}
