/** Sending a chat message about a post and assembling the assistant's
    streamed reply in the cached message list. */
module ChatStream {
  import opened Entities
  import opened QueryCache
  import opened JsText

  datatype Option<T> = None | Some(value: T)

  /** The key of a post's chat thread, `["chat-messages", postId]`. */
  function ChatKey(postId: string): Key {
    Key("chat-messages", [Str(postId)])
  }

  /** `enabled: !!postId && enabled` of the messages query. */
  function MessagesQueryEnabled(postId: string, enabled: bool): bool {
    postId != "" && enabled
  }

  /** The dialog's optional `pdfId` as a post id: `pdfId ?? ""`. It is what
      the dialog passes to the messages query, and it is empty exactly when
      `!pdfId` holds. */
  function DialogPostId(pdfId: Option<string>): string {
    if pdfId.Some? then pdfId.value else ""
  }

  /** The chat dialog's messages query, `useChatMessages(pdfId ?? "", { enabled: open })`,
      runs exactly when the dialog is open and a non-empty document id is
      given, and it then reads the thread a send about that document writes. */
  lemma DialogMessagesQuery(pdfId: Option<string>, open: bool)
    ensures MessagesQueryEnabled(DialogPostId(pdfId), open) <==> open && pdfId.Some? && pdfId.value != ""
    ensures MessagesQueryEnabled(DialogPostId(pdfId), open) ==> ChatKey(DialogPostId(pdfId)) == ChatKey(pdfId.value)
  {
  }

  /** The messages cached under a chat key; nothing cached reads as no messages. */
  function PriorMessages(v: Value): seq<ChatMessage> {
    if v.Messages? then v.messages else []
  }

  /** `(oldData) => oldData ? [...oldData, m] : [m]`. */
  function AppendMessage(v: Value, m: ChatMessage): (r: Value)
    ensures r == Messages(PriorMessages(v) + [m])
    ensures !Truthy(v) ==> r.messages == [m]
  {
    match v
    case Messages(ms) => Messages(ms + [m])
    case _ =>
      assert PriorMessages(v) + [m] == [m];
      Messages([m])
  }

  /** The per-chunk `map`: every message whose id is `id` gets `chunk`
      appended to its content; every other message is kept as it is. */
  function AppendChunk(ms: seq<ChatMessage>, id: string, chunk: string): (r: seq<ChatMessage>)
    ensures |r| == |ms|
    ensures forall j :: 0 <= j < |ms| && ms[j].messageId != id ==> r[j] == ms[j]
    ensures forall j :: 0 <= j < |ms| && ms[j].messageId == id ==>
      r[j].messageId == id && r[j].role == ms[j].role && r[j].timestamp == ms[j].timestamp
      && r[j].content == ms[j].content + chunk
  {
    seq(|ms|, j requires 0 <= j < |ms| =>
      if ms[j].messageId == id then ms[j].(content := ms[j].content + chunk) else ms[j])
  }

  /** The cache updater for one chunk: a cached thread gets the chunk
      appended to the message with id `id`; any other data is kept. */
  function AddChunk(v: Value, id: string, chunk: string): (r: Value)
    ensures Truthy(r) == Truthy(v)
    ensures v.Messages? ==> r == Messages(AppendChunk(v.messages, id, chunk))
    ensures !v.Messages? ==> r == v
  {
    match v
    case Messages(ms) => Messages(AppendChunk(ms, id, chunk))
    case _ => v
  }

  /** The chunks joined in arrival order. */
  function Concat(chunks: seq<string>): string {
    if chunks == [] then ""
    else Concat(chunks[..|chunks| - 1]) + chunks[|chunks| - 1]
  }

  /** The message list after the chunks have been applied one by one. */
  function Streamed(ms: seq<ChatMessage>, id: string, chunks: seq<string>): (r: seq<ChatMessage>)
    ensures |r| == |ms|
  {
    if chunks == [] then ms
    else AppendChunk(Streamed(ms, id, chunks[..|chunks| - 1]), id, chunks[|chunks| - 1])
  }

  /** The content seen after each chunk is a prefix of the content seen
      after any later chunk: content only grows. */
  lemma {:induction false} ConcatPrefix(chunks: seq<string>, i: nat, j: nat)
    requires i <= j <= |chunks|
    ensures Concat(chunks[..i]) <= Concat(chunks[..j])
  {
    if i < j {
      ConcatPrefix(chunks, i, j - 1);
      assert chunks[..j][..j - 1] == chunks[..j - 1];
    }
  }

  /** Whatever the other messages' ids, the last message (the placeholder)
      ends with its content followed by every chunk in arrival order. */
  lemma {:induction false} StreamedLast(ms: seq<ChatMessage>, ph: ChatMessage, chunks: seq<string>)
    ensures var r := Streamed(ms + [ph], ph.messageId, chunks);
      r[|ms|].messageId == ph.messageId && r[|ms|].role == ph.role
      && r[|ms|].timestamp == ph.timestamp && r[|ms|].content == ph.content + Concat(chunks)
  {
    if chunks != [] {
      StreamedLast(ms, ph, chunks[..|chunks| - 1]);
    }
  }

  /** When no earlier message shares the placeholder's id, streaming changes
      the placeholder's content and nothing else. */
  lemma {:induction false} StreamedPlaceholder(ms: seq<ChatMessage>, ph: ChatMessage, chunks: seq<string>)
    requires forall j :: 0 <= j < |ms| ==> ms[j].messageId != ph.messageId
    ensures Streamed(ms + [ph], ph.messageId, chunks) == ms + [ph.(content := ph.content + Concat(chunks))]
  {
    if chunks != [] {
      var init, c := chunks[..|chunks| - 1], chunks[|chunks| - 1];
      StreamedPlaceholder(ms, ph, init);
      var mid := ph.(content := ph.content + Concat(init));
      var r := AppendChunk(ms + [mid], ph.messageId, c);
      assert r[|ms|] == mid.(content := mid.content + c);
      assert r == ms + [mid.(content := mid.content + c)];
      assert ph.content + Concat(init) + c == ph.content + Concat(chunks);
    } else {
      assert ph.content + Concat(chunks) == ph.content;
    }
  }

  /** Chunks "Hel", "lo", " world" show "Hel", then "Hello", then "Hello world". */
  lemma HelloWorld()
    ensures Concat(["Hel"]) == "Hel"
    ensures Concat(["Hel", "lo"]) == "Hello"
    ensures Concat(["Hel", "lo", " world"]) == "Hello world"
  {
    assert ["Hel", "lo", " world"][..2] == ["Hel", "lo"];
    assert ["Hel", "lo"][..1] == ["Hel"];
    assert ["Hel"][..0] == [];
  }

  /** How the response body stream ended. */
  datatype StreamEnd = Done | ReadError

  /** A response body: the decoded chunks read before the stream ended. */
  datatype Body = Body(chunks: seq<string>, end: StreamEnd)

  /** What the POST of the question gave: a transport failure, or a response
      with a status and possibly no body. */
  datatype Reply = TransportError | Reply(status: int, body: Option<Body>)

  datatype ChatError = RequestFailed | NotOk | MissingBody | ReadFailed

  datatype SendResult = Sent | Failed(error: ChatError)

  /** The temporary ids and timestamps the sender derives from the clock. */
  datatype Stamps = Stamps(userId: string, userTime: string, assistantId: string, assistantTime: string)

  function UserMessage(query: string, st: Stamps): ChatMessage {
    ChatMessage(st.userId, User, query, st.userTime)
  }

  function Placeholder(st: Stamps): ChatMessage {
    ChatMessage(st.assistantId, Assistant, "", st.assistantTime)
  }

  /** The reply passes both checks: status 200 and a body to read. */
  predicate Opens(reply: Reply) {
    reply.Reply? && reply.status == 200 && reply.body.Some?
  }

  /** How a send ends for a given reply. */
  function SendOutcome(reply: Reply): (r: SendResult)
    ensures r == Sent <==> Opens(reply) && reply.body.value.end.Done?
    ensures r == Failed(NotOk) <==> reply.Reply? && reply.status != 200
    ensures r == Failed(MissingBody) <==> reply.Reply? && reply.status == 200 && reply.body.None?
    ensures r == Failed(ReadFailed) <==> Opens(reply) && reply.body.value.end.ReadError?
    ensures r == Failed(RequestFailed) <==> reply.TransportError?
  {
    if reply.TransportError? then Failed(RequestFailed)
    else if reply.status != 200 then Failed(NotOk)
    else if reply.body.None? then Failed(MissingBody)
    else if reply.body.value.end.ReadError? then Failed(ReadFailed)
    else Sent
  }

  /** The thread cached under the chat key once a send is over. */
  function Thread(prior: Value, query: string, st: Stamps, reply: Reply): seq<ChatMessage> {
    var withUser := PriorMessages(prior) + [UserMessage(query, st)];
    if Opens(reply) then Streamed(withUser + [Placeholder(st)], st.assistantId, reply.body.value.chunks)
    else withUser
  }

  /** The shape of the thread after a send: the earlier messages in their
      order, then the user's message; then, only when the reply passed both
      checks, the assistant's message holding every chunk in arrival order.
      When the placeholder's id is fresh, nothing else is touched. */
  lemma ThreadShape(prior: Value, query: string, st: Stamps, reply: Reply)
    ensures var t := Thread(prior, query, st, reply);
      var before := PriorMessages(prior);
      && (!Opens(reply) ==> t == before + [UserMessage(query, st)])
      && (Opens(reply) ==>
            |t| == |before| + 2
            && t[|before| + 1].messageId == st.assistantId
            && t[|before| + 1].role == Assistant
            && t[|before| + 1].content == Concat(reply.body.value.chunks))
      && (Opens(reply) && st.userId != st.assistantId
          && (forall j :: 0 <= j < |before| ==> before[j].messageId != st.assistantId) ==>
            t == before + [UserMessage(query, st), Placeholder(st).(content := Concat(reply.body.value.chunks))])
  {
    var before := PriorMessages(prior);
    var withUser := before + [UserMessage(query, st)];
    if Opens(reply) {
      var chunks := reply.body.value.chunks;
      StreamedLast(withUser, Placeholder(st), chunks);
      if st.userId != st.assistantId && forall j :: 0 <= j < |before| ==> before[j].messageId != st.assistantId {
        StreamedPlaceholder(withUser, Placeholder(st), chunks);
      }
    }
  }

  /** Writing the next chunk into the cached thread moves it on by one chunk. */
  lemma StreamStep(es: seq<Entry>, key: Key, base: seq<ChatMessage>, id: string, chunks: seq<string>, i: nat)
    requires i < |chunks|
    ensures var current := Streamed(base, id, chunks[..i]);
      Put(Put(es, key, Messages(current)), key, AddChunk(Messages(current), id, chunks[i]))
        == Put(es, key, Messages(Streamed(base, id, chunks[..i + 1])))
  {
    var current := Streamed(base, id, chunks[..i]);
    assert chunks[..i + 1][..i] == chunks[..i];
    PutPut(es, key, Messages(current), Messages(AppendChunk(current, id, chunks[i])));
  }

  /** The read loop: each chunk read is appended to the placeholder's
      content in the cached thread. */
  method StreamIntoPlaceholder(qc: QueryClient, key: Key, ghost withUser: seq<ChatMessage>, placeholder: ChatMessage,
                               chunks: seq<string>, ghost entries0: seq<Entry>)
    requires qc.Valid()
    requires qc.entries == Put(entries0, key, Messages(withUser + [placeholder]))
    modifies qc
    ensures qc.Valid()
    ensures qc.entries == Put(entries0, key, Messages(Streamed(withUser + [placeholder], placeholder.messageId, chunks)))
    ensures qc.stale == if chunks == [] then old(qc.stale) else old(qc.stale) - {key}
  {
    var id := placeholder.messageId;
    ghost var base := withUser + [placeholder];
    var i := 0;
    assert chunks[..0] == [];
    while i < |chunks|
      invariant 0 <= i <= |chunks|
      invariant qc.Valid()
      invariant qc.entries == Put(entries0, key, Messages(Streamed(base, id, chunks[..i])))
      invariant qc.stale == if i == 0 then old(qc.stale) else old(qc.stale) - {key}
      invariant Lookup(qc.entries, key).messages[|base| - 1].content == placeholder.content + Concat(chunks[..i])
      invariant Concat(chunks[..i]) <= Concat(chunks)
    {
      var chunk := chunks[i];
      ghost var current := Streamed(base, id, chunks[..i]);
      assert Lookup(qc.entries, key) == Messages(current);
      qc.UpdateQueryData(key, v => AddChunk(v, id, chunk));
      StreamStep(entries0, key, base, id, chunks, i);
      i := i + 1;
      StreamedLast(withUser, placeholder, chunks[..i]);
      ConcatPrefix(chunks, i, |chunks|);
      assert chunks[..|chunks|] == chunks;
    }
    assert chunks[..i] == chunks;
  }

  /** `mutationFn` and `onError` of the send: append the user's message,
      check the reply, append the assistant placeholder, append each chunk to
      it; on any failure, invalidate the thread instead of rolling back. */
  method SendMessage(qc: QueryClient, postId: string, query: string, st: Stamps, reply: Reply)
    returns (result: SendResult)
    requires qc.Valid()
    requires postId != "" && !IsBlank(query)
    modifies qc
    ensures qc.Valid()
    ensures result == SendOutcome(reply)
    ensures qc.entries ==
      Put(old(qc.entries), ChatKey(postId), Messages(Thread(old(Lookup(qc.entries, ChatKey(postId))), query, st, reply)))
    ensures result.Failed? ==>
      qc.stale == old(qc.stale) - {ChatKey(postId)} + KeysMatching(qc.entries, ChatKey(postId))
      && ChatKey(postId) in qc.stale
    ensures result == Sent ==> qc.stale == old(qc.stale) - {ChatKey(postId)}
  {
    var key := ChatKey(postId);
    ghost var entries0 := qc.entries;
    ghost var prior := Lookup(entries0, key);
    var user := UserMessage(query, st);
    qc.UpdateQueryData(key, v => AppendMessage(v, user));
    ghost var withUser := PriorMessages(prior) + [user];
    assert qc.entries == Put(entries0, key, Messages(withUser));

    if reply.TransportError? || reply.status != 200 || reply.body.None? {
      result := SendOutcome(reply);
      qc.InvalidateQueries(key);
      return;
    }

    var body := reply.body.value;
    var id := st.assistantId;
    var placeholder := Placeholder(st);
    qc.UpdateQueryData(key, v => AppendMessage(v, placeholder));
    PutPut(entries0, key, Messages(withUser), Messages(withUser + [placeholder]));
    StreamIntoPlaceholder(qc, key, withUser, placeholder, body.chunks, entries0);

    if body.end.ReadError? {
      result := Failed(ReadFailed);
      qc.InvalidateQueries(key);
    } else {
      result := Sent;
    }
  }

  /** The send handler of the chat dialog: blank input or a missing or empty
      document id (`!pdfId`) returns before anything happens; otherwise the
      trimmed input is sent. */
  method HandleSendMessage(qc: QueryClient, inputValue: string, pdfId: Option<string>, st: Stamps, reply: Reply)
    returns (result: Option<SendResult>)
    requires qc.Valid()
    modifies qc
    ensures qc.Valid()
    ensures Trim(inputValue) == "" || DialogPostId(pdfId) == "" ==> result == None && unchanged(qc)
    ensures Trim(inputValue) != "" && DialogPostId(pdfId) != "" ==>
      result == Some(SendOutcome(reply))
      && qc.entries == Put(old(qc.entries), ChatKey(DialogPostId(pdfId)),
                           Messages(Thread(old(Lookup(qc.entries, ChatKey(DialogPostId(pdfId)))), Trim(inputValue), st, reply)))
    ensures Trim(inputValue) != "" && DialogPostId(pdfId) != "" && SendOutcome(reply).Failed? ==>
      qc.stale == old(qc.stale) - {ChatKey(DialogPostId(pdfId))} + KeysMatching(qc.entries, ChatKey(DialogPostId(pdfId)))
      && ChatKey(DialogPostId(pdfId)) in qc.stale
    ensures Trim(inputValue) != "" && DialogPostId(pdfId) != "" && SendOutcome(reply) == Sent ==>
      qc.stale == old(qc.stale) - {ChatKey(DialogPostId(pdfId))}
  {
    if Trim(inputValue) == "" || DialogPostId(pdfId) == "" {
      return None;
    }
    TrimmedNotBlank(inputValue);
    var r := SendMessage(qc, DialogPostId(pdfId), Trim(inputValue), st, reply);
    return Some(r);
  }
}
