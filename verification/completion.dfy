/** The generative fallback: the chat request built from the user's recent
    turns, and the reply text made from the streamed answer. The provider
    itself is a parameter: a function from the request to what the
    streaming call produced. */
module Completion {
  import opened Wrappers
  import opened PyText
  import opened Models

  /** How many of the user's most recent turns go into the request. */
  const ConversationLimit: nat := 5

  /** The fixed instruction that confines the assistant to the company's
      products. */
  const SystemPrompt: string :=
    "\nGPT должен отвечать только на те вопросы которые связаны с компанией Dexfreedom,Dexnet.one,Dexsafe,Dexcard,DexMobile,Dexnoda, \n"
    + "ты должен отвечать как консультант и искать максимально похожие вопросы у себя на базе и задавать уточняющие вопросы. \n"
    + "Все сторонние вопросы не должен отвечать ничего кроме \"Я не могу ответить на вопрос\".\n"

  const AssistantIdIntro: string := "Вы используете ассистента с ID: "
  const EmptyReplyWarning: string := "Ответ от ассистента пустой."
  const ApologyPrefix: string := "Извините, произошла ошибка: "
  const RequestErrorPrefix: string := "Ошибка при запросе к ассистенту "

  /** `str(e)` of the IndexError raised by `chunk.choices[0]` on a chunk
      without choices. */
  const IndexErrorText: string := "list index out of range"

  datatype Role = System | User | Assistant

  /** One entry of the request's message list; `content` is None where the
      bot sends Python's `None`. */
  datatype ChatMessage = ChatMessage(role: Role, content: Option<string>)

  /** The user's turns for the request, given all of them most recent
      first: at most five, the most recent ones. */
  function RecentTurns(history: seq<UserQuery>): (r: seq<UserQuery>)
    ensures |r| == Min(ConversationLimit, |history|)
    ensures r == history[..|r|]
  {
    history[..Min(ConversationLimit, |history|)]
  }

  /** The two entries one turn contributes: what the user asked, then what
      the bot replied. */
  function TurnEntries(turn: UserQuery): seq<ChatMessage>
  {
    [ChatMessage(User, Some(turn.query)), ChatMessage(Assistant, turn.response)]
  }

  /** The entries of turns given most recent first, emitted oldest first. */
  function ChronologicalEntries(turns: seq<UserQuery>): (r: seq<ChatMessage>)
    ensures |r| == 2 * |turns|
    decreases |turns|
  {
    if |turns| == 0 then [] else ChronologicalEntries(turns[1..]) + TurnEntries(turns[0])
  }

  /** Entry `2k` and `2k + 1` come from the `k`-th oldest turn, and no
      entry is a system message. */
  lemma {:induction false} ChronologicalEntriesAt(turns: seq<UserQuery>)
    ensures forall k :: 0 <= k < |turns| ==>
      && ChronologicalEntries(turns)[2 * k] == ChatMessage(User, Some(turns[|turns| - 1 - k].query))
      && ChronologicalEntries(turns)[2 * k + 1] == ChatMessage(Assistant, turns[|turns| - 1 - k].response)
    ensures forall j :: 0 <= j < 2 * |turns| ==> ChronologicalEntries(turns)[j].role != System
    decreases |turns|
  {
    if |turns| > 0 {
      ChronologicalEntriesAt(turns[1..]);
    }
  }

  /** `build_context`: the domain instruction, then the recent turns. */
  function BuildContext(history: seq<UserQuery>): seq<ChatMessage>
  {
    [ChatMessage(System, Some(SystemPrompt))] + ChronologicalEntries(RecentTurns(history))
  }

  /** `str(assistant_id)`, where the variable may be unset. */
  function AssistantIdText(assistantId: Option<string>): string
  {
    match assistantId
    case None => "None"
    case Some(id) => id
  }

  /** The system message naming the assistant. */
  function AssistantMessage(assistantId: Option<string>): ChatMessage
  {
    ChatMessage(System, Some(AssistantIdIntro + AssistantIdText(assistantId) + ". " + SystemPrompt))
  }

  /** The message list sent to the provider: the context with the query
      appended and the assistant message inserted in front. */
  function RequestMessages(assistantId: Option<string>, history: seq<UserQuery>, query: string): seq<ChatMessage>
  {
    [AssistantMessage(assistantId)] + (BuildContext(history) + [ChatMessage(User, Some(query))])
  }

  /** The request holds two system messages, then at most five recent turns
      oldest first, each as a user entry and an assistant entry, then the
      query; there are no other system messages. */
  lemma RequestShape(assistantId: Option<string>, history: seq<UserQuery>, query: string)
    ensures var r := RequestMessages(assistantId, history, query);
      var m := Min(ConversationLimit, |history|);
      && |r| == 3 + 2 * m
      && r[0] == AssistantMessage(assistantId)
      && r[1] == ChatMessage(System, Some(SystemPrompt))
      && (forall k :: 0 <= k < m ==>
            && r[2 + 2 * k] == ChatMessage(User, Some(history[m - 1 - k].query))
            && r[3 + 2 * k] == ChatMessage(Assistant, history[m - 1 - k].response))
      && r[|r| - 1] == ChatMessage(User, Some(query))
      && (forall j :: 2 <= j < |r| ==> r[j].role != System)
  {
    var recent := RecentTurns(history);
    ChronologicalEntriesAt(recent);
    var r := RequestMessages(assistantId, history, query);
    var entries := ChronologicalEntries(recent);
    assert r == [AssistantMessage(assistantId), ChatMessage(System, Some(SystemPrompt))]
              + entries + [ChatMessage(User, Some(query))];
    forall j | 2 <= j < 2 + |entries| ensures r[j] == entries[j - 2] { }
  }

  /** One item of the provider's stream: without choices (indexing raises
      IndexError), without a delta (attribute access raises AttributeError)
      or with a delta whose content may be None. */
  datatype Chunk = NoChoices | NoDelta | Delta(content: Option<string>)

  /** What the streaming call produced: a finite stream, or an exception
      from the client, with its `str(e)`. */
  datatype ProviderCall = Streamed(chunks: seq<Chunk>) | Raised(error: string)

  /** The text a chunk contributes when it is kept. */
  function Piece(c: Chunk): string
  {
    match c
    case Delta(Some(s)) => s
    case _ => ""
  }

  /** Reference definition: the truthy contents of the chunks, in order. */
  function TruthyText(chunks: seq<Chunk>): string
    decreases |chunks|
  {
    if |chunks| == 0 then "" else Piece(chunks[0]) + TruthyText(chunks[1..])
  }

  /** The `async for` loop: skip chunks without a delta, append truthy
      contents to `acc`, and stop with IndexError at a chunk without
      choices. The result is that error exactly when such a chunk occurs,
      and otherwise `acc` followed by all truthy contents in order. */
  function ConsumeStream(acc: string, chunks: seq<Chunk>): (r: Result<string, string>)
    ensures NoChoices in chunks ==> r == Failure(IndexErrorText)
    ensures NoChoices !in chunks ==> r == Success(acc + TruthyText(chunks))
    decreases |chunks|
  {
    if |chunks| == 0 then
      assert acc + TruthyText(chunks) == acc;
      Success(acc)
    else
      assert chunks == [chunks[0]] + chunks[1..];
      match chunks[0]
      case NoChoices => Failure(IndexErrorText)
      case NoDelta => assert TruthyText(chunks) == "" + TruthyText(chunks[1..]) == TruthyText(chunks[1..]);
        ConsumeStream(acc, chunks[1..])
      case Delta(content) =>
        var next := if Truthy(content) then acc + content.value else acc;
        assert next == acc + Piece(chunks[0]);
        assert acc + TruthyText(chunks) == next + TruthyText(chunks[1..]);
        ConsumeStream(next, chunks[1..])
  }

  /** The user-facing text for an exception inside the call. */
  function ErrorReply(assistantId: Option<string>, error: string): (r: string)
    ensures !IsBlank(r)
  {
    var r := ApologyPrefix + RequestErrorPrefix + AssistantIdText(assistantId) + ": " + error;
    assert !IsPyWhitespace(r[0]);
    r
  }

  /** The reply `get_chatgpt_response` returns for one provider call: the
      joined stream text if it is not blank, a fixed warning if it is, the
      apology with the error text if anything raised. It is never blank. */
  function ReplyText(assistantId: Option<string>, call: ProviderCall): (r: string)
    ensures !IsBlank(r)
    ensures call.Raised? ==> r == ErrorReply(assistantId, call.error)
    ensures call.Streamed? && NoChoices in call.chunks ==> r == ErrorReply(assistantId, IndexErrorText)
    ensures call.Streamed? && NoChoices !in call.chunks ==>
      r == if IsBlank(TruthyText(call.chunks)) then EmptyReplyWarning else TruthyText(call.chunks)
  {
    match call
    case Raised(e) => ErrorReply(assistantId, e)
    case Streamed(chunks) =>
      assert "" + TruthyText(chunks) == TruthyText(chunks);
      match ConsumeStream("", chunks)
      case Failure(e) => ErrorReply(assistantId, e)
      case Success(text) =>
        StripEmptyIffBlank(text);
        assert !IsPyWhitespace(EmptyReplyWarning[0]);
        if Strip(text) == "" then EmptyReplyWarning else text
  }

  /** `get_chatgpt_response(user_id, query)`: the user's history is read
      inside the `try`, so a failing read gives the same apology as a
      provider error and no request is made; otherwise the request built
      from the history goes to the provider and its answer becomes the
      reply. It is never blank. */
  function GetChatGptResponse(
    assistantId: Option<string>, history: Result<seq<UserQuery>, string>, query: string,
    provider: seq<ChatMessage> -> ProviderCall): (r: string)
    ensures !IsBlank(r)
    ensures history.Failure? ==> r == ErrorReply(assistantId, history.error)
    ensures history.Success? ==>
      r == ReplyText(assistantId, provider(RequestMessages(assistantId, history.value, query)))
  {
    match history
    case Failure(e) => ErrorReply(assistantId, e)
    case Success(turns) => ReplyText(assistantId, provider(RequestMessages(assistantId, turns, query)))
  }

  /** What `asyncio.wait_for(get_chatgpt_response(...), timeout=15.0)`
      yields: the reply, or a timeout. */
  datatype Fallback = Replied(text: string) | TimedOut

  /** The fallback outcome; whether the call finished within the timeout is
      an input, since the model has no clock. A reply is never blank. */
  function FallbackOutcome(
    finishedInTime: bool, assistantId: Option<string>, history: Result<seq<UserQuery>, string>, query: string,
    provider: seq<ChatMessage> -> ProviderCall): (f: Fallback)
    ensures f.Replied? <==> finishedInTime
    ensures f.Replied? ==> !IsBlank(f.text)
  {
    if finishedInTime then Replied(GetChatGptResponse(assistantId, history, query, provider)) else TimedOut
  }
}
