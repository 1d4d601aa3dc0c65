/** The text-message handler as one transition: from the incoming message,
    the user's FSM state and data, and what the searches, the database and
    the fallback return, to the messages sent, the new FSM state and data,
    and the records created. */
module Handler {
  import opened Wrappers
  import opened PyText
  import opened Models
  import opened Presentation
  import opened Fsm
  import opened Completion

  const StartCommand: string := "/start"
  const Greeting: string := "Привет! Чем могу помочь?"
  const CandidatesIntro: string := "Я нашел несколько вариантов:\n\n"
  const ChoosePrompt: string := "Выберите один или несколько вариантов:"
  const DelayNotice: string := "Произошла задержка при получении ответа. Пожалуйста, попробуйте позже."
  const GenericError: string := "Произошла ошибка при обработке вашего запроса."

  /** An incoming text message. */
  datatype Message = Message(userId: int, text: string)

  /** A message the bot sends: plain text, or text with an inline keyboard. */
  datatype Outgoing = Text(text: string) | WithKeyboard(text: string, rows: seq<seq<Button>>)

  /** A row the bot inserts into the database. */
  datatype Record = CreatedQuery(query: UserQuery) | CreatedLearning(learning: FaqLearning)

  /** Everything the handler reads from outside:
      - `exact`: the substring lookup, the first matching FAQ's answer or None;
      - `ranked`: the full-text candidates for the message, already filtered
        and ordered by rank;
      - `previous`: the user's most recent turn, read before searching;
      - `fallback`: the generative fallback for a query, a reply or a timeout. */
  datatype Env = Env(
    exact: string -> Option<string>,
    ranked: seq<Faq>,
    previous: Option<UserQuery>,
    fallback: string -> Fallback)

  /** The effect of handling one message. */
  datatype Step = Step(sent: seq<Outgoing>, state: FsmState, data: FsmData, created: seq<Record>)

  /** The fallback branch for `query`, after the messages `before` were
      already sent: on a reply, send it and record a parentless turn and a
      learning entry; on a timeout, send the delay notice and record nothing. */
  function Escalate(userId: int, query: string, before: seq<Outgoing>, state: FsmState, data: FsmData, outcome: Fallback): Step
  {
    match outcome
    case TimedOut => Step(before + [Text(DelayNotice)], state, data, [])
    case Replied(answer) =>
      Step(before + [Text(answer)], state, data,
           [CreatedQuery(NewTurn(userId, query, answer, None)), CreatedLearning(FaqLearning(query, answer))])
  }

  /** Creating a turn with a parent, then continuing with `onSuccess`. When
      the schema lacks the `parent` field the creation raises TypeError and
      `onFailure` runs instead. */
  function RecordWithParent(parentDeclared: bool, onSuccess: Step, onFailure: Step): Step
  {
    if parentDeclared then onSuccess else onFailure
  }

  /** What every run of the handler keeps, whichever schema it runs
      against: it never clears the state, and changes the data only while
      setting the clarification state; options keyed by FAQ id stay so, and
      then every message gets a reply; it creates at most two records, every
      turn for the sender and not escalated, and a learning entry only
      second, after a parentless turn with the same question and answer. */
  predicate KeepsInvariants(msg: Message, state: FsmState, data: FsmData, r: Step)
  {
    && (r.state == state || r.state == AwaitingClarification)
    && (r.data != data ==> r.state == AwaitingClarification)
    && (WellKeyed(data) ==> WellKeyed(r.data))
    && (WellKeyed(data) ==> |r.sent| >= 1)
    && |r.created| <= 2
    && (forall i :: 0 <= i < |r.created| && r.created[i].CreatedQuery? ==>
          && r.created[i].query.userId == msg.userId
          && !r.created[i].query.escalatedToHuman)
    && (forall i :: 0 <= i < |r.created| && r.created[i].CreatedLearning? ==>
          && i == 1
          && r.created[0] == CreatedQuery(NewTurn(msg.userId, r.created[1].learning.question,
                                                  r.created[1].learning.answer, None)))
  }

  /** `handle_message`. The FSM state is passed through unread; only the
      candidate branch writes the state and the data. `parentDeclared` says
      whether UserQuery has the `parent` field the handler fills in. */
  function Handle(parentDeclared: bool, msg: Message, state: FsmState, data: FsmData, env: Env): (r: Step)
    ensures KeepsInvariants(msg, state, data, r)
    ensures !parentDeclared ==>
      forall i :: 0 <= i < |r.created| && r.created[i].CreatedQuery? ==> r.created[i].query.parent == None
  {
    if msg.text == StartCommand then
      Step([Text(Greeting)], state, data, [])
    else
      var answer := env.exact(msg.text);
      if Truthy(answer) then
        RecordWithParent(parentDeclared,
          Step([Text(answer.value)], state, data,
               [CreatedQuery(NewTurn(msg.userId, msg.text, answer.value, env.previous))]),
          // the TypeError reaches the outer handler after the answer was sent
          Step([Text(answer.value), Text(GenericError)], state, data, []))
      else if |env.ranked| > 0 then
        Step([Text(CandidatesIntro + FormatFaqList(env.ranked)),
              WithKeyboard(ChoosePrompt, GroupRows(Buttons(env.ranked)))],
             AwaitingClarification, data.(faqOptions := Some(OptionsOf(env.ranked))), [])
      else
        match LookupOption(data, msg.text)
        case None => Escalate(msg.userId, msg.text, [], state, data, env.fallback(msg.text))
        case Some(question) =>
          var again := env.exact(question);
          if !Truthy(again) then Step([], state, data, [])
          else
            RecordWithParent(parentDeclared,
              Step([Text(again.value)], state, data,
                   [CreatedQuery(NewTurn(msg.userId, question, again.value, env.previous))]),
              // the TypeError is caught by the inner handler, which escalates
              // the looked-up question
              Escalate(msg.userId, question, [Text(again.value)], state, data, env.fallback(question)))
  }

  /** The handler with the `parent` field present in the schema; the rest
      of the model uses it. */
  function HandleMessage(msg: Message, state: FsmState, data: FsmData, env: Env): (r: Step)
    ensures KeepsInvariants(msg, state, data, r)
  {
    Handle(true, msg, state, data, env)
  }

  /** The handler as the source runs against the schema without `parent`:
      it keeps the same invariants, and no turn it records has a parent. */
  function HandleMessageAsWritten(msg: Message, state: FsmState, data: FsmData, env: Env): (r: Step)
    ensures KeepsInvariants(msg, state, data, r)
    ensures forall i :: 0 <= i < |r.created| && r.created[i].CreatedQuery? ==>
      r.created[i].query.parent == None
  {
    Handle(false, msg, state, data, env)
  }

  /** The two schemas only make a difference on an exact match: for
      `/start`, for candidates and for the fallback, while the options are
      keyed by FAQ id, the code as written does what the corrected handler
      does. */
  lemma AsWrittenAgreesOffExactMatch(msg: Message, state: FsmState, data: FsmData, env: Env)
    requires WellKeyed(data)
    requires msg.text == StartCommand || !Truthy(env.exact(msg.text))
    ensures HandleMessageAsWritten(msg, state, data, env) == HandleMessage(msg, state, data, env)
  {
  }

  /** `/start` only greets: no record, state and data untouched. */
  lemma StartOnlyGreets(msg: Message, state: FsmState, data: FsmData, env: Env)
    requires msg.text == StartCommand
    ensures HandleMessage(msg, state, data, env) == Step([Text(Greeting)], state, data, [])
  {
  }

  /** A truthy substring-lookup answer is the reply, whatever the ranked
      search found; one turn is recorded with the message text, that answer
      and the previous turn as parent. */
  lemma ExactMatchWins(msg: Message, state: FsmState, data: FsmData, env: Env, otherRanked: seq<Faq>)
    requires msg.text != StartCommand
    requires Truthy(env.exact(msg.text))
    ensures var answer := env.exact(msg.text).value;
      HandleMessage(msg, state, data, env)
        == Step([Text(answer)], state, data, [CreatedQuery(NewTurn(msg.userId, msg.text, answer, env.previous))])
    ensures HandleMessage(msg, state, data, env) == HandleMessage(msg, state, data, env.(ranked := otherRanked))
  {
  }

  /** Without a truthy exact answer, any non-empty candidate list (even a
      single candidate) is shown as a numbered list with a keyboard of
      numbered buttons in rows of at most three, the options are stored as
      id to question, the clarification state is set, and nothing is
      recorded. */
  lemma CandidatesAreListed(msg: Message, state: FsmState, data: FsmData, env: Env)
    requires msg.text != StartCommand
    requires !Truthy(env.exact(msg.text))
    requires |env.ranked| >= 1
    ensures var r := HandleMessage(msg, state, data, env);
      && r.sent == [Text(CandidatesIntro + FormatFaqList(env.ranked)),
                    WithKeyboard(ChoosePrompt, GroupRows(Buttons(env.ranked)))]
      && r.state == AwaitingClarification
      && r.data == FsmData(Some(OptionsOf(env.ranked)))
      && r.created == []
    ensures SingleLineQuestions(env.ranked) ==>
      var lines := Split(FormatFaqList(env.ranked), '\n');
      && |lines| == |env.ranked|
      && forall i :: 0 <= i < |lines| ==> lines[i] == NatToString(i + 1) + ". " + env.ranked[i].question
  {
    if SingleLineQuestions(env.ranked) {
      FormatFaqListLines(env.ranked);
    }
  }

  /** With both searches empty and no stored option under the text, a
      fallback reply is sent and recorded as a parentless, non-escalated
      turn plus a learning entry with the same question and answer. */
  lemma FallbackReplyIsRecorded(msg: Message, state: FsmState, data: FsmData, env: Env, answer: string)
    requires msg.text != StartCommand
    requires !Truthy(env.exact(msg.text)) && env.ranked == []
    requires LookupOption(data, msg.text) == None
    requires env.fallback(msg.text) == Replied(answer)
    ensures HandleMessage(msg, state, data, env)
         == Step([Text(answer)], state, data,
                 [CreatedQuery(NewTurn(msg.userId, msg.text, answer, None)),
                  CreatedLearning(FaqLearning(msg.text, answer))])
  {
  }

  /** A fallback timeout sends only the delay notice and records nothing. */
  lemma FallbackTimeoutRecordsNothing(msg: Message, state: FsmState, data: FsmData, env: Env)
    requires msg.text != StartCommand
    requires !Truthy(env.exact(msg.text)) && env.ranked == []
    requires LookupOption(data, msg.text) == None
    requires env.fallback(msg.text) == TimedOut
    ensures HandleMessage(msg, state, data, env) == Step([Text(DelayNotice)], state, data, [])
  {
  }

  /** While the options are keyed by FAQ id (as the handler stores them),
      a message that both searches miss always goes to the fallback: typing
      a shown number or id never selects a stored option. */
  lemma MissedMessageAlwaysEscalates(msg: Message, state: FsmState, data: FsmData, env: Env)
    requires WellKeyed(data)
    requires msg.text != StartCommand
    requires !Truthy(env.exact(msg.text)) && env.ranked == []
    ensures HandleMessage(msg, state, data, env)
         == Escalate(msg.userId, msg.text, [], state, data, env.fallback(msg.text))
  {
    TextNeverMatchesStoredOptions(data, msg.text);
  }

  /** The handler never reads the FSM state: two runs that differ only in
      the state send the same messages, store the same data and create the
      same records. */
  lemma StateIsNotConsulted(msg: Message, s1: FsmState, s2: FsmState, data: FsmData, env: Env)
    ensures HandleMessage(msg, s1, data, env).sent == HandleMessage(msg, s2, data, env).sent
    ensures HandleMessage(msg, s1, data, env).data == HandleMessage(msg, s2, data, env).data
    ensures HandleMessage(msg, s1, data, env).created == HandleMessage(msg, s2, data, env).created
  {
  }

  /** The state and data after handling the messages in order, each with
      what the outside world returned for it. */
  function Run(parentDeclared: bool, state: FsmState, data: FsmData, msgs: seq<Message>, envs: seq<Env>): (FsmState, FsmData)
    requires |msgs| == |envs|
    decreases |msgs|
  {
    if |msgs| == 0 then (state, data)
    else
      var step := Handle(parentDeclared, msgs[0], state, data, envs[0]);
      Run(parentDeclared, step.state, step.data, msgs[1..], envs[1..])
  }

  /** Over any conversation whose options start keyed by FAQ id (a new
      user's data has no options at all), under either schema, the stored
      options stay keyed by FAQ id, and once the clarification state is set
      no text message clears it. */
  lemma {:induction false} RunKeepsOptionsKeyedById(
    parentDeclared: bool, state: FsmState, data: FsmData, msgs: seq<Message>, envs: seq<Env>)
    requires |msgs| == |envs|
    requires WellKeyed(data)
    ensures WellKeyed(Run(parentDeclared, state, data, msgs, envs).1)
    ensures state == AwaitingClarification ==> Run(parentDeclared, state, data, msgs, envs).0 == AwaitingClarification
    decreases |msgs|
  {
    if |msgs| > 0 {
      var step := Handle(parentDeclared, msgs[0], state, data, envs[0]);
      RunKeepsOptionsKeyedById(parentDeclared, step.state, step.data, msgs[1..], envs[1..]);
    }
  }

  /** Against the schema without `parent`, a truthy substring-lookup answer
      is sent, then creating the turn raises and the generic error follows;
      no turn is recorded. */
  lemma AsWrittenExactMatchRecordsNothing(msg: Message, state: FsmState, data: FsmData, env: Env)
    requires msg.text != StartCommand
    requires Truthy(env.exact(msg.text))
    ensures HandleMessageAsWritten(msg, state, data, env)
         == Step([Text(env.exact(msg.text).value), Text(GenericError)], state, data, [])
  {
  }

  /** The fallback wired to the completion gateway: for each query, whether
      the call finished in time, the read of the user's history (which may
      fail) and the provider's answer to the request built from it. */
  function GatewayFallback(
    finishedInTime: string -> bool, assistantId: Option<string>, history: Result<seq<UserQuery>, string>,
    provider: seq<ChatMessage> -> ProviderCall): string -> Fallback
  {
    q => FallbackOutcome(finishedInTime(q), assistantId, history, q, provider)
  }

  /** With the fallback wired to the gateway, every turn and learning entry
      the handler records from a fallback reply carries a non-blank answer. */
  lemma GatewayRepliesAreNotBlank(
    parentDeclared: bool, msg: Message, state: FsmState, data: FsmData, env: Env,
    finishedInTime: string -> bool, assistantId: Option<string>, history: Result<seq<UserQuery>, string>,
    provider: seq<ChatMessage> -> ProviderCall)
    ensures var r := Handle(parentDeclared, msg, state, data,
                            env.(fallback := GatewayFallback(finishedInTime, assistantId, history, provider)));
      forall i :: 0 <= i < |r.created| && r.created[i].CreatedLearning? ==>
        && !IsBlank(r.created[i].learning.answer)
        && !IsBlank(r.created[0].query.response.value)
  {
  }
}
