# Dexnet support bot: query resolution, as a Dafny model

The bot answers Telegram users from a curated FAQ. Its text handler
(`handle_message` in `chatbot/bots.py`) works in four steps:

1. It greets on `/start`.
2. Otherwise it sends the answer of the first FAQ whose question contains the message.
3. Failing that, it shows the full-text search candidates as a numbered list with a keyboard of numbered buttons. It stores the candidates in the user's FSM data and sets the `awaiting_clarification` state.
4. Failing that, it asks a generative model for an answer. That answer is recorded as a `UserQuery` turn and as a `FAQLearning` entry for curation.

A button press (`process_faq_selection`) parses the FAQ id from the callback data and replies with that FAQ's answer.

The model is functional. Everything the handler reads from outside is an input:

- the substring lookup, as a function from text to an optional answer;
- the ranked candidate list;
- the previous turn;
- the fallback outcome, as a function from query to reply-or-timeout.

One pure function maps those inputs, the FSM state and data to three things:

- the messages sent;
- the new FSM state and data;
- the records created.

Files, one module each:

- `wrappers.dfy`: `Option` and `Result`.
- `pytext.dfy`: the Python string operations the bot relies on: `join`, `split`, `strip`, `str(n)`, `int(s)`. Includes the round-trip lemmas.
- `models.dfy`: the `FAQ`, `UserQuery` and `FAQLearning` records.
- `presentation.dfy`: the numbered list, the buttons, their callback data and the grouping into rows of three.
- `fsm.dfy`: the FSM state, the options dictionary and its lookup.
- `selection.dfy`: the button handler.
- `completion.dfy`: the request context, the stream concatenation and the reply text of the generative fallback.
- `handler.dfy`: the text-message transition and its properties.

What the code does, as proved:

- The handler never reads the FSM state, and it never clears it.
- The options are stored keyed by integer FAQ id but looked up with the message text. A Python `int` key never equals a `str` key, so `PyKey` keeps the two apart.
- As long as the handler itself writes the options, the lookup always fails. A message that both searches miss therefore always goes to the fallback (`Handler.MissedMessageAlwaysEscalates`, `Handler.RunKeepsOptionsKeyedById`).
- The model also contains the lookup branch. The code has it but this data can never reach it.
- Empty answers count as false, as in Python.
- A single candidate is still shown as a list; it is not answered directly.
- The fallback turn keeps `escalated_to_human` at its default False.
- A button press records nothing.
- The request to the model carries two system messages:
  1. the assistant-id message;
  2. the base instruction.

  Then come at most five recent turns, oldest first, and the query last.

Behaviour a reader might expect of a clarification flow but that the code
does not have, all modelled as the code has it:

- The state is never reset: the only clearing call is commented out
  (chatbot/bots.py:142).
- A single candidate is listed like several: the branch tests only that
  the list is non-empty (chatbot/bots.py:80).
- Typing a shown number or id never selects an option: the options are
  stored under integer ids (chatbot/bots.py:103) and looked up with the
  message text (chatbot/bots.py:109).
- Fallback turns keep `escalated_to_human` at its default False
  (chatbot/bots.py:119-121, chatbot/models.py:19).
- A button press only replies; it records no turn (chatbot/bots.py:136-139).
- The request carries two system messages: the base instruction
  (chatbot/bots.py:167) and the assistant-id message put in front
  (chatbot/bots.py:184-188).

## Model

| member | source | states |
|---|---|---|
| PyText.Split | chatbot/bots.py:136 | `split('_')` always returns at least one piece; joining the pieces with the separator gives the input back; no piece holds the separator |
| PyText.SplitJoin | chatbot/bots.py:54 | reading a newline-joined list back by splitting recovers the lines, when there is at least one line and none holds a newline |
| PyText.StripLeft | chatbot/bots.py:212 | `strip` drops only leading whitespace and leaves a suffix that does not start with whitespace |
| PyText.StripRight | chatbot/bots.py:212 | `strip` drops only trailing whitespace and leaves a prefix that does not end with whitespace |
| PyText.StripEmptyIffBlank | chatbot/bots.py:212 | `not text.strip()` holds exactly when every character is Python whitespace |
| PyText.NatToString | chatbot/bots.py:89 | `str(n)` is a non-empty run of decimal digits with no leading zero unless n is 0 |
| PyText.DigitsValueOfNatToString | chatbot/bots.py:89 | the decimal spelling of n has value n |
| PyText.ParseIntOfNatToString | chatbot/bots.py:136 | `int(str(n)) == n` for every natural n |
| PyText.NatToStringInjective | chatbot/bots.py:89 | distinct numbers get distinct labels |
| Presentation.FormatFaqListLines | chatbot/bots.py:53-54 | the candidate list splits into one line per candidate, in order, line i being `i+1`, `. ` and the question |
| Presentation.ButtonsMatchListLines | chatbot/bots.py:53-91 | each button's label is the number that starts its candidate's line in the list text |
| Presentation.ButtonLabelsReadBack | chatbot/bots.py:89 | every label reads back as its one-based position; labels are pairwise distinct |
| Presentation.GroupRows | chatbot/bots.py:94-95 | the rows flattened give the buttons in order; every row holds 1 to 3 buttons; all but the last hold exactly 3 |
| Presentation.GroupRowsFrom | chatbot/bots.py:94-95 | the rows from position i are the slice `[i:i+3]` followed by the rows after it |
| Presentation.GroupRowsAppend | chatbot/bots.py:94-95 | appending the next slice keeps the rows built so far a prefix of the full grouping |
| Presentation.GroupRowsLoop | chatbot/bots.py:94-95 | the `range(0, len, 3)` slicing loop builds exactly the grouping above |
| Fsm.OptionsOf | chatbot/bots.py:103 | the stored options' keys are exactly the candidates' ids, all of them integers |
| Fsm.OptionsOfLastWins | chatbot/bots.py:103 | a candidate whose id no later candidate repeats is stored with its own question |
| Fsm.LookupOption | chatbot/bots.py:107-109 | the lookup succeeds exactly when `faq_options` was written and holds the text as a key, and then returns the question stored under it |
| Fsm.TextNeverMatchesStoredOptions | chatbot/bots.py:103-109 | with id-keyed options, looking up any message text fails |
| Selection.ParseFaqIdOfCallbackData | chatbot/bots.py:136 | parsing `faq_{id}` by splitting on `_` and taking piece 1 recovers id |
| Selection.ProcessFaqSelection | chatbot/bots.py:134-142 | runs only in the clarification state; answers exactly when the data parses to an existing FAQ id, with that FAQ's answer; the state is unchanged |
| Selection.PressingButtonAnswersItsCandidate | chatbot/bots.py:134-139 | pressing candidate i's button replies with candidate i's answer |
| Completion.ChronologicalEntries | chatbot/bots.py:168-170 | each turn contributes two entries |
| Completion.ChronologicalEntriesAt | chatbot/bots.py:165-171 | entries 2k and 2k+1 are the user query and the response of the k-th oldest turn; none is a system message |
| Completion.RequestShape | chatbot/bots.py:180-188 | the request has length 3 + 2·min(5, n): the assistant-id message, the base instruction, the turns oldest first, then the query; no other system messages |
| Completion.ConsumeStream | chatbot/bots.py:198-209 | the stream loop fails with IndexError exactly when a chunk has no choices; otherwise its text is all truthy contents in order, chunks without a delta skipped |
| Completion.ErrorReply | chatbot/bots.py:218-221 | the apology is never blank |
| Completion.ReplyText | chatbot/bots.py:198-221 | the reply is the streamed text if it is not blank, the fixed warning if it is, and the apology with the error text if anything raised; it is never blank |
| Completion.GetChatGptResponse | chatbot/bots.py:158-221 | the fallback reply is never blank; a failing read of the user's history inside the `try` gives the apology with the error text and makes no provider call; a successful read sends the request built from that history |
| Completion.FallbackOutcome | chatbot/bots.py:117 | a reply comes exactly when the call finished in time, and is never blank |
| Handler.Handle | chatbot/bots.py:59-129 | under either schema: the state is never cleared; data changes only along with setting the clarification state; id-keyed options stay id-keyed and every message then gets a reply; at most two records, every turn for the sender and not escalated; a learning entry comes only second, after a parentless turn for the same question and answer; without the `parent` field no recorded turn has a parent |
| Handler.HandleMessage | chatbot/bots.py:59-129 | the handler with the `parent` field keeps all the invariants above |
| Handler.HandleMessageAsWritten | chatbot/bots.py:59-129 | the handler against the schema without `parent` keeps the same invariants, and no turn it records has a parent |
| Handler.AsWrittenAgreesOffExactMatch | chatbot/bots.py:63-126 | with id-keyed options, the code as written and the corrected handler agree on `/start`, on candidates and on the fallback; they differ only on an exact match |
| Handler.StartOnlyGreets | chatbot/bots.py:63-65 | `/start` sends only the greeting, records nothing, leaves state and data untouched |
| Handler.ExactMatchWins | chatbot/bots.py:67-78 | a truthy substring answer is the sole reply, and replacing the ranked list changes nothing; one turn with the text, that answer and the previous turn as parent is recorded |
| Handler.CandidatesAreListed | chatbot/bots.py:80-104 | a non-empty candidate list, even of one, sends the intro with the numbered list and then the prompt with all buttons grouped by `GroupRows`; the options become id to question; the state becomes awaiting_clarification; nothing is recorded; when no question spans lines, the list reads back as line i = `i+1`, `. `, question i |
| Handler.FallbackReplyIsRecorded | chatbot/bots.py:106-124 | when both searches miss and no option matches, the fallback reply is sent; one parentless, non-escalated turn and one learning entry with the same question and answer are recorded |
| Handler.FallbackTimeoutRecordsNothing | chatbot/bots.py:116-126 | on a timeout only the delay notice is sent and nothing is recorded |
| Handler.MissedMessageAlwaysEscalates | chatbot/bots.py:103-117 | with id-keyed options, a message both searches miss always takes the fallback branch |
| Handler.StateIsNotConsulted | chatbot/bots.py:59-129 | two runs differing only in the FSM state send, store and record the same |
| Handler.RunKeepsOptionsKeyedById | chatbot/bots.py:103-142 | under either schema, over any sequence of messages the options stay id-keyed, and the clarification state is never left |
| Handler.GatewayRepliesAreNotBlank | chatbot/bots.py:117-124 | with the fallback wired to the completion gateway, every turn and learning entry recorded from a fallback reply has a non-blank answer |
| Handler.AsWrittenExactMatchRecordsNothing | chatbot/bots.py:74-78 | against the schema without `parent`, an exact match sends the answer and then the generic error, and records nothing |

## Findings

| source | as written | input that shows it | evidently intended | confidence | as-written member | corrected member |
|---|---|---|---|---|---|---|
| chatbot/bots.py:76-78 | The turn is created with a `parent=` keyword. The `UserQuery` model in chatbot/models.py:13-19 has no such field, so Django raises TypeError. The outer handler catches it after the answer was sent and sends the generic error. No turn is stored. The same call at lines 113-115 falls into the inner handler, which escalates the looked-up question. | any message other than `/start` whose substring lookup returns a non-empty answer | the turn is stored with the user's previous turn as its parent | likely; not executed | Handler.AsWrittenExactMatchRecordsNothing | Handler.ExactMatchWins |

`Handler.Handle` takes a flag for whether the schema declares `parent`:

- `Handler.HandleMessageAsWritten` is the code run against the schema as declared. `Handler.AsWrittenAgreesOffExactMatch` shows that it differs from the corrected handler only on an exact match.
- `Handler.HandleMessage` assumes the field exists. The rest of the model uses it.

## Left out

- Bot and dispatcher setup, handler registration, polling and `start_bot` are left out; they are transport plumbing. Both registrations send a message to `handle_message` once, so one message is one transition.
- The Postgres full-text ranking, its 0.1 threshold and the `icontains` query run inside the database. The model takes the ranked list and the substring lookup as inputs.
- The OpenAI client and the network call become a provider function from the request to a finite chunk stream or an exception.
- The 15-second `asyncio.wait_for` timing becomes a finished-in-time input. Concurrent handling of several messages from one user is not modelled.
- Logging and the typing chat action are left out. They have no effect on the outcome.
- Timestamps (`created_at`) are left out. The most-recent-first order of the history is an input.
- Failures of Telegram sends, of the database lookups and of record creation are left out, except the missing `parent` field and a failing history read in the fallback (`Completion.GetChatGptResponse`). Such failures would end in one of three ways, none of which the model takes:
  - a failure of the greeting send (chatbot/bots.py:64), the read at chatbot/bots.py:67 or the typing action at chatbot/bots.py:68 comes before the `try` at chatbot/bots.py:70, so it leaves `handle_message` and the user gets no reply;
  - a failing send or create at chatbot/bots.py:112-115 is inside the inner `try` at chatbot/bots.py:108, so it goes to the fallback at chatbot/bots.py:116 with the looked-up question;
  - a failure at chatbot/bots.py:75-104 or chatbot/bots.py:117-124 reaches the generic error at chatbot/bots.py:127-129.
- Messages without text (photos, stickers) are not modelled; the message text is a string.
- `PyText.ParseInt` does not accept non-ASCII decimal digits or `_` digit separators as Python's `int` does. Callback data split on `_` never holds the latter.
- `UserQuery.user_id` is a `CharField`; the model stores the integer Telegram id.
- `FAQ.related_questions` and `UserQuery.faq_match` are mirrored in the records but not used by the bot.
- testt.py and the `run_bot` management command are not part of this model: a one-off script and a launcher.
