/** The per-user conversation state the bot keeps in its in-memory FSM
    storage: an optional state name and a data dictionary whose only key
    the bot ever writes is `faq_options`. */
module Fsm {
  import opened Wrappers
  import opened Models

  /** No state has been set, or the user was shown a list of candidates. */
  datatype FsmState = NoState | AwaitingClarification

  /** A key of a Python dictionary: an `int` and a `str` are never equal,
      whatever their text. */
  datatype PyKey = PyInt(i: int) | PyStr(s: string)

  /** The FSM data dictionary; `faqOptions` is None while the
      `faq_options` key has never been written. */
  datatype FsmData = FsmData(faqOptions: Option<map<PyKey, string>>)

  /** The stored options dictionary, FAQ id to question, built from the
      candidates in order, so a later candidate with the same id overrides
      an earlier one. Its keys are exactly the candidates' ids as integers. */
  function OptionsOf(faqs: seq<Faq>): (m: map<PyKey, string>)
    ensures m.Keys == set i | 0 <= i < |faqs| :: PyInt(faqs[i].id)
    ensures forall i :: 0 <= i < |faqs| ==> PyInt(faqs[i].id) in m
    ensures forall k :: k in m ==> k.PyInt?
    decreases |faqs|
  {
    if |faqs| == 0 then map[]
    else
      var init := faqs[..|faqs| - 1];
      var last := faqs[|faqs| - 1];
      var m := OptionsOf(init)[PyInt(last.id) := last.question];
      m
  }

  /** A candidate whose id no later candidate repeats keeps its own
      question under its id. */
  lemma {:induction false} OptionsOfLastWins(faqs: seq<Faq>, i: nat)
    requires i < |faqs|
    requires forall j :: i < j < |faqs| ==> faqs[j].id != faqs[i].id
    ensures OptionsOf(faqs)[PyInt(faqs[i].id)] == faqs[i].question
    decreases |faqs|
  {
    if i < |faqs| - 1 {
      var init := faqs[..|faqs| - 1];
      assert init[i] == faqs[i];
      OptionsOfLastWins(init, i);
    }
  }

  /** The invariant the bot's own writes keep: every stored option key is
      an integer FAQ id. */
  predicate WellKeyed(data: FsmData)
  {
    data.faqOptions.Some? ==> forall k :: k in data.faqOptions.value ==> k.PyInt?
  }

  /** `data['faq_options'][text]`; None where Python raises `KeyError`,
      because the key was never written or the text is not a stored key. */
  function LookupOption(data: FsmData, text: string): (r: Option<string>)
    ensures r.Some? <==> data.faqOptions.Some? && PyStr(text) in data.faqOptions.value
    ensures r.Some? ==> r.value == data.faqOptions.value[PyStr(text)]
  {
    match data.faqOptions
    case None => None
    case Some(options) => if PyStr(text) in options then Some(options[PyStr(text)]) else None
  }

  /** While the options are keyed by FAQ id, looking them up with the text
      of a message always fails. */
  lemma TextNeverMatchesStoredOptions(data: FsmData, text: string)
    requires WellKeyed(data)
    ensures LookupOption(data, text) == None
  {
  }
}
