/** The callback handler that runs when the user presses a candidate
    button: it parses the FAQ id out of the callback data and replies with
    that FAQ's answer. */
module Selection {
  import opened Wrappers
  import opened PyText
  import opened Models
  import opened Presentation
  import opened Fsm

  /** The Python exceptions the handler does not catch. */
  datatype SelectionError =
    | IndexError     // the data holds no `_`
    | ValueError     // the piece after the first `_` is not an integer
    | DoesNotExist   // no FAQ has the parsed id

  /** What happens to one button press. */
  datatype SelectionOutcome =
    | NotRouted                        // the state filter does not match
    | Raised(error: SelectionError)
    | Answered(text: string)

  /** The outcome together with the FSM state afterwards. */
  datatype SelectionStep = SelectionStep(outcome: SelectionOutcome, state: FsmState)

  /** `int(data.split('_')[1])`. */
  function ParseFaqId(data: string): Result<int, SelectionError>
  {
    var pieces := Split(data, '_');
    if |pieces| < 2 then Failure(IndexError)
    else match ParseInt(pieces[1])
      case None => Failure(ValueError)
      case Some(id) => Success(id)
  }

  /** The id of any FAQ survives the trip through its button's callback
      data. */
  lemma ParseFaqIdOfCallbackData(id: FaqId)
    ensures ParseFaqId(CallbackData(id)) == Success(id)
  {
    var digits := NatToString(id);
    assert '_' !in digits;
    assert CallbackData(id) == "faq" + ['_'] + digits;
    SplitAtFirstSeparator("faq", '_', digits);
    SplitWithoutSeparator(digits, '_');
    ParseIntOfNatToString(id);
  }

  /** The button handler. It only runs in the clarification state; it
      answers with the FAQ whose id the data names, whichever options were
      stored, creates no record, and leaves the state as it was. */
  function ProcessFaqSelection(state: FsmState, data: string, kb: map<int, Faq>): (r: SelectionStep)
    ensures r.state == state
    ensures r.outcome.NotRouted? <==> state != AwaitingClarification
    ensures r.outcome.Answered? <==>
      state == AwaitingClarification && ParseFaqId(data).Success? && ParseFaqId(data).value in kb
    ensures r.outcome.Answered? ==> r.outcome.text == kb[ParseFaqId(data).value].answer
  {
    if state != AwaitingClarification then SelectionStep(NotRouted, state)
    else match ParseFaqId(data)
      case Failure(e) => SelectionStep(Raised(e), state)
      case Success(id) =>
        if id in kb then SelectionStep(Answered(kb[id].answer), state)
        else SelectionStep(Raised(DoesNotExist), state)
  }

  /** Pressing the button of the `i`-th candidate, while the clarification
      state is set and the candidate is still stored under its id, replies
      with that candidate's answer. */
  lemma PressingButtonAnswersItsCandidate(faqs: seq<Faq>, i: nat, kb: map<int, Faq>)
    requires i < |faqs|
    requires faqs[i].id in kb && kb[faqs[i].id] == faqs[i]
    ensures ProcessFaqSelection(AwaitingClarification, Buttons(faqs)[i].callbackData, kb)
         == SelectionStep(Answered(faqs[i].answer), AwaitingClarification)
  {
    ButtonLabels(faqs);
    ParseFaqIdOfCallbackData(faqs[i].id);
  }
}
