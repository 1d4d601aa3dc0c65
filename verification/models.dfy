/** The database records the bot reads and writes (the Django models FAQ,
    UserQuery and FAQLearning), as immutable values. Timestamps are left
    out: the bot only uses them to order a user's turns, and that ordering
    is an input of the model. */
module Models {
  import opened Wrappers

  /** Database ids are positive auto-increment integers; the type also
      admits 0, which the database never produces, so the lemmas cover it too. */
  type FaqId = nat

  /** A curated question with its answer and related entries. */
  datatype Faq = Faq(id: FaqId, question: string, answer: string, related: set<FaqId>)

  /** One recorded exchange with a user. `response` is nullable in the
      schema; `faqMatch` is never set by the bot; `parent` links a turn to
      the user's previous turn (see the README for the schema issue). */
  datatype UserQuery = UserQuery(
    userId: int,
    query: string,
    response: Option<string>,
    faqMatch: Option<FaqId>,
    escalatedToHuman: bool,
    parent: Option<UserQuery>)

  /** A question the knowledge base could not answer, with the generated
      answer, kept for later curation. */
  datatype FaqLearning = FaqLearning(question: string, answer: string)

  /** The UserQuery the bot creates: only user, query, response and
      possibly the parent are given, every other field keeps its default. */
  function NewTurn(userId: int, query: string, response: string, parent: Option<UserQuery>): (t: UserQuery)
    ensures t.userId == userId && t.query == query && t.response == Some(response)
    ensures t.parent == parent
    ensures t.faqMatch == None && !t.escalatedToHuman
  {
    UserQuery(userId, query, Some(response), None, false, parent)
  }
}
