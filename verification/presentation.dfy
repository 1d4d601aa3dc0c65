/** How a list of candidate FAQs is shown to the user: a numbered text list
    and an inline keyboard of numbered buttons, three to a row, whose
    callback data names the FAQ id. */
module Presentation {
  import opened Wrappers
  import opened PyText
  import opened Models

  /** The most buttons the bot puts in one keyboard row. */
  const RowWidth: nat := 3

  /** Prefix of the callback data of a candidate button. */
  const CallbackPrefix: string := "faq_"

  /** The `i`-th line of the candidate list (counting from zero). */
  function NumberedLine(i: nat, question: string): string
  {
    NatToString(i + 1) + ". " + question
  }

  /** The lines of the candidate list, in the order of `faqs`. */
  function NumberedLines(faqs: seq<Faq>): seq<string>
  {
    seq(|faqs|, i requires 0 <= i < |faqs| => NumberedLine(i, faqs[i].question))
  }

  /** The candidate list text: the numbered lines joined by newlines. */
  function FormatFaqList(faqs: seq<Faq>): string
  {
    Join("\n", NumberedLines(faqs))
  }

  /** No question spans more than one line. */
  predicate SingleLineQuestions(faqs: seq<Faq>)
  {
    forall i :: 0 <= i < |faqs| ==> '\n' !in faqs[i].question
  }

  /** Reading the candidate list back line by line gives, for every
      candidate in order, its number followed by its question. */
  lemma FormatFaqListLines(faqs: seq<Faq>)
    requires |faqs| >= 1
    requires SingleLineQuestions(faqs)
    ensures var lines := Split(FormatFaqList(faqs), '\n');
      && |lines| == |faqs|
      && forall i :: 0 <= i < |faqs| ==> lines[i] == NatToString(i + 1) + ". " + faqs[i].question
  {
    var lines := NumberedLines(faqs);
    forall i | 0 <= i < |lines| ensures '\n' !in lines[i] {
      assert lines[i] == NatToString(i + 1) + ". " + faqs[i].question;
    }
    SplitJoin(lines, '\n');
  }

  /** An inline keyboard button: a visible label and the data sent back
      when it is pressed. */
  datatype Button = Button(text: string, callbackData: string)

  /** The callback data of the button for FAQ `id`. */
  function CallbackData(id: FaqId): string
  {
    CallbackPrefix + NatToString(id)
  }

  /** One button per candidate, labelled with the candidate's list number. */
  function Buttons(faqs: seq<Faq>): seq<Button>
  {
    seq(|faqs|, i requires 0 <= i < |faqs| => Button(NatToString(i + 1), CallbackData(faqs[i].id)))
  }

  /** Button `i` is labelled with the number of the `i`-th candidate. */
  lemma ButtonLabels(faqs: seq<Faq>)
    ensures forall i :: 0 <= i < |faqs| ==> Buttons(faqs)[i].text == NatToString(i + 1)
    ensures forall i :: 0 <= i < |faqs| ==> Buttons(faqs)[i].callbackData == CallbackData(faqs[i].id)
  {
  }

  /** Each button's label is the number that starts its candidate's line in
      the list text. */
  lemma ButtonsMatchListLines(faqs: seq<Faq>)
    requires |faqs| >= 1
    requires SingleLineQuestions(faqs)
    ensures |Split(FormatFaqList(faqs), '\n')| == |Buttons(faqs)|
    ensures forall i :: 0 <= i < |faqs| ==>
      Split(FormatFaqList(faqs), '\n')[i] == Buttons(faqs)[i].text + ". " + faqs[i].question
  {
    FormatFaqListLines(faqs);
    ButtonLabels(faqs);
  }

  /** Every label reads back as its one-based position, so distinct buttons
      carry distinct labels. */
  lemma ButtonLabelsReadBack(faqs: seq<Faq>)
    ensures forall i :: 0 <= i < |faqs| ==> ParseInt(Buttons(faqs)[i].text) == Some(i + 1)
    ensures forall i, j :: 0 <= i < j < |faqs| ==> Buttons(faqs)[i].text != Buttons(faqs)[j].text
  {
    var buttons := Buttons(faqs);
    ButtonLabels(faqs);
    forall i | 0 <= i < |faqs| ensures ParseInt(buttons[i].text) == Some(i + 1) {
      ParseIntOfNatToString(i + 1);
    }
    forall i, j | 0 <= i < j < |faqs| ensures buttons[i].text != buttons[j].text {
      NatToStringInjective(i + 1, j + 1);
    }
  }

  /** The rows concatenated in order. */
  function Flatten<T>(rows: seq<seq<T>>): seq<T>
  {
    if |rows| == 0 then [] else rows[0] + Flatten(rows[1..])
  }

  /** The buttons grouped into keyboard rows: reading the rows in order
      gives the buttons back, no row is empty or holds more than three, and
      only the last row may hold fewer than three. */
  function GroupRows<T>(items: seq<T>): (rows: seq<seq<T>>)
    ensures Flatten(rows) == items
    ensures forall r :: 0 <= r < |rows| ==> 1 <= |rows[r]| <= RowWidth
    ensures forall r :: 0 <= r < |rows| - 1 ==> |rows[r]| == RowWidth
    decreases |items|
  {
    if |items| == 0 then []
    else if |items| <= RowWidth then [items]
    else
      var rows := [items[..RowWidth]] + GroupRows(items[RowWidth..]);
      assert rows[1..] == GroupRows(items[RowWidth..]);
      assert items == items[..RowWidth] + items[RowWidth..];
      rows
  }

  /** One step of the grouping loop: the rows from position `i` on are
      the slice `items[i:i + 3]` followed by the rows after it. */
  lemma GroupRowsFrom<T>(items: seq<T>, i: nat)
    requires i < |items|
    ensures GroupRows(items[i..])
         == [items[i..Min(i + RowWidth, |items|)]] + GroupRows(items[Min(i + RowWidth, |items|)..])
  {
    var rest := items[i..];
    if |rest| <= RowWidth {
      assert items[i..Min(i + RowWidth, |items|)] == rest;
      assert items[Min(i + RowWidth, |items|)..] == [];
    } else {
      assert items[i..Min(i + RowWidth, |items|)] == rest[..RowWidth];
      assert items[Min(i + RowWidth, |items|)..] == rest[RowWidth..];
    }
  }

  /** The loop invariant survives appending one more slice. */
  lemma GroupRowsAppend<T>(items: seq<T>, rows: seq<seq<T>>, i: nat)
    requires i < |items|
    requires GroupRows(items) == rows + GroupRows(items[i..])
    ensures GroupRows(items)
         == (rows + [items[i..Min(i + RowWidth, |items|)]]) + GroupRows(items[Min(i + RowWidth, |items|)..])
  {
    GroupRowsFrom(items, i);
  }

  /** The grouping loop as the bot writes it: for every `i` in
      `range(0, len(items), 3)` append the slice `items[i:i + 3]`. */
  method GroupRowsLoop<T>(items: seq<T>) returns (rows: seq<seq<T>>)
    ensures rows == GroupRows(items)
  {
    rows := [];
    var i := 0;
    while i < |items|
      invariant 0 <= i < |items| + RowWidth
      invariant GroupRows(items) == rows + GroupRows(items[Min(i, |items|)..])
      decreases |items| - i
    {
      GroupRowsAppend(items, rows, i);
      rows := rows + [items[i..Min(i + RowWidth, |items|)]];
      i := i + RowWidth;
    }
    assert items[Min(i, |items|)..] == [];
  }
}
