/** What the chat page sends and what the server then builds from it. */
module EndToEnd {
  import opened Seqs
  import opened Turns
  import opened ServerHistory
  import opened ChatClient

  /** The page's request history ends with the question it has just pushed. */
  lemma SentEndsWithQuestion(history: seq<Message>, id: string, question: string, now: string)
    ensures var sent := ApiHistory(history + [CreateMessage(id, "user", question, now, "", "")]);
            sent != [] && sent[|sent| - 1] == Turn("user", question)
  {
    var m := CreateMessage(id, "user", question, now, "", "");
    ApiHistoryAppend(history, m);
    assert ApiHistory(history + [m]) == ApiHistory(history) + [Turn("user", question)];
  }

  /** A history whose last item is a non-empty user question keeps that item as
      the last mapped message, so the server's final turn repeats it. */
  lemma LastTurnRepeated(sent: seq<Turn>, question: string)
    requires question != ""
    requires sent != [] && sent[|sent| - 1] == Turn("user", question)
    ensures var messages := ChatMessages(sent, question);
            |messages| >= 2
            && messages[|messages| - 2] == Turn("user", question)
            && messages[|messages| - 1] == Turn("user", question)
  {
    var q := Turn("user", question);
    assert sent == sent[..|sent| - 1] + [q];
    FilterAppend(sent[..|sent| - 1], [q], IsPresent);
    assert Filter([q], IsPresent) == [q];
    var kept := Present(sent);
    assert kept[|kept| - 1] == q;
    var mapped := MessagesFor(sent);
    assert mapped[|mapped| - 1] == kept[|kept| - 1];
  }

  /** The page pushes the user's question into its history before it builds the
      request, and the server appends the question again after the mapped
      history: the provider sees the same user turn twice in a row. */
  lemma QuestionSentTwice(history: seq<Message>, id: string, question: string, now: string)
    requires question != ""
    ensures var sent := ApiHistory(history + [CreateMessage(id, "user", question, now, "", "")]);
            var messages := ChatMessages(sent, question);
            |messages| >= 2
            && messages[|messages| - 2] == Turn("user", question)
            && messages[|messages| - 1] == Turn("user", question)
  {
    SentEndsWithQuestion(history, id, question, now);
    LastTurnRepeated(ApiHistory(history + [CreateMessage(id, "user", question, now, "", "")]), question);
  }
}
