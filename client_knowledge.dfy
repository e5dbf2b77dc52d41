/** The browser's local fallback answers, `getMockResponse` in
    chatbot/script.js:246-350: a first-match keyword table (keywords exact and in
    order, answers abstracted to identifiers), then a reply that quotes the
    question when it looks like one, then a fixed generic reply. */
module ClientKnowledge {
  import opened Wrappers
  import opened Text
  import opened Keywords

  const ClientTable: seq<Entry> := [
      Entry(["hi", "hello", "hey", "who are you", "what are you"], "greeting"),
      Entry(["desert", "sahara", "gobi", "arid"], "deserts"),
      Entry(["ocean", "sea", "marine", "coral reef"], "oceans"),
      Entry(["python", "programming language", "coding"], "python"),
      Entry(["javascript", "js", "node", "react"], "javascript"),
      Entry(["photosynthesis", "plant", "chlorophyll"], "photosynthesis"),
      Entry(["gravity", "newton", "force", "acceleration"], "gravity"),
      Entry(["math", "algebra", "equation", "solve"], "algebra"),
      Entry(["calculus", "derivative", "integral", "limit"], "calculus"),
      Entry(["history", "war", "revolution", "ancient"], "history"),
      Entry(["chemistry", "atom", "molecule", "element", "periodic table"], "chemistry"),
      Entry(["biology", "cell", "dna", "gene", "evolution"], "biology"),
      Entry(["physics", "energy", "motion", "wave"], "physics"),
      Entry(["debug", "error", "bug", "fix code"], "debugging"),
      Entry(["algorithm", "sort", "search", "complexity"], "algorithms"),
      Entry(["database", "sql", "nosql", "mongodb"], "databases"),
      Entry(["web development", "html", "css", "frontend"], "web-development"),
      Entry(["ai", "artificial intelligence", "machine learning", "neural network"], "artificial-intelligence"),
      Entry(["climate", "global warming", "environment", "carbon"], "climate"),
      Entry(["explain", "what is", "how does", "why", "define"], "general-explanation")
  ]

  /** The quoting fallback keeps the source's shape, a fixed opening, the question
      itself and a fixed closing; like the row answers, the fixed texts are
      identifiers standing for the page's sentences. */
  const QuotePrefix := "no-prepared-answer-for-question:\""
  const QuoteSuffix := "\""
  const GenericReply := "general-help"

  /** The reply for a question no row answers: the original question, quoted. */
  function QuoteReply(question: string): (r: string)
    ensures |r| == |QuotePrefix| + |question| + |QuoteSuffix|
    ensures r[..|QuotePrefix|] == QuotePrefix
    ensures r[|QuotePrefix|..|r| - |QuoteSuffix|] == question
    ensures r[|r| - |QuoteSuffix|..] == QuoteSuffix
  {
    QuotePrefix + question + QuoteSuffix
  }

  /** The question "looks like a question": it holds '?' or opens with what/how/why/explain. */
  predicate LooksLikeQuestion(lower: string) {
    Contains(lower, "?") || StartsWith(lower, "what") || StartsWith(lower, "how")
    || StartsWith(lower, "why") || StartsWith(lower, "explain")
  }

  predicate NoClientRowMatches(lower: string) {
    forall i :: 0 <= i < |ClientTable| ==> !AnyKeyword(lower, ClientTable[i].keywords)
  }

  /** `getMockResponse(question, model)` of the chat page. */
  function ClientMockResponse(question: string): (r: string)
    ensures r != ""
  {
    var lower := ToLower(question);
    match FirstMatch(ClientTable, lower)
    case Some(i) =>
      ClientAnswersAreRowAnswers();
      ClientTable[i].answer
    case None => if LooksLikeQuestion(lower) then QuoteReply(question) else GenericReply
  }

  lemma ClientAnswersAreRowAnswers()
    ensures forall i :: 0 <= i < |ClientTable| ==>
      ClientTable[i].answer != "" && ClientTable[i].answer != GenericReply
      && |ClientTable[i].answer| < |QuotePrefix|
  {
  }

  /** The reply is never empty; a row answers exactly when a row has a keyword in
      the lower-cased question, and then it is the earliest such row; otherwise the
      question is quoted back exactly when it looks like a question. */
  lemma ClientMockResponseSpec(question: string)
    ensures var r := ClientMockResponse(question); var lower := ToLower(question);
      r != ""
      && (!NoClientRowMatches(lower) ==>
        exists i :: 0 <= i < |ClientTable| && r == ClientTable[i].answer
          && AnyKeyword(lower, ClientTable[i].keywords)
          && forall j :: 0 <= j < i ==> !AnyKeyword(lower, ClientTable[j].keywords))
      && (NoClientRowMatches(lower) && LooksLikeQuestion(lower) ==> r == QuoteReply(question))
      && (r == GenericReply <==> NoClientRowMatches(lower) && !LooksLikeQuestion(lower))
  {
    ClientAnswersAreRowAnswers();
  }

  lemma ClientTableRow0()
    ensures ClientTable[0] == Entry(["hi", "hello", "hey", "who are you", "what are you"], "greeting")
  {
  }

  lemma ClientTableRow17()
    ensures ClientTable[17] == Entry(["ai", "artificial intelligence", "machine learning", "neural network"], "artificial-intelligence")
  {
  }

  lemma ClientTableRow19()
    ensures ClientTable[19] == Entry(["explain", "what is", "how does", "why", "define"], "general-explanation")
  {
  }

  /** Row 0 lists "hi": "this", "which" or "think" get the greeting on this page too. */
  lemma ClientGreetingCapturesHi(question: string)
    requires Contains(ToLower(question), "hi")
    ensures ClientMockResponse(question) == "greeting"
  {
    ClientTableRow0();
    assert AnyKeyword(ToLower(question), ClientTable[0].keywords);
  }

  /** "explain" contains "ai", so row 17 (artificial intelligence) or an earlier row
      answers every question mentioning "explain"; row 19's "explain" never decides. */
  lemma ExplainCapturedByAi(question: string)
    requires Contains(ToLower(question), "explain")
    ensures FirstMatch(ClientTable, ToLower(question)).Some?
    ensures FirstMatch(ClientTable, ToLower(question)).value <= 17
    ensures ClientMockResponse(question) != "general-explanation"
  {
    var lower := ToLower(question);
    var k: nat :| k <= |lower| && OccursAt(lower, "explain", k);
    var w := lower[k..k + 7];
    assert w == "explain";
    assert lower[k + 4..k + 6] == w[4..6];
    assert w[4..6] == "ai";
    assert OccursAt(lower, "ai", k + 4);
    ClientTableRow17();
    assert AnyKeyword(lower, ClientTable[17].keywords);
    ClientAnswersAreDistinct();
  }

  lemma ClientAnswersAreDistinct()
    ensures forall i :: 0 <= i < 19 ==> ClientTable[i].answer != "general-explanation"
  {
  }

  /** A question that opens with "why" or "explain" is always answered by a row, so
      those two openers of the quoting fallback never decide anything. */
  lemma QuoteOpenersWhyExplainUnreachable(lower: string)
    requires NoClientRowMatches(lower)
    ensures !StartsWith(lower, "why") && !StartsWith(lower, "explain")
  {
    OpenersAreRow19Keywords(lower);
  }

  lemma OpenersAreRow19Keywords(lower: string)
    ensures StartsWith(lower, "why") || StartsWith(lower, "explain") ==>
      AnyKeyword(lower, ClientTable[19].keywords)
  {
    ClientTableRow19();
    if StartsWith(lower, "why") {
      assert OccursAt(lower, "why", 0);
    } else if StartsWith(lower, "explain") {
      assert OccursAt(lower, "explain", 0);
    }
  }
}
