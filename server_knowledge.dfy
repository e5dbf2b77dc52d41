/** The server's local knowledge base, `getMockResponse` in server.js:366-554:
    a first-match keyword table, then three word-boundary fallbacks in a fixed
    order, then one generic answer. Answer texts are abstracted to identifiers;
    keywords and their order are the source's. The source's second parameter,
    the model name, is never read, so it is not a parameter here. */
module ServerKnowledge {
  import opened Wrappers
  import opened Text
  import opened Keywords

  /** The rows of `knowledgeBase`, one constant each, in table order. */
  const Row0 := Entry(["hi", "hello", "hey"], "greeting")
  const Row1 := Entry(["quadratic", "x²", "x^2", "parabola"], "quadratic-equations")
  const Row2 := Entry(["pythagorean", "triangle", "right triangle", "a²+b²"], "pythagorean-theorem")
  const Row3 := Entry(["derivative", "dy/dx", "differentiation", "rate of change"], "derivatives")
  const Row4 := Entry(["integral", "∫", "integration", "antiderivative"], "integrals")
  const Row5 := Entry(["probability", "chance", "odds", "random"], "probability")
  const Row6 := Entry(["fraction", "numerator", "denominator", "divide"], "fractions")
  const Row7 := Entry(["percentage", "percent", "%"], "percentages")
  const Row8 := Entry(["photosynthesis", "plant energy", "chlorophyll"], "photosynthesis")
  const Row9 := Entry(["mitosis", "cell division", "cell cycle"], "mitosis")
  const Row10 := Entry(["dna", "genetic", "nucleotide", "double helix"], "dna")
  const Row11 := Entry(["newton", "motion", "force", "f=ma"], "newtons-laws")
  const Row12 := Entry(["atom", "proton", "neutron", "electron", "atomic"], "atoms")
  const Row13 := Entry(["periodic table", "element", "group", "period"], "periodic-table")
  const Row14 := Entry(["chemical reaction", "reactant", "product", "balance"], "chemical-reactions")
  const Row15 := Entry(["water cycle", "evaporation", "condensation", "precipitation"], "water-cycle")
  const Row16 := Entry(["ecosystem", "food chain", "food web", "producer", "consumer"], "ecosystems")
  const Row17 := Entry(["python", "print", "def", ".py"], "python")
  const Row18 := Entry(["javascript", "console.log", "function", "const", "let", "var"], "javascript")
  const Row19 := Entry(["loop", "for loop", "while", "iteration"], "loops")
  const Row20 := Entry(["array", "list", "index", "[]"], "arrays")
  const Row21 := Entry(["function", "def", "return", "parameter"], "functions")
  const Row22 := Entry(["if else", "condition", "boolean", "true false"], "conditionals")
  const Row23 := Entry(["class", "object", "oop", "object oriented"], "object-oriented-programming")
  const Row24 := Entry(["algorithm", "binary search", "linear search"], "algorithms")
  const Row25 := Entry(["world war", "ww1", "ww2", "world war 1", "world war 2"], "world-wars")
  const Row26 := Entry(["american revolution", "independence", "1776", "colonial"], "american-revolution")
  const Row27 := Entry(["french revolution", "1789", "bastille", "napoleon"], "french-revolution")
  const Row28 := Entry(["industrial revolution", "factory", "steam engine"], "industrial-revolution")
  const Row29 := Entry(["civil war", "lincoln", "slavery", "confederate"], "us-civil-war")
  const Row30 := Entry(["noun", "verb", "adjective", "adverb", "parts of speech"], "parts-of-speech")
  const Row31 := Entry(["essay", "paragraph", "introduction", "thesis"], "essay-writing")
  const Row32 := Entry(["metaphor", "simile", "figurative language", "literary device"], "figurative-language")
  const Row33 := Entry(["how to study", "study tips", "exam prep", "test preparation"], "study-tips")
  const Row34 := Entry(["solar system", "planet", "mercury", "venus", "mars", "jupiter"], "solar-system")
  const Row35 := Entry(["shakespeare", "romeo", "hamlet", "macbeth"], "shakespeare")

  const KnowledgeBase: seq<Entry> := [
      Row0, Row1, Row2, Row3, Row4, Row5,
      Row6, Row7, Row8, Row9, Row10, Row11,
      Row12, Row13, Row14, Row15, Row16, Row17,
      Row18, Row19, Row20, Row21, Row22, Row23,
      Row24, Row25, Row26, Row27, Row28, Row29,
      Row30, Row31, Row32, Row33, Row34, Row35
    ]

  /** `/\b(what|explain|define|describe|tell me about)\b/` */
  const ExplainWords: seq<string> := ["what", "explain", "define", "describe", "tell me about"]
  /** `/\b(how to|how do|how can)\b/` */
  const HowToWords: seq<string> := ["how to", "how do", "how can"]
  /** `/\b(solve|calculate|compute|find)\b/` */
  const SolveWords: seq<string> := ["solve", "calculate", "compute", "find"]

  const ExplainAnswer := "fallback:topics-i-can-explain"
  const HowToAnswer := "fallback:how-to-examples"
  const SolveAnswer := "fallback:problem-solving-examples"
  const GenericAnswer := "fallback:capabilities-overview"

  predicate NoRowMatches(lower: string) {
    forall i :: 0 <= i < |KnowledgeBase| ==> !AnyKeyword(lower, KnowledgeBase[i].keywords)
  }

  /** The fallback chain for a question no row matches. */
  function ShapeFallback(lower: string): string {
    if HasWord(lower, ExplainWords) then ExplainAnswer
    else if HasWord(lower, HowToWords) then HowToAnswer
    else if HasWord(lower, SolveWords) then SolveAnswer
    else GenericAnswer
  }

  predicate IsFallback(answer: string) {
    answer == ExplainAnswer || answer == HowToAnswer || answer == SolveAnswer || answer == GenericAnswer
  }

  lemma RowAnswersAreNotFallbacks()
    ensures forall i :: 0 <= i < |KnowledgeBase| ==>
      KnowledgeBase[i].answer != "" && !IsFallback(KnowledgeBase[i].answer)
  {
  }

  /** `getMockResponse(question, model)`: the first matching row's answer,
      else the first fallback whose word list has a whole word in the question. */
  function MockResponse(question: string): (r: string)
    ensures r != ""
  {
    var lower := ToLower(question);
    match FirstMatch(KnowledgeBase, lower)
    case Some(i) =>
      RowAnswersAreNotFallbacks();
      KnowledgeBase[i].answer
    case None => ShapeFallback(lower)
  }

  /** What the reply means: a row answers when any row matches, and then it is
      the earliest matching row; otherwise one of the fallbacks answers, chosen
      by the fixed order explain, how-to, solve, generic. */
  lemma MockResponseSpec(question: string)
    ensures var r := MockResponse(question); var lower := ToLower(question);
      (!NoRowMatches(lower) ==>
        exists i :: 0 <= i < |KnowledgeBase| && r == KnowledgeBase[i].answer
          && AnyKeyword(lower, KnowledgeBase[i].keywords)
          && forall j :: 0 <= j < i ==> !AnyKeyword(lower, KnowledgeBase[j].keywords))
      && (IsFallback(r) <==> NoRowMatches(lower))
      && (r == GenericAnswer <==>
        NoRowMatches(lower) && !HasWord(lower, ExplainWords) && !HasWord(lower, HowToWords)
        && !HasWord(lower, SolveWords))
      && (r == ExplainAnswer ==> HasWord(lower, ExplainWords))
      && (r == HowToAnswer ==> !HasWord(lower, ExplainWords) && HasWord(lower, HowToWords))
      && (r == SolveAnswer ==>
        !HasWord(lower, ExplainWords) && !HasWord(lower, HowToWords) && HasWord(lower, SolveWords))
  {
    RowAnswersAreNotFallbacks();
  }

  /** When row `i` is the first row with a keyword in the lower-cased
      question, that row's answer is the reply. */
  lemma AnswerOfFirstMatch(question: string, i: nat)
    requires FirstMatch(KnowledgeBase, ToLower(question)) == Some(i)
    ensures i < |KnowledgeBase| && MockResponse(question) == KnowledgeBase[i].answer
  {
  }

  /** Row 0 lists "hi", so every question whose lower case contains "hi"
      (such as "this" or "which") gets the greeting. */
  lemma GreetingCapturesHi(question: string)
    requires Contains(ToLower(question), "hi")
    ensures MockResponse(question) == "greeting"
  {
    assert KnowledgeBase[0].keywords[0] == "hi";
    assert AnyKeyword(ToLower(question), KnowledgeBase[0].keywords);
  }
}
