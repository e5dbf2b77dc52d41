/** Two questions worked through the server's knowledge base end to end.
    Each `...Lacks` lemma rules out one keyword of an earlier row (by a
    character or a pair of adjacent characters the question lacks); each
    `...From` lemma moves the first-match scan one row back. Every keyword
    gets its own lemma to keep each proof obligation small. */
module ServerScenarios {
  import opened Wrappers
  import opened Text
  import opened Keywords
  import opened ServerKnowledge

  lemma KnowledgeBaseRow0()
    ensures KnowledgeBase[0] == Entry(["hi", "hello", "hey"], "greeting")
  {
  }

  lemma KnowledgeBaseRow1()
    ensures KnowledgeBase[1] == Entry(["quadratic", "x²", "x^2", "parabola"], "quadratic-equations")
  {
  }

  lemma KnowledgeBaseRow2()
    ensures KnowledgeBase[2] == Entry(["pythagorean", "triangle", "right triangle", "a²+b²"], "pythagorean-theorem")
  {
  }

  lemma KnowledgeBaseRow3()
    ensures KnowledgeBase[3] == Entry(["derivative", "dy/dx", "differentiation", "rate of change"], "derivatives")
  {
  }

  lemma KnowledgeBaseRow4()
    ensures KnowledgeBase[4] == Entry(["integral", "∫", "integration", "antiderivative"], "integrals")
  {
  }

  lemma KnowledgeBaseRow5()
    ensures KnowledgeBase[5] == Entry(["probability", "chance", "odds", "random"], "probability")
  {
  }

  lemma KnowledgeBaseRow6()
    ensures KnowledgeBase[6] == Entry(["fraction", "numerator", "denominator", "divide"], "fractions")
  {
  }

  lemma KnowledgeBaseRow7()
    ensures KnowledgeBase[7] == Entry(["percentage", "percent", "%"], "percentages")
  {
  }

  lemma KnowledgeBaseRow8()
    ensures KnowledgeBase[8] == Entry(["photosynthesis", "plant energy", "chlorophyll"], "photosynthesis")
  {
  }

  lemma PhotosynthesisFrom8()
    ensures FirstMatchFrom(KnowledgeBase, "what is photosynthesis?", 8) == Some(8)
  {
    KnowledgeBaseRow8();
    assert OccursAt("what is photosynthesis?", "photosynthesis", 8);
  }

  lemma PhotosynthesisLacks7_0()
    ensures !Contains("what is photosynthesis?", "percentage")
  {
    AbsentChar("what is photosynthesis?", "percentage", 'r');
  }

  lemma PhotosynthesisLacks7_1()
    ensures !Contains("what is photosynthesis?", "percent")
  {
    AbsentChar("what is photosynthesis?", "percent", 'r');
  }

  lemma PhotosynthesisLacks7_2()
    ensures !Contains("what is photosynthesis?", "%")
  {
    AbsentChar("what is photosynthesis?", "%", '%');
  }

  lemma PhotosynthesisFrom7()
    ensures FirstMatchFrom(KnowledgeBase, "what is photosynthesis?", 7) == Some(8)
  {
    KnowledgeBaseRow7();
    PhotosynthesisLacks7_0();
    PhotosynthesisLacks7_1();
    PhotosynthesisLacks7_2();
    PhotosynthesisFrom8();
  }

  lemma PhotosynthesisLacks6_0()
    ensures !Contains("what is photosynthesis?", "fraction")
  {
    AbsentChar("what is photosynthesis?", "fraction", 'f');
  }

  lemma PhotosynthesisLacks6_1()
    ensures !Contains("what is photosynthesis?", "numerator")
  {
    AbsentChar("what is photosynthesis?", "numerator", 'u');
  }

  lemma PhotosynthesisLacks6_2()
    ensures !Contains("what is photosynthesis?", "denominator")
  {
    AbsentChar("what is photosynthesis?", "denominator", 'd');
  }

  lemma PhotosynthesisLacks6_3()
    ensures !Contains("what is photosynthesis?", "divide")
  {
    AbsentChar("what is photosynthesis?", "divide", 'd');
  }

  lemma PhotosynthesisFrom6()
    ensures FirstMatchFrom(KnowledgeBase, "what is photosynthesis?", 6) == Some(8)
  {
    KnowledgeBaseRow6();
    PhotosynthesisLacks6_0();
    PhotosynthesisLacks6_1();
    PhotosynthesisLacks6_2();
    PhotosynthesisLacks6_3();
    PhotosynthesisFrom7();
  }

  lemma PhotosynthesisLacks5_0()
    ensures !Contains("what is photosynthesis?", "probability")
  {
    AbsentChar("what is photosynthesis?", "probability", 'r');
  }

  lemma PhotosynthesisLacks5_1()
    ensures !Contains("what is photosynthesis?", "chance")
  {
    AbsentChar("what is photosynthesis?", "chance", 'c');
  }

  lemma PhotosynthesisLacks5_2()
    ensures !Contains("what is photosynthesis?", "odds")
  {
    AbsentChar("what is photosynthesis?", "odds", 'd');
  }

  lemma PhotosynthesisLacks5_3()
    ensures !Contains("what is photosynthesis?", "random")
  {
    AbsentChar("what is photosynthesis?", "random", 'r');
  }

  lemma PhotosynthesisFrom5()
    ensures FirstMatchFrom(KnowledgeBase, "what is photosynthesis?", 5) == Some(8)
  {
    KnowledgeBaseRow5();
    PhotosynthesisLacks5_0();
    PhotosynthesisLacks5_1();
    PhotosynthesisLacks5_2();
    PhotosynthesisLacks5_3();
    PhotosynthesisFrom6();
  }

  lemma PhotosynthesisLacks4_0()
    ensures !Contains("what is photosynthesis?", "integral")
  {
    AbsentChar("what is photosynthesis?", "integral", 'g');
  }

  lemma PhotosynthesisLacks4_1()
    ensures !Contains("what is photosynthesis?", "∫")
  {
    AbsentChar("what is photosynthesis?", "∫", '∫');
  }

  lemma PhotosynthesisLacks4_2()
    ensures !Contains("what is photosynthesis?", "integration")
  {
    AbsentChar("what is photosynthesis?", "integration", 'g');
  }

  lemma PhotosynthesisLacks4_3()
    ensures !Contains("what is photosynthesis?", "antiderivative")
  {
    AbsentChar("what is photosynthesis?", "antiderivative", 'd');
  }

  lemma PhotosynthesisFrom4()
    ensures FirstMatchFrom(KnowledgeBase, "what is photosynthesis?", 4) == Some(8)
  {
    KnowledgeBaseRow4();
    PhotosynthesisLacks4_0();
    PhotosynthesisLacks4_1();
    PhotosynthesisLacks4_2();
    PhotosynthesisLacks4_3();
    PhotosynthesisFrom5();
  }

  lemma PhotosynthesisLacks3_0()
    ensures !Contains("what is photosynthesis?", "derivative")
  {
    AbsentChar("what is photosynthesis?", "derivative", 'd');
  }

  lemma PhotosynthesisLacks3_1()
    ensures !Contains("what is photosynthesis?", "dy/dx")
  {
    AbsentChar("what is photosynthesis?", "dy/dx", 'd');
  }

  lemma PhotosynthesisLacks3_2()
    ensures !Contains("what is photosynthesis?", "differentiation")
  {
    AbsentChar("what is photosynthesis?", "differentiation", 'd');
  }

  lemma PhotosynthesisLacks3_3()
    ensures !Contains("what is photosynthesis?", "rate of change")
  {
    AbsentChar("what is photosynthesis?", "rate of change", 'r');
  }

  lemma PhotosynthesisFrom3()
    ensures FirstMatchFrom(KnowledgeBase, "what is photosynthesis?", 3) == Some(8)
  {
    KnowledgeBaseRow3();
    PhotosynthesisLacks3_0();
    PhotosynthesisLacks3_1();
    PhotosynthesisLacks3_2();
    PhotosynthesisLacks3_3();
    PhotosynthesisFrom4();
  }

  lemma PhotosynthesisLacks2_0()
    ensures !Contains("what is photosynthesis?", "pythagorean")
  {
    AbsentChar("what is photosynthesis?", "pythagorean", 'g');
  }

  lemma PhotosynthesisLacks2_1()
    ensures !Contains("what is photosynthesis?", "triangle")
  {
    AbsentChar("what is photosynthesis?", "triangle", 'r');
  }

  lemma PhotosynthesisLacks2_2()
    ensures !Contains("what is photosynthesis?", "right triangle")
  {
    AbsentChar("what is photosynthesis?", "right triangle", 'r');
  }

  lemma PhotosynthesisLacks2_3()
    ensures !Contains("what is photosynthesis?", "a²+b²")
  {
    AbsentChar("what is photosynthesis?", "a²+b²", '²');
  }

  lemma PhotosynthesisFrom2()
    ensures FirstMatchFrom(KnowledgeBase, "what is photosynthesis?", 2) == Some(8)
  {
    KnowledgeBaseRow2();
    PhotosynthesisLacks2_0();
    PhotosynthesisLacks2_1();
    PhotosynthesisLacks2_2();
    PhotosynthesisLacks2_3();
    PhotosynthesisFrom3();
  }

  lemma PhotosynthesisLacks1_0()
    ensures !Contains("what is photosynthesis?", "quadratic")
  {
    AbsentChar("what is photosynthesis?", "quadratic", 'q');
  }

  lemma PhotosynthesisLacks1_1()
    ensures !Contains("what is photosynthesis?", "x²")
  {
    AbsentChar("what is photosynthesis?", "x²", 'x');
  }

  lemma PhotosynthesisLacks1_2()
    ensures !Contains("what is photosynthesis?", "x^2")
  {
    AbsentChar("what is photosynthesis?", "x^2", 'x');
  }

  lemma PhotosynthesisLacks1_3()
    ensures !Contains("what is photosynthesis?", "parabola")
  {
    AbsentChar("what is photosynthesis?", "parabola", 'r');
  }

  lemma PhotosynthesisFrom1()
    ensures FirstMatchFrom(KnowledgeBase, "what is photosynthesis?", 1) == Some(8)
  {
    KnowledgeBaseRow1();
    PhotosynthesisLacks1_0();
    PhotosynthesisLacks1_1();
    PhotosynthesisLacks1_2();
    PhotosynthesisLacks1_3();
    PhotosynthesisFrom2();
  }

  lemma PhotosynthesisLacks0_0()
    ensures !Contains("what is photosynthesis?", "hi")
  {
    AbsentPair("what is photosynthesis?", "hi", 0);
  }

  lemma PhotosynthesisLacks0_1()
    ensures !Contains("what is photosynthesis?", "hello")
  {
    AbsentChar("what is photosynthesis?", "hello", 'l');
  }

  lemma PhotosynthesisLacks0_2()
    ensures !Contains("what is photosynthesis?", "hey")
  {
    AbsentPair("what is photosynthesis?", "hey", 1);
  }

  lemma PhotosynthesisFrom0()
    ensures FirstMatchFrom(KnowledgeBase, "what is photosynthesis?", 0) == Some(8)
  {
    KnowledgeBaseRow0();
    PhotosynthesisLacks0_0();
    PhotosynthesisLacks0_1();
    PhotosynthesisLacks0_2();
    PhotosynthesisFrom1();
  }

  /** "What is photosynthesis?" (in any letter case) passes the eight rows before
      the photosynthesis row and gets its answer, not the "what" fallback. */
  lemma Photosynthesis(question: string)
    requires ToLower(question) == "what is photosynthesis?"
    ensures MockResponse(question) == "photosynthesis"
  {
    PhotosynthesisFrom0();
    AnswerOfFirstMatch(question, 8);
    KnowledgeBaseRow8();
  }

  lemma GibberishFrom5()
    ensures FirstMatchFrom(KnowledgeBase, "asdkjasd random gibberish", 5) == Some(5)
  {
    KnowledgeBaseRow5();
    assert OccursAt("asdkjasd random gibberish", "random", 9);
  }

  lemma GibberishLacks4_0()
    ensures !Contains("asdkjasd random gibberish", "integral")
  {
    AbsentChar("asdkjasd random gibberish", "integral", 't');
  }

  lemma GibberishLacks4_1()
    ensures !Contains("asdkjasd random gibberish", "∫")
  {
    AbsentChar("asdkjasd random gibberish", "∫", '∫');
  }

  lemma GibberishLacks4_2()
    ensures !Contains("asdkjasd random gibberish", "integration")
  {
    AbsentChar("asdkjasd random gibberish", "integration", 't');
  }

  lemma GibberishLacks4_3()
    ensures !Contains("asdkjasd random gibberish", "antiderivative")
  {
    AbsentChar("asdkjasd random gibberish", "antiderivative", 't');
  }

  lemma GibberishFrom4()
    ensures FirstMatchFrom(KnowledgeBase, "asdkjasd random gibberish", 4) == Some(5)
  {
    KnowledgeBaseRow4();
    GibberishLacks4_0();
    GibberishLacks4_1();
    GibberishLacks4_2();
    GibberishLacks4_3();
    GibberishFrom5();
  }

  lemma GibberishLacks3_0()
    ensures !Contains("asdkjasd random gibberish", "derivative")
  {
    AbsentChar("asdkjasd random gibberish", "derivative", 'v');
  }

  lemma GibberishLacks3_1()
    ensures !Contains("asdkjasd random gibberish", "dy/dx")
  {
    AbsentChar("asdkjasd random gibberish", "dy/dx", 'y');
  }

  lemma GibberishLacks3_2()
    ensures !Contains("asdkjasd random gibberish", "differentiation")
  {
    AbsentChar("asdkjasd random gibberish", "differentiation", 'f');
  }

  lemma GibberishLacks3_3()
    ensures !Contains("asdkjasd random gibberish", "rate of change")
  {
    AbsentChar("asdkjasd random gibberish", "rate of change", 't');
  }

  lemma GibberishFrom3()
    ensures FirstMatchFrom(KnowledgeBase, "asdkjasd random gibberish", 3) == Some(5)
  {
    KnowledgeBaseRow3();
    GibberishLacks3_0();
    GibberishLacks3_1();
    GibberishLacks3_2();
    GibberishLacks3_3();
    GibberishFrom4();
  }

  lemma GibberishLacks2_0()
    ensures !Contains("asdkjasd random gibberish", "pythagorean")
  {
    AbsentChar("asdkjasd random gibberish", "pythagorean", 'p');
  }

  lemma GibberishLacks2_1()
    ensures !Contains("asdkjasd random gibberish", "triangle")
  {
    AbsentChar("asdkjasd random gibberish", "triangle", 't');
  }

  lemma GibberishLacks2_2()
    ensures !Contains("asdkjasd random gibberish", "right triangle")
  {
    AbsentChar("asdkjasd random gibberish", "right triangle", 't');
  }

  lemma GibberishLacks2_3()
    ensures !Contains("asdkjasd random gibberish", "a²+b²")
  {
    AbsentChar("asdkjasd random gibberish", "a²+b²", '²');
  }

  lemma GibberishFrom2()
    ensures FirstMatchFrom(KnowledgeBase, "asdkjasd random gibberish", 2) == Some(5)
  {
    KnowledgeBaseRow2();
    GibberishLacks2_0();
    GibberishLacks2_1();
    GibberishLacks2_2();
    GibberishLacks2_3();
    GibberishFrom3();
  }

  lemma GibberishLacks1_0()
    ensures !Contains("asdkjasd random gibberish", "quadratic")
  {
    AbsentChar("asdkjasd random gibberish", "quadratic", 'q');
  }

  lemma GibberishLacks1_1()
    ensures !Contains("asdkjasd random gibberish", "x²")
  {
    AbsentChar("asdkjasd random gibberish", "x²", 'x');
  }

  lemma GibberishLacks1_2()
    ensures !Contains("asdkjasd random gibberish", "x^2")
  {
    AbsentChar("asdkjasd random gibberish", "x^2", 'x');
  }

  lemma GibberishLacks1_3()
    ensures !Contains("asdkjasd random gibberish", "parabola")
  {
    AbsentChar("asdkjasd random gibberish", "parabola", 'p');
  }

  lemma GibberishFrom1()
    ensures FirstMatchFrom(KnowledgeBase, "asdkjasd random gibberish", 1) == Some(5)
  {
    KnowledgeBaseRow1();
    GibberishLacks1_0();
    GibberishLacks1_1();
    GibberishLacks1_2();
    GibberishLacks1_3();
    GibberishFrom2();
  }

  lemma GibberishLacks0_0()
    ensures !Contains("asdkjasd random gibberish", "hi")
  {
    AbsentPair("asdkjasd random gibberish", "hi", 0);
  }

  lemma GibberishLacks0_1()
    ensures !Contains("asdkjasd random gibberish", "hello")
  {
    AbsentChar("asdkjasd random gibberish", "hello", 'l');
  }

  lemma GibberishLacks0_2()
    ensures !Contains("asdkjasd random gibberish", "hey")
  {
    AbsentChar("asdkjasd random gibberish", "hey", 'y');
  }

  lemma GibberishFrom0()
    ensures FirstMatchFrom(KnowledgeBase, "asdkjasd random gibberish", 0) == Some(5)
  {
    KnowledgeBaseRow0();
    GibberishLacks0_0();
    GibberishLacks0_1();
    GibberishLacks0_2();
    GibberishFrom1();
  }

  /** "asdkjasd random gibberish" is not answered by a fallback: the substring
      "random" selects the probability row. */
  lemma Gibberish(question: string)
    requires ToLower(question) == "asdkjasd random gibberish"
    ensures MockResponse(question) == "probability"
  {
    GibberishFrom0();
    AnswerOfFirstMatch(question, 5);
    KnowledgeBaseRow5();
  }
}
