/** How server.js turns the client's `history` into each provider's request:
    `mapHistoryToMessages` (server.js:132-153) and the per-provider shaping in
    callChatGPT, callGemini, callClaude, callGroq, callCohere and callHuggingFace. */
module ServerHistory {
  import opened Text
  import opened Seqs
  import opened Turns

  const SystemPrompt := "You are EduBot, a friendly educational tutor. Explain topics in simple, structured language."
  const SystemTurn := Turn("system", SystemPrompt)

  /** `item && item.role && item.content`: both fields present and non-empty. */
  predicate IsPresent(t: Turn) {
    t.role != "" && t.content != ""
  }

  predicate IsSystem(t: Turn) {
    t.role == "system"
  }

  predicate IsNotSystem(t: Turn) {
    t.role != "system"
  }

  /** `messages.some(msg => msg.role === 'system')`. */
  predicate HasSystem(messages: seq<Turn>) {
    exists t :: t in messages && IsSystem(t)
  }

  /** The history items that survive the filter, projected to `{role, content}`. */
  function Present(history: seq<Turn>): seq<Turn> {
    Filter(history, IsPresent)
  }

  /** The messages `mapHistoryToMessages` returns: the surviving items, in order,
      behind one system prompt exactly when none of them is a system message. */
  function MessagesFor(history: seq<Turn>): (r: seq<Turn>)
    ensures r != [] && HasSystem(r)
    ensures forall t :: t in r ==> IsPresent(t)
    ensures |Present(history)| <= |r| && r[|r| - |Present(history)|..] == Present(history)
    ensures |r| == |Present(history)| + 1 <==> !HasSystem(Present(history))
    ensures |r| == |Present(history)| + 1 ==> r[0] == SystemTurn
    ensures HasSystem(Present(history)) ==> r == Present(history)
    ensures !HasSystem(Present(history)) ==> r == [SystemTurn] + Present(history)
  {
    var kept := Present(history);
    if HasSystem(kept) then kept
    else
      assert SystemTurn in [SystemTurn] + kept;
      [SystemTurn] + kept
  }

  /** `mapHistoryToMessages` as written: filter and project, push a system prompt
      onto an empty list, then unshift one if no system message is present. */
  method MapHistoryToMessages(history: seq<Turn>) returns (messages: seq<Turn>)
    ensures messages == MessagesFor(history)
  {
    messages := Present(history);
    if |messages| == 0 {
      messages := messages + [SystemTurn];
    }
    var hasSystem := exists t :: t in messages && IsSystem(t);
    if !hasSystem {
      messages := [SystemTurn] + messages;
    }
  }

  /** The `messages` callChatGPT and callGroq send: the mapped history, then the question. */
  function ChatMessages(history: seq<Turn>, question: string): (r: seq<Turn>)
    ensures HasSystem(r)
    ensures |r| >= 2 && r[|r| - 1] == Turn("user", question)
    ensures r[..|r| - 1] == MessagesFor(history)
  {
    MessagesFor(history) + [Turn("user", question)]
  }

  function GeminiLine(t: Turn): string {
    "(" + t.role + ") " + t.content
  }

  /** The non-system mapped messages Gemini sees as context. */
  function GeminiTurns(history: seq<Turn>): seq<Turn> {
    Filter(MessagesFor(history), IsNotSystem)
  }

  /** The system prompt `mapHistoryToMessages` may add never reaches Gemini:
      its context is exactly the surviving non-system items. */
  lemma GeminiSeesOnlyPresent(history: seq<Turn>)
    ensures GeminiTurns(history) == Filter(Present(history), IsNotSystem)
  {
    var kept := Present(history);
    if !HasSystem(kept) {
      FilterAppend([SystemTurn], kept, IsNotSystem);
      assert Filter([SystemTurn], IsNotSystem) == [];
    }
  }

  /** The single text part callGemini sends: the context lines, a blank line, then the question. */
  function GeminiText(history: seq<Turn>, question: string): (r: string)
    ensures |r| >= |question| && r[|r| - |question|..] == question
    ensures Filter(Present(history), IsNotSystem) == [] ==> r == question
    ensures var turns := Filter(Present(history), IsNotSystem);
            turns != [] ==> r == Join(Map(turns, GeminiLine), "\n") + "\n\n" + question
  {
    GeminiSeesOnlyPresent(history);
    var lines := Map(GeminiTurns(history), GeminiLine);
    var context := Join(lines, "\n");
    assert lines != [] ==> context != "" by {
      if lines != [] {
        JoinStartsWithFirst(lines, "\n");
        assert |lines[0]| >= 3;
      }
    }
    (if context != "" then context + "\n\n" else "") + question
  }

  /** The `messages` callClaude sends: user and assistant turns only, then the question. */
  function ClaudeMessages(history: seq<Turn>, question: string): (r: seq<Turn>)
    ensures |r| == |Conversation(history)| + 1
    ensures forall t :: t in r ==> IsConversational(t)
    ensures r[..|r| - 1] == Conversation(history) && r[|r| - 1] == Turn("user", question)
  {
    Conversation(history) + [Turn("user", question)]
  }

  datatype CohereTurn = CohereTurn(role: string, message: string)

  function CohereTurnOf(t: Turn): CohereTurn {
    CohereTurn(if t.role == "assistant" then "CHATBOT" else "USER", t.content)
  }

  /** The `chat_history` callCohere sends: user and assistant turns, in order,
      with `assistant` renamed CHATBOT and `user` renamed USER. */
  function CohereHistory(history: seq<Turn>): (r: seq<CohereTurn>)
    ensures |r| == |Conversation(history)|
    ensures forall i :: 0 <= i < |r| ==>
      r[i].message == Conversation(history)[i].content
      && (r[i].role == "CHATBOT" <==> Conversation(history)[i].role == "assistant")
      && (r[i].role == "USER" <==> Conversation(history)[i].role == "user")
  {
    var turns := Conversation(history);
    assert forall i :: 0 <= i < |turns| ==> IsConversational(turns[i]) by {
      forall i | 0 <= i < |turns| ensures IsConversational(turns[i]) {
        assert turns[i] in turns;
      }
    }
    Map(turns, CohereTurnOf)
  }

  function HuggingFaceLine(t: Turn): string {
    t.role + ": " + t.content
  }

  /** The `inputs` prompt callHuggingFace sends: the transcript lines, then the question
      as a user line and an open assistant line. */
  function HuggingFacePrompt(history: seq<Turn>, question: string): (r: string)
    ensures var tail := "user: " + question + "\nassistant:";
            |r| >= |tail| && r[|r| - |tail|..] == tail
    ensures r == "user: " + question + "\nassistant:" <==> Conversation(history) == []
    ensures Conversation(history) != [] ==>
      r == Join(Map(Conversation(history), HuggingFaceLine), "\n") + "\nuser: " + question + "\nassistant:"
  {
    var lines := Map(Conversation(history), HuggingFaceLine);
    var context := Join(lines, "\n");
    assert lines != [] ==> context != "" by {
      if lines != [] {
        JoinStartsWithFirst(lines, "\n");
        assert |lines[0]| >= 2;
      }
    }
    if context != "" then context + "\nuser: " + question + "\nassistant:"
    else "user: " + question + "\nassistant:"
  }

  /** What one provider call carries upstream. */
  datatype Payload =
    | Messages(messages: seq<Turn>)
    | GeminiPrompt(text: string)
    | CohereRequest(chatHistory: seq<CohereTurn>, message: string)
    | HuggingFaceInputs(inputs: string)
}
