/** The `{role, content}` pairs that the chat client sends upstream and the
    server receives as `history`. A field that is missing or falsy in the
    JSON body is the empty string here. */
module Turns {
  import opened Seqs

  datatype Turn = Turn(role: string, content: string)

  /** The roles the client forwards and Claude, Cohere and HuggingFace keep. */
  predicate IsConversational(t: Turn) {
    t.role == "user" || t.role == "assistant"
  }

  /** `history.filter(msg => msg.role === 'user' || msg.role === 'assistant')`. */
  function Conversation(history: seq<Turn>): (r: seq<Turn>)
    ensures |r| <= |history|
    ensures forall t :: t in r <==> t in history && IsConversational(t)
  {
    Filter(history, IsConversational)
  }
}
