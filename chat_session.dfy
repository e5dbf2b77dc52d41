/** The EduBot chat page (chatbot/script.js): the message records it keeps,
    the history it sends upstream, the pure helpers behind its buttons and the
    session object whose fields the page updates as a question is asked. */
module ChatClient {
  import opened Wrappers
  import opened Text
  import opened Seqs
  import opened Turns
  import opened ClientKnowledge

  /** One element of `state.history`; a `null` provider or mode is `None`. */
  datatype Message = Message(
    id: string, role: string, content: string, timestamp: string,
    provider: Option<string>, mode: Option<string>)

  const WelcomeText := "Hi, I'm EduBot. Ask me anything and I'll explain it clearly."

  /** `value || null` on a string. */
  function OrNull(value: string): Option<string> {
    if value == "" then None else Some(value)
  }

  /** `createMessage`; the id and the clock reading are parameters, and an empty
      provider or mode stands for one that is missing. */
  function CreateMessage(id: string, role: string, content: string, now: string,
                         provider: string, mode: string): Message {
    Message(id, role, content, now, OrNull(provider), OrNull(mode))
  }

  /** The welcome message `hydrateHistory` and `resetChat` seed. */
  function Welcome(id: string, now: string): Message {
    CreateMessage(id, "assistant", WelcomeText, now, "", "")
  }

  /** What the `edubot-history-v2` storage slot yields: nothing (or an empty
      string), text that `JSON.parse` rejects, JSON that is not an array, or an
      array of messages. */
  datatype Stored = Nothing | Unparsable | NotAnArray | SavedArray(messages: seq<Message>)

  // ---------------------------------------------------------------------------
  // The history sent upstream (`getApiHistory`)

  function ToTurn(m: Message): Turn {
    Turn(m.role, m.content)
  }

  predicate IsChatMessage(m: Message) {
    m.role == "user" || m.role == "assistant"
  }

  /** The user and assistant messages, in order, projected to `{role, content}`. */
  function ApiHistory(history: seq<Message>): (r: seq<Turn>)
    ensures |r| <= |history|
    ensures forall i :: 0 <= i < |r| ==> IsConversational(r[i])
  {
    var kept := Filter(history, IsChatMessage);
    assert forall i :: 0 <= i < |kept| ==> IsChatMessage(kept[i]) by {
      forall i | 0 <= i < |kept| ensures IsChatMessage(kept[i]) {
        assert kept[i] in kept;
      }
    }
    Map(kept, ToTurn)
  }

  lemma MapAppend<T, U>(a: seq<T>, b: seq<T>, f: T -> U)
    ensures Map(a + b, f) == Map(a, f) + Map(b, f)
  {
    assert forall i :: 0 <= i < |a + b| ==> Map(a + b, f)[i] == (Map(a, f) + Map(b, f))[i];
  }

  /** Appending a message appends its projection exactly when it is a user or
      assistant message. */
  lemma ApiHistoryAppend(history: seq<Message>, m: Message)
    ensures ApiHistory(history + [m])
         == ApiHistory(history) + (if IsChatMessage(m) then [ToTurn(m)] else [])
  {
    FilterAppend(history, [m], IsChatMessage);
    assert Filter([m], IsChatMessage) == (if IsChatMessage(m) then [m] else []);
    MapAppend(Filter(history, IsChatMessage), Filter([m], IsChatMessage), ToTurn);
  }

  /** Filtering then projecting is projecting then applying the server's own
      role filter: the client forwards exactly the conversation the server keeps. */
  lemma {:induction false} ApiHistoryIsConversation(history: seq<Message>)
    ensures ApiHistory(history) == Conversation(Map(history, ToTurn))
    decreases |history|
  {
    if history != [] {
      var init, last := history[..|history| - 1], history[|history| - 1];
      assert history == init + [last];
      ApiHistoryIsConversation(init);
      ApiHistoryAppend(init, last);
      MapAppend(init, [last], ToTurn);
      FilterAppend(Map(init, ToTurn), Map([last], ToTurn), IsConversational);
      assert Filter(Map([last], ToTurn), IsConversational)
          == (if IsChatMessage(last) then [ToTurn(last)] else []);
    }
  }

  /** The server's role filter leaves what the client sends as it is. */
  lemma ServerKeepsApiHistory(history: seq<Message>)
    ensures Conversation(ApiHistory(history)) == ApiHistory(history)
  {
    var sent := ApiHistory(history);
    assert forall t :: t in sent ==> IsConversational(t) by {
      forall t | t in sent ensures IsConversational(t) {
        var i :| 0 <= i < |sent| && sent[i] == t;
      }
    }
    FilterAll(sent, IsConversational);
  }

  // ---------------------------------------------------------------------------
  // Pure helpers behind the buttons

  /** The index of the last assistant message among the first `n`, if any. */
  function LatestIndex(history: seq<Message>, n: nat): (r: Option<nat>)
    requires n <= |history|
    ensures r.Some? ==> r.value < n && history[r.value].role == "assistant"
                        && forall j :: r.value < j < n ==> history[j].role != "assistant"
    ensures r.None? ==> forall j :: 0 <= j < n ==> history[j].role != "assistant"
  {
    if n == 0 then None
    else if history[n - 1].role == "assistant" then Some(n - 1)
    else LatestIndex(history, n - 1)
  }

  /** `copyLatestAnswer`'s search, `[...history].reverse().find(...)`: the
      last assistant message, or nothing to copy when there is none. */
  function LatestAssistant(history: seq<Message>): (r: Option<Message>)
    ensures r.None? <==> forall i :: 0 <= i < |history| ==> history[i].role != "assistant"
    ensures r.Some? ==> exists i :: 0 <= i < |history| && history[i] == r.value
                          && r.value.role == "assistant"
                          && forall j :: i < j < |history| ==> history[j].role != "assistant"
  {
    match LatestIndex(history, |history|)
    case Some(i) => Some(history[i])
    case None => None
  }

  lemma {:induction false} LatestIndexPrefix(a: seq<Message>, b: seq<Message>, n: nat)
    requires n <= |a| && n <= |b| && a[..n] == b[..n]
    ensures LatestIndex(a, n) == LatestIndex(b, n)
  {
    if n > 0 {
      assert a[n - 1] == a[..n][n - 1] == b[..n][n - 1] == b[n - 1];
      assert a[..n - 1] == a[..n][..n - 1];
      assert b[..n - 1] == b[..n][..n - 1];
      LatestIndexPrefix(a, b, n - 1);
    }
  }

  /** Appending an assistant message makes it the latest one; appending anything
      else leaves the latest one as it was. */
  lemma LatestAssistantAppend(history: seq<Message>, m: Message)
    ensures LatestAssistant(history + [m])
         == (if m.role == "assistant" then Some(m) else LatestAssistant(history))
  {
    var h := history + [m];
    assert h[..|history|] == history[..|history|];
    LatestIndexPrefix(h, history, |history|);
  }

  /** One transcript line: the upper-cased role, a colon and the content. */
  function ExportLine(m: Message): string {
    ToUpper(m.role) + ": " + m.content
  }

  /** `exportChatTranscript`'s text: the lines joined by blank lines, or nothing
      to download when the history is empty. */
  function ExportTranscript(history: seq<Message>): (r: Option<string>)
    ensures r.None? <==> history == []
  {
    if history == [] then None else Some(Join(Map(history, ExportLine), "\n\n"))
  }

  /** A transcript grows line by line: one more message adds a blank line and
      its line at the end. */
  lemma ExportAppend(history: seq<Message>, m: Message)
    ensures ExportTranscript(history + [m])
         == Some(if history == [] then ExportLine(m)
                 else ExportTranscript(history).value + "\n\n" + ExportLine(m))
  {
    MapAppend(history, [m], ExportLine);
    assert Map([m], ExportLine) == [ExportLine(m)];
    if history == [] {
      assert Map(history + [m], ExportLine) == [ExportLine(m)];
    } else {
      JoinSnoc(Map(history, ExportLine), ExportLine(m), "\n\n");
    }
  }

  /** `capitalize` on ASCII: the first character upper-cased, the rest kept. */
  function Capitalize(value: string): (r: string)
    ensures |r| == |value|
    ensures value != [] ==> r[0] == UpperChar(value[0]) && r[1..] == value[1..]
  {
    if value == [] then [] else [UpperChar(value[0])] + value[1..]
  }

  /** Capitalizing twice is capitalizing once. */
  lemma CapitalizeIdempotent(value: string)
    ensures Capitalize(Capitalize(value)) == Capitalize(value)
  {
    if value != [] {
      var c := value[0];
      assert UpperChar(UpperChar(c)) == UpperChar(c);
      assert Capitalize(value)[1..] == value[1..];
    }
  }

  // ---------------------------------------------------------------------------
  // The backend reply (`fetchBackendAnswer`)

  /** What `/api/chat` hands back: a rejected `fetch` with the message it rejects
      with, a non-ok status with its status text and the body's `error` field, or
      an ok body. An empty string stands for a field that is missing, `null` or
      empty. */
  datatype BackendOutcome =
    | NetworkFailure(message: string)
    | NotOk(statusText: string, errorField: string)
    | OkBody(answer: string, provider: string, mode: string)

  const UnknownServerError := "Unknown server error"
  const EmptyAnswerError := "Server returned an empty answer."

  /** The message of a non-ok reply: the body's `error`, else the status text,
      else a fixed text. */
  function ErrorText(statusText: string, errorField: string): (r: string)
    ensures r != ""
    ensures errorField != "" ==> r == errorField
    ensures errorField == "" && statusText != "" ==> r == statusText
    ensures errorField == "" && statusText == "" ==> r == UnknownServerError
  {
    var fallback := if statusText != "" then statusText else UnknownServerError;
    if errorField != "" then errorField else fallback
  }

  /** The reply the page shows: its text and the tags `pushAssistantMessage` stores. */
  datatype Reply = Reply(answer: string, provider: string, mode: string)

  /** `fetchBackendAnswer`: the answer with its tags, or the message it throws. */
  function BackendAnswer(outcome: BackendOutcome): (r: Result<Reply, string>)
    ensures r.Success? <==> outcome.OkBody? && outcome.answer != ""
    ensures r.Success? ==> r.value == Reply(outcome.answer, outcome.provider, outcome.mode)
    ensures outcome.NetworkFailure? ==> r == Failure(outcome.message)
    ensures r.Failure? && !outcome.NetworkFailure? ==> r.error != ""
    ensures outcome.NotOk? ==> r == Failure(ErrorText(outcome.statusText, outcome.errorField))
    ensures outcome.OkBody? && outcome.answer == "" ==> r == Failure(EmptyAnswerError)
  {
    match outcome
    case NetworkFailure(message) => Failure(message)
    case NotOk(statusText, errorField) => Failure(ErrorText(statusText, errorField))
    case OkBody(answer, provider, mode) =>
      if answer == "" then Failure(EmptyAnswerError) else Success(Reply(answer, provider, mode))
  }

  /** The local demo reply, tagged the way both `getAIResponse` (standalone) and
      `handleAsk`'s catch tag it. */
  function DemoReply(question: string): Reply {
    Reply(ClientMockResponse(question), "demo", "mock")
  }

  /** What `handleAsk` ends up pushing: the demo reply when standalone or when
      the backend fails, the backend's reply otherwise. */
  function AssistantReply(standalone: bool, question: string, outcome: BackendOutcome): (r: Reply)
    ensures standalone ==> r == DemoReply(question)
    ensures !standalone && BackendAnswer(outcome).Failure? ==> r == DemoReply(question)
    ensures !standalone && BackendAnswer(outcome).Success? ==> r == BackendAnswer(outcome).value
    ensures r.answer != ""
  {
    if standalone then DemoReply(question)
    else match BackendAnswer(outcome)
      case Success(reply) => reply
      case Failure(_) => DemoReply(question)
  }

  /** `apiOnline` after an ask: untouched when standalone, else whether the
      backend answered. */
  function ApiOnlineAfter(standalone: bool, apiOnline: bool, outcome: BackendOutcome): (r: bool)
    ensures standalone ==> r == apiOnline
    ensures !standalone ==> (r <==> outcome.OkBody? && outcome.answer != "")
  {
    if standalone then apiOnline else BackendAnswer(outcome).Success?
  }

  /** Standalone mode never looks at the network: any two outcomes give the same reply. */
  lemma StandaloneIgnoresNetwork(question: string, a: BackendOutcome, b: BackendOutcome)
    ensures AssistantReply(true, question, a) == AssistantReply(true, question, b)
    ensures AssistantReply(true, question, a).provider == "demo"
    ensures AssistantReply(true, question, a).mode == "mock"
  {
  }

  /** A reply tagged with a provider other than `demo`, or with a non-`mock`
      mode, came from the backend. */
  lemma NonDemoTagsComeFromBackend(standalone: bool, question: string, outcome: BackendOutcome)
    requires AssistantReply(standalone, question, outcome).provider != "demo"
          || AssistantReply(standalone, question, outcome).mode != "mock"
    ensures !standalone && outcome.OkBody? && outcome.answer != ""
    ensures AssistantReply(standalone, question, outcome)
         == Reply(outcome.answer, outcome.provider, outcome.mode)
  {
  }

  // ---------------------------------------------------------------------------
  // The session (`state` and the functions that update it)

  class ChatSession {
    var history: seq<Message>
    var apiOnline: bool
    var pollingTimer: Option<nat>
    const isStandalone: bool
    var isLoading: bool
    /** The `edubot-history-v2` slot of `localStorage`. */
    var storage: Stored

    /** The initial `state`, opened from a page served as a file when `standalone`. */
    constructor(standalone: bool, stored: Stored)
      ensures history == [] && !apiOnline && pollingTimer == None && !isLoading
      ensures isStandalone == standalone && storage == stored
    {
      history := [];
      apiOnline := false;
      pollingTimer := None;
      isStandalone := standalone;
      isLoading := false;
      storage := stored;
    }

    /** The history the page shows once it has been hydrated or reset. */
    predicate Shown()
      reads this
    {
      history != []
    }

    /** `persistHistory`: the slot now holds the history. */
    method Persist()
      modifies this
      ensures storage == SavedArray(history)
      ensures history == old(history) && apiOnline == old(apiOnline)
      ensures pollingTimer == old(pollingTimer) && isLoading == old(isLoading)
    {
      storage := SavedArray(history);
    }

    /** `hydrateHistory`: a stored array replaces the history; an empty history
        then gets one welcome message. Nothing is written back. */
    method Hydrate(id: string, now: string)
      modifies this
      ensures Shown()
      ensures var loaded := if old(storage).SavedArray? then old(storage).messages else old(history);
              history == (if loaded == [] then [Welcome(id, now)] else loaded)
      ensures storage == old(storage) && apiOnline == old(apiOnline)
      ensures pollingTimer == old(pollingTimer) && isLoading == old(isLoading)
    {
      if storage.SavedArray? {
        history := storage.messages;
      }
      if |history| == 0 {
        history := history + [Welcome(id, now)];
      }
    }

    /** `resetChat`: exactly one welcome message, persisted. */
    method Reset(id: string, now: string)
      modifies this
      ensures Shown()
      ensures history == [Welcome(id, now)] && storage == SavedArray(history)
      ensures apiOnline == old(apiOnline) && pollingTimer == old(pollingTimer)
      ensures isLoading == old(isLoading)
    {
      history := [Welcome(id, now)];
      Persist();
    }

    /** The first half of `handleAsk`, up to the request: refused while an ask
        is in flight or when the trimmed input is empty; otherwise marks the
        session busy, appends the user message and persists it. Returns the
        question to send. */
    method BeginAsk(input: string, id: string, now: string) returns (question: Option<string>)
      modifies this
      ensures question.Some? <==> !old(isLoading) && Trim(input) != ""
      ensures question.None? ==> history == old(history) && storage == old(storage)
                                 && isLoading == old(isLoading)
      ensures question.Some? ==> question.value == Trim(input) && isLoading
                                 && history == old(history) + [CreateMessage(id, "user", question.value, now, "", "")]
                                 && storage == SavedArray(history)
      ensures old(Shown()) ==> Shown()
      ensures apiOnline == old(apiOnline) && pollingTimer == old(pollingTimer)
    {
      if isLoading {
        return None;
      }
      var trimmed := Trim(input);
      if trimmed == "" {
        return None;
      }
      isLoading := true;
      history := history + [CreateMessage(id, "user", trimmed, now, "", "")];
      Persist();
      question := Some(trimmed);
    }

    /** The request body's `history`, as it is when the request is sent. */
    function RequestHistory(): seq<Turn>
      reads this
    {
      ApiHistory(history)
    }

    /** The second half of `handleAsk`: `getAIResponse` (or the demo reply),
        `pushAssistantMessage`, then `isLoading` cleared on every path. */
    method CompleteAsk(question: string, outcome: BackendOutcome, id: string, now: string)
      modifies this
      ensures var reply := AssistantReply(isStandalone, question, outcome);
              history == old(history) + [CreateMessage(id, "assistant", reply.answer, now, reply.provider, reply.mode)]
      ensures apiOnline == ApiOnlineAfter(isStandalone, old(apiOnline), outcome)
      ensures !isLoading && storage == SavedArray(history) && Shown()
      ensures pollingTimer == old(pollingTimer)
    {
      var reply: Reply;
      if isStandalone {
        reply := DemoReply(question);
      } else {
        var answer := BackendAnswer(outcome);
        if answer.Success? {
          apiOnline := true;
          reply := answer.value;
        } else {
          apiOnline := false;
          reply := DemoReply(question);
        }
      }
      history := history + [CreateMessage(id, "assistant", reply.answer, now, reply.provider, reply.mode)];
      Persist();
      isLoading := false;
    }

    /** `checkApiHealth` with the probe's result as an input: a no-op when
        standalone, otherwise the flag becomes the probe's result. */
    method CheckApiHealth(probeOk: bool)
      modifies this
      ensures apiOnline == (if isStandalone then old(apiOnline) else probeOk)
      ensures history == old(history) && storage == old(storage)
      ensures isLoading == old(isLoading) && pollingTimer == old(pollingTimer)
    {
      if isStandalone {
        return;
      }
      apiOnline := probeOk;
    }

    /** `startStatusPolling`: a no-op when standalone; otherwise the first probe
        runs and `timer` replaces any earlier interval. */
    method StartStatusPolling(probeOk: bool, timer: nat)
      modifies this
      ensures isStandalone ==> apiOnline == old(apiOnline) && pollingTimer == old(pollingTimer)
      ensures !isStandalone ==> apiOnline == probeOk && pollingTimer == Some(timer)
      ensures history == old(history) && storage == old(storage) && isLoading == old(isLoading)
    {
      if isStandalone {
        return;
      }
      CheckApiHealth(probeOk);
      pollingTimer := Some(timer);
    }
  }

  /** The page's start-up (`initialize`, without rendering): hydrate, then poll. */
  method Initialize(standalone: bool, stored: Stored, welcomeId: string, now: string,
                    probeOk: bool, timer: nat)
    returns (session: ChatSession)
    ensures fresh(session) && session.Shown() && !session.isLoading
    ensures session.apiOnline == (!standalone && probeOk)
    ensures stored.SavedArray? && stored.messages != [] ==> session.history == stored.messages
    ensures !(stored.SavedArray? && stored.messages != []) ==> session.history == [Welcome(welcomeId, now)]
  {
    session := new ChatSession(standalone, stored);
    session.Hydrate(welcomeId, now);
    session.StartStatusPolling(probeOk, timer);
  }
}
