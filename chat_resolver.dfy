/** The `/api/chat` handler in server.js:52-122: request validation, the choice of
    one answer source, and the reply envelope. Every network exchange is an input
    (`Network`), so the handler is a function from the request, the configured
    keys and those exchanges to the reply and the list of upstream calls made. */
module ChatResolver {
  import opened Wrappers
  import opened Text
  import opened Turns
  import opened ServerHistory
  import opened ServerKnowledge
  import opened Wikipedia

  /** The seven `validModels`. */
  datatype Model = Gemini | Groq | Cohere | HuggingFace | WikipediaModel | ChatGpt | Claude

  function ModelName(m: Model): string {
    match m
    case Gemini => "gemini"
    case Groq => "groq"
    case Cohere => "cohere"
    case HuggingFace => "huggingface"
    case WikipediaModel => "wikipedia"
    case ChatGpt => "chatgpt"
    case Claude => "claude"
  }

  const ValidModels: seq<string> := ["gemini", "groq", "cohere", "huggingface", "wikipedia", "chatgpt", "claude"]

  /** `validModels.includes(model)`, answered with the model it names. */
  function ParseModel(name: string): (r: Option<Model>)
    ensures r.Some? ==> ModelName(r.value) == name
    ensures r.None? <==> name !in ValidModels
  {
    if name == "gemini" then Some(Gemini)
    else if name == "groq" then Some(Groq)
    else if name == "cohere" then Some(Cohere)
    else if name == "huggingface" then Some(HuggingFace)
    else if name == "wikipedia" then Some(WikipediaModel)
    else if name == "chatgpt" then Some(ChatGpt)
    else if name == "claude" then Some(Claude)
    else None
  }

  /** Model names and models are in one-to-one correspondence. */
  lemma ModelNameRoundTrip(m: Model)
    ensures ParseModel(ModelName(m)) == Some(m)
    ensures ModelName(m) in ValidModels
  {
  }

  /** The API keys read from the environment; "" is an unset key. */
  datatype Keys = Keys(openAi: string, gemini: string, anthropic: string,
                       huggingFace: string, groq: string, cohere: string)

  /** The key a provider needs; the Wikipedia model needs none. */
  function KeyFor(m: Model, keys: Keys): Option<string> {
    match m
    case Gemini => Some(keys.gemini)
    case Groq => Some(keys.groq)
    case Cohere => Some(keys.cohere)
    case HuggingFace => Some(keys.huggingFace)
    case WikipediaModel => None
    case ChatGpt => Some(keys.openAi)
    case Claude => Some(keys.anthropic)
  }

  /** The provider for `m` is called: it has a key and the key is non-empty. */
  predicate Configured(m: Model, keys: Keys) {
    KeyFor(m, keys).Some? && KeyFor(m, keys).value != ""
  }

  datatype Cost = Free | Paid

  /** The `cost` tag of a live answer. */
  function CostOf(m: Model): (c: Cost)
    ensures c == Paid <==> m == ChatGpt || m == Claude
  {
    if m == ChatGpt || m == Claude then Paid else Free
  }

  /** The label in a provider's error message. */
  function Label(m: Model): string {
    match m
    case Gemini => "Gemini"
    case Groq => "Groq"
    case Cohere => "Cohere"
    case HuggingFace => "HuggingFace"
    case WikipediaModel => "Wikipedia"
    case ChatGpt => "ChatGPT"
    case Claude => "Claude"
  }

  /** What a provider's HTTP exchange produced: a readable body holding the text
      at the provider's answer path (None when absent), a non-ok status with its
      body text, or a rejected `fetch` / unreadable body with its error message. */
  datatype ProviderReply =
    | Replied(text: Option<string>)
    | HttpError(status: nat, body: string)
    | Unreachable(message: string)

  const NoAnswer := "No answer returned."

  /** The value a `call...` function resolves to, or the message it throws. */
  function ProviderAnswer(m: Model, reply: ProviderReply): (r: Result<string, string>)
    ensures r.Success? <==> reply.Replied?
    ensures r.Success? ==>
      (r.value != "" && !IsSpace(r.value[0]) && !IsSpace(r.value[|r.value| - 1]))
    ensures r.Success? ==>
      (r.value == NoAnswer <==>
        (reply.text.None? || Trim(reply.text.value) == [] || Trim(reply.text.value) == NoAnswer))
    ensures reply.HttpError? ==>
      r == Failure(Label(m) + " API error (" + NatToString(reply.status) + "): " + reply.body)
    ensures reply.Unreachable? ==> r == Failure(reply.message)
    ensures reply.Replied? && reply.text.Some? && Trim(reply.text.value) != [] ==>
      r == Success(Trim(reply.text.value))
    ensures reply.Replied? && (reply.text.None? || Trim(reply.text.value) == []) ==>
      r == Success(NoAnswer)
  {
    match reply
    case Replied(text) =>
      if text.Some? && Trim(text.value) != [] then Success(Trim(text.value)) else Success(NoAnswer)
    case HttpError(status, body) =>
      Failure(Label(m) + " API error (" + NatToString(status) + "): " + body)
    case Unreachable(message) => Failure(message)
  }

  /** The body each provider call sends, built from the history and the question. */
  function PayloadFor(m: Model, history: seq<Turn>, question: string): Payload
    requires m != WikipediaModel
  {
    match m
    case Gemini => GeminiPrompt(GeminiText(history, question))
    case Groq => Messages(ChatMessages(history, question))
    case ChatGpt => Messages(ChatMessages(history, question))
    case Claude => Messages(ClaudeMessages(history, question))
    case Cohere => CohereRequest(CohereHistory(history), question)
    case HuggingFace => HuggingFaceInputs(HuggingFacePrompt(history, question))
  }

  /** An upstream call the handler makes. */
  datatype Call =
    | ProviderCall(model: Model, payload: Payload)
    | WikipediaLookup(term: string)

  /** The exchanges a request may cause: the one provider call, the explicit
      Wikipedia lookup of the `wikipedia` model, and the automatic lookup. */
  datatype Network = Network(provider: ProviderReply, explicitWiki: WikiResponse, autoWiki: WikiResponse)

  /** The request body; `None` is a missing or non-string field. */
  datatype Request = Request(question: Option<string>, model: Option<string>, history: seq<Turn>)

  datatype Mode = Live | WikipediaMode | Mock

  /** The response: status 200 with the envelope, 400, or 500. */
  datatype ChatReply =
    | Answer(answer: string, mode: Mode, provider: string, cost: Option<Cost>)
    | BadRequest(error: string)
    | ServerError(error: string)

  function Status(reply: ChatReply): nat {
    match reply
    case Answer(_, _, _, _) => 200
    case BadRequest(_) => 400
    case ServerError(_) => 500
  }

  const ProxyFailure := "AI proxy failed. "

  /** The question triggers the automatic Wikipedia lookup. */
  predicate AsksWhatOrWho(question: string) {
    Contains(ToLower(question), "what is") || Contains(ToLower(question), "who is")
  }

  /** The automatic lookup and, when it yields nothing or fails, the mock answer
      `mock` (the knowledge-base answer to the question). */
  function AutoWikiOrMock(question: string, modelName: string, net: Network, mock: string)
    : (r: (ChatReply, seq<Call>))
    requires mock != ""
    ensures r.0.Answer? && r.0.answer != ""
    ensures r.0.mode == WikipediaMode ==> AsksWhatOrWho(question)
    ensures r.0.mode != WikipediaMode ==> r.0 == Answer(mock, Mock, modelName, None)
    ensures AsksWhatOrWho(question) && WikiAnswer(net.autoWiki).Success? && WikiAnswer(net.autoWiki).value.Some? ==>
      r.0 == Answer(WikiAnswer(net.autoWiki).value.value, WikipediaMode, "wikipedia", Some(Free))
    ensures !(AsksWhatOrWho(question) && WikiAnswer(net.autoWiki).Success? && WikiAnswer(net.autoWiki).value.Some?) ==>
      r.0 == Answer(mock, Mock, modelName, None)
    ensures r.1 == (if AsksWhatOrWho(question) then [WikipediaLookup(SearchTerm(question))] else [])
  {
    if AsksWhatOrWho(question) then
      var lookup := [WikipediaLookup(SearchTerm(question))];
      match WikiAnswer(net.autoWiki)
      case Success(Some(text)) => (Answer(text, WikipediaMode, "wikipedia", Some(Free)), lookup)
      case _ => (Answer(mock, Mock, modelName, None), lookup)
    else
      (Answer(mock, Mock, modelName, None), [])
  }

  /** The two 400 checks, in order: the question first, then the model. */
  function Validate(req: Request): (r: Result<(string, Model), string>)
    ensures (req.question.None? || req.question.value == "") ==> r == Failure("Question is required.")
    ensures (req.question.Some? && req.question.value != ""
      && (req.model.None? || req.model.value !in ValidModels)) ==>
      r == Failure("Invalid or missing model.")
    // The question is not trimmed: any non-empty string with a valid model is accepted.
    ensures r.Success? <==>
      req.question.Some? && req.question.value != "" && req.model.Some? && req.model.value in ValidModels
    ensures r.Success? ==>
      r.value.0 == req.question.value && ModelName(r.value.1) == req.model.value
  {
    if req.question.None? || req.question.value == "" then Failure("Question is required.")
    else if req.model.None? || ParseModel(req.model.value).None? then Failure("Invalid or missing model.")
    else Success((req.question.value, ParseModel(req.model.value).value))
  }

  /** The selection chain for a valid request: the configured provider, else the
      explicit Wikipedia lookup, else the automatic lookup, else the mock answer. */
  function Resolve(question: string, m: Model, history: seq<Turn>, keys: Keys, net: Network, mock: string)
    : (r: (ChatReply, seq<Call>))
    requires mock != ""
    ensures !r.0.BadRequest? && |r.1| <= 2
    ensures r.0.Answer? ==> r.0.answer != ""
  {
    if Configured(m, keys) then
      var call := [ProviderCall(m, PayloadFor(m, history, question))];
      match ProviderAnswer(m, net.provider)
      case Success(answer) => (Answer(answer, Live, ModelName(m), Some(CostOf(m))), call)
      case Failure(message) => (ServerError(ProxyFailure + message), call)
    else if m == WikipediaModel then
      var lookup := [WikipediaLookup(SearchTerm(question))];
      match WikiAnswer(net.explicitWiki)
      case Failure(message) => (ServerError(ProxyFailure + message), lookup)
      case Success(Some(text)) => (Answer(text, Live, "wikipedia", Some(Free)), lookup)
      case Success(None) =>
        var rest := AutoWikiOrMock(question, ModelName(m), net, mock);
        (rest.0, lookup + rest.1)
    else
      AutoWikiOrMock(question, ModelName(m), net, mock)
  }

  /** A provider is called only for the requested model, only with a key, and
      at most once; Wikipedia is consulted only for the `wikipedia` model or a
      "what is" / "who is" question. */
  lemma ResolveCalls(question: string, m: Model, history: seq<Turn>, keys: Keys, net: Network, mock: string)
    requires mock != ""
    ensures var calls := Resolve(question, m, history, keys, net, mock).1;
      && (forall c :: c in calls && c.ProviderCall? ==>
            c.model == m && Configured(m, keys) && m != WikipediaModel
            && c.payload == PayloadFor(m, history, question))
      && (forall i, j :: 0 <= i < j < |calls| ==> !(calls[i].ProviderCall? && calls[j].ProviderCall?))
      && (forall c :: c in calls && c.WikipediaLookup? ==>
            c.term == SearchTerm(question) && (m == WikipediaModel || AsksWhatOrWho(question)))
  {
    var r := Resolve(question, m, history, keys, net, mock);
    if Configured(m, keys) {
      assert r.1 == [ProviderCall(m, PayloadFor(m, history, question))];
    } else if m == WikipediaModel {
      var lookup := [WikipediaLookup(SearchTerm(question))];
      if WikiAnswer(net.explicitWiki) == Success(None) {
        var rest := AutoWikiOrMock(question, ModelName(m), net, mock);
        assert r.1 == lookup + rest.1;
      } else {
        assert r.1 == lookup;
      }
    } else {
      assert r == AutoWikiOrMock(question, ModelName(m), net, mock);
    }
  }

  /** Each answer mode and its tags: a live answer names the requested model and
      its cost, a Wikipedia answer came from the automatic lookup of a "what is" /
      "who is" question, and a mock answer is `mock`. */
  lemma ResolveAnswers(question: string, m: Model, history: seq<Turn>, keys: Keys, net: Network, mock: string)
    requires mock != ""
    ensures var reply := Resolve(question, m, history, keys, net, mock).0;
      && (reply.Answer? && reply.mode == Live ==>
            reply.provider == ModelName(m) && reply.cost == Some(CostOf(m)))
      && (reply.Answer? && reply.mode == WikipediaMode ==>
            AsksWhatOrWho(question) && reply.provider == "wikipedia" && reply.cost == Some(Free))
      && (reply.Answer? && reply.mode == Mock ==>
            reply == Answer(mock, Mock, ModelName(m), None))
  {
    var r := Resolve(question, m, history, keys, net, mock);
    if Configured(m, keys) {
      match ProviderAnswer(m, net.provider)
      case Success(answer) =>
        assert r.0 == Answer(answer, Live, ModelName(m), Some(CostOf(m)));
      case Failure(message) =>
        assert r.0.ServerError?;
    } else if m == WikipediaModel {
      match WikiAnswer(net.explicitWiki)
      case Failure(message) =>
        assert r.0.ServerError?;
      case Success(Some(text)) =>
        assert r.0 == Answer(text, Live, "wikipedia", Some(Free));
      case Success(None) =>
        assert r.0 == AutoWikiOrMock(question, ModelName(m), net, mock).0;
    } else {
      assert r == AutoWikiOrMock(question, ModelName(m), net, mock);
    }
  }

  /** A 500 comes exactly from a failing configured provider or an unreachable
      explicit lookup, never from the automatic one; the `wikipedia` model falls
      through, without failing, when there is no extract. */
  lemma ResolveErrors(question: string, m: Model, history: seq<Turn>, keys: Keys, net: Network, mock: string)
    requires mock != ""
    ensures var reply := Resolve(question, m, history, keys, net, mock).0;
      && (reply.ServerError? ==>
            (Configured(m, keys) && ProviderAnswer(m, net.provider).Failure?
              && reply.error == ProxyFailure + ProviderAnswer(m, net.provider).error)
            || (!Configured(m, keys) && m == WikipediaModel && net.explicitWiki.Unreachable?
              && reply.error == ProxyFailure + net.explicitWiki.message))
      && (m == WikipediaModel && !net.explicitWiki.Unreachable? ==> reply.Answer?)
      && (Configured(m, keys) && ProviderAnswer(m, net.provider).Failure? ==>
            reply == ServerError(ProxyFailure + ProviderAnswer(m, net.provider).error))
      && (!Configured(m, keys) && m == WikipediaModel && net.explicitWiki.Unreachable? ==>
            reply == ServerError(ProxyFailure + net.explicitWiki.message))
  {
  }

  /** Which source answers: a configured provider's answer is returned live with
      its cost; for the `wikipedia` model an explicit extract is returned live
      and free; everything else goes on to the automatic lookup and the mock. */
  lemma ResolveChain(question: string, m: Model, history: seq<Turn>, keys: Keys, net: Network, mock: string)
    requires mock != ""
    ensures var r := Resolve(question, m, history, keys, net, mock);
      && (Configured(m, keys) && ProviderAnswer(m, net.provider).Success? ==>
            r == (Answer(ProviderAnswer(m, net.provider).value, Live, ModelName(m), Some(CostOf(m))),
                  [ProviderCall(m, PayloadFor(m, history, question))]))
      && (!Configured(m, keys) && m == WikipediaModel
          && WikiAnswer(net.explicitWiki).Success? && WikiAnswer(net.explicitWiki).value.Some? ==>
            r == (Answer(WikiAnswer(net.explicitWiki).value.value, Live, "wikipedia", Some(Free)),
                  [WikipediaLookup(SearchTerm(question))]))
      && (!Configured(m, keys) && m == WikipediaModel && WikiAnswer(net.explicitWiki) == Success(None) ==>
            r.0 == AutoWikiOrMock(question, ModelName(m), net, mock).0)
      && (!Configured(m, keys) && m != WikipediaModel ==>
            r == AutoWikiOrMock(question, ModelName(m), net, mock))
  {
  }

  /** The mock answer comes exactly when nothing else answered or failed: no
      configured provider, no explicit extract or failure for the `wikipedia`
      model, and no automatic extract. */
  lemma ResolveMockWhenNothingAnswers(question: string, m: Model, history: seq<Turn>, keys: Keys, net: Network, mock: string)
    requires mock != ""
    ensures var reply := Resolve(question, m, history, keys, net, mock).0;
      reply == Answer(mock, Mock, ModelName(m), None) <==>
        !Configured(m, keys)
        && (m == WikipediaModel ==> WikiAnswer(net.explicitWiki) == Success(None))
        && !(AsksWhatOrWho(question) && WikiAnswer(net.autoWiki).Success? && WikiAnswer(net.autoWiki).value.Some?)
  {
    ResolveChain(question, m, history, keys, net, mock);
  }

  /** The `/api/chat` handler: the reply and the upstream calls, in order. A request
      that fails validation gets its 400 before any upstream call is made. */
  function HandleChat(req: Request, keys: Keys, net: Network): (r: (ChatReply, seq<Call>))
    ensures r.0.BadRequest? <==> Validate(req).Failure?
    ensures r.0.BadRequest? ==> r == (BadRequest(Validate(req).error), [])
    ensures Validate(req).Success? ==>
      var (question, m) := Validate(req).value;
      r == Resolve(question, m, req.history, keys, net, MockResponse(question))
  {
    match Validate(req)
    case Failure(error) => (BadRequest(error), [])
    case Success((question, m)) => Resolve(question, m, req.history, keys, net, MockResponse(question))
  }
}
