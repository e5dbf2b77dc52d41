# EduBot and the sports dashboard, modelled in Dafny

This project models the sequential logic of three JavaScript programs that
live in one repository:

- **The EduBot chat server** (`server.js`). The `/api/chat` handler:
  - validates the request;
  - picks one answer source: a configured AI provider, the explicit Wikipedia
    model, the automatic Wikipedia lookup for "what is" / "who is" questions,
    or the local knowledge base;
  - returns the `{answer, mode, provider, cost}` envelope, or a 400 or 500 error.

  Also modelled: how `mapHistoryToMessages` and each provider call shape the
  conversation history, the Wikipedia search term and answer format, and the
  first-match keyword table of `getMockResponse` with its word-boundary
  fallbacks.
- **The EduBot chat page** (`chatbot/script.js`). The session state is
  `history`, `isLoading`, `apiOnline`, `pollingTimer` and the storage slot. The
  model covers:
  - hydration from storage, the guarded ask (split into a begin step and a
    complete step), the demo fallback and its provider/mode tags, the health
    probe and reset;
  - the history projection sent upstream, the server error text, the page's own
    keyword table, and the copy, export and capitalize helpers.
- **The sports dashboard** (`script.js`). The team and player tables and the
  current location are a `Dashboard` object that the add-team form, the sample
  data, the import and the city search update in place. The pure rules over
  them are also modelled: `parseInt` with the form's defaults, the player
  filter, the distinct team list, the top performer, the totals, and the
  weather impact, alerts and recommendations.

Network exchanges are inputs. A provider reply, a Wikipedia summary response
and the backend outcome seen by the chat page are datatypes passed in. The
server's handler is therefore a function from the request, the configured keys
and those replies to the response and the list of upstream calls it made.
Message ids, clock readings, the probe result and timer handles are parameters.

Modules (one per concern, each in its own file):

- `Wrappers`, `Text`, `Seqs`: shared helpers.
  - `Text` covers JavaScript's `trim`, ASCII case mapping, `includes`,
    `startsWith`, `\b` word matches, `join` and decimal printing.
- Server: `Turns`, `Keywords`, `ServerKnowledge` (with worked examples in
  `ServerScenarios`), `Wikipedia`, `ServerHistory`, `ChatResolver`.
- Chat page: `ClientKnowledge`, `ChatClient`; `EndToEnd` relates what the page
  sends to what the server builds.
- Dashboard: `TeamData`, `Weather`, `Location`, `SportsDashboard`.

Text with no known topic can still match a row of the server's knowledge
base: the keyword "random" belongs to the probability row, so "asdkjasd random
gibberish" gets that row's answer and not the generic capability overview
(`ServerScenarios.Gibberish`).

## Model

| member | source | states |
|---|---|---|
| Turns.Conversation | server.js:217-219 | keeps exactly the user and assistant turns of the history, and never grows it |
| Keywords.AnyKeywordIff | server.js:531-533 | `entry.match.some(k => lower.includes(k))` holds exactly when some keyword of the row occurs in the lower-cased text |
| Keywords.FirstMatch | server.js:531-537 | `find` returns the earliest row with a keyword in the text, and no earlier row has one; None exactly when no row has one |
| ServerKnowledge.RowAnswersAreNotFallbacks | server.js:370-528 | every table answer is non-empty and differs from the four fallback answers |
| ServerKnowledge.MockResponse | server.js:366-554 | the knowledge-base answer is never empty |
| ServerKnowledge.MockResponseSpec | server.js:531-553 | a matching row means the earliest matching row answers; a fallback answers exactly when no row matches; the fallbacks are tried in the order explain, how-to, solve, generic, each needing a whole-word match and the failure of the earlier ones |
| ServerKnowledge.AnswerOfFirstMatch | server.js:531-537 | when row i is the first match, the reply is row i's answer |
| ServerKnowledge.GreetingCapturesHi | server.js:372-374 | any question whose lower case contains "hi" (such as "this") gets the greeting |
| ServerScenarios.Photosynthesis | server.js:409-410 | "What is photosynthesis?" gets the photosynthesis row's answer, not the "what" fallback |
| ServerScenarios.Gibberish | server.js:395-396 | "asdkjasd random gibberish" gets the probability row's answer because it contains "random" |
| Wikipedia.PhraseMatch | server.js:346 | the alternative the regular expression takes at a position is one of the four phrases and matches there ignoring case; None means none of them matches |
| Wikipedia.SearchTerm | server.js:345-347 | the search term is no longer than the question and has no white space at either end |
| Wikipedia.PhraseAfterWordDropped | server.js:346 | a phrase, in any letter case, that follows a word without spaces is removed and the word before it is kept, so the replace works anywhere in the question and not only at its start |
| Wikipedia.WordBeforePhraseKept | server.js:346 | no phrase matches inside a word that runs up to a phrase, so the scan keeps that word whole |
| Wikipedia.NoSpaceUnchanged | server.js:346 | every phrase ends in a space, so text without spaces passes the replace unchanged |
| Wikipedia.LeadingPhraseMatches | server.js:346 | a leading phrase in any letter case is matched as that phrase; no other alternative matches there |
| Wikipedia.LeadingPhraseDropped | server.js:345-347 | a question opening with a phrase, in any case, is looked up as the rest of the question |
| Wikipedia.LeadingPhraseThenWord | server.js:345-347 | a phrase followed by one word is looked up as exactly that word |
| Wikipedia.WikiAnswer | server.js:349-363 | a rejected fetch propagates; a non-ok status or a missing or empty extract gives null; otherwise the answer is the extract followed by "\n\nSource: Wikipedia" |
| ServerHistory.MessagesFor | server.js:132-153 | the result is never empty, always holds a system message, keeps only items with a role and content, ends with those items in order, and has one extra leading system prompt exactly when none survived: the surviving items alone when one of them is a system message, the system prompt followed by them otherwise |
| ServerHistory.MapHistoryToMessages | server.js:132-153 | the filter, the push and the unshift compute exactly `MessagesFor` |
| ServerHistory.ChatMessages | server.js:156-157 | the ChatGPT and Groq messages contain a system message, are the mapped history followed by the user's question, and end with that question |
| ServerHistory.GeminiSeesOnlyPresent | server.js:183-185 | the system prompt that mapping may add never reaches Gemini: its context turns are exactly the surviving non-system items |
| ServerHistory.GeminiText | server.js:183-198 | the Gemini text ends with the question; it is just the question when no non-system item survives, and otherwise the "(role) content" lines of those items joined by newlines, a blank line, then the question |
| ServerHistory.ClaudeMessages | server.js:217-221 | Claude receives the user and assistant turns in order, then the question as a user turn |
| ServerHistory.CohereHistory | server.js:277-282 | Cohere's chat history has one entry per user or assistant turn, with the same text; assistant becomes CHATBOT and user becomes USER |
| ServerHistory.HuggingFacePrompt | server.js:309-314 | the prompt ends with "user: question\nassistant:" and is only that line pair exactly when there is no conversation; otherwise it is the "role: content" lines of the conversation joined by newlines, then "\nuser: question\nassistant:" |
| ChatResolver.ParseModel | server.js:59-60 | a name is accepted exactly when it is one of the seven valid models, and the model it yields prints back as the name |
| ChatResolver.ModelNameRoundTrip | server.js:59 | parsing a model's name gives the model back, and every model name is valid |
| ChatResolver.CostOf | server.js:66-102 | cost is PAID exactly for chatgpt and claude, FREE otherwise |
| ChatResolver.ProviderAnswer | server.js:175-179 | a provider yields an answer exactly when it replied: the trimmed text, or "No answer returned." when the text is missing or blank; a non-ok status throws "<Label> API error (<status>): <body>"; a fetch failure throws its own message; a reply with non-blank text answers with that text trimmed, and one with missing or blank text answers "No answer returned." |
| ChatResolver.Validate | server.js:53-62 | a missing, non-string or empty question is rejected first with "Question is required."; then a missing or unknown model gets "Invalid or missing model."; anything else is accepted untrimmed, with the model it names |
| ChatResolver.AutoWikiOrMock | server.js:105-117 | the automatic lookup happens exactly for "what is" / "who is" questions and with the stripped term; such a question with an extract is answered by that extract, tagged mode wikipedia, provider wikipedia and FREE; every other outcome, failures included, is the mock answer tagged with the requested model and no cost |
| ChatResolver.Resolve | server.js:66-121 | a valid request never gets a 400, causes at most two upstream calls, and any answer is non-empty |
| ChatResolver.ResolveCalls | server.js:66-114 | a provider is called only for the requested model, only with a non-empty key, with that model's payload, and at most once; Wikipedia is consulted only with the search term and only for the wikipedia model or a "what is" / "who is" question |
| ChatResolver.ResolveAnswers | server.js:66-117 | a live answer names the requested model and its cost; a mode-wikipedia answer comes from a "what is" / "who is" question, with provider wikipedia and cost FREE; a mock answer is the knowledge-base answer with the requested model and no cost |
| ChatResolver.ResolveErrors | server.js:86-121 | a 500 comes exactly from a failing configured provider or an unreachable explicit Wikipedia lookup, carrying "AI proxy failed. " plus that provider's or lookup's message; the wikipedia model with a reachable lookup always answers |
| ChatResolver.ResolveChain | server.js:66-117 | a configured provider's answer is returned live with the model's name and cost after one call with its payload; for the wikipedia model an explicit extract is returned live, from wikipedia and FREE, after one lookup with the search term; without a provider answer or extract the automatic lookup and mock decide the reply |
| ChatResolver.ResolveMockWhenNothingAnswers | server.js:105-117 | the mock answer comes exactly when there is no configured provider, the wikipedia model's explicit lookup found nothing, and the automatic lookup did not answer a "what is" / "who is" question |
| ChatResolver.HandleChat | server.js:52-122 | a 400 is returned exactly when validation fails, with no upstream call; otherwise the reply is the selection chain with the knowledge-base answer for the question |
| ClientKnowledge.QuoteReply | chatbot/script.js:343-346 | the reply embeds the original question, unchanged, between a fixed prefix and a closing quote |
| ClientKnowledge.ClientMockResponse | chatbot/script.js:246-350 | the page's local answer is never empty |
| ClientKnowledge.ClientMockResponseSpec | chatbot/script.js:334-349 | a matching row means the earliest matching row answers; with no match, a question-like text (a '?', or starting with what/how/why/explain) is quoted back; the generic reply is given exactly when neither applies |
| ClientKnowledge.ClientGreetingCapturesHi | chatbot/script.js:252 | any question containing "hi" gets the greeting on the page too |
| ClientKnowledge.ExplainCapturedByAi | chatbot/script.js:320-328 | "explain" contains "ai", so row 17 or an earlier row answers any question mentioning "explain", and the general-explanation row never does |
| ClientKnowledge.QuoteOpenersWhyExplainUnreachable | chatbot/script.js:328-344 | a question opening with "why" or "explain" always matches a row, so those two openers never lead to the quoting fallback |
| ChatClient.ApiHistory | chatbot/script.js:240-244 | the history sent upstream is no longer than the page's history and holds only user and assistant turns |
| ChatClient.ApiHistoryAppend | chatbot/script.js:240-244 | appending a message appends its role and content exactly when it is a user or assistant message |
| ChatClient.ApiHistoryIsConversation | chatbot/script.js:240-244 | filtering then projecting equals projecting then applying the server's user/assistant filter |
| ChatClient.ServerKeepsApiHistory | chatbot/script.js:240-244 | the server's user/assistant filter leaves what the page sends unchanged |
| ChatClient.LatestAssistant | chatbot/script.js:452-456 | the message to copy is an assistant message with no assistant message after it; nothing to copy exactly when there is no assistant message |
| ChatClient.LatestAssistantAppend | chatbot/script.js:452-456 | after an assistant message is appended it is the one copied; appending anything else changes nothing |
| ChatClient.ExportTranscript | chatbot/script.js:458-461 | there is nothing to download exactly when the history is empty |
| ChatClient.ExportAppend | chatbot/script.js:460-461 | one more message adds a blank line and "ROLE: content" at the end of the transcript |
| ChatClient.Capitalize | chatbot/script.js:494-497 | same length; the first character is upper-cased and the rest is kept |
| ChatClient.CapitalizeIdempotent | chatbot/script.js:494-497 | capitalizing twice is capitalizing once |
| ChatClient.ErrorText | chatbot/script.js:221-229 | the body's `error`, else the status text, else "Unknown server error"; never empty |
| ChatClient.BackendAnswer | chatbot/script.js:210-238 | an answer exactly when the reply is ok with a non-empty answer, carrying its provider and mode; a non-ok reply fails with its error text; an empty answer fails with "Server returned an empty answer."; a rejected fetch fails with its own message, unchanged |
| ChatClient.AssistantReply | chatbot/script.js:170-175 | standalone mode, or any backend failure, gives the local answer tagged demo/mock; otherwise the backend's reply; never empty |
| ChatClient.ApiOnlineAfter | chatbot/script.js:196-207 | standalone leaves the flag alone; otherwise the flag becomes whether the backend answered |
| ChatClient.StandaloneIgnoresNetwork | chatbot/script.js:191-194 | in standalone mode the reply does not depend on the network outcome and is tagged demo/mock |
| ChatClient.NonDemoTagsComeFromBackend | chatbot/script.js:237 | a reply not tagged demo/mock came from an ok backend reply and carries its answer, provider and mode |
| ChatClient.ChatSession.constructor | chatbot/script.js:23-29 | the initial state: empty history, offline, no timer, not loading |
| ChatClient.ChatSession.Persist | chatbot/script.js:413-419 | the storage slot now holds the history; nothing else changes |
| ChatClient.ChatSession.Hydrate | chatbot/script.js:70-86 | a stored array replaces the history; anything else leaves it; an empty history then gets exactly one welcome message; afterwards the history is never empty |
| ChatClient.ChatSession.Reset | chatbot/script.js:421-425 | the history is exactly one welcome message, and it is persisted |
| ChatClient.ChatSession.BeginAsk | chatbot/script.js:141-163 | while loading, or for an input that trims to nothing, nothing changes; otherwise the session becomes busy and the trimmed question is appended as one user message and persisted before the request |
| ChatClient.ChatSession.CompleteAsk | chatbot/script.js:164-181 | exactly one assistant message with the chosen reply and tags is appended and persisted, `apiOnline` reflects the outcome, and `isLoading` is cleared |
| ChatClient.ChatSession.CheckApiHealth | chatbot/script.js:368-381 | a no-op when standalone; otherwise the flag becomes the probe's result |
| ChatClient.ChatSession.StartStatusPolling | chatbot/script.js:383-393 | a no-op when standalone; otherwise the first probe sets the flag and the new timer replaces the old one |
| ChatClient.Initialize | chatbot/script.js:33-39 | after start-up the history is the stored non-empty array or exactly the welcome message, nothing is loading, and the page is online only when not standalone and the probe succeeded |
| EndToEnd.SentEndsWithQuestion | chatbot/script.js:162-164 | the history the page sends ends with the question it has just pushed |
| EndToEnd.LastTurnRepeated | server.js:156-157 | when the sent history ends with the user question, mapping keeps it last and the server appends it again |
| EndToEnd.QuestionSentTwice | chatbot/script.js:162-164 | ChatGPT and Groq receive the user's question twice in a row |
| TeamData.ParseInt | script.js:935 | `parseInt` is NaN exactly when no digit follows the skipped white space and an optional sign |
| TeamData.ParseIntRoundTrip | script.js:935-942 | `parseInt` reads back a printed number, with or without a minus sign, and stops at the first non-digit |
| TeamData.ParseIntNoDigits | script.js:935-942 | text without any digit is NaN |
| TeamData.ParseIntOr | script.js:935-942 | `parseInt(s) \|\| fallback` is the parsed value when it parses to a non-zero number, and the fallback when it does not parse or parses to zero; never zero when the fallback is not zero |
| TeamData.NewTeam | script.js:934-944 | the new team keeps the form's name; each number is the form's field read by `parseInt(...) \|\| default`, with 11 players, 0 for matches, wins, losses, runs and wickets, and the current year for founded; the captain is the form's, or TBD when it is empty |
| TeamData.ZeroPlayersBecomesEleven | script.js:936 | a player count of "0" becomes 11 |
| TeamData.CheckNewTeam | script.js:947-962 | in this order: an empty name is refused, a name taken ignoring case is refused, wins plus losses above matches is refused, and only otherwise is the new team added |
| TeamData.SaveKeepsNamesUnique | script.js:952-962 | adding through the form keeps team names unique ignoring case |
| TeamData.AddMissing | script.js:1014-1018 | the existing teams stay first and at most one team per sample is appended |
| TeamData.AddMissingCovers | script.js:1014-1018 | afterwards every sample's name is present |
| TeamData.AddMissingIdempotent | script.js:1014-1018 | loading the samples a second time adds nothing |
| TeamData.SampleIgnoresLowerCaseTwin | script.js:1015 | the sample check is case-sensitive: with "eagles" present, "Eagles" is still appended and names stop being unique ignoring case |
| TeamData.MergeImport | script.js:1443-1450 | unparsable text changes nothing; imported teams and then players are appended after the existing ones, which are untouched; a teams field that cannot be spread stops the merge before the players |
| TeamData.FilterByTeam | script.js:197-200 | "all" gives every player; otherwise exactly the players of the selected team |
| TeamData.FilterByTeamIdempotent | script.js:197-200 | filtering the filtered list again changes nothing |
| TeamData.FilterByTeamAppend | script.js:197-200 | filtering a table split in two is filtering each part and joining them, so the players keep their table order |
| TeamData.AllShadowsTeamNamedAll | script.js:198-199 | a team called "all" cannot be selected on its own: choosing it shows every player |
| TeamData.Distinct | script.js:717 | `[...new Set(names)]` holds each name once and exactly the names of the list |
| TeamData.DistinctFirstOccurrence | script.js:717 | the names come in order of first occurrence |
| TeamData.DistinctTeams | script.js:717 | the team list holds exactly the teams some player belongs to |
| TeamData.SelectedTeam | script.js:714-724 | the selection is the previous one if it is still an option, "all" if there was none, and no selection ("") when a previous team is no longer an option |
| TeamData.SelectionSurvivesImport | script.js:714-724 | a selected team stays selected when more players arrive |
| TeamData.TopPlayer | script.js:636-643 | none for an empty table; otherwise a player with the most runs, the last such player on a tie |
| TeamData.TopPlayerNewcomer | script.js:641-643 | a newcomer with at least the top performer's runs becomes the top performer |
| TeamData.TotalsAfterAppend | script.js:654-656 | appended teams add their matches and runs to the totals |
| TeamData.TotalsNonNegative | script.js:654-656 | teams without negative numbers give non-negative totals |
| Weather.ImpactOf | script.js:1253-1271 | poor exactly for rain, snow or wind above 15; fair exactly when not poor and the temperature is outside 5..35 or the wind is above 10; good otherwise |
| Weather.MoreWindNeverBetter | script.js:1253-1259 | a stronger wind never improves the class |
| Weather.PrecipitationAlwaysPoor | script.js:1253 | rain or snow is poor whatever the temperature and wind |
| Weather.Alerts | script.js:1365-1386 | a wind warning exactly above 15, a rain warning exactly for rain, and the all-clear alone exactly when neither applies |
| Weather.WarningsMeanPoor | script.js:1253-1386 | every warning comes with a poor class; a fair or good class always comes with the all-clear |
| Weather.SnowIsPoorButAllClear | script.js:1253-1386 | calm snow is poor for play while the alert list gives the all-clear |
| Weather.RecommendationFor | script.js:1406-1424 | every class has a recommendation with a message and a venue |
| Weather.RecommendationsDistinct | script.js:1406-1424 | different classes get different recommendations |
| Weather.RecommendationOf | script.js:1403-1424 | rain or snow gives the indoor recommendation; each of the three recommendations comes exactly with its class: outdoor with good, covered with fair, indoor with poor |
| Location.OwnEntry | script.js:1168-1173 | coordinates exist exactly for london, paris, tokyo and sydney |
| Location.PropertyAsWritten | script.js:1175-1176 | `mockCoords[key]` is an own entry exactly for the four cities and an inherited member exactly for "constructor" and "__proto__" |
| Location.SearchAsWritten | script.js:1160-1181 | as written, a found place has the trimmed non-empty query as its city |
| Location.SearchCity | script.js:1160-1181 | a place is found exactly when the trimmed lower-cased query is one of the four cities; it then has that city's coordinates and the trimmed query as its label |
| Location.SearchAgreesOffInheritedKeys | script.js:1175-1176 | the written and the corrected lookups agree on every query that does not name an inherited member |
| Location.SearchIgnoresCase | script.js:1175 | queries equal after trimming and lower-casing find the same coordinates |
| Location.ConstructorHasNoCoordinates | script.js:1175-1179 | as written, "Constructor" moves the dashboard to a place without coordinates; the corrected lookup does not find it |
| SportsDashboard.SeedNamesUnique | script.js:2-42 | the three seeded team names differ ignoring case |
| SportsDashboard.Dashboard.constructor | script.js:2-56 | the dashboard starts with the three seeded teams, the six seeded players and New York with coordinates |
| SportsDashboard.Dashboard.SaveNewTeam | script.js:924-977 | the result is the form's check; the team is appended exactly when added and the tables are otherwise unchanged; unique names stay unique |
| SportsDashboard.Dashboard.AddSampleData | script.js:1009-1025 | the teams become the samples added where missing, every sample name is then present, and players and location are unchanged |
| SportsDashboard.Dashboard.ImportData | script.js:1441-1463 | the tables become the import merge of the old tables with the file; the location is unchanged |
| SportsDashboard.Dashboard.SearchLocation | script.js:1160-1193 | applies the corrected lookup `Location.SearchCity` (see Findings): one of the four known cities replaces the location, anything else leaves it; the location always keeps coordinates; the tables are unchanged |
| SportsDashboard.SampleDataTwice | script.js:1009-1025 | loading the sample data twice leaves the same teams as loading it once |

## Left out

- Answer texts of both knowledge bases are identifiers such as "greeting". The keyword lists and their order are exact.
- Case mapping is ASCII only. Input characters that JavaScript case-maps onto ASCII letters, or onto more than one character, are not modelled. For example, "Hİ" (U+0130) lower-cases to a text containing "hi" and gets the server's greeting, "TO\u212AYO" (Kelvin sign) lower-cases to "tokyo" and is found by the location search, and "ß" upper-cases to "SS", so `capitalize` can lengthen its text; the model keeps such characters as they are.
- `parseInt` is modelled for decimal text only. The "0x" hexadecimal prefix and its other radix rules are not modelled; the form's number fields do not produce them.
- Floating point is not modelled: win rate, batting averages, radar normalisation, `toFixed` and `toLocaleString`. Temperatures and wind speeds are whole numbers, and coordinates are whole numbers of 1e-4 degrees.
- HTTP is not modelled: requests, payload serialisation, response JSON parsing, and the Express setup, routing and `listen`. Provider, Wikipedia and backend replies are inputs, and a reply's text is already extracted from its JSON path.
- A `history` request field that is not an array is not modelled. The history is a sequence of turns whose missing fields are empty strings; the line for ServerHistory.HuggingFacePrompt below says what that leaves out.
- Rendering is not modelled: the DOM, the typing indicator, status text, clipboard, Blob downloads, Chart.js, Leaflet and jsPDF.
- Timers are explicit steps: `startStatusPolling` takes a timer handle, and a probe's result is a parameter.
- Message ids and timestamps (`crypto.randomUUID`, `Date`) are parameters.
- `localStorage` is one storage slot, `Stored`.
- ChatClient.ChatSession.Persist: assumes the write succeeds. `persistHistory` (chatbot/script.js:414-418) catches a failing `setItem` (full quota, blocked storage), only warns, and leaves the slot as it was; Reset, BeginAsk and CompleteAsk inherit this through Persist. ChatClient.ChatSession.Hydrate likewise reads only well-formed saved messages, while `hydrateHistory` (chatbot/script.js:75-76) adopts any parsed array as it is.
- ServerHistory.HuggingFacePrompt: a history element is a turn whose missing fields are empty strings. A `null` element is not modelled: `callClaude`, `callCohere` and `callHuggingFace` read `msg.role` on it (server.js:218, 278, 310) and throw, so a configured Claude, Cohere or Hugging Face provider answers with a 500 "AI proxy failed. Cannot read properties of null…", while `mapHistoryToMessages` skips it (server.js:134). A user or assistant turn without `content` is rendered "user: undefined" by server.js:311, where the model renders "user: ". ServerHistory.ClaudeMessages, ServerHistory.CohereHistory and ChatResolver.ResolveErrors (whose "exactly" covers only the modelled histories) share this limit.
- Geolocation and the randomly generated mock weather are left out; the weather reading is an input.
- The seeded teams' map data (location, home ground) and the players' batting averages are not modelled.
- ChatClient.ChatSession.BeginAsk: `handleAsk` is one async function, modelled as two steps around the request. The model does not show the interleaving of other events while the request is in flight, beyond the `isLoading` guard.
- SearchTerm: its own contract states only the shape of the term (no longer than the question, no white space at either end). Which phrases are removed is stated by Wikipedia.LeadingPhraseDropped, Wikipedia.PhraseAfterWordDropped and Wikipedia.NoSpaceUnchanged. Each covers one kind of text, and no single lemma characterises the removal for every question.
- ResolveAnswers: states the tags each kind of answer carries. When each kind occurs is stated by ChatResolver.ResolveChain and ChatResolver.ResolveMockWhenNothingAnswers.
- ChatResolver.Resolve: its own contract is deliberately small. The selection chain's properties are stated by ChatResolver.ResolveChain, ChatResolver.ResolveMockWhenNothingAnswers, ChatResolver.ResolveCalls, ChatResolver.ResolveAnswers and ChatResolver.ResolveErrors.
- TeamData.MergeImport: assumes the imported arrays hold well-formed team and player records, and that a present field is either an array or cannot be spread. The code (script.js:1445-1450) appends whatever the file holds without checking it, and a string field spreads into its characters; neither is modelled.
- ServerKnowledge.MockResponse: its own contract only says the answer is non-empty. The first-match and fallback-order properties are in ServerKnowledge.MockResponseSpec.
- ClientKnowledge.ClientMockResponse: its own contract only says the answer is non-empty. The rest is in ClientKnowledge.ClientMockResponseSpec.

## Findings

| source | as written | input that shows it | evidently intended | confidence | as-written member | corrected member |
|---|---|---|---|---|---|---|
| script.js:1175-1179 | `mockCoords[cityKey]` also finds members inherited from `Object.prototype`, and spreading one copies no `lat`/`lng`, so `currentLocation` loses its coordinates | the query "Constructor" (lower-cased to "constructor"), or "__proto__" | only the four listed cities are found ("Try: London, Paris, Tokyo, or Sydney"), and the location always has coordinates | not executed | Location.ConstructorHasNoCoordinates | Location.SearchCity, SportsDashboard.Dashboard.SearchLocation |
