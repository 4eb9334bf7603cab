# free_research_agent gateway core, in Dafny

A Dafny model of the core of a self-hosted research gateway. The gateway puts an
OpenAI-compatible chat endpoint in front of a pool of free LLM providers. Its core is:

- the provider configuration, with its injected default (`config_loader`);
- the provider wrappers: the G4F relay, and the OpenAI-compatible client with its URL,
  headers, payload and event-stream line parser (`providers`);
- the provider router: a registry, a round-robin cursor, per-provider failure counters,
  and a bounded failover loop (`router`);
- the intent classifier (`intent`);
- the expert council: category detection, leaderboard-based expert selection and the
  synthesis stream (`council`);
- the multi-step deep-research loop (`deep_research`);
- the shopping deal extractor: fence stripping, lenient item conversion, and a
  cheapest-first stable sort (`shopping`);
- the server-sent-event framing of the `/chat/completions` endpoint (`openai_api`).

Everything outside the process is a parameter of the model. That covers HTTP responses,
g4f chunk lists, search results, fetched pages, model completions, the JSON decoder,
`float()` on strings, the leaderboard table, the provider-status file, UUIDs and clocks.
The Python router is a mutable object. Here its state is the value `RouterState`, and
every operation returns the next state.

Modules, one per source file: `Wrappers` (Option), `Text` (the Python `str` operations
used), `Json` (decoded JSON values), `ConfigLoader`, `Providers`, `Router`,
`RouterProperties` (multi-call properties and the test scenarios), `Intent`, `Council`,
`DeepResearch`, `Shopping`, `OpenAIApi`.

Behaviours of the code worth knowing, which the model keeps:

- Two always-failing providers with the cursor at 0 get three attempts (bad2, bad1,
  bad2), not two. The retry budget is three attempts, whatever the registry size.
- A successful call can still leave raised counters. Only the first attempt's success
  guarantees that no counter went up, and a provider's counter is reset only if it
  delivered at least one fragment.
- The default provider is injected by the configuration loader, and only when no
  descriptor is configured. The registry itself can still be empty: every descriptor may
  have an unknown `type`.
- Expert selection checks the length after appending. For `n < 1` it can still return
  one expert, so the bound is `max(n, 1)`.
- The name "deep_research" contains "search". Only the order of the tests makes the
  deep-research intent reachable.
- The fence stripper's pattern `^```(?:json)?` also removes a leading `json` that
  belongs to the payload of a bare fence.

## Model

| member | source | states |
|---|---|---|
| ConfigLoader.LoadProviders | app/core/config_loader.py:13-43 | The result is never empty. It is the configured `providers` list when the file yields a non-empty list. Otherwise (no file, a load error, a falsy document, a missing key, a value `extend` rejects such as `null` or a number, an empty list) it is exactly the single g4f default descriptor. |
| Providers.NewProvider | app/core/providers.py:12-17 | A new provider keeps the name, models and configuration it was given, is active, and starts with a failure count of 0. |
| Providers.NewOpenAI | app/core/providers.py:40-47 | The OpenAI client's base URL and key come from the descriptor. A missing base URL means the public endpoint, a missing key means the empty key, and the counter starts at 0. |
| Providers.Headers | app/core/providers.py:44-47 | There are exactly two headers: `Authorization` with `Bearer ` followed by the key itself, then the JSON content type. |
| Providers.RequestUrl | app/core/providers.py:50 | The URL is the base URL without its trailing slashes, followed by `/chat/completions`. Only slashes are dropped, and the stem never ends in one. |
| Providers.BuildRequest | app/core/providers.py:50-55 | The request goes to that URL with those headers, and asks for a stream for the given model and messages. |
| Providers.LineStepOf | app/core/providers.py:64-76 | A line without the `data: ` prefix is skipped. A line stops the stream exactly when its stripped payload is `[DONE]`. An undecodable payload is skipped. Only non-empty content is yielded. |
| Providers.ContentStep | app/core/providers.py:69-76 | Reading `choices[0].delta.content` never stops the stream. It raises exactly when the payload is not well shaped: not an object, `choices` not a non-empty list whose first element is an object, or `delta` not an object. A non-object payload raises Python's `has no attribute 'get'` message. It yields exactly when the content of a well-shaped payload is a non-empty string, and yields that string. |
| Providers.ContentEmitted | app/core/providers.py:71-74 | A payload with a `choices` list whose first element has an object `delta` with non-empty string `content` yields exactly that content. |
| Providers.ChoiceElementFaults | app/core/providers.py:71 | A first `choices` element that is not an object raises the `.get` attribute error of its type. |
| Providers.DeltaFaults | app/core/providers.py:71 | A `delta` that is not an object raises the `.get` attribute error of its type. |
| Providers.EmptyChoicesRaise | app/core/providers.py:71 | An empty `choices` list raises "list index out of range". |
| Providers.EmptyChoicesFails | app/core/providers.py:64-79 | A data line with `choices: []` is not skipped like undecodable JSON: the attempt fails with "list index out of range" before yielding anything. |
| Providers.ParseLinesAppend | app/core/providers.py:64-76 | Reading lines `a + b` means reading `a`, then `b` only if `a` neither saw `[DONE]` nor raised. Nothing after the sentinel or a fault is read. |
| Providers.IgnoredLine | app/core/providers.py:65 | Inserting a line without the `data: ` prefix anywhere changes nothing in the parse. |
| Providers.DoneLineStops | app/core/providers.py:66-68 | The line `data: [DONE]` stops the stream, whatever the decoder. |
| Providers.DecodedLine | app/core/providers.py:65-76 | A data line whose stripped payload is not `[DONE]` is skipped when it does not decode. Otherwise its content step is applied. |
| Providers.NotSentinel | app/core/providers.py:67 | A payload that starts with neither whitespace nor `[` is not the sentinel once stripped. |
| Providers.MalformedLineSkipped | app/core/providers.py:64-76 | A malformed data line, a valid one and the sentinel give exactly the valid fragment and a normal end. |
| Providers.OpenAIAttempt | app/core/providers.py:49-79 | A connection error, or a non-200 status with its message, fails before any fragment. On status 200 the fragments are the parsed ones. The attempt completes exactly when the sentinel was seen or the lines ran out without a transport fault. A raised parse fault carries its message. When the lines ran out after a transport fault, the attempt fails with that fault's message. |
| Providers.NonEmptyChunks | app/core/providers.py:31-33 | The relayed chunks are exactly the non-empty library chunks: none is invented and none that is non-empty is lost. A single chunk is relayed exactly when it is non-empty. |
| Providers.NonEmptyChunksAppend | app/core/providers.py:31-33 | Relaying `a + b` relays `a`'s chunks, then `b`'s. With the single-chunk case this fixes the order and the repetitions of the relayed chunks. |
| Providers.G4FAttempt | app/core/providers.py:24-37 | The G4F attempt relays the non-empty chunks. It fails exactly when the library raised, and then re-raises that error. |
| Router.ProviderFor | app/core/router.py:20-28 | A descriptor yields a provider exactly when its type is missing, `g4f` or `openai`. A missing name becomes `unnamed`, missing models become none, and the OpenAI client is chosen exactly for `openai`. |
| Router.BuildRegistry | app/core/router.py:16-30 | The registry has no more providers than descriptors, and every provider starts healthy with counter 0. |
| Router.BuildRegistryAppend | app/core/router.py:20-28 | The registry follows configuration order: building from `a + b` gives the providers of `a`, then those of `b`. |
| Router.BuildRegistrySingle | app/core/router.py:25-28 | A descriptor of unknown type contributes nothing. A known one contributes exactly its provider. |
| Router.NewRouter | app/core/router.py:11-14 | A new router holds the registry built from the loaded configuration, with the cursor at 0 and every counter at 0. |
| Router.Select | app/core/router.py:32-51 | The pick is an eligible provider: fewer than three failures, and the model or `*` listed. It is the first eligible one of the rotation that starts just after the cursor, and the cursor moves onto it. With no pick, no provider of the registry is eligible and the cursor has made a full turn. An empty registry gives no pick. |
| Router.GetProvider | app/core/router.py:32-51 | The scanning loop, which moves the cursor at every visited slot, computes exactly the declarative selection `Router.Select`. |
| Router.ReportSuccess | app/core/router.py:57-58 | Success sets that provider's counter to 0 and changes nothing else. |
| Router.ReportFailure | app/core/router.py:53-55 | Failure adds one to that provider's counter and changes nothing else. |
| Router.Deliver | app/core/router.py:76-78 | Delivering fragments resets the counter exactly when at least one fragment was delivered. |
| Router.Forward | app/core/router.py:76-78 | The chunk loop forwards every fragment in order, and the counter ends as `Router.Deliver` says. |
| Router.StreamChat | app/core/router.py:60-87 | The three-attempt failover loop computes exactly the reference reading `StreamChatSpec`, which re-selects a provider on every attempt. |
| Router.StreamChatFacts | app/core/router.py:60-87 | In every call, names and models stay fixed, and untried providers are untouched. The caller sees every attempt's fragments in order. There are at most three attempts, each the behaviour of the provider tried. There is one `name: err` entry per failed attempt. The call finishes exactly when its last attempt completed. `AllFailed` means three failures. `NoProvider` means no provider is eligible any more. |
| Router.ServedCounter | app/core/router.py:74-83 | After an attempt at provider `i`, only its counter changes: it is reset when a fragment was delivered, and then goes up by one when the attempt raised. |
| Router.StreamChatCounters | app/core/router.py:60-87 | At the end of every call, each counter is its start value updated, attempt by attempt, by the attempts made at that provider: reset on a delivered fragment, one more on a raised error. |
| Router.NoProviderAtOnce | app/core/router.py:68-70 | When nothing is eligible at the start, no provider is called, no error is recorded, and the registry is unchanged. |
| Router.FirstAttemptSucceeds | app/core/router.py:74-79 | A completing first attempt ends the call with its fragments and no error. No counter goes up, and the server's counter is 0 exactly when it delivered a fragment. |
| Router.RaisedMessage | app/core/router.py:68-87 | Only a finished call raises nothing. An empty pool raises the "No healthy providers" message, and an exhausted budget raises "All retries failed. Errors: …". |
| Router.RaisedMessageNamesErrors | app/core/router.py:84-87 | When all three attempts failed, the raised message names the error of every attempt. |
| RouterProperties.RoundRobin | app/core/router.py:40-49 | When all `n` providers are eligible, `n` consecutive selections return every provider exactly once. |
| RouterProperties.DriveSkipsUnhealthy | app/core/router.py:46 | A provider at the failure threshold is never tried within a call, and is left as it was. |
| RouterProperties.UnhealthyStaysOut | app/core/router.py:41-58 | Once a counter reaches three, no later request tries that provider and its counter never changes again: nothing resets it automatically. |
| RouterProperties.DefaultRouterServesAnyModel | app/core/config_loader.py:33-41 | Without configured providers, the router holds only `g4f-default`. It accepts every model, so every request selects it. |
| RouterProperties.FallbackScenario | tests/test_router.py:19-43 | With a bad and a good provider and the cursor at 1, the bad one is tried first and fails, then the good one serves the single fragment. The counters end at 1 and 0, and nothing is raised. |
| RouterProperties.ExhaustionScenario | tests/test_router.py:45-54 | With two failing providers and the cursor at 0, the call tries bad2, bad1, bad2, records three errors, and raises "All retries failed". |
| RouterProperties.EmptyRegistryScenario | app/core/router.py:37-38 | An empty registry raises the "No healthy providers" error without any attempt. |
| Intent.Classify | app/core/intent.py:7-41 | A failed completion gives `chat`. Otherwise the intent is `deep_research` exactly when the stripped, lower-cased reply contains "deep_research". It is `search` exactly when the reply contains "search" but not "deep_research", and `chat` exactly when it contains neither. |
| Intent.DeepResearchMentionsSearch | app/core/intent.py:30-33 | Any reply that names deep research also contains "search". |
| Intent.NameIsKnown | app/core/intent.py:20-41 | The classifier always returns one of `chat`, `search`, `deep_research`. |
| Intent.CaseInsensitive | app/core/intent.py:29 | Replies that agree once lower-cased are classified alike. |
| Intent.SpaceInsensitive | app/core/intent.py:29 | Surrounding whitespace does not affect the classification. |
| Intent.ShoutedReply | app/core/intent.py:29 | An upper-cased reply is classified like its lower-case spelling. |
| Council.Category | app/core/council.py:137-151 | The category is `coding` exactly when the lower-cased query mentions a coding word. It is `math` exactly when it mentions a math word and no coding word. It is `uncensored` exactly when it mentions an uncensored word and neither of those, `reasoning` exactly when it mentions a reasoning word and none of the earlier groups, and `overall` exactly when it mentions no keyword at all. |
| Council.CategoryIgnoresCase | app/core/council.py:138 | Queries that agree once lower-cased get the same category. |
| Council.CodingRole | app/core/council.py:100-101 | Coding experts are labelled "Senior Engineer". |
| Council.ReasoningRole | app/core/council.py:102-103 | Reasoning experts are labelled "Logician". |
| Council.UncensoredRole | app/core/council.py:104-105 | Uncensored experts are labelled "Unfiltered Analyst". |
| Council.GeneralRole | app/core/council.py:99-105 | Math and overall experts are labelled "General Expert". |
| Council.UpProviders | app/core/council.py:27-49 | A missing or unreadable status file gives the assumed pair G4F Local and OpenRouter. Otherwise the result holds the names of exactly the records marked UP. A single record gives its name exactly when it is UP. |
| Council.UpProvidersAppend | app/core/council.py:38-40 | The names are collected record by record in file order, repetitions kept: the UP names of two concatenated record lists are those of the first followed by those of the second. |
| Council.ScanUp | app/core/council.py:87-90 | The scan answers true only if some UP name serves the family. It answers false only if every UP name is present and none serves it. It raises only on a missing name. |
| Council.AvailabilityMatchesRule | app/core/council.py:79-96 | With every UP name present, the nested scans decide exactly the stated rule: a family of the model name is served by an UP provider, or the score exceeds 50. |
| Council.AvailabilityRaisesOnlyOnMissingName | app/core/council.py:83-92 | The availability test raises only when some UP name is missing. |
| Council.AdmittedOnlyAvailable | app/core/council.py:75-98 | Only rows the availability rule accepts are admitted, and each comes from the ranking. |
| Council.TopModels | app/core/council.py:75-112 | The selection loop returns at most `max(n, 1)` experts. Every label starts with the category's role. When every UP name is present, the result is exactly the first `n` admitted rows in ranking order, or, when `n < 1`, the first row if it is admitted (otherwise none). A failure is possible only with a missing UP name. |
| Council.IntendedAtStop | app/core/council.py:111-112 | Once the loop has kept `n` experts, the rows after it do not matter. |
| Council.TargetColumn | app/core/council.py:67 | The score column is the category when the table has such a column, and `overall` otherwise. |
| Council.BestModels | app/core/council.py:52-121 | The selection is never empty. Without a usable leaderboard, or without a score column or a `model` column, it is the three fallback experts. With both columns, and every UP name present, it is the selection loop's result, or the fallbacks when that is empty. |
| Council.Section | app/core/council.py:160-171 | Every transcript section starts with the `### Expert: role (model)` heading. An answer follows it as given, and a failure as `[Failed to respond: err]`, then a newline. |
| Council.CouncilStreamShape | app/core/council.py:132-200 | A run emits four status events, then every synthesis chunk in order, and the end marker exactly when the synthesis completed. A failed synthesis ends the run with its error and no end marker. The synthesizer is the first expert. |
| Council.RunCouncil | app/core/council.py:132-200 | A council request chooses at most three experts (or the three fallbacks) whose roles match the query's category. Without a usable leaderboard or a `model` column they are the fallbacks. With a usable leaderboard and every UP name present they are the selection loop's result. The first status event names the category, and the run raises nothing exactly when the synthesis by the first expert completes. |
| Council.SynthesisSeesEveryExpert | app/core/council.py:176-190 | The synthesis prompt contains every expert's section, failed ones included. |
| DeepResearch.Fetches | app/core/deep_research.py:35-36 | Only the first two results are fetched, in order. |
| DeepResearch.UsefulPageQuoted | app/core/deep_research.py:38-45 | Each useful page among the first two results is quoted in the step's context. |
| DeepResearch.SnippetsWhenNoPage | app/core/deep_research.py:47-52 | When neither fetched page is useful, the context lists the snippet of every result, the later ones included. |
| DeepResearch.PagesOnly | app/core/deep_research.py:38-52 | When a page among the first two results is useful, the context is the useful pages' entries, in result order, and holds no snippet, whatever further results there are. |
| DeepResearch.LaterResultsIgnored | app/core/deep_research.py:38-52 | Once a page among the first two results is useful, results after the first two change nothing in the step's context. |
| DeepResearch.PageEntryCut | app/core/deep_research.py:45 | A page entry quotes a prefix of the page of at most 2000 characters. |
| DeepResearch.NextQuery | app/core/deep_research.py:75 | The planner's suggestion is a slice of the whitespace-stripped reply. Only `"` characters are removed at its ends, and it neither starts nor ends with `"`. |
| DeepResearch.PlanShape | app/core/deep_research.py:57-82 | Planning runs the planner once, at this depth, and keeps what was read. A failing planner stops the loop with its error. A completed reply continues the loop exactly when the stop rule lets its suggestion through, and the next query is that suggestion. Otherwise the loop stops as sufficient. Planning only adds events. |
| DeepResearch.RoundShape | app/core/deep_research.py:22-82 | A round searches the current query. It stops with `NoResults` exactly when the search is empty, and then adds no context entry. Otherwise it adds the step context and plans only below the last depth. A failing planner stops the round with its error. A completed reply stops it as sufficient when the stop rule rejects the suggestion. Otherwise the next query is the suggestion. The events never shrink. |
| DeepResearch.RoundStep | app/core/deep_research.py:22-82 | A round from any state the loop can reach either ends the loop as `Ended` describes, or leads to the next depth's reachable state. That state has one more query searched, and that query's context entry is what its search read. Which query that is, the planner's suggestion, is `RoundTrail`'s part. |
| DeepResearch.RoundTrail | app/core/deep_research.py:68-82 | A round from any point of the planner's trail keeps every query after the goal equal to the suggestion of the planner's completed reply to the previous round's context. A continuing round passes the planner's suggestion on as the next query. |
| DeepResearch.RoundsEnded | app/core/deep_research.py:22-82 | The rounds left from any reachable state end as `Ended` describes: the start event first, at most `max_depth` queries with the goal first, each context entry what its search read, and a stop reason that matches the last round. |
| DeepResearch.StepKeeps | app/core/deep_research.py:22-82 | Any round outcome obeying the round's rules either ends the loop as `Ended` describes, or gives the next depth's reachable state. `Ended` covers the start event, the bound on queries, the goal first, the context entries and the stop reason. |
| DeepResearch.StepStops | app/core/deep_research.py:27-80 | A round that ends the loop early ends it for a reason. `NoResults` means its search was empty. `PlannerFailed` carries the error of the planner's reply to the context it read. `Sufficient` means that reply completed with a suggestion the stop rule rejects. |
| DeepResearch.TrailKeeps | app/core/deep_research.py:68-82 | Any round outcome obeying the round's rules keeps every query after the goal equal to the suggestion of the planner's completed reply to the previous round's context. A continuing round carries the planner's suggestion on as the next query. |
| DeepResearch.RoundsTrail | app/core/deep_research.py:22-82 | However the remaining rounds go, every query after the goal is the suggestion of the planner's completed reply to the previous round's context. |
| DeepResearch.RoundsFinished | app/core/deep_research.py:17-82 | The rounds left from any reachable state end with the start event first and at most `max_depth` queries. The goal is searched first. Every later query is the planner's suggestion from its completed reply to the previous round's context, and every context entry is what that round's search read. The planner ran at depths 0, 1, … in order. `NoResults` means the last search was empty. `PlannerFailed` carries the error of the planner's reply to the last round, and `Sufficient` means that reply completed with a suggestion the stop rule rejects. |
| DeepResearch.LoopFinished | app/core/deep_research.py:17-82 | The loop from the goal at depth 0 keeps every promise stated for `RoundsFinished`, the planner's trail included. |
| DeepResearch.RunLoop | app/core/deep_research.py:17-82 | The loop computes the reference loop and keeps all of the loop's promises stated for `RoundsFinished`: the goal first, then the planner's suggestions, each computed from the previous round's context; the context read by each search; and stop reasons tied to the last search or the last planner reply. |
| DeepResearch.EmptySearchStops | app/core/deep_research.py:27-29 | An empty search ends the loop without a context entry for its round. |
| DeepResearch.FailedPlannerStop | app/core/deep_research.py:56-82 | A loop that stopped on a planner failure searched fewer than `max_depth` queries. The planner's reply to the last round's context failed with the reported error. |
| DeepResearch.PlannerErrorRaised | app/core/deep_research.py:56-85 | When the planner fails, the stream is the loop's events, and then the planner's error, with no synthesis. |
| DeepResearch.DeepResearchStream | app/core/deep_research.py:10-99 | A failing planner ends the stream with its error (`PlannerErrorRaised` ties it to the planner's reply to the last context). Otherwise the loop's events are followed by the synthesis status and the synthesis chunks. The stream ends normally exactly when the synthesis completed, and a failed synthesis ends it with the synthesis error. |
| Shopping.Top | app/core/shopping.py:29 | The prompt lists the first `min(8, n)` results. |
| Shopping.LaterResultsIgnored | app/core/shopping.py:28-30 | Results after the eighth never reach the prompt. |
| Shopping.ItemsTextLists | app/core/shopping.py:28-30 | The items text lists exactly the first `min(8, n)` results, numbered from 1. |
| Shopping.StripFences | app/core/shopping.py:59-63 | The cleaned reply is no longer than the reply and has no surrounding whitespace. |
| Shopping.UnfencedOnlyTrimmed | app/core/shopping.py:59-63 | A reply that does not start with a fence is only trimmed. |
| Shopping.JsonFenceRemoved | app/core/shopping.py:59-63 | Round trip: a payload wrapped in a "```json" fence comes back as the trimmed payload. |
| Shopping.BareFenceRemoved | app/core/shopping.py:60-62 | A payload wrapped in a bare fence comes back trimmed, unless it starts with "json": those four letters are removed too. |
| Shopping.UnclosedJsonFence | app/core/shopping.py:59-63 | A "```json" fence that is never closed is removed, and the rest of the reply comes back trimmed with nothing cut from its end. |
| Shopping.ToFloat | app/core/shopping.py:72-76 | Conversion mirrors `float()`. An integer overflows exactly when its magnitude reaches 2^1024 − 2^970. `None`, lists, dicts and unparsable strings are rejected. A converted value is 1 or 0 for a boolean, the integer itself, the float itself, or what `float` makes of the string. |
| Shopping.EmptyItemDefaults | app/core/shopping.py:69-78 | An empty dict becomes the all-defaults deal: "Unknown", 0, "$", 1, "count", 0, "". |
| Shopping.ItemDealFields | app/core/shopping.py:67-81 | A dict becomes a deal exactly when its three numeric fields convert. The deal then holds the dict's fields, or the defaults for absent keys. The item aborts the extraction exactly when the first failing conversion overflows. |
| Shopping.ExtractDeals | app/core/shopping.py:65-83 | Every extracted deal is the conversion of some item of the list. A one-item list gives that item's deal when it converts, and nothing when it is skipped or aborts. |
| Shopping.ConvertedItemKept | app/core/shopping.py:66-81 | An item that converts, with no aborting item before it, is kept: its deal follows the deals of the items before it. |
| Shopping.ExtractAppend | app/core/shopping.py:67-81 | Without aborting items, extraction works item by item, in list order. |
| Shopping.SkippedItemIgnored | app/core/shopping.py:80-81 | An item that fails with `ValueError` or `TypeError` leaves the other deals as they were. |
| Shopping.AbortKeepsEarlier | app/core/shopping.py:83-84 | An aborting item keeps the deals read before it, and nothing after it is read. |
| Shopping.KeyOf | app/core/shopping.py:87 | The sort key is finite exactly for a positive price per unit, and then equals it. Otherwise it is infinity. |
| Shopping.SortDealsFacts | app/core/shopping.py:87 | The sort orders deals by key, is a permutation, and keeps the order of deals with equal keys (stability). |
| Shopping.CheapestFirst | app/core/shopping.py:86-87 | After sorting, the priced deals come first in ascending price per unit, and they are exactly the original priced deals. The unpriced ones follow in their original order. |
| Shopping.AnalyzeDeals | app/core/shopping.py:22-88 | A failed completion, undecodable text or a non-list gives no deals. Otherwise the result is the extracted deals sorted cheapest-first, and stably. |
| Shopping.AnalyzedItemKept | app/core/shopping.py:22-88 | Every item of the decoded list that converts, with no aborting item before it, appears among the returned deals. |
| OpenAIApi.RequestOf | app/api/openai_api.py:18-23 | A request left without a model uses "gpt-3.5-turbo". It streams exactly when `stream` was given as true. |
| OpenAIApi.ChatCompletions | app/api/openai_api.py:25-83 | A non-streaming request gets status 400 with the "Only streaming" error. A streaming one gets an event stream. |
| OpenAIApi.NonStreamingNeverCalls | app/api/openai_api.py:33-35 | A non-streaming request gets the same 400 answer whatever the model would do: the model is never asked. |
| OpenAIApi.ReadBack | app/api/openai_api.py:37-81 | Round trip: a client reading the stream back recovers exactly the completion's fragments and its outcome, with error message. |
| OpenAIApi.StreamShape | app/api/openai_api.py:37-81 | There is one chunk per fragment, in order, with the request's model. One "stop" event and no error follow a completion, and one error event and no "stop" a failure. `[DONE]` comes last, and every chunk carries the same id and creation time. |

## Left out

- Networking, asyncio and concurrency. HTTP exchanges, g4f, web search, page
  extraction and model completions are parameters. Concurrent requests that share the
  router's cursor are not modelled: one request runs at a time.
- Parsing YAML, CSV (pandas), JSON, and `float` on strings. Their results are inputs of
  the model: `ConfigFile`, `Leaderboard`, decoders, and `parse`.
- The leaderboard's sorting and NaN dropping. These are given as the already-ranked rows
  of a `Leaderboard`. Scores are reals, so float rounding and NaN comparisons are not
  modelled.
- The `{score:.1f}` formatting. It is a parameter (`scoreText`).
- The textual JSON encoding of events. Events are datatypes: `Frame`, `CouncilEvent` and
  `DeepResearch.Event` stand for their `data: {...}` lines.
- `repr`: it is exact only for text of printable characters without quotes or
  backslashes. Python also escapes non-printable characters such as a newline (`\n`).
  This affects the list of errors in the "All retries failed" message, and the error
  body of a non-200 response, a `bytes` value shown as `b'...'` (`Providers.BytesRepr`).
- Logging, `uuid4` and `time.time`. The last two are parameters.
- Pydantic validation errors (422 responses) for malformed request bodies.
- The other application files: `main.py`, `llm.py` and `search.py` are not part of this
  model. Their effects arrive as parameters.
- ConfigLoader.LoadProviders: a `providers` value that is a non-empty string or mapping
  is iterable, so `extend` adds its characters or keys and no default is added. Such
  entries are not descriptors, and the router cannot build providers from them, so the
  model's documents hold only lists of descriptors or values `extend` rejects.
- Router.ProviderFor: descriptor values are taken to be strings and lists of strings. A
  YAML `null` or a value of another type under `type`, `name`, `models`, `base_url` or
  `api_key` is not represented, so it is not told apart from an absent key. Python would
  then build no provider for `type: null`, match `models` given as one string by
  substring, and raise on `base_url: null`.
- Text.Lower: folds only ASCII letters, while Python's `str.lower` covers all of Unicode.
  The keyword tests involve only ASCII words, but a reply with non-ASCII capitals is
  lowered differently.
- Text.Upper: upper-cases only ASCII letters, for the same reason. Python's `upper` can
  also change a string's length (`ß` becomes `SS`).
- Providers.ContentStep: a truthy `content` that is not a string, such as a number or a
  list, is yielded by `stream_chat`. The model skips it, because fragments are strings.
- Shopping.ToFloat: `float()` on a JSON float is taken as exact, and `inf`/`nan` strings
  are left to `parse`.
- Council.TopModels: when a UP provider name is missing (not a string), the contract
  states only that selection fails. It does not say which row failed.
- Council.BestModels: the contract pins the result down only when every UP name is
  present. Otherwise it states only the bound and the role prefix, or the fallback
  experts.
