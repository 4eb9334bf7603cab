/** The deep-research loop (app/core/deep_research.py): search, read the top sources,
    let a planner propose the next query, and stop after `max_depth` rounds, on an empty
    search, or when the planner is done; then synthesize an answer from the collected
    context.

    Web search, page fetching and the model calls are not modelled: a `World` supplies
    their results. Status messages stand for their JSON `data:` frames. */
module DeepResearch {
  import opened Wrappers
  import opened Text
  import opened Providers

  /** One search hit (`search_web` fills missing keys with ""). */
  datatype SearchResult = SearchResult(title: string, href: string, body: string)

  /** What fetching one page gave: extracted text, or `None`/an exception. */
  datatype Fetched = Page(text: string) | NoText

  /** The outside world the loop talks to. `plan(depth, prompt)` is the planner's
      completion at a depth; `synth(prompt)` the final answer's. */
  datatype World = World(
    search: string -> seq<SearchResult>,
    fetch: string -> Fetched,
    plan: (nat, string) -> Attempt,
    synth: string -> Attempt)

  datatype Event = Status(message: string) | Raw(chunk: string)

  /** Only this many results are fetched per step, */
  const FetchLimit := 2
  /** and each page's text is cut to this many characters. */
  const ContentLimit := 2000

  const ContextSeparator := "\n---\n"
  const DefaultMaxDepth := 2

  // ---------------------------------------------------------------------------
  // One step's context

  /** `isinstance(content, str) and content`. */
  predicate Useful(f: Fetched) {
    f.Page? && |f.text| > 0
  }

  /** The pages fetched for a step: those of the first two results, in order. */
  function Fetches(results: seq<SearchResult>, fetch: string -> Fetched): (pages: seq<Fetched>)
    ensures |pages| == if |results| < FetchLimit then |results| else FetchLimit
    ensures forall i :: 0 <= i < |pages| ==> pages[i] == fetch(results[i].href)
  {
    var top := if |results| < FetchLimit then results else results[..FetchLimit];
    seq(|top|, i requires 0 <= i < |top| => fetch(top[i].href))
  }

  function PageEntry(r: SearchResult, text: string): string {
    "Source: " + r.title + " (" + r.href + ")\nContent: " + Take(text, ContentLimit) + "\n\n"
  }

  function SnippetEntry(r: SearchResult): string {
    "Source: " + r.title + " (" + r.href + ")\nSnippet: " + r.body + "\n\n"
  }

  /** The entries of the useful pages, in result order. */
  function PageEntries(results: seq<SearchResult>, pages: seq<Fetched>): string
    requires |pages| <= |results|
  {
    Concat(seq(|pages|, i requires 0 <= i < |pages| =>
      if Useful(pages[i]) then PageEntry(results[i], pages[i].text) else ""))
  }

  function SnippetEntries(results: seq<SearchResult>): string {
    Concat(seq(|results|, i requires 0 <= i < |results| => SnippetEntry(results[i])))
  }

  /** The context a step contributes: its useful pages, or all snippets when none was. */
  function StepContext(results: seq<SearchResult>, fetch: string -> Fetched): string {
    var pages := Fetches(results, fetch);
    if exists i :: 0 <= i < |pages| && Useful(pages[i]) then PageEntries(results, pages)
    else SnippetEntries(results)
  }

  /** Each useful page among the first two results is quoted in the step's context. */
  lemma UsefulPageQuoted(results: seq<SearchResult>, fetch: string -> Fetched, i: int)
    requires 0 <= i < |results| && i < FetchLimit && Useful(fetch(results[i].href))
    ensures Contains(StepContext(results, fetch), PageEntry(results[i], fetch(results[i].href).text))
  {
    var pages := Fetches(results, fetch);
    assert Useful(pages[i]);
    var parts := seq(|pages|, k requires 0 <= k < |pages| =>
      if Useful(pages[k]) then PageEntry(results[k], pages[k].text) else "");
    ConcatContainsPart(parts, i);
  }

  /** When no page among the first two results is useful, the context lists the snippet of
      every result, the later ones included. */
  lemma SnippetsWhenNoPage(results: seq<SearchResult>, fetch: string -> Fetched, i: int)
    requires forall k :: 0 <= k < |results| && k < FetchLimit ==> !Useful(fetch(results[k].href))
    requires 0 <= i < |results|
    ensures Contains(StepContext(results, fetch), SnippetEntry(results[i]))
  {
    var pages := Fetches(results, fetch);
    assert forall k :: 0 <= k < |pages| ==> !Useful(pages[k]);
    var parts := seq(|results|, k requires 0 <= k < |results| => SnippetEntry(results[k]));
    ConcatContainsPart(parts, i);
  }

  /** When a page among the first two results is useful, the context is the entries of
      the useful ones among those two, in result order: no snippet is added, and the
      results after the first two do not matter. */
  lemma PagesOnly(results: seq<SearchResult>, more: seq<SearchResult>, fetch: string -> Fetched)
    requires |results| >= FetchLimit
    requires Useful(fetch(results[0].href)) || Useful(fetch(results[1].href))
    ensures StepContext(results + more, fetch)
      == (if Useful(fetch(results[0].href)) then PageEntry(results[0], fetch(results[0].href).text) else "")
       + (if Useful(fetch(results[1].href)) then PageEntry(results[1], fetch(results[1].href).text) else "")
  {
    var all := results + more;
    var pages := Fetches(all, fetch);
    assert all[0] == results[0] && all[1] == results[1];
    assert Useful(pages[0]) || Useful(pages[1]);
    var parts := seq(|pages|, i requires 0 <= i < |pages| =>
      if Useful(pages[i]) then PageEntry(all[i], pages[i].text) else "");
    assert |parts| == 2 && parts[1..][0] == parts[1] && parts[1..][1..] == [];
    assert Concat(parts[1..]) == parts[1] + Concat([]);
    assert Concat(parts) == parts[0] + Concat(parts[1..]);
    assert parts[1] + Concat([]) == parts[1];
  }
  /** Once a page among the first two results is useful, the later results change
      nothing in the step's context. */
  lemma LaterResultsIgnored(results: seq<SearchResult>, more: seq<SearchResult>, fetch: string -> Fetched)
    requires |results| >= FetchLimit
    requires Useful(fetch(results[0].href)) || Useful(fetch(results[1].href))
    ensures StepContext(results + more, fetch) == StepContext(results, fetch)
  {
    PagesOnly(results, more, fetch);
    PagesOnly(results, [], fetch);
    assert results + [] == results;
  }


  /** A page entry quotes at most the first 2000 characters of the page. */
  lemma PageEntryCut(r: SearchResult, text: string)
    ensures var quoted := Take(text, ContentLimit);
      && |quoted| <= ContentLimit && StartsWith(text, quoted)
      && PageEntry(r, text) == "Source: " + r.title + " (" + r.href + ")\nContent: " + quoted + "\n\n"
  {
  }

  // ---------------------------------------------------------------------------
  // The loop

  /** The planner's suggestion: the reply stripped of whitespace, then of `"`. It is a
      piece of the trimmed reply with only `"` cut away around it, and it neither starts
      nor ends with `"`. */
  function NextQuery(reply: string): (q: string)
    ensures |q| > 0 ==> q[0] != '"' && q[|q| - 1] != '"'
    ensures exists a :: CutFrom(Trim(reply), q, '"', a)
  {
    StripCharSlice(Trim(reply), '"');
    StripChar(Trim(reply), '"')
  }

  /** The planner ends the research with an empty reply or one containing DONE. */
  predicate PlannerDone(next: string) {
    Contains(Upper(next), "DONE") || |next| == 0
  }

  const PlanInstructions :=
    "Based on the findings, what is the single most important follow-up search query needed to answer the original goal? "
    + "Respond with ONLY the search query. If enough information is gathered, respond with 'DONE'."

  function PlanPrompt(query: string, stepContext: string): string {
    "Original Goal: " + query + "\nCurrent Findings:\n" + stepContext + "\n\n" + PlanInstructions
  }

  /** The planner's completion at `depth`, for the step that read `ctx`. */
  function Reply(query: string, w: World, depth: nat, ctx: string): Attempt {
    w.plan(depth, PlanPrompt(query, ctx))
  }

  /** The query a completed planner reply suggests. */
  function Suggestion(reply: Attempt): string {
    NextQuery(Concat(reply.frags))
  }

  /** Why the loop ended. */
  datatype Stop = MaxDepthReached | NoResults | Sufficient | PlannerFailed(err: string)

  /** The loop so far: events emitted, context entries, queries searched, depths at
      which the planner ran, and why it stopped (`MaxDepthReached` while it still runs). */
  datatype Loop = Loop(events: seq<Event>, context: seq<string>, searched: seq<string>,
                       planned: seq<nat>, stop: Stop)

  const StartMessage := "Starting deep research..."
  const NoResultsMessage := "No results found, stopping research loop."
  const ReadingMessage := "Reading sources..."
  const PlanningMessage := "Analyzing findings & planning next step..."
  const SufficientMessage := "Sufficient information gathered."
  const SynthesisMessage := "Synthesizing final comprehensive answer..."

  const SearchingPrefix := "Searching (Depth "
  const SearchingInfix := "): "

  /** The status line of a search: the depth counted from 1, the bound, the query. */
  function SearchStatus(depth: nat, maxDepth: int, q: string): string {
    SearchingPrefix + NatToString(depth + 1) + "/" + IntToString(maxDepth) + SearchingInfix + q
  }

  /** The outcome of one round: go on with the next query, or leave the loop. */
  datatype Step = Next(query: string, acc: Loop) | Halt(result: Loop)

  /** One round of the loop at `depth`, searching `current`. */
  function Round(query: string, maxDepth: int, w: World, depth: nat, current: string, acc: Loop): Step
  {
    var searched := acc.searched + [current];
    var events := acc.events + [Status(SearchStatus(depth, maxDepth, current))];
    var results := w.search(current);
    if |results| == 0 then
      Halt(Loop(events + [Status(NoResultsMessage)], acc.context, searched,
                acc.planned, NoResults))
    else
      var ctx := StepContext(results, w.fetch);
      var read := Loop(events + [Status(ReadingMessage)], acc.context + [ctx], searched,
                       acc.planned, MaxDepthReached);
      if depth < maxDepth - 1 then Plan(query, w, depth, ctx, read)
      else Next(current, read)
  }

  /** The planning half of a round below the last depth, after reading `ctx`. */
  function Plan(query: string, w: World, depth: nat, ctx: string, read: Loop): Step {
    var planning := read.(events := read.events + [Status(PlanningMessage)],
                          planned := read.planned + [depth]);
    match Reply(query, w, depth, ctx)
    case FailsAfter(_, err) => Halt(planning.(stop := PlannerFailed(err)))
    case Completes(chunks) =>
      var next := NextQuery(Concat(chunks));
      if PlannerDone(next) then
        Halt(planning.(events := planning.events + [Status(SufficientMessage)], stop := Sufficient))
      else Next(next, planning)
  }

  /** The loop state a step leaves. */
  function Outcome(s: Step): Loop {
    if s.Next? then s.acc else s.result
  }

  /** `b` is `a` with at least one more event at the end. */
  predicate Extends(a: seq<Event>, b: seq<Event>) {
    |a| < |b| && b[..|a|] == a
  }

  lemma ExtendsSnoc(a: seq<Event>, e: Event)
    ensures Extends(a, a + [e])
  {
    assert (a + [e])[..|a|] == a;
  }

  lemma ExtendsTransitive(a: seq<Event>, b: seq<Event>, c: seq<Event>)
    requires Extends(a, b) && Extends(b, c)
    ensures Extends(a, c)
  {
    assert c[..|a|] == c[..|b|][..|a|];
  }

  /** Planning runs the planner once and keeps what was read. A failing planner stops
      the loop with its error; a completed reply goes on with its suggestion exactly when
      the stop rule lets it through, and otherwise stops as `Sufficient`. */
  lemma PlanShape(query: string, w: World, depth: nat, ctx: string, read: Loop)
    requires read.stop == MaxDepthReached
    ensures var s := Plan(query, w, depth, ctx, read);
      var l := Outcome(s);
      var reply := Reply(query, w, depth, ctx);
      && l.searched == read.searched && l.context == read.context
      && l.planned == read.planned + [depth]
      && (s.Next? <==> l.stop == MaxDepthReached)
      && l.stop != NoResults
      && (l.stop.PlannerFailed? <==> reply.FailsAfter?)
      && (reply.FailsAfter? ==> l.stop.err == reply.err)
      && (reply.Completes? ==> (s.Next? <==> !PlannerDone(Suggestion(reply))))
      && (reply.Completes? && s.Halt? ==> l.stop == Sufficient)
      && (s.Next? ==> s.query == Suggestion(reply) && !PlannerDone(s.query))
      && Extends(read.events, l.events)
  {
    var planning := read.events + [Status(PlanningMessage)];
    ExtendsSnoc(read.events, Status(PlanningMessage));
    var l := Outcome(Plan(query, w, depth, ctx, read));
    if l.stop == Sufficient {
      ExtendsSnoc(planning, Status(SufficientMessage));
      ExtendsTransitive(read.events, planning, l.events);
    }
  }

  /** What a round at `depth` that took step `s` did. It searched `current` once; it goes
      on exactly when it neither found nothing nor was stopped by the planner; it adds a
      context entry when the search found results; it plans only below the last depth,
      and there goes on only with the planner's suggestion, when the stop rule lets it
      through; it only adds events. */
  predicate RoundFacts(query: string, maxDepth: int, w: World, depth: nat, current: string, acc: Loop, s: Step) {
    var l := Outcome(s);
    && l.searched == acc.searched + [current]
    && (s.Next? <==> l.stop == MaxDepthReached)
    && (l.stop == NoResults <==> |w.search(current)| == 0)
    && (l.stop == NoResults ==> l.context == acc.context && l.planned == acc.planned)
    && (l.stop != NoResults ==> l.context == acc.context + [StepContext(w.search(current), w.fetch)])
    && (l.stop != NoResults && depth < maxDepth - 1 ==> l.planned == acc.planned + [depth])
    && (depth >= maxDepth - 1 ==> l.planned == acc.planned && (l.stop == MaxDepthReached || l.stop == NoResults))
    && (s.Next? && depth < maxDepth - 1 ==> !PlannerDone(s.query))
    && (s.Next? && depth >= maxDepth - 1 ==> s.query == current)
    && (l.stop != NoResults && depth < maxDepth - 1 ==>
          var reply := Reply(query, w, depth, StepContext(w.search(current), w.fetch));
          && (l.stop.PlannerFailed? <==> reply.FailsAfter?)
          && (reply.FailsAfter? ==> l.stop.err == reply.err)
          && (reply.Completes? && s.Halt? ==> l.stop == Sufficient && PlannerDone(Suggestion(reply)))
          && (s.Next? ==> reply.Completes? && s.query == Suggestion(reply)))
    && Extends(acc.events, l.events)
  }

  /** A round does what `RoundFacts` describes. */
  lemma RoundShape(query: string, maxDepth: int, w: World, depth: nat, current: string, acc: Loop)
    ensures RoundFacts(query, maxDepth, w, depth, current, acc, Round(query, maxDepth, w, depth, current, acc))
  {
    var events := acc.events + [Status(SearchStatus(depth, maxDepth, current))];
    ExtendsSnoc(acc.events, events[|acc.events|]);
    assert events == acc.events + [events[|acc.events|]];
    var results := w.search(current);
    if |results| == 0 {
      ExtendsSnoc(events, Status(NoResultsMessage));
      ExtendsTransitive(acc.events, events, events + [Status(NoResultsMessage)]);
    } else {
      var ctx := StepContext(results, w.fetch);
      var read := Loop(events + [Status(ReadingMessage)], acc.context + [ctx], acc.searched + [current],
                       acc.planned, MaxDepthReached);
      ExtendsSnoc(events, Status(ReadingMessage));
      ExtendsTransitive(acc.events, events, read.events);
      if depth < maxDepth - 1 {
        PlanShape(query, w, depth, ctx, read);
        ExtendsTransitive(acc.events, read.events, Outcome(Plan(query, w, depth, ctx, read)).events);
      }
    }
  }

  /** The rounds from `depth` on, searching `current`. */
  function Rounds(query: string, maxDepth: int, w: World, depth: nat, current: string, acc: Loop): Loop
    decreases if depth < maxDepth then maxDepth - depth else 0, 1
  {
    if depth >= maxDepth then acc
    else Continue(query, maxDepth, w, depth, Round(query, maxDepth, w, depth, current, acc))
  }

  /** The loop after the round at `depth` took step `s`. */
  function Continue(query: string, maxDepth: int, w: World, depth: nat, s: Step): Loop
    requires depth < maxDepth
    decreases maxDepth - depth, 0
  {
    match s
    case Halt(l) => l
    case Next(next, acc') => Rounds(query, maxDepth, w, depth + 1, next, acc')
  }

  const StartEvent := Status(StartMessage)
  const StartLoop := Loop([StartEvent], [], [], [], MaxDepthReached)

  /** The loop of `deep_research_stream(query, max_depth)`. */
  function ResearchLoop(query: string, maxDepth: int, w: World): Loop {
    Rounds(query, maxDepth, w, 0, query, StartLoop)
  }

  /** Every query after the first is a planner suggestion the stop rule let through. */
  predicate Suggested(searched: seq<string>) {
    forall k :: 1 <= k < |searched| ==> !PlannerDone(searched[k])
  }

  /** Every query after the first is the suggestion of the planner's completed reply to
      the step before it. */
  predicate FollowsPlanner(query: string, w: World, searched: seq<string>, context: seq<string>) {
    forall j {:trigger Reply(query, w, j, context[j])} :: 0 <= j < |context| && j + 1 < |searched| ==>
      Reply(query, w, j, context[j]).Completes?
      && searched[j + 1] == Suggestion(Reply(query, w, j, context[j]))
  }

  /** Each context entry is what the search of the query at its depth read. */
  predicate ContextRead(w: World, searched: seq<string>, context: seq<string>) {
    forall k {:trigger context[k]} :: 0 <= k < |context| && k < |searched| ==>
      context[k] == StepContext(w.search(searched[k]), w.fetch)
  }

  /** The planner ran at depths 0, 1, ... in order, each below the last depth. */
  predicate PlannedInOrder(planned: seq<nat>, maxDepth: int) {
    forall k :: 0 <= k < |planned| ==> planned[k] == k && k < maxDepth - 1
  }

  lemma SuggestedSnoc(searched: seq<string>, q: string)
    requires Suggested(searched) && (|searched| > 0 ==> !PlannerDone(q))
    ensures Suggested(searched + [q])
  {
    assert forall k :: 0 <= k < |searched| ==> (searched + [q])[k] == searched[k];
  }

  lemma FollowsPlannerSnoc(query: string, w: World, searched: seq<string>, context: seq<string>,
                           q: string, more: seq<string>)
    requires FollowsPlanner(query, w, searched, context) && |context| == |searched|
    requires |searched| > 0 ==>
      var reply := Reply(query, w, |searched| - 1, context[|searched| - 1]);
      reply.Completes? && q == Suggestion(reply)
    ensures FollowsPlanner(query, w, searched + [q], context + more)
  {
    var searched', context' := searched + [q], context + more;
    forall j | 0 <= j < |context'| && j + 1 < |searched'|
      ensures Reply(query, w, j, context'[j]).Completes?
      ensures searched'[j + 1] == Suggestion(Reply(query, w, j, context'[j]))
    {
      assert context'[j] == context[j];
      if j + 1 < |searched| {
        assert searched'[j + 1] == searched[j + 1];
      }
    }
  }

  lemma ContextReadSnoc(w: World, searched: seq<string>, context: seq<string>, q: string)
    requires ContextRead(w, searched, context) && |context| == |searched|
    ensures ContextRead(w, searched + [q], context)
    ensures ContextRead(w, searched + [q], context + [StepContext(w.search(q), w.fetch)])
  {
    assert forall k :: 0 <= k < |searched| ==> (searched + [q])[k] == searched[k];
    assert forall k :: 0 <= k < |context| ==> (context + [StepContext(w.search(q), w.fetch)])[k] == context[k];
  }

  lemma PlannedSnoc(planned: seq<nat>, maxDepth: int)
    requires PlannedInOrder(planned, maxDepth) && |planned| < maxDepth - 1
    ensures PlannedInOrder(planned + [|planned|], maxDepth)
  {
    assert forall k :: 0 <= k < |planned| ==> (planned + [|planned|])[k] == planned[k];
  }

  /** What the finished loop promises: it `Ended` as described below, and every query
      after the goal is the suggestion of the planner's completed reply to the step
      before it. */
  predicate Finished(query: string, maxDepth: int, w: World, l: Loop) {
    Ended(query, maxDepth, w, l) && FollowsPlanner(query, w, l.searched, l.context)
  }

  /** How the loop ends. It starts with the start event and searches the goal first and
      at most `max_depth` times; every later query is non-empty and free of DONE. The
      planner ran at depths 0, 1, ... below the last. There is one context entry per
      round that found results, what that round read, and none for a round that found
      nothing. The loop uses up every depth, or stops for the reason `StopExplained`
      gives. */
  predicate Ended(query: string, maxDepth: int, w: World, l: Loop) {
    && |l.events| > 0 && l.events[0] == StartEvent
    && |l.searched| <= (if maxDepth < 0 then 0 else maxDepth)
    && (|l.searched| > 0 ==> l.searched[0] == query)
    && Suggested(l.searched)
    && PlannedInOrder(l.planned, maxDepth)
    && |l.planned| <= |l.searched|
    && |l.context| == |l.searched| - (if l.stop == NoResults then 1 else 0)
    && ContextRead(w, l.searched, l.context)
    && (l.stop == MaxDepthReached ==> |l.searched| == (if maxDepth < 0 then 0 else maxDepth))
    && StopExplained(query, w, l)
  }

  /** Why a loop that stopped early stopped: its last search was empty, or the planner's
      reply to its last step failed, or completed with a suggestion the stop rule rejects. */
  predicate StopExplained(query: string, w: World, l: Loop) {
    && (l.stop == NoResults ==> 0 < |l.searched| && |w.search(l.searched[|l.searched| - 1])| == 0)
    && (l.stop.PlannerFailed? || l.stop == Sufficient ==>
          && 0 < |l.searched| == |l.planned| && |l.searched| <= |l.context|
          && var reply := Reply(query, w, |l.searched| - 1, l.context[|l.searched| - 1]);
          && (l.stop.PlannerFailed? ==> reply.FailsAfter? && reply.err == l.stop.err)
          && (l.stop == Sufficient ==> reply.Completes? && PlannerDone(Suggestion(reply))))
  }

  /** What holds before the round at `depth`, searching `current`, with `acc` so far. */
  predicate LoopInvariant(query: string, maxDepth: int, w: World, depth: nat, current: string, acc: Loop) {
    && depth <= (if maxDepth < 0 then 0 else maxDepth)
    && acc.stop == MaxDepthReached
    && |acc.events| > 0 && acc.events[0] == StartEvent
    && |acc.searched| == depth && |acc.context| == depth
    && |acc.planned| <= depth && (depth < maxDepth ==> |acc.planned| == depth)
    && PlannedInOrder(acc.planned, maxDepth)
    && (if depth == 0 then current == query else acc.searched[0] == query)
    && Suggested(acc.searched)
    && ContextRead(w, acc.searched, acc.context)
    && (0 < depth < maxDepth ==> !PlannerDone(current))
  }

  /** The planner's part of the state before the round at `depth`: every query so far
      follows the planner, and so does `current`, unless it is the goal. */
  predicate PlannerTrail(query: string, maxDepth: int, w: World, depth: nat, current: string, acc: Loop) {
    && |acc.searched| == depth && |acc.context| == depth
    && FollowsPlanner(query, w, acc.searched, acc.context)
    && (0 < depth < maxDepth ==>
          var reply := Reply(query, w, depth - 1, acc.context[depth - 1]);
          reply.Completes? && current == Suggestion(reply))
  }

  /** A step that searched `current`, the planner's suggestion for the last step, keeps
      every query tied to the planner. */
  lemma StepTrace(query: string, w: World, current: string, acc: Loop, l: Loop)
    requires |acc.searched| == |acc.context| && FollowsPlanner(query, w, acc.searched, acc.context)
    requires |acc.searched| > 0 ==>
      var reply := Reply(query, w, |acc.searched| - 1, acc.context[|acc.searched| - 1]);
      reply.Completes? && current == Suggestion(reply)
    requires l.searched == acc.searched + [current]
    requires l.context == acc.context || l.context == acc.context + [StepContext(w.search(current), w.fetch)]
    ensures FollowsPlanner(query, w, l.searched, l.context)
  {
    FollowsPlannerSnoc(query, w, acc.searched, acc.context, current, l.context[|acc.context|..]);
    assert l.context == acc.context + l.context[|acc.context|..];
  }

  /** A round that goes on below the last depth goes on with the suggestion of the
      planner's completed reply to the context it just read. */
  lemma StepNextQuery(query: string, maxDepth: int, w: World, depth: nat, current: string, acc: Loop, s: Step)
    requires depth < maxDepth && |acc.searched| == depth && |acc.context| == depth
    requires RoundFacts(query, maxDepth, w, depth, current, acc, s)
    requires s.Next?
    ensures |s.acc.context| == depth + 1
    ensures depth + 1 < maxDepth ==>
      var reply := Reply(query, w, depth, s.acc.context[depth]);
      reply.Completes? && s.query == Suggestion(reply) && !PlannerDone(s.query)
  {
    var ctx := StepContext(w.search(current), w.fetch);
    assert s.acc.context == acc.context + [ctx];
    assert s.acc.context[depth] == ctx;
  }

  /** The facts about the events, the goal, the stop rule and the planner depths that a
      step with the facts of a round carries over from the loop invariant, however it ends. */
  lemma StepCommon(query: string, maxDepth: int, w: World, depth: nat, current: string, acc: Loop, s: Step)
    requires depth < maxDepth && LoopInvariant(query, maxDepth, w, depth, current, acc)
    requires RoundFacts(query, maxDepth, w, depth, current, acc, s)
    ensures var l := Outcome(s);
      && |l.events| > 0 && l.events[0] == StartEvent
      && l.searched[0] == query
      && Suggested(l.searched)
      && PlannedInOrder(l.planned, maxDepth)
  {
    var after := Outcome(s);
    SuggestedSnoc(acc.searched, current);
    if after.planned != acc.planned {
      PlannedSnoc(acc.planned, maxDepth);
    }
    assert after.searched[0] == query;
    assert after.events[0] == StartEvent by {
      assert after.events[..|acc.events|] == acc.events;
    }
  }

  /** A round that ends the loop explains its stop. */
  lemma StepStops(query: string, maxDepth: int, w: World, depth: nat, current: string, acc: Loop, s: Step)
    requires depth < maxDepth
    requires |acc.searched| == depth && |acc.context| == depth && |acc.planned| == depth
    requires RoundFacts(query, maxDepth, w, depth, current, acc, s)
    requires s.Halt?
    ensures StopExplained(query, w, s.result)
  {
    var l := s.result;
    assert l.searched[depth] == current;
    if l.stop.PlannerFailed? || l.stop == Sufficient {
      var ctx := StepContext(w.search(current), w.fetch);
      assert depth < maxDepth - 1;
      assert l.context == acc.context + [ctx];
      assert l.context[depth] == ctx;
      assert l.planned == acc.planned + [depth];
      var reply := Reply(query, w, depth, ctx);
      assert Reply(query, w, |l.searched| - 1, l.context[|l.searched| - 1]) == reply;
      assert l.stop.PlannerFailed? ==> reply.FailsAfter? && reply.err == l.stop.err;
      assert l.stop == Sufficient ==> reply.Completes? && PlannerDone(Suggestion(reply));
    }
  }

  /** A step with the facts of a round keeps the loop invariant, or ends the loop as
      `Ended` describes. */
  lemma StepKeeps(query: string, maxDepth: int, w: World, depth: nat, current: string, acc: Loop, s: Step)
    requires depth < maxDepth && LoopInvariant(query, maxDepth, w, depth, current, acc)
    requires RoundFacts(query, maxDepth, w, depth, current, acc, s)
    ensures s.Halt? ==> Ended(query, maxDepth, w, s.result)
    ensures s.Next? ==> LoopInvariant(query, maxDepth, w, depth + 1, s.query, s.acc)
  {
    StepCommon(query, maxDepth, w, depth, current, acc, s);
    ContextReadSnoc(w, acc.searched, acc.context, current);
    if s.Halt? {
      StepStops(query, maxDepth, w, depth, current, acc, s);
    }
  }

  /** A step with the facts of a round keeps the planner's trail, and a final one leaves
      every query following the planner. */
  lemma TrailKeeps(query: string, maxDepth: int, w: World, depth: nat, current: string, acc: Loop, s: Step)
    requires depth < maxDepth && PlannerTrail(query, maxDepth, w, depth, current, acc)
    requires RoundFacts(query, maxDepth, w, depth, current, acc, s)
    ensures s.Halt? ==> FollowsPlanner(query, w, s.result.searched, s.result.context)
    ensures s.Next? ==> PlannerTrail(query, maxDepth, w, depth + 1, s.query, s.acc)
  {
    StepTrace(query, w, current, acc, Outcome(s));
    if s.Next? {
      StepNextQuery(query, maxDepth, w, depth, current, acc, s);
    }
  }

  /** One round keeps the loop invariant, or ends the loop as `Ended` describes. */
  lemma RoundStep(query: string, maxDepth: int, w: World, depth: nat, current: string, acc: Loop)
    requires depth < maxDepth && LoopInvariant(query, maxDepth, w, depth, current, acc)
    ensures var s := Round(query, maxDepth, w, depth, current, acc);
      && (s.Halt? ==> Ended(query, maxDepth, w, s.result))
      && (s.Next? ==> LoopInvariant(query, maxDepth, w, depth + 1, s.query, s.acc))
  {
    RoundShape(query, maxDepth, w, depth, current, acc);
    StepKeeps(query, maxDepth, w, depth, current, acc, Round(query, maxDepth, w, depth, current, acc));
  }

  /** The rounds left from any state the loop can reach end as `Ended` describes. */
  lemma {:induction false} RoundsEnded(query: string, maxDepth: int, w: World, depth: nat, current: string, acc: Loop)
    requires LoopInvariant(query, maxDepth, w, depth, current, acc)
    ensures Ended(query, maxDepth, w, Rounds(query, maxDepth, w, depth, current, acc))
    decreases if depth < maxDepth then maxDepth - depth else 0, 1
  {
    if depth < maxDepth {
      RoundStep(query, maxDepth, w, depth, current, acc);
      ContinueEnded(query, maxDepth, w, depth, Round(query, maxDepth, w, depth, current, acc));
    }
  }

  lemma {:induction false} ContinueEnded(query: string, maxDepth: int, w: World, depth: nat, s: Step)
    requires depth < maxDepth
    requires s.Halt? ==> Ended(query, maxDepth, w, s.result)
    requires s.Next? ==> LoopInvariant(query, maxDepth, w, depth + 1, s.query, s.acc)
    ensures Ended(query, maxDepth, w, Continue(query, maxDepth, w, depth, s))
    decreases maxDepth - depth, 0
  {
    if s.Next? {
      RoundsEnded(query, maxDepth, w, depth + 1, s.query, s.acc);
    }
  }

  /** One round keeps the planner's trail, or ends the loop with every query following
      the planner. */
  lemma RoundTrail(query: string, maxDepth: int, w: World, depth: nat, current: string, acc: Loop)
    requires depth < maxDepth && PlannerTrail(query, maxDepth, w, depth, current, acc)
    ensures var s := Round(query, maxDepth, w, depth, current, acc);
      && (s.Halt? ==> FollowsPlanner(query, w, s.result.searched, s.result.context))
      && (s.Next? ==> PlannerTrail(query, maxDepth, w, depth + 1, s.query, s.acc))
  {
    RoundShape(query, maxDepth, w, depth, current, acc);
    TrailKeeps(query, maxDepth, w, depth, current, acc, Round(query, maxDepth, w, depth, current, acc));
  }

  /** The rounds left from any point of the planner's trail end with every query after
      the goal following the planner. */
  lemma {:induction false} RoundsTrail(query: string, maxDepth: int, w: World, depth: nat, current: string, acc: Loop)
    requires PlannerTrail(query, maxDepth, w, depth, current, acc)
    ensures var l := Rounds(query, maxDepth, w, depth, current, acc);
      FollowsPlanner(query, w, l.searched, l.context)
    decreases if depth < maxDepth then maxDepth - depth else 0, 1
  {
    if depth < maxDepth {
      RoundTrail(query, maxDepth, w, depth, current, acc);
      ContinueTrail(query, maxDepth, w, depth, Round(query, maxDepth, w, depth, current, acc));
    }
  }

  lemma {:induction false} ContinueTrail(query: string, maxDepth: int, w: World, depth: nat, s: Step)
    requires depth < maxDepth
    requires s.Halt? ==> FollowsPlanner(query, w, s.result.searched, s.result.context)
    requires s.Next? ==> PlannerTrail(query, maxDepth, w, depth + 1, s.query, s.acc)
    ensures var l := Continue(query, maxDepth, w, depth, s);
      FollowsPlanner(query, w, l.searched, l.context)
    decreases maxDepth - depth, 0
  {
    if s.Next? {
      RoundsTrail(query, maxDepth, w, depth + 1, s.query, s.acc);
    }
  }

  /** The rounds left from any state the loop can reach end as `Finished` promises. */
  lemma RoundsFinished(query: string, maxDepth: int, w: World, depth: nat, current: string, acc: Loop)
    requires LoopInvariant(query, maxDepth, w, depth, current, acc)
    requires PlannerTrail(query, maxDepth, w, depth, current, acc)
    ensures Finished(query, maxDepth, w, Rounds(query, maxDepth, w, depth, current, acc))
  {
    RoundsEnded(query, maxDepth, w, depth, current, acc);
    RoundsTrail(query, maxDepth, w, depth, current, acc);
  }

  /** The loop of `deep_research_stream` keeps every promise of `Finished`. */
  lemma LoopFinished(query: string, maxDepth: int, w: World)
    ensures Finished(query, maxDepth, w, ResearchLoop(query, maxDepth, w))
  {
    RoundsFinished(query, maxDepth, w, 0, query, StartLoop);
  }

  /** The loop as the Python `for depth in range(max_depth)` runs it. */
  method RunLoop(query: string, maxDepth: int, w: World) returns (l: Loop)
    ensures l == ResearchLoop(query, maxDepth, w)
    ensures Finished(query, maxDepth, w, l)
  {
    var acc := StartLoop;
    var current := query;
    var depth: nat := 0;
    while depth < maxDepth
      invariant Rounds(query, maxDepth, w, depth, current, acc) == ResearchLoop(query, maxDepth, w)
      decreases maxDepth - depth
    {
      var s := Round(query, maxDepth, w, depth, current, acc);
      if s.Halt? {
        assert s.result == ResearchLoop(query, maxDepth, w);
        LoopFinished(query, maxDepth, w);
        return s.result;
      }
      acc, current, depth := s.acc, s.query, depth + 1;
    }
    assert acc == ResearchLoop(query, maxDepth, w);
    LoopFinished(query, maxDepth, w);
    return acc;
  }

  /** A search that finds nothing ends the loop without a context entry for its round. */
  lemma EmptySearchStops(query: string, maxDepth: int, w: World, depth: nat, current: string, acc: Loop)
    requires depth < maxDepth && |w.search(current)| == 0
    ensures var l := Rounds(query, maxDepth, w, depth, current, acc);
      && l.stop == NoResults && l.context == acc.context && l.searched == acc.searched + [current]
  {
  }

  // ---------------------------------------------------------------------------
  // The whole stream

  const AnswerInstructions :=
    "Provide a comprehensive, detailed answer to the goal based on the research context. "
    + "Cite sources inline [Title](URL) where appropriate. Use Markdown."

  function FinalPrompt(query: string, fullContext: string): string {
    "Goal: " + query + "\n\nResearch Context:\n" + fullContext + "\n\n" + AnswerInstructions
  }

  function RawEvents(chunks: seq<string>): (evs: seq<Event>)
    ensures |evs| == |chunks|
    ensures forall k :: 0 <= k < |chunks| ==> evs[k] == Raw(chunks[k])
  {
    seq(|chunks|, k requires 0 <= k < |chunks| => Raw(chunks[k]))
  }

  /** The events the caller receives, and the error the stream ends with, if any. */
  datatype Run = Run(events: seq<Event>, raised: Option<string>)

  /** `deep_research_stream(query, max_depth)`: the loop, then the synthesis over the
      context entries joined by the separator. A failing planner ends the stream at
      once. */
  function DeepResearchStream(query: string, maxDepth: int, w: World): (run: Run)
    ensures var l := ResearchLoop(query, maxDepth, w);
      && (l.stop.PlannerFailed? ==> run == Run(l.events, Some(l.stop.err)))
      && (!l.stop.PlannerFailed? ==>
            var out := w.synth(FinalPrompt(query, Join(l.context, ContextSeparator)));
            && run.events == l.events + [Status(SynthesisMessage)] + RawEvents(out.frags)
            && (run.raised.None? <==> out.Completes?)
            && (out.FailsAfter? ==> run.raised == Some(out.err)))
  {
    var l := ResearchLoop(query, maxDepth, w);
    if l.stop.PlannerFailed? then Run(l.events, Some(l.stop.err))
    else
      var out := w.synth(FinalPrompt(query, Join(l.context, ContextSeparator)));
      var events := l.events + [Status(SynthesisMessage)] + RawEvents(out.frags);
      match out
      case Completes(_) => Run(events, None)
      case FailsAfter(_, err) => Run(events, Some(err))
  }

  /** A finished loop that the planner stopped with an error stopped below the last
      depth, and the error is that of the planner's reply to the last step. */
  lemma FailedPlannerStop(query: string, maxDepth: int, w: World, l: Loop)
    requires Finished(query, maxDepth, w, l) && l.stop.PlannerFailed?
    ensures 0 < |l.searched| < maxDepth && |l.searched| <= |l.context|
    ensures var reply := Reply(query, w, |l.searched| - 1, l.context[|l.searched| - 1]);
      reply.FailsAfter? && reply.err == l.stop.err
  {
    assert l.planned[|l.planned| - 1] == |l.planned| - 1 < maxDepth - 1;
  }

  /** A failing planner ends the stream with its own error, right after the loop's
      events: the planner's reply to the last step, below the last depth, failed. */
  lemma PlannerErrorRaised(query: string, maxDepth: int, w: World)
    requires ResearchLoop(query, maxDepth, w).stop.PlannerFailed?
    ensures var l := ResearchLoop(query, maxDepth, w);
      && 0 < |l.searched| < maxDepth && |l.searched| <= |l.context|
      && var reply := Reply(query, w, |l.searched| - 1, l.context[|l.searched| - 1]);
      && reply.FailsAfter?
      && DeepResearchStream(query, maxDepth, w) == Run(l.events, Some(reply.err))
  {
    var l := ResearchLoop(query, maxDepth, w);
    LoopFinished(query, maxDepth, w);
    FailedPlannerStop(query, maxDepth, w, l);
  }
}
