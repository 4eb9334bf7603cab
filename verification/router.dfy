/** The provider router (app/core/router.py): a registry of providers built from the
    configuration, a round-robin cursor, health counters, and the bounded failover loop
    of `stream_chat`.

    The Python router is one long-lived object mutated in place; here its state is the
    value `RouterState`, and every operation returns the updated state. Concurrent
    requests sharing the cursor are not modelled: one request runs at a time. */
module Router {
  import opened Wrappers
  import opened Text
  import opened ConfigLoader
  import opened Providers

  /** A provider with this many failures or more is skipped. */
  const FailureThreshold := 3

  /** At most this many attempts per `stream_chat` call. */
  const MaxRetries := 3

  const NoProviderMessage := "No healthy providers available for this model."

  /** The registry and the index of the provider selected last (`current_index`). */
  datatype RouterState = RouterState(providers: seq<Provider>, cursor: int)

  // ---------------------------------------------------------------------------
  // Registry construction (`_load_providers`)

  /** The provider a descriptor yields: a missing `type` means `g4f`, a missing `name`
      means `unnamed`, missing `models` mean none; any other type yields nothing. */
  function ProviderFor(d: Descriptor): (r: Option<Provider>)
    ensures r.Some? <==> d.kind.None? || d.kind.value == "g4f" || d.kind.value == "openai"
    ensures r.Some? ==>
      && r.value.name == d.name.GetOr("unnamed")
      && r.value.models == d.models.GetOr([])
      && r.value.config == d
      && r.value.failures == 0 && r.value.isActive
      && (r.value.backend.OpenAI? <==> d.kind == Some("openai"))
  {
    var kind := d.kind.GetOr("g4f");
    var name := d.name.GetOr("unnamed");
    var models := d.models.GetOr([]);
    if kind == "g4f" then Some(NewG4F(name, models, d))
    else if kind == "openai" then Some(NewOpenAI(name, models, d))
    else None
  }

  /** The registry built from the descriptors, in configuration order. */
  function BuildRegistry(cfgs: seq<Descriptor>): (ps: seq<Provider>)
    ensures |ps| <= |cfgs|
    ensures forall k :: 0 <= k < |ps| ==> ps[k].failures == 0 && ps[k].isActive
    decreases |cfgs|
  {
    if |cfgs| == 0 then []
    else
      var head := match ProviderFor(cfgs[0]) case Some(p) => [p] case None => [];
      head + BuildRegistry(cfgs[1..])
  }

  /** Building from `a + b` builds from `a`, then from `b`: configuration order is kept. */
  lemma {:induction false} BuildRegistryAppend(a: seq<Descriptor>, b: seq<Descriptor>)
    ensures BuildRegistry(a + b) == BuildRegistry(a) + BuildRegistry(b)
    decreases |a|
  {
    if |a| == 0 {
      assert a + b == b;
    } else {
      assert (a + b)[0] == a[0];
      assert (a + b)[1..] == a[1..] + b;
      BuildRegistryAppend(a[1..], b);
    }
  }

  /** A descriptor of unknown type contributes nothing; a known one contributes exactly
      its provider. */
  lemma BuildRegistrySingle(d: Descriptor)
    ensures ProviderFor(d).None? ==> BuildRegistry([d]) == []
    ensures ProviderFor(d).Some? ==> BuildRegistry([d]) == [ProviderFor(d).value]
  {
    assert [d][1..] == [];
  }

  /** `ProviderRouter()`: the registry from the loaded configuration, cursor at 0. */
  function NewRouter(f: ConfigFile): (r: RouterState)
    ensures r.cursor == 0
    ensures r.providers == BuildRegistry(LoadProviders(f))
    ensures forall k :: 0 <= k < |r.providers| ==> r.providers[k].failures == 0
  {
    RouterState(BuildRegistry(LoadProviders(f)), 0)
  }

  // ---------------------------------------------------------------------------
  // Selection (`get_provider`)

  predicate Healthy(p: Provider) {
    p.failures < FailureThreshold
  }

  predicate Supports(p: Provider, model: string) {
    WildcardModel in p.models || model in p.models
  }

  predicate Eligible(p: Provider, model: string) {
    Healthy(p) && Supports(p, model)
  }

  /** The index visited at step `k` of a scan that starts after cursor `c`
      (Python's `%` and Dafny's agree for a positive divisor). */
  function Slot(c: int, k: int, n: int): (i: int)
    requires n > 0
    ensures 0 <= i < n
  {
    (c + k) % n
  }

  lemma MulMono(a: int, b: int, n: int)
    requires a <= b && n > 0
    ensures a * n <= b * n
  {
    assert b * n == a * n + (b - a) * n;
  }

  /** If `x == q * n + m` with `0 <= m < n`, then `m` is `x % n`. */
  lemma ModUnique(x: int, n: int, q: int, m: int)
    requires n > 0 && 0 <= m < n && x == q * n + m
    ensures x % n == m
  {
    var p := x / n;
    assert x == p * n + x % n;
    if q > p {
      MulMono(p + 1, q, n);
    } else if q < p {
      MulMono(q + 1, p, n);
    }
  }

  /** Advancing the cursor by one more step. */
  lemma SlotStep(c: int, k: int, n: int)
    requires n > 0
    ensures (Slot(c, k, n) + 1) % n == Slot(c, k + 1, n)
  {
    var x := c + k;
    var m := x % n;
    assert x == (x / n) * n + m;
    if m + 1 < n {
      ModUnique(x + 1, n, x / n, m + 1);
      ModUnique(m + 1, n, 0, m + 1);
    } else {
      ModUnique(x + 1, n, x / n + 1, 0);
      ModUnique(m + 1, n, 1, 0);
    }
  }

  /** A full rotation brings the cursor back to its class modulo `n`. */
  lemma SlotFullTurn(c: int, n: int)
    requires n > 0
    ensures Slot(c, n, n) == c % n
  {
    assert c == (c / n) * n + c % n;
    ModUnique(c + n, n, c / n + 1, c % n);
  }

  /** The scan `1..n` reaches every index of the registry. */
  lemma SlotsCover(c: int, n: int, i: int) returns (k: int)
    requires n > 0 && 0 <= i < n
    ensures 1 <= k <= n && Slot(c, k, n) == i
  {
    var q, m := (i - c) / n, (i - c) % n;
    assert i - c == q * n + m;
    if m == 0 {
      k := n;
      ModUnique(c + k, n, 1 - q, i);
    } else {
      k := m;
      ModUnique(c + k, n, -q, i);
    }
  }

  /** The first offset `k' >= k` of the scan whose provider is eligible. */
  function FirstEligibleFrom(ps: seq<Provider>, c: int, model: string, k: int): (r: Option<int>)
    requires |ps| > 0 && 1 <= k <= |ps| + 1
    ensures r.Some? ==>
      && k <= r.value <= |ps|
      && Eligible(ps[Slot(c, r.value, |ps|)], model)
      && forall j :: k <= j < r.value ==> !Eligible(ps[Slot(c, j, |ps|)], model)
    ensures r.None? ==> forall j :: k <= j <= |ps| ==> !Eligible(ps[Slot(c, j, |ps|)], model)
    decreases |ps| + 1 - k
  {
    if k > |ps| then None
    else if Eligible(ps[Slot(c, k, |ps|)], model) then Some(k)
    else FirstEligibleFrom(ps, c, model, k + 1)
  }

  /** The state after a selection, and the selected index if any. */
  datatype Selection = Selection(state: RouterState, pick: Option<int>)

  /** `get_provider(model)`: the first eligible provider of the rotation that starts
      just after the cursor; the cursor moves onto it. */
  function Select(r: RouterState, model: string): (s: Selection)
    ensures s.state.providers == r.providers
    ensures |r.providers| == 0 ==> s == Selection(r, None)
    ensures s.pick.Some? ==>
      && 0 <= s.pick.value < |r.providers|
      && Eligible(r.providers[s.pick.value], model)
      && s.state.cursor == s.pick.value
    ensures s.pick.Some? ==>
      exists k :: && 1 <= k <= |r.providers|
                  && s.pick.value == Slot(r.cursor, k, |r.providers|)
                  && forall j :: 1 <= j < k ==> !Eligible(r.providers[Slot(r.cursor, j, |r.providers|)], model)
    ensures s.pick.None? && |r.providers| > 0 ==> s.state.cursor == r.cursor % |r.providers|
    ensures s.pick.None? ==> forall i :: 0 <= i < |r.providers| ==> !Eligible(r.providers[i], model)
  {
    var n := |r.providers|;
    if n == 0 then Selection(r, None)
    else
      match FirstEligibleFrom(r.providers, r.cursor, model, 1)
      case Some(k) => Selection(r.(cursor := Slot(r.cursor, k, n)), Some(Slot(r.cursor, k, n)))
      case None =>
        SlotFullTurn(r.cursor, n);
        assert forall i :: 0 <= i < n ==> !Eligible(r.providers[i], model) by {
          forall i | 0 <= i < n
            ensures !Eligible(r.providers[i], model)
          {
            var k := SlotsCover(r.cursor, n, i);
          }
        }
        Selection(r.(cursor := Slot(r.cursor, n, n)), None)
  }

  /** The loop of `get_provider`, which moves the cursor at every visited slot. */
  method GetProvider(r: RouterState, model: string) returns (s: Selection)
    ensures s == Select(r, model)
  {
    var n := |r.providers|;
    if n == 0 {
      return Selection(r, None);
    }
    var cursor := r.cursor;
    var k := 0;
    while k < n
      invariant 0 <= k <= n
      invariant k == 0 ==> cursor == r.cursor
      invariant k > 0 ==> cursor == Slot(r.cursor, k, n)
      invariant forall j :: 1 <= j <= k ==> !Eligible(r.providers[Slot(r.cursor, j, n)], model)
    {
      if k > 0 {
        SlotStep(r.cursor, k, n);
      }
      cursor := (cursor + 1) % n;
      k := k + 1;
      if Eligible(r.providers[cursor], model) {
        return Selection(r.(cursor := cursor), Some(cursor));
      }
    }
    return Selection(r.(cursor := cursor), None);
  }

  // ---------------------------------------------------------------------------
  // Health counters

  /** `report_success`: the provider's counter goes back to 0; nothing else changes. */
  function ReportSuccess(r: RouterState, i: int): (r': RouterState)
    requires 0 <= i < |r.providers|
    ensures r'.cursor == r.cursor && |r'.providers| == |r.providers|
    ensures r'.providers[i] == r.providers[i].(failures := 0)
    ensures forall j :: 0 <= j < |r.providers| && j != i ==> r'.providers[j] == r.providers[j]
  {
    r.(providers := r.providers[i := r.providers[i].(failures := 0)])
  }

  /** `report_failure`: the provider's counter goes up by one; nothing else changes. */
  function ReportFailure(r: RouterState, i: int): (r': RouterState)
    requires 0 <= i < |r.providers|
    ensures r'.cursor == r.cursor && |r'.providers| == |r.providers|
    ensures r'.providers[i] == r.providers[i].(failures := r.providers[i].failures + 1)
    ensures forall j :: 0 <= j < |r.providers| && j != i ==> r'.providers[j] == r.providers[j]
  {
    r.(providers := r.providers[i := r.providers[i].(failures := r.providers[i].failures + 1)])
  }

  /** `report_success` once per delivered fragment. */
  function Deliver(r: RouterState, i: int, frags: seq<string>): (r': RouterState)
    requires 0 <= i < |r.providers|
    ensures |frags| == 0 ==> r' == r
    ensures |frags| > 0 ==> r' == ReportSuccess(r, i)
    decreases |frags|
  {
    if |frags| == 0 then r else Deliver(ReportSuccess(r, i), i, frags[1..])
  }

  // ---------------------------------------------------------------------------
  // Streaming with failover (`stream_chat`)

  /** The behaviour of the provider at an index on a given attempt number. */
  type Behaviour = (int, nat) -> Attempt

  datatype Outcome =
    | Finished     // an attempt completed normally
    | NoProvider   // selection found nothing: "No healthy providers available ..."
    | AllFailed    // every attempt raised: "All retries failed. Errors: ..."

  /** What a `stream_chat` call did: the final state, the fragments the caller received,
      the index tried and the attempt made at each step, and the recorded errors. */
  datatype Session = Session(
    state: RouterState,
    output: seq<string>,
    tried: seq<int>,
    attempts: seq<Attempt>,
    errors: seq<string>,
    outcome: Outcome)

  /** The fragments of the attempts, in order. */
  function Flatten(attempts: seq<Attempt>): seq<string>
    decreases |attempts|
  {
    if |attempts| == 0 then []
    else Flatten(attempts[..|attempts| - 1]) + attempts[|attempts| - 1].frags
  }

  /** The `f"{provider.name}: {str(e)}"` entry of a failed attempt. */
  function ErrorEntry(name: string, err: string): string {
    name + ": " + err
  }

  /** The rest of a `stream_chat` call from attempt number `attempt` on. */
  function Drive(r: RouterState, model: string, behave: Behaviour, attempt: nat,
                 output: seq<string>, tried: seq<int>, attempts: seq<Attempt>, errors: seq<string>): Session
    decreases MaxRetries - attempt
  {
    if attempt >= MaxRetries then Session(r, output, tried, attempts, errors, AllFailed)
    else
      var sel := Select(r, model);
      match sel.pick
      case None => Session(sel.state, output, tried, attempts, errors, NoProvider)
      case Some(i) =>
        var a := behave(i, attempt);
        var delivered := Deliver(sel.state, i, a.frags);
        if a.Completes? then
          Session(delivered, output + a.frags, tried + [i], attempts + [a], errors, Finished)
        else
          Drive(ReportFailure(delivered, i), model, behave, attempt + 1, output + a.frags,
                tried + [i], attempts + [a], errors + [ErrorEntry(delivered.providers[i].name, a.err)])
  }

  /** The reference reading of `stream_chat(model, messages)`. */
  function StreamChatSpec(r: RouterState, model: string, behave: Behaviour): Session {
    Drive(r, model, behave, 0, [], [], [], [])
  }

  /** Everything but the failure counter of the provider stays as it was. */
  predicate SameIdentity(p: Provider, q: Provider) {
    p.(failures := 0) == q.(failures := 0)
  }

  /** The inner `async for chunk` loop: each fragment resets the provider's counter and
      is forwarded to the caller at once. */
  method Forward(r: RouterState, i: int, frags: seq<string>, output: seq<string>)
    returns (r': RouterState, output': seq<string>)
    requires 0 <= i < |r.providers|
    ensures r' == Deliver(r, i, frags)
    ensures output' == output + frags
  {
    r', output' := r, output;
    var k := 0;
    while k < |frags|
      invariant 0 <= k <= |frags|
      invariant |r'.providers| == |r.providers|
      invariant Deliver(r', i, frags[k..]) == Deliver(r, i, frags)
      invariant output' == output + frags[..k]
    {
      assert frags[k..][1..] == frags[k + 1..];
      r' := ReportSuccess(r', i);
      output' := output' + [frags[k]];
      assert frags[..k + 1] == frags[..k] + [frags[k]];
      k := k + 1;
    }
    assert frags[k..] == [] && frags[..k] == frags;
  }

  /** `stream_chat` as the Python loop: up to three attempts, each forwarding its
      fragments as they come; a failed attempt adds one to the counter and records
      `name: err`. It computes exactly the reference reading `StreamChatSpec`. */
  method StreamChat(r: RouterState, model: string, behave: Behaviour) returns (s: Session)
    ensures s == StreamChatSpec(r, model, behave)
  {
    var state := r;
    var output: seq<string> := [];
    var tried: seq<int> := [];
    var attempts: seq<Attempt> := [];
    var errors: seq<string> := [];
    var attempt: nat := 0;
    while attempt < MaxRetries
      invariant attempt <= MaxRetries
      invariant Drive(state, model, behave, attempt, output, tried, attempts, errors) == StreamChatSpec(r, model, behave)
    {
      ghost var before := Drive(state, model, behave, attempt, output, tried, attempts, errors);
      var sel := GetProvider(state, model);
      if sel.pick.None? {
        assert before == Session(sel.state, output, tried, attempts, errors, NoProvider);
        return Session(sel.state, output, tried, attempts, errors, NoProvider);
      }
      var i := sel.pick.value;
      var a := behave(i, attempt);
      ghost var delivered := Deliver(sel.state, i, a.frags);
      state, output := Forward(sel.state, i, a.frags, output);
      if a.Completes? {
        assert before == Session(delivered, output, tried + [i], attempts + [a], errors, Finished);
        return Session(state, output, tried + [i], attempts + [a], errors, Finished);
      }
      var name := state.providers[i].name;
      state := ReportFailure(state, i);
      tried := tried + [i];
      attempts := attempts + [a];
      errors := errors + [ErrorEntry(name, a.err)];
      assert before == Drive(state, model, behave, attempt + 1, output, tried, attempts, errors);
      attempt := attempt + 1;
    }
    return Session(state, output, tried, attempts, errors, AllFailed);
  }

  /** Serving providers changed at most the counters of those in `tried`. */
  ghost predicate Framed(r0: RouterState, r: RouterState, tried: seq<int>) {
    && |r.providers| == |r0.providers|
    && (forall p :: 0 <= p < |r0.providers| ==> SameIdentity(r.providers[p], r0.providers[p]))
    && (forall p :: 0 <= p < |r0.providers| && p !in tried ==> r.providers[p] == r0.providers[p])
  }

  /** The record of `attempt` failed attempts of a call that started from `r0`. */
  ghost predicate FailedSoFar(r0: RouterState, behave: Behaviour, attempt: nat, output: seq<string>,
                              tried: seq<int>, attempts: seq<Attempt>, errors: seq<string>)
  {
    && attempt <= MaxRetries
    && |tried| == attempt && |attempts| == attempt && |errors| == attempt
    && output == Flatten(attempts)
    && (forall j :: 0 <= j < attempt ==>
          && 0 <= tried[j] < |r0.providers| && attempts[j] == behave(tried[j], j)
          && attempts[j].FailsAfter? && errors[j] == ErrorEntry(r0.providers[tried[j]].name, attempts[j].err))
  }

  /** What holds of a finished `stream_chat` call that started from `r0`. */
  ghost predicate Concluded(r0: RouterState, model: string, behave: Behaviour, s: Session) {
    && Framed(r0, s.state, s.tried)
    && s.output == Flatten(s.attempts)
    && |s.tried| == |s.attempts| <= MaxRetries
    && |s.errors| <= |s.attempts|
    && (forall j :: 0 <= j < |s.attempts| ==>
          0 <= s.tried[j] < |r0.providers| && s.attempts[j] == behave(s.tried[j], j))
    && (forall j :: 0 <= j < |s.errors| ==>
          s.attempts[j].FailsAfter? && s.errors[j] == ErrorEntry(r0.providers[s.tried[j]].name, s.attempts[j].err))
    && (s.outcome.Finished? <==> |s.attempts| > 0 && s.attempts[|s.attempts| - 1].Completes?)
    && (s.outcome.Finished? ==> |s.errors| == |s.attempts| - 1)
    && (!s.outcome.Finished? ==> |s.errors| == |s.attempts|)
    && (s.outcome.AllFailed? ==> |s.attempts| == MaxRetries)
    && (s.outcome.NoProvider? ==>
          && |s.attempts| < MaxRetries
          && forall p :: 0 <= p < |r0.providers| ==> !Eligible(s.state.providers[p], model))
  }

  lemma FlattenSnoc(attempts: seq<Attempt>, a: Attempt)
    ensures Flatten(attempts + [a]) == Flatten(attempts) + a.frags
  {
    assert (attempts + [a])[..|attempts|] == attempts;
  }

  /** Serving provider `i` (delivery, then possibly a failure) changes only its counter. */
  lemma ServeKeepsFrame(r0: RouterState, r: RouterState, model: string, i: int, frags: seq<string>,
                        tried: seq<int>)
    requires Framed(r0, r, tried)
    requires Select(r, model).pick == Some(i)
    ensures var d := Deliver(Select(r, model).state, i, frags);
      && Framed(r0, d, tried + [i])
      && Framed(r0, ReportFailure(d, i), tried + [i])
      && d.providers[i].name == r0.providers[i].name
  {
  }

  /** One more failed attempt extends the record. */
  lemma FailedSoFarStep(r0: RouterState, behave: Behaviour, attempt: nat, output: seq<string>,
                        tried: seq<int>, attempts: seq<Attempt>, errors: seq<string>, i: int)
    requires FailedSoFar(r0, behave, attempt, output, tried, attempts, errors)
    requires attempt < MaxRetries && 0 <= i < |r0.providers| && behave(i, attempt).FailsAfter?
    ensures var a := behave(i, attempt);
      FailedSoFar(r0, behave, attempt + 1, output + a.frags, tried + [i], attempts + [a],
                  errors + [ErrorEntry(r0.providers[i].name, a.err)])
  {
    FlattenSnoc(attempts, behave(i, attempt));
  }

  /** An attempt that completes concludes the call. */
  lemma ConcludedByCompletion(r0: RouterState, model: string, behave: Behaviour, n: RouterState,
                              attempt: nat, output: seq<string>, tried: seq<int>,
                              attempts: seq<Attempt>, errors: seq<string>, i: int)
    requires FailedSoFar(r0, behave, attempt, output, tried, attempts, errors)
    requires attempt < MaxRetries && 0 <= i < |r0.providers| && behave(i, attempt).Completes?
    requires Framed(r0, n, tried + [i])
    ensures var a := behave(i, attempt);
      Concluded(r0, model, behave, Session(n, output + a.frags, tried + [i], attempts + [a], errors, Finished))
  {
    var a := behave(i, attempt);
    FlattenSnoc(attempts, a);
    var tried', attempts' := tried + [i], attempts + [a];
    var s := Session(n, output + a.frags, tried', attempts', errors, Finished);
    assert forall j :: 0 <= j < |attempts| ==> tried'[j] == tried[j] && attempts'[j] == attempts[j];
    assert tried'[attempt] == i && attempts'[attempt] == a;
    assert s.output == Flatten(s.attempts);
    assert |s.tried| == |s.attempts| == attempt + 1 <= MaxRetries;
    assert |s.errors| == |s.attempts| - 1;
    forall j | 0 <= j < |s.attempts|
      ensures 0 <= s.tried[j] < |r0.providers| && s.attempts[j] == behave(s.tried[j], j)
    {
      if j < attempt {
        assert s.tried[j] == tried[j] && s.attempts[j] == attempts[j];
      } else {
        assert s.tried[j] == i && s.attempts[j] == a;
      }
    }
    forall j | 0 <= j < |s.errors|
      ensures s.attempts[j].FailsAfter? && s.errors[j] == ErrorEntry(r0.providers[s.tried[j]].name, s.attempts[j].err)
    {
      assert s.tried[j] == tried[j] && s.attempts[j] == attempts[j];
    }
    assert s.attempts[|s.attempts| - 1].Completes?;
  }

  /** Stopping for want of a provider, or after the third failure, concludes the call. */
  lemma ConcludedByStop(r0: RouterState, r: RouterState, model: string, behave: Behaviour,
                        attempt: nat, output: seq<string>, tried: seq<int>,
                        attempts: seq<Attempt>, errors: seq<string>)
    requires Framed(r0, r, tried)
    requires FailedSoFar(r0, behave, attempt, output, tried, attempts, errors)
    requires attempt >= MaxRetries || Select(r, model).pick.None?
    ensures Concluded(r0, model, behave, Drive(r, model, behave, attempt, output, tried, attempts, errors))
  {
  }

  /** The remaining attempts of a call keep the frame and the record, and conclude it. */
  lemma {:induction false} DriveConcludes(r0: RouterState, r: RouterState, model: string, behave: Behaviour,
                                          attempt: nat, output: seq<string>, tried: seq<int>,
                                          attempts: seq<Attempt>, errors: seq<string>)
    requires Framed(r0, r, tried)
    requires FailedSoFar(r0, behave, attempt, output, tried, attempts, errors)
    ensures Concluded(r0, model, behave, Drive(r, model, behave, attempt, output, tried, attempts, errors))
    decreases MaxRetries - attempt
  {
    if attempt >= MaxRetries || Select(r, model).pick.None? {
      ConcludedByStop(r0, r, model, behave, attempt, output, tried, attempts, errors);
    } else {
      var i := Select(r, model).pick.value;
      var a := behave(i, attempt);
      var d := Deliver(Select(r, model).state, i, a.frags);
      ServeKeepsFrame(r0, r, model, i, a.frags, tried);
      if a.Completes? {
        ConcludedByCompletion(r0, model, behave, d, attempt, output, tried, attempts, errors, i);
      } else {
        FailedSoFarStep(r0, behave, attempt, output, tried, attempts, errors, i);
        DriveConcludes(r0, ReportFailure(d, i), model, behave, attempt + 1, output + a.frags,
                       tried + [i], attempts + [a], errors + [ErrorEntry(d.providers[i].name, a.err)]);
      }
    }
  }

  /** What every `stream_chat` call does, whatever the providers do: */
  lemma StreamChatFacts(r: RouterState, model: string, behave: Behaviour)
    ensures var s := StreamChatSpec(r, model, behave);
      // the registry keeps its shape, names and models; untried providers are untouched
      && |s.state.providers| == |r.providers|
      && (forall p :: 0 <= p < |r.providers| ==> SameIdentity(s.state.providers[p], r.providers[p]))
      && (forall p :: 0 <= p < |r.providers| && p !in s.tried ==> s.state.providers[p] == r.providers[p])
      // the caller sees every attempt's fragments, in order, none retracted
      && s.output == Flatten(s.attempts)
      // at most three attempts, each the behaviour of the provider tried
      && |s.tried| == |s.attempts| <= MaxRetries
      && |s.errors| <= |s.attempts|
      && (forall j :: 0 <= j < |s.attempts| ==>
            0 <= s.tried[j] < |r.providers| && s.attempts[j] == behave(s.tried[j], j))
      // one `name: err` entry per failed attempt
      && (forall j :: 0 <= j < |s.errors| ==>
            s.attempts[j].FailsAfter? && s.errors[j] == ErrorEntry(r.providers[s.tried[j]].name, s.attempts[j].err))
      // the first attempt that completes ends the call
      && (s.outcome.Finished? <==> |s.attempts| > 0 && s.attempts[|s.attempts| - 1].Completes?)
      && (s.outcome.Finished? ==> |s.errors| == |s.attempts| - 1)
      && (!s.outcome.Finished? ==> |s.errors| == |s.attempts|)
      // three failures exhaust the budget
      && (s.outcome.AllFailed? ==> |s.attempts| == MaxRetries && |s.errors| == MaxRetries)
      // no eligible provider left: the call stops without another attempt
      && (s.outcome.NoProvider? ==>
            && |s.attempts| < MaxRetries
            && forall p :: 0 <= p < |r.providers| ==> !Eligible(s.state.providers[p], model))
  {
    DriveConcludes(r, r, model, behave, 0, [], [], [], []);
  }

  /** A provider's counter after it served attempt `a`: fragments reset it to 0, and a
      raised error then adds one. */
  function Served(c: nat, a: Attempt): nat {
    (if |a.frags| > 0 then 0 else c) + (if a.FailsAfter? then 1 else 0)
  }

  /** The failure counters of a registry, by index. */
  function Failures(ps: seq<Provider>): (cs: seq<nat>)
    ensures |cs| == |ps| && forall k :: 0 <= k < |ps| ==> cs[k] == ps[k].failures
  {
    seq(|ps|, k requires 0 <= k < |ps| => ps[k].failures)
  }

  /** The counters, starting from `start`, after the attempts made at the indices in
      `tried`, in order; an attempt changes only the counter of the provider it was made at. */
  function Counters(start: seq<nat>, tried: seq<int>, attempts: seq<Attempt>): (cs: seq<nat>)
    requires |tried| == |attempts|
    ensures |cs| == |start|
    decreases |tried|
  {
    if |tried| == 0 then start
    else
      var n := |tried| - 1;
      var before := Counters(start, tried[..n], attempts[..n]);
      var i := tried[n];
      if 0 <= i < |before| then before[i := Served(before[i], attempts[n])] else before
  }

  lemma CountersSnoc(start: seq<nat>, tried: seq<int>, attempts: seq<Attempt>, i: int, a: Attempt)
    requires |tried| == |attempts| && 0 <= i < |start|
    ensures var before := Counters(start, tried, attempts);
      Counters(start, tried + [i], attempts + [a]) == before[i := Served(before[i], a)]
  {
    assert (tried + [i])[..|tried|] == tried;
    assert (attempts + [a])[..|attempts|] == attempts;
  }

  /** Serving provider `i` with attempt `a` updates its counter as `Served` says. */
  lemma ServedCounter(r: RouterState, model: string, i: int, a: Attempt)
    requires Select(r, model).pick == Some(i)
    ensures var d := Deliver(Select(r, model).state, i, a.frags);
      var after := if a.Completes? then d else ReportFailure(d, i);
      var cs := Failures(r.providers);
      Failures(after.providers) == cs[i := Served(cs[i], a)]
  {
  }

  /** A `Drive` step that stops leaves the registry and the record as they were. */
  lemma DriveStops(r: RouterState, model: string, behave: Behaviour, attempt: nat, output: seq<string>,
                   tried: seq<int>, attempts: seq<Attempt>, errors: seq<string>)
    requires attempt >= MaxRetries || Select(r, model).pick.None?
    ensures var s := Drive(r, model, behave, attempt, output, tried, attempts, errors);
      s.state.providers == r.providers && s.tried == tried && s.attempts == attempts
  {
  }

  /** A `Drive` step that serves provider `i`: the session it ends with. */
  lemma DriveServes(r: RouterState, model: string, behave: Behaviour, attempt: nat, output: seq<string>,
                    tried: seq<int>, attempts: seq<Attempt>, errors: seq<string>, i: int)
    requires attempt < MaxRetries && Select(r, model).pick == Some(i)
    ensures var a := behave(i, attempt);
      var d := Deliver(Select(r, model).state, i, a.frags);
      var s := Drive(r, model, behave, attempt, output, tried, attempts, errors);
      && (a.Completes? ==> s.state == d && s.tried == tried + [i] && s.attempts == attempts + [a])
      && (a.FailsAfter? ==>
            s == Drive(ReportFailure(d, i), model, behave, attempt + 1, output + a.frags,
                       tried + [i], attempts + [a], errors + [ErrorEntry(d.providers[i].name, a.err)]))
  {
  }

  /** The remaining attempts of a call keep the counters as `Counters` computes them. */
  lemma {:induction false} DriveCounts(start: seq<nat>, r: RouterState, model: string, behave: Behaviour,
                                       attempt: nat, output: seq<string>, tried: seq<int>,
                                       attempts: seq<Attempt>, errors: seq<string>)
    requires |tried| == |attempts| && Failures(r.providers) == Counters(start, tried, attempts)
    ensures var s := Drive(r, model, behave, attempt, output, tried, attempts, errors);
      |s.tried| == |s.attempts| && Failures(s.state.providers) == Counters(start, s.tried, s.attempts)
    decreases MaxRetries - attempt, 1
  {
    if attempt < MaxRetries && Select(r, model).pick.Some? {
      ServeCounts(start, r, model, behave, attempt, output, tried, attempts, errors, Select(r, model).pick.value);
    } else {
      DriveStops(r, model, behave, attempt, output, tried, attempts, errors);
    }
  }

  /** `DriveCounts` when provider `i` is served. */
  lemma {:induction false} ServeCounts(start: seq<nat>, r: RouterState, model: string, behave: Behaviour,
                                       attempt: nat, output: seq<string>, tried: seq<int>,
                                       attempts: seq<Attempt>, errors: seq<string>, i: int)
    requires |tried| == |attempts| && Failures(r.providers) == Counters(start, tried, attempts)
    requires attempt < MaxRetries && Select(r, model).pick == Some(i)
    ensures var s := Drive(r, model, behave, attempt, output, tried, attempts, errors);
      |s.tried| == |s.attempts| && Failures(s.state.providers) == Counters(start, s.tried, s.attempts)
    decreases MaxRetries - attempt, 0
  {
    var a := behave(i, attempt);
    var d := Deliver(Select(r, model).state, i, a.frags);
    ServedCounter(r, model, i, a);
    CountersSnoc(start, tried, attempts, i, a);
    DriveServes(r, model, behave, attempt, output, tried, attempts, errors, i);
    if a.FailsAfter? {
      DriveCounts(start, ReportFailure(d, i), model, behave, attempt + 1, output + a.frags,
                  tried + [i], attempts + [a], errors + [ErrorEntry(d.providers[i].name, a.err)]);
    }
  }

  /** The failure counters at the end of a `stream_chat` call: each attempt resets the
      counter of its provider when it delivered a fragment, then adds one when it raised;
      no other counter changes. */
  lemma StreamChatCounters(r: RouterState, model: string, behave: Behaviour)
    ensures var s := StreamChatSpec(r, model, behave);
      && |s.tried| == |s.attempts|
      && Failures(s.state.providers) == Counters(Failures(r.providers), s.tried, s.attempts)
  {
    DriveCounts(Failures(r.providers), r, model, behave, 0, [], [], [], []);
  }

  /** When selection finds nothing at the start, no provider is called and nothing changes
      but the cursor. */
  lemma NoProviderAtOnce(r: RouterState, model: string, behave: Behaviour)
    requires Select(r, model).pick.None?
    ensures var s := StreamChatSpec(r, model, behave);
      && s.outcome.NoProvider? && s.tried == [] && s.output == [] && s.errors == []
      && s.state.providers == r.providers
  {
  }

  /** When the first attempt completes, the call ends there: no counter goes up, and the
      serving provider's counter is 0 exactly when it delivered a fragment. */
  lemma FirstAttemptSucceeds(r: RouterState, model: string, behave: Behaviour)
    requires Select(r, model).pick.Some?
    requires behave(Select(r, model).pick.value, 0).Completes?
    ensures var s := StreamChatSpec(r, model, behave);
      var i := Select(r, model).pick.value;
      var a := behave(i, 0);
      && s.outcome.Finished? && s.tried == [i] && s.output == a.frags && s.errors == []
      && forall p :: 0 <= p < |r.providers| ==>
           s.state.providers[p].failures ==
             if p == i && |a.frags| > 0 then 0 else r.providers[p].failures
  {
  }

  /** Python's `repr` of a list of strings without quotes or backslashes inside. */
  function ListRepr(items: seq<string>): string {
    "[" + Join(seq(|items|, k requires 0 <= k < |items| => "'" + items[k] + "'"), ", ") + "]"
  }

  /** The message of the exception a finished session raises, if any. */
  function RaisedMessage(s: Session): (m: Option<string>)
    ensures m.None? <==> s.outcome.Finished?
    ensures s.outcome.NoProvider? ==> m == Some(NoProviderMessage)
    ensures s.outcome.AllFailed? ==> StartsWith(m.value, "All retries failed. Errors: ")
  {
    match s.outcome
    case Finished => None
    case NoProvider => Some(NoProviderMessage)
    case AllFailed => Some("All retries failed. Errors: " + ListRepr(s.errors))
  }

  /** The list's representation names every item. */
  lemma ListReprContains(items: seq<string>, k: int)
    requires 0 <= k < |items|
    ensures Contains(ListRepr(items), items[k])
  {
    var quoted := seq(|items|, j requires 0 <= j < |items| => "'" + items[j] + "'");
    var inner := Join(quoted, ", ");
    assert Contains(quoted[k], items[k]) by {
      assert quoted[k] == "'" + (items[k] + "'");
      assert StartsWith(items[k] + "'", items[k]);
      ContainsAfter("'", items[k] + "'", items[k]);
    }
    JoinContainsPart(quoted, ", ", k);
    ContainsTransitive(inner, quoted[k], items[k]);
    ContainsOfPrefix(inner + "]", inner, items[k]);
    assert ListRepr(items) == "[" + (inner + "]");
    ContainsAfter("[", inner + "]", items[k]);
  }

  /** When every attempt failed, the raised message names each attempt's error. */
  lemma RaisedMessageNamesErrors(s: Session)
    requires s.outcome.AllFailed?
    ensures forall e :: e in s.errors ==> Contains(RaisedMessage(s).value, e)
  {
    forall e | e in s.errors
      ensures Contains(RaisedMessage(s).value, e)
    {
      var k :| 0 <= k < |s.errors| && s.errors[k] == e;
      ListReprContains(s.errors, k);
      ContainsAfter("All retries failed. Errors: ", ListRepr(s.errors), e);
    }
  }
}
