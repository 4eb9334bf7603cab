/** Properties of the router that relate several calls: round-robin order, providers at
    the failure threshold staying out of rotation, and the failover scenarios of
    tests/test_router.py. */
module RouterProperties {
  import opened Wrappers
  import opened Text
  import opened ConfigLoader
  import opened Providers
  import opened Router

  // ---------------------------------------------------------------------------
  // Round robin

  /** The picks of `count` consecutive `get_provider(model)` calls. */
  function Rotation(r: RouterState, model: string, count: nat): (picks: seq<Option<int>>)
    ensures |picks| == count
    decreases count
  {
    if count == 0 then []
    else
      var s := Select(r, model);
      [s.pick] + Rotation(s.state, model, count - 1)
  }

  predicate AllEligible(ps: seq<Provider>, model: string) {
    forall i :: 0 <= i < |ps| ==> Eligible(ps[i], model)
  }

  /** Starting one step further is the same as taking one more step. */
  lemma SlotShift(c: int, k: int, n: int)
    requires n > 0
    ensures Slot(Slot(c, 1, n), k, n) == Slot(c, k + 1, n)
  {
    var x := c + 1;
    assert x == (x / n) * n + x % n;
    var y := x % n + k;
    assert y == (y / n) * n + y % n;
    ModUnique(x + k, n, x / n + y / n, y % n);
  }

  /** With every provider eligible, `get_provider` takes the slot right after the cursor. */
  lemma SelectNext(r: RouterState, model: string)
    requires |r.providers| > 0 && AllEligible(r.providers, model)
    ensures Select(r, model).pick == Some(Slot(r.cursor, 1, |r.providers|))
    ensures Select(r, model).state == r.(cursor := Slot(r.cursor, 1, |r.providers|))
  {
    assert FirstEligibleFrom(r.providers, r.cursor, model, 1) == Some(1);
  }

  /** With every provider eligible, call `k` picks slot `k + 1` after the start cursor. */
  lemma {:induction false} RotationSlots(r: RouterState, model: string, count: nat)
    requires |r.providers| > 0 && AllEligible(r.providers, model)
    ensures forall k :: 0 <= k < count ==>
      Rotation(r, model, count)[k] == Some(Slot(r.cursor, k + 1, |r.providers|))
    decreases count
  {
    if count > 0 {
      var n := |r.providers|;
      SelectNext(r, model);
      var r' := r.(cursor := Slot(r.cursor, 1, n));
      RotationSlots(r', model, count - 1);
      forall k | 1 <= k < count
        ensures Rotation(r, model, count)[k] == Some(Slot(r.cursor, k + 1, n))
      {
        SlotShift(r.cursor, k, n);
      }
    }
  }

  /** Fewer than `n` steps apart, two steps land on distinct slots. */
  lemma SlotsDistinct(c: int, n: int, a: int, b: int)
    requires n > 0 && a < b < a + n
    ensures Slot(c, a, n) != Slot(c, b, n)
  {
    var x, d := c + a, b - a;
    var q, m := x / n, x % n;
    assert x == q * n + m;
    if m + d < n {
      ModUnique(x + d, n, q, m + d);
    } else {
      ModUnique(x + d, n, q + 1, m + d - n);
    }
  }

  /** Round robin: when all `n` providers are eligible, `n` consecutive calls return
      every provider exactly once, starting with the one after the cursor. */
  lemma RoundRobin(r: RouterState, model: string)
    requires |r.providers| > 0 && AllEligible(r.providers, model)
    ensures var picks := Rotation(r, model, |r.providers|);
      && (forall k :: 0 <= k < |picks| ==> picks[k].Some? && 0 <= picks[k].value < |r.providers|)
      && (forall a, b :: 0 <= a < b < |picks| ==> picks[a] != picks[b])
      && (forall i :: 0 <= i < |r.providers| ==> Some(i) in picks)
  {
    var n := |r.providers|;
    var picks := Rotation(r, model, n);
    RotationSlots(r, model, n);
    forall a, b | 0 <= a < b < n
      ensures picks[a] != picks[b]
    {
      SlotsDistinct(r.cursor, n, a + 1, b + 1);
    }
    forall i | 0 <= i < n
      ensures Some(i) in picks
    {
      var k := SlotsCover(r.cursor, n, i);
      assert picks[k - 1] == Some(i);
    }
  }

  // ---------------------------------------------------------------------------
  // The failure threshold

  /** A call never tries a provider at the failure threshold, and leaves it as it was. */
  lemma {:induction false} DriveSkipsUnhealthy(r: RouterState, model: string, behave: Behaviour,
                                               attempt: nat, output: seq<string>, tried: seq<int>,
                                               attempts: seq<Attempt>, errors: seq<string>, p: int)
    requires 0 <= p < |r.providers| && !Healthy(r.providers[p]) && p !in tried
    ensures var s := Drive(r, model, behave, attempt, output, tried, attempts, errors);
      && |s.state.providers| == |r.providers|
      && s.state.providers[p] == r.providers[p]
      && p !in s.tried
    decreases MaxRetries - attempt
  {
    if attempt < MaxRetries {
      var sel := Select(r, model);
      if sel.pick.Some? {
        var i := sel.pick.value;
        var a := behave(i, attempt);
        var d := Deliver(sel.state, i, a.frags);
        assert i != p;
        if a.FailsAfter? {
          DriveSkipsUnhealthy(ReportFailure(d, i), model, behave, attempt + 1, output + a.frags,
                              tried + [i], attempts + [a], errors + [ErrorEntry(d.providers[i].name, a.err)], p);
        }
      }
    }
  }

  /** A `stream_chat` request: the model asked for and what the providers do. */
  datatype ChatRequest = ChatRequest(model: string, behave: Behaviour)

  /** The router after serving the requests one after another. */
  function ServeAll(r: RouterState, reqs: seq<ChatRequest>): (r': RouterState)
    decreases |reqs|
  {
    if |reqs| == 0 then r
    else ServeAll(StreamChatSpec(r, reqs[0].model, reqs[0].behave).state, reqs[1..])
  }

  /** Once a counter reaches the threshold, no later request tries that provider, and its
      counter stays where it is: only delivered fragments reset a counter, and only a
      selected provider delivers. */
  lemma {:induction false} UnhealthyStaysOut(r: RouterState, reqs: seq<ChatRequest>, p: int)
    requires 0 <= p < |r.providers| && !Healthy(r.providers[p])
    ensures |ServeAll(r, reqs).providers| == |r.providers|
    ensures ServeAll(r, reqs).providers[p] == r.providers[p]
    ensures forall k :: 0 <= k < |reqs| ==>
      p !in StreamChatSpec(ServeAll(r, reqs[..k]), reqs[k].model, reqs[k].behave).tried
    decreases |reqs|
  {
    if |reqs| > 0 {
      var first := StreamChatSpec(r, reqs[0].model, reqs[0].behave);
      DriveSkipsUnhealthy(r, reqs[0].model, reqs[0].behave, 0, [], [], [], [], p);
      UnhealthyStaysOut(first.state, reqs[1..], p);
      forall k | 0 <= k < |reqs|
        ensures p !in StreamChatSpec(ServeAll(r, reqs[..k]), reqs[k].model, reqs[k].behave).tried
      {
        if k == 0 {
          assert reqs[..0] == [];
        } else {
          assert reqs[..k][1..] == reqs[1..][..k - 1];
          assert reqs[..k][0] == reqs[0];
          assert reqs[k] == reqs[1..][k - 1];
        }
      }
    }
  }

  // ---------------------------------------------------------------------------
  // The default configuration

  /** Without configured providers the router holds the single default provider, which
      accepts every model, so every request finds it. */
  lemma DefaultRouterServesAnyModel(f: ConfigFile, model: string)
    requires !Configured(f)
    ensures |NewRouter(f).providers| == 1
    ensures NewRouter(f).providers[0].name == "g4f-default"
    ensures Eligible(NewRouter(f).providers[0], model)
    ensures Select(NewRouter(f), model).pick == Some(0)
  {
    BuildRegistrySingle(DefaultDescriptor);
    assert WildcardModel in NewRouter(f).providers[0].models;
  }

  // ---------------------------------------------------------------------------
  // The scenarios of tests/test_router.py

  const MockFail := "Mock Fail"
  const MockResponse := "Mock Response"

  /** `MockProvider(name)`: accepts every model, counter 0. */
  function Mock(name: string): (p: Provider)
    ensures p.failures == 0 && p.models == [WildcardModel] && p.name == name
  {
    NewProvider(name, [WildcardModel], Descriptor(None, None, None, None, None), G4F)
  }

  /** The bad provider at index 0 raises at once; the good one at index 1 yields one
      fragment. */
  function FallbackBehaviour(i: int, attempt: nat): Attempt {
    if i == 0 then FailsAfter([], MockFail) else Completes([MockResponse])
  }

  /** Every provider raises at once. */
  function FailingBehaviour(i: int, attempt: nat): Attempt {
    FailsAfter([], MockFail)
  }

  const FallbackRouter := RouterState([Mock("bad"), Mock("good")], 1)

  /** `test_router_fallback`: the bad provider is tried first, fails, and the good one
      serves the single fragment; counters end at 1 and 0. */
  lemma FallbackScenario()
    ensures var s := StreamChatSpec(FallbackRouter, "test-model", FallbackBehaviour);
      && s.outcome == Finished
      && s.output == [MockResponse]
      && s.tried == [0, 1]
      && s.state.providers[0].failures == 1
      && s.state.providers[1].failures == 0
      && s.errors == ["bad: Mock Fail"]
      && RaisedMessage(s).None?
  {
    var r := FallbackRouter;
    SelectNext(r, "test-model");
    assert Slot(1, 1, 2) == 0;
    var d := Deliver(r.(cursor := 0), 0, []);
    var r1 := ReportFailure(d, 0);
    assert r1.providers[0].failures == 1;
    SelectNext(r1, "test-model");
    assert Slot(0, 1, 2) == 1;
    assert r1.providers[0].name == "bad";
    assert ErrorEntry("bad", MockFail) == "bad: Mock Fail";
  }

  const ExhaustionRouter := RouterState([Mock("bad1"), Mock("bad2")], 0)

  /** `test_router_all_fail`: from cursor 0 the rotation tries bad2, bad1, bad2, then
      raises "All retries failed" with three recorded errors. */
  lemma ExhaustionScenario()
    ensures var s := StreamChatSpec(ExhaustionRouter, "m", FailingBehaviour);
      && s.outcome == AllFailed
      && s.output == []
      && s.tried == [1, 0, 1]
      && s.errors == ["bad2: Mock Fail", "bad1: Mock Fail", "bad2: Mock Fail"]
      && s.state.providers[0].failures == 1
      && s.state.providers[1].failures == 2
      && RaisedMessage(s).Some? && StartsWith(RaisedMessage(s).value, "All retries failed")
  {
    var r := ExhaustionRouter;
    SelectNext(r, "m");
    assert Slot(0, 1, 2) == 1;
    var r1 := ReportFailure(r.(cursor := 1), 1);
    SelectNext(r1, "m");
    assert Slot(1, 1, 2) == 0;
    var r2 := ReportFailure(r1.(cursor := 0), 0);
    SelectNext(r2, "m");
    var r3 := ReportFailure(r2.(cursor := 1), 1);
    assert r3.providers[1].failures == 2;
    assert ErrorEntry("bad1", MockFail) == "bad1: Mock Fail";
    assert ErrorEntry("bad2", MockFail) == "bad2: Mock Fail";
    assert StartsWith("All retries failed. Errors: ", "All retries failed");
  }

  /** An empty registry raises the "No healthy providers" error without any attempt. */
  lemma EmptyRegistryScenario(model: string, behave: Behaviour)
    ensures var s := StreamChatSpec(RouterState([], 0), model, behave);
      && s.outcome == NoProvider && s.tried == [] && s.output == []
      && RaisedMessage(s) == Some(NoProviderMessage)
  {
  }
}
