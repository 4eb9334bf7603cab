/** The post-processing of `analyze_deals` (app/core/shopping.py): the prompt built from
    the first eight search results, the markdown fences stripped from the model's reply,
    the deals read from the decoded JSON list with their defaults, and the final
    cheapest-first stable sort.

    The model call, JSON decoding and Python's `float(str)` are parameters. Prices are
    `real`s: rounding to binary floating point, infinities and NaN are not modelled. */
module Shopping {
  import opened Wrappers
  import opened Text
  import opened Json
  import opened Providers

  // ---------------------------------------------------------------------------
  // The prompt

  /** One search result; a missing key reads as `None`. */
  datatype Hit = Hit(title: Option<string>, body: Option<string>, href: Option<string>)

  /** Only this many results go into the prompt. */
  const PromptLimit := 8

  /** Python's `str(v)` for `v` a string or `None`. */
  function Show(v: Option<string>): string {
    if v.Some? then v.value else "None"
  }

  /** The results the prompt lists: the first eight. */
  function Top(results: seq<Hit>): (top: seq<Hit>)
    ensures |top| == if |results| < PromptLimit then |results| else PromptLimit
    ensures top == results[..|top|]
  {
    if |results| <= PromptLimit then results else results[..PromptLimit]
  }

  /** The block for the result at position `i`, numbered from 1. */
  function ItemEntry(i: nat, r: Hit): string {
    "Item " + NatToString(i + 1) + ":\nTitle: " + Show(r.title) + "\nSnippet: " + Show(r.body)
    + "\nURL: " + Show(r.href) + "\n\n"
  }

  /** `items_text`: the blocks of the listed results, in order. */
  function ItemsText(results: seq<Hit>): string {
    var top := Top(results);
    Concat(seq(|top|, i requires 0 <= i < |top| => ItemEntry(i, top[i])))
  }

  const ExtractionInstructions :=
    "You are a smart shopping assistant. Extract product pricing information from the search results below.\n"
    + "For each distinct product found, extract:\n"
    + "- Name (concise)\n"
    + "- Price (numeric only)\n"
    + "- Currency (symbol)\n"
    + "- Unit Amount (e.g. 500, 1, 2.5). Default to 1 if not specified.\n"
    + "- Unit Type (e.g. g, ml, count, lbs, kg). Default to 'count'.\n"
    + "- URL (from the source)\n\n"
    + "Ignore items without a clear price.\n"
    + "Calculate 'price_per_unit' = price / unit_amount.\n"
    + "Return ONLY a valid JSON array of objects. No markdown formatting. Example:\n"
    + "[{\"name\": \"Apple iPhone 15\", \"price\": 799.0, \"currency\": \"$\", \"unit_amount\": 1, "
    + "\"unit_type\": \"count\", \"price_per_unit\": 799.0, \"url\": \"...\"}]"

  const ResultsHeading := "\n\nSearch Results:\n"

  function ExtractionPrompt(results: seq<Hit>): string {
    ExtractionInstructions + ResultsHeading + ItemsText(results)
  }

  /** Results after the eighth never reach the prompt. */
  lemma LaterResultsIgnored(results: seq<Hit>, extra: seq<Hit>)
    requires |results| >= PromptLimit
    ensures ExtractionPrompt(results + extra) == ExtractionPrompt(results)
  {
    assert Top(results + extra) == Top(results);
  }

  /** The prompt lists exactly the first `min(8, n)` results, numbered from 1. */
  lemma ItemsTextLists(results: seq<Hit>)
    ensures var top := Top(results);
      && |top| <= PromptLimit
      && (|results| >= PromptLimit ==> top == results[..PromptLimit])
      && (|results| < PromptLimit ==> top == results)
      && ItemsText(results) == Concat(seq(|top|, i requires 0 <= i < |top| => ItemEntry(i, results[i])))
  {
    var top := Top(results);
    assert seq(|top|, i requires 0 <= i < |top| => ItemEntry(i, top[i]))
        == seq(|top|, i requires 0 <= i < |top| => ItemEntry(i, results[i]));
  }

  // ---------------------------------------------------------------------------
  // Fence stripping

  const Fence := "```"
  const JsonFence := "```json"

  /** The reply cleaned of markdown fences: trimmed; when it then starts with a fence,
      one leading "```json" (or else "```") and one trailing "```" go; trimmed again. */
  function StripFences(reply: string): (r: string)
    ensures |r| > 0 ==> !IsSpace(r[0]) && !IsSpace(r[|r| - 1])
    ensures |r| <= |reply|
  {
    var t := Trim(reply);
    var u :=
      if StartsWith(t, Fence) then
        var v := if StartsWith(t, JsonFence) then t[|JsonFence|..] else t[|Fence|..];
        if EndsWith(v, Fence) then v[..|v| - |Fence|] else v
      else t;
    Trim(u)
  }

  /** A reply that does not start with a fence (after trimming) is only trimmed. */
  lemma UnfencedOnlyTrimmed(reply: string)
    requires !StartsWith(Trim(reply), Fence)
    ensures StripFences(reply) == Trim(reply)
  {
    TrimIdempotent(reply);
  }

  /** A payload wrapped in a "```json" fence comes back trimmed. */
  lemma JsonFenceRemoved(payload: string)
    ensures StripFences(JsonFence + payload + Fence) == Trim(payload)
  {
    var s := JsonFence + payload + Fence;
    Wrapped(JsonFence, payload, Fence);
    TrimUnpadded(s);
    assert StartsWith(s, Fence) by {
      assert s[..|Fence|] == s[..|JsonFence|][..|Fence|];
    }
  }

  /** A "```json" fence that is never closed still goes: the rest of the reply comes
      back trimmed, and nothing else is cut from its end. */
  lemma UnclosedJsonFence(payload: string)
    requires !EndsWith(payload, Fence)
    requires |payload| > 0 ==> !IsSpace(payload[|payload| - 1])
    ensures StripFences(JsonFence + payload) == Trim(payload)
  {
    var s := JsonFence + payload;
    assert s[..|JsonFence|] == JsonFence && s[|JsonFence|..] == payload;
    assert s[..|Fence|] == Fence;
    assert s[0] == '`' && !IsSpace(s[|s| - 1]);
    TrimUnpadded(s);
  }

  /** A payload wrapped in a bare "```" fence comes back trimmed, unless the payload
      itself starts with "json": those four letters are then taken for the fence's
      language tag and removed too. */
  lemma BareFenceRemoved(payload: string)
    ensures !StartsWith(payload, "json") ==> StripFences(Fence + payload + Fence) == Trim(payload)
    ensures StartsWith(payload, "json") ==>
      StripFences(Fence + payload + Fence) == Trim(payload[4..])
  {
    if StartsWith(payload, "json") {
      TaggedBareFence(payload);
    } else {
      UntaggedBareFence(payload);
    }
  }

  lemma TaggedBareFence(payload: string)
    requires StartsWith(payload, "json")
    ensures StripFences(Fence + payload + Fence) == Trim(payload[4..])
  {
    var s := Fence + payload + Fence;
    var rest := payload[4..];
    assert s == JsonFence + rest + Fence by {
      assert payload == "json" + rest;
      assert JsonFence == Fence + "json";
    }
    Wrapped(JsonFence, rest, Fence);
    Wrapped(Fence, payload, Fence);
    TrimUnpadded(s);
  }

  lemma UntaggedBareFence(payload: string)
    requires !StartsWith(payload, "json")
    ensures StripFences(Fence + payload + Fence) == Trim(payload)
  {
    var s := Fence + payload + Fence;
    Wrapped(Fence, payload, Fence);
    TrimUnpadded(s);
    UntaggedFence(payload);
  }

  /** A bare fence is not read as a "```json" one unless the payload starts with "json". */
  lemma UntaggedFence(payload: string)
    requires !StartsWith(payload, "json")
    ensures !StartsWith(Fence + payload + Fence, JsonFence)
  {
    var s := Fence + payload + Fence;
    if |payload| >= 4 {
      JsonTag(s);
      var tail := payload + Fence;
      assert s[3..7] == tail[..4] by {
        assert s[3..] == tail;
        assert s[3..7] == s[3..][..4];
      }
      assert tail[..4] == payload[..4];
    } else {
      var k := 3 + |payload|;
      assert s[k] == '`';
      assert JsonFence[k] != '`';
      assert |s| < 7 || s[..7][k] != JsonFence[k];
    }
  }

  /** What follows the backticks of a "```json" fence. */
  lemma JsonTag(s: string)
    ensures StartsWith(s, JsonFence) ==> |s| >= 7 && s[3..7] == "json"
  {
    if StartsWith(s, JsonFence) {
      assert s[3..7] == s[..7][3..7];
    }
  }

  /** The slices of `p + x + q` that fence stripping takes. */
  lemma Wrapped(p: string, x: string, q: string)
    ensures StartsWith(p + x + q, p) && (p + x + q)[|p|..] == x + q
    ensures EndsWith(x + q, q) && (x + q)[..|x|] == x
  {
    var s := p + x + q;
    assert s[..|p|] == p;
    assert s[|p|..] == x + q;
    assert (x + q)[|x|..] == q;
  }

  // ---------------------------------------------------------------------------
  // Deals

  /** A product deal. The text fields hold whatever the JSON held: `analyze_deals` does
      not check their types. */
  datatype Deal = Deal(name: Json, price: real, currency: Json, unitAmount: real,
                       unitType: Json, pricePerUnit: real, url: Json)

  /** What `float(v)` does: a number, a `ValueError`/`TypeError`, or an `OverflowError`. */
  datatype Conversion = Number(value: real) | Rejected | TooLarge

  /** The smallest integer magnitude `float(int)` refuses: 2^1024 - 2^970, where
      rounding to the nearest double would give infinity. */
  const FloatOverflow := 179769313486231580793728971405303415079934132710037826936173778980444968292764750946649017977587207096330286416692887910946555547851940402630657488671505820681908902000708383676273854845817711531764475730270069855571366959622842914819860834936475292719074168444365510704342711559699508093042880177904174497792

  /** Python's `float(v)` on a decoded JSON value; `parse` is `float` on strings
      (`None` for a `ValueError`). Booleans convert to 0 and 1; `None`, lists and dicts
      raise `TypeError`. */
  function ToFloat(v: Json, parse: string -> Option<real>): (c: Conversion)
    ensures v.JInt? ==> (c.TooLarge? <==> v.i >= FloatOverflow || -v.i >= FloatOverflow)
    ensures c.TooLarge? ==> v.JInt?
    ensures c.Rejected? <==> v.JNull? || v.JArr? || v.JObj? || (v.JStr? && parse(v.s).None?)
    ensures c.Number? ==>
      || (v.JBool? && c.value == (if v.b then 1.0 else 0.0))
      || (v.JInt? && c.value == v.i as real)
      || (v.JFloat? && c.value == v.f)
      || (v.JStr? && parse(v.s) == Some(c.value))
  {
    match v
    case JBool(b) => Number(if b then 1.0 else 0.0)
    case JInt(i) => if i >= FloatOverflow || -i >= FloatOverflow then TooLarge else Number(i as real)
    case JFloat(f) => Number(f)
    case JStr(s) => if parse(s).Some? then Number(parse(s).value) else Rejected
    case _ => Rejected
  }

  /** What happens to one list item: it becomes a deal, it is skipped (`ValueError` or
      `TypeError`), or it aborts the whole extraction (any other exception: `.get` on a
      non-dict, or an integer too large for a float). */
  datatype ItemOutcome = Made(deal: Deal) | Skipped | Aborted

  const DefaultName := JStr("Unknown")
  const DefaultCurrency := JStr("$")
  const DefaultUnitType := JStr("count")
  const DefaultUrl := JStr("")

  /** The outcome of the first failed conversion among the numeric fields, which Python
      evaluates in the order price, unit amount, price per unit. */
  function Failure(c: Conversion): ItemOutcome
    requires !c.Number?
  {
    if c.TooLarge? then Aborted else Skipped
  }

  /** `ProductDeal(name=item.get("name", "Unknown"), price=float(item.get("price", 0)), ...)`. */
  function ItemDeal(item: Json, parse: string -> Option<real>): ItemOutcome {
    if !item.JObj? then Aborted
    else
      var f := item.fields;
      var price := ToFloat(Get(f, "price", JInt(0)), parse);
      var amount := ToFloat(Get(f, "unit_amount", JInt(1)), parse);
      var perUnit := ToFloat(Get(f, "price_per_unit", JInt(0)), parse);
      if !price.Number? then Failure(price)
      else if !amount.Number? then Failure(amount)
      else if !perUnit.Number? then Failure(perUnit)
      else Made(Deal(Get(f, "name", DefaultName), price.value, Get(f, "currency", DefaultCurrency),
                     amount.value, Get(f, "unit_type", DefaultUnitType), perUnit.value,
                     Get(f, "url", DefaultUrl)))
  }

  /** Every field a dict leaves out takes its default. */
  lemma EmptyItemDefaults(parse: string -> Option<real>)
    ensures ItemDeal(JObj(map[]), parse)
      == Made(Deal(JStr("Unknown"), 0.0, JStr("$"), 1.0, JStr("count"), 0.0, JStr("")))
  {
  }

  /** A dict converts exactly when its three numeric fields convert; the deal then holds
      the dict's fields, or the defaults for those it lacks. */
  lemma ItemDealFields(f: map<string, Json>, parse: string -> Option<real>)
    ensures var out := ItemDeal(JObj(f), parse);
      var price := ToFloat(Get(f, "price", JInt(0)), parse);
      var amount := ToFloat(Get(f, "unit_amount", JInt(1)), parse);
      var perUnit := ToFloat(Get(f, "price_per_unit", JInt(0)), parse);
      && (out.Made? <==> price.Number? && amount.Number? && perUnit.Number?)
      && (out.Made? ==>
            && out.deal.price == price.value && out.deal.unitAmount == amount.value
            && out.deal.pricePerUnit == perUnit.value
            && out.deal.name == (if "name" in f then f["name"] else DefaultName)
            && out.deal.currency == (if "currency" in f then f["currency"] else DefaultCurrency)
            && out.deal.unitType == (if "unit_type" in f then f["unit_type"] else DefaultUnitType)
            && out.deal.url == (if "url" in f then f["url"] else DefaultUrl))
      && (out.Aborted? <==> !out.Made? && (price.TooLarge? || (price.Number? && amount.TooLarge?)
                                          || (price.Number? && amount.Number? && perUnit.TooLarge?)))
  {
  }

  /** The deals read from the decoded list, in list order, up to the first aborting item. */
  function ExtractDeals(items: seq<Json>, parse: string -> Option<real>): (deals: seq<Deal>)
    ensures |deals| <= |items|
    ensures forall d :: d in deals ==> exists i :: 0 <= i < |items| && ItemDeal(items[i], parse) == Made(d)
    ensures |items| == 1 ==>
      deals == if ItemDeal(items[0], parse).Made? then [ItemDeal(items[0], parse).deal] else []
    decreases |items|
  {
    if |items| == 0 then []
    else
      match ItemDeal(items[0], parse)
      case Aborted => []
      case Skipped => ExtractDeals(items[1..], parse)
      case Made(d) =>
        var rest := ExtractDeals(items[1..], parse);
        assert forall e :: e in rest ==> exists i :: 0 <= i < |items| && ItemDeal(items[i], parse) == Made(e) by {
          forall e | e in rest
            ensures exists i :: 0 <= i < |items| && ItemDeal(items[i], parse) == Made(e)
          {
            var j :| 0 <= j < |items| - 1 && ItemDeal(items[1..][j], parse) == Made(e);
            assert items[j + 1] == items[1..][j];
          }
        }
        [d] + rest
  }

  /** No item of `items` aborts. */
  predicate NoAbort(items: seq<Json>, parse: string -> Option<real>) {
    forall i :: 0 <= i < |items| ==> !ItemDeal(items[i], parse).Aborted?
  }

  /** Without an aborting item, extraction works item by item. */
  lemma {:induction false} ExtractAppend(a: seq<Json>, b: seq<Json>, parse: string -> Option<real>)
    requires NoAbort(a, parse)
    ensures ExtractDeals(a + b, parse) == ExtractDeals(a, parse) + ExtractDeals(b, parse)
    decreases |a|
  {
    if |a| > 0 {
      assert (a + b)[1..] == a[1..] + b;
      ExtractAppend(a[1..], b, parse);
    } else {
      assert a + b == b;
    }
  }

  /** Every item that converts before the first aborting one is kept: its deal follows
      the deals of the items before it. */
  lemma ConvertedItemKept(items: seq<Json>, i: int, parse: string -> Option<real>)
    requires 0 <= i < |items| && NoAbort(items[..i], parse) && ItemDeal(items[i], parse).Made?
    ensures var deals := ExtractDeals(items, parse);
      && ExtractDeals(items[..i], parse) + [ItemDeal(items[i], parse).deal] <= deals
      && ItemDeal(items[i], parse).deal in deals
  {
    var x, rest := items[i], items[i + 1..];
    var d := ItemDeal(x, parse).deal;
    var pre := ExtractDeals(items[..i], parse);
    var post := ExtractDeals(rest, parse);
    assert ExtractDeals(items, parse) == pre + ([d] + post) by {
      SplitAround(items, i);
      ExtractAppend(items[..i], [x] + rest, parse);
      MadeItemFirst(x, rest, parse);
    }
    PrefixOfMiddle(pre, d, post);
  }

  lemma SplitAround<T>(xs: seq<T>, i: int)
    requires 0 <= i < |xs|
    ensures xs == xs[..i] + ([xs[i]] + xs[i + 1..])
  {
  }

  lemma PrefixOfMiddle<T>(pre: seq<T>, x: T, post: seq<T>)
    ensures pre + [x] <= pre + ([x] + post) && x in pre + ([x] + post)
  {
    assert (pre + ([x] + post))[..|pre| + 1] == pre + [x];
    assert (pre + ([x] + post))[|pre|] == x;
  }

  /** A converted first item contributes its deal ahead of the rest. */
  lemma MadeItemFirst(x: Json, rest: seq<Json>, parse: string -> Option<real>)
    requires ItemDeal(x, parse).Made?
    ensures ExtractDeals([x] + rest, parse) == [ItemDeal(x, parse).deal] + ExtractDeals(rest, parse)
  {
    assert ([x] + rest)[0] == x && ([x] + rest)[1..] == rest;
  }

  /** A skipped item leaves the other items' deals as they were. */
  lemma {:induction false} SkippedItemIgnored(a: seq<Json>, x: Json, b: seq<Json>, parse: string -> Option<real>)
    requires ItemDeal(x, parse).Skipped?
    ensures ExtractDeals(a + [x] + b, parse) == ExtractDeals(a + b, parse)
    decreases |a|
  {
    if |a| == 0 {
      assert a + [x] + b == [x] + b;
      assert ([x] + b)[1..] == b;
      assert a + b == b;
    } else {
      assert (a + [x] + b)[0] == (a + b)[0] == a[0];
      assert (a + [x] + b)[1..] == a[1..] + [x] + b;
      assert (a + b)[1..] == a[1..] + b;
      SkippedItemIgnored(a[1..], x, b, parse);
    }
  }

  /** An aborting item ends the extraction: the deals read before it are kept, and
      nothing after it is read. */
  lemma {:induction false} AbortKeepsEarlier(a: seq<Json>, x: Json, b: seq<Json>, parse: string -> Option<real>)
    requires ItemDeal(x, parse).Aborted?
    ensures ExtractDeals(a + [x] + b, parse) == ExtractDeals(a, parse)
    decreases |a|
  {
    if |a| == 0 {
      assert a + [x] + b == [x] + b;
    } else {
      assert (a + [x] + b)[0] == a[0];
      assert (a + [x] + b)[1..] == a[1..] + [x] + b;
      AbortKeepsEarlier(a[1..], x, b, parse);
    }
  }

  // ---------------------------------------------------------------------------
  // Cheapest first

  /** The sort key: the price per unit when positive, infinity otherwise. */
  datatype Key = Finite(r: real) | Infinite

  function KeyOf(d: Deal): (k: Key)
    ensures k.Finite? <==> d.pricePerUnit > 0.0
    ensures k.Finite? ==> k.r == d.pricePerUnit
  {
    if d.pricePerUnit > 0.0 then Finite(d.pricePerUnit) else Infinite
  }

  predicate KeyLe(a: Key, b: Key) {
    b.Infinite? || (a.Finite? && a.r <= b.r)
  }

  predicate Sorted(s: seq<Deal>) {
    forall i, j {:trigger KeyLe(KeyOf(s[i]), KeyOf(s[j]))} :: 0 <= i < j < |s| ==> KeyLe(KeyOf(s[i]), KeyOf(s[j]))
  }

  /** The deals of `s` with key `k`, in order. */
  function WithKey(s: seq<Deal>, k: Key): (r: seq<Deal>)
    ensures |r| <= |s|
    decreases |s|
  {
    if |s| == 0 then []
    else (if KeyOf(s[0]) == k then [s[0]] else []) + WithKey(s[1..], k)
  }

  /** The deals with a positive price per unit, in order. */
  function Priced(s: seq<Deal>): (r: seq<Deal>)
    ensures forall i :: 0 <= i < |r| ==> r[i].pricePerUnit > 0.0
    decreases |s|
  {
    if |s| == 0 then []
    else (if s[0].pricePerUnit > 0.0 then [s[0]] else []) + Priced(s[1..])
  }

  /** Inserts `d` after every element whose key is at most its own. */
  function Insert(d: Deal, s: seq<Deal>): (r: seq<Deal>)
    ensures |r| == |s| + 1
    ensures forall e :: e in r ==> e == d || e in s
    decreases |s|
  {
    if |s| == 0 then [d]
    else if KeyLe(KeyOf(s[0]), KeyOf(d)) then [s[0]] + Insert(d, s[1..])
    else [d] + s
  }

  /** `deals.sort(key=...)`: Python's stable sort, as insertion of each deal in turn. */
  function SortDeals(s: seq<Deal>): seq<Deal>
    decreases |s|
  {
    if |s| == 0 then [] else Insert(s[|s| - 1], SortDeals(s[..|s| - 1]))
  }

  lemma {:induction false} WithKeyAppend(a: seq<Deal>, b: seq<Deal>, k: Key)
    ensures WithKey(a + b, k) == WithKey(a, k) + WithKey(b, k)
    decreases |a|
  {
    if |a| == 0 {
      assert a + b == b;
    } else {
      var h := if KeyOf(a[0]) == k then [a[0]] else [];
      assert (a + b)[0] == a[0];
      assert (a + b)[1..] == a[1..] + b;
      assert WithKey(a + b, k) == h + WithKey(a[1..] + b, k);
      WithKeyAppend(a[1..], b, k);
      assert WithKey(a, k) == h + WithKey(a[1..], k);
      assert h + (WithKey(a[1..], k) + WithKey(b, k)) == (h + WithKey(a[1..], k)) + WithKey(b, k);
    }
  }

  lemma {:induction false} PricedAppend(a: seq<Deal>, b: seq<Deal>)
    ensures Priced(a + b) == Priced(a) + Priced(b)
    decreases |a|
  {
    if |a| == 0 {
      assert a + b == b;
    } else {
      assert (a + b)[1..] == a[1..] + b;
      PricedAppend(a[1..], b);
    }
  }

  lemma {:induction false} WithKeyNone(s: seq<Deal>, k: Key)
    requires forall i :: 0 <= i < |s| ==> KeyOf(s[i]) != k
    ensures WithKey(s, k) == []
    decreases |s|
  {
    if |s| > 0 {
      WithKeyNone(s[1..], k);
    }
  }

  lemma {:induction false} InsertMultiset(d: Deal, s: seq<Deal>)
    ensures multiset(Insert(d, s)) == multiset(s) + multiset{d}
    decreases |s|
  {
    if |s| > 0 && KeyLe(KeyOf(s[0]), KeyOf(d)) {
      InsertMultiset(d, s[1..]);
      assert s == [s[0]] + s[1..];
    }
  }

  lemma SortedTail(s: seq<Deal>)
    requires Sorted(s) && |s| > 0
    ensures Sorted(s[1..])
  {
    forall i, j | 0 <= i < j < |s| - 1
      ensures KeyLe(KeyOf(s[1..][i]), KeyOf(s[1..][j]))
    {
      assert s[1..][i] == s[i + 1] && s[1..][j] == s[j + 1];
    }
  }

  lemma SortedCons(x: Deal, t: seq<Deal>)
    requires Sorted(t) && forall e :: e in t ==> KeyLe(KeyOf(x), KeyOf(e))
    ensures Sorted([x] + t)
  {
    var r := [x] + t;
    forall i, j | 0 <= i < j < |r|
      ensures KeyLe(KeyOf(r[i]), KeyOf(r[j]))
    {
      assert r[j] == t[j - 1];
      if i > 0 {
        assert r[i] == t[i - 1];
      } else {
        assert t[j - 1] in t;
      }
    }
  }

  lemma {:induction false} InsertSorted(d: Deal, s: seq<Deal>)
    requires Sorted(s)
    ensures Sorted(Insert(d, s))
    decreases |s|
  {
    if |s| > 0 {
      if KeyLe(KeyOf(s[0]), KeyOf(d)) {
        var rest := Insert(d, s[1..]);
        assert Insert(d, s) == [s[0]] + rest;
        SortedTail(s);
        InsertSorted(d, s[1..]);
        forall e | e in rest
          ensures KeyLe(KeyOf(s[0]), KeyOf(e))
        {
          if e != d {
            var m :| 0 <= m < |s[1..]| && s[1..][m] == e;
            assert s[m + 1] == e;
          }
        }
        SortedCons(s[0], rest);
      } else {
        assert Insert(d, s) == [d] + s;
        forall e | e in s
          ensures KeyLe(KeyOf(d), KeyOf(e))
        {
          var m :| 0 <= m < |s| && s[m] == e;
          assert m == 0 || KeyLe(KeyOf(s[0]), KeyOf(s[m]));
        }
        SortedCons(d, s);
      }
    }
  }

  lemma {:induction false} InsertWithKey(d: Deal, s: seq<Deal>, k: Key)
    requires Sorted(s)
    ensures WithKey(Insert(d, s), k) == WithKey(s, k) + (if KeyOf(d) == k then [d] else [])
    decreases |s|
  {
    var x := if KeyOf(d) == k then [d] else [];
    if |s| == 0 {
      assert Insert(d, s) == [d];
    } else if KeyLe(KeyOf(s[0]), KeyOf(d)) {
      var rest := Insert(d, s[1..]);
      assert Insert(d, s) == [s[0]] + rest;
      SortedTail(s);
      InsertWithKey(d, s[1..], k);
      assert WithKey(rest, k) == WithKey(s[1..], k) + x;
      WithKeyAppend([s[0]], rest, k);
      WithKeyAppend([s[0]], s[1..], k);
      assert s == [s[0]] + s[1..];
      assert WithKey(Insert(d, s), k) == WithKey([s[0]], k) + WithKey(s[1..], k) + x;
    } else {
      InsertFront(d, s, k);
    }
  }

  /** A deal cheaper than the first of a sorted sequence goes in front, and no deal of
      the sequence shares its key. */
  lemma InsertFront(d: Deal, s: seq<Deal>, k: Key)
    requires Sorted(s) && |s| > 0 && !KeyLe(KeyOf(s[0]), KeyOf(d))
    ensures WithKey(Insert(d, s), k) == WithKey(s, k) + (if KeyOf(d) == k then [d] else [])
  {
    assert Insert(d, s) == [d] + s;
    WithKeyAppend([d], s, k);
    assert [d][1..] == [];
    if KeyOf(d) == k {
      forall i | 0 <= i < |s|
        ensures KeyOf(s[i]) != k
      {
        assert i == 0 || KeyLe(KeyOf(s[0]), KeyOf(s[i]));
      }
      WithKeyNone(s, k);
    }
  }

  /** The sort orders the deals cheapest first, keeps exactly the same deals, and keeps
      the order of deals with equal keys (stability). */
  lemma SortDealsFacts(s: seq<Deal>)
    ensures Sorted(SortDeals(s))
    ensures multiset(SortDeals(s)) == multiset(s)
    ensures forall k :: WithKey(SortDeals(s), k) == WithKey(s, k)
  {
    SortDealsSorted(s);
    SortDealsPermutes(s);
    forall k
      ensures WithKey(SortDeals(s), k) == WithKey(s, k)
    {
      SortDealsStable(s, k);
    }
  }

  lemma {:induction false} SortDealsSorted(s: seq<Deal>)
    ensures Sorted(SortDeals(s))
    decreases |s|
  {
    if |s| > 0 {
      SortDealsSorted(s[..|s| - 1]);
      InsertSorted(s[|s| - 1], SortDeals(s[..|s| - 1]));
    }
  }

  lemma {:induction false} SortDealsPermutes(s: seq<Deal>)
    ensures multiset(SortDeals(s)) == multiset(s)
    decreases |s|
  {
    if |s| > 0 {
      var init, last := s[..|s| - 1], s[|s| - 1];
      SortDealsPermutes(init);
      InsertMultiset(last, SortDeals(init));
      assert s == init + [last];
    }
  }

  lemma {:induction false} SortDealsStable(s: seq<Deal>, k: Key)
    ensures WithKey(SortDeals(s), k) == WithKey(s, k)
    decreases |s|
  {
    if |s| > 0 {
      var init, last := s[..|s| - 1], s[|s| - 1];
      SortDealsStable(init, k);
      SortDealsSorted(init);
      InsertWithKey(last, SortDeals(init), k);
      assert s == init + [last];
      WithKeyAppend(init, [last], k);
      assert [last][1..] == [];
    }
  }

  /** In a sorted sequence the priced deals come first and the unpriced ones last. */
  lemma {:induction false} SortedSplits(r: seq<Deal>)
    requires Sorted(r)
    ensures r == Priced(r) + WithKey(r, Infinite)
    decreases |r|
  {
    if |r| > 0 {
      SortedSplits(r[1..]);
      if KeyOf(r[0]).Infinite? {
        assert forall i :: 0 <= i < |r| ==> KeyOf(r[i]).Infinite? by {
          forall i | 0 <= i < |r|
            ensures KeyOf(r[i]).Infinite?
          {
            assert i == 0 || KeyLe(KeyOf(r[0]), KeyOf(r[i]));
          }
        }
        UnpricedAll(r);
      }
    }
  }

  lemma {:induction false} UnpricedAll(r: seq<Deal>)
    requires forall i :: 0 <= i < |r| ==> KeyOf(r[i]).Infinite?
    ensures Priced(r) == [] && WithKey(r, Infinite) == r
    decreases |r|
  {
    if |r| > 0 {
      UnpricedAll(r[1..]);
    }
  }

  /** The outcome of the final sort: first the deals with a positive price per unit, in
      ascending order of it, then those without one, in their original order. */
  lemma CheapestFirst(s: seq<Deal>)
    ensures var r := SortDeals(s);
      && r == Priced(r) + WithKey(s, Infinite)
      && (forall i, j :: 0 <= i < j < |Priced(r)| ==> Priced(r)[i].pricePerUnit <= Priced(r)[j].pricePerUnit)
      && multiset(Priced(r)) == multiset(Priced(s))
      && forall i :: 0 <= i < |WithKey(s, Infinite)| ==> WithKey(s, Infinite)[i].pricePerUnit <= 0.0
  {
    var r := SortDeals(s);
    SortDealsFacts(s);
    SortedSplits(r);
    assert WithKey(r, Infinite) == WithKey(s, Infinite);
    PricedAscending(r);
    UnpricedOnly(s);
    PricedPermutation(r, s);
  }

  lemma PricedAscending(r: seq<Deal>)
    requires Sorted(r) && r == Priced(r) + WithKey(r, Infinite)
    ensures forall i, j :: 0 <= i < j < |Priced(r)| ==> Priced(r)[i].pricePerUnit <= Priced(r)[j].pricePerUnit
  {
    var p := Priced(r);
    forall i, j | 0 <= i < j < |p|
      ensures p[i].pricePerUnit <= p[j].pricePerUnit
    {
      assert r[i] == p[i] && r[j] == p[j];
      assert KeyLe(KeyOf(r[i]), KeyOf(r[j]));
    }
  }

  lemma PricedPermutation(r: seq<Deal>, s: seq<Deal>)
    requires multiset(r) == multiset(s)
    ensures multiset(Priced(r)) == multiset(Priced(s))
  {
    PricedMultiset(r);
    PricedMultiset(s);
  }

  lemma {:induction false} UnpricedOnly(s: seq<Deal>)
    ensures forall i :: 0 <= i < |WithKey(s, Infinite)| ==> WithKey(s, Infinite)[i].pricePerUnit <= 0.0
    decreases |s|
  {
    if |s| > 0 {
      UnpricedOnly(s[1..]);
    }
  }

  /** `Priced` keeps exactly the priced deals, with their multiplicities. */
  lemma {:induction false} PricedMultiset(s: seq<Deal>)
    ensures forall d :: multiset(Priced(s))[d] == if d.pricePerUnit > 0.0 then multiset(s)[d] else 0
    decreases |s|
  {
    if |s| > 0 {
      PricedMultiset(s[1..]);
      assert s == [s[0]] + s[1..];
    }
  }

  // ---------------------------------------------------------------------------
  // The whole post-processing

  /** `analyze_deals(search_results)`: ask the model (`complete`) for a JSON list, strip
      fences, decode, read the deals, sort them. A failing model call, undecodable text
      or JSON that is not a list give no deals; nothing is raised. */
  function AnalyzeDeals(results: seq<Hit>, complete: string -> Attempt, decode: Decoder,
                        parse: string -> Option<real>): (deals: seq<Deal>)
    ensures var reply := complete(ExtractionPrompt(results));
      && (reply.FailsAfter? ==> deals == [])
      && (reply.Completes? ==>
            var data := decode(StripFences(Concat(reply.frags)));
            && (!(data.Some? && data.value.JArr?) ==> deals == [])
            && (data.Some? && data.value.JArr? ==>
                  && multiset(deals) == multiset(ExtractDeals(data.value.items, parse))
                  && Sorted(deals)
                  && forall k :: WithKey(deals, k) == WithKey(ExtractDeals(data.value.items, parse), k)))
  {
    var reply := complete(ExtractionPrompt(results));
    if reply.FailsAfter? then []
    else
      match decode(StripFences(Concat(reply.frags)))
      case Some(JArr(items)) =>
        SortDealsFacts(ExtractDeals(items, parse));
        SortDeals(ExtractDeals(items, parse))
      case _ => []
  }

  /** A listed item that converts before any aborting item reaches the caller. */
  lemma AnalyzedItemKept(results: seq<Hit>, complete: string -> Attempt, decode: Decoder,
                         parse: string -> Option<real>, items: seq<Json>, i: int)
    requires complete(ExtractionPrompt(results)).Completes?
    requires decode(StripFences(Concat(complete(ExtractionPrompt(results)).frags))) == Some(JArr(items))
    requires 0 <= i < |items| && NoAbort(items[..i], parse) && ItemDeal(items[i], parse).Made?
    ensures ItemDeal(items[i], parse).deal in AnalyzeDeals(results, complete, decode, parse)
  {
    var d := ItemDeal(items[i], parse).deal;
    ConvertedItemKept(items, i, parse);
    var deals := AnalyzeDeals(results, complete, decode, parse);
    assert d in multiset(ExtractDeals(items, parse));
    assert d in multiset(deals);
  }
}
