/** Providers: the backend wrappers the router chooses between (app/core/providers.py).
    The network (httpx) and the g4f library are not modelled: an attempt's raw result
    is an `HttpOutcome` or a chunk list, and the provider turns it into an `Attempt`. */
module Providers {
  import opened Wrappers
  import opened Text
  import opened Json
  import opened ConfigLoader

  const DefaultBaseUrl := "https://api.openai.com/v1"
  const CompletionsPath := "/chat/completions"
  const DataPrefix := "data: "
  const DoneSentinel := "[DONE]"

  /** Which concrete provider class, with what it computed at construction. */
  datatype Backend =
    | G4F
    | OpenAI(baseUrl: string, apiKey: string)

  datatype Provider = Provider(
    name: string,
    models: seq<string>,
    config: Descriptor,
    backend: Backend,
    isActive: bool,
    failures: nat)

  /** What one `stream_chat` attempt of a provider does: the fragments it yields, and
      whether it then finishes normally or raises with a message. */
  datatype Attempt =
    | Completes(frags: seq<string>)
    | FailsAfter(frags: seq<string>, err: string)

  /** Every yielded fragment is non-empty. */
  predicate NonEmptyFragments(a: Attempt) {
    forall k :: 0 <= k < |a.frags| ==> |a.frags[k]| > 0
  }

  // ---------------------------------------------------------------------------
  // Construction

  /** `BaseProvider.__init__`. */
  function NewProvider(name: string, models: seq<string>, config: Descriptor, backend: Backend): (p: Provider)
    ensures p.failures == 0 && p.isActive
    ensures p.name == name && p.models == models && p.config == config && p.backend == backend
  {
    Provider(name, models, config, backend, true, 0)
  }

  /** `G4FProvider(name, models, cfg)`. */
  function NewG4F(name: string, models: seq<string>, config: Descriptor): Provider {
    NewProvider(name, models, config, G4F)
  }

  /** `OpenAIProvider(name, models, cfg)`: `base_url` and `api_key` come from the
      descriptor, defaulting to the public endpoint and the empty key. */
  function NewOpenAI(name: string, models: seq<string>, config: Descriptor): (p: Provider)
    ensures p.failures == 0 && p.isActive
    ensures p.name == name && p.models == models && p.config == config
    ensures p.backend.OpenAI?
    ensures config.baseUrl.None? ==> p.backend.baseUrl == DefaultBaseUrl
    ensures config.baseUrl.Some? ==> p.backend.baseUrl == config.baseUrl.value
    ensures config.apiKey.None? ==> p.backend.apiKey == ""
    ensures config.apiKey.Some? ==> p.backend.apiKey == config.apiKey.value
  {
    NewProvider(name, models, config, OpenAI(config.baseUrl.GetOr(DefaultBaseUrl), config.apiKey.GetOr("")))
  }

  // ---------------------------------------------------------------------------
  // The OpenAI-compatible request

  datatype Message = Message(role: string, content: string)

  datatype Payload = Payload(model: string, messages: seq<Message>, stream: bool)

  datatype Request = Request(url: string, headers: seq<(string, string)>, payload: Payload)

  /** The headers built in `OpenAIProvider.__init__`. */
  function Headers(apiKey: string): (h: seq<(string, string)>)
    ensures |h| == 2
    ensures h[0].0 == "Authorization" && StartsWith(h[0].1, "Bearer ")
    ensures h[0].1[|"Bearer "|..] == apiKey
    ensures h[1] == ("Content-Type", "application/json")
  {
    [("Authorization", "Bearer " + apiKey), ("Content-Type", "application/json")]
  }

  /** `f"{base_url.rstrip('/')}/chat/completions"`. */
  function RequestUrl(baseUrl: string): (url: string)
    ensures EndsWith(url, CompletionsPath)
    ensures var stem := url[..|url| - |CompletionsPath|];
      && StartsWith(baseUrl, stem)
      && (|stem| == 0 || stem[|stem| - 1] != '/')
      && forall j :: |stem| <= j < |baseUrl| ==> baseUrl[j] == '/'
  {
    var stem := RStripChar(baseUrl, '/');
    var url := stem + CompletionsPath;
    assert url[..|url| - |CompletionsPath|] == stem;
    assert url[|url| - |CompletionsPath|..] == CompletionsPath;
    url
  }

  /** The request `OpenAIProvider.stream_chat` sends. */
  function BuildRequest(baseUrl: string, apiKey: string, model: string, messages: seq<Message>): (r: Request)
    ensures r.url == RequestUrl(baseUrl) && r.headers == Headers(apiKey)
    ensures r.payload.stream
    ensures r.payload.model == model && r.payload.messages == messages
  {
    Request(RequestUrl(baseUrl), Headers(apiKey), Payload(model, messages, true))
  }

  // ---------------------------------------------------------------------------
  // The event-stream line loop of `OpenAIProvider.stream_chat`

  /** What one line does to the stream. */
  datatype LineStep =
    | Skip                    // not a data line, undecodable JSON, or empty content
    | Stop                    // the `[DONE]` sentinel: stop reading, no error
    | Emit(fragment: string)  // yield this content
    | Raise(msg: string)      // an exception other than `JSONDecodeError` escapes

  /** `value[0]` on a decoded JSON value: the element or the exception's message. */
  datatype Indexed = Element(v: Json) | IndexFault(msg: string)

  function FirstElement(j: Json): Indexed {
    match j
    case JArr(xs) => if |xs| == 0 then IndexFault("list index out of range") else Element(xs[0])
    case JStr(s) => if |s| == 0 then IndexFault("string index out of range") else Element(JStr(s[..1]))
    case JObj(_) => IndexFault("0")
    case _ => IndexFault("'" + TypeName(j) + "' object is not subscriptable")
  }

  /** The payload shape the content lookup reads without raising: an object whose
      `choices` (default `[{}]`) is a non-empty list starting with an object, whose
      `delta` (default `{}`) is an object. */
  predicate WellShaped(data: Json) {
    && data.JObj?
    && var choices := Get(data.fields, "choices", JArr([JObj(map[])]));
    && choices.JArr? && |choices.items| > 0 && choices.items[0].JObj?
    && Get(choices.items[0].fields, "delta", JObj(map[])).JObj?
  }

  /** The `content` field of a well-shaped payload, `""` when it is absent. */
  function DeltaContent(data: Json): Json
    requires WellShaped(data)
  {
    var first := Get(data.fields, "choices", JArr([JObj(map[])])).items[0];
    Get(Get(first.fields, "delta", JObj(map[])).fields, "content", JStr(""))
  }

  /** `data.get("choices", [{}])[0].get("delta", {}).get("content", "")`, then `if content`. */
  function ContentStep(data: Json): (r: LineStep)
    ensures !r.Stop?
    ensures r.Raise? <==> !WellShaped(data)
    ensures !data.JObj? ==> r == Raise(NoGetMessage(data))
    ensures r.Emit? ==> |r.fragment| > 0 && WellShaped(data) && DeltaContent(data) == JStr(r.fragment)
    ensures WellShaped(data) && DeltaContent(data).JStr? && |DeltaContent(data).s| > 0 ==> r.Emit?
  {
    if !data.JObj? then Raise(NoGetMessage(data))
    else
      match FirstElement(Get(data.fields, "choices", JArr([JObj(map[])])))
      case IndexFault(msg) => Raise(msg)
      case Element(first) =>
        if !first.JObj? then Raise(NoGetMessage(first))
        else
          var delta := Get(first.fields, "delta", JObj(map[]));
          if !delta.JObj? then Raise(NoGetMessage(delta))
          else
            var content := Get(delta.fields, "content", JStr(""));
            if content.JStr? && |content.s| > 0 then Emit(content.s) else Skip
  }

  /** One line of the response body. */
  function LineStepOf(line: string, decode: Decoder): (r: LineStep)
    ensures !StartsWith(line, DataPrefix) ==> r.Skip?
    ensures r.Stop? <==> StartsWith(line, DataPrefix) && Trim(line[|DataPrefix|..]) == DoneSentinel
    ensures (StartsWith(line, DataPrefix) && Trim(line[|DataPrefix|..]) != DoneSentinel
             && decode(line[|DataPrefix|..]).None?) ==> r.Skip?
    ensures r.Emit? ==> |r.fragment| > 0
  {
    if !StartsWith(line, DataPrefix) then Skip
    else
      var payload := line[|DataPrefix|..];
      if Trim(payload) == DoneSentinel then Stop
      else
        match decode(payload)
        case None => Skip
        case Some(data) => ContentStep(data)
  }

  /** How the line loop ended. */
  datatype LoopEnd = Exhausted | SawDone | Raised(msg: string)

  datatype Parsed = Parsed(frags: seq<string>, end: LoopEnd)

  /** The step of each line, in order. */
  function Steps(lines: seq<string>, decode: Decoder): (r: seq<LineStep>)
    ensures |r| == |lines|
    ensures forall k :: 0 <= k < |lines| ==> r[k] == LineStepOf(lines[k], decode)
  {
    seq(|lines|, k requires 0 <= k < |lines| => LineStepOf(lines[k], decode))
  }

  /** Runs the loop over the steps: yield each `Emit`, stop at the first `Stop` or `Raise`. */
  function RunSteps(steps: seq<LineStep>): (r: Parsed)
    ensures |r.frags| <= |steps|
    decreases |steps|
  {
    if |steps| == 0 then Parsed([], Exhausted)
    else
      match steps[0]
      case Skip => RunSteps(steps[1..])
      case Stop => Parsed([], SawDone)
      case Raise(msg) => Parsed([], Raised(msg))
      case Emit(f) =>
        var rest := RunSteps(steps[1..]);
        Parsed([f] + rest.frags, rest.end)
  }

  /** Every fragment the loop yields is the fragment of some `Emit` step. */
  lemma {:induction false} RunStepsEmits(steps: seq<LineStep>)
    ensures forall k :: 0 <= k < |RunSteps(steps).frags| ==> Emit(RunSteps(steps).frags[k]) in steps
    decreases |steps|
  {
    if |steps| > 0 {
      RunStepsEmits(steps[1..]);
      var r := RunSteps(steps);
      forall k | 0 <= k < |r.frags|
        ensures Emit(r.frags[k]) in steps
      {
        if steps[0].Emit? && k > 0 {
          assert r.frags[k] == RunSteps(steps[1..]).frags[k - 1];
        }
      }
    }
  }

  /** The `async for line in response.aiter_lines()` loop over the lines received. */
  function ParseLines(lines: seq<string>, decode: Decoder): (r: Parsed)
    ensures forall k :: 0 <= k < |r.frags| ==> |r.frags[k]| > 0
    ensures |r.frags| <= |lines|
  {
    var steps := Steps(lines, decode);
    RunStepsEmits(steps);
    RunSteps(steps)
  }

  /** Reading the steps `a + b` is reading `a`, then — only if `a` neither stopped nor
      raised — reading `b`. */
  lemma {:induction false} RunStepsAppend(a: seq<LineStep>, b: seq<LineStep>)
    ensures RunSteps(a).end.Exhausted? ==>
      RunSteps(a + b) == Parsed(RunSteps(a).frags + RunSteps(b).frags, RunSteps(b).end)
    ensures !RunSteps(a).end.Exhausted? ==> RunSteps(a + b) == RunSteps(a)
    decreases |a|
  {
    if |a| == 0 {
      assert a + b == b;
    } else {
      assert (a + b)[0] == a[0];
      assert (a + b)[1..] == a[1..] + b;
      RunStepsAppend(a[1..], b);
    }
  }

  /** Reading the lines `a + b` is reading `a`, then — only if `a` neither stopped nor
      raised — reading `b`: nothing after `[DONE]` or a fault is ever read. */
  lemma ParseLinesAppend(a: seq<string>, b: seq<string>, decode: Decoder)
    ensures ParseLines(a, decode).end.Exhausted? ==>
      ParseLines(a + b, decode) ==
        Parsed(ParseLines(a, decode).frags + ParseLines(b, decode).frags, ParseLines(b, decode).end)
    ensures !ParseLines(a, decode).end.Exhausted? ==> ParseLines(a + b, decode) == ParseLines(a, decode)
  {
    var sa, sb, sab := Steps(a, decode), Steps(b, decode), Steps(a + b, decode);
    assert sab == sa + sb by {
      forall k | 0 <= k < |a + b|
        ensures sab[k] == (sa + sb)[k]
      {
        if k < |a| {
          assert (a + b)[k] == a[k];
        } else {
          assert (a + b)[k] == b[k - |a|];
        }
      }
    }
    RunStepsAppend(sa, sb);
    assert ParseLines(a, decode) == RunSteps(sa);
    assert ParseLines(b, decode) == RunSteps(sb);
    assert ParseLines(a + b, decode) == RunSteps(sab);
  }

  /** Lines without the `data: ` prefix are ignored wherever they occur. */
  lemma IgnoredLine(before: seq<string>, line: string, after: seq<string>, decode: Decoder)
    requires !StartsWith(line, DataPrefix)
    ensures ParseLines(before + [line] + after, decode) == ParseLines(before + after, decode)
  {
    assert ParseLines([line], decode) == Parsed([], Exhausted) by {
      assert Steps([line], decode) == [Skip];
      assert [Skip][1..] == [];
    }
    ParseLinesAppend([line], after, decode);
    assert ParseLines([line] + after, decode) == ParseLines(after, decode);
    ParseLinesAppend(before, [line] + after, decode);
    ParseLinesAppend(before, after, decode);
    assert before + [line] + after == before + ([line] + after);
  }

  /** The raw result of the HTTP exchange of one attempt. */
  datatype HttpOutcome =
    | ConnectError(msg: string)                  // no response: connection, timeout
    | HttpResponse(status: int, body: string, lines: seq<string>, broken: Option<string>)
      // `body` is the text of the error body (bytes) read on a non-200 status; `broken` is a
      // transport fault raised after `lines` were received, if the stream breaks

  /** Python's `repr` of the error body, which is a `bytes` value: `b'...'` around the
      text. Exact for bodies of printable characters other than quotes and backslashes. */
  function BytesRepr(body: string): string {
    "b'" + body + "'"
  }

  /** The message raised for a non-200 status. */
  function StatusMessage(name: string, status: int, body: string): string {
    "Provider " + name + " returned " + IntToString(status) + ": " + BytesRepr(body)
  }

  /** `OpenAIProvider.stream_chat` as an attempt. */
  function OpenAIAttempt(name: string, outcome: HttpOutcome, decode: Decoder): (a: Attempt)
    ensures NonEmptyFragments(a)
    ensures outcome.HttpResponse? && outcome.status != 200 ==>
      a == FailsAfter([], StatusMessage(name, outcome.status, outcome.body))
    ensures outcome.ConnectError? ==> a == FailsAfter([], outcome.msg)
    ensures outcome.HttpResponse? && outcome.status == 200 ==>
      var parsed := ParseLines(outcome.lines, decode);
      && a.frags == parsed.frags
      && (a.Completes? <==> parsed.end.SawDone? || (parsed.end.Exhausted? && outcome.broken.None?))
      && (parsed.end.Raised? ==> a.err == parsed.end.msg)
      && (parsed.end.Exhausted? && outcome.broken.Some? ==> a.err == outcome.broken.value)
  {
    match outcome
    case ConnectError(msg) => FailsAfter([], msg)
    case HttpResponse(status, body, lines, broken) =>
      if status != 200 then FailsAfter([], StatusMessage(name, status, body))
      else
        var parsed := ParseLines(lines, decode);
        match parsed.end
        case SawDone => Completes(parsed.frags)
        case Raised(msg) => FailsAfter(parsed.frags, msg)
        case Exhausted =>
          if broken.Some? then FailsAfter(parsed.frags, broken.value) else Completes(parsed.frags)
  }

  /** The truthy chunks, in order (`if chunk: yield str(chunk)`). */
  function NonEmptyChunks(chunks: seq<string>): (r: seq<string>)
    ensures |r| <= |chunks|
    ensures forall k :: 0 <= k < |r| ==> |r[k]| > 0
    ensures forall c :: c in r ==> c in chunks
    ensures forall c :: c in chunks && |c| > 0 ==> c in r
    ensures |chunks| == 1 ==> r == if |chunks[0]| > 0 then chunks else []
    decreases |chunks|
  {
    if |chunks| == 0 then []
    else if |chunks[0]| > 0 then [chunks[0]] + NonEmptyChunks(chunks[1..])
    else NonEmptyChunks(chunks[1..])
  }

  /** Filtering distributes over concatenation, so together with the one-chunk case it
      keeps every non-empty chunk, in order and with its repetitions. */
  lemma {:induction false} NonEmptyChunksAppend(a: seq<string>, b: seq<string>)
    ensures NonEmptyChunks(a + b) == NonEmptyChunks(a) + NonEmptyChunks(b)
    decreases |a|
  {
    if |a| > 0 {
      var head := if |a[0]| > 0 then [a[0]] else [];
      assert (a + b)[0] == a[0];
      assert (a + b)[1..] == a[1..] + b;
      assert NonEmptyChunks(a + b) == head + NonEmptyChunks(a[1..] + b);
      assert NonEmptyChunks(a) == head + NonEmptyChunks(a[1..]);
      NonEmptyChunksAppend(a[1..], b);
      assert head + (NonEmptyChunks(a[1..]) + NonEmptyChunks(b)) == (head + NonEmptyChunks(a[1..])) + NonEmptyChunks(b);
    } else {
      assert a + b == b;
    }
  }

  /** `G4FProvider.stream_chat`: relays the non-empty chunks the library yields, and
      re-raises its fault, if any, after them. */
  function G4FAttempt(chunks: seq<string>, fault: Option<string>): (a: Attempt)
    ensures NonEmptyFragments(a)
    ensures a.frags == NonEmptyChunks(chunks)
    ensures a.FailsAfter? <==> fault.Some?
    ensures a.FailsAfter? ==> a.err == fault.value
  {
    if fault.Some? then FailsAfter(NonEmptyChunks(chunks), fault.value)
    else Completes(NonEmptyChunks(chunks))
  }

  /** The sentinel line stops the loop, whatever the decoder. */
  lemma DoneLineStops(decode: Decoder)
    ensures LineStepOf(DataPrefix + DoneSentinel, decode) == Stop
  {
    assert (DataPrefix + DoneSentinel)[|DataPrefix|..] == DoneSentinel;
    TrimUnpadded(DoneSentinel);
  }

  /** A data line whose trimmed payload is not the sentinel is handed to the decoder. */
  lemma DecodedLine(payload: string, decode: Decoder)
    requires Trim(payload) != DoneSentinel
    ensures decode(payload).None? ==> LineStepOf(DataPrefix + payload, decode) == Skip
    ensures decode(payload).Some? ==> LineStepOf(DataPrefix + payload, decode) == ContentStep(decode(payload).value)
  {
    assert (DataPrefix + payload)[|DataPrefix|..] == payload;
    assert StartsWith(DataPrefix + payload, DataPrefix);
  }

  /** A payload starting with neither whitespace nor `[` is not the sentinel. */
  lemma NotSentinel(payload: string)
    requires |payload| > 0 && !IsSpace(payload[0]) && payload[0] != '['
    ensures Trim(payload) != DoneSentinel
  {
    assert LeadingSpaces(payload) == 0;
    var t := Trim(payload);
    assert |t| > 0 && t[0] == payload[0];
  }

  /** A payload carrying the content `Hi`. */
  const HiEvent := JObj(map["choices" := JArr([JObj(map["delta" := JObj(map["content" := JStr("Hi")])])])])

  /** A decoder that understands only the payload `{"ok": 1}`, decoding it to `HiEvent`. */
  function ScenarioDecoder(payload: string): Option<Json> {
    if payload == "{\"ok\": 1}" then Some(HiEvent) else None
  }

  /** A malformed data line, a valid one, and the sentinel. */
  const ScenarioLines := [DataPrefix + "{not json", DataPrefix + "{\"ok\": 1}", DataPrefix + DoneSentinel]

  /** How each line of `ScenarioLines` is handled. */
  lemma ScenarioSteps()
    ensures LineStepOf(ScenarioLines[0], ScenarioDecoder) == Skip
    ensures LineStepOf(ScenarioLines[1], ScenarioDecoder) == Emit("Hi")
    ensures LineStepOf(ScenarioLines[2], ScenarioDecoder) == Stop
  {
    var p0, p1 := "{not json", "{\"ok\": 1}";
    NotSentinel(p0);
    NotSentinel(p1);
    DecodedLine(p0, ScenarioDecoder);
    DecodedLine(p1, ScenarioDecoder);
    DoneLineStops(ScenarioDecoder);
    assert ContentStep(HiEvent) == Emit("Hi");
  }

  /** A skipped line, a content line and the sentinel yield exactly that content. */
  lemma SkipEmitStop(lines: seq<string>, decode: Decoder, f: string)
    requires |lines| == 3
    requires LineStepOf(lines[0], decode) == Skip
    requires LineStepOf(lines[1], decode) == Emit(f)
    requires LineStepOf(lines[2], decode) == Stop
    ensures ParseLines(lines, decode) == Parsed([f], SawDone)
  {
    var steps := Steps(lines, decode);
    assert steps == [Skip, Emit(f), Stop];
    assert steps[1..] == [Emit(f), Stop];
    assert steps[1..][1..] == [Stop];
    assert RunSteps([Stop]) == Parsed([], SawDone);
    assert RunSteps(steps[1..]) == Parsed([f], SawDone);
    assert RunSteps(steps) == RunSteps(steps[1..]);
  }

  /** A malformed data line followed by a valid one and the sentinel yields exactly the
      valid fragment and ends normally. */
  lemma MalformedLineSkipped()
    ensures OpenAIAttempt("p", HttpResponse(200, "", ScenarioLines, None), ScenarioDecoder) == Completes(["Hi"])
  {
    ScenarioSteps();
    SkipEmitStop(ScenarioLines, ScenarioDecoder, "Hi");
  }

  /** A decoder that understands only the payload `{"choices": []}`. */
  function EmptyChoicesDecoder(payload: string): Option<Json> {
    if payload == "{\"choices\": []}" then Some(JObj(map["choices" := JArr([])])) else None
  }

  /** A data line whose `choices` list is empty is not skipped: the index fault ends the
      attempt before anything is yielded. */
  lemma EmptyChoicesFails()
    ensures OpenAIAttempt("p", HttpResponse(200, "", [DataPrefix + "{\"choices\": []}"], None), EmptyChoicesDecoder)
            == FailsAfter([], "list index out of range")
  {
    var payload := "{\"choices\": []}";
    var m := "list index out of range";
    NotSentinel(payload);
    DecodedLine(payload, EmptyChoicesDecoder);
    EmptyChoicesRaise();
    var line := DataPrefix + payload;
    assert LineStepOf(line, EmptyChoicesDecoder) == Raise(m);
    assert Steps([line], EmptyChoicesDecoder) == [Raise(m)];
    assert ParseLines([line], EmptyChoicesDecoder) == Parsed([], Raised(m));
  }

  /** The content lookup on an empty `choices` list. */
  lemma EmptyChoicesRaise()
    ensures ContentStep(JObj(map["choices" := JArr([])])) == Raise("list index out of range")
  {
    assert Get(map["choices" := JArr([])], "choices", JArr([JObj(map[])])) == JArr([]);
  }

  /** A first `choices` element that is not an object raises on its `.get`. */
  lemma ChoiceElementFaults(fields: map<string, Json>, x: Json, rest: seq<Json>)
    requires "choices" in fields && fields["choices"] == JArr([x] + rest) && !x.JObj?
    ensures ContentStep(JObj(fields)) == Raise(NoGetMessage(x))
  {
    assert FirstElement(JArr([x] + rest)) == Element(x);
  }

  /** A `delta` that is not an object raises on its `.get`. */
  lemma DeltaFaults(fields: map<string, Json>, first: map<string, Json>, rest: seq<Json>)
    requires "choices" in fields && fields["choices"] == JArr([JObj(first)] + rest)
    requires "delta" in first && !first["delta"].JObj?
    ensures ContentStep(JObj(fields)) == Raise(NoGetMessage(first["delta"]))
  {
    assert FirstElement(JArr([JObj(first)] + rest)) == Element(JObj(first));
  }

  /** A well-shaped payload whose content is a non-empty string yields exactly it. */
  lemma ContentEmitted(fields: map<string, Json>, first: map<string, Json>, rest: seq<Json>,
                       delta: map<string, Json>, f: string)
    requires "choices" in fields && fields["choices"] == JArr([JObj(first)] + rest)
    requires "delta" in first && first["delta"] == JObj(delta)
    requires "content" in delta && delta["content"] == JStr(f) && |f| > 0
    ensures ContentStep(JObj(fields)) == Emit(f)
  {
    assert FirstElement(JArr([JObj(first)] + rest)) == Element(JObj(first));
  }
}
