/** The OpenAI-compatible endpoint `POST /chat/completions` (app/api/openai_api.py): a
    non-streaming request is refused with status 400; a streaming one is answered with
    one chunk event per fragment of the completion, then a final "stop" event or an
    error event, then the `[DONE]` marker.

    The request id's UUID and the creation time are parameters, the completion is an
    `Attempt` chosen by the caller, and events are datatypes rather than JSON text. */
module OpenAIApi {
  import opened Wrappers
  import opened Providers

  datatype ChatMessage = ChatMessage(role: string, content: string)

  /** A validated request. */
  datatype ChatRequest = ChatRequest(model: string, messages: seq<ChatMessage>, stream: bool)

  const DefaultModel := "gpt-3.5-turbo"

  /** The request with pydantic's defaults for the fields the client left out: model
      "gpt-3.5-turbo", no streaming. */
  function RequestOf(model: Option<string>, messages: seq<ChatMessage>, stream: Option<bool>): (req: ChatRequest)
    ensures req.model == model.GetOr(DefaultModel) && req.messages == messages
    ensures req.stream <==> stream == Some(true)
  {
    ChatRequest(model.GetOr(DefaultModel), messages, stream.GetOr(false))
  }

  /** One server-sent event. `Chunk` and `Final` are `chat.completion.chunk` objects
      with choice index 0: a chunk carries `delta.content` and no finish reason, the
      final one an empty delta and finish reason "stop". `Failure` is the `{error}`
      object and `DoneMarker` the line `data: [DONE]`. */
  datatype Frame =
    | Chunk(id: string, created: int, model: string, content: string)
    | Final(id: string, created: int, model: string)
    | Failure(message: string)
    | DoneMarker

  datatype Response = JsonError(status: int, error: string) | EventStream(frames: seq<Frame>)

  const StreamingOnly := "Only streaming is supported in this version"

  function RequestId(uuid: string): string {
    "chatcmpl-" + uuid
  }

  /** The chunk events of the fragments, one per fragment, in order. */
  function ChunkFrames(id: string, created: int, model: string, frags: seq<string>): (fs: seq<Frame>)
    ensures |fs| == |frags|
  {
    seq(|frags|, k requires 0 <= k < |frags| => Chunk(id, created, model, frags[k]))
  }

  /** The event after the chunks: "stop" when the completion finished, the error else. */
  function Closing(id: string, created: int, model: string, a: Attempt): Frame {
    match a
    case Completes(_) => Final(id, created, model)
    case FailsAfter(_, err) => Failure(err)
  }

  /** The events of `event_generator` for a completion that yields `a.frags` and then
      finishes or raises. */
  function Frames(id: string, created: int, model: string, a: Attempt): seq<Frame> {
    ChunkFrames(id, created, model, a.frags) + [Closing(id, created, model, a), DoneMarker]
  }

  /** `chat_completions(request)`, with `complete(model, messages)` the streamed completion. */
  function ChatCompletions(req: ChatRequest, uuid: string, created: int,
                           complete: (string, seq<ChatMessage>) -> Attempt): (resp: Response)
    ensures !req.stream ==> resp == JsonError(400, StreamingOnly)
    ensures req.stream ==> resp.EventStream?
  {
    if !req.stream then JsonError(400, StreamingOnly)
    else EventStream(Frames(RequestId(uuid), created, req.model, complete(req.model, req.messages)))
  }

  /** A non-streaming request gets the same 400 answer whatever the model would have
      done: the model is never asked. */
  lemma NonStreamingNeverCalls(req: ChatRequest, uuid: string, created: int,
                               c1: (string, seq<ChatMessage>) -> Attempt,
                               c2: (string, seq<ChatMessage>) -> Attempt)
    requires !req.stream
    ensures ChatCompletions(req, uuid, created, c1) == ChatCompletions(req, uuid, created, c2)
    ensures ChatCompletions(req, uuid, created, c1).JsonError?
    ensures ChatCompletions(req, uuid, created, c1).status == 400
  {
  }

  // ---------------------------------------------------------------------------
  // What a client reads back

  function Prepend(c: string, a: Attempt): (b: Attempt)
    ensures b.frags == [c] + a.frags && b.Completes? == a.Completes?
    ensures b.FailsAfter? ==> b.err == a.err
  {
    match a
    case Completes(frags) => Completes([c] + frags)
    case FailsAfter(frags, err) => FailsAfter([c] + frags, err)
  }

  /** A client's reading of an event stream: the chunk contents in order, then either a
      "stop" or an error, then `[DONE]` and nothing more; `None` for any other shape. */
  function ReadStream(frames: seq<Frame>): Option<Attempt>
    decreases |frames|
  {
    if |frames| == 0 then None
    else
      match frames[0]
      case Chunk(_, _, _, c) =>
        var rest := ReadStream(frames[1..]);
        if rest.Some? then Some(Prepend(c, rest.value)) else None
      case Final(_, _, _) => if frames[1..] == [DoneMarker] then Some(Completes([])) else None
      case Failure(m) => if frames[1..] == [DoneMarker] then Some(FailsAfter([], m)) else None
      case DoneMarker => None
  }

  lemma {:induction false} ReadChunks(id: string, created: int, model: string, a: Attempt, k: nat)
    requires k <= |a.frags|
    ensures var tail := ChunkFrames(id, created, model, a.frags)[k..] + [Closing(id, created, model, a), DoneMarker];
      && ReadStream(tail).Some?
      && ReadStream(tail).value.frags == a.frags[k..]
      && ReadStream(tail).value.Completes? == a.Completes?
      && (a.FailsAfter? ==> ReadStream(tail).value.err == a.err)
    decreases |a.frags| - k
  {
    var cs := ChunkFrames(id, created, model, a.frags);
    var tail := cs[k..] + [Closing(id, created, model, a), DoneMarker];
    if k == |a.frags| {
      assert tail == [Closing(id, created, model, a), DoneMarker];
      assert tail[1..] == [DoneMarker];
    } else {
      ReadChunks(id, created, model, a, k + 1);
      assert tail[0] == Chunk(id, created, model, a.frags[k]);
      assert tail[1..] == cs[k + 1..] + [Closing(id, created, model, a), DoneMarker];
      assert a.frags[k..] == [a.frags[k]] + a.frags[k + 1..];
    }
  }

  /** Round trip: the client reads back exactly the fragments and the outcome of the
      completion, so every fragment became one chunk, in order. */
  lemma ReadBack(id: string, created: int, model: string, a: Attempt)
    ensures ReadStream(Frames(id, created, model, a)) == Some(a)
  {
    ReadChunks(id, created, model, a, 0);
    var cs := ChunkFrames(id, created, model, a.frags);
    assert cs[0..] == cs;
    assert a.frags[0..] == a.frags;
  }

  // ---------------------------------------------------------------------------
  // The shape of every stream

  /** Every `chat.completion.chunk` event of the stream carries the response's id and
      creation time. */
  predicate SameIdentity(frames: seq<Frame>, id: string, created: int) {
    forall k :: 0 <= k < |frames| && (frames[k].Chunk? || frames[k].Final?) ==>
      frames[k].id == id && frames[k].created == created
  }

  /** The number of "stop" events. */
  function Finals(frames: seq<Frame>): nat
    decreases |frames|
  {
    if |frames| == 0 then 0 else (if frames[0].Final? then 1 else 0) + Finals(frames[1..])
  }

  /** The number of error events. */
  function Failures(frames: seq<Frame>): nat
    decreases |frames|
  {
    if |frames| == 0 then 0 else (if frames[0].Failure? then 1 else 0) + Failures(frames[1..])
  }

  lemma {:induction false} ChunksCount(id: string, created: int, model: string, frags: seq<string>, k: nat)
    requires k <= |frags|
    ensures Finals(ChunkFrames(id, created, model, frags)[k..]) == 0
    ensures Failures(ChunkFrames(id, created, model, frags)[k..]) == 0
    decreases |frags| - k
  {
    if k < |frags| {
      ChunksCount(id, created, model, frags, k + 1);
      assert ChunkFrames(id, created, model, frags)[k..][1..] == ChunkFrames(id, created, model, frags)[k + 1..];
    }
  }

  lemma {:induction false} CountsAppend(a: seq<Frame>, b: seq<Frame>)
    ensures Finals(a + b) == Finals(a) + Finals(b)
    ensures Failures(a + b) == Failures(a) + Failures(b)
    decreases |a|
  {
    if |a| == 0 {
      assert a + b == b;
    } else {
      assert (a + b)[1..] == a[1..] + b;
      CountsAppend(a[1..], b);
    }
  }

  /** Every stream a streaming request gets: one chunk per fragment first, with the
      fragment as content; one "stop" event and no error when the completion finished,
      one error event and no "stop" when it raised; `[DONE]` last; and the same id and
      creation time on every chunk event. */
  lemma StreamShape(req: ChatRequest, uuid: string, created: int,
                    complete: (string, seq<ChatMessage>) -> Attempt)
    requires req.stream
    ensures var a := complete(req.model, req.messages);
      var fs := ChatCompletions(req, uuid, created, complete).frames;
      && |fs| == |a.frags| + 2
      && (forall k :: 0 <= k < |a.frags| ==> fs[k].Chunk? && fs[k].content == a.frags[k] && fs[k].model == req.model)
      && fs[|fs| - 1] == DoneMarker
      && SameIdentity(fs, RequestId(uuid), created)
      && Finals(fs) == (if a.Completes? then 1 else 0)
      && Failures(fs) == (if a.FailsAfter? then 1 else 0)
      && (a.FailsAfter? ==> fs[|fs| - 2] == Failure(a.err))
  {
    var a := complete(req.model, req.messages);
    var id := RequestId(uuid);
    var cs := ChunkFrames(id, created, req.model, a.frags);
    ChunksCount(id, created, req.model, a.frags, 0);
    assert cs[0..] == cs;
    CountsAppend(cs, [Closing(id, created, req.model, a), DoneMarker]);
    var tail := [Closing(id, created, req.model, a), DoneMarker];
    assert tail[1..] == [DoneMarker];
    assert [DoneMarker][1..] == [];
    assert Finals([DoneMarker]) == 0 && Failures([DoneMarker]) == 0;
    assert Finals(tail) == (if a.Completes? then 1 else 0);
    assert Failures(tail) == (if a.FailsAfter? then 1 else 0);
  }
}
