/**
 * The chat-completion gateway: request validation, conversion of the
 * role-tagged conversation into backend messages, the blocking `/chat`
 * handler and the event framing of `/chat/stream`.
 *
 * The text-generation backend is a foreign collaborator. It is a parameter
 * here (`Backend`): three total functions that say, for the client settings
 * and the converted messages the gateway hands over, whether building the
 * client raises, what `invoke` returns or raises, and what `stream` yields
 * before it is exhausted or raises.
 */
module ChatGateway {
  import opened Common

  /** The model every backend client is bound to. */
  const ModelName: string := "gemma3:270m"
  /** Sampling defaults a request gets when it omits the field. */
  const DefaultTemperature: real := 0.2
  const DefaultTopP: real := 0.9
  /** Payload of the terminal `done` event. */
  const DoneMarker: string := "[DONE]"

  // ---------------------------------------------------------------------
  // Request schema and its validation
  // ---------------------------------------------------------------------

  datatype Role = System | User | Assistant

  datatype ChatMessage = ChatMessage(role: Role, content: string)

  /** A validated request; `None` is an explicit JSON `null` for the field. */
  datatype ChatRequest = ChatRequest(messages: seq<ChatMessage>, temperature: Option<real>, topP: Option<real>)

  datatype ChatResponse = ChatResponse(content: string)

  /** An optional numeric field of the JSON body, before validation. */
  datatype RawField = Absent | Null | Number(x: real)

  datatype RawMessage = RawMessage(role: string, content: string)

  /** The JSON body of a chat request, before validation. */
  datatype RawRequest = RawRequest(messages: seq<RawMessage>, temperature: RawField, topP: RawField)

  /** The 422 answer the framework gives when a role is not one of the literals. */
  const RoleRejected: HttpError := HttpError(422, "Input should be 'system', 'user' or 'assistant'")

  function RoleName(role: Role): string {
    match role
    case System => "system"
    case User => "user"
    case Assistant => "assistant"
  }

  predicate IsRoleName(name: string) {
    name == "system" || name == "user" || name == "assistant"
  }

  /** The `Literal["system", "user", "assistant"]` check on one role. */
  function ParseRole(name: string): (r: Option<Role>)
    ensures r.Some? <==> IsRoleName(name)
    ensures r.Some? ==> RoleName(r.value) == name
  {
    if name == "system" then Some(System)
    else if name == "user" then Some(User)
    else if name == "assistant" then Some(Assistant)
    else None
  }

  lemma RoleNameRoundTrip(role: Role)
    ensures IsRoleName(RoleName(role)) && ParseRole(RoleName(role)) == Some(role)
  {
  }

  /** Validates the message list: it is accepted exactly when every role is a known literal. */
  function ParseMessages(raw: seq<RawMessage>): (r: Result<seq<ChatMessage>, HttpError>)
    ensures r.Success? <==> forall i :: 0 <= i < |raw| ==> IsRoleName(raw[i].role)
    ensures r.Failure? ==> r.error == RoleRejected
    ensures r.Success? ==> |r.value| == |raw|
    ensures r.Success? ==> forall i :: 0 <= i < |raw| ==>
      r.value[i].content == raw[i].content && RoleName(r.value[i].role) == raw[i].role
  {
    if raw == [] then Success([])
    else
      match ParseRole(raw[0].role)
      case None => Failure(RoleRejected)
      case Some(role) =>
        match ParseMessages(raw[1..])
        case Failure(e) => Failure(e)
        case Success(rest) =>
          assert forall i :: 1 <= i < |raw| ==> raw[1..][i - 1] == raw[i];
          Success([ChatMessage(role, raw[0].content)] + rest)
  }

  /** `Optional[float] = default`: omitted gives the default, `null` gives `None`. */
  function ParseField(f: RawField, default: real): (r: Option<real>)
    ensures r.None? <==> f.Null?
    ensures f.Absent? ==> r == Some(default)
    ensures f.Number? ==> r == Some(f.x)
  {
    match f
    case Absent => Some(default)
    case Null => None
    case Number(x) => Some(x)
  }

  /** Builds the `ChatRequest` the handlers receive, or the framework's 422. */
  function ParseRequest(raw: RawRequest): (r: Result<ChatRequest, HttpError>)
    ensures r.Success? <==> forall i :: 0 <= i < |raw.messages| ==> IsRoleName(raw.messages[i].role)
    ensures r.Failure? ==> r.error == RoleRejected
    ensures r.Success? ==> |r.value.messages| == |raw.messages|
    ensures r.Success? ==> forall i :: 0 <= i < |raw.messages| ==>
      r.value.messages[i].content == raw.messages[i].content
      && RoleName(r.value.messages[i].role) == raw.messages[i].role
    ensures r.Success? && raw.temperature.Absent? ==> r.value.temperature == Some(DefaultTemperature)
    ensures r.Success? && raw.topP.Absent? ==> r.value.topP == Some(DefaultTopP)
    ensures r.Success? && raw.temperature.Null? ==> r.value.temperature.None?
    ensures r.Success? && raw.topP.Null? ==> r.value.topP.None?
    ensures r.Success? && raw.temperature.Number? ==> r.value.temperature == Some(raw.temperature.x)
    ensures r.Success? && raw.topP.Number? ==> r.value.topP == Some(raw.topP.x)
  {
    match ParseMessages(raw.messages)
    case Failure(e) => Failure(e)
    case Success(msgs) =>
      Success(ChatRequest(msgs, ParseField(raw.temperature, DefaultTemperature), ParseField(raw.topP, DefaultTopP)))
  }

  // ---------------------------------------------------------------------
  // Backend messages and the backend collaborator
  // ---------------------------------------------------------------------

  /** The three backend message classes: system, human and AI turns. */
  datatype LcKind = SystemMessage | HumanMessage | AIMessage

  datatype LcMessage = LcMessage(kind: LcKind, content: string)

  /** The settings `build_chain` hands to the backend client. */
  datatype ClientConfig = ClientConfig(model: string, temperature: Option<real>, topP: Option<real>)

  /** What a blocking call returns: a message object with `content`, or some other value (kept as its `str`). */
  datatype InvokeResult = MessageResult(content: string) | RawResult(text: string)

  datatype Invocation = Returned(result: InvokeResult) | Raised(message: string)

  /** One streamed chunk: with a `content` attribute, or without one. */
  datatype Chunk = ContentChunk(content: string) | BareChunk

  /** How the backend stream ends: exhausted, or raising an error whose `str` is `message`. */
  datatype Ending = Exhausted | Faulted(message: string)

  /** The chunks a stream yields before it ends, and how it ends. */
  datatype StreamRun = StreamRun(chunks: seq<Chunk>, ending: Ending)

  /**
   * The backend as seen by the gateway. `construct` is `Some(message)` when
   * creating the client for these settings raises.
   */
  datatype Backend = Backend(
    construct: ClientConfig -> Option<string>,
    invoke: (ClientConfig, seq<LcMessage>) -> Invocation,
    stream: (ClientConfig, seq<LcMessage>) -> StreamRun)

  /** `build_chain`: a client bound to the fixed model, with the sampling values passed through unchanged. */
  function BuildChain(temperature: Option<real>, topP: Option<real>): (r: ClientConfig)
    ensures r.model == ModelName
    ensures r.temperature == temperature && r.topP == topP
  {
    ClientConfig(ModelName, temperature, topP)
  }

  /** Which backend class a role becomes; every role other than system and user becomes an AI turn. */
  function KindOf(role: Role): LcKind {
    if role == System then SystemMessage
    else if role == User then HumanMessage
    else AIMessage
  }

  function RoleOfKind(kind: LcKind): Role {
    match kind
    case SystemMessage => System
    case HumanMessage => User
    case AIMessage => Assistant
  }

  /** The backend message list for a conversation (specification of `ToLcMessages`). */
  function LcMessages(msgs: seq<ChatMessage>): seq<LcMessage> {
    seq(|msgs|, i requires 0 <= i < |msgs| => LcMessage(KindOf(msgs[i].role), msgs[i].content))
  }

  /** Reads a backend message list back as a conversation. */
  function FromLc(out: seq<LcMessage>): seq<ChatMessage> {
    seq(|out|, i requires 0 <= i < |out| => ChatMessage(RoleOfKind(out[i].kind), out[i].content))
  }

  /** `to_lc_messages`: one backend message per input message, in order. */
  method ToLcMessages(msgs: seq<ChatMessage>) returns (out: seq<LcMessage>)
    ensures |out| == |msgs|
    ensures forall i :: 0 <= i < |msgs| ==> out[i].content == msgs[i].content && out[i].kind == KindOf(msgs[i].role)
    ensures out == LcMessages(msgs)
    ensures FromLc(out) == msgs
  {
    out := [];
    for i := 0 to |msgs|
      invariant |out| == i
      invariant forall k :: 0 <= k < i ==> out[k] == LcMessage(KindOf(msgs[k].role), msgs[k].content)
    {
      var m := msgs[i];
      if m.role == System {
        out := out + [LcMessage(SystemMessage, m.content)];
      } else if m.role == User {
        out := out + [LcMessage(HumanMessage, m.content)];
      } else {
        out := out + [LcMessage(AIMessage, m.content)];
      }
    }
    assert forall k :: 0 <= k < |msgs| ==> RoleOfKind(KindOf(msgs[k].role)) == msgs[k].role;
  }

  // ---------------------------------------------------------------------
  // POST /chat
  // ---------------------------------------------------------------------

  /** `getattr(result, "content", str(result))`. */
  function ResultText(result: InvokeResult): (r: string)
    ensures result.MessageResult? ==> r == result.content
    ensures result.RawResult? ==> r == result.text
  {
    match result
    case MessageResult(content) => content
    case RawResult(text) => text
  }

  /**
   * The blocking handler: build the client from the request's sampling
   * values, convert the messages, invoke once; anything raised becomes a 500
   * whose detail is the error's message.
   */
  function Chat(req: ChatRequest, backend: Backend): (r: Result<ChatResponse, HttpError>)
    ensures var client := ClientConfig(ModelName, req.temperature, req.topP);
      var call := backend.invoke(client, LcMessages(req.messages));
      && (r.Success? <==> backend.construct(client).None? && call.Returned?)
      && (r.Success? ==> r.value.content == ResultText(call.result))
      && (r.Success? && call.result.MessageResult? ==> r.value.content == call.result.content)
      && (r.Failure? ==> r.error.status == 500)
      && (r.Failure? && backend.construct(client).Some? ==> r.error.detail == backend.construct(client).value)
      && (r.Failure? && backend.construct(client).None? ==> r.error.detail == call.message)
  {
    var client := BuildChain(req.temperature, req.topP);
    match backend.construct(client)
    case Some(msg) => Failure(HttpError(500, msg))
    case None =>
      match backend.invoke(client, LcMessages(req.messages))
      case Raised(msg) => Failure(HttpError(500, msg))
      case Returned(result) => Success(ChatResponse(ResultText(result)))
  }

  /** A whole `/chat` request: validation by the framework, then the handler. */
  function HandleChat(raw: RawRequest, backend: Backend): (r: Result<ChatResponse, HttpError>)
    ensures (exists i :: 0 <= i < |raw.messages| && !IsRoleName(raw.messages[i].role)) ==> r == Failure(RoleRejected)
    ensures r.Failure? ==> r.error.status == 422 || r.error.status == 500
    ensures ParseRequest(raw).Success? ==> r == Chat(ParseRequest(raw).value, backend)
    ensures raw.temperature.Absent? && raw.topP.Absent? && ParseRequest(raw).Success? ==>
      BuildChain(ParseRequest(raw).value.temperature, ParseRequest(raw).value.topP)
         == ClientConfig(ModelName, Some(DefaultTemperature), Some(DefaultTopP))
  {
    match ParseRequest(raw)
    case Failure(e) => Failure(e)
    case Success(req) => Chat(req, backend)
  }

  // ---------------------------------------------------------------------
  // POST /chat/stream
  // ---------------------------------------------------------------------

  /** A server-sent event: `token` with its text, `done` with `[DONE]`, or `error` with the message. */
  datatype Event = Token(text: string) | Done | Error(message: string)
  {
    predicate IsTerminal() {
      !Token?
    }

    /** The `event` field on the wire. */
    function Name(): string {
      match this
      case Token(_) => "token"
      case Done => "done"
      case Error(_) => "error"
    }

    /** The `data` field on the wire. */
    function Data(): string {
      match this
      case Token(t) => t
      case Done => DoneMarker
      case Error(m) => m
    }
  }

  /** `getattr(chunk, "content", "")`. */
  function ChunkText(c: Chunk): (r: string)
    ensures c.BareChunk? ==> r == ""
    ensures c.ContentChunk? ==> r == c.content
  {
    match c
    case ContentChunk(s) => s
    case BareChunk => ""
  }

  /** The token events for a run of chunks: one per chunk with non-empty text. */
  function TokenEvents(chunks: seq<Chunk>): (r: seq<Event>)
    ensures |r| <= |chunks|
    ensures forall i :: 0 <= i < |r| ==> r[i].Token? && r[i].text != ""
  {
    if chunks == [] then []
    else
      var text := ChunkText(chunks[0]);
      (if text != "" then [Token(text)] else []) + TokenEvents(chunks[1..])
  }

  function Terminal(ending: Ending): Event {
    match ending
    case Exhausted => Done
    case Faulted(m) => Error(m)
  }

  /** The events `event_gen` yields for a backend run (specification of `EventGen`). */
  function Framed(run: StreamRun): (r: seq<Event>)
    ensures |r| >= 1
    ensures forall i :: 0 <= i < |r| ==> (r[i].IsTerminal() <==> i == |r| - 1)
    ensures forall i :: 0 <= i < |r| - 1 ==> r[i].Token? && r[i].text != ""
    ensures r[|r| - 1] == Done <==> run.ending.Exhausted?
    ensures run.ending.Faulted? ==> r[|r| - 1] == Error(run.ending.message)
    ensures forall i :: 0 <= i < |r| - 1 ==> r[i].Name() == "token"
    ensures r[|r| - 1].Name() == if run.ending.Exhausted? then "done" else "error"
    ensures r[|r| - 1].Data() == if run.ending.Exhausted? then DoneMarker else run.ending.message
  {
    TokenEvents(run.chunks) + [Terminal(run.ending)]
  }

  /** `event_gen`: walks the backend's chunks, then yields the one terminal event. */
  method EventGen(run: StreamRun) returns (events: seq<Event>)
    ensures events == Framed(run)
  {
    events := [];
    for i := 0 to |run.chunks|
      invariant events == TokenEvents(run.chunks[..i])
    {
      var chunk := run.chunks[i];
      var text := ChunkText(chunk);
      assert run.chunks[..i + 1] == run.chunks[..i] + [chunk];
      TokenEventsSnoc(run.chunks[..i], chunk);
      if text != "" {
        events := events + [Token(text)];
      }
    }
    assert run.chunks[..|run.chunks|] == run.chunks;
    events := events + [Terminal(run.ending)];
  }

  /** What `/chat/stream` does: an event stream, or an error raised before the stream starts. */
  datatype StreamReply = EventStream(events: seq<Event>) | Propagated(message: string)

  /**
   * The streaming handler. Building the client and converting the messages
   * happen outside the generator's `try`, so a failure there propagates out
   * of the handler instead of becoming an `error` event.
   */
  function ChatStream(req: ChatRequest, backend: Backend): (r: StreamReply)
    ensures var client := ClientConfig(ModelName, req.temperature, req.topP);
      && (r.Propagated? <==> backend.construct(client).Some?)
      && (r.Propagated? ==> r.message == backend.construct(client).value)
      && (r.EventStream? ==> r.events == Framed(backend.stream(client, LcMessages(req.messages))))
  {
    var client := BuildChain(req.temperature, req.topP);
    match backend.construct(client)
    case Some(msg) => Propagated(msg)
    case None => EventStream(Framed(backend.stream(client, LcMessages(req.messages))))
  }

  // ---------------------------------------------------------------------
  // Properties of the framing
  // ---------------------------------------------------------------------

  lemma {:induction false} TokenEventsAppend(a: seq<Chunk>, b: seq<Chunk>)
    ensures TokenEvents(a + b) == TokenEvents(a) + TokenEvents(b)
  {
    if a == [] {
      assert a + b == b;
    } else {
      assert (a + b)[1..] == a[1..] + b;
      TokenEventsAppend(a[1..], b);
    }
  }

  /** Framing one more chunk adds its token, if its text is not empty. */
  lemma TokenEventsSnoc(chunks: seq<Chunk>, c: Chunk)
    ensures TokenEvents(chunks + [c])
         == TokenEvents(chunks) + (if ChunkText(c) != "" then [Token(ChunkText(c))] else [])
  {
    TokenEventsAppend(chunks, [c]);
    assert [c][1..] == [];
  }

  /**
   * `idx` lists, strictly increasing, the chunks the token events of
   * `chunks` come from, and every chunk with non-empty text is listed.
   */
  ghost predicate IsTokenSources(chunks: seq<Chunk>, idx: seq<nat>) {
    SourcesAligned(chunks, idx) && Increasing(idx) && SourcesComplete(chunks, idx)
  }

  /** The `j`-th token event is the text of chunk `idx[j]`, which is not empty. */
  ghost predicate SourcesAligned(chunks: seq<Chunk>, idx: seq<nat>) {
    && |idx| == |TokenEvents(chunks)|
    && (forall j :: 0 <= j < |idx| ==>
          idx[j] < |chunks| && ChunkText(chunks[idx[j]]) != ""
          && TokenEvents(chunks)[j] == Token(ChunkText(chunks[idx[j]])))
  }

  ghost predicate Increasing(idx: seq<nat>) {
    forall j, k :: 0 <= j < k < |idx| ==> idx[j] < idx[k]
  }

  /** Every chunk with non-empty text is listed in `idx`. */
  ghost predicate SourcesComplete(chunks: seq<Chunk>, idx: seq<nat>) {
    forall i :: 0 <= i < |chunks| && ChunkText(chunks[i]) != "" ==> i in idx
  }

  /**
   * The token events are exactly the texts of the non-empty chunks, in
   * backend order: `idx` lists the chunk each token comes from, strictly
   * increasing, and every non-empty chunk is listed.
   */
  lemma {:induction false} TokenSources(chunks: seq<Chunk>) returns (idx: seq<nat>)
    ensures |idx| == |TokenEvents(chunks)|
    ensures forall j :: 0 <= j < |idx| ==>
      idx[j] < |chunks| && ChunkText(chunks[idx[j]]) != ""
      && TokenEvents(chunks)[j] == Token(ChunkText(chunks[idx[j]]))
    ensures forall j, k :: 0 <= j < k < |idx| ==> idx[j] < idx[k]
    ensures forall i :: 0 <= i < |chunks| && ChunkText(chunks[i]) != "" ==> i in idx
  {
    if chunks == [] {
      idx := [];
    } else {
      var rest := TokenSources(chunks[1..]);
      idx := ConsTokenSources(chunks, rest);
    }
  }

  /** The sources of `chunks` built from the sources `rest` of its tail. */
  function ConsSources(chunks: seq<Chunk>, rest: seq<nat>): seq<nat>
    requires chunks != []
  {
    (if ChunkText(chunks[0]) != "" then [0] else []) + seq(|rest|, j requires 0 <= j < |rest| => rest[j] + 1)
  }

  /** The inductive step of `TokenSources`. */
  lemma ConsTokenSources(chunks: seq<Chunk>, rest: seq<nat>) returns (idx: seq<nat>)
    requires chunks != [] && IsTokenSources(chunks[1..], rest)
    ensures IsTokenSources(chunks, idx)
  {
    idx := ConsSources(chunks, rest);
    ConsSourcesAligned(chunks, rest);
    ConsSourcesIncreasing(chunks, rest);
    ConsSourcesComplete(chunks, rest);
  }

  lemma ConsSourcesAligned(chunks: seq<Chunk>, rest: seq<nat>)
    requires chunks != [] && SourcesAligned(chunks[1..], rest)
    ensures SourcesAligned(chunks, ConsSources(chunks, rest))
  {
  }

  lemma ConsSourcesIncreasing(chunks: seq<Chunk>, rest: seq<nat>)
    requires chunks != [] && Increasing(rest)
    ensures Increasing(ConsSources(chunks, rest))
  {
  }

  lemma ConsSourcesComplete(chunks: seq<Chunk>, rest: seq<nat>)
    requires chunks != [] && SourcesComplete(chunks[1..], rest)
    ensures SourcesComplete(chunks, ConsSources(chunks, rest))
  {
    var tail := chunks[1..];
    var idx := ConsSources(chunks, rest);
    var h := if ChunkText(chunks[0]) != "" then 1 else 0;
    forall i | 0 <= i < |chunks| && ChunkText(chunks[i]) != ""
      ensures i in idx
    {
      if i > 0 {
        assert tail[i - 1] == chunks[i];
        var j :| 0 <= j < |rest| && rest[j] == i - 1;
        assert idx[h + j] == i;
      } else {
        assert idx[0] == 0;
      }
    }
  }

  /** With no empty chunk, a normal run gives one token per chunk and then `done`. */
  lemma {:induction false} AllNonEmptyChunks(chunks: seq<Chunk>)
    requires forall i :: 0 <= i < |chunks| ==> ChunkText(chunks[i]) != ""
    ensures |TokenEvents(chunks)| == |chunks|
    ensures forall i :: 0 <= i < |chunks| ==> TokenEvents(chunks)[i] == Token(ChunkText(chunks[i]))
    ensures Framed(StreamRun(chunks, Exhausted)) == TokenEvents(chunks) + [Done]
  {
    if chunks != [] {
      AllNonEmptyChunks(chunks[1..]);
      assert TokenEvents(chunks) == [Token(ChunkText(chunks[0]))] + TokenEvents(chunks[1..]);
    }
  }

  /**
   * A stream that would have yielded `planned` but faults after its first
   * `k` chunks: the tokens already sent are a prefix of those of the full
   * run, one `error` closes the stream, and no `done` is sent.
   */
  lemma FaultAfterPrefix(planned: seq<Chunk>, k: nat, message: string)
    requires k <= |planned|
    ensures var ev := Framed(StreamRun(planned[..k], Faulted(message)));
      && ev[|ev| - 1] == Error(message)
      && ev[..|ev| - 1] <= TokenEvents(planned)
      && Done !in ev
  {
    assert planned == planned[..k] + planned[k..];
    TokenEventsAppend(planned[..k], planned[k..]);
  }

  /** Backend output `"hi"`, `""`, `"there"` streams as two tokens and `done`. */
  lemma EmptyChunkSuppressedExample()
    ensures Framed(StreamRun([ContentChunk("hi"), ContentChunk(""), ContentChunk("there")], Exhausted))
         == [Token("hi"), Token("there"), Done]
  {
  }

  /** A chunk without `content` and a fault after `"partial"`: one token, then the error. */
  lemma MidStreamFaultExample(message: string)
    ensures Framed(StreamRun([ContentChunk("partial"), BareChunk], Faulted(message)))
         == [Token("partial"), Error(message)]
  {
  }
}
