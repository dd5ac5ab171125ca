/**
 * The HTTP layer around the research service: validation of a stream
 * request, the server-sent-event frames of a session, the metrics stored
 * when a session completes, and the delete endpoint.
 *
 * The clock, the JSON encoder and the point where a session's generator
 * raises are parameters: the frames are `"data: " + encode(payload) + "\n\n"`.
 */
module Api {
  import opened Wrappers
  import opened Strings
  import opened Events
  import opened ModelRegistry
  import opened Citations
  import opened ResearchStream
  import opened Metrics

  datatype ResearchRequest = ResearchRequest(query: string, model: string, apiKey: string)

  /** An `HTTPException`: its status code and its detail text. */
  datatype HttpError = HttpError(status: nat, detail: string)

  // ---------------------------------------------------------------------
  // Validation of a stream request
  // ---------------------------------------------------------------------

  /**
   * Python's `repr` of a list of strings: `['a', 'b']`. This is exact only
   * for strings without quotes or backslashes, which Python would print with
   * double quotes or escapes. The registry ids it prints are such strings.
   */
  function PyListRepr(items: seq<string>): (r: string)
    ensures |r| >= 2 && r[0] == '[' && r[|r| - 1] == ']'
  {
    "[" + Join(Quoted(items), ", ") + "]"
  }

  function Quoted(items: seq<string>): (r: seq<string>)
    ensures |r| == |items|
    ensures forall i :: 0 <= i < |items| ==> r[i] == "'" + items[i] + "'"
  {
    if items == [] then [] else ["'" + items[0] + "'"] + Quoted(items[1..])
  }

  const EmptyQueryDetail := "Research query cannot be empty"
  const MissingKeyDetail := "API key is required"

  function UnsupportedModelDetail(model: string): string {
    "Unsupported model: " + model + ". Available models: " + PyListRepr(Ids(GetAvailableModels().models))
  }

  /**
   * The exception the checks of `stream_research` raise, if any: the query
   * first, then the key, then the model against the available ids.
   */
  function ValidationError(r: ResearchRequest): (e: Option<HttpError>)
    ensures e.Some? ==> e.value.status == 400
  {
    if Strip(r.query) == [] then Some(HttpError(400, EmptyQueryDetail))
    else if Strip(r.apiKey) == [] then Some(HttpError(400, MissingKeyDetail))
    else if r.model !in Ids(GetAvailableModels().models) then Some(HttpError(400, UnsupportedModelDetail(r.model)))
    else None
  }

  lemma QuotedThreeIds()
    ensures Quoted(["openai", "anthropic", "kimi"]) == ["'openai'", "'anthropic'", "'kimi'"]
  {
    var q := Quoted(["openai", "anthropic", "kimi"]);
    assert q[0] == "'" + "openai" + "'" == "'openai'";
    assert q[1] == "'" + "anthropic" + "'" == "'anthropic'";
    assert q[2] == "'" + "kimi" + "'" == "'kimi'";
  }

  lemma JoinThreeIds()
    ensures Join(["'openai'", "'anthropic'", "'kimi'"], ", ") == "'openai', 'anthropic', 'kimi'"
  {
    var q := ["'openai'", "'anthropic'", "'kimi'"];
    assert Join(q[2..], ", ") == "'kimi'";
    assert Join(q[1..], ", ") == "'anthropic'" + ", " + "'kimi'";
    assert Join(q, ", ") == "'openai'" + ", " + ("'anthropic'" + ", " + "'kimi'");
  }

  lemma ThreeIdsRepr()
    ensures PyListRepr(["openai", "anthropic", "kimi"]) == "['openai', 'anthropic', 'kimi']"
  {
    QuotedThreeIds();
    JoinThreeIds();
    assert "[" + "'openai', 'anthropic', 'kimi'" + "]" == "['openai', 'anthropic', 'kimi']";
  }

  /** The model check's detail names the three identifiers as the Python list repr prints them. */
  lemma UnsupportedModelDetailText(model: string)
    ensures UnsupportedModelDetail(model) == "Unsupported model: " + model + ". Available models: " + "['openai', 'anthropic', 'kimi']"
  {
    var ids := Ids(GetAvailableModels().models);
    assert ids == ["openai", "anthropic", "kimi"];
    ThreeIdsRepr();
  }

  /** A request passes exactly when its query and key have a non-blank character and its model is one of the three. */
  lemma ValidationPassesIff(r: ResearchRequest)
    ensures ValidationError(r).None? <==>
              ((exists i :: 0 <= i < |r.query| && !IsSpace(r.query[i]))
               && (exists i :: 0 <= i < |r.apiKey| && !IsSpace(r.apiKey[i]))
               && r.model in ["openai", "anthropic", "kimi"])
  {
    AvailableIdsAreValid(r.model);
    StripEmptyIffAllSpace(r.query);
    StripEmptyIffAllSpace(r.apiKey);
  }

  /** The first failing check decides the detail: the query, then the key, then the model. */
  lemma ValidationFirstFailure(r: ResearchRequest)
    ensures Strip(r.query) == [] ==> ValidationError(r) == Some(HttpError(400, EmptyQueryDetail))
    ensures Strip(r.query) != [] && Strip(r.apiKey) == [] ==> ValidationError(r) == Some(HttpError(400, MissingKeyDetail))
    ensures Strip(r.query) != [] && Strip(r.apiKey) != [] && !ValidateModel(r.model) ==>
              ValidationError(r) == Some(HttpError(400, "Unsupported model: " + r.model + ". Available models: " + "['openai', 'anthropic', 'kimi']"))
  {
    AvailableIdsAreValid(r.model);
    UnsupportedModelDetailText(r.model);
  }

  /** `str()` of a Starlette `HTTPException`: the status code, a colon and the detail. */
  function ExceptionText(e: HttpError): string {
    NatToString(e.status) + ": " + e.detail
  }

  /**
   * The response `stream_research` gives as written: the exception raised by a
   * check is caught by the endpoint's own `except Exception` and re-raised as a
   * 500 whose detail is the text of the 400.
   */
  function AsWrittenRejection(r: ResearchRequest): (e: Option<HttpError>)
    ensures e.None? <==> ValidationError(r).None?
    ensures e.Some? ==> e.value.status == 500
  {
    match ValidationError(r)
    case None => None
    case Some(v) => Some(HttpError(500, ExceptionText(v)))
  }

  /** The text of a 400 error: `400: ` then its detail. */
  lemma BadRequestText(detail: string)
    ensures ExceptionText(HttpError(400, detail)) == "400: " + detail
  {
    assert NatToString(4) == "4";
    assert NatToString(40) == NatToString(4) + "0";
    assert NatToString(400) == NatToString(40) + "0";
    assert NatToString(400) == "400";
    assert "400" + ": " == "400: ";
  }

  /** A query of spaces only strips to nothing. */
  lemma BlankQueryStrips()
    ensures Strip("   ") == []
  {
    assert IsSpace(' ');
    assert TrimLeft("   ") == TrimLeft("  ") == TrimLeft(" ") == TrimLeft("") == [];
  }

  /** A blank query, which the checks reject with 400, reaches the client as a 500. */
  lemma AsWrittenBlankQueryIs500()
    ensures ValidationError(ResearchRequest("   ", "openai", "test-key")) == Some(HttpError(400, EmptyQueryDetail))
    ensures AsWrittenRejection(ResearchRequest("   ", "openai", "test-key")) ==
              Some(HttpError(500, "400: " + EmptyQueryDetail))
  {
    BlankQueryStrips();
    BadRequestText(EmptyQueryDetail);
  }

  // ---------------------------------------------------------------------
  // The frames of one session
  // ---------------------------------------------------------------------

  /** The dictionaries the generator serialises; their `timestamp` fields are left out. */
  datatype FramePayload =
    | SessionStart(researchId: string, model: string, query: string)
    | EventFrame(event: StreamingEvent)
    | ResearchComplete(researchId: string, duration: real, model: string)
    | StreamError(message: string, researchId: string)

  type Encoder = FramePayload -> string

  /** A failure raised inside the generator after `index` service events were sent. */
  datatype Fault = Fault(index: nat, message: string)

  /** `f"research_{int(time.time())}"`. */
  function ResearchIdAt(seconds: nat): (id: string)
    ensures StartsWith(id, "research_") && |id| > 9
  {
    "research_" + NatToString(seconds)
  }

  function Frame(encode: Encoder, p: FramePayload): (f: string)
    ensures StartsWith(f, "data: ") && f[|f| - 2..] == "\n\n"
  {
    "data: " + encode(p) + "\n\n"
  }

  function Frames(encode: Encoder, ps: seq<FramePayload>): (fs: seq<string>)
    ensures |fs| == |ps|
    ensures forall i :: 0 <= i < |ps| ==> fs[i] == Frame(encode, ps[i])
  {
    if ps == [] then [] else Frames(encode, ps[..|ps| - 1]) + [Frame(encode, ps[|ps| - 1])]
  }

  function EventPayloads(events: seq<StreamingEvent>): (ps: seq<FramePayload>)
    ensures |ps| == |events|
    ensures forall i :: 0 <= i < |events| ==> ps[i] == EventFrame(events[i])
  {
    if events == [] then [] else EventPayloads(events[..|events| - 1]) + [EventFrame(events[|events| - 1])]
  }

  /** The events sent before a fault: all of them when it comes after the last. */
  function SentBefore(events: seq<StreamingEvent>, f: Fault): (sent: seq<StreamingEvent>)
    ensures |sent| <= |events| && sent == events[..|sent|]
    ensures f.index < |events| ==> |sent| == f.index
  {
    if f.index < |events| then events[..f.index] else events
  }

  /**
   * The payloads of `generate_research_stream`: the session start, one
   * frame per service event, then either the completion or, once a fault
   * is raised, a single error frame.
   */
  function SessionPayloads(r: ResearchRequest, researchId: string, events: seq<StreamingEvent>,
                           fault: Option<Fault>, duration: real): seq<FramePayload> {
    [SessionStart(researchId, r.model, r.query)]
      + match fault
        case None => EventPayloads(events) + [ResearchComplete(researchId, duration, r.model)]
        case Some(f) => EventPayloads(SentBefore(events, f)) + [StreamError(f.message, researchId)]
  }

  predicate IsEnd(p: FramePayload) {
    p.ResearchComplete? || p.StreamError?
  }

  /**
   * A session opens with its start, relays the service events in order,
   * and closes with exactly one completion or error frame; an error frame
   * carries the fault's message, and without a fault every event is relayed.
   */
  lemma SessionShape(r: ResearchRequest, researchId: string, events: seq<StreamingEvent>,
                     fault: Option<Fault>, duration: real)
    ensures var ps := SessionPayloads(r, researchId, events, fault, duration);
      && |ps| >= 2
      && ps[0] == SessionStart(researchId, r.model, r.query)
      && IsEnd(ps[|ps| - 1])
      && (forall i :: 0 <= i < |ps| - 1 ==> !IsEnd(ps[i]))
      && (forall i :: 1 <= i < |ps| - 1 ==> ps[i] == EventFrame(events[i - 1]))
      && (ps[|ps| - 1].ResearchComplete? <==> fault.None?)
      && (fault.None? ==> |ps| == |events| + 2 && ps[|ps| - 1] == ResearchComplete(researchId, duration, r.model))
      && (fault.Some? ==> |ps| == |SentBefore(events, fault.value)| + 2
                          && ps[|ps| - 1] == StreamError(fault.value.message, researchId))
  {
    var ps := SessionPayloads(r, researchId, events, fault, duration);
    var sent := if fault.None? then events else SentBefore(events, fault.value);
    var last := if fault.None? then ResearchComplete(researchId, duration, r.model) else StreamError(fault.value.message, researchId);
    assert ps == [SessionStart(researchId, r.model, r.query)] + EventPayloads(sent) + [last];
    assert sent == events[..|sent|];
    forall i | 1 <= i < |ps| - 1
      ensures ps[i] == EventFrame(events[i - 1])
    {
      assert ps[i] == EventPayloads(sent)[i - 1];
      assert sent[i - 1] == events[i - 1];
    }
  }

  // ---------------------------------------------------------------------
  // The endpoints
  // ---------------------------------------------------------------------

  /** The record `store_research_metrics` adds when a session completes: success, no error. */
  function CompletedRecord(r: ResearchRequest, researchId: string, duration: real, timestamp: Timestamp): ResearchRecord {
    ResearchRecord(researchId, r.model, duration, r.query, true, timestamp, None)
  }

  /** The frames of a session: its start, the events sent as they arrive, and its last payload. */
  lemma FramesSnoc(encode: Encoder, ps: seq<FramePayload>, p: FramePayload)
    ensures Frames(encode, ps + [p]) == Frames(encode, ps) + [Frame(encode, p)]
  {
    assert (ps + [p])[..|ps|] == ps;
  }

  lemma EventPayloadsStep(sent: seq<StreamingEvent>, i: nat)
    requires i < |sent|
    ensures EventPayloads(sent[..i + 1]) == EventPayloads(sent[..i]) + [EventFrame(sent[i])]
  {
    assert sent[..i + 1][..i] == sent[..i];
  }

  lemma {:induction false} FramesConcat(encode: Encoder, a: seq<FramePayload>, b: seq<FramePayload>)
    ensures Frames(encode, a + b) == Frames(encode, a) + Frames(encode, b)
  {
    if b != [] {
      var init := b[..|b| - 1];
      FramesConcat(encode, a, init);
      assert a + b == (a + init) + [b[|b| - 1]];
      FramesSnoc(encode, a + init, b[|b| - 1]);
    } else {
      assert a + b == a;
    }
  }

  /** The relay loop over the service's events: one frame per event. */
  method EventFrames(encode: Encoder, sent: seq<StreamingEvent>) returns (frames: seq<string>)
    ensures frames == Frames(encode, EventPayloads(sent))
  {
    frames := [];
    var i := 0;
    while i < |sent|
      invariant 0 <= i <= |sent|
      invariant frames == Frames(encode, EventPayloads(sent[..i]))
    {
      EventPayloadsStep(sent, i);
      FramesSnoc(encode, EventPayloads(sent[..i]), EventFrame(sent[i]));
      frames := frames + [Frame(encode, EventFrame(sent[i]))];
      i := i + 1;
    }
    assert sent[..i] == sent;
  }

  method SessionFrames(encode: Encoder, start: FramePayload, sent: seq<StreamingEvent>, last: FramePayload)
    returns (frames: seq<string>)
    ensures frames == Frames(encode, [start] + EventPayloads(sent) + [last])
  {
    var body := EventFrames(encode, sent);
    frames := [Frame(encode, start)] + body + [Frame(encode, last)];
    FramesConcat(encode, [start], EventPayloads(sent));
    FramesSnoc(encode, [start] + EventPayloads(sent), last);
    assert Frames(encode, [start]) == [Frame(encode, start)];
  }

  /** The session's duration, `end_time - start_time`, from two clock readings. */
  function Duration(startTime: real, endTime: real): real {
    endTime - startTime
  }

  /**
   * The body of `generate_research_stream` once the service's events are
   * known: the frames, and the metrics stored only after the completion
   * frame, so a fault leaves the collector as it was.
   */
  method RelaySession(r: ResearchRequest, researchId: string, events: seq<StreamingEvent>, duration: real,
                      timestamp: Timestamp, fault: Option<Fault>, encode: Encoder, collector: MetricsCollector)
    returns (frames: seq<string>)
    requires collector.Valid()
    modifies collector
    ensures collector.Valid()
    ensures frames == Frames(encode, SessionPayloads(r, researchId, events, fault, duration))
    ensures fault.None? ==>
              collector.researchHistory == old(collector.researchHistory) + [CompletedRecord(r, researchId, duration, timestamp)]
    ensures fault.None? && r.model in old(collector.modelMetrics) ==>
              collector.modelMetrics == old(collector.modelMetrics)[r.model := Recorded(old(collector.modelMetrics)[r.model],
                                                                    RequestRecord(duration, true, timestamp))]
    ensures fault.None? && r.model !in old(collector.modelMetrics) ==> collector.modelMetrics == old(collector.modelMetrics)
    ensures fault.Some? ==> collector.researchHistory == old(collector.researchHistory)
                            && collector.modelMetrics == old(collector.modelMetrics)
  {
    var start := SessionStart(researchId, r.model, r.query);
    if fault.Some? {
      var sent, last := SentBefore(events, fault.value), StreamError(fault.value.message, researchId);
      assert SessionPayloads(r, researchId, events, fault, duration) == [start] + EventPayloads(sent) + [last];
      frames := SessionFrames(encode, start, sent, last);
    } else {
      var last := ResearchComplete(researchId, duration, r.model);
      assert SessionPayloads(r, researchId, events, fault, duration) == [start] + EventPayloads(events) + [last];
      frames := SessionFrames(encode, start, events, last);
      collector.StoreResearchMetrics(researchId, r.model, duration, r.query, true, None, timestamp);
    }
  }

  /**
   * `generate_research_stream`, run to its end: the identifier from the
   * clock's seconds, the research service's events (`StreamEvents`, which
   * `ResearchStream.StreamResearch` computes),
   * and the duration between the two clock readings.
   */
  method GenerateResearchStream(r: ResearchRequest, now: nat, startTime: real, endTime: real, timestamp: Timestamp,
                                engine: Engine, scanner: Scanner, fault: Option<Fault>, encode: Encoder,
                                collector: MetricsCollector)
    returns (frames: seq<string>)
    requires collector.Valid()
    modifies collector
    ensures collector.Valid()
    ensures frames == Frames(encode, SessionPayloads(r, ResearchIdAt(now),
                                                     StreamEvents(r.query, r.model, r.apiKey, ResearchIdAt(now), engine, scanner),
                                                     fault, Duration(startTime, endTime)))
    ensures fault.None? ==>
              collector.researchHistory == old(collector.researchHistory) + [CompletedRecord(r, ResearchIdAt(now), Duration(startTime, endTime), timestamp)]
    ensures fault.None? && r.model in old(collector.modelMetrics) ==>
              collector.modelMetrics == old(collector.modelMetrics)[r.model := Recorded(old(collector.modelMetrics)[r.model],
                                                                    RequestRecord(Duration(startTime, endTime), true, timestamp))]
    ensures fault.None? && r.model !in old(collector.modelMetrics) ==> collector.modelMetrics == old(collector.modelMetrics)
    ensures fault.Some? ==> collector.researchHistory == old(collector.researchHistory)
                            && collector.modelMetrics == old(collector.modelMetrics)
  {
    var researchId := ResearchIdAt(now);
    var events := StreamEvents(r.query, r.model, r.apiKey, researchId, engine, scanner);
    frames := RelaySession(r, researchId, events, Duration(startTime, endTime), timestamp, fault, encode, collector);
  }

  datatype StreamResponse = Rejected(error: HttpError) | Streaming(frames: seq<string>)

  /**
   * `stream_research` with the validation error passed through: a rejected
   * request streams nothing and stores nothing; an accepted one streams its
   * session.
   */
  method StreamResearchEndpoint(r: ResearchRequest, now: nat, startTime: real, endTime: real, timestamp: Timestamp,
                                engine: Engine, scanner: Scanner, fault: Option<Fault>, encode: Encoder,
                                collector: MetricsCollector)
    returns (resp: StreamResponse)
    requires collector.Valid()
    modifies collector
    ensures collector.Valid()
    ensures resp.Rejected? <==> ValidationError(r).Some?
    ensures resp.Rejected? ==> resp.error == ValidationError(r).value && resp.error.status == 400
                               && collector.researchHistory == old(collector.researchHistory)
                               && collector.modelMetrics == old(collector.modelMetrics)
    ensures resp.Streaming? ==>
              resp.frames == Frames(encode, SessionPayloads(r, ResearchIdAt(now),
                                                            StreamEvents(r.query, r.model, r.apiKey, ResearchIdAt(now), engine, scanner),
                                                            fault, Duration(startTime, endTime)))
    ensures resp.Streaming? && fault.None? ==>
              collector.researchHistory == old(collector.researchHistory) + [CompletedRecord(r, ResearchIdAt(now), Duration(startTime, endTime), timestamp)]
    ensures resp.Streaming? && fault.None? ==>
              collector.modelMetrics == old(collector.modelMetrics)[r.model := Recorded(old(collector.modelMetrics)[r.model],
                                                                    RequestRecord(Duration(startTime, endTime), true, timestamp))]
    ensures resp.Streaming? && fault.Some? ==> collector.researchHistory == old(collector.researchHistory)
                                               && collector.modelMetrics == old(collector.modelMetrics)
  {
    var rejection := ValidationError(r);
    if rejection.Some? {
      return Rejected(rejection.value);
    }
    var frames := GenerateResearchStream(r, now, startTime, endTime, timestamp, engine, scanner, fault, encode, collector);
    resp := Streaming(frames);
  }

  datatype DeleteResponse = DeleteOk(message: string) | DeleteFailed(error: HttpError)

  /** `delete_research`: 404 exactly when the history held no record of the id. */
  method DeleteResearchEndpoint(researchId: string, collector: MetricsCollector) returns (resp: DeleteResponse)
    modifies collector
    ensures resp.DeleteFailed? <==> !HasId(old(collector.researchHistory), researchId)
    ensures resp.DeleteFailed? ==> resp.error == HttpError(404, "Research not found")
    ensures resp.DeleteOk? ==> resp.message == "Research deleted successfully"
    ensures collector.researchHistory == WithoutId(old(collector.researchHistory), researchId)
    ensures collector.modelMetrics == old(collector.modelMetrics)
  {
    var success := collector.DeleteResearch(researchId);
    if !success {
      return DeleteFailed(HttpError(404, "Research not found"));
    }
    resp := DeleteOk("Research deleted successfully");
  }
}
