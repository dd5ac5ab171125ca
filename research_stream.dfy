/**
 * The research service's stream: the stage of each workflow node, the
 * configuration handed to the research engine, the event built for each node,
 * the extra events of the supervisor node, and the whole event sequence of a
 * session. The engine itself is outside the model: a session's run is given
 * as the chunks the engine produced and, when it raised, its message.
 */
module ResearchStream {
  import opened Wrappers
  import opened Strings
  import opened Events
  import opened ModelRegistry
  import opened Citations
  import opened NodeContent

  // ---------------------------------------------------------------------
  // Stage mapping and configuration
  // ---------------------------------------------------------------------

  /** The stage of a node; nodes the mapping does not list count as research execution. */
  function StageOf(name: string): (s: Stage)
    ensures s == Clarification <==> name == ClarifyNode
    ensures s == ResearchBrief <==> name == BriefNode
    ensures s == FinalReport <==> name == ReportNode
    ensures s == ResearchExecution <==> !(name == ClarifyNode || name == BriefNode || name == ReportNode)
  {
    if name == ClarifyNode then Clarification
    else if name == BriefNode then ResearchBrief
    else if name == SupervisorNode then ResearchExecution
    else if name == ReportNode then FinalReport
    else ResearchExecution
  }

  /** The `configurable` entries and the `model_type` metadata of a research run. */
  datatype ResearchConfig = ResearchConfig(
    researchModel: string,
    researchModelMaxTokens: nat,
    finalReportModel: string,
    finalReportModelMaxTokens: nat,
    compressionModel: string,
    compressionModelMaxTokens: nat,
    summarizationModel: string,
    summarizationModelMaxTokens: nat,
    allowClarification: bool,
    maxStructuredOutputRetries: nat,
    searchApi: string,
    maxResearchIterations: nat,
    maxResearchers: nat,
    apiKeys: map<string, string>,
    modelType: string)

  /** The name under which the configuration passes a model's key to the engine. */
  function ConfigKeyName(model: string): (r: Option<string>)
    ensures r.Some? <==> ValidateModel(model)
  {
    if model == "openai" then Some("OPENAI_API_KEY")
    else if model == "anthropic" then Some("ANTHROPIC_API_KEY")
    else if model == "kimi" then Some("KIMI_API_KEY")
    else None
  }

  /**
   * `_create_research_config`: the provider's model (or `gpt-4` for a model
   * the mapping lacks) for all four roles, and the key under the model's name.
   */
  function CreateResearchConfig(model: string, apiKey: string): (c: ResearchConfig)
    ensures c.researchModel == c.finalReportModel == c.compressionModel == c.summarizationModel
    ensures ValidateModel(model) ==> c.researchModel == GetModelProviderMapping()[model]
    ensures !ValidateModel(model) ==> c.researchModel == "gpt-4"
    ensures c.researchModelMaxTokens == 4000 && c.finalReportModelMaxTokens == 8000
    ensures c.compressionModelMaxTokens == 4000 && c.summarizationModelMaxTokens == 4000
    ensures !c.allowClarification && c.maxStructuredOutputRetries == 3 && c.searchApi == "anthropic"
    ensures c.maxResearchIterations == 5 && c.maxResearchers == 3
    ensures |c.apiKeys| == (if ValidateModel(model) then 1 else 0)
    ensures forall k :: k in c.apiKeys ==> c.apiKeys[k] == apiKey && ConfigKeyName(model) == Some(k)
    ensures c.modelType == model
  {
    var mapping := GetModelProviderMapping();
    var langchainModel := if model in mapping then mapping[model] else "gpt-4";
    var apiKeys := match ConfigKeyName(model)
      case Some(k) => map[k := apiKey]
      case None => map[];
    ResearchConfig(
      langchainModel, 4000, langchainModel, 8000, langchainModel, 4000, langchainModel, 4000,
      false, 3, "anthropic", 5, 3, apiKeys, model)
  }

  // ---------------------------------------------------------------------
  // Events of one node
  // ---------------------------------------------------------------------

  /** `_process_workflow_node`: the `stage_update` event of a node. */
  function NodeEvent(name: string, p: Payload, researchId: string, model: string, n: nat, scanner: Scanner): StreamingEvent {
    StreamingEvent(
      StageUpdate, StageOf(name), GeneratedContent(name, p, n, scanner), researchId, model,
      NodeInfo(name, n, p.dictDump.Some? && p.messages.Some?), None)
  }

  /** Notes shown as findings: those of more than 50 characters. */
  predicate Substantial(note: string) {
    note != "" && |note| > 50
  }

  /** The `research_finding` event of the note at 0-based position `i`. */
  function FindingEvent(i: nat, note: string, researchId: string, model: string, n: nat): StreamingEvent {
    StreamingEvent(
      ResearchFinding, ResearchExecution,
      "🔍 Research Finding " + NatToString(i + 1) + ": " + Preview(note, 200),
      researchId, model, FindingInfo(i + 1, |note|, n), None)
  }

  /** The finding events of the substantial notes, in order. */
  function FindingEvents(notes: seq<string>, researchId: string, model: string, n: nat): seq<StreamingEvent> {
    if notes == [] then []
    else
      var i := |notes| - 1;
      FindingEvents(notes[..i], researchId, model, n)
      + (if Substantial(notes[i]) then [FindingEvent(i, notes[i], researchId, model, n)] else [])
  }

  /** The `research_summary` event, present when the compressed research is not empty. */
  function SummaryEvents(p: Payload, researchId: string, model: string, n: nat): seq<StreamingEvent> {
    match p.compressedResearch
    case None => []
    case Some(cr) =>
      if cr == "" then []
      else [StreamingEvent(
              ResearchSummary, ResearchExecution, "📊 Research Summary: " + Preview(cr, 300),
              researchId, model, SummaryInfo(|cr|, n), None)]
  }

  /** `_process_research_supervisor_data`: the findings, then the summary. */
  function SupervisorEvents(p: Payload, researchId: string, model: string, n: nat): seq<StreamingEvent> {
    var notes := p.notes.GetOr([]);
    FindingEvents(notes, researchId, model, n) + SummaryEvents(p, researchId, model, n)
  }

  /** The events of one node: its update, then for a truthy supervisor node its findings and summary. */
  function NodeEvents(node: Node, researchId: string, model: string, n: nat, scanner: Scanner): seq<StreamingEvent> {
    var (name, p) := node;
    [NodeEvent(name, p, researchId, model, n, scanner)]
    + (if name == SupervisorNode && p.truthy then SupervisorEvents(p, researchId, model, n) else [])
  }

  /** The events of the nodes of one chunk, all numbered with the chunk's position `n`. */
  function ChunkEvents(chunk: Chunk, researchId: string, model: string, n: nat, scanner: Scanner): seq<StreamingEvent> {
    if chunk == [] then []
    else
      ChunkEvents(chunk[..|chunk| - 1], researchId, model, n, scanner)
      + NodeEvents(chunk[|chunk| - 1], researchId, model, n, scanner)
  }

  /** The events of all chunks; the k-th chunk (from 1) is numbered k. */
  function BodyEvents(chunks: seq<Chunk>, researchId: string, model: string, scanner: Scanner): seq<StreamingEvent> {
    if chunks == [] then []
    else
      BodyEvents(chunks[..|chunks| - 1], researchId, model, scanner)
      + ChunkEvents(chunks[|chunks| - 1], researchId, model, |chunks|, scanner)
  }

  // ---------------------------------------------------------------------
  // The whole stream
  // ---------------------------------------------------------------------

  /**
   * What the engine did in one session: either it failed before streaming
   * (`setupError`), or it produced `chunks` and then either finished or
   * raised `failure`.
   */
  datatype EngineRun = EngineRun(setupError: Option<string>, chunks: seq<Chunk>, failure: Option<string>)

  /** The engine, as a function of the query and the configuration. */
  type Engine = (string, ResearchConfig) -> EngineRun

  /** All nodes of the chunks, in order. */
  function Nodes(chunks: seq<Chunk>): seq<Node> {
    if chunks == [] then [] else Nodes(chunks[..|chunks| - 1]) + chunks[|chunks| - 1]
  }

  /** The stage after the nodes: that of the last one, or `s0` when there is none. */
  function StageAfter(nodes: seq<Node>, s0: Stage): Stage {
    if nodes == [] then s0 else StageOf(nodes[|nodes| - 1].0)
  }

  /** `current_stage` once the chunks are processed. */
  function CurrentStage(chunks: seq<Chunk>): Stage {
    StageAfter(Nodes(chunks), Initialization)
  }

  function StartEvent(query: string, model: string, researchId: string): StreamingEvent {
    StreamingEvent(
      StageStart, Initialization, "🚀 Starting deep research for: " + query, researchId, model,
      StartInfo(query, model), None)
  }

  function CompleteEvent(totalNodes: nat, researchId: string, model: string): StreamingEvent {
    StreamingEvent(
      StageComplete, Completed, "✅ Deep research completed successfully!", researchId, model,
      CompletionInfo(totalNodes), None)
  }

  function FailureEvent(stage: Stage, message: string, researchId: string, model: string): StreamingEvent {
    StreamingEvent(ErrorEvent, stage, "❌ Error occurred: " + message, researchId, model, NoMetadata, Some(message))
  }

  /** The events `stream_research` yields for a run of the engine. */
  function RunEvents(query: string, model: string, researchId: string, run: EngineRun, scanner: Scanner): seq<StreamingEvent> {
    match run.setupError
    case Some(message) => [FailureEvent(Initialization, message, researchId, model)]
    case None =>
      [StartEvent(query, model, researchId)]
      + BodyEvents(run.chunks, researchId, model, scanner)
      + match run.failure
        case None => [CompleteEvent(|run.chunks|, researchId, model)]
        case Some(message) => [FailureEvent(CurrentStage(run.chunks), message, researchId, model)]
  }

  /** `stream_research`: the engine is run with the configuration built from the model and the key. */
  function StreamEvents(query: string, model: string, apiKey: string, researchId: string, engine: Engine, scanner: Scanner): seq<StreamingEvent> {
    RunEvents(query, model, researchId, engine(query, CreateResearchConfig(model, apiKey)), scanner)
  }

  // ---------------------------------------------------------------------
  // The service's methods
  // ---------------------------------------------------------------------

  method ProcessWorkflowNode(name: string, p: Payload, researchId: string, model: string, n: nat, scanner: Scanner)
    returns (e: StreamingEvent)
    ensures e == NodeEvent(name, p, researchId, model, n, scanner)
  {
    var stage := StageOf(name);
    var content := GenerateNodeContent(name, p, n, scanner);
    e := StreamingEvent(StageUpdate, stage, content, researchId, model,
                        NodeInfo(name, n, p.dictDump.Some? && p.messages.Some?), None);
  }

  lemma FindingEventsStep(notes: seq<string>, researchId: string, model: string, n: nat, i: nat)
    requires i < |notes|
    ensures FindingEvents(notes[..i + 1], researchId, model, n)
            == FindingEvents(notes[..i], researchId, model, n)
               + (if Substantial(notes[i]) then [FindingEvent(i, notes[i], researchId, model, n)] else [])
  {
    assert notes[..i + 1][..i] == notes[..i];
  }

  /** The loop over the notes: a `research_finding` for each note of more than 50 characters. */
  method NoteFindings(notes: seq<string>, researchId: string, model: string, n: nat)
    returns (events: seq<StreamingEvent>)
    ensures events == FindingEvents(notes, researchId, model, n)
  {
    events := [];
    var i := 0;
    while i < |notes|
      invariant 0 <= i <= |notes|
      invariant events == FindingEvents(notes[..i], researchId, model, n)
    {
      var note := notes[i];
      FindingEventsStep(notes, researchId, model, n, i);
      if note != "" && |note| > 50 {
        var head := "🔍 Research Finding " + NatToString(i + 1) + ": ";
        var content := if |note| > 200 then head + note[..200] + "..." else head + note;
        assert content == head + Preview(note, 200);
        var finding := StreamingEvent(ResearchFinding, ResearchExecution, content, researchId, model,
                                      FindingInfo(i + 1, |note|, n), None);
        events := events + [finding];
      }
      i := i + 1;
    }
    assert notes[..i] == notes;
  }

  method ProcessResearchSupervisorData(p: Payload, researchId: string, model: string, n: nat)
    returns (events: seq<StreamingEvent>)
    ensures events == SupervisorEvents(p, researchId, model, n)
  {
    events := [];
    if p.notes.Some? && |p.notes.value| > 0 {
      events := NoteFindings(p.notes.value, researchId, model, n);
    }
    assert events == FindingEvents(p.notes.GetOr([]), researchId, model, n);
    if p.compressedResearch.Some? && p.compressedResearch.value != "" {
      var cr := p.compressedResearch.value;
      var content := if |cr| > 300 then "📊 Research Summary: " + cr[..300] + "..." else "📊 Research Summary: " + cr;
      assert content == "📊 Research Summary: " + Preview(cr, 300);
      events := events + [StreamingEvent(ResearchSummary, ResearchExecution, content, researchId, model,
                                         SummaryInfo(|cr|, n), None)];
    }
  }

  lemma ChunkStep(chunk: Chunk, researchId: string, model: string, n: nat, scanner: Scanner, i: nat, stage0: Stage)
    requires i < |chunk|
    ensures ChunkEvents(chunk[..i + 1], researchId, model, n, scanner)
            == ChunkEvents(chunk[..i], researchId, model, n, scanner) + NodeEvents(chunk[i], researchId, model, n, scanner)
    ensures StageAfter(chunk[..i + 1], stage0) == StageOf(chunk[i].0)
  {
    assert chunk[..i + 1][..i] == chunk[..i];
  }

  /** One pass of the inner loop: the node's `stage_update`, then the supervisor extras when they apply. */
  method ProcessNode(node: Node, researchId: string, model: string, n: nat, scanner: Scanner)
    returns (events: seq<StreamingEvent>, stage: Stage)
    ensures events == NodeEvents(node, researchId, model, n, scanner)
    ensures stage == StageOf(node.0)
  {
    var (name, data) := node;
    var event := ProcessWorkflowNode(name, data, researchId, model, n, scanner);
    stage := event.stage;
    var extra: seq<StreamingEvent> := [];
    if name == SupervisorNode && data.truthy {
      extra := ProcessResearchSupervisorData(data, researchId, model, n);
    }
    events := [event] + extra;
  }

  /** The inner loop over the nodes of one chunk; `stage` follows `current_stage`. */
  method ProcessChunk(chunk: Chunk, researchId: string, model: string, n: nat, scanner: Scanner, stage0: Stage)
    returns (events: seq<StreamingEvent>, stage: Stage)
    ensures events == ChunkEvents(chunk, researchId, model, n, scanner)
    ensures stage == StageAfter(chunk, stage0)
  {
    events := [];
    stage := stage0;
    var i := 0;
    while i < |chunk|
      invariant 0 <= i <= |chunk|
      invariant events == ChunkEvents(chunk[..i], researchId, model, n, scanner)
      invariant stage == StageAfter(chunk[..i], stage0)
    {
      ChunkStep(chunk, researchId, model, n, scanner, i, stage0);
      var nodeEvents;
      nodeEvents, stage := ProcessNode(chunk[i], researchId, model, n, scanner);
      events := events + nodeEvents;
      i := i + 1;
    }
    assert chunk[..i] == chunk;
  }

  lemma NodesStep(chunks: seq<Chunk>, k: nat)
    requires k < |chunks|
    ensures Nodes(chunks[..k + 1]) == Nodes(chunks[..k]) + chunks[k]
  {
    assert chunks[..k + 1][..k] == chunks[..k];
  }

  lemma StageAfterConcat(a: seq<Node>, b: seq<Node>, s0: Stage)
    ensures StageAfter(a + b, s0) == StageAfter(b, StageAfter(a, s0))
  {
    if b != [] {
      assert (a + b)[|a + b| - 1] == b[|b| - 1];
    }
  }

  /** One pass of the outer loop: the chunk's events are numbered with its 1-based position. */
  lemma OuterStep(chunks: seq<Chunk>, k: nat, researchId: string, model: string, scanner: Scanner)
    requires k < |chunks|
    ensures BodyEvents(chunks[..k + 1], researchId, model, scanner)
            == BodyEvents(chunks[..k], researchId, model, scanner) + ChunkEvents(chunks[k], researchId, model, k + 1, scanner)
    ensures CurrentStage(chunks[..k + 1]) == StageAfter(chunks[k], CurrentStage(chunks[..k]))
  {
    assert chunks[..k + 1][..k] == chunks[..k];
    NodesStep(chunks, k);
    StageAfterConcat(Nodes(chunks[..k]), chunks[k], Initialization);
  }

  /** The run once the engine has started: the outer loop over chunks, then the final event. */
  method StreamRun(query: string, model: string, researchId: string, run: EngineRun, scanner: Scanner)
    returns (events: seq<StreamingEvent>)
    ensures events == RunEvents(query, model, researchId, run, scanner)
  {
    var currentStage := Initialization;
    if run.setupError.Some? {
      events := [FailureEvent(currentStage, run.setupError.value, researchId, model)];
      return;
    }
    var chunks := run.chunks;
    var start := StartEvent(query, model, researchId);
    events := [start];
    var nodeCount := 0;
    while nodeCount < |chunks|
      invariant 0 <= nodeCount <= |chunks|
      invariant events == [start] + BodyEvents(chunks[..nodeCount], researchId, model, scanner)
      invariant currentStage == CurrentStage(chunks[..nodeCount])
    {
      var chunk := chunks[nodeCount];
      OuterStep(chunks, nodeCount, researchId, model, scanner);
      nodeCount := nodeCount + 1;
      var chunkEvents, stage := ProcessChunk(chunk, researchId, model, nodeCount, scanner, currentStage);
      AppendAssoc([start], BodyEvents(chunks[..nodeCount - 1], researchId, model, scanner), chunkEvents);
      events := events + chunkEvents;
      currentStage := stage;
    }
    assert chunks[..nodeCount] == chunks;
    if run.failure.None? {
      events := events + [CompleteEvent(nodeCount, researchId, model)];
    } else {
      events := events + [FailureEvent(currentStage, run.failure.value, researchId, model)];
    }
  }

  method StreamResearch(query: string, model: string, apiKey: string, researchId: string, engine: Engine, scanner: Scanner)
    returns (events: seq<StreamingEvent>)
    ensures events == StreamEvents(query, model, apiKey, researchId, engine, scanner)
  {
    var config := CreateResearchConfig(model, apiKey);
    var run := engine(query, config);
    events := StreamRun(query, model, researchId, run, scanner);
  }

  // ---------------------------------------------------------------------
  // Properties of the stream
  // ---------------------------------------------------------------------

  /** An event between the start and the end of a session's stream. */
  predicate BodyEvent(e: StreamingEvent, researchId: string, model: string) {
    && e.researchId == researchId && e.model == model
    && (e.kind == StageUpdate || e.kind == ResearchFinding || e.kind == ResearchSummary)
  }

  predicate AllBody(es: seq<StreamingEvent>, researchId: string, model: string) {
    forall i :: 0 <= i < |es| ==> BodyEvent(es[i], researchId, model)
  }

  /** An event of the supervisor extras: a finding or the summary, at research execution. */
  predicate Extra(e: StreamingEvent, researchId: string, model: string) {
    && e.researchId == researchId && e.model == model && e.stage == ResearchExecution
    && (e.kind == ResearchFinding || e.kind == ResearchSummary)
  }

  predicate AllExtra(es: seq<StreamingEvent>, researchId: string, model: string) {
    forall i :: 0 <= i < |es| ==> Extra(es[i], researchId, model)
  }

  lemma {:induction false} FindingEventsExtra(notes: seq<string>, researchId: string, model: string, n: nat)
    ensures AllExtra(FindingEvents(notes, researchId, model, n), researchId, model)
  {
    if notes != [] {
      FindingEventsExtra(notes[..|notes| - 1], researchId, model, n);
    }
  }

  lemma SupervisorEventsExtra(p: Payload, researchId: string, model: string, n: nat)
    ensures AllExtra(SupervisorEvents(p, researchId, model, n), researchId, model)
  {
    FindingEventsExtra(p.notes.GetOr([]), researchId, model, n);
  }

  lemma NodeEventsBody(node: Node, researchId: string, model: string, n: nat, scanner: Scanner)
    ensures AllBody(NodeEvents(node, researchId, model, n, scanner), researchId, model)
    ensures NodeEvents(node, researchId, model, n, scanner)[0] == NodeEvent(node.0, node.1, researchId, model, n, scanner)
    ensures AllExtra(NodeEvents(node, researchId, model, n, scanner)[1..], researchId, model)
  {
    var (name, p) := node;
    var extra := if name == SupervisorNode && p.truthy then SupervisorEvents(p, researchId, model, n) else [];
    SupervisorEventsExtra(p, researchId, model, n);
    UpdateThenExtras(NodeEvent(name, p, researchId, model, n, scanner), extra, researchId, model);
  }

  /** An update of the session followed by extras: all body events, the update first. */
  lemma UpdateThenExtras(e: StreamingEvent, extra: seq<StreamingEvent>, researchId: string, model: string)
    requires e.kind == StageUpdate && e.researchId == researchId && e.model == model
    requires AllExtra(extra, researchId, model)
    ensures AllBody([e] + extra, researchId, model)
    ensures ([e] + extra)[1..] == extra
  {
    var es := [e] + extra;
    forall i | 0 <= i < |es| ensures BodyEvent(es[i], researchId, model) {
      if i > 0 {
        assert es[i] == extra[i - 1];
      }
    }
  }

  lemma {:induction false} ChunkEventsBody(chunk: Chunk, researchId: string, model: string, n: nat, scanner: Scanner)
    ensures AllBody(ChunkEvents(chunk, researchId, model, n, scanner), researchId, model)
  {
    if chunk != [] {
      ChunkEventsBody(chunk[..|chunk| - 1], researchId, model, n, scanner);
      NodeEventsBody(chunk[|chunk| - 1], researchId, model, n, scanner);
    }
  }

  lemma {:induction false} BodyEventsBody(chunks: seq<Chunk>, researchId: string, model: string, scanner: Scanner)
    ensures AllBody(BodyEvents(chunks, researchId, model, scanner), researchId, model)
  {
    if chunks != [] {
      BodyEventsBody(chunks[..|chunks| - 1], researchId, model, scanner);
      ChunkEventsBody(chunks[|chunks| - 1], researchId, model, |chunks|, scanner);
    }
  }

  /**
   * Every stream ends with exactly one terminal event: a session that could
   * not start has only its initialization error; otherwise the start event
   * comes first and the last event is the completion (carrying the number of
   * chunks) or the error (carrying the message and the current stage). Every
   * event carries the session's id and model.
   */
  lemma StreamShape(query: string, model: string, researchId: string, run: EngineRun, scanner: Scanner)
    ensures var es := RunEvents(query, model, researchId, run, scanner);
      && |es| >= 1 && IsTerminal(es[|es| - 1])
      && (forall i :: 0 <= i < |es| - 1 ==> !IsTerminal(es[i]))
      && (forall i :: 0 <= i < |es| ==> es[i].researchId == researchId && es[i].model == model)
    ensures var es := RunEvents(query, model, researchId, run, scanner);
      run.setupError.Some? ==>
        && |es| == 1 && es[0].kind == ErrorEvent && es[0].stage == Initialization && es[0].error == run.setupError
    ensures var es := RunEvents(query, model, researchId, run, scanner);
      run.setupError.None? ==>
        && es[0].kind == StageStart && es[0].stage == Initialization
        && es[0].content == "🚀 Starting deep research for: " + query
        && |es| == |BodyEvents(run.chunks, researchId, model, scanner)| + 2
    ensures var es := RunEvents(query, model, researchId, run, scanner);
      run.setupError.None? && run.failure.None? ==>
        && es[|es| - 1].kind == StageComplete && es[|es| - 1].stage == Completed
        && es[|es| - 1].metadata == CompletionInfo(|run.chunks|)
    ensures var es := RunEvents(query, model, researchId, run, scanner);
      run.setupError.None? && run.failure.Some? ==>
        && es[|es| - 1].kind == ErrorEvent && es[|es| - 1].error == run.failure
        && es[|es| - 1].stage == CurrentStage(run.chunks)
        && es[|es| - 1].content == "❌ Error occurred: " + run.failure.value
  {
    var es := RunEvents(query, model, researchId, run, scanner);
    if run.setupError.None? {
      var start := StartEvent(query, model, researchId);
      var body := BodyEvents(run.chunks, researchId, model, scanner);
      var fin := if run.failure.None? then CompleteEvent(|run.chunks|, researchId, model)
                 else FailureEvent(CurrentStage(run.chunks), run.failure.value, researchId, model);
      assert es == [start] + body + [fin];
      BodyEventsBody(run.chunks, researchId, model, scanner);
      forall i | 0 <= i < |es| - 1
        ensures !IsTerminal(es[i]) && es[i].researchId == researchId && es[i].model == model
      {
        if i > 0 {
          assert es[i] == body[i - 1];
        }
      }
    }
  }

  /** The stage of the last `stage_update` event, or `s0` when there is none. */
  function LastUpdateStage(es: seq<StreamingEvent>, s0: Stage): Stage {
    if es == [] then s0
    else if es[|es| - 1].kind == StageUpdate then es[|es| - 1].stage
    else LastUpdateStage(es[..|es| - 1], s0)
  }

  lemma {:induction false} LastUpdateStageConcat(a: seq<StreamingEvent>, b: seq<StreamingEvent>, s0: Stage)
    ensures LastUpdateStage(a + b, s0) == LastUpdateStage(b, LastUpdateStage(a, s0))
  {
    if b == [] {
      assert a + b == a;
    } else {
      assert (a + b)[..|a + b| - 1] == a + b[..|b| - 1];
      LastUpdateStageConcat(a, b[..|b| - 1], s0);
    }
  }

  lemma {:induction false} ExtrasKeepStage(es: seq<StreamingEvent>, researchId: string, model: string, s0: Stage)
    requires AllExtra(es, researchId, model)
    ensures LastUpdateStage(es, s0) == s0
  {
    if es != [] {
      ExtrasKeepStage(es[..|es| - 1], researchId, model, s0);
    }
  }

  lemma NodeEventsStage(node: Node, researchId: string, model: string, n: nat, scanner: Scanner, s0: Stage)
    ensures LastUpdateStage(NodeEvents(node, researchId, model, n, scanner), s0) == StageOf(node.0)
  {
    var (name, p) := node;
    var extra := if name == SupervisorNode && p.truthy then SupervisorEvents(p, researchId, model, n) else [];
    SupervisorEventsExtra(p, researchId, model, n);
    var e := NodeEvent(name, p, researchId, model, n, scanner);
    LastUpdateStageConcat([e], extra, s0);
    ExtrasKeepStage(extra, researchId, model, e.stage);
  }

  lemma {:induction false} ChunkEventsStage(chunk: Chunk, researchId: string, model: string, n: nat, scanner: Scanner, s0: Stage)
    ensures LastUpdateStage(ChunkEvents(chunk, researchId, model, n, scanner), s0) == StageAfter(chunk, s0)
  {
    if chunk != [] {
      var init := chunk[..|chunk| - 1];
      ChunkEventsStage(init, researchId, model, n, scanner, s0);
      LastUpdateStageConcat(ChunkEvents(init, researchId, model, n, scanner),
                            NodeEvents(chunk[|chunk| - 1], researchId, model, n, scanner), s0);
      NodeEventsStage(chunk[|chunk| - 1], researchId, model, n, scanner, StageAfter(init, s0));
    }
  }

  lemma {:induction false} BodyEventsStage(chunks: seq<Chunk>, researchId: string, model: string, scanner: Scanner)
    ensures LastUpdateStage(BodyEvents(chunks, researchId, model, scanner), Initialization) == CurrentStage(chunks)
  {
    if chunks != [] {
      var init := chunks[..|chunks| - 1];
      var last := chunks[|chunks| - 1];
      BodyEventsStage(init, researchId, model, scanner);
      LastUpdateStageConcat(BodyEvents(init, researchId, model, scanner),
                            ChunkEvents(last, researchId, model, |chunks|, scanner), Initialization);
      ChunkEventsStage(last, researchId, model, |chunks|, scanner, CurrentStage(init));
      StageAfterConcat(Nodes(init), last, Initialization);
    }
  }

  /**
   * When the engine fails mid-stream, the error event's stage is that of the
   * last `stage_update` event before it, or initialization when there was none:
   * the supervisor's finding and summary events do not move `current_stage`.
   */
  lemma ErrorStageIsLastUpdate(query: string, model: string, researchId: string, run: EngineRun, scanner: Scanner)
    requires run.setupError.None? && run.failure.Some?
    ensures var es := RunEvents(query, model, researchId, run, scanner);
      es[|es| - 1].stage == LastUpdateStage(es[..|es| - 1], Initialization)
  {
    var es := RunEvents(query, model, researchId, run, scanner);
    var start := StartEvent(query, model, researchId);
    var body := BodyEvents(run.chunks, researchId, model, scanner);
    assert es[..|es| - 1] == [start] + body;
    LastUpdateStageConcat([start], body, Initialization);
    assert LastUpdateStage([start], Initialization) == Initialization;
    BodyEventsStage(run.chunks, researchId, model, scanner);
  }

  // The node behind each stage_update event

  /** `(node_name, node_count)` of every `stage_update` event, in order. */
  function UpdatedNodes(es: seq<StreamingEvent>): seq<(string, nat)> {
    if es == [] then []
    else
      var e := es[|es| - 1];
      UpdatedNodes(es[..|es| - 1])
      + (if e.kind == StageUpdate && e.metadata.NodeInfo? then [(e.metadata.nodeName, e.metadata.nodeCount)] else [])
  }

  /** The name of every node of a chunk, with the chunk's position `n`. */
  function ChunkLabels(chunk: Chunk, n: nat): seq<(string, nat)> {
    if chunk == [] then [] else ChunkLabels(chunk[..|chunk| - 1], n) + [(chunk[|chunk| - 1].0, n)]
  }

  /** Every node's name with the 1-based position of its chunk. */
  function NumberedNodes(chunks: seq<Chunk>): seq<(string, nat)> {
    if chunks == [] then []
    else NumberedNodes(chunks[..|chunks| - 1]) + ChunkLabels(chunks[|chunks| - 1], |chunks|)
  }

  lemma {:induction false} UpdatedNodesConcat(a: seq<StreamingEvent>, b: seq<StreamingEvent>)
    ensures UpdatedNodes(a + b) == UpdatedNodes(a) + UpdatedNodes(b)
  {
    if b == [] {
      assert a + b == a;
    } else {
      assert (a + b)[..|a + b| - 1] == a + b[..|b| - 1];
      UpdatedNodesConcat(a, b[..|b| - 1]);
    }
  }

  lemma {:induction false} ExtrasHaveNoUpdates(es: seq<StreamingEvent>, researchId: string, model: string)
    requires AllExtra(es, researchId, model)
    ensures UpdatedNodes(es) == []
  {
    if es != [] {
      ExtrasHaveNoUpdates(es[..|es| - 1], researchId, model);
    }
  }

  lemma NodeEventsUpdated(node: Node, researchId: string, model: string, n: nat, scanner: Scanner)
    ensures UpdatedNodes(NodeEvents(node, researchId, model, n, scanner)) == [(node.0, n)]
  {
    var (name, p) := node;
    var extra := if name == SupervisorNode && p.truthy then SupervisorEvents(p, researchId, model, n) else [];
    SupervisorEventsExtra(p, researchId, model, n);
    UpdateThenExtrasNodes(NodeEvent(name, p, researchId, model, n, scanner), extra, researchId, model);
  }

  /** An update followed by extras reports exactly the update's node. */
  lemma UpdateThenExtrasNodes(e: StreamingEvent, extra: seq<StreamingEvent>, researchId: string, model: string)
    requires e.kind == StageUpdate && e.metadata.NodeInfo?
    requires AllExtra(extra, researchId, model)
    ensures UpdatedNodes([e] + extra) == [(e.metadata.nodeName, e.metadata.nodeCount)]
  {
    UpdatedNodesConcat([e], extra);
    ExtrasHaveNoUpdates(extra, researchId, model);
    assert UpdatedNodes([e]) == UpdatedNodes([]) + [(e.metadata.nodeName, e.metadata.nodeCount)];
  }

  lemma {:induction false} ChunkEventsUpdated(chunk: Chunk, researchId: string, model: string, n: nat, scanner: Scanner)
    ensures UpdatedNodes(ChunkEvents(chunk, researchId, model, n, scanner)) == ChunkLabels(chunk, n)
  {
    if chunk != [] {
      var init := chunk[..|chunk| - 1];
      ChunkEventsUpdated(init, researchId, model, n, scanner);
      UpdatedNodesConcat(ChunkEvents(init, researchId, model, n, scanner),
                         NodeEvents(chunk[|chunk| - 1], researchId, model, n, scanner));
      NodeEventsUpdated(chunk[|chunk| - 1], researchId, model, n, scanner);
    }
  }

  /**
   * The `stage_update` events of a stream are one per node the engine
   * reported, in order, each naming its node and numbered with the position
   * of its chunk.
   */
  lemma {:induction false} UpdatesFollowNodes(chunks: seq<Chunk>, researchId: string, model: string, scanner: Scanner)
    ensures UpdatedNodes(BodyEvents(chunks, researchId, model, scanner)) == NumberedNodes(chunks)
  {
    if chunks != [] {
      var init := chunks[..|chunks| - 1];
      UpdatesFollowNodes(init, researchId, model, scanner);
      UpdatedNodesConcat(BodyEvents(init, researchId, model, scanner),
                         ChunkEvents(chunks[|chunks| - 1], researchId, model, |chunks|, scanner));
      ChunkEventsUpdated(chunks[|chunks| - 1], researchId, model, |chunks|, scanner);
    }
  }

  lemma {:induction false} ChunkLabelsNames(chunk: Chunk, n: nat)
    ensures |ChunkLabels(chunk, n)| == |chunk|
    ensures forall i :: 0 <= i < |chunk| ==> ChunkLabels(chunk, n)[i] == (chunk[i].0, n)
  {
    if chunk != [] {
      ChunkLabelsNames(chunk[..|chunk| - 1], n);
    }
  }

  /** The numbered nodes are the nodes of the chunks, each with a chunk position from 1 to the number of chunks. */
  lemma {:induction false} NumberedNodesAreNodes(chunks: seq<Chunk>)
    ensures |NumberedNodes(chunks)| == |Nodes(chunks)|
    ensures forall i :: 0 <= i < |Nodes(chunks)| ==>
              NumberedNodes(chunks)[i].0 == Nodes(chunks)[i].0 && 1 <= NumberedNodes(chunks)[i].1 <= |chunks|
  {
    if chunks != [] {
      var init := chunks[..|chunks| - 1];
      NumberedNodesAreNodes(init);
      ChunkLabelsNames(chunks[|chunks| - 1], |chunks|);
      var a, b := NumberedNodes(init), ChunkLabels(chunks[|chunks| - 1], |chunks|);
      var na, nb := Nodes(init), chunks[|chunks| - 1];
      forall i | 0 <= i < |Nodes(chunks)|
        ensures NumberedNodes(chunks)[i].0 == Nodes(chunks)[i].0 && 1 <= NumberedNodes(chunks)[i].1 <= |chunks|
      {
        if i < |na| {
          assert NumberedNodes(chunks)[i] == a[i] && Nodes(chunks)[i] == na[i];
        } else {
          assert NumberedNodes(chunks)[i] == b[i - |a|] && Nodes(chunks)[i] == nb[i - |na|];
        }
      }
    }
  }

  // The findings of the supervisor node

  /** `e` is the finding event of a substantial note of `notes`, identified by its `finding_index`. */
  predicate FindingOf(e: StreamingEvent, notes: seq<string>, researchId: string, model: string, n: nat) {
    && e.metadata.FindingInfo?
    && 1 <= e.metadata.findingIndex <= |notes|
    && Substantial(notes[e.metadata.findingIndex - 1])
    && e == FindingEvent(e.metadata.findingIndex - 1, notes[e.metadata.findingIndex - 1], researchId, model, n)
  }

  lemma FindingOfExtend(e: StreamingEvent, notes: seq<string>, k: nat, researchId: string, model: string, n: nat)
    requires k <= |notes| && FindingOf(e, notes[..k], researchId, model, n)
    ensures FindingOf(e, notes, researchId, model, n) && e.metadata.findingIndex <= k
  {
    assert notes[..k][e.metadata.findingIndex - 1] == notes[e.metadata.findingIndex - 1];
  }

  /**
   * Every finding event is that of a substantial note, identified by the
   * note's 1-based position, and the positions strictly increase.
   */
  lemma {:induction false} FindingEventsSound(notes: seq<string>, researchId: string, model: string, n: nat)
    ensures forall j :: 0 <= j < |FindingEvents(notes, researchId, model, n)| ==>
              FindingOf(FindingEvents(notes, researchId, model, n)[j], notes, researchId, model, n)
    ensures forall j, k :: 0 <= j < k < |FindingEvents(notes, researchId, model, n)| ==>
              && FindingEvents(notes, researchId, model, n)[j].metadata.FindingInfo?
              && FindingEvents(notes, researchId, model, n)[k].metadata.FindingInfo?
              && FindingEvents(notes, researchId, model, n)[j].metadata.findingIndex
                 < FindingEvents(notes, researchId, model, n)[k].metadata.findingIndex
  {
    if notes != [] {
      var i := |notes| - 1;
      FindingEventsSound(notes[..i], researchId, model, n);
      var fs0 := FindingEvents(notes[..i], researchId, model, n);
      var fs := FindingEvents(notes, researchId, model, n);
      forall j | 0 <= j < |fs0| ensures FindingOf(fs0[j], notes, researchId, model, n) && fs0[j].metadata.findingIndex <= i {
        FindingOfExtend(fs0[j], notes, i, researchId, model, n);
      }
      assert forall j :: 0 <= j < |fs0| ==> fs[j] == fs0[j];
    }
  }

  /** Every substantial note has its finding event. */
  lemma {:induction false} FindingEventsComplete(notes: seq<string>, researchId: string, model: string, n: nat)
    ensures forall i :: 0 <= i < |notes| && Substantial(notes[i]) ==>
              FindingEvent(i, notes[i], researchId, model, n) in FindingEvents(notes, researchId, model, n)
  {
    if notes != [] {
      var last := |notes| - 1;
      FindingEventsComplete(notes[..last], researchId, model, n);
      var fs0 := FindingEvents(notes[..last], researchId, model, n);
      var fs := FindingEvents(notes, researchId, model, n);
      forall i | 0 <= i < |notes| && Substantial(notes[i])
        ensures FindingEvent(i, notes[i], researchId, model, n) in fs
      {
        if i < last {
          assert notes[..last][i] == notes[i];
          assert FindingEvent(i, notes[i], researchId, model, n) in fs0;
        }
      }
    }
  }
}
