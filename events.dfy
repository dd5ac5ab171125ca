/**
 * The data the research service works on: the logical stages of a session,
 * the events it streams to clients, and the payloads the external research
 * engine attaches to each workflow node. The engine's payloads are objects
 * probed with `hasattr`; here every probed attribute is an `Option` field.
 */
module Events {
  import opened Wrappers

  datatype Stage =
    | Initialization
    | Clarification
    | ResearchBrief
    | ResearchExecution
    | FinalReport
    | Completed
    | Error

  /** The `type` field of a streamed event. */
  datatype EventKind =
    | StageStart       // "stage_start"
    | StageUpdate      // "stage_update"
    | ResearchFinding  // "research_finding"
    | ResearchSummary  // "research_summary"
    | StageComplete    // "stage_complete"
    | ErrorEvent       // "error"

  /** The `metadata` dictionary of each kind of event. */
  datatype Metadata =
    | StartInfo(query: string, modelConfig: string)
    | NodeInfo(nodeName: string, nodeCount: nat, hasMessages: bool)
    | FindingInfo(findingIndex: nat, findingLength: nat, findingNodeCount: nat)
    | SummaryInfo(summaryLength: nat, summaryNodeCount: nat)
    | CompletionInfo(totalNodes: nat)
    | NoMetadata

  /** One streamed event; its timestamp is left out of the model. */
  datatype StreamingEvent = StreamingEvent(
    kind: EventKind,
    stage: Stage,
    content: string,
    researchId: string,
    model: string,
    metadata: Metadata,
    error: Option<string>)

  /** `stage_complete` and `error` end a stream. */
  predicate IsTerminal(e: StreamingEvent) {
    e.kind == StageComplete || e.kind == ErrorEvent
  }

  /** The value of a probed attribute: a Python `str`, or another object shown by its `str()`. */
  datatype Value = StrValue(s: string) | OtherValue(repr: string)

  /** Python's `str(v)`. */
  function Rendered(v: Value): string {
    match v
    case StrValue(s) => s
    case OtherValue(r) => r
  }

  /** A message object of the engine; `content` is absent when it has no such attribute. */
  datatype Message = Message(content: Option<Value>)

  /**
   * The data the engine reports for one node. `truthy` is the Python truth
   * value of the object itself; `dictDump` is `str(node_data.__dict__)` when
   * the object has a `__dict__`. The string-valued fields hold `str()` of the
   * attribute, whose truth value is taken to be "not empty".
   */
  datatype Payload = Payload(
    truthy: bool,
    dictDump: Option<string>,
    messages: Option<seq<Message>>,
    researchBrief: Option<string>,
    notes: Option<seq<string>>,
    compressedResearch: Option<string>,
    finalReport: Option<string>,
    content: Option<Value>,
    response: Option<Value>,
    output: Option<Value>,
    result: Option<Value>,
    text: Option<Value>)

  /** A node of one engine update: its name and its data. */
  type Node = (string, Payload)

  /** One update of the engine (`stream_mode="updates"`): the nodes that ran, in dictionary order. */
  type Chunk = seq<Node>
}
