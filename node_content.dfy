/**
 * The content builders of the research service
 * (services/deep_research_service.py): the best-effort extraction of
 * readable text from a node's payload. Each builder is a specification
 * function and a method with the source's loops, proved equal to it; the
 * properties the service promises are lemmas about the functions.
 */
module NodeContent {
  import opened Wrappers
  import opened Strings
  import opened Events
  import opened Citations

  // ---------------------------------------------------------------------
  // _extract_ai_messages
  // ---------------------------------------------------------------------

  /** A message's rendered content is shown when longer than 20 characters and not a `Human:` line. */
  predicate ShownMessage(m: Message) {
    m.content.Some? && |Rendered(m.content.value)| > 20 && !StartsWith(Rendered(m.content.value), "Human:")
  }

  /** `e` is the entry message `m` contributes: its content previewed to 500 characters. */
  predicate EntryOf(m: Message, e: string) {
    ShownMessage(m) && e == Preview(Rendered(m.content.value), 500)
  }

  function MessageEntry(m: Message): seq<string> {
    if ShownMessage(m) then [Preview(Rendered(m.content.value), 500)] else []
  }

  /** The entries of the messages loop, in message order. */
  function MessageEntries(ms: seq<Message>): seq<string> {
    if ms == [] then [] else MessageEntries(ms[..|ms| - 1]) + MessageEntry(ms[|ms| - 1])
  }

  /** The direct attributes probed, in the order `content, response, output, result, text`. */
  function ContentAttributes(p: Payload): seq<Option<Value>> {
    [p.content, p.response, p.output, p.result, p.text]
  }

  /** An attribute is used when it is a `str` longer than 20 characters. */
  predicate UsableAttribute(a: Option<Value>) {
    a.Some? && a.value.StrValue? && |a.value.s| > 20
  }

  /** The entry of the first usable attribute (the loop's `break`), if any. */
  function AttributeEntry(attrs: seq<Option<Value>>): (r: seq<string>)
    ensures |r| <= 1
    ensures r == [] <==> forall j :: 0 <= j < |attrs| ==> !UsableAttribute(attrs[j])
    ensures r != [] ==> exists j ::
              && 0 <= j < |attrs| && UsableAttribute(attrs[j])
              && (forall i :: 0 <= i < j ==> !UsableAttribute(attrs[i]))
              && r == [Preview(attrs[j].value.s, 500)]
  {
    if attrs == [] then []
    else if UsableAttribute(attrs[0]) then [Preview(attrs[0].value.s, 500)]
    else
      var r := AttributeEntry(attrs[1..]);
      assert forall j :: 1 <= j < |attrs| ==> attrs[j] == attrs[1..][j - 1];
      r
  }

  function MessagesOf(p: Payload): seq<Message> {
    match p.messages
    case None => []
    case Some(ms) => ms
  }

  /** What `_extract_ai_messages` returns: message entries, then one attribute entry, at most five. */
  function AiMessages(p: Payload): seq<string> {
    Take(MessageEntries(MessagesOf(p)) + AttributeEntry(ContentAttributes(p)), 5)
  }

  /** The loop over the messages: each shown message's content, previewed to 500 characters. */
  method CollectMessageEntries(ms: seq<Message>) returns (messages: seq<string>)
    ensures messages == MessageEntries(ms)
  {
    messages := [];
    var i := 0;
    while i < |ms|
      invariant 0 <= i <= |ms|
      invariant messages == MessageEntries(ms[..i])
    {
      var msg := ms[i];
      assert ms[..i + 1][..i] == ms[..i];
      if msg.content.Some? {
        var content := Rendered(msg.content.value);
        if |content| > 20 && !StartsWith(content, "Human:") {
          if |content| > 500 {
            content := content[..500] + "...";
          }
          messages := messages + [content];
        }
      }
      i := i + 1;
    }
    assert ms[..i] == ms;
  }

  /** The loop over the direct attributes, which stops at the first usable one. */
  method FirstAttributeEntry(attrs: seq<Option<Value>>) returns (entry: seq<string>)
    ensures entry == AttributeEntry(attrs)
  {
    entry := [];
    var j := 0;
    while j < |attrs|
      invariant 0 <= j <= |attrs|
      invariant AttributeEntry(attrs) == AttributeEntry(attrs[j..])
    {
      var attr := attrs[j];
      if attr.Some? && attr.value.StrValue? && |attr.value.s| > 20 {
        var v := attr.value.s;
        if |v| > 500 {
          v := v[..500] + "...";
        }
        entry := [v];
        return;
      }
      assert attrs[j..][1..] == attrs[j + 1..];
      j := j + 1;
    }
  }

  method ExtractAiMessages(p: Payload) returns (r: seq<string>)
    ensures r == AiMessages(p)
  {
    var messages: seq<string> := [];
    if p.messages.Some? && |p.messages.value| > 0 {
      messages := CollectMessageEntries(p.messages.value);
    }
    var entry := FirstAttributeEntry(ContentAttributes(p));
    r := Take(messages + entry, 5);
  }

  /** Every message entry comes from some message, in the source's filter and preview. */
  lemma {:induction false} MessageEntriesSound(ms: seq<Message>)
    ensures forall k :: 0 <= k < |MessageEntries(ms)| ==>
              exists j :: 0 <= j < |ms| && EntryOf(ms[j], MessageEntries(ms)[k])
  {
    if ms == [] {
      assert MessageEntries(ms) == [];
    } else {
      var init := ms[..|ms| - 1];
      MessageEntriesSound(init);
      assert MessageEntries(ms) == MessageEntries(init) + MessageEntry(ms[|ms| - 1]);
      forall k | 0 <= k < |MessageEntries(ms)|
        ensures exists j :: 0 <= j < |ms| && EntryOf(ms[j], MessageEntries(ms)[k])
      {
        if k < |MessageEntries(init)| {
          var j :| 0 <= j < |init| && EntryOf(init[j], MessageEntries(init)[k]);
          assert MessageEntries(ms)[k] == MessageEntries(init)[k];
          assert ms[j] == init[j];
        } else {
          assert EntryOf(ms[|ms| - 1], MessageEntries(ms)[k]);
        }
      }
    }
  }

  /**
   * `_extract_ai_messages` returns at most five strings, none longer than 503
   * characters; each is either a message entry or the one entry of the first
   * usable direct attribute.
   */
  lemma AiMessagesShape(p: Payload)
    ensures |AiMessages(p)| <= 5
    ensures forall k :: 0 <= k < |AiMessages(p)| ==> |AiMessages(p)[k]| <= 503
    ensures forall k :: 0 <= k < |AiMessages(p)| ==>
              (exists j :: 0 <= j < |MessagesOf(p)| && EntryOf(MessagesOf(p)[j], AiMessages(p)[k]))
              || AiMessages(p)[k] in AttributeEntry(ContentAttributes(p))
  {
    var ms := MessagesOf(p);
    MessageEntriesSound(ms);
    var all := MessageEntries(ms) + AttributeEntry(ContentAttributes(p));
    forall k | 0 <= k < |AiMessages(p)|
      ensures |AiMessages(p)[k]| <= 503
      ensures (exists j :: 0 <= j < |ms| && EntryOf(ms[j], AiMessages(p)[k]))
              || AiMessages(p)[k] in AttributeEntry(ContentAttributes(p))
    {
      assert AiMessages(p)[k] == all[k];
      if k < |MessageEntries(ms)| {
        var j :| 0 <= j < |ms| && EntryOf(ms[j], MessageEntries(ms)[k]);
      } else {
        assert all[k] == AttributeEntry(ContentAttributes(p))[k - |MessageEntries(ms)|];
      }
    }
  }

  // ---------------------------------------------------------------------
  // _extract_text_content
  // ---------------------------------------------------------------------

  /** A message whose content is a `str` longer than `n` characters. */
  predicate LongText(m: Message, n: nat) {
    m.content.Some? && m.content.value.StrValue? && |m.content.value.s| > n
  }

  /** The content of the last message of more than 50 characters (the reversed scan). */
  function LastLongMessage(ms: seq<Message>): (r: Option<string>)
    ensures r.None? <==> forall j :: 0 <= j < |ms| ==> !LongText(ms[j], 50)
    ensures r.Some? ==> exists j ::
              && 0 <= j < |ms| && LongText(ms[j], 50) && r.value == ms[j].content.value.s
              && forall i :: j < i < |ms| ==> !LongText(ms[i], 50)
  {
    if ms == [] then None
    else if LongText(ms[|ms| - 1], 50) then Some(ms[|ms| - 1].content.value.s)
    else
      var r := LastLongMessage(ms[..|ms| - 1]);
      assert forall j :: 0 <= j < |ms| - 1 ==> ms[j] == ms[..|ms| - 1][j];
      r
  }

  /** What `_extract_text_content` returns. */
  function TextContent(p: Payload): string {
    var fromMessages := LastLongMessage(MessagesOf(p));
    if fromMessages.Some? then Preview(fromMessages.value, 300)
    else if p.dictDump.Some? && |p.dictDump.value| > 100 then Take(p.dictDump.value, 200) + "..."
    else ""
  }

  /**
   * The fallback text is empty exactly when no message carries more than 50
   * characters of text and there is no object dump of more than 100
   * characters; it is never longer than 303 characters.
   */
  lemma TextContentEmptyIff(p: Payload)
    ensures TextContent(p) == "" <==>
              (forall j :: 0 <= j < |MessagesOf(p)| ==> !LongText(MessagesOf(p)[j], 50))
              && (p.dictDump.None? || |p.dictDump.value| <= 100)
    ensures |TextContent(p)| <= 303
  {
    var fromMessages := LastLongMessage(MessagesOf(p));
    if fromMessages.Some? {
      assert |fromMessages.value| > 50;
    }
  }

  /** One step of the reversed scan over the first `i` messages. */
  lemma LastLongMessageStep(ms: seq<Message>, i: nat)
    requires 0 < i <= |ms|
    ensures LastLongMessage(ms[..i]) ==
              if LongText(ms[i - 1], 50) then Some(ms[i - 1].content.value.s) else LastLongMessage(ms[..i - 1])
  {
    assert ms[..i][i - 1] == ms[i - 1];
    assert ms[..i][..i - 1] == ms[..i - 1];
  }

  /** The reversed scan of `_extract_text_content`: stops at the last message of more than 50 characters. */
  method ScanLastLongMessage(ms: seq<Message>) returns (found: Option<string>)
    ensures found == LastLongMessage(ms)
  {
    var i := |ms|;
    assert ms[..i] == ms;
    while i > 0
      invariant 0 <= i <= |ms|
      invariant LastLongMessage(ms) == LastLongMessage(ms[..i])
    {
      LastLongMessageStep(ms, i);
      var msg := ms[i - 1];
      if msg.content.Some? && msg.content.value.StrValue? {
        var s := msg.content.value.s;
        if |s| > 50 {
          return Some(s);
        }
      }
      i := i - 1;
    }
    assert ms[..0] == [];
    return None;
  }

  method ExtractTextContent(p: Payload) returns (r: string)
    ensures r == TextContent(p)
  {
    if p.messages.Some? && |p.messages.value| > 0 {
      var found := ScanLastLongMessage(p.messages.value);
      if found.Some? {
        var s := found.value;
        return Take(s, 300) + (if |s| > 300 then "..." else "");
      }
    }
    if p.dictDump.Some? {
      var dataStr := p.dictDump.value;
      if |dataStr| > 100 {
        return Take(dataStr, 200) + "...";
      }
    }
    return "";
  }

  // ---------------------------------------------------------------------
  // _generate_node_content
  // ---------------------------------------------------------------------

  const ClarifyNode: string := "clarify_with_user"
  const BriefNode: string := "write_research_brief"
  const SupervisorNode: string := "research_supervisor"
  const ReportNode: string := "final_report_generation"

  predicate KnownNode(name: string) {
    name == ClarifyNode || name == BriefNode || name == SupervisorNode || name == ReportNode
  }

  /** The first line of a node's content: the kind-specific `Step {n}` header. */
  function StepHeader(name: string, n: nat): string {
    var step := NatToString(n);
    if name == ClarifyNode then "🔍 Step " + step + ": Analyzing research scope and clarifying requirements"
    else if name == BriefNode then "📝 Step " + step + ": Creating comprehensive research brief and strategy"
    else if name == SupervisorNode then "🔬 Step " + step + ": Conducting deep research using multiple tools and sources"
    else if name == ReportNode then "📊 Step " + step + ": Generating final research report with findings and analysis"
    else GenericHeader(name, n)
  }

  /** The header of a node with no header of its own: its name with `_` as spaces, title-cased. */
  function GenericHeader(name: string, n: nat): string {
    "⚙️ Step " + NatToString(n) + ": Processing " + Title(ReplaceChar(name, '_', ' '))
  }

  /** The line `\n🤖 {tag} {k}: {item}`. */
  function NumberedLine(tag: string, k: nat, item: string): string {
    "\n🤖 " + tag + " " + NatToString(k) + ": " + item
  }

  /** One numbered line per item, numbered from 1 (`for i, msg in enumerate(items)`). */
  function NumberedLines(items: seq<string>, tag: string): string {
    if items == [] then ""
    else NumberedLines(items[..|items| - 1], tag) + NumberedLine(tag, |items|, items[|items| - 1])
  }

  /** The AI-messages block: a titled list of the first `shown` messages, or nothing. */
  function MessagesSection(msgs: seq<string>, heading: string, tag: string, shown: nat): string {
    if msgs == [] then "" else heading + NumberedLines(Take(msgs, shown), tag)
  }

  /** The fallback block, used only when there are no AI messages and the fallback text is not empty. */
  function FallbackSection(msgs: seq<string>, p: Payload, tag: string): string {
    if msgs != [] then ""
    else
      var fallback := TextContent(p);
      if fallback != "" then tag + fallback else ""
  }

  /**
   * An optional field's block: present only when the field is present and not
   * empty, then the tag and the field cut to `bound` characters plus `...`.
   */
  function FieldSection(field: Option<string>, tag: string, bound: nat): (r: string)
    ensures field.None? || field.value == "" ==> r == ""
    ensures field.Some? && field.value != "" ==>
              StartsWith(r, tag) && r[|tag|..] == Preview(field.value, bound)
              && |r| <= |tag| + bound + 3
              && (|field.value| <= bound ==> r == tag + field.value)
  {
    if field.Some? && field.value != "" then
      var r := tag + Preview(field.value, bound);
      assert r[..|tag|] == tag && r[|tag|..] == Preview(field.value, bound);
      r
    else ""
  }

  /** The line of the note at 1-based position `k`, if it is longer than 20 characters, with up to two sources. */
  function FindingLine(k: nat, note: string, scanner: Scanner): string {
    if note != "" && |note| > 20 then
      var sources := Sources(scanner(note));
      "\n🔍 Finding " + NatToString(k) + ": " + Preview(note, 150)
      + (if sources != [] then "\n📎 Sources: " + Join(Take(sources, 2), ", ") else "")
    else ""
  }

  /**
   * A finding line is empty exactly for a note of at most 20 characters.
   * Otherwise it is the numbered note previewed to 150 characters, followed
   * by the first one or two of its sources when it has any.
   */
  lemma FindingLineShape(k: nat, note: string, scanner: Scanner)
    ensures FindingLine(k, note, scanner) == "" <==> |note| <= 20
    ensures |note| > 20 ==>
              var head := "\n🔍 Finding " + NatToString(k) + ": " + Preview(note, 150);
              var sources := Sources(scanner(note));
              var shown := if |sources| < 2 then |sources| else 2;
              && |Preview(note, 150)| <= 153
              && (sources == [] ==> FindingLine(k, note, scanner) == head)
              && (sources != [] ==> 1 <= shown <= 2
                                    && FindingLine(k, note, scanner) == head + "\n📎 Sources: " + Join(sources[..shown], ", "))
  {
    if |note| > 20 {
      assert FindingLine(k, note, scanner)[0] == '\n';
    }
  }

  function FindingLines(notes: seq<string>, scanner: Scanner): string {
    if notes == [] then ""
    else FindingLines(notes[..|notes| - 1], scanner) + FindingLine(|notes|, notes[|notes| - 1], scanner)
  }

  /** The findings block of the supervisor node: the count, then the first three notes. */
  function NotesSection(p: Payload, scanner: Scanner): string {
    match p.notes
    case None => ""
    case Some(notes) =>
      if notes == [] then ""
      else "\n📊 Found " + NatToString(|notes|) + " research findings" + FindingLines(Take(notes, 3), scanner)
  }

  /** The content of a `clarify_with_user` node. */
  function ClarifyContent(p: Payload, n: nat): string {
    var msgs := AiMessages(p);
    StepHeader(ClarifyNode, n) + MessagesSection(msgs, "\n\n💭 AI Clarification Process:", "Message", 3)
    + FallbackSection(msgs, p, "\n💭 AI Decision: ")
  }

  /** The content of a `write_research_brief` node. */
  function BriefContent(p: Payload, n: nat): string {
    var msgs := AiMessages(p);
    StepHeader(BriefNode, n) + MessagesSection(msgs, "\n\n📋 AI Research Brief Generation:", "Brief", 2)
    + FieldSection(p.researchBrief, "\n📄 Final Brief: ", 300)
    + FallbackSection(msgs, p, "\n📋 Research Strategy: ")
  }

  /** The content of a `research_supervisor` node. */
  function SupervisorContent(p: Payload, n: nat, scanner: Scanner): string {
    StepHeader(SupervisorNode, n) + NotesSection(p, scanner)
    + FieldSection(p.compressedResearch, "\n📝 Research Summary: ", 200)
  }

  /** The content of a `final_report_generation` node. */
  function ReportContent(p: Payload, n: nat): string {
    var msgs := AiMessages(p);
    StepHeader(ReportNode, n) + MessagesSection(msgs, "\n\n📄 AI Report Generation:", "Report", 2)
    + FieldSection(p.finalReport, "\n📋 Generated Report: ", 400)
    + FallbackSection(msgs, p, "\n📄 Final Report: ")
  }

  /** The content built for each kind of node, before the general-message step. */
  function KindContent(name: string, p: Payload, n: nat, scanner: Scanner): string {
    if name == ClarifyNode then ClarifyContent(p, n)
    else if name == BriefNode then BriefContent(p, n)
    else if name == SupervisorNode then SupervisorContent(p, n, scanner)
    else if name == ReportNode then ReportContent(p, n)
    else StepHeader(name, n)
  }

  /** The content of the first message with more than 50 characters of text. */
  function FirstLongMessage(ms: seq<Message>): (r: Option<string>)
    ensures r.None? <==> forall j :: 0 <= j < |ms| ==> !LongText(ms[j], 50)
    ensures r.Some? ==> exists j ::
              && 0 <= j < |ms| && LongText(ms[j], 50) && r.value == ms[j].content.value.s
              && forall i :: 0 <= i < j ==> !LongText(ms[i], 50)
  {
    if ms == [] then None
    else if LongText(ms[0], 50) then Some(ms[0].content.value.s)
    else
      var r := FirstLongMessage(ms[1..]);
      assert forall j :: 1 <= j < |ms| ==> ms[j] == ms[1..][j - 1];
      r
  }

  /**
   * The general-message step: when the content so far is a single line and
   * the node has messages, the first long message, previewed to 200 characters.
   */
  function GeneralSection(content: string, p: Payload): string {
    if '\n' !in content && MessagesOf(p) != [] then
      match FirstLongMessage(MessagesOf(p))
      case None => ""
      case Some(s) => "\n💭 Content: " + Preview(s, 200)
    else ""
  }

  /** What `_generate_node_content` returns for a node. */
  function GeneratedContent(name: string, p: Payload, n: nat, scanner: Scanner): string {
    var c := KindContent(name, p, n, scanner);
    c + GeneralSection(c, p)
  }

  lemma NumberedLinesStep(items: seq<string>, tag: string, i: nat)
    requires i < |items|
    ensures NumberedLines(items[..i + 1], tag) == NumberedLines(items[..i], tag) + NumberedLine(tag, i + 1, items[i])
  {
    assert items[..i + 1][..i] == items[..i];
  }

  lemma FindingLinesStep(notes: seq<string>, scanner: Scanner, i: nat)
    requires i < |notes|
    ensures FindingLines(notes[..i + 1], scanner) == FindingLines(notes[..i], scanner) + FindingLine(i + 1, notes[i], scanner)
  {
    assert notes[..i + 1][..i] == notes[..i];
  }

  /** The loop `for i, msg in enumerate(items): content += f"\n🤖 {tag} {i+1}: {msg}"`. */
  method AppendNumbered(content: string, items: seq<string>, tag: string) returns (r: string)
    ensures r == content + NumberedLines(items, tag)
  {
    r := content;
    var i := 0;
    while i < |items|
      invariant 0 <= i <= |items|
      invariant r == content + NumberedLines(items[..i], tag)
    {
      NumberedLinesStep(items, tag, i);
      AppendAssoc(content, NumberedLines(items[..i], tag), NumberedLine(tag, i + 1, items[i]));
      r := r + ("\n🤖 " + tag + " " + NatToString(i + 1) + ": " + items[i]);
      i := i + 1;
    }
    assert items[..i] == items;
  }

  /** `if ai_messages:` the heading, then the first `shown` messages numbered from 1. */
  method AppendMessages(content: string, aiMessages: seq<string>, heading: string, tag: string, shown: nat) returns (r: string)
    ensures r == content + MessagesSection(aiMessages, heading, tag, shown)
  {
    r := content;
    if |aiMessages| > 0 {
      r := AppendNumbered(r + heading, Take(aiMessages, shown), tag);
      AppendAssoc(content, heading, NumberedLines(Take(aiMessages, shown), tag));
    }
  }

  /** One pass of the findings loop: the line for the `k`-th note, or nothing for a short note. */
  method FindingText(k: nat, note: string, scanner: Scanner) returns (line: string)
    ensures line == FindingLine(k, note, scanner)
  {
    line := "";
    if note != "" && |note| > 20 {
      var sources := ExtractSourcesFromText(note, scanner);
      var notePreview := if |note| > 150 then note[..150] + "..." else note;
      line := "\n🔍 Finding " + NatToString(k) + ": " + notePreview;
      if sources != [] {
        line := line + ("\n📎 Sources: " + Join(Take(sources, 2), ", "));
      }
    }
  }

  /** The findings loop of the supervisor node. */
  method AppendFindings(content: string, notes: seq<string>, scanner: Scanner) returns (r: string)
    ensures r == content + FindingLines(notes, scanner)
  {
    r := content;
    var i := 0;
    while i < |notes|
      invariant 0 <= i <= |notes|
      invariant r == content + FindingLines(notes[..i], scanner)
    {
      FindingLinesStep(notes, scanner, i);
      var line := FindingText(i + 1, notes[i], scanner);
      AppendAssoc(content, FindingLines(notes[..i], scanner), line);
      r := r + line;
      i := i + 1;
    }
    assert notes[..i] == notes;
  }

  /** The general-message loop: the first message of more than 50 characters, then `break`. */
  method AppendFirstLongMessage(content: string, ms: seq<Message>) returns (r: string)
    ensures r == content + match FirstLongMessage(ms)
                           case None => ""
                           case Some(s) => "\n💭 Content: " + Preview(s, 200)
  {
    r := content;
    var i := 0;
    while i < |ms|
      invariant 0 <= i <= |ms|
      invariant FirstLongMessage(ms) == FirstLongMessage(ms[i..])
      invariant r == content
    {
      var msg := ms[i];
      if msg.content.Some? && msg.content.value.StrValue? && |msg.content.value.s| > 50 {
        var c := msg.content.value.s;
        var preview := if |c| > 200 then c[..200] + "..." else c;
        r := r + ("\n💭 Content: " + preview);
        return;
      }
      assert ms[i..][1..] == ms[i + 1..];
      i := i + 1;
    }
  }

  method ClarifyNodeContent(p: Payload, n: nat) returns (extracted: string)
    ensures extracted == ClarifyContent(p, n)
  {
    extracted := "🔍 Step " + NatToString(n) + ": Analyzing research scope and clarifying requirements";
    var aiMessages := ExtractAiMessages(p);
    if |aiMessages| > 0 {
      extracted := AppendNumbered(extracted + "\n\n💭 AI Clarification Process:", Take(aiMessages, 3), "Message");
    } else {
      var fallback := ExtractTextContent(p);
      if fallback != "" {
        extracted := extracted + ("\n💭 AI Decision: " + fallback);
      }
    }
  }

  method BriefNodeContent(p: Payload, n: nat) returns (extracted: string)
    ensures extracted == BriefContent(p, n)
  {
    extracted := "📝 Step " + NatToString(n) + ": Creating comprehensive research brief and strategy";
    ghost var header := StepHeader(BriefNode, n);
    assert extracted == header;
    var aiMessages := ExtractAiMessages(p);
    extracted := AppendMessages(extracted, aiMessages, "\n\n📋 AI Research Brief Generation:", "Brief", 2);
    ghost var withMessages := header + MessagesSection(aiMessages, "\n\n📋 AI Research Brief Generation:", "Brief", 2);
    assert extracted == withMessages;
    extracted := AppendField(extracted, p.researchBrief, "\n📄 Final Brief: ", 300);
    extracted := AppendFallback(extracted, aiMessages, p, "\n📋 Research Strategy: ");
  }

  method SupervisorNodeContent(p: Payload, n: nat, scanner: Scanner) returns (extracted: string)
    ensures extracted == SupervisorContent(p, n, scanner)
  {
    extracted := "🔬 Step " + NatToString(n) + ": Conducting deep research using multiple tools and sources";
    ghost var header := StepHeader(SupervisorNode, n);
    assert extracted == header;
    if p.notes.Some? && |p.notes.value| > 0 {
      var notes := p.notes.value;
      var found := "\n📊 Found " + NatToString(|notes|) + " research findings";
      extracted := AppendFindings(extracted + found, Take(notes, 3), scanner);
      AppendAssoc(header, found, FindingLines(Take(notes, 3), scanner));
    }
    assert extracted == header + NotesSection(p, scanner);
    extracted := AppendField(extracted, p.compressedResearch, "\n📝 Research Summary: ", 200);
  }

  method ReportNodeContent(p: Payload, n: nat) returns (extracted: string)
    ensures extracted == ReportContent(p, n)
  {
    extracted := "📊 Step " + NatToString(n) + ": Generating final research report with findings and analysis";
    ghost var header := StepHeader(ReportNode, n);
    assert extracted == header;
    var aiMessages := ExtractAiMessages(p);
    extracted := AppendMessages(extracted, aiMessages, "\n\n📄 AI Report Generation:", "Report", 2);
    ghost var withMessages := header + MessagesSection(aiMessages, "\n\n📄 AI Report Generation:", "Report", 2);
    assert extracted == withMessages;
    extracted := AppendField(extracted, p.finalReport, "\n📋 Generated Report: ", 400);
    extracted := AppendFallback(extracted, aiMessages, p, "\n📄 Final Report: ");
  }

  /** The fallback step: with no AI messages, the text content under `tag`, when there is any. */
  method AppendFallback(content: string, aiMessages: seq<string>, p: Payload, tag: string) returns (r: string)
    ensures r == content + FallbackSection(aiMessages, p, tag)
  {
    r := content;
    if |aiMessages| == 0 {
      var fallback := ExtractTextContent(p);
      if fallback != "" {
        r := r + (tag + fallback);
      }
    }
  }

  /** `if field: content += f"{tag}{field[:bound]}..."` (the ellipsis only past `bound`). */
  method AppendField(content: string, field: Option<string>, tag: string, bound: nat) returns (r: string)
    ensures r == content + FieldSection(field, tag, bound)
  {
    r := content;
    if field.Some? && field.value != "" {
      var value := field.value;
      var shown := if |value| > bound then value[..bound] + "..." else value;
      r := r + (tag + shown);
    }
  }

  /** The general-message step of `_generate_node_content`. */
  method AppendGeneral(content: string, p: Payload) returns (r: string)
    ensures r == content + GeneralSection(content, p)
  {
    r := content;
    if '\n' !in content && p.messages.Some? && |p.messages.value| > 0 {
      r := AppendFirstLongMessage(content, p.messages.value);
    }
  }

  /** The header of a node with no branch of its own. */
  method GenericNodeHeader(name: string, n: nat) returns (extracted: string)
    ensures extracted == GenericHeader(name, n)
  {
    extracted := "⚙️ Step " + NatToString(n) + ": Processing " + Title(ReplaceChar(name, '_', ' '));
  }

  /** The branch on the node name, before the general-message step. */
  method KindNodeContent(name: string, p: Payload, n: nat, scanner: Scanner) returns (extracted: string)
    ensures extracted == KindContent(name, p, n, scanner)
  {
    if name == ClarifyNode {
      extracted := ClarifyNodeContent(p, n);
    } else if name == BriefNode {
      extracted := BriefNodeContent(p, n);
    } else if name == SupervisorNode {
      extracted := SupervisorNodeContent(p, n, scanner);
    } else if name == ReportNode {
      extracted := ReportNodeContent(p, n);
    } else {
      extracted := GenericNodeHeader(name, n);
    }
  }

  method GenerateNodeContent(name: string, p: Payload, n: nat, scanner: Scanner) returns (extracted: string)
    ensures extracted == GeneratedContent(name, p, n, scanner)
  {
    extracted := KindNodeContent(name, p, n, scanner);
    extracted := AppendGeneral(extracted, p);
  }

  // ---------------------------------------------------------------------
  // Properties of the node content
  // ---------------------------------------------------------------------

  lemma PrefixExtend(s: string, h: string, x: string)
    requires StartsWith(s, h)
    ensures StartsWith(s + x, h)
  {
    assert (s + x)[..|h|] == s[..|h|];
  }

  /** Every node's content begins with its `Step {n}` header. */
  lemma HeaderIsPrefix(name: string, p: Payload, n: nat, scanner: Scanner)
    ensures StartsWith(GeneratedContent(name, p, n, scanner), StepHeader(name, n))
  {
    var h := StepHeader(name, n);
    assert StartsWith(h, h);
    var c := KindContent(name, p, n, scanner);
    if name == ClarifyNode {
      var msgs := AiMessages(p);
      var m := MessagesSection(msgs, "\n\n💭 AI Clarification Process:", "Message", 3);
      PrefixExtend(h, h, m);
      PrefixExtend(h + m, h, FallbackSection(msgs, p, "\n💭 AI Decision: "));
    } else if name == BriefNode {
      var msgs := AiMessages(p);
      var m := MessagesSection(msgs, "\n\n📋 AI Research Brief Generation:", "Brief", 2);
      var f := FieldSection(p.researchBrief, "\n📄 Final Brief: ", 300);
      PrefixExtend(h, h, m);
      PrefixExtend(h + m, h, f);
      PrefixExtend(h + m + f, h, FallbackSection(msgs, p, "\n📋 Research Strategy: "));
    } else if name == SupervisorNode {
      var notes := NotesSection(p, scanner);
      PrefixExtend(h, h, notes);
      PrefixExtend(h + notes, h, FieldSection(p.compressedResearch, "\n📝 Research Summary: ", 200));
    } else if name == ReportNode {
      var msgs := AiMessages(p);
      var m := MessagesSection(msgs, "\n\n📄 AI Report Generation:", "Report", 2);
      var f := FieldSection(p.finalReport, "\n📋 Generated Report: ", 400);
      PrefixExtend(h, h, m);
      PrefixExtend(h + m, h, f);
      PrefixExtend(h + m + f, h, FallbackSection(msgs, p, "\n📄 Final Report: "));
    }
    assert StartsWith(c, h);
    PrefixExtend(c, h, GeneralSection(c, p));
  }

  lemma {:induction false} TitleFromSingleLine(s: string, prevCased: bool)
    requires '\n' !in s
    ensures '\n' !in TitleFrom(s, prevCased)
  {
    if s != [] {
      assert s[0] in s;
      assert '\n' !in s[1..] by {
        forall c | c in s[1..] ensures c != '\n' {
          assert c in s;
        }
      }
      TitleFromSingleLine(s[1..], IsCased(s[0]));
    }
  }

  lemma SingleLineConcat(a: string, b: string)
    requires '\n' !in a && '\n' !in b
    ensures '\n' !in a + b
  {
  }

  /** A node name without a line break gives a one-line generic header. */
  lemma GenericHeaderSingleLine(name: string, n: nat)
    requires '\n' !in name
    ensures '\n' !in GenericHeader(name, n)
  {
    var step := NatToString(n);
    assert '\n' !in step;
    var spaced := ReplaceChar(name, '_', ' ');
    assert '\n' !in spaced by {
      forall i | 0 <= i < |spaced| ensures spaced[i] != '\n' {
        assert name[i] in name;
      }
    }
    TitleFromSingleLine(spaced, false);
    SingleLineConcat("⚙️ Step ", step);
    SingleLineConcat("⚙️ Step " + step, ": Processing ");
    SingleLineConcat("⚙️ Step " + step + ": Processing ", Title(spaced));
  }

  /**
   * A node the content builder does not know gets its generic header and
   * then, when it has a message of more than 50 characters, the first such
   * message previewed to 200 characters; nothing else.
   */
  lemma UnknownNodeContent(name: string, p: Payload, n: nat, scanner: Scanner)
    requires !KnownNode(name) && '\n' !in name
    ensures FirstLongMessage(MessagesOf(p)).None? ==> GeneratedContent(name, p, n, scanner) == StepHeader(name, n)
    ensures FirstLongMessage(MessagesOf(p)).Some? ==>
              GeneratedContent(name, p, n, scanner)
              == StepHeader(name, n) + "\n💭 Content: " + Preview(FirstLongMessage(MessagesOf(p)).value, 200)
  {
    assert StepHeader(name, n) == GenericHeader(name, n);
    GenericHeaderSingleLine(name, n);
  }

  /** A payload with no attributes at all. */
  const EmptyPayload: Payload := Payload(false, None, None, None, None, None, None, None, None, None, None, None)

  /** A payload with no attributes has no AI messages and no fallback text. */
  lemma EmptyPayloadHasNothing()
    ensures MessagesOf(EmptyPayload) == [] && AiMessages(EmptyPayload) == [] && TextContent(EmptyPayload) == ""
  {
    assert MessageEntries([]) == [];
    assert AttributeEntry(ContentAttributes(EmptyPayload)) == [];
  }

  /** For a payload with no attributes, each kind of node builds exactly its header. */
  lemma EmptyPayloadKindContent(name: string, n: nat, scanner: Scanner)
    ensures KindContent(name, EmptyPayload, n, scanner) == StepHeader(name, n)
  {
    EmptyPayloadHasNothing();
    if name == ClarifyNode {
      EmptyClarify(n);
    } else if name == BriefNode {
      EmptyBrief(n);
    } else if name == SupervisorNode {
      EmptySupervisor(n, scanner);
    } else if name == ReportNode {
      EmptyReport(n);
    }
  }

  /** Without AI messages and fallback text, the message and fallback blocks are empty. */
  lemma NoMessageSections(p: Payload, heading: string, tag: string, shown: nat, fallbackTag: string)
    requires AiMessages(p) == [] && TextContent(p) == ""
    ensures MessagesSection(AiMessages(p), heading, tag, shown) == ""
    ensures FallbackSection(AiMessages(p), p, fallbackTag) == ""
  {
  }

  lemma EmptyClarify(n: nat)
    requires AiMessages(EmptyPayload) == [] && TextContent(EmptyPayload) == ""
    ensures ClarifyContent(EmptyPayload, n) == StepHeader(ClarifyNode, n)
  {
    var h := StepHeader(ClarifyNode, n);
    NoMessageSections(EmptyPayload, "\n\n💭 AI Clarification Process:", "Message", 3, "\n💭 AI Decision: ");
    assert h + "" + "" == h;
  }

  lemma EmptySupervisor(n: nat, scanner: Scanner)
    ensures SupervisorContent(EmptyPayload, n, scanner) == StepHeader(SupervisorNode, n)
  {
    var h := StepHeader(SupervisorNode, n);
    assert NotesSection(EmptyPayload, scanner) == "";
    assert h + "" + "" == h;
  }

  lemma EmptyBrief(n: nat)
    requires AiMessages(EmptyPayload) == [] && TextContent(EmptyPayload) == ""
    ensures BriefContent(EmptyPayload, n) == StepHeader(BriefNode, n)
  {
    var h := StepHeader(BriefNode, n);
    NoMessageSections(EmptyPayload, "\n\n📋 AI Research Brief Generation:", "Brief", 2, "\n📋 Research Strategy: ");
    assert h + "" + "" + "" == h;
  }

  lemma EmptyReport(n: nat)
    requires AiMessages(EmptyPayload) == [] && TextContent(EmptyPayload) == ""
    ensures ReportContent(EmptyPayload, n) == StepHeader(ReportNode, n)
  {
    var h := StepHeader(ReportNode, n);
    NoMessageSections(EmptyPayload, "\n\n📄 AI Report Generation:", "Report", 2, "\n📄 Final Report: ");
    assert h + "" + "" + "" == h;
  }

  /** For a payload with no attributes, every node's content is exactly its header. */
  lemma EmptyPayloadGivesHeader(name: string, n: nat, scanner: Scanner)
    ensures GeneratedContent(name, EmptyPayload, n, scanner) == StepHeader(name, n)
  {
    EmptyPayloadKindContent(name, n, scanner);
    EmptyPayloadHasNothing();
    assert GeneralSection(StepHeader(name, n), EmptyPayload) == "";
  }
}
