/** Messages of a model transcript, and the repair passes as functions on sequences of them. */
module Transcript {
  import opened Wrappers
  import opened Strings
  import opened RuntimeContext

  datatype Role = System | User | Assistant | Tool | Other

  /** The `name` field of a tool call: missing, of another type, or a string. */
  datatype Name = Missing | NotAString(repr: string) | Name(text: string)

  /**
   One entry of `tool_calls`. `id` is the id as text, "" when it is missing or falsy;
   `function` is the name inside the nested mapping, when there is one.
   */
  datatype Call = Junk | Call(id: string, function_: Option<Name>, name: Name)

  /** The `_meta` mapping: its runtime-context marker, the provider-boundary flag, and the rest. */
  datatype Meta = Meta(marker: Option<Marker>, boundary: bool, entries: map<string, string>)

  /** `callId` is the tool_call_id as text, "" when it is missing or falsy. */
  datatype Message = Message(
    role: Role, content: Content, calls: seq<Call>, callId: string, name: string,
    meta: Option<Meta>, hidden: bool)

  const BACKFILL_CONTENT := "[Tool result unavailable — call was interrupted or lost]"
  const PLACEHOLDER_TEXT := "[Previous assistant message omitted.]"

  // ----- reading messages ---------------------------------------------------------

  predicate ValidCall(call: Call) {
    call.Call? &&
    var name := if call.function_.Some? then call.function_.value else call.name;
    name.Name? && name.text != ""
  }

  /** The name a synthetic result carries. */
  function CallName(call: Call): string
    requires call.Call?
  {
    if call.function_.None? then ""
    else match call.function_.value
         case Missing => ""
         case NotAString(repr) => repr
         case Name(text) => text
  }

  function ValidCalls(calls: seq<Call>): seq<Call> {
    if calls == [] then []
    else (if ValidCall(calls[0]) then [calls[0]] else []) + ValidCalls(calls[1..])
  }

  /** The calls that declare an id. */
  function Declaring(calls: seq<Call>): seq<Call> {
    if calls == [] then []
    else (if calls[0].Call? && calls[0].id != "" then [calls[0]] else []) + Declaring(calls[1..])
  }

  function DeclaredBy(m: Message): set<string> {
    if m.role == Assistant then set c | c in m.calls && c.Call? && c.id != "" :: c.id else {}
  }

  predicate IsResult(m: Message, id: string) {
    m.role == Tool && m.callId == id && id != ""
  }

  predicate Truthy(content: Content) {
    match content
    case Absent => false
    case Text(text) => text != ""
    case Blocks(blocks) => blocks != []
  }

  predicate PlaceholderText(m: Message) {
    m.content.Text? && Strip(m.content.text) == PLACEHOLDER_TEXT
  }

  // ----- the passes --------------------------------------------------------------

  predicate StrayPlaceholder(m: Message) {
    m.role == Assistant && PlaceholderText(m) && m.calls == []
  }

  /** `strip_placeholder_assistant_messages`. */
  function StripPlaceholders(ms: seq<Message>): seq<Message> {
    if ms == [] then []
    else
      var k := |ms| - 1;
      StripPlaceholders(ms[..k]) + if StrayPlaceholder(ms[k]) then [] else [ms[k]]
  }

  /** What `strip_malformed_tool_calls` keeps of one message. */
  function WellFormed(m: Message): seq<Message> {
    if m.role != Assistant || |ValidCalls(m.calls)| == |m.calls| then [m]
    else if ValidCalls(m.calls) == [] && !Truthy(m.content) then []
    else [m.(calls := ValidCalls(m.calls))]
  }

  function StripMalformed(ms: seq<Message>): seq<Message> {
    if ms == [] then [] else StripMalformed(ms[..|ms| - 1]) + WellFormed(ms[|ms| - 1])
  }

  function Declared(ms: seq<Message>): set<string> {
    if ms == [] then {} else Declared(ms[..|ms| - 1]) + DeclaredBy(ms[|ms| - 1])
  }

  /** The ids of the tool results that `drop_orphan_tool_results` keeps. */
  function Fulfilled(ms: seq<Message>): set<string>
    decreases |ms|, 0
  {
    if ms == [] then {}
    else
      var k := |ms| - 1;
      Fulfilled(ms[..k]) + if ms[k].role == Tool && Kept(ms, k) then {ms[k].callId} else {}
  }

  /** A result is kept if its id was declared before and not answered yet. */
  predicate Kept(ms: seq<Message>, i: nat)
    requires i < |ms|
    decreases i, 1
  {
    ms[i].role == Tool ==>
      ms[i].callId != "" && ms[i].callId in Declared(ms[..i]) && ms[i].callId !in Fulfilled(ms[..i])
  }

  function DropOrphans(ms: seq<Message>): seq<Message> {
    if ms == [] then []
    else
      var k := |ms| - 1;
      DropOrphans(ms[..k]) + if Kept(ms, k) then [ms[k]] else []
  }

  function AnsweredIds(ms: seq<Message>): set<string> {
    set m | m in ms && m.role == Tool && m.callId != "" :: m.callId
  }

  function Synthetic(call: Call): Message
    requires call.Call?
  {
    Message(Tool, Text(BACKFILL_CONTENT), [], call.id, CallName(call), None, false)
  }

  /** One synthetic result for each call without an answer, in call order. */
  function SyntheticRows(calls: seq<Call>, answered: set<string>): seq<Message> {
    if calls == [] then []
    else
      (if calls[0].Call? && calls[0].id != "" && calls[0].id !in answered then [Synthetic(calls[0])] else [])
      + SyntheticRows(calls[1..], answered)
  }

  /** How many tool messages `ms` begins with. */
  function ToolRun(ms: seq<Message>): nat
    ensures ToolRun(ms) <= |ms|
  {
    if ms == [] || ms[0].role != Tool then 0 else 1 + ToolRun(ms[1..])
  }

  /** After each assistant's block of tool results, a synthetic result for each of its calls nobody answered. */
  function Fill(ms: seq<Message>, answered: set<string>): seq<Message>
    decreases |ms|
  {
    if ms == [] then []
    else if ms[0].role == Assistant then
      var run := ToolRun(ms[1..]);
      ms[..run + 1] + SyntheticRows(ms[0].calls, answered) + Fill(ms[run + 1..], answered)
    else [ms[0]] + Fill(ms[1..], answered)
  }

  function Backfill(ms: seq<Message>): seq<Message> {
    Fill(ms, AnsweredIds(ms))
  }

  /** The four structural passes of `prepare_for_model`, in order. */
  function Repair(ms: seq<Message>): seq<Message> {
    Backfill(DropOrphans(StripMalformed(StripPlaceholders(ms))))
  }

  /** Rewrites a tool result's content; the arguments are call id, tool name and content. */
  type Normalizer = (string, string, Content) -> Content

  function Budgeted(ms: seq<Message>, normalize: Normalizer, fallback: nat -> string): seq<Message> {
    if ms == [] then []
    else
      var k := |ms| - 1;
      Budgeted(ms[..k], normalize, fallback) + [BudgetedMessage(ms[k], k, normalize, fallback)]
  }

  /** `fallback(i)` is the id used for a result at index `i` that carries none. */
  function BudgetedMessage(m: Message, i: nat, normalize: Normalizer, fallback: nat -> string): Message {
    if m.role != Tool then m
    else m.(content := normalize(if m.callId != "" then m.callId else fallback(i),
                                 if m.name != "" then m.name else "tool", m.content))
  }
}
