/**
  The command envelope and the values that flow through the shared dispatch state of
  src/rbx_studio_server.rs: tool arguments, ids, result channels and tool results.
 */
module Dispatch {
  import opened Wrappers

  /** A version-4 UUID, a 128-bit value. */
  type Uuid = x: int | 0 <= x < 0x1_0000_0000_0000_0000_0000_0000_0000_0000

  /** Rust's `u32`. */
  type U32 = x: int | 0 <= x < 0x1_0000_0000

  /** The four tools a client can call; each becomes one command for the Studio plugin. */
  datatype ToolArgumentValues =
    | RunCode(command: string)
    | InsertModel(query: string)
    | DeletePart(partName: string)
    | GetProjectStructure(detail: string, maxDepth: Option<U32>, rootPath: Option<string>)

  /** The command envelope: the tool arguments and the id that correlates the result. */
  datatype ToolArguments = ToolArguments(args: ToolArgumentValues, id: Option<Uuid>)

  /** The result message the plugin (or the owning server) sends back for a command. */
  datatype RunCommandResponse = RunCommandResponse(response: string, id: Uuid)

  /** The sending half of one result channel, named by the channel it feeds. */
  datatype Sender = Sender(channel: nat)

  /** What travels on a result channel: the host's text, or an error text. */
  type HostResult = Result<string, string>

  /** One send on a result channel: the channel and the value delivered to its receiver. */
  datatype Delivery = Delivery(to: Sender, value: HostResult)

  /** Gives an envelope a newly drawn id; `drawn` stands for the value `Uuid::new_v4` draws. */
  function WithId(command: ToolArguments, drawn: Uuid): (r: (ToolArguments, Uuid))
    ensures r.0.id == Some(r.1) && r.0.args == command.args
    ensures r.1 == drawn
  {
    (ToolArguments(command.args, Some(drawn)), drawn)
  }

  /** Wraps tool arguments into an envelope carrying a drawn id, and returns that id too. */
  function NewToolArguments(args: ToolArgumentValues, drawn: Uuid): (r: (ToolArguments, Uuid))
    ensures r.0 == ToolArguments(args, Some(r.1))
    ensures r.1 == drawn
  {
    WithId(ToolArguments(args, None), drawn)
  }

  /** The tool-level result an MCP client sees: text content and an error flag. */
  datatype CallToolResult = CallToolResult(content: seq<string>, isError: bool)

  /** A protocol-level error of the tool server (rmcp's `ErrorData`). */
  datatype ToolError = InternalError(message: string)

  const COULD_NOT_RECEIVE := "Couldn't receive response"

  /** Reads back the host result a tool result was made from. */
  function FromCallToolResult(t: CallToolResult): HostResult
    requires |t.content| == 1
  {
    if t.isError then Failure(t.content[0]) else Success(t.content[0])
  }

  /**
    Translates what the host sent into a tool result: success text becomes a successful
    tool result, error text an error tool result, and nothing is lost on the way.
   */
  function ToCallToolResult(r: HostResult): (t: CallToolResult)
    ensures t.isError <==> r.Failure?
    ensures |t.content| == 1 && FromCallToolResult(t) == r
  {
    match r
    case Success(text) => CallToolResult([text], false)
    case Failure(text) => CallToolResult([text], true)
  }

  /** The ids carried by the envelopes of a queue. */
  function QueuedIds(q: seq<ToolArguments>): set<Uuid>
  {
    set i | 0 <= i < |q| && q[i].id.Some? :: q[i].id.value
  }

  /** Every envelope of the queue carries an id. */
  ghost predicate Identified(q: seq<ToolArguments>)
  {
    forall i :: 0 <= i < |q| ==> q[i].id.Some?
  }

  /**
    Every queued envelope has an id, no two share one, and each id has a pending
    result channel: the state under which the relay loop's `unwrap`s cannot fail.
   */
  ghost predicate Awaited(q: seq<ToolArguments>, pending: map<Uuid, Sender>)
  {
    && Identified(q)
    && (forall i :: 0 <= i < |q| ==> q[i].id.value in pending)
    && (forall i, j :: 0 <= i < j < |q| ==> q[i].id != q[j].id)
  }

  /** Popping the head adds no id. */
  lemma QueuedIdsTail(q: seq<ToolArguments>)
    requires q != []
    ensures QueuedIds(q[1..]) <= QueuedIds(q)
  {
  }

  /** Appending an envelope adds its id, if it has one. */
  lemma QueuedIdsAppend(q: seq<ToolArguments>, e: ToolArguments)
    ensures QueuedIds(q + [e]) == QueuedIds(q) + (if e.id.Some? then {e.id.value} else {})
  {
    var r := q + [e];
    forall x | x in QueuedIds(r)
      ensures x in QueuedIds(q) + (if e.id.Some? then {e.id.value} else {})
    {
      var i :| 0 <= i < |r| && r[i].id.Some? && r[i].id.value == x;
      if i < |q| { assert q[i] == r[i]; }
    }
    forall x | x in QueuedIds(q) ensures x in QueuedIds(r) {
      var i :| 0 <= i < |q| && q[i].id.Some? && q[i].id.value == x;
      assert r[i] == q[i];
    }
    if e.id.Some? { assert r[|q|] == e; }
  }

  /** Removing the head envelope, with or without its pending entry, keeps the invariant. */
  lemma AwaitedAfterPop(q: seq<ToolArguments>, pending: map<Uuid, Sender>)
    requires q != [] && Awaited(q, pending)
    ensures Awaited(q[1..], pending)
    ensures Awaited(q[1..], pending - {q[0].id.value})
  {
  }
}
