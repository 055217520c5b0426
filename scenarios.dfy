/**
  Client code driving one dispatch state through whole command lifecycles, as the handlers
  are called in turn by the MCP tool calls, the Studio plugin and a follower bridge.
 */
module Scenarios {
  import opened Wrappers
  import opened Dispatch
  import opened ProxyRelay
  import opened Server

  /**
    A tool call whose command the plugin polls and answers with "2": the call resolves to
    a successful tool result "2", and posting the same id again is rejected.
   */
  method RoundTrip(args: ToolArgumentValues, u1: Uuid, tx: Sender)
    returns (polled: PollReply, posted: Result<Delivery, ServerError>, answer: Result<CallToolResult, ToolError>,
             again: Result<Delivery, ServerError>)
    ensures polled == Task(ToolArguments(args, Some(u1)))
    ensures posted == Success(Delivery(tx, Success("2")))
    ensures answer == Success(CallToolResult(["2"], false))
    ensures again == Failure(UnknownId)
  {
    var state := new AppState();
    var id := state.StartToolRun(args, u1, tx);
    polled := state.RequestHandler();
    posted := state.ResponseHandler(RunCommandResponse("2", id));
    answer := state.FinishToolRun(id, Some(posted.value.value));
    again := state.ResponseHandler(RunCommandResponse("2", id));
  }

  /**
    With one tool call pending, a result for an id that was never issued is rejected and
    leaves that call pending; the poll that takes the command off the queue then finds it empty.
   */
  method StaleResult(args: ToolArgumentValues, u1: Uuid, tx: Sender, stale: Uuid)
    returns (posted: Result<Delivery, ServerError>, pending: map<Uuid, Sender>, first: PollReply, second: PollReply)
    requires stale != u1
    ensures posted == Failure(UnknownId)
    ensures pending == map[u1 := tx]
    ensures first == Task(ToolArguments(args, Some(u1)))
    ensures second == NoWork && second.Status() == LOCKED
  {
    var state := new AppState();
    var _ := state.StartToolRun(args, u1, tx);
    posted := state.ResponseHandler(RunCommandResponse("x", stale));
    pending := state.outputMap;
    first := state.RequestHandler();
    second := state.RequestHandler();
  }

  /** Two tool calls are served to the plugin in the order they were made, then there is no work. */
  method FirstInFirstOut(a: ToolArgumentValues, b: ToolArgumentValues, ua: Uuid, ub: Uuid, ta: Sender, tb: Sender)
    returns (first: PollReply, second: PollReply, third: PollReply)
    requires ua != ub
    ensures first == Task(ToolArguments(a, Some(ua)))
    ensures second == Task(ToolArguments(b, Some(ub)))
    ensures third == NoWork
  {
    var state := new AppState();
    var _ := state.StartToolRun(a, ua, ta);
    var _ := state.StartToolRun(b, ub, tb);
    first := state.RequestHandler();
    second := state.RequestHandler();
    third := state.RequestHandler();
  }

  /**
    A follower with two queued tool calls: forwarding the first fails in transport, the
    second gets the reply "x". Only the second call's channel receives anything, and only
    the first call is still pending.
   */
  method Relayed(a: ToolArgumentValues, b: ToolArgumentValues, ua: Uuid, ub: Uuid, ta: Sender, tb: Sender)
    returns (sent: seq<Delivery>, pending: map<Uuid, Sender>, left: seq<ToolArguments>)
    requires ua != ub
    ensures sent == [Delivery(tb, Success("x"))]
    ensures pending == map[ua := ta]
    ensures left == []
  {
    var state := new AppState();
    var _ := state.StartToolRun(a, ua, ta);
    var _ := state.StartToolRun(b, ub, tb);
    ghost var q, m := state.processQueue, state.outputMap;
    var outcomes := [TransportFailure, Replied(Success("x"))];
    sent := state.DudProxyLoop(outcomes);
    assert q[1..][1..] == [] && outcomes[1..][1..] == [];
    assert m - {ub} == map[ua := ta];
    pending, left := state.outputMap, state.processQueue;
  }

  /**
    The owner serving a follower's forwarded command: a command without an id is refused
    and leaves nothing queued; one with an id is polled by the plugin, answered, and the
    `/proxy` call returns the answer under the same id.
   */
  method Proxied(args: ToolArgumentValues, u: Uuid, tx: Sender)
    returns (refused: Result<Uuid, ServerError>, polled: PollReply, reply: Result<RunCommandResponse, ServerError>)
    ensures refused == Failure(MissingProxyId)
    ensures polled == Task(ToolArguments(args, Some(u)))
    ensures reply == Success(RunCommandResponse("x", u))
  {
    var state := new AppState();
    refused := state.ProxyEnqueue(ToolArguments(args, None), tx);
    var accepted := state.ProxyEnqueue(ToolArguments(args, Some(u)), tx);
    polled := state.RequestHandler();
    var posted := state.ResponseHandler(RunCommandResponse("x", u));
    reply := state.ProxyFinish(u, Some(posted.value.value));
  }
}
