/**
  The shared dispatch state of src/rbx_studio_server.rs and the critical sections of the
  handlers that change it. The state sits behind a mutex in the source; each locked section
  is one method here, and a handler that awaits between two locked sections is two methods.
  The follower's relay loop is the exception: one call runs whole iterations (pop, forward,
  remove), see `DudProxyLoop`.
 */
module Server {
  import opened Wrappers
  import opened Dispatch
  import opened ProxyRelay

  /** HTTP 423 (LOCKED): the plugin's "no work yet, poll again" answer. */
  const LOCKED: nat := 423
  const OK: nat := 200

  /** The answer to a poll on `/request`: a command as JSON, or no work with an empty body. */
  datatype PollReply = Task(command: ToolArguments) | NoWork
  {
    function Status(): nat
    {
      if Task? then OK else LOCKED
    }
  }

  /**
    The failures a handler reports; src/error.rs renders each of them as HTTP 500
    "Something went wrong".
   */
  datatype ServerError =
    | UnknownId          // "Unknown ID"
    | MissingProxyId     // "Got proxy command with no id"
    | NoResponse         // "Couldn't receive response"
    | HostFailure(message: string)

  class AppState {
    /** Commands not yet handed to the plugin or relayed, oldest first. */
    var processQueue: seq<ToolArguments>
    /** The result channel of every command whose result is still awaited. */
    var outputMap: map<Uuid, Sender>
    /** Every id that has entered this state; drawn UUIDs are taken never to repeat one. */
    ghost var issued: set<Uuid>

    ghost predicate Valid()
      reads this
    {
      && Identified(processQueue)
      && QueuedIds(processQueue) <= issued
      && outputMap.Keys <= issued
    }

    /** The follower's invariant: every queued command has its own pending entry. */
    ghost predicate Tracked()
      reads this
    {
      Awaited(processQueue, outputMap)
    }

    constructor ()
      ensures Valid() && Tracked()
      ensures processQueue == [] && outputMap == map[] && issued == {}
    {
      processQueue := [];
      outputMap := map[];
      issued := {};
    }

    /**
      The first locked section of a tool call (`generic_tool_run`): wrap the arguments with a
      newly drawn id, append the envelope at the tail and register the call's result channel.
     */
    method StartToolRun(args: ToolArgumentValues, drawn: Uuid, tx: Sender) returns (id: Uuid)
      requires Valid() && drawn !in issued
      modifies this
      ensures Valid() && issued == old(issued) + {id}
      ensures id == drawn
      ensures processQueue == old(processQueue) + [ToolArguments(args, Some(id))]
      ensures outputMap == old(outputMap)[id := tx]
      ensures old(Tracked()) ==> Tracked()
    {
      var created := NewToolArguments(args, drawn);
      var command := created.0;
      id := created.1;
      QueuedIdsAppend(processQueue, command);
      processQueue := processQueue + [command];
      outputMap := outputMap[id := tx];
      issued := issued + {id};
    }

    /**
      The end of a tool call, after its result channel yielded `received` (`None` when every
      sender was dropped). A received value, success or error, becomes a tool result returned
      as a protocol-level success, and the pending entry is removed (a no-op if it is gone).
      When nothing was received the call fails before the second locked section.
     */
    method FinishToolRun(id: Uuid, received: Option<HostResult>) returns (r: Result<CallToolResult, ToolError>)
      requires Valid()
      modifies this
      ensures Valid() && issued == old(issued)
      ensures processQueue == old(processQueue)
      ensures received.None? ==> r == Failure(InternalError(COULD_NOT_RECEIVE)) && outputMap == old(outputMap)
      ensures received.Some? ==> r == Success(ToCallToolResult(received.value)) && outputMap == old(outputMap) - {id}
      ensures old(Tracked()) && id !in QueuedIds(processQueue) ==> Tracked()
    {
      if received.None? {
        return Failure(InternalError(COULD_NOT_RECEIVE));
      }
      outputMap := outputMap - {id};
      r := Success(ToCallToolResult(received.value));
    }

    /**
      One locked section of the plugin's long poll on `/request`: pop the head of the queue,
      or report that there is no work. The pending map is not touched.
     */
    method RequestHandler() returns (reply: PollReply)
      requires Valid()
      modifies this
      ensures Valid() && issued == old(issued)
      ensures outputMap == old(outputMap)
      ensures old(processQueue) == [] ==> reply == NoWork && processQueue == []
      ensures old(processQueue) != [] ==> reply == Task(old(processQueue)[0]) && processQueue == old(processQueue)[1..]
      ensures old(Tracked()) ==> Tracked()
    {
      if processQueue == [] {
        return NoWork;
      }
      reply := Task(processQueue[0]);
      QueuedIdsTail(processQueue);
      if Tracked() {
        AwaitedAfterPop(processQueue, outputMap);
      }
      processQueue := processQueue[1..];
    }

    /**
      A result posted on `/response`: an id without a pending entry fails with "Unknown ID"
      and changes nothing; otherwise exactly that entry is removed and the response is sent,
      as a success, on its channel. The queue is not touched.
     */
    method ResponseHandler(payload: RunCommandResponse) returns (r: Result<Delivery, ServerError>)
      requires Valid()
      modifies this
      ensures Valid() && issued == old(issued)
      ensures processQueue == old(processQueue)
      ensures payload.id !in old(outputMap) ==> r == Failure(UnknownId) && outputMap == old(outputMap)
      ensures payload.id in old(outputMap) ==>
                && r == Success(Delivery(old(outputMap)[payload.id], Success(payload.response)))
                && outputMap == old(outputMap) - {payload.id}
      ensures payload.id !in outputMap
      ensures old(Tracked()) && payload.id !in QueuedIds(processQueue) ==> Tracked()
    {
      if payload.id !in outputMap {
        return Failure(UnknownId);
      }
      var tx := outputMap[payload.id];
      outputMap := outputMap - {payload.id};
      r := Success(Delivery(tx, Success(payload.response)));
    }

    /**
      The first locked section of `/proxy`: a forwarded command without an id is rejected
      before anything changes; otherwise it is appended at the tail and its result channel
      registered, replacing any entry already pending under that id.
     */
    method ProxyEnqueue(command: ToolArguments, tx: Sender) returns (r: Result<Uuid, ServerError>)
      requires Valid()
      modifies this
      ensures Valid()
      ensures command.id.None? ==>
                && r == Failure(MissingProxyId)
                && processQueue == old(processQueue) && outputMap == old(outputMap) && issued == old(issued)
      ensures command.id.Some? ==>
                && r == Success(command.id.value)
                && processQueue == old(processQueue) + [command]
                && outputMap == old(outputMap)[command.id.value := tx]
                && issued == old(issued) + {command.id.value}
      ensures old(Tracked()) && command.id.Some? && command.id.value !in QueuedIds(old(processQueue)) ==> Tracked()
    {
      if command.id.None? {
        return Failure(MissingProxyId);
      }
      var id := command.id.value;
      QueuedIdsAppend(processQueue, command);
      processQueue := processQueue + [command];
      outputMap := outputMap[id := tx];
      issued := issued + {id};
      r := Success(id);
    }

    /**
      The end of `/proxy`, after the command's channel yielded `received`: a success text
      removes the pending entry and is answered with a result message carrying the same id;
      a closed channel or an error text fails before the second locked section.
     */
    method ProxyFinish(id: Uuid, received: Option<HostResult>) returns (r: Result<RunCommandResponse, ServerError>)
      requires Valid()
      modifies this
      ensures Valid() && issued == old(issued)
      ensures processQueue == old(processQueue)
      ensures received.None? ==> r == Failure(NoResponse) && outputMap == old(outputMap)
      ensures received.Some? && received.value.Failure? ==>
                r == Failure(HostFailure(received.value.error)) && outputMap == old(outputMap)
      ensures received.Some? && received.value.Success? ==>
                r == Success(RunCommandResponse(received.value.value, id)) && outputMap == old(outputMap) - {id}
      ensures old(Tracked()) && id !in QueuedIds(processQueue) ==> Tracked()
    {
      if received.None? {
        return Failure(NoResponse);
      }
      match received.value
      case Failure(e) =>
        return Failure(HostFailure(e));
      case Success(response) =>
        outputMap := outputMap - {id};
        r := Success(RunCommandResponse(response, id));
    }

    /**
      The follower's relay loop (`dud_proxy_loop`), over the outcomes of the forwards it gets
      to make before it exits: each turn pops the head command and forwards it; a reply
      removes the command's pending entry and sends the reply on its channel, a transport
      failure leaves the entry in place. The loop stops when the queue is empty (where the
      source waits for the next enqueue) or the outcomes are used up.
      Each iteration runs its two locked sections and the awaited forward between them as one
      step. On a follower the only other operation that can run in between is a tool call,
      which appends under a fresh id and cannot touch the command in flight; a call with one
      outcome is one iteration, so interleavings at iteration boundaries stay expressible.
     */
    method DudProxyLoop(outcomes: seq<ForwardOutcome>) returns (sent: seq<Delivery>)
      requires Valid() && Tracked()
      modifies this
      ensures Valid() && Tracked() && issued == old(issued)
      ensures RelayState(processQueue, outputMap, sent) == Relay(old(processQueue), old(outputMap), outcomes)
    {
      sent := [];
      var i := 0;
      while i < |outcomes| && processQueue != []
        invariant 0 <= i <= |outcomes|
        invariant Valid() && Tracked() && issued == old(issued)
        invariant Relay(old(processQueue), old(outputMap), outcomes)
               == var rest := Relay(processQueue, outputMap, outcomes[i..]);
                  RelayState(rest.queue, rest.pending, sent + rest.sent)
        decreases |outcomes| - i
      {
        var entry := processQueue[0];
        var id := entry.id.value;
        RelayHead(processQueue, outputMap, outcomes[i..]);
        QueuedIdsTail(processQueue);
        assert outcomes[i..][0] == outcomes[i] && outcomes[i..][1..] == outcomes[i + 1..];
        processQueue := processQueue[1..];
        match outcomes[i] {
          case TransportFailure =>
          case Replied(v) =>
            var tx := outputMap[id];
            outputMap := outputMap - {id};
            sent := sent + [Delivery(tx, v)];
        }
        i := i + 1;
      }
    }
  }
}
