/**
  Specification of the follower's relay loop (`dud_proxy_loop` in src/rbx_studio_server.rs):
  a bridge that could not bind the plugin port pops its own queued commands in order and
  forwards each to the owning bridge; a reply completes the command's pending entry, a
  transport failure leaves the entry in place.
 */
module ProxyRelay {
  import opened Wrappers
  import opened Dispatch

  /**
    What forwarding one command to the owner's `/proxy` endpoint gave: the request could not
    be sent, or a reply came back and decoding its body gave the response text or an error text.
   */
  datatype ForwardOutcome = TransportFailure | Replied(parsed: HostResult)

  /** The follower's queue and pending map after relaying, and the sends it made. */
  datatype RelayState = RelayState(queue: seq<ToolArguments>, pending: map<Uuid, Sender>, sent: seq<Delivery>)

  /** How many commands the loop forwards: one per outcome, while the queue lasts. */
  function Steps(q: seq<ToolArguments>, outcomes: seq<ForwardOutcome>): nat
  {
    if |q| <= |outcomes| then |q| else |outcomes|
  }

  /** The relay loop run over `outcomes`, as a function of the queue and pending map it starts from. */
  ghost function Relay(q: seq<ToolArguments>, pending: map<Uuid, Sender>, outcomes: seq<ForwardOutcome>): RelayState
    requires Awaited(q, pending)
    decreases |outcomes|
  {
    if q == [] || outcomes == [] then RelayState(q, pending, [])
    else
      AwaitedAfterPop(q, pending);
      var id := q[0].id.value;
      match outcomes[0]
      case TransportFailure => Relay(q[1..], pending, outcomes[1..])
      case Replied(v) =>
        var rest := Relay(q[1..], pending - {id}, outcomes[1..]);
        rest.(sent := [Delivery(pending[id], v)] + rest.sent)
  }

  /** One turn of the relay: the head command is forwarded, then the rest are relayed. */
  lemma RelayHead(q: seq<ToolArguments>, pending: map<Uuid, Sender>, outcomes: seq<ForwardOutcome>)
    requires Awaited(q, pending) && q != [] && outcomes != []
    ensures Awaited(q[1..], pending) && Awaited(q[1..], pending - {q[0].id.value})
    ensures outcomes[0].TransportFailure? ==> Relay(q, pending, outcomes) == Relay(q[1..], pending, outcomes[1..])
    ensures outcomes[0].Replied? ==>
              var rest := Relay(q[1..], pending - {q[0].id.value}, outcomes[1..]);
              Relay(q, pending, outcomes) == rest.(sent := [Delivery(pending[q[0].id.value], outcomes[0].parsed)] + rest.sent)
  {
    AwaitedAfterPop(q, pending);
  }

  /** The ids of the forwarded commands that got a reply. */
  ghost function RepliedIds(q: seq<ToolArguments>, outcomes: seq<ForwardOutcome>): set<Uuid>
    requires Identified(q)
  {
    set k | 0 <= k < Steps(q, outcomes) && outcomes[k].Replied? :: q[k].id.value
  }

  /** How many of the outcomes are replies. */
  function ReplyCount(outcomes: seq<ForwardOutcome>): nat
  {
    if outcomes == [] then 0
    else (if outcomes[0].Replied? then 1 else 0) + ReplyCount(outcomes[1..])
  }

  /** FIFO: the loop consumes the queue from its head, in order, and leaves exactly the rest. */
  lemma {:induction false} RelayQueue(q: seq<ToolArguments>, pending: map<Uuid, Sender>, outcomes: seq<ForwardOutcome>)
    requires Awaited(q, pending)
    ensures Relay(q, pending, outcomes).queue == q[Steps(q, outcomes)..]
    decreases |outcomes|
  {
    if q != [] && outcomes != [] {
      AwaitedAfterPop(q, pending);
      var id := q[0].id.value;
      var next := if outcomes[0].Replied? then pending - {id} else pending;
      RelayQueue(q[1..], next, outcomes[1..]);
      assert q[1..][Steps(q[1..], outcomes[1..])..] == q[Steps(q, outcomes)..];
    }
  }

  /** The replied ids, split into the head command and the rest. */
  lemma RepliedIdsStep(q: seq<ToolArguments>, outcomes: seq<ForwardOutcome>)
    requires q != [] && outcomes != [] && Identified(q)
    ensures Identified(q[1..])
    ensures RepliedIds(q, outcomes)
         == (if outcomes[0].Replied? then {q[0].id.value} else {}) + RepliedIds(q[1..], outcomes[1..])
  {
  }

  /**
    Exactly the forwarded commands that got a reply lose their pending entry; every other
    entry, including those whose forward failed in transport, stays as it was.
   */
  lemma {:induction false} RelayPending(q: seq<ToolArguments>, pending: map<Uuid, Sender>, outcomes: seq<ForwardOutcome>)
    requires Awaited(q, pending)
    ensures Relay(q, pending, outcomes).pending == pending - RepliedIds(q, outcomes)
    decreases |outcomes|
  {
    if q != [] && outcomes != [] {
      AwaitedAfterPop(q, pending);
      RepliedIdsStep(q, outcomes);
      var id := q[0].id.value;
      var next := if outcomes[0].Replied? then pending - {id} else pending;
      RelayPending(q[1..], next, outcomes[1..]);
      if outcomes[0].Replied? {
        assert pending - {id} - RepliedIds(q[1..], outcomes[1..]) == pending - RepliedIds(q, outcomes);
      } else {
        assert RepliedIds(q, outcomes) == RepliedIds(q[1..], outcomes[1..]);
      }
    }
  }

  /** A command whose forward failed in transport keeps its pending entry: its tool call is left waiting. */
  lemma RelayKeepsFailed(q: seq<ToolArguments>, pending: map<Uuid, Sender>, outcomes: seq<ForwardOutcome>, k: nat)
    requires Awaited(q, pending)
    requires k < Steps(q, outcomes) && outcomes[k].TransportFailure?
    ensures q[k].id.value in Relay(q, pending, outcomes).pending
    ensures Relay(q, pending, outcomes).pending[q[k].id.value] == pending[q[k].id.value]
  {
    RelayPending(q, pending, outcomes);
    forall j | 0 <= j < Steps(q, outcomes) && outcomes[j].Replied? ensures q[j].id.value != q[k].id.value {
      assert j != k;
    }
    assert q[k].id.value !in RepliedIds(q, outcomes);
  }

  /**
    Relay transparency: every forwarded command that got a reply has that reply delivered,
    once, to the result channel that was pending for its id; nothing else is sent.
   */
  lemma {:induction false} RelayDelivers(q: seq<ToolArguments>, pending: map<Uuid, Sender>, outcomes: seq<ForwardOutcome>)
    requires Awaited(q, pending)
    ensures |Relay(q, pending, outcomes).sent| == ReplyCount(outcomes[..Steps(q, outcomes)])
    ensures forall k :: 0 <= k < Steps(q, outcomes) && outcomes[k].Replied? ==>
              Delivery(pending[q[k].id.value], outcomes[k].parsed) in Relay(q, pending, outcomes).sent
    decreases |outcomes|
  {
    var n := Steps(q, outcomes);
    if q == [] || outcomes == [] {
      assert outcomes[..n] == [];
    } else {
      AwaitedAfterPop(q, pending);
      var id := q[0].id.value;
      var next := if outcomes[0].Replied? then pending - {id} else pending;
      RelayDelivers(q[1..], next, outcomes[1..]);
      var r := Relay(q, pending, outcomes);
      var rest := Relay(q[1..], next, outcomes[1..]);
      assert outcomes[..n][1..] == outcomes[1..][..Steps(q[1..], outcomes[1..])];
      forall k | 0 <= k < n && outcomes[k].Replied?
        ensures Delivery(pending[q[k].id.value], outcomes[k].parsed) in r.sent
      {
        if k > 0 {
          assert q[1..][k - 1] == q[k] && outcomes[1..][k - 1] == outcomes[k];
          assert q[k].id != q[0].id;
          assert Delivery(next[q[k].id.value], outcomes[k].parsed) in rest.sent;
        }
      }
    }
  }

  /** The relay loop keeps the invariant that makes its own unwraps safe. */
  lemma {:induction false} RelayAwaited(q: seq<ToolArguments>, pending: map<Uuid, Sender>, outcomes: seq<ForwardOutcome>)
    requires Awaited(q, pending)
    ensures Awaited(Relay(q, pending, outcomes).queue, Relay(q, pending, outcomes).pending)
    decreases |outcomes|
  {
    if q != [] && outcomes != [] {
      AwaitedAfterPop(q, pending);
      var id := q[0].id.value;
      var next := if outcomes[0].Replied? then pending - {id} else pending;
      RelayAwaited(q[1..], next, outcomes[1..]);
    }
  }
}
