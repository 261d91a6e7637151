/** The pbRPC transaction engine of the front-end process (freerds/core/rpc.c):
    a tag counter, a tag -> transaction table, a FIFO write queue, request
    dispatch and the result-selection rule of the blocking call.

    The named pipe, the I/O thread and the event handles are not modelled:
    whatever the pipe delivers or refuses is a parameter of the method that
    reads or writes it, and the frames written to it are recorded in `sent`.
    Every invocation of a completion callback is recorded, in order, in
    `completions`. */
module PbRpc {
  import opened Base

  // ---------------------------------------------------------------------
  // Message types and status codes
  // ---------------------------------------------------------------------

  /** The bit that turns a request id into the matching response id. */
  const ResponseMarker: nat := 0x8000_0000

  predicate IsResponseId(t: u32) {
    t >= ResponseMarker
  }

  /** `FDSAPI_REQUEST_ID`: the id with the response bit cleared. */
  function RequestId(t: u32): (r: u32)
    ensures !IsResponseId(r)
    ensures !IsResponseId(t) ==> r == t
  {
    t % ResponseMarker
  }

  /** `FDSAPI_RESPONSE_ID`: the id with the response bit set. */
  function ResponseId(t: u32): (r: u32)
    ensures IsResponseId(r)
    ensures RequestId(r) == RequestId(t)
    ensures IsResponseId(t) ==> r == t
  {
    RequestId(t) + ResponseMarker
  }

  // Request ids of the operations this engine dispatches or issues.
  const HeartbeatRequestId: u32 := 1
  const LogonUserRequestId: u32 := 2
  const LogoffUserRequestId: u32 := 3
  const DisconnectUserRequestId: u32 := 4
  const SwitchServiceEndpointRequestId: u32 := 5
  const ChannelEndpointOpenRequestId: u32 := 6
  const ChannelAllowedRequestId: u32 := 7
  const EndSessionRequestId: u32 := 8

  /** `FDSAPI_STATUS_SUCCESS` and `FDSAPI_STATUS_NOTFOUND`. */
  const StatusSuccess: u32 := 0
  const StatusNotFound: u32 := 4

  /** The engine's own results of a blocking call. */
  const PbrpcSuccess: u32 := 0
  const PbrpcFailed: u32 := 1
  const PbrcpTransportError: u32 := 2
  const PbrcpCallTimeout: u32 := 3

  /** A frame: the header (type, call id, status) and its payload. */
  datatype Msg = Msg(msgType: u32, callId: u32, status: u32, payload: seq<byte>)

  // ---------------------------------------------------------------------
  // Transactions and completions
  // ---------------------------------------------------------------------

  /** Whom a transaction completes: the waiter of a blocking call (identified
      by its tag) or an asynchronous caller's callback. */
  datatype Callback = LocalWaiter(callTag: u32) | AsyncCallback(id: nat)

  /** `pbRPCTransaction`: the callback and whether the engine frees the entry. */
  datatype Txn = Txn(callback: Callback, freeAfterResponse: bool)

  /** One invocation `callback(reason, response, arg)`. */
  datatype Completion = Completion(callback: Callback, reason: u32, response: Option<Msg>)

  /** The tags handed out by `n` successive calls of pbrpc_getTag, starting
      from counter value `t0`. */
  function TagsIssued(t0: u32, n: nat): (tags: seq<u32>)
    ensures |tags| == n
    decreases n
  {
    if n == 0 then [] else [Inc32(t0)] + TagsIssued(Inc32(t0), n - 1)
  }

  /** The i-th tag issued is the starting counter plus i + 1, modulo 2^32. */
  lemma {:induction false} TagsIssuedAt(t0: u32, n: nat, i: nat)
    requires i < n
    ensures TagsIssued(t0, n)[i] == (t0 + i + 1) % U32_LIMIT
    decreases n
  {
    if i > 0 {
      TagsIssuedAt(Inc32(t0), n - 1, i - 1);
    }
  }

  /** Fewer than 2^32 successive calls never hand out the same tag twice:
      tag collision needs the counter to wrap all the way round. */
  lemma TagsIssuedDistinct(t0: u32, n: nat, i: nat, j: nat)
    requires n <= U32_LIMIT && i < j < n
    ensures TagsIssued(t0, n)[i] != TagsIssued(t0, n)[j]
  {
    TagsIssuedAt(t0, n, i);
    TagsIssuedAt(t0, n, j);
  }

  // ---------------------------------------------------------------------
  // Result selection of the blocking call
  // ---------------------------------------------------------------------

  /** `struct pbrpc_local_call_context` without its event: what the local
      callback stored. It starts with no response and status timeout. */
  datatype LocalContext = LocalContext(response: Option<Msg>, status: u32)

  const InitialLocalContext: LocalContext := LocalContext(None, PbrcpCallTimeout)

  /** The local context after the completions in `log` have been delivered:
      pbrpc_response_local_cb overwrites it with each completion addressed to
      `waiter`, so the last such completion decides. */
  function LocalContextAfter(log: seq<Completion>, waiter: Callback): LocalContext
    decreases |log|
  {
    if log == [] then InitialLocalContext
    else if log[|log| - 1].callback == waiter then
      LocalContext(log[|log| - 1].response, log[|log| - 1].reason)
    else LocalContextAfter(log[..|log| - 1], waiter)
  }

  predicate HasCompletionFor(log: seq<Completion>, waiter: Callback) {
    exists i :: 0 <= i < |log| && log[i].callback == waiter
  }

  /** What pbrpc_call_method returns: its status and, with a response
      message, the response payload. */
  datatype CallResult = CallResult(status: u32, response: Option<seq<byte>>)

  function SyncCallResult(ctx: LocalContext): CallResult {
    match ctx.response
    case Some(m) => CallResult(m.status, Some(m.payload))
    case None => CallResult(if ctx.status != 0 then ctx.status else PbrpcFailed, None)
  }

  /** No completion reached the waiter: the call reports a timeout. */
  lemma {:induction false} SyncResultWithoutCompletion(log: seq<Completion>, waiter: Callback)
    requires !HasCompletionFor(log, waiter)
    ensures SyncCallResult(LocalContextAfter(log, waiter)) == CallResult(PbrcpCallTimeout, None)
    decreases |log|
  {
    if log != [] {
      var front := log[..|log| - 1];
      assert !HasCompletionFor(front, waiter) by {
        forall i | 0 <= i < |front| ensures front[i].callback != waiter {
          assert front[i] == log[i];
        }
      }
      SyncResultWithoutCompletion(front, waiter);
    }
  }

  /** The last completion addressed to the waiter decides: a delivered
      response gives the response's status and payload; a completion without
      a message (transport error) gives its nonzero reason, and a zero reason
      reads as PBRPC_FAILED. */
  lemma {:induction false} SyncResultFromLastCompletion(log: seq<Completion>, waiter: Callback, k: nat)
    requires k < |log| && log[k].callback == waiter
    requires forall j | k < j < |log| :: log[j].callback != waiter
    ensures var r := SyncCallResult(LocalContextAfter(log, waiter));
      match log[k].response
      case Some(m) => r == CallResult(m.status, Some(m.payload))
      case None => r == CallResult(if log[k].reason != 0 then log[k].reason else PbrpcFailed, None)
    decreases |log|
  {
    if k < |log| - 1 {
      var front := log[..|log| - 1];
      assert front[k] == log[k];
      forall j | k < j < |front| ensures front[j].callback != waiter {
        assert front[j] == log[j];
      }
      SyncResultFromLastCompletion(front, waiter, k);
    }
  }

  // ---------------------------------------------------------------------
  // Request dispatch
  // ---------------------------------------------------------------------

  /** The handlers the front end registers for inbound requests. */
  datatype RequestHandler = HeartbeatHandler | SwitchServiceEndpointHandler
                          | LogoffUserHandler | ChannelEndpointOpenHandler

  function HandlerFor(msgType: u32): (h: Option<RequestHandler>)
    ensures h.Some? <==> msgType in {HeartbeatRequestId, SwitchServiceEndpointRequestId,
                                     LogoffUserRequestId, ChannelEndpointOpenRequestId}
  {
    if msgType == HeartbeatRequestId then Some(HeartbeatHandler)
    else if msgType == SwitchServiceEndpointRequestId then Some(SwitchServiceEndpointHandler)
    else if msgType == LogoffUserRequestId then Some(LogoffUserHandler)
    else if msgType == ChannelEndpointOpenRequestId then Some(ChannelEndpointOpenHandler)
    else None
  }

  /** What a handler gave back: its return code and the response payload it
      left (none for a deferred answer). */
  datatype HandlerOutcome = HandlerOutcome(status: int, response: Option<seq<byte>>)

  /** The frame pbrpc_send_response writes: the response id of `msgType`,
      the caller's tag, the status, and the payload only on status 0. */
  function ResponseFrame(response: Option<seq<byte>>, status: u32, msgType: u32, callId: u32): (f: Msg)
    ensures f.msgType == ResponseId(msgType) && IsResponseId(f.msgType)
    ensures f.callId == callId && f.status == status
    ensures f.payload != [] ==> status == 0 && response == Some(f.payload)
    ensures status == 0 && response.Some? ==> f.payload == response.value
  {
    Msg(ResponseId(msgType), callId, status,
        if response.Some? && status == 0 then response.value else [])
  }

  // ---------------------------------------------------------------------
  // Draining the write queue (see the findings in README.md)
  // ---------------------------------------------------------------------

  /** The messages of `queue` whose write succeeded, in queue order. */
  function Delivered(queue: seq<Msg>, writeOk: seq<bool>): (d: seq<Msg>)
    requires |writeOk| >= |queue|
    ensures |d| <= |queue|
    ensures (forall i | 0 <= i < |queue| :: writeOk[i]) ==> d == queue
    decreases |queue|
  {
    if queue == [] then []
    else (if writeOk[0] then [queue[0]] else []) + Delivered(queue[1..], writeOk[1..])
  }

  lemma DeliveredAppend(queue: seq<Msg>, writeOk: seq<bool>, i: nat)
    requires i < |queue| && |writeOk| >= |queue|
    ensures Delivered(queue[..i + 1], writeOk) ==
            Delivered(queue[..i], writeOk) + (if writeOk[i] then [queue[i]] else [])
    decreases i
  {
    if i > 0 {
      assert queue[..i + 1][1..] == queue[1..][..i];
      assert queue[..i][1..] == queue[1..][..i - 1];
      DeliveredAppend(queue[1..], writeOk[1..], i - 1);
    }
  }

  /** The status the drain loop of pbrpc_main_loop ends with, as written:
      each send overwrites `status`, so only the last send counts; with an
      empty queue the status from before the loop survives. */
  function DrainStatusAsWritten(prior: int, writeOk: seq<bool>): int {
    if writeOk == [] then prior
    else if writeOk[|writeOk| - 1] then 0 else -1
  }

  /** A failed send among several is hidden by a later successful one. */
  lemma DrainAsWrittenMissesEarlierFailure()
    ensures DrainStatusAsWritten(0, [false, true]) == 0
  {
  }

  /** Whether pbrpc_process_message_in returns a negative status: the read
      failed, or a request's reply could not be written. A response never
      fails. */
  predicate MessageInFails(incoming: Option<Msg>, outcome: HandlerOutcome, replyOk: bool) {
    match incoming
    case None => true
    case Some(m) =>
      && !IsResponseId(m.msgType) && !replyOk
      && (HandlerFor(m.msgType).None? || outcome.response.Some?)
  }

  /** The frames pbrpc_process_message_in writes: none for a failed read or
      a response; for a request, NOT_FOUND for an unknown type, nothing when
      the handler leaves no payload, else the handler's reply. */
  function ReplySent(incoming: Option<Msg>, outcome: HandlerOutcome, replyOk: bool): (f: seq<Msg>)
    ensures |f| <= 1
    ensures f != [] ==>
      && replyOk && incoming.Some? && !IsResponseId(incoming.value.msgType)
      && f[0].callId == incoming.value.callId && IsResponseId(f[0].msgType)
  {
    match incoming
    case None => []
    case Some(m) =>
      if IsResponseId(m.msgType) || !replyOk then []
      else if HandlerFor(m.msgType).None? then [Msg(ResponseId(m.msgType), m.callId, StatusNotFound, [])]
      else if outcome.response.None? then []
      else [ResponseFrame(outcome.response, ToU32(outcome.status), m.msgType, m.callId)]
  }

  /** The transaction table after pbrpc_process_message_in read `incoming`:
      a response to an outstanding call loses that call's entry. */
  function TableAfterMessageIn(t: map<u32, Txn>, incoming: Option<Msg>): (t': map<u32, Txn>)
    ensures t'.Keys <= t.Keys && forall k | k in t' :: t'[k] == t[k]
    ensures incoming.Some? && IsResponseId(incoming.value.msgType) ==> incoming.value.callId !in t'
    ensures incoming.None? || !IsResponseId(incoming.value.msgType) ==> t' == t
  {
    if incoming.Some? && IsResponseId(incoming.value.msgType) && incoming.value.callId in t
    then t - {incoming.value.callId} else t
  }

  /** The callback invocations after pbrpc_process_message_in read
      `incoming`: a response to an outstanding call completes that call's
      callback once with the response's status. */
  function CompletionsAfterMessageIn(t: map<u32, Txn>, c: seq<Completion>, incoming: Option<Msg>): (c': seq<Completion>)
    ensures |c'| == |c| + |t.Keys - TableAfterMessageIn(t, incoming).Keys| && c'[..|c|] == c
  {
    if incoming.Some? && IsResponseId(incoming.value.msgType) && incoming.value.callId in t
    then
      assert t.Keys - TableAfterMessageIn(t, incoming).Keys == {incoming.value.callId};
      c + [Completion(t[incoming.value.callId].callback, incoming.value.status, incoming)]
    else
      assert t.Keys - TableAfterMessageIn(t, incoming).Keys == {};
      c
  }

  /** The table after the pipe half of a pass of pbrpc_main_loop. */
  function TableAfterPipe(ev: IoEvents, t: map<u32, Txn>): map<u32, Txn> {
    if ev.pipeReadable then TableAfterMessageIn(t, ev.incoming) else t
  }

  /** The callback invocations after the pipe half of a pass. */
  function CompletionsAfterPipe(ev: IoEvents, t: map<u32, Txn>, c: seq<Completion>): seq<Completion> {
    if ev.pipeReadable then CompletionsAfterMessageIn(t, c, ev.incoming) else c
  }

  /** What pbrpc_reconnect did to the callbacks: starting from table `t`
      and invocations `c`, every entry of `t` was completed exactly once
      with a transport error, in the order `order`. */
  ghost predicate CompletedByReconnect(t: map<u32, Txn>, c: seq<Completion>, c': seq<Completion>, order: seq<u32>) {
    && (forall i, j | 0 <= i < j < |order| :: order[i] != order[j])
    && (forall k :: k in t <==> k in order)
    && |c'| == |c| + |order| && c'[..|c|] == c
    && forall i | 0 <= i < |order| :: c'[|c| + i] == Completion(t[order[i]].callback, PbrcpTransportError, None)
  }

  /** Whether one pass of pbrpc_main_loop that got past the wait reconnects:
      serving the pipe failed, or the queue was signalled, held `queued`
      messages and the last of their writes failed. */
  predicate ReconnectsAfter(ev: IoEvents, queued: nat)
    requires |ev.writeOk| >= queued
  {
    if ev.pipeReadable && MessageInFails(ev.incoming, ev.handler, ev.replyOk) then true
    else ev.queueSignalled && queued > 0 && !ev.writeOk[queued - 1]
  }

  // ---------------------------------------------------------------------
  // The engine
  // ---------------------------------------------------------------------

  /** Events of one pass of the I/O thread's loop (pbrpc_main_loop). */
  datatype IoEvents = IoEvents(
    waitFailed: bool,          // WaitForMultipleObjects returned WAIT_FAILED
    stop: bool,                // stopEvent signalled
    pipeReadable: bool,        // the pipe has data
    incoming: Option<Msg>,     // the frame read, None when the read failed
    handler: HandlerOutcome,   // what the request handler gives, for a request
    replyOk: bool,             // whether writing a reply succeeds
    queueSignalled: bool,      // the write queue's event is signalled
    writeOk: seq<bool>,        // per queued message, whether its write succeeds
    reopened: bool)            // whether the transport reopens after a failure

  class Engine {
    var tag: u32
    var isConnected: bool
    var transactions: map<u32, Txn>
    var writeQueue: seq<Msg>
    /** Frames written to the pipe, in order. */
    var sent: seq<Msg>
    /** Callback invocations, in order. */
    var completions: seq<Completion>

    /** The entry of a blocking call is filed under the tag its waiter
        knows it by. */
    predicate WaitersKeyedByTag()
      reads this
    {
      forall t | t in transactions :: transactions[t].callback.LocalWaiter? ==> transactions[t].callback.callTag == t
    }

    /** pbrpc_server_new: a zeroed context with empty table and queue. */
    constructor ()
      ensures tag == 0 && !isConnected
      ensures transactions == map[] && writeQueue == [] && sent == [] && completions == []
    {
      tag := 0;
      isConnected := false;
      transactions := map[];
      writeQueue := [];
      sent := [];
      completions := [];
    }

    /** pbrpc_getTag: the counter is incremented (modulo 2^32) and its new
        value returned. */
    method GetTag() returns (t: u32)
      modifies this`tag
      ensures tag == Inc32(old(tag)) && t == tag
    {
      tag := Inc32(tag);
      t := tag;
    }

    /** pbrcp_call_method_async. Disconnected: the callback runs once with
        a transport error and nothing is registered. Connected: one entry
        under the fresh tag and one request frame at the end of the queue. */
    method CallMethodAsync(msgType: u32, request: seq<byte>, callback: nat)
      modifies this`tag, this`transactions, this`writeQueue, this`completions
      ensures !old(isConnected) ==>
        && tag == old(tag) && transactions == old(transactions) && writeQueue == old(writeQueue)
        && completions == old(completions) + [Completion(AsyncCallback(callback), PbrcpTransportError, None)]
      ensures old(isConnected) ==>
        && tag == Inc32(old(tag))
        && transactions == old(transactions)[tag := Txn(AsyncCallback(callback), true)]
        && writeQueue == old(writeQueue) + [Msg(RequestId(msgType), tag, StatusSuccess, request)]
        && completions == old(completions)
    {
      if !isConnected {
        completions := completions + [Completion(AsyncCallback(callback), PbrcpTransportError, None)];
        return;
      }
      var t := GetTag();
      transactions := transactions[t := Txn(AsyncCallback(callback), true)];
      writeQueue := writeQueue + [Msg(RequestId(msgType), t, StatusSuccess, request)];
    }

    /** First half of pbrpc_call_method, up to the wait: registers the local
        waiter under a fresh tag and queues the request. `mark` is where the
        completions that may reach this call begin. */
    method BeginCall(msgType: u32, request: seq<byte>) returns (registered: bool, t: u32, mark: nat)
      modifies this`tag, this`transactions, this`writeQueue
      ensures mark == |completions| && completions == old(completions)
      ensures registered == old(isConnected)
      ensures !registered ==>
        tag == old(tag) && transactions == old(transactions) && writeQueue == old(writeQueue)
      ensures registered ==>
        && t == tag == Inc32(old(tag))
        && transactions == old(transactions)[t := Txn(LocalWaiter(t), false)]
        && writeQueue == old(writeQueue) + [Msg(RequestId(msgType), t, StatusSuccess, request)]
    {
      mark := |completions|;
      registered := isConnected;
      t := 0;
      if !registered {
        return;
      }
      t := GetTag();
      transactions := transactions[t := Txn(LocalWaiter(t), false)];
      writeQueue := writeQueue + [Msg(RequestId(msgType), t, StatusSuccess, request)];
    }

    /** Second half of pbrpc_call_method, once the wait returned. When the
        wait timed out and the entry is still in the table, it is removed
        and the call times out; when it timed out but a completion already
        took the entry, the caller waits for that completion. Either way the
        result is chosen from the local context the callback wrote. */
    method EndCall(t: u32, mark: nat, signalled: bool) returns (r: CallResult)
      requires mark <= |completions|
      requires signalled ==> HasCompletionFor(completions[mark..], LocalWaiter(t))
      requires t !in transactions ==> HasCompletionFor(completions[mark..], LocalWaiter(t))
      modifies this`transactions
      ensures transactions ==
        if !signalled && t in old(transactions) then old(transactions) - {t} else old(transactions)
      ensures r == SyncCallResult(LocalContextAfter(completions[mark..], LocalWaiter(t)))
    {
      if !signalled {
        if t in transactions {
          transactions := transactions - {t};
        }
        // else: the completion is in progress; the second wait ends when
        // the callback has run, which the precondition records.
      }
      r := SyncCallResult(LocalContextAfter(completions[mark..], LocalWaiter(t)));
    }

    /** pbrpc_process_response: an unknown tag is ignored (result 1, table
        unchanged); a known tag loses its entry and its callback runs once
        with the message's status and the message. */
    method ProcessResponse(msg: Msg) returns (r: int)
      modifies this`transactions, this`completions
      ensures msg.callId !in old(transactions) ==>
        r == 1 && transactions == old(transactions) && completions == old(completions)
      ensures msg.callId in old(transactions) ==>
        && r == 0
        && transactions == old(transactions) - {msg.callId}
        && completions == old(completions) + [Completion(old(transactions)[msg.callId].callback, msg.status, Some(msg))]
    {
      if msg.callId !in transactions {
        return 1;
      }
      var ta := transactions[msg.callId];
      transactions := transactions - {msg.callId};
      completions := completions + [Completion(ta.callback, msg.status, Some(msg))];
      r := 0;
    }

    /** pbrpc_send_response: one response frame written straight to the pipe. */
    method SendResponse(response: Option<seq<byte>>, status: u32, msgType: u32, callId: u32, writeOk: bool)
      returns (r: int)
      modifies this`sent
      ensures r == (if writeOk then 0 else -1)
      ensures sent == old(sent) + (if writeOk then [ResponseFrame(response, status, msgType, callId)] else [])
    {
      if writeOk {
        sent := sent + [ResponseFrame(response, status, msgType, callId)];
        r := 0;
      } else {
        r := -1;
      }
    }

    /** pbrpc_process_request: an unknown type is answered with NOT_FOUND; a
        handler that leaves no payload gets no reply; otherwise the reply
        carries the handler's return code as its status. */
    method ProcessRequest(msg: Msg, outcome: HandlerOutcome, replyOk: bool) returns (r: int)
      modifies this`sent
      ensures HandlerFor(msg.msgType).None? ==>
        && r == (if replyOk then 0 else -1)
        && sent == old(sent) + (if replyOk then [Msg(ResponseId(msg.msgType), msg.callId, StatusNotFound, [])] else [])
      ensures HandlerFor(msg.msgType).Some? && outcome.response.None? ==>
        r == 0 && sent == old(sent)
      ensures HandlerFor(msg.msgType).Some? && outcome.response.Some? ==>
        && r == (if replyOk then 0 else -1)
        && sent == old(sent) +
             (if replyOk then [ResponseFrame(outcome.response, ToU32(outcome.status), msg.msgType, msg.callId)] else [])
    {
      if HandlerFor(msg.msgType).None? {
        r := SendResponse(None, StatusNotFound, msg.msgType, msg.callId, replyOk);
        return;
      }
      if outcome.response.None? {
        return 0;
      }
      r := SendResponse(outcome.response, ToU32(outcome.status), msg.msgType, msg.callId, replyOk);
    }

    /** pbrpc_process_message_in: a failed read gives -1; a response goes to
        ProcessResponse, anything else to ProcessRequest. */
    method ProcessMessageIn(incoming: Option<Msg>, outcome: HandlerOutcome, replyOk: bool) returns (r: int)
      modifies this`transactions, this`completions, this`sent
      ensures r < 0 <==> MessageInFails(incoming, outcome, replyOk)
      ensures sent == old(sent) + ReplySent(incoming, outcome, replyOk)
      ensures transactions == TableAfterMessageIn(old(transactions), incoming)
      ensures completions == CompletionsAfterMessageIn(old(transactions), old(completions), incoming)
      ensures incoming.None? ==> r == -1 && unchanged(this)
      ensures incoming.Some? && IsResponseId(incoming.value.msgType) && incoming.value.callId !in old(transactions) ==>
        r == 1 && transactions == old(transactions) && completions == old(completions)
      ensures incoming.Some? && IsResponseId(incoming.value.msgType) && incoming.value.callId in old(transactions) ==>
        && r == 0
        && transactions == old(transactions) - {incoming.value.callId}
        && completions == old(completions) +
             [Completion(old(transactions)[incoming.value.callId].callback, incoming.value.status, Some(incoming.value))]
      ensures incoming.Some? && !IsResponseId(incoming.value.msgType) ==>
        transactions == old(transactions) && completions == old(completions)
    {
      if incoming.None? {
        return -1;
      }
      var msg := incoming.value;
      if IsResponseId(msg.msgType) {
        r := ProcessResponse(msg);
      } else {
        r := ProcessRequest(msg, outcome, replyOk);
      }
    }

    /** pbrpc_reconnect: disconnected, queue emptied, and every outstanding
        transaction removed with its callback run exactly once with a
        transport error; `order` is the order they were taken in. Then the
        transport is reopened, which succeeds unless the engine is stopped. */
    method Reconnect(reopened: bool) returns (ghost order: seq<u32>)
      modifies this`isConnected, this`writeQueue, this`transactions, this`completions
      ensures isConnected == reopened && writeQueue == [] && transactions == map[]
      ensures forall i, j | 0 <= i < j < |order| :: order[i] != order[j]
      ensures forall t :: t in old(transactions) <==> t in order
      ensures |completions| == |old(completions)| + |order|
      ensures completions[..|old(completions)|] == old(completions)
      ensures forall i | 0 <= i < |order| ::
        completions[|old(completions)| + i] == Completion(old(transactions)[order[i]].callback, PbrcpTransportError, None)
    {
      isConnected := false;
      ghost var t0 := transactions;
      ghost var c0 := completions;
      order := [];
      while transactions != map[]
        invariant forall t :: t in transactions ==> t in t0 && transactions[t] == t0[t]
        invariant forall i, j | 0 <= i < j < |order| :: order[i] != order[j]
        invariant forall t :: t in t0 <==> t in order || t in transactions
        invariant forall t :: t in order ==> t !in transactions
        invariant |completions| == |c0| + |order| && completions[..|c0|] == c0
        invariant forall i | 0 <= i < |order| ::
          completions[|c0| + i] == Completion(t0[order[i]].callback, PbrcpTransportError, None)
        decreases transactions.Keys
      {
        var t :| t in transactions;
        var ta := transactions[t];
        transactions := transactions - {t};
        completions := completions + [Completion(ta.callback, PbrcpTransportError, None)];
        order := order + [t];
      }
      writeQueue := [];
      isConnected := reopened;
    }

    /** The drain of the write queue with the failure check the I/O loop
        evidently intends: every queued message is written in FIFO order and
        the drain fails when any of the writes failed. */
    method DrainWriteQueue(writeOk: seq<bool>) returns (failed: bool)
      requires |writeOk| >= |writeQueue|
      modifies this`writeQueue, this`sent
      ensures writeQueue == []
      ensures sent == old(sent) + Delivered(old(writeQueue), writeOk)
      ensures failed <==> exists i :: 0 <= i < |old(writeQueue)| && !writeOk[i]
    {
      ghost var q0 := writeQueue;
      ghost var s0 := sent;
      var i := 0;
      failed := false;
      while writeQueue != []
        invariant 0 <= i <= |q0| && writeQueue == q0[i..]
        invariant sent == s0 + Delivered(q0[..i], writeOk)
        invariant failed <==> exists k :: 0 <= k < i && !writeOk[k]
        decreases |writeQueue|
      {
        var msg := writeQueue[0];
        writeQueue := writeQueue[1..];
        DeliveredAppend(q0, writeOk, i);
        if writeOk[i] {
          sent := sent + [msg];
        } else {
          failed := true;
        }
        i := i + 1;
      }
      assert q0[..i] == q0;
    }

    /** The drain as written in pbrpc_main_loop: each write overwrites
        `status`, so the loop reports only the last write's result. */
    method DrainWriteQueueAsWritten(prior: int, writeOk: seq<bool>) returns (status: int)
      requires |writeOk| >= |writeQueue|
      modifies this`writeQueue, this`sent
      ensures writeQueue == []
      ensures sent == old(sent) + Delivered(old(writeQueue), writeOk)
      ensures status == DrainStatusAsWritten(prior, writeOk[..|old(writeQueue)|])
    {
      ghost var q0 := writeQueue;
      ghost var s0 := sent;
      var i := 0;
      status := prior;
      while writeQueue != []
        invariant 0 <= i <= |q0| && writeQueue == q0[i..]
        invariant sent == s0 + Delivered(q0[..i], writeOk)
        invariant status == DrainStatusAsWritten(prior, writeOk[..i])
        decreases |writeQueue|
      {
        var msg := writeQueue[0];
        writeQueue := writeQueue[1..];
        DeliveredAppend(q0, writeOk, i);
        if writeOk[i] {
          sent := sent + [msg];
          status := 0;
        } else {
          status := -1;
        }
        i := i + 1;
      }
      assert q0[..i] == q0;
    }

    /** One pass of pbrpc_main_loop while connected. A failed wait or the
        stop event ends the loop with nothing done. A readable pipe is served
        first; a failure there reconnects and skips the queue. Then a
        signalled queue is drained; as written, only the last write's status
        decides whether to reconnect. The loop goes on while the engine is
        connected. */
    method MainLoopIteration(ev: IoEvents) returns (exit: bool, ghost order: seq<u32>)
      requires isConnected
      requires |ev.writeOk| >= |writeQueue|
      modifies this`isConnected, this`writeQueue, this`transactions, this`completions, this`sent
      ensures ev.waitFailed || ev.stop ==> exit && unchanged(this)
      ensures !(ev.waitFailed || ev.stop) && ReconnectsAfter(ev, |old(writeQueue)|) ==>
        CompletedByReconnect(TableAfterPipe(ev, old(transactions)),
                             CompletionsAfterPipe(ev, old(transactions), old(completions)), completions, order)
      ensures !(ev.waitFailed || ev.stop) && !ReconnectsAfter(ev, |old(writeQueue)|) ==>
        && transactions == TableAfterPipe(ev, old(transactions))
        && completions == CompletionsAfterPipe(ev, old(transactions), old(completions))
        && writeQueue == (if ev.queueSignalled then [] else old(writeQueue))
      ensures !(ev.waitFailed || ev.stop) ==>
        && (exit <==> !isConnected)
        && (ReconnectsAfter(ev, |old(writeQueue)|) ==>
              isConnected == ev.reopened && transactions == map[] && writeQueue == [])
        && (!ReconnectsAfter(ev, |old(writeQueue)|) ==> isConnected && !exit)
      ensures !(ev.waitFailed || ev.stop) ==>
        sent == old(sent)
          + (if ev.pipeReadable then ReplySent(ev.incoming, ev.handler, ev.replyOk) else [])
          + (if ev.queueSignalled && !(ev.pipeReadable && MessageInFails(ev.incoming, ev.handler, ev.replyOk))
             then Delivered(old(writeQueue), ev.writeOk) else [])
      ensures !isConnected ==> transactions == map[] && writeQueue == []
      ensures tag == old(tag)
    {
      order := [];
      if ev.waitFailed || ev.stop {
        return true, order;
      }
      // The wait's result, an object index, is never negative; only its
      // sign matters to the drain.
      ghost var q0, s0, t0, c0 := writeQueue, sent, transactions, completions;
      var status := 0;
      if ev.pipeReadable {
        var failed;
        status, failed, order := ServePipe(ev.incoming, ev.handler, ev.replyOk, ev.reopened);
        if failed {
          return !isConnected, order;
        }
      }
      assert !(ev.pipeReadable && MessageInFails(ev.incoming, ev.handler, ev.replyOk));
      assert writeQueue == q0 && isConnected;
      assert transactions == TableAfterPipe(ev, t0) && completions == CompletionsAfterPipe(ev, t0, c0);
      assert sent == s0 + (if ev.pipeReadable then ReplySent(ev.incoming, ev.handler, ev.replyOk) else []);
      if ev.queueSignalled {
        var failed;
        failed, order := ServeQueue(status, ev.writeOk, ev.reopened);
        if failed {
          return !isConnected, order;
        }
      }
      exit := !isConnected;
    }

    /** The pipe half of a pass of pbrpc_main_loop: the message is served,
        and a negative status reconnects. */
    method ServePipe(incoming: Option<Msg>, outcome: HandlerOutcome, replyOk: bool, reopened: bool)
      returns (status: int, failed: bool, ghost order: seq<u32>)
      requires isConnected
      modifies this`isConnected, this`writeQueue, this`transactions, this`completions, this`sent
      ensures failed <==> MessageInFails(incoming, outcome, replyOk)
      ensures failed <==> status < 0
      ensures sent == old(sent) + ReplySent(incoming, outcome, replyOk)
      ensures failed ==>
        && isConnected == reopened && writeQueue == [] && transactions == map[]
        && CompletedByReconnect(TableAfterMessageIn(old(transactions), incoming),
                                CompletionsAfterMessageIn(old(transactions), old(completions), incoming),
                                completions, order)
      ensures !failed ==>
        && isConnected && writeQueue == old(writeQueue)
        && transactions == TableAfterMessageIn(old(transactions), incoming)
        && completions == CompletionsAfterMessageIn(old(transactions), old(completions), incoming)
    {
      order := [];
      ghost var t1 := TableAfterMessageIn(transactions, incoming);
      ghost var c1 := CompletionsAfterMessageIn(transactions, completions, incoming);
      ghost var q0 := writeQueue;
      status := ProcessMessageIn(incoming, outcome, replyOk);
      assert transactions == t1 && completions == c1 && writeQueue == q0 && isConnected;
      failed := status < 0;
      assert failed <==> MessageInFails(incoming, outcome, replyOk);
      if failed {
        ghost var s1 := sent;
        order := Reconnect(reopened);
        assert sent == s1;
        assert CompletedByReconnect(t1, c1, completions, order);
      }
    }

    /** The queue half of a pass of pbrpc_main_loop: the queue is drained
        with the status carried over from the pipe half, and, as written, a
        failure of the last write reconnects. */
    method ServeQueue(prior: int, writeOk: seq<bool>, reopened: bool) returns (failed: bool, ghost order: seq<u32>)
      requires isConnected && prior >= 0
      requires |writeOk| >= |writeQueue|
      modifies this`isConnected, this`writeQueue, this`transactions, this`completions, this`sent
      ensures failed <==> |old(writeQueue)| > 0 && !writeOk[|old(writeQueue)| - 1]
      ensures sent == old(sent) + Delivered(old(writeQueue), writeOk)
      ensures writeQueue == []
      ensures failed ==>
        && isConnected == reopened && transactions == map[]
        && CompletedByReconnect(old(transactions), old(completions), completions, order)
      ensures !failed ==> isConnected && transactions == old(transactions) && completions == old(completions)
    {
      order := [];
      var status := DrainWriteQueueAsWritten(prior, writeOk);
      failed := status < 0;
      if failed {
        order := Reconnect(reopened);
      }
    }

    /** A blocking call from issue to result, with what happens on the I/O
        thread while the caller waits: the request is written and answered,
        the transport fails, or nothing arrives within the timeout.
        `signalled` says whether the first wait saw the completion in time;
        when it did not, the timeout branch finds the entry already gone
        and waits again, so the result is the same. */
    method CallMethod(msgType: u32, request: seq<byte>, during: PeerEvent, signalled: bool)
      returns (r: CallResult)
      requires during.NoAnswer? ==> !signalled
      requires WaitersKeyedByTag()
      modifies this
      ensures !old(isConnected) ==> r == CallResult(PbrcpTransportError, None) && unchanged(this)
      ensures old(isConnected) && during.Answered? ==>
        r == CallResult(during.status, Some(during.payload)) && transactions == old(transactions) - {tag}
      ensures old(isConnected) && during.TransportFailed? ==>
        r == CallResult(PbrcpTransportError, None) && transactions == map[]
      ensures old(isConnected) && during.NoAnswer? ==>
        && r == CallResult(PbrcpCallTimeout, None)
        && transactions == old(transactions) - {tag}
        && completions == old(completions)
      ensures old(isConnected) ==> tag == Inc32(old(tag))
      ensures WaitersKeyedByTag()
    {
      var registered, t, mark := BeginCall(msgType, request);
      if !registered {
        return CallResult(PbrcpTransportError, None);
      }
      match during {
        case Answered(status, payload) =>
          var _ := DrainWriteQueue(seq(|writeQueue|, _ => true));
          var m := Msg(ResponseId(msgType), t, status, payload);
          var _ := ProcessResponse(m);
          ghost var log := completions[mark..];
          assert log[|log| - 1] == Completion(LocalWaiter(t), status, Some(m));
          SyncResultFromLastCompletion(log, LocalWaiter(t), |log| - 1);
        case TransportFailed(reopened) =>
          ghost var t1 := transactions;
          assert forall k | k in t1 :: t1[k].callback.LocalWaiter? ==> t1[k].callback.callTag == k;
          ghost var order := Reconnect(reopened);
          assert t in order;
          ghost var i :| 0 <= i < |order| && order[i] == t;
          ghost var log := completions[mark..];
          assert log[i] == Completion(LocalWaiter(t), PbrcpTransportError, None);
          assert forall j | i < j < |log| :: log[j].callback != LocalWaiter(t) by {
            forall j | i < j < |log| ensures log[j].callback != LocalWaiter(t) {
              assert log[j] == completions[mark + j];
              assert order[j] != t && order[j] in t1;
            }
          }
          SyncResultFromLastCompletion(log, LocalWaiter(t), i);
        case NoAnswer =>
          SyncResultWithoutCompletion(completions[mark..], LocalWaiter(t));
      }
      r := EndCall(t, mark, signalled);
    }
  }

  /** What the I/O thread does while a blocking caller waits. */
  datatype PeerEvent = Answered(status: u32, payload: seq<byte>) | TransportFailed(reopened: bool) | NoAnswer
}
