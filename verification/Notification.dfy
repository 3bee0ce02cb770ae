/** Queue hints: receiving a batch, acknowledging it, and the cycle that only uses it to wake up. */
module Notification {
  import opened Basics

  const BATCH_SIZE: nat := 10
  const MAXIMUM_BODY: nat := 1024
  const MAXIMUM_HANDLE: nat := 2048

  // ---------------------------------------------------------------- receiving

  /** A decoded envelope: its version, and whether its event identifier has UUID form. */
  datatype Envelope = Envelope(version: int, identifierValid: bool)

  /** A body's length in bytes and what decoding it as JSON yields. */
  datatype Body = Body(length: nat, envelope: Option<Envelope>)

  datatype Message = Message(body: Option<Body>, handle: Option<string>)

  predicate ValidMessage(m: Message) {
    && m.body.Some? && m.handle.Some?
    && m.body.value.length <= MAXIMUM_BODY && |m.handle.value| != 0
    && |m.handle.value| <= MAXIMUM_HANDLE
    && m.body.value.envelope.Some?
    && m.body.value.envelope.value.version == 1 && m.body.value.envelope.value.identifierValid
  }

  /** The handles of the valid messages, in order. */
  function ValidHandles(messages: seq<Message>): (handles: seq<string>)
    ensures |handles| <= |messages|
  {
    if messages == [] then []
    else
      var last := messages[|messages| - 1];
      ValidHandles(messages[..|messages| - 1]) + if ValidMessage(last) then [last.handle.value] else []
  }

  class Batch {
    const handles: array<string>
    var count: nat

    ghost predicate Valid()
      reads this
    {
      handles.Length == BATCH_SIZE && count <= BATCH_SIZE
    }

    ghost function Contents(): seq<string>
      requires Valid()
      reads this, handles
    {
      handles[..count]
    }

    constructor ()
      ensures Valid() && fresh(handles) && Contents() == []
    {
      handles := new string[BATCH_SIZE](_ => "");
      count := 0;
    }
  }

  /** A response that failed or was oversized is an error and an empty batch; otherwise the batch is
      exactly the valid messages in order, and poison is left for redrive. */
  method Receive(response: Option<seq<Message>>) returns (batch: Batch, ok: bool)
    ensures batch.Valid() && fresh(batch) && fresh(batch.handles)
    ensures ok <==> response.Some? && |response.value| <= BATCH_SIZE
    ensures batch.Contents() == if ok then ValidHandles(response.value) else []
  {
    batch := new Batch();
    if response.None? || |response.value| > BATCH_SIZE {
      return batch, false;
    }
    var messages := response.value;
    for k := 0 to |messages|
      invariant batch.Valid() && fresh(batch) && fresh(batch.handles) && batch.count <= k
      invariant batch.Contents() == ValidHandles(messages[..k])
    {
      assert messages[..k + 1][..k] == messages[..k];
      if !ValidMessage(messages[k]) {
        continue;
      }
      batch.handles[batch.count] := messages[k].handle.value;
      batch.count := batch.count + 1;
    }
    assert messages[..|messages|] == messages;
    ok := true;
  }

  /** A handle is in the batch exactly when some valid message carries it. */
  lemma {:induction false} HandlesAreValidOnes(messages: seq<Message>, handle: string)
    ensures handle in ValidHandles(messages)
      <==> exists k :: 0 <= k < |messages| && ValidMessage(messages[k]) && messages[k].handle == Some(handle)
  {
    if messages == [] {
    } else {
      var rest, last := messages[..|messages| - 1], messages[|messages| - 1];
      HandlesAreValidOnes(rest, handle);
      if exists k :: 0 <= k < |rest| && ValidMessage(rest[k]) && rest[k].handle == Some(handle) {
        var k :| 0 <= k < |rest| && ValidMessage(rest[k]) && rest[k].handle == Some(handle);
        assert messages[k] == rest[k];
      }
      if handle in ValidHandles(messages) && handle !in ValidHandles(rest) {
        assert ValidMessage(messages[|messages| - 1]);
      }
    }
  }

  /** A message counts if it has a body of at most 1024 bytes, a handle of 1 to 2048 characters, and an
      envelope of version 1 with an identifier of UUID form. */
  lemma ValidIff(m: Message)
    ensures ValidMessage(m) <==>
      match (m.body, m.handle)
      case (Some(Body(length, Some(envelope))), Some(handle)) =>
        length <= 1024 && 1 <= |handle| <= 2048 && envelope.version == 1 && envelope.identifierValid
      case _ => false
  {
  }

  function ValidBefore(messages: seq<Message>, n: nat): set<nat> {
    set k: nat | k < n && k < |messages| && ValidMessage(messages[k])
  }

  /** The batch has one handle for every valid message. */
  lemma {:induction false} HandlesCounted(messages: seq<Message>)
    ensures |ValidHandles(messages)| == |ValidBefore(messages, |messages|)|
  {
    if messages == [] {
    } else {
      var n := |messages| - 1;
      HandlesCounted(messages[..n]);
      assert ValidBefore(messages, n) == ValidBefore(messages[..n], n);
      if ValidMessage(messages[n]) {
        assert ValidBefore(messages, n + 1) == ValidBefore(messages, n) + {n};
      } else {
        assert ValidBefore(messages, n + 1) == ValidBefore(messages, n);
      }
    }
  }

  /** The batch keeps the order: a valid message's handle stands right after those of the messages before it. */
  lemma {:induction false} HandlesInOrder(messages: seq<Message>, k: nat)
    requires k < |messages| && ValidMessage(messages[k])
    ensures var p := |ValidHandles(messages[..k])|;
      p < |ValidHandles(messages)| && ValidHandles(messages)[p] == messages[k].handle.value
    decreases |messages|
  {
    var n := |messages| - 1;
    if k == n {
    } else {
      HandlesInOrder(messages[..n], k);
      assert messages[..n][..k] == messages[..k];
    }
  }

  // ---------------------------------------------------------------- acknowledging

  /** A request entry: the handle's index as its identifier, and the handle. */
  datatype Entry = Entry(id: nat, handle: string)

  datatype DeleteResult = DeleteResult(failed: nat, successful: nat)

  /** Every one of `n` deletions was confirmed; none need be for an empty batch. */
  predicate Confirmed(reply: Option<DeleteResult>, n: nat) {
    n == 0 || (reply.Some? && reply.value.failed == 0 && reply.value.successful == n)
  }

  /** No request for an empty batch; otherwise one request with every handle, and success only when
      every single deletion is confirmed. */
  method Acknowledge(batch: Batch, reply: Option<DeleteResult>) returns (request: seq<Entry>, ok: bool)
    requires batch.Valid()
    ensures |request| == batch.count
    ensures forall k :: 0 <= k < batch.count ==> request[k] == Entry(k, batch.Contents()[k])
    ensures ok <==>
      || batch.count == 0
      || (reply.Some? && reply.value.failed == 0 && reply.value.successful == batch.count)
  {
    if batch.count == 0 {
      return [], true;
    }
    var entries := new Entry[BATCH_SIZE](_ => Entry(0, ""));
    for k := 0 to batch.count
      invariant forall j :: 0 <= j < k ==> entries[j] == Entry(j, batch.Contents()[j])
    {
      entries[k] := Entry(k, batch.handles[k]);
    }
    request := entries[..batch.count];
    ok := reply.Some? && reply.value.failed == 0 && reply.value.successful == batch.count;
  }

  // ---------------------------------------------------------------- the cycle

  /** What one run of the worker reports, once it has carried the database to its next state. */
  datatype Report = Processed | Idle | Broke

  datatype Stop = Cancelled | WorkerFailed | CaughtUp

  /** Where a reconciliation loop ends: the state, the calls made, and why it stopped. */
  datatype Trace<S> = Trace(state: S, calls: nat, stop: Stop)

  /** Polling only: run until idle, failure, cancellation or ten runs. `turns(k)` is all that the outside
      supplies to the k-th run: its clock reading, identifiers, responses, rows locked by others. */
  function Poll<S, T>(run: (S, T) -> (S, Report), state: S, turns: nat -> T, cancelled: nat -> bool, k: nat)
    : (t: Trace<S>)
    requires k <= BATCH_SIZE
    ensures k <= t.calls <= BATCH_SIZE
    decreases BATCH_SIZE - k
  {
    if k == BATCH_SIZE then Trace(state, k, CaughtUp)
    else if cancelled(k) then Trace(state, k, Cancelled)
    else
      match run(state, turns(k))
      case (next, Broke) => Trace(next, k + 1, WorkerFailed)
      case (next, Idle) => Trace(next, k + 1, CaughtUp)
      case (next, Processed) => Poll(run, next, turns, cancelled, k + 1)
  }

  /** The state after `k` runs, each on its own turn. */
  function StateAfter<S, T>(run: (S, T) -> (S, Report), start: S, turns: nat -> T, k: nat): S {
    if k == 0 then start else run(StateAfter(run, start, turns, k - 1), turns(k - 1)).0
  }

  function ReportOf<S, T>(run: (S, T) -> (S, Report), start: S, turns: nat -> T, k: nat): Report {
    run(StateAfter(run, start, turns, k), turns(k)).1
  }

  /** Polling from the state after `k` runs: no run is cancelled, only the last reports anything but work
      done, and the loop stops because of that report, of a cancellation, or after ten runs. */
  lemma {:induction false} PollFacts<S, T>(run: (S, T) -> (S, Report), start: S, turns: nat -> T,
                                           cancelled: nat -> bool, k: nat)
    requires k <= 10
    ensures var t := Poll(run, StateAfter(run, start, turns, k), turns, cancelled, k);
      && k <= t.calls <= 10 && t.state == StateAfter(run, start, turns, t.calls)
      && (forall j: nat :: k <= j < t.calls ==> !cancelled(j))
      && (forall j: nat :: k <= j < t.calls - 1 ==> ReportOf(run, start, turns, j).Processed?)
      && (t.calls > k && !ReportOf(run, start, turns, t.calls - 1).Processed? ==>
            t.stop == if ReportOf(run, start, turns, t.calls - 1).Broke? then WorkerFailed else CaughtUp)
      && (t.calls == k || ReportOf(run, start, turns, t.calls - 1).Processed? ==>
            if t.calls == 10 then t.stop.CaughtUp? else t.stop.Cancelled? && cancelled(t.calls))
    decreases 10 - k
  {
    if k == 10 || cancelled(k) || !ReportOf(run, start, turns, k).Processed? {
    } else {
      PollFacts(run, start, turns, cancelled, k + 1);
    }
  }

  /** A configured queue: what it answers to the receive and to the delete. */
  datatype Inbox = Inbox(response: Option<seq<Message>>, reply: Option<DeleteResult>)

  datatype Outcome = Clean | ReceiveFailed | AcknowledgeFailed | ContextEnded | WorkerError

  predicate Received(queue: Option<Inbox>) {
    queue.Some? && queue.value.response.Some? && |queue.value.response.value| <= BATCH_SIZE
  }

  /** The loop of a cycle: it runs the worker until there is nothing to do, a run fails, the context ends or
      ten runs are made. */
  method Reconcile<S, T>(run: (S, T) -> (S, Report), start: S, turns: nat -> T, cancelled: nat -> bool)
    returns (state: S, calls: nat, stop: Stop)
    ensures Poll(run, start, turns, cancelled, 0) == Trace(state, calls, stop)
    ensures calls <= 10 && state == StateAfter(run, start, turns, calls)
    ensures forall k: nat :: k < calls ==> !cancelled(k)
    ensures forall k: nat :: k < calls - 1 ==> ReportOf(run, start, turns, k).Processed?
    ensures var idle := calls > 0 && ReportOf(run, start, turns, calls - 1).Idle?;
      var broke := calls > 0 && ReportOf(run, start, turns, calls - 1).Broke?;
      && (stop.WorkerFailed? <==> broke)
      && (stop.Cancelled? <==> !idle && !broke && calls < 10)
      && (stop.Cancelled? ==> cancelled(calls))
  {
    PollFacts(run, start, turns, cancelled, 0);
    state, calls := start, 0;
    var going := true;
    while going && calls < BATCH_SIZE
      invariant calls <= BATCH_SIZE
      invariant Poll(run, start, turns, cancelled, 0) ==
        if going then Poll(run, state, turns, cancelled, calls) else Trace(state, calls, CaughtUp)
      decreases BATCH_SIZE - calls, going
    {
      if cancelled(calls) {
        return state, calls, Cancelled;
      }
      var (next, report) := run(state, turns(calls));
      state, calls := next, calls + 1;
      if report.Broke? {
        return state, calls, WorkerFailed;
      }
      if report.Idle? {
        going := false;
      }
    }
    stop := CaughtUp;
  }

  /** Hints carry no authority: whatever the queue answers, and whether there is one at all, the cycle
      makes the runs that polling only makes of the same turns, and leaves the same state. Handles are
      deleted, all of them in order, only after a good receive and a loop that ended well. */
  method Cycle<S, T>(run: (S, T) -> (S, Report), start: S, turns: nat -> T, cancelled: nat -> bool,
                     queue: Option<Inbox>)
    returns (state: S, calls: nat, deleted: Option<seq<Entry>>, outcome: Outcome)
    ensures var polled := Poll(run, start, turns, cancelled, 0);
      && state == polled.state && calls == polled.calls
      && (deleted.Some? <==> polled.stop.CaughtUp? && Received(queue))
      && outcome == match polled.stop
                    case Cancelled => ContextEnded
                    case WorkerFailed => WorkerError
                    case CaughtUp =>
                      if queue.None? then Clean
                      else if !Received(queue) then ReceiveFailed
                      else if Confirmed(queue.value.reply, |ValidHandles(queue.value.response.value)|) then Clean
                      else AcknowledgeFailed
    ensures calls <= 10 && state == StateAfter(run, start, turns, calls)
    ensures forall k: nat :: k < calls ==> !cancelled(k)
    ensures forall k: nat :: k < calls - 1 ==> ReportOf(run, start, turns, k).Processed?
    ensures var idle := calls > 0 && ReportOf(run, start, turns, calls - 1).Idle?;
      var broke := calls > 0 && ReportOf(run, start, turns, calls - 1).Broke?;
      && (outcome.WorkerError? <==> broke)
      && (outcome.ContextEnded? <==> !idle && !broke && calls < 10)
      && (outcome.ContextEnded? ==> cancelled(calls))
      && (deleted.Some? <==>
            && (idle || (!broke && calls == 10))
            && queue.Some? && queue.value.response.Some? && |queue.value.response.value| <= 10)
      && (outcome.ReceiveFailed? ==> queue.Some? && !(queue.value.response.Some? && |queue.value.response.value| <= 10))
    ensures queue.Some? && (outcome.Clean? || outcome.AcknowledgeFailed?) ==>
      && deleted.Some?
      && (outcome.Clean? <==>
            || |deleted.value| == 0
            || (queue.value.reply.Some? && queue.value.reply.value.failed == 0
                && queue.value.reply.value.successful == |deleted.value|))
    ensures deleted.Some? ==>
      && |deleted.value| == |ValidHandles(queue.value.response.value)|
      && forall k :: 0 <= k < |deleted.value| ==>
           deleted.value[k] == Entry(k, ValidHandles(queue.value.response.value)[k])
  {
    deleted := None;
    var batch := new Batch();
    var received := true;
    if queue.Some? {
      batch, received := Receive(queue.value.response);
    }
    var stop;
    state, calls, stop := Reconcile(run, start, turns, cancelled);
    if stop.Cancelled? {
      return state, calls, None, ContextEnded;
    }
    if stop.WorkerFailed? {
      return state, calls, None, WorkerError;
    }
    if queue.Some? && received {
      var request, confirmed := Acknowledge(batch, queue.value.reply);
      return state, calls, Some(request), if confirmed then Clean else AcknowledgeFailed;
    }
    outcome := if received then Clean else ReceiveFailed;
  }

  // ---------------------------------------------------------------- deadlines

  function TimeSpent(runs: seq<int>): int {
    if runs == [] then 0 else TimeSpent(runs[..|runs| - 1]) + runs[|runs| - 1]
  }

  lemma {:induction false} RunsFit(runs: seq<int>)
    requires forall k :: 0 <= k < |runs| ==> runs[k] <= 20 * SECOND
    ensures TimeSpent(runs) <= |runs| * (20 * SECOND)
  {
    if runs == [] {
    } else {
      RunsFit(runs[..|runs| - 1]);
    }
  }

  /** A cycle whose calls keep their deadlines of 12 s, 20 s each and 3 s ends inside its own budget of
      220 s and before any hint it received becomes visible again after 300 s. */
  lemma CycleFits<S, T>(run: (S, T) -> (S, Report), start: S, turns: nat -> T, cancelled: nat -> bool,
                        receive: int, runs: seq<int>, acknowledge: int)
    requires |runs| == Poll(run, start, turns, cancelled, 0).calls
    requires receive <= 12 * SECOND && acknowledge <= 3 * SECOND
    requires forall k :: 0 <= k < |runs| ==> runs[k] <= 20 * SECOND
    ensures receive + TimeSpent(runs) + acknowledge <= 215 * SECOND < 220 * SECOND < 300 * SECOND
  {
    RunsFit(runs);
  }
}
