/** The render queue (RenderService): tickets wait in a queue ordered by
    cost, and each runner takes the cheapest and hands it to its callback. */
module Scheduling {
  import opened Common
  import opened Requests

  /** A request paired with the callback that renders it. */
  class Ticket {
    const request: RenderRequest
    const callback: object

    constructor (request: RenderRequest, callback: object)
      ensures this.request == request && this.callback == callback
    {
      this.request := request;
      this.callback := callback;
    }
  }

  /** One render worker; its thread is not part of this model. */
  class RenderRunner {
    constructor ()
    {
    }
  }

  /** The callback invocations one serviceQueue makes, in order. */
  datatype Call = HandleCancelled | DoRender | HandleRenderError(failure: Exception)

  /** What the callback throws, if anything, from handleCancelled and from doRender. */
  datatype Outcomes = Outcomes(onCancelled: Option<Exception>, onRender: Option<Exception>)

  /** The calls made for a dequeued request: handleCancelled for a
      cancelled one, doRender otherwise, and handleRenderError with
      whatever that first call threw. Whatever handleRenderError throws is
      logged and dropped, so it does not change the calls. */
  function Dispatch(cancelled: bool, outcomes: Outcomes): seq<Call> {
    var first := if cancelled then HandleCancelled else DoRender;
    var thrown := if cancelled then outcomes.onCancelled else outcomes.onRender;
    if thrown.Some? then [first, HandleRenderError(thrown.value)] else [first]
  }

  /** A cancelled request is reported as cancelled and never rendered. */
  lemma CancelledIsNeverRendered(outcomes: Outcomes)
    ensures Dispatch(true, outcomes)[0] == HandleCancelled
    ensures DoRender !in Dispatch(true, outcomes)
  {
  }

  /** A live request is rendered exactly once, first. */
  lemma LiveIsRenderedOnce(outcomes: Outcomes)
    ensures Dispatch(false, outcomes)[0] == DoRender
    ensures multiset(Dispatch(false, outcomes))[DoRender] == 1
  {
  }

  /** handleRenderError is called exactly when the first call threw, with
      what it threw, as the last call. */
  lemma ErrorHandlerIffFirstCallThrew(cancelled: bool, outcomes: Outcomes)
    ensures var thrown := if cancelled then outcomes.onCancelled else outcomes.onRender;
      var calls := Dispatch(cancelled, outcomes);
      && (thrown.Some? <==> exists i :: 0 <= i < |calls| && calls[i].HandleRenderError?)
      && (thrown.Some? ==> calls[|calls| - 1] == HandleRenderError(thrown.value))
  {
    var calls := Dispatch(cancelled, outcomes);
    if |calls| == 2 {
      assert calls[1].HandleRenderError?;
    }
  }

  /** The queue without the first occurrence of the ticket (remove(Object)). */
  function RemoveFirst(q: seq<Ticket>, t: Ticket): (r: seq<Ticket>)
    ensures multiset(r) == multiset(q) - multiset{t}
    ensures t in q ==> |r| == |q| - 1
    ensures t !in q ==> r == q
  {
    WithoutCounts(q, t);
    Without(q, t)
  }

  /** The walk behind RemoveFirst: drop the first ticket equal to t. */
  function Without(q: seq<Ticket>, t: Ticket): seq<Ticket> {
    if q == [] then []
    else if q[0] == t then q[1..]
    else [q[0]] + Without(q[1..], t)
  }

  /** Dropping one occurrence takes that copy out of the multiset. */
  lemma {:induction false} WithoutCounts(q: seq<Ticket>, t: Ticket)
    ensures multiset(Without(q, t)) == multiset(q) - multiset{t}
    ensures t in q ==> |Without(q, t)| == |q| - 1
    ensures t !in q ==> Without(q, t) == q
  {
    if q != [] {
      var tail := q[1..];
      assert q == [q[0]] + tail;
      assert multiset(q) == multiset{q[0]} + multiset(tail);
      if q[0] != t {
        WithoutCounts(tail, t);
        assert Without(q, t) == [q[0]] + Without(tail, t);
        assert multiset(Without(q, t)) == multiset{q[0]} + (multiset(tail) - multiset{t});
        assert t in q <==> t in tail;
      }
    }
  }

  /** The walk stops at the first occurrence and keeps the rest in order. */
  lemma {:induction false} WithoutKeepsOrder(q: seq<Ticket>, t: Ticket, k: nat)
    requires k < |q| && q[k] == t && t !in q[..k]
    ensures Without(q, t) == q[..k] + q[k + 1..]
  {
    if k > 0 {
      assert q[0] == q[..k][0];
      assert q[1..][..k - 1] == q[..k][1..];
      WithoutKeepsOrder(q[1..], t, k - 1);
      assert q[..k] == [q[0]] + q[1..][..k - 1];
      assert q[k + 1..] == q[1..][k..];
    }
  }

  /** Removing one ticket keeps the others in their order. */
  lemma RemoveFirstKeepsOrder(q: seq<Ticket>, t: Ticket, k: nat)
    requires k < |q| && q[k] == t && t !in q[..k]
    ensures RemoveFirst(q, t) == q[..k] + q[k + 1..]
  {
    WithoutKeepsOrder(q, t, k);
  }

  /** The requests of the queued tickets. */
  function QueuedRequests(q: seq<Ticket>): set<RenderRequest> {
    set t | t in q :: t.request
  }

  /** No queued ticket costs less than t. */
  predicate IsCheapest(t: Ticket, q: seq<Ticket>)
    reads t.request, QueuedRequests(q)
  {
    forall u :: u in q ==> t.request.CompareTo(u.request) <= 0
  }

  /** A non-empty queue has a cheapest ticket. */
  lemma {:induction false} CheapestExists(q: seq<Ticket>)
    requires q != []
    ensures exists t :: t in q && IsCheapest(t, q)
  {
    if |q| > 1 {
      CheapestExists(q[1..]);
      var t :| t in q[1..] && IsCheapest(t, q[1..]);
      if q[0].request.cost <= t.request.cost {
        assert IsCheapest(q[0], q);
      } else {
        assert IsCheapest(t, q);
      }
    } else {
      assert IsCheapest(q[0], q);
    }
  }

  class RenderService {
    var runners: seq<RenderRunner>
    /** The waiting tickets, in arrival order; take picks by cost. */
    var queue: seq<Ticket>

    /** Starts maxConcurrency runners. */
    constructor (maxConcurrency: int)
      requires maxConcurrency >= 1
      ensures |runners| == maxConcurrency && queue == []
      ensures forall i, j :: 0 <= i < j < |runners| ==> runners[i] != runners[j]
    {
      queue := [];
      runners := [];
      new;
      for i := 0 to maxConcurrency
        invariant |runners| == i && queue == []
        invariant forall k :: 0 <= k < i ==> fresh(runners[k])
        invariant forall k, l :: 0 <= k < l < i ==> runners[k] != runners[l]
      {
        var runner := new RenderRunner();
        runners := runners + [runner];
      }
    }

    /** Queues the request with its callback and returns the ticket. */
    method Submit(request: RenderRequest, callback: object) returns (ticket: Ticket)
      modifies this
      ensures fresh(ticket) && ticket.request == request && ticket.callback == callback
      ensures queue == old(queue) + [ticket] && runners == old(runners)
    {
      ticket := new Ticket(request, callback);
      queue := queue + [ticket];
    }

    /** Marks the ticket's request cancelled and takes the ticket out of the queue. */
    method Cancel(ticket: Ticket)
      modifies this, ticket.request`cancelled
      ensures ticket.request.cancelled
      ensures queue == RemoveFirst(old(queue), ticket) && runners == old(runners)
    {
      ticket.request.cancelled := true;
      queue := RemoveFirst(queue, ticket);
    }

    /** One turn of a runner: takes a cheapest ticket and makes the
        callback calls for it. An empty queue would block in take; here it
        takes nothing. */
    method ServiceQueue(outcomes: Outcomes) returns (taken: Option<Ticket>, calls: seq<Call>)
      modifies this
      ensures runners == old(runners)
      ensures old(queue) == [] ==> taken.None? && calls == [] && queue == []
      ensures old(queue) != [] ==>
        && taken.Some? && taken.value in old(queue) && IsCheapest(taken.value, old(queue))
        && queue == RemoveFirst(old(queue), taken.value)
        && calls == Dispatch(taken.value.request.cancelled, outcomes)
    {
      if queue == [] {
        return None, [];
      }
      CheapestExists(queue);
      var ticket :| ticket in queue && IsCheapest(ticket, queue);
      queue := RemoveFirst(queue, ticket);
      taken := Some(ticket);
      calls := Dispatch(ticket.request.cancelled, outcomes);
    }
  }

  /** Executors.newFixedThreadPool refuses a non-positive thread count. */
  method NewRenderService(maxConcurrency: int) returns (r: Result<RenderService, Exception>)
    ensures r.Ok? <==> maxConcurrency >= 1
    ensures r.Ok? ==> fresh(r.value) && |r.value.runners| == maxConcurrency && r.value.queue == []
    ensures r.Err? ==> r.error.IllegalArgument?
  {
    if maxConcurrency < 1 {
      return Err(IllegalArgument(""));
    }
    var service := new RenderService(maxConcurrency);
    r := Ok(service);
  }

  /** A cancelled ticket is no longer in the queue, if it was there once, so
      no runner takes it afterwards. */
  lemma CancelledTicketLeavesQueue(q: seq<Ticket>, t: Ticket)
    requires multiset(q)[t] == 1
    ensures t !in RemoveFirst(q, t)
  {
    assert multiset(RemoveFirst(q, t))[t] == 0;
  }
}
