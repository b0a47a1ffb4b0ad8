/** The request gate of one connection (src/ConnectionContext.cc:82-131).
    `Gate` is the state the request mutex and the fence counter guard; the four
    functions are its transitions, and class `Context` is the object that performs
    them by updating its fields. */
module ConnectionContext {
  import opened Wrappers

  type Packet = string

  datatype Gate = Gate(inFlight: bool, pending: seq<Packet>, marks: int)

  const OpenGate := Gate(false, [], 0)

  /** The new gate and whether the request may be submitted at once. */
  function StartOrQueue(g: Gate, request: Packet): (Gate, bool) {
    if !g.inFlight && g.pending == [] && g.marks == 0 then
      (g.(inFlight := true), true)
    else
      (g.(pending := g.pending + [request]), false)
  }

  /** The current request is over; the next one to submit, if the fence lets one through. */
  function FinishAndPop(g: Gate): (Gate, Option<Packet>) {
    if g.pending == [] || g.marks > 0 then
      (g.(inFlight := false), None)
    else
      (Gate(true, g.pending[1..], g.marks), Some(g.pending[0]))
  }

  /** A fence was lifted; the next request to submit, if the connection is idle. */
  function PopIfIdle(g: Gate): (Gate, Option<Packet>) {
    if g.inFlight || g.pending == [] || g.marks > 0 then
      (g, None)
    else
      (Gate(true, g.pending[1..], g.marks), Some(g.pending[0]))
  }

  /** No transition reorders, drops or invents a request: what was queued before (with the
      arriving request at the end) is what was let through followed by what is queued now,
      and nothing is let through while a request is in flight or a fence is up. */
  lemma GateIsAFifo(g: Gate, request: Packet)
    ensures var (g', started) := StartOrQueue(g, request);
            (if started then [request] else []) + g'.pending == g.pending + [request]
            && (started ==> !g.inFlight && g.marks == 0 && g'.inFlight && g'.pending == [])
    ensures var (g', next) := FinishAndPop(g);
            (if next.Some? then [next.value] else []) + g'.pending == g.pending
            && (next.Some? <==> g.pending != [] && g.marks <= 0) && g'.inFlight == next.Some?
    ensures var (g', next) := PopIfIdle(g);
            (if next.Some? then [next.value] else []) + g'.pending == g.pending
            && (next.Some? <==> !g.inFlight && g.pending != [] && g.marks <= 0)
            && (g'.inFlight <==> g.inFlight || next.Some?)
  {
  }

  class Context {
    var requestInFlight: bool
    var pendingRequests: seq<Packet>
    var pendingDeliveryMarks: int

    ghost function View(): Gate
      reads this
    {
      Gate(requestInFlight, pendingRequests, pendingDeliveryMarks)
    }

    constructor ()
      ensures View() == OpenGate
    {
      requestInFlight, pendingRequests, pendingDeliveryMarks := false, [], 0;
    }

    method StartRequestOrQueue(request: Packet) returns (started: bool)
      modifies this
      ensures (View(), started) == StartOrQueue(old(View()), request)
    {
      if !requestInFlight && |pendingRequests| == 0 && pendingDeliveryMarks == 0 {
        requestInFlight := true;
        return true;
      }
      pendingRequests := pendingRequests + [request];
      return false;
    }

    method FinishRequestAndPopNext() returns (next: Option<Packet>)
      modifies this
      ensures (View(), next) == FinishAndPop(old(View()))
    {
      if |pendingRequests| == 0 || pendingDeliveryMarks > 0 {
        requestInFlight := false;
        return None;
      }
      next := Some(pendingRequests[0]);
      pendingRequests := pendingRequests[1..];
      requestInFlight := true;
    }

    method PopNextRequestIfIdle() returns (next: Option<Packet>)
      modifies this
      ensures (View(), next) == PopIfIdle(old(View()))
    {
      if requestInFlight || |pendingRequests| == 0 || pendingDeliveryMarks > 0 {
        return None;
      }
      next := Some(pendingRequests[0]);
      pendingRequests := pendingRequests[1..];
      requestInFlight := true;
    }

    method IncrementPendingDeliveryMarks()
      modifies this`pendingDeliveryMarks
      ensures View() == old(View()).(marks := old(pendingDeliveryMarks) + 1)
    {
      pendingDeliveryMarks := pendingDeliveryMarks + 1;
    }

    method DecrementPendingDeliveryMarks()
      modifies this`pendingDeliveryMarks
      ensures View() == old(View()).(marks := old(pendingDeliveryMarks) - 1)
    {
      pendingDeliveryMarks := pendingDeliveryMarks - 1;
    }
  }
}
