/**
The client's half of the helper protocol: request ids, pending tickets, and the
first failure. Each function is one section under the client's lock.
*/
module Tickets {
  import opened Options

  /** One more than the largest 32-bit id; 0 is reserved for Hello and Shutdown. */
  const MODULUS: nat := 0x1_0000_0000

  datatype Request = Request(rel: string, source: nat, size: nat)

  /** What the helper sends back for a request. */
  type WireReply = nat

  datatype Cause = Exited | Stopped | UnknownId | UnexpectedFrame | Malformed

  datatype Failure = Crashed(cause: Cause) | Protocol(cause: Cause) | Closed

  /** `TooLarge` is answered at once, with the source unchanged. */
  datatype Answer = Replied(rel: string, reply: WireReply) | Failed(failure: Failure) | TooLarge

  datatype Pending = Pending(rel: string, ticket: nat)

  /** What was sent to a ticket: nothing yet, one answer, or more than it can hold. */
  datatype Mailbox = Empty | One(answer: Answer) | Overfull

  /** `answers[t]` is what was sent to ticket `t`. */
  datatype Client = Client(nextId: nat, pending: map<nat, Pending>, failure: Option<Failure>, requests: seq<Request>, answers: seq<Mailbox>)

  const FRESH := Client(1, map[], None, [], [])

  // ----- ids -----

  predicate IsFree(id: nat, pending: map<nat, Pending>) {
    0 < id < MODULUS && id !in pending
  }

  /** The ids counted from `nextId`, wrapping around. */
  function After(nextId: nat, steps: nat): nat {
    (nextId + steps) % MODULUS
  }

  /** `id` is the first free one from `nextId` on. */
  ghost predicate IsNextFree(nextId: nat, pending: map<nat, Pending>, id: nat, steps: nat) {
    && id == After(nextId, steps) && IsFree(id, pending)
    && forall i :: 0 <= i < steps ==> !IsFree(After(nextId, i), pending)
  }

  ghost predicate HasFree(pending: map<nat, Pending>) {
    exists id :: IsFree(id, pending)
  }

  /** From `nextId`, an id in range is reached by counting. */
  lemma Reaches(nextId: nat, id: nat) returns (steps: nat)
    requires nextId < MODULUS && id < MODULUS
    ensures steps < MODULUS && After(nextId, steps) == id
  {
    steps := (id - nextId) % MODULUS;
    if nextId <= id {
      assert steps == id - nextId;
    } else {
      assert steps == id - nextId + MODULUS;
    }
  }

  /** The counter stops at the first free id, and finds one if there is one. */
  method AllocateId(nextId: nat, pending: map<nat, Pending>) returns (id: nat, next: nat, ghost steps: nat)
    requires nextId < MODULUS && HasFree(pending)
    ensures IsNextFree(nextId, pending, id, steps) && next == After(id, 1)
  {
    ghost var free :| IsFree(free, pending);
    ghost var bound := Reaches(nextId, free);
    id, steps := nextId, 0;
    while id == 0 || id in pending
      invariant steps <= bound && id == After(nextId, steps)
      invariant forall i :: 0 <= i < steps ==> !IsFree(After(nextId, i), pending)
      decreases bound - steps
    {
      AfterOne(nextId, steps);
      id, steps := (id + 1) % MODULUS, steps + 1;
    }
    next := (id + 1) % MODULUS;
  }

  lemma AfterOne(nextId: nat, steps: nat)
    ensures After(nextId, steps + 1) == (After(nextId, steps) + 1) % MODULUS
  {
    var sum := nextId + steps;
    assert sum == MODULUS * (sum / MODULUS) + sum % MODULUS;
    if sum % MODULUS + 1 < MODULUS {
      assert (sum + 1) / MODULUS == sum / MODULUS;
    } else {
      assert (sum + 1) / MODULUS == sum / MODULUS + 1;
    }
  }

  function Ids(n: nat): (s: set<nat>)
    ensures |s| == n && forall id :: id in s <==> 0 < id <= n
  {
    if n == 0 then {} else Ids(n - 1) + {n}
  }

  /** Counting never ends exactly when every id is pending, all 2^32 - 1 of them. */
  lemma FreeUnlessFull(pending: map<nat, Pending>)
    requires forall id :: id in pending ==> 0 < id < MODULUS
    ensures HasFree(pending) <==> |pending| < MODULUS - 1
  {
    var all := Ids(MODULUS - 1);
    assert pending.Keys <= all;
    if HasFree(pending) {
      var id :| IsFree(id, pending);
      Smaller(pending.Keys, all - {id});
    } else {
      forall id | id in all ensures id in pending {
        assert !IsFree(id, pending);
      }
      Smaller(all, pending.Keys);
    }
  }

  lemma Smaller<T>(a: set<T>, b: set<T>)
    requires a <= b
    ensures |a| <= |b|
  {
    if a != {} {
      var x :| x in a;
      Smaller(a - {x}, b - {x});
    }
  }

  // ----- the sections under the lock -----

  function Put(box: Mailbox, answer: Answer): Mailbox {
    if box.Empty? then One(answer) else Overfull
  }

  /** Another ticket, with what was sent to it. */
  function Issue(c: Client, request: Request, box: Mailbox): Client {
    c.(requests := c.requests + [request], answers := c.answers + [box])
  }

  /** A ticket for `request` under the id `id`. */
  function Register(c: Client, request: Request, id: nat): Client {
    Issue(c, request, Empty).(nextId := After(id, 1), pending := c.pending[id := Pending(request.rel, |c.requests|)])
  }

  function SendAll(answers: seq<Mailbox>, tickets: set<nat>, answer: Answer): seq<Mailbox> {
    seq(|answers|, t requires 0 <= t < |answers| => if t in tickets then Put(answers[t], answer) else answers[t])
  }

  function WaitingTickets(pending: map<nat, Pending>): set<nat> {
    set id | id in pending :: pending[id].ticket
  }

  /** The first failure stands; everything pending fails with it. */
  function Fail(c: Client, failure: Failure): Client {
    var first := if c.failure.Some? then c.failure.value else failure;
    c.(failure := Some(first), pending := map[], answers := SendAll(c.answers, WaitingTickets(c.pending), Failed(first)))
  }

  /** Answer the ticket registered under `id`. */
  function Deliver(c: Client, id: nat, reply: WireReply): Client
    requires id in c.pending && c.pending[id].ticket < |c.answers|
  {
    var waiting := c.pending[id];
    c.(pending := c.pending - {id}, answers := c.answers[waiting.ticket := Put(c.answers[waiting.ticket], Replied(waiting.rel, reply))])
  }

  // ----- what holds of the client -----

  ghost predicate Waits(c: Client, ticket: nat) {
    exists id :: id in c.pending && c.pending[id].ticket == ticket
  }

  /** A ticket waits under one id and has no answer, or it has one answer, its own. */
  ghost predicate TicketOk(c: Client, handle: Request -> WireReply, t: nat)
    requires t < |c.requests| == |c.answers|
  {
    if Waits(c, t) then c.answers[t] == Empty else
      && c.answers[t].One?
      && (c.answers[t].answer.Replied? ==> c.answers[t].answer == Replied(c.requests[t].rel, handle(c.requests[t])))
      && (c.answers[t].answer.Failed? ==> c.failure == Some(c.answers[t].answer.failure))
  }

  ghost predicate ClientOk(c: Client, handle: Request -> WireReply) {
    && |c.requests| == |c.answers| && c.nextId < MODULUS
    && (c.failure.Some? ==> c.pending == map[])
    && (forall id :: id in c.pending ==>
          0 < id < MODULUS && c.pending[id].ticket < |c.requests| && c.pending[id].rel == c.requests[c.pending[id].ticket].rel)
    && (forall i, k :: i in c.pending && k in c.pending && c.pending[i].ticket == c.pending[k].ticket ==> i == k)
    && forall t :: 0 <= t < |c.requests| ==> TicketOk(c, handle, t)
  }

  lemma IssueKeeps(c: Client, handle: Request -> WireReply, request: Request)
    requires ClientOk(c, handle)
    ensures ClientOk(Issue(c, request, One(TooLarge)), handle)
  {
    var d := Issue(c, request, One(TooLarge));
    forall t | 0 <= t < |d.requests| ensures TicketOk(d, handle, t) {
      if t < |c.requests| {
        assert TicketOk(c, handle, t) && (Waits(d, t) <==> Waits(c, t));
      }
    }
  }

  lemma RegisterKeeps(c: Client, handle: Request -> WireReply, request: Request, id: nat)
    requires ClientOk(c, handle) && c.failure.None? && IsFree(id, c.pending)
    ensures ClientOk(Register(c, request, id), handle)
  {
    var d := Register(c, request, id);
    forall t | 0 <= t < |d.requests| ensures TicketOk(d, handle, t) {
      if t < |c.requests| {
        assert TicketOk(c, handle, t);
        if Waits(c, t) {
          var i :| i in c.pending && c.pending[i].ticket == t;
          assert i in d.pending && d.pending[i].ticket == t;
        }
      } else {
        assert id in d.pending && d.pending[id].ticket == t;
      }
    }
  }

  lemma FailKeeps(c: Client, handle: Request -> WireReply, failure: Failure)
    requires ClientOk(c, handle)
    ensures ClientOk(Fail(c, failure), handle)
  {
    var d := Fail(c, failure);
    forall t | 0 <= t < |d.requests| ensures TicketOk(d, handle, t) {
      assert TicketOk(c, handle, t);
      assert t in WaitingTickets(c.pending) <==> Waits(c, t);
    }
  }

  /** The reply to the request registered under `id` is its ticket's. */
  lemma DeliverKeeps(c: Client, handle: Request -> WireReply, id: nat, reply: WireReply)
    requires ClientOk(c, handle) && id in c.pending && reply == handle(c.requests[c.pending[id].ticket])
    ensures ClientOk(Deliver(c, id, reply), handle)
  {
    var d := Deliver(c, id, reply);
    var mine := c.pending[id].ticket;
    assert Waits(c, mine);
    forall t | 0 <= t < |d.requests| ensures TicketOk(d, handle, t) {
      assert TicketOk(c, handle, t);
      if t != mine && Waits(c, t) {
        var i :| i in c.pending && c.pending[i].ticket == t;
        assert i in d.pending;
      }
    }
  }

  /** What never changes again: the first failure, and answers once sent. */
  ghost predicate Later(c: Client, d: Client) {
    && (c.failure.Some? ==> d.failure == c.failure)
    && c.requests <= d.requests && |c.answers| <= |d.answers|
    && forall t :: 0 <= t < |c.answers| && c.answers[t] != Empty ==> d.answers[t] == c.answers[t]
  }

  // ----- the client's shared state -----

  class Shared {
    var nextId: nat
    var pending: map<nat, Pending>
    var failure: Option<Failure>
    /** The tickets given out, and what was sent to each. */
    var requests: seq<Request>
    var answers: seq<Mailbox>

    const limit: nat

    ghost function Value(): Client
      reads this
    {
      Client(nextId, pending, failure, requests, answers)
    }

    constructor (limit: nat)
      ensures Value() == FRESH && this.limit == limit
    {
      nextId, pending, failure, requests, answers, this.limit := 1, map[], None, [], [], limit;
    }

    /** A ticket and the id to send its request under; or the failure there has been. */
    method Submit(request: Request) returns (refused: Option<Failure>, id: Option<nat>)
      requires nextId < MODULUS && HasFree(pending) && |requests| == |answers|
      modifies this
      ensures request.size > limit ==> refused.None? && id.None? && Value() == Issue(old(Value()), request, One(TooLarge))
      ensures request.size <= limit ==> refused == old(failure)
      ensures request.size <= limit && refused.Some? ==> id.None? && Value() == old(Value())
      ensures request.size <= limit && refused.None? ==>
        && id.Some? && (exists steps :: IsNextFree(old(nextId), old(pending), id.value, steps))
        && Value() == Register(old(Value()), request, id.value)
    {
      if request.size > limit {
        requests, answers := requests + [request], answers + [One(TooLarge)];
        return None, None;
      }
      if failure.Some? {
        return failure, None;
      }
      var own, next;
      ghost var steps;
      own, next, steps := AllocateId(nextId, pending);
      nextId := next;
      pending := pending[own := Pending(request.rel, |requests|)];
      requests, answers := requests + [request], answers + [Empty];
      return None, Some(own);
    }

    /** Record the first failure and fail every pending request with it. */
    method FailAll(reason: Failure)
      modifies this
      ensures Value() == Fail(old(Value()), reason)
    {
      if failure.None? {
        failure := Some(reason);
      }
      var waiting := WaitingTickets(pending);
      pending := map[];
      answers := SendAll(answers, waiting, Failed(failure.value));
    }

    /** Answer the ticket registered under `id`; a reply to anything else is a protocol failure. */
    method DeliverReply(id: nat, reply: WireReply) returns (broken: Option<Failure>)
      requires forall i :: i in pending ==> pending[i].ticket < |answers|
      modifies this
      ensures id in old(pending) ==> broken.None? && Value() == Deliver(old(Value()), id, reply)
      ensures id !in old(pending) ==> broken == Some(Protocol(UnknownId)) && Value() == old(Value())
    {
      if id !in pending {
        return Some(Protocol(UnknownId));
      }
      var waiting := pending[id];
      pending := pending - {id};
      answers := answers[waiting.ticket := Put(answers[waiting.ticket], Replied(waiting.rel, reply))];
      broken := None;
    }
  }
}
