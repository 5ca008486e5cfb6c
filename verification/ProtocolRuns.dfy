/**
What holds in every state the client and the helper can reach, whatever the
interleaving; and that requests are answered before a clean end.
*/
module ProtocolRuns {
  import opened Options
  import opened Tickets
  import opened Protocol

  // ----- one step -----

  lemma StepKeepsClient(conf: Settings, s: System, step: Step)
    requires Inv(conf, s) && Enabled(conf, s, step)
    ensures ClientOk(Do(conf, s, step).client, conf.handle)
  {
    hide ClientOk, Flow, Order, Kinds, IsNextFree, Fail, Deliver, Register, AllFit, Delivered;
    match step
    case Submit(request, id) =>
      IssueKeeps(s.client, conf.handle, request);
      if request.size <= conf.limit && s.client.failure.None? {
        FreeIsNotPending(conf, s, step);
        RegisterKeeps(s.client, conf.handle, request, id);
      }
    case DeliverReply =>
      DeliveredClient(conf, s);
      FailKeeps(s.client, conf.handle, Failure.Protocol(UnexpectedFrame));
      FailKeeps(s.client, conf.handle, Failure.Protocol(UnknownId));
      var m := s.stdout[0];
      if m.Reply? && m.id in s.client.pending {
        HeadFits(conf.handle, s);
        DeliverKeeps(s.client, conf.handle, m.id, m.reply);
      }
    case End(torn) =>
      FailKeeps(s.client, conf.handle, if torn then Failure.Protocol(Malformed) else if s.closing then Closed else Crashed(Exited));
    case Drop => FailKeeps(s.client, conf.handle, Crashed(Stopped));
    case _ =>
  }

  // ----- what is too large -----

  lemma FailKeepsLarge(limit: nat, c: Client, handle: Request -> WireReply, failure: Failure)
    requires ClientOk(c, handle) && LargeOnly(limit, c)
    ensures LargeOnly(limit, Fail(c, failure))
  {
    var d := Fail(c, failure);
    forall t | 0 <= t < |d.requests| ensures d.answers[t] == One(TooLarge) <==> d.requests[t].size > limit {
      assert TicketOk(c, handle, t);
      assert t in WaitingTickets(c.pending) <==> Waits(c, t);
    }
  }

  lemma DeliverKeepsLarge(limit: nat, c: Client, handle: Request -> WireReply, id: nat, reply: WireReply)
    requires ClientOk(c, handle) && LargeOnly(limit, c) && id in c.pending
    ensures LargeOnly(limit, Deliver(c, id, reply))
  {
    var mine := c.pending[id].ticket;
    assert Waits(c, mine) && TicketOk(c, handle, mine);
  }

  lemma SubmitKeepsLarge(conf: Settings, s: System, request: Request, id: nat)
    requires LargeOnly(conf.limit, s.client)
    ensures LargeOnly(conf.limit, Submitted(conf, s, request, id).client)
  {
    hide LargeOnly, Issue, Register;
    if request.size > conf.limit {
      IssueKeepsLarge(conf.limit, s.client, request, One(TooLarge));
    } else if s.client.failure.None? {
      IssueKeepsLarge(conf.limit, s.client, request, Empty);
      RegisterKeepsLarge(conf.limit, s.client, request, id);
    }
  }

  lemma IssueKeepsLarge(limit: nat, c: Client, request: Request, box: Mailbox)
    requires LargeOnly(limit, c) && (box == One(TooLarge) <==> request.size > limit)
    ensures LargeOnly(limit, Issue(c, request, box))
  {
  }

  lemma RegisterKeepsLarge(limit: nat, c: Client, request: Request, id: nat)
    requires LargeOnly(limit, Issue(c, request, Empty))
    ensures LargeOnly(limit, Register(c, request, id))
  {
    hide After;
  }

  lemma DeliveredKeepsLarge(conf: Settings, s: System)
    requires Inv(conf, s) && s.stdout != []
    ensures LargeOnly(conf.limit, Delivered(conf, s).client)
  {
    hide ClientOk, LargeOnly, Fail, Deliver, Delivered, Flow, Right, Kinds, Order;
    DeliveredClient(conf, s);
    FailKeepsLarge(conf.limit, s.client, conf.handle, Failure.Protocol(UnexpectedFrame));
    FailKeepsLarge(conf.limit, s.client, conf.handle, Failure.Protocol(UnknownId));
    var m := s.stdout[0];
    if m.Reply? && m.id in s.client.pending {
      DeliverKeepsLarge(conf.limit, s.client, conf.handle, m.id, m.reply);
    }
  }

  lemma StepKeepsLarge(conf: Settings, s: System, step: Step)
    requires Inv(conf, s) && Enabled(conf, s, step)
    ensures LargeOnly(conf.limit, Do(conf, s, step).client)
  {
    hide ClientOk, LargeOnly, Flow, Right, Order, Kinds, IsNextFree, Fail, Submitted, Delivered;
    match step
    case Submit(request, id) => SubmitKeepsLarge(conf, s, request, id);
    case DeliverReply => DeliveredKeepsLarge(conf, s);
    case End(torn) =>
      FailKeepsLarge(conf.limit, s.client, conf.handle, if torn then Failure.Protocol(Malformed) else if s.closing then Closed else Crashed(Exited));
    case Drop => FailKeepsLarge(conf.limit, s.client, conf.handle, Crashed(Stopped));
    case _ =>
  }

  lemma HeadFits(handle: Request -> WireReply, s: System)
    requires Right(handle, s) && s.stdout != []
    ensures Fits(handle, s.client, s.stdout[0])
  {
  }

  lemma MovedKinds(a: seq<Message>, b: seq<Message>)
    requires a != []
    ensures OnlyRequests(a) && OnlyRequests(b) ==> OnlyRequests(a[1..]) && OnlyRequests(b + [a[0]])
    ensures OnlyReplies(a) && OnlyReplies(b) ==> OnlyReplies(a[1..]) && OnlyReplies(b + [a[0]])
  {
  }

  lemma StreamMoved(a: seq<Message>, b: seq<Message>)
    requires b != []
    ensures (a + [b[0]]) + b[1..] == a + b
  {
  }

  lemma StreamTail(a: seq<Message>, b: seq<Message>)
    requires a != [] && ShutdownLast(a + b)
    ensures ShutdownLast(a[1..] + b) && !a[0].Reply? && (a[0].Shutdown? ==> a[1..] == [] && b == [])
    ensures Shutdown in a[1..] + b ==> Shutdown in a + b
  {
    assert (a + b)[1..] == a[1..] + b && (a + b)[0] == a[0];
  }

  lemma StreamMore(a: seq<Message>, b: seq<Message>, m: Message)
    requires ShutdownLast(a + b) && Shutdown !in a + b && !m.Reply?
    ensures ShutdownLast(a + (b + [m])) && (m.Process? ==> Shutdown !in a + (b + [m]))
  {
    assert a + (b + [m]) == (a + b) + [m];
  }

  lemma StreamHead(a: seq<Message>, b: seq<Message>)
    requires ShutdownLast(a + b)
    ensures ShutdownLast([] + b) && ShutdownLast(a + []) && (Shutdown in [] + b || Shutdown in a + [] ==> Shutdown in a + b)
  {
    assert [] + b == b && a + [] == a;
    forall i | 0 <= i < |b| ensures !b[i].Reply? && (b[i].Shutdown? ==> i == |b| - 1) {
      assert (a + b)[|a| + i] == b[i];
    }
    forall i | 0 <= i < |a| ensures !a[i].Reply? && (a[i].Shutdown? ==> i == |a| - 1) {
      assert (a + b)[i] == a[i];
    }
  }

  lemma WithoutKinds(a: seq<Message>, k: nat)
    requires k < |a| && OnlyRequests(a)
    ensures OnlyRequests(Without(a, k)) && a[k].Process?
  {
    forall i | 0 <= i < |Without(a, k)| ensures Without(a, k)[i].Process? {
      assert Without(a, k)[i] == if i < k then a[i] else a[i + 1];
    }
  }

  lemma StepKeepsKinds(conf: Settings, s: System, step: Step)
    requires Inv(conf, s) && Enabled(conf, s, step)
    ensures Kinds(Do(conf, s, step))
  {
    hide Right, Flow, ClientOk, Without, OnlyRequests, OnlyReplies, ShutdownLast, IsNextFree, Submitted, Delivered;
    NoKinds();
    StreamHead(s.stdin, s.outbox);
    match step
    case Submit(request, id) => SubmittedKinds(conf, s, request, id);
    case Enqueue(k) =>
      WithoutKinds(s.held, k);
      if s.writing {
        StreamMore(s.stdin, s.outbox, s.held[k]);
      }
    case Close => StreamMore(s.stdin, s.outbox, Shutdown);
    case Write => StreamMoved(s.stdin, s.outbox);
    case Read =>
      StreamTail(s.stdin, s.outbox);
      if s.stdin[0].Process? {
        MovedRequest(s.jobs, s.stdin[0]);
      }
    case Take => MovedKinds(s.jobs, s.working);
    case Finish(w) =>
      WithoutKinds(s.working, w);
      MovedReply(s.replies, Finished(conf.handle, s.working[w]));
    case SendReply => MovedKinds(s.replies, s.stdout);
    case DeliverReply => DeliveredKinds(conf, s);
    case _ =>
  }

  lemma NoKinds()
    ensures OnlyRequests([]) && OnlyReplies([]) && ShutdownLast([])
  {
  }

  lemma MovedRequest(a: seq<Message>, m: Message)
    requires OnlyRequests(a) && m.Process?
    ensures OnlyRequests(a + [m])
  {
  }

  lemma MovedReply(a: seq<Message>, m: Message)
    requires OnlyReplies(a) && m.Reply?
    ensures OnlyReplies(a + [m])
  {
  }

  lemma SubmittedKinds(conf: Settings, s: System, request: Request, id: nat)
    requires Kinds(s)
    ensures Kinds(Submitted(conf, s, request, id))
  {
    hide ShutdownLast, OnlyReplies, OnlyRequests, Issue, Register;
    if request.size <= conf.limit {
      if s.client.failure.None? {
        MovedRequest(s.held, Process(id, request));
      }
    }
  }

  lemma DeliveredKinds(conf: Settings, s: System)
    requires Inv(conf, s) && s.stdout != []
    ensures Kinds(Delivered(conf, s))
  {
    hide Right, Flow, ClientOk, ShutdownLast, OnlyRequests, OnlyReplies, Deliver, Fail;
    RepliesTail(s.stdout);
    var m, rest := s.stdout[0], s.(stdout := s.stdout[1..]);
    if m.Reply? && m.id in s.client.pending {
    } else {
      EndedKinds(rest, Failure.Protocol(UnexpectedFrame));
      EndedKinds(rest, Failure.Protocol(UnknownId));
    }
  }

  lemma RepliesTail(s: seq<Message>)
    requires OnlyReplies(s) && s != []
    ensures OnlyReplies(s[1..])
  {
  }

  lemma EndedKinds(s: System, failure: Failure)
    requires Kinds(s)
    ensures Kinds(Killed(Ended(s, failure)))
  {
    hide ShutdownLast, OnlyRequests, OnlyReplies, Fail;
    NoKinds();
    StreamHead(s.stdin, s.outbox);
  }

  predicate IsWriting(step: Step) {
    step.Submit? || step.Enqueue? || step.Close? || step.Write? || step.WriteFails? || step.WriterEnds?
  }

  lemma WritingKeepsOrder(conf: Settings, s: System, step: Step)
    requires Inv(conf, s) && Enabled(conf, s, step) && IsWriting(step)
    ensures Order(Do(conf, s, step))
  {
    hide Right, Flow, ClientOk, IsNextFree, Issue, Register, Kinds;
    if step.Submit? {
      SubmittedFailure(conf, s, step.request, step.id);
    }
  }

  lemma HelpingKeepsOrder(conf: Settings, s: System, step: Step)
    requires Inv(conf, s) && Enabled(conf, s, step) && !IsWriting(step)
    ensures Order(Do(conf, s, step))
  {
    hide Right, Flow, ClientOk, IsNextFree, Fail, Deliver, Kinds, Without;
    if step.Read? {
      KindsOfStream(s);
      StreamTail(s.stdin, s.outbox);
    }
    FailureStays(conf, s, step);
  }

  lemma KindsOfStream(s: System)
    requires Kinds(s)
    ensures ShutdownLast(s.stdin + s.outbox) && (Shutdown in s.stdin + s.outbox ==> !s.outboxOpen)
    ensures s.stdin != [] && s.stdin[0].Shutdown? ==> !s.outboxOpen
  {
    if s.stdin != [] {
      assert (s.stdin + s.outbox)[0] == s.stdin[0];
    }
  }

  lemma StepKeepsOrder(conf: Settings, s: System, step: Step)
    requires Inv(conf, s) && Enabled(conf, s, step)
    ensures Order(Do(conf, s, step))
  {
    hide Enabled, Order;
    if IsWriting(step) {
      WritingKeepsOrder(conf, s, step);
    } else {
      HelpingKeepsOrder(conf, s, step);
    }
  }

  /** Every step of every thread keeps the invariant. */
  lemma StepKeepsInv(conf: Settings, s: System, step: Step)
    requires Inv(conf, s) && Enabled(conf, s, step)
    ensures Inv(conf, Do(conf, s, step))
  {
    hide Do, Enabled, ClientOk, LargeOnly, Flow, Right, Kinds, Order;
    StepKeepsClient(conf, s, step);
    StepKeepsLarge(conf, s, step);
    StepKeepsFlow(conf, s, step);
    StepKeepsRight(conf, s, step);
    StepKeepsKinds(conf, s, step);
    StepKeepsOrder(conf, s, step);
  }

  // ----- one request -----

  /**
  A request within the limit, before any failure, waits under its id, and one
  frame with it is on its way; no other frame and no other ticket changes.
  */
  lemma SubmittedWaits(conf: Settings, s: System, request: Request, id: nat)
    requires Inv(conf, s) && Enabled(conf, s, Step.Submit(request, id)) && request.size <= conf.limit && s.client.failure.None?
    ensures var t, ticket := Do(conf, s, Step.Submit(request, id)), |s.client.requests|;
      && t.client.requests == s.client.requests + [request] && t.client.answers == s.client.answers + [Empty]
      && id !in s.client.pending && t.client.pending == s.client.pending[id := Pending(request.rel, ticket)]
      && t.held == s.held + [Process(id, request)] && InFlight(s, id) == 0 && InFlight(t, id) == 1
      && t.(client := s.client, held := s.held) == s
  {
    hide ClientOk, Right, Order, Kinds, Count, After;
    FreeIsNotPending(conf, s, Step.Submit(request, id));
    assert FlowAt(s, id);
    CountAppend(s.held, Process(id, request), id);
  }

  /** One over the limit is answered at once; one after a failure leaves everything as it was. */
  lemma SubmittedEnds(conf: Settings, s: System, request: Request, id: nat)
    requires Inv(conf, s) && Enabled(conf, s, Step.Submit(request, id)) && (request.size > conf.limit || s.client.failure.Some?)
    ensures var t := Do(conf, s, Step.Submit(request, id));
      && t.(client := s.client) == s && t.client.pending == s.client.pending
      && (request.size > conf.limit ==> t.client.requests == s.client.requests + [request] && t.client.answers == s.client.answers + [One(TooLarge)])
      && (request.size <= conf.limit ==> t == s)
  {
    hide ClientOk, Flow, Right, Order, Kinds;
  }

  // ----- whole runs -----

  /** `steps` lead from `s` to `t`. */
  ghost predicate Leads(conf: Settings, s: System, steps: seq<Step>, t: System)
    decreases |steps|
  {
    if steps == [] then s == t else
      Enabled(conf, s, steps[0]) && ClientOk(s.client, conf.handle) && Leads(conf, Do(conf, s, steps[0]), steps[1..], t)
  }

  lemma StartIsGood(conf: Settings)
    ensures Inv(conf, START)
  {
    assert START.stdin + START.outbox == [];
  }

  /** No step changes the first failure, or an answer once sent. */
  lemma StepIsLater(conf: Settings, s: System, step: Step)
    requires Inv(conf, s) && Enabled(conf, s, step)
    ensures Later(s.client, Do(conf, s, step).client)
  {
    hide Flow, Right, Kinds, Order, IsNextFree, ClientOk, Fail, Deliver, Issue, Register, Later, Delivered;
    if step.Submit? {
      SameIsLater(s.client);
      IssueIsLater(s.client, step.request, step.id);
    } else if step.DeliverReply? {
      DeliveredIsLater(conf, s);
    } else if step.End? {
      FailIsLater(s.client, conf.handle, if step.torn then Failure.Protocol(Malformed) else if s.closing then Closed else Crashed(Exited));
    } else if step.Drop? {
      FailIsLater(s.client, conf.handle, Crashed(Stopped));
    } else {
      OthersKeepClient(conf, s, step);
      SameIsLater(s.client);
    }
  }

  lemma OthersKeepClient(conf: Settings, s: System, step: Step)
    requires Enabled(conf, s, step) && ClientOk(s.client, conf.handle)
    requires !step.Submit? && !step.DeliverReply? && !step.End? && !step.Drop?
    ensures Do(conf, s, step).client == s.client
  {
    hide Enabled, ClientOk, Delivered, Ended, Submitted, Without, Finished;
    match step
    case Enqueue(_) =>
    case Close =>
    case Write =>
    case WriteFails =>
    case WriterEnds =>
    case Read =>
    case ReadEnds =>
    case Take =>
    case Finish(_) =>
    case SendReply =>
    case Exit =>
    case Crash =>
  }

  lemma DeliveredIsLater(conf: Settings, s: System)
    requires Inv(conf, s) && s.stdout != []
    ensures Later(s.client, Delivered(conf, s).client)
  {
    hide ClientOk, Fail, Deliver, Later, Delivered;
    DeliveredClient(conf, s);
    var m := s.stdout[0];
    if m.Reply? && m.id in s.client.pending {
      DeliverIsLater(s.client, conf.handle, m.id, m.reply);
    } else {
      FailIsLater(s.client, conf.handle, Failure.Protocol(UnexpectedFrame));
      FailIsLater(s.client, conf.handle, Failure.Protocol(UnknownId));
    }
  }

  lemma SameIsLater(c: Client)
    ensures Later(c, c)
  {
  }

  lemma FailIsLater(c: Client, handle: Request -> WireReply, failure: Failure)
    requires ClientOk(c, handle)
    ensures Later(c, Fail(c, failure))
  {
    forall t | 0 <= t < |c.answers| && c.answers[t] != Empty ensures Fail(c, failure).answers[t] == c.answers[t] {
      assert TicketOk(c, handle, t);
      assert t in WaitingTickets(c.pending) ==> Waits(c, t);
    }
  }

  lemma IssueIsLater(c: Client, request: Request, id: nat)
    ensures Later(c, Issue(c, request, One(TooLarge))) && Later(c, Register(c, request, id))
  {
    hide After;
  }

  lemma DeliverIsLater(c: Client, handle: Request -> WireReply, id: nat, reply: WireReply)
    requires ClientOk(c, handle) && id in c.pending
    ensures Later(c, Deliver(c, id, reply))
  {
    var ticket := c.pending[id].ticket;
    assert Waits(c, ticket) && TicketOk(c, handle, ticket);
  }

  lemma LaterTrans(c: Client, d: Client, e: Client)
    requires Later(c, d) && Later(d, e)
    ensures Later(c, e)
  {
    forall t | 0 <= t < |c.answers| && c.answers[t] != Empty ensures e.answers[t] == c.answers[t] {
      assert d.answers[t] == c.answers[t];
    }
  }

  /** Over any interleaving, from any good state. */
  lemma {:induction false} RunKeepsInv(conf: Settings, s: System, steps: seq<Step>, t: System)
    requires Inv(conf, s) && Leads(conf, s, steps, t)
    ensures Inv(conf, t) && Later(s.client, t.client)
    decreases |steps|
  {
    hide Inv, Do, Enabled, ClientOk, Later;
    if steps == [] {
      SameIsLater(s.client);
    } else {
      var u := Do(conf, s, steps[0]);
      StepKeepsInv(conf, s, steps[0]);
      StepIsLater(conf, s, steps[0]);
      RunKeepsInv(conf, u, steps[1..], t);
      LaterTrans(s.client, u.client, t.client);
    }
  }

  /** Each ticket is answered once at most, with the helper's reply to its own request or the first failure. */
  lemma AnswersAreOwn(conf: Settings, steps: seq<Step>, t: System, ticket: nat)
    requires Leads(conf, START, steps, t) && ticket < |t.client.requests|
    ensures |t.client.answers| == |t.client.requests|
    ensures var request := t.client.requests[ticket];
      && (request.size > conf.limit ==> t.client.answers[ticket] == One(TooLarge))
      && match t.client.answers[ticket]
      case Empty => t.client.failure.None?
      case One(Replied(rel, reply)) => rel == request.rel && reply == conf.handle(request)
      case One(Failed(failure)) => t.client.failure == Some(failure)
      case One(TooLarge) => request.size > conf.limit
      case Overfull => false
  {
    hide Leads, Flow, Right, Kinds, Order;
    StartIsGood(conf);
    RunKeepsInv(conf, START, steps, t);
    assert ClientOk(t.client, conf.handle) && TicketOk(t.client, conf.handle, ticket);
  }

  /** After a failure nothing is pending any more, and every request is refused with it. */
  lemma FailureIsFinal(conf: Settings, s: System, steps: seq<Step>, t: System, request: Request, id: nat)
    requires Inv(conf, s) && s.client.failure.Some? && Leads(conf, s, steps, t)
    ensures t.client.failure == s.client.failure && t.client.pending == map[]
    ensures request.size <= conf.limit ==> Submitted(conf, t, request, id) == t
  {
    RunKeepsInv(conf, s, steps, t);
  }

  // ----- a clean end -----

  /** Every request has the helper's own reply, or was too large to be sent. */
  ghost predicate AllAnswered(conf: Settings, c: Client) {
    && |c.answers| == |c.requests|
    && forall t :: 0 <= t < |c.requests| ==>
        c.answers[t] == One(if c.requests[t].size > conf.limit then TooLarge else Replied(c.requests[t].rel, conf.handle(c.requests[t])))
  }

  lemma EachIsAnswered(conf: Settings, s: System)
    requires Inv(conf, s) && s.client.failure.None? && s.client.pending == map[]
    ensures AllAnswered(conf, s.client)
  {
    hide Flow, Right, Kinds, Order;
    forall t | 0 <= t < |s.client.requests|
      ensures s.client.answers[t] == One(if s.client.requests[t].size > conf.limit then TooLarge else Replied(s.client.requests[t].rel, conf.handle(s.client.requests[t])))
    {
      assert TicketOk(s.client, conf.handle, t);
    }
  }

  /** A clean end of the helper finds every request answered with its own reply. */
  lemma CleanEndIsComplete(conf: Settings, s: System)
    requires Inv(conf, s) && s.client.failure.None? && s.exited && !s.lost && s.stdout == []
    ensures s.closing && s.client.pending == map[]
    ensures AllAnswered(conf, s.client)
    ensures Enabled(conf, s, Step.End(false)) && Do(conf, s, Step.End(false)).client.failure == Some(Closed)
  {
    forall id: nat ensures id !in s.client.pending {
      assert FlowAt(s, id);
    }
    EachIsAnswered(conf, s);
  }

  // ----- no request waits for ever -----

  /** The steps that move frames on. */
  predicate IsMove(step: Step) {
    step.Enqueue? || step.Write? || step.Read? || step.Take? || step.Finish? || step.SendReply? || step.DeliverReply?
  }

  /** How far the frames have to go. */
  function Distance(s: System): nat {
    7 * |s.held| + 6 * |s.outbox| + 5 * |s.stdin| + 4 * |s.jobs| + 3 * |s.working| + 2 * |s.replies| + |s.stdout|
  }

  /** While requests are pending and nothing was lost, a frame can move on, however full the helper's queues are. */
  lemma SomethingMoves(conf: Settings, s: System) returns (step: Step)
    requires Inv(conf, s) && s.client.failure.None? && !s.lost && s.client.pending != map[] && conf.workers > 0
    ensures IsMove(step) && Enabled(conf, s, step)
  {
    var id :| id in s.client.pending;
    assert FlowAt(s, id);
    step :=
      if s.stdout != [] then Step.DeliverReply else
      if s.replies != [] then Step.SendReply else
      if s.working != [] then Step.Finish(0) else
      if s.jobs != [] then Step.Take else
      if s.stdin != [] then Step.Read else
      if s.outbox != [] then Step.Write else Step.Enqueue(0);
  }

  /** Each move brings a frame nearer, and loses none. */
  lemma MovesArrive(conf: Settings, s: System, step: Step)
    requires Inv(conf, s) && s.client.failure.None? && !s.lost && IsMove(step) && Enabled(conf, s, step)
    ensures Distance(Do(conf, s, step)) < Distance(s)
    ensures Do(conf, s, step).client.failure.None? && !Do(conf, s, step).lost
  {
    InvHasClient(conf, s);
    hide Inv, ClientOk, Distance, Do, Delivered;
    if step.DeliverReply? {
      ArrivalIsExpected(conf, s);
      DeliveredAway(conf, s);
      DeliveryArrives(conf, s);
    } else if step.Enqueue? {
      InvHasOrder(conf, s);
      WriterIsThere(s);
      EnqueueArrives(conf, s, step.k);
    } else {
      OthersArrive(conf, s, step);
    }
  }

  lemma InvHasOrder(conf: Settings, s: System)
    requires Inv(conf, s)
    ensures Order(s)
  {
  }

  lemma DeliveryArrives(conf: Settings, s: System)
    requires Inv(conf, s) && s.client.failure.None? && s.stdout != [] && s.stdout[0].Reply? && s.stdout[0].id in s.client.pending && s.listening
    ensures Do(conf, s, Step.DeliverReply) == Delivered(conf, s) && Distance(Delivered(conf, s)) < Distance(s)
  {
    hide ClientOk, Flow, Right, Kinds, Order, Delivered;
    DeliveredAway(conf, s);
  }

  lemma EnqueueArrives(conf: Settings, s: System, k: nat)
    requires k < |s.held| && s.writing && ClientOk(s.client, conf.handle)
    ensures var t := Do(conf, s, Step.Enqueue(k)); Distance(t) < Distance(s) && t.client == s.client && t.lost == s.lost
  {
    hide ClientOk;
  }

  lemma OthersArrive(conf: Settings, s: System, step: Step)
    requires ClientOk(s.client, conf.handle) && IsMove(step) && Enabled(conf, s, step) && !step.DeliverReply? && !step.Enqueue?
    ensures var t := Do(conf, s, step); Distance(t) < Distance(s) && t.client == s.client && t.lost == s.lost
  {
    hide ClientOk, Do, Distance, IsNextFree;
    if step.Write? {
      WriteArrives(conf, s);
    } else if step.Read? {
      ReadArrives(conf, s);
    } else if step.Finish? {
      FinishArrives(conf, s, step.w);
    } else {
      TakenArrives(conf, s, step);
    }
  }

  lemma WriteArrives(conf: Settings, s: System)
    requires ClientOk(s.client, conf.handle) && Enabled(conf, s, Step.Write)
    ensures var t := Do(conf, s, Step.Write); Distance(t) < Distance(s) && t.client == s.client && t.lost == s.lost
  {
    hide ClientOk;
  }

  lemma ReadArrives(conf: Settings, s: System)
    requires ClientOk(s.client, conf.handle) && Enabled(conf, s, Step.Read)
    ensures var t := Do(conf, s, Step.Read); Distance(t) < Distance(s) && t.client == s.client && t.lost == s.lost
  {
    hide ClientOk, Distance;
    JobArrives(s);
    EndArrives(s);
  }

  lemma JobArrives(s: System)
    requires s.stdin != []
    ensures Distance(s.(stdin := s.stdin[1..], jobs := s.jobs + [s.stdin[0]])) < Distance(s)
  {
  }

  lemma EndArrives(s: System)
    requires s.stdin != []
    ensures Distance(s.(stdin := s.stdin[1..], reading := false)) < Distance(s)
  {
  }

  lemma FinishArrives(conf: Settings, s: System, w: nat)
    requires ClientOk(s.client, conf.handle) && Enabled(conf, s, Step.Finish(w))
    ensures var t := Do(conf, s, Step.Finish(w)); Distance(t) < Distance(s) && t.client == s.client && t.lost == s.lost
  {
    hide ClientOk;
  }

  lemma TakenArrives(conf: Settings, s: System, step: Step)
    requires ClientOk(s.client, conf.handle) && (step.Take? || step.SendReply?) && Enabled(conf, s, step)
    ensures var t := Do(conf, s, step); Distance(t) < Distance(s) && t.client == s.client && t.lost == s.lost
  {
    hide ClientOk;
  }

  lemma WriterIsThere(s: System)
    requires Order(s) && !s.lost && s.held != []
    ensures s.writing
  {
  }

  lemma DeliveredAway(conf: Settings, s: System)
    requires Inv(conf, s) && s.stdout != [] && s.stdout[0].Reply? && s.stdout[0].id in s.client.pending
    ensures Delivered(conf, s) == s.(stdout := s.stdout[1..], client := Delivered(conf, s).client)
    ensures Delivered(conf, s).client.failure == s.client.failure
  {
    hide ClientOk, Flow, Right, Kinds, Order;
  }

  lemma ArrivalIsExpected(conf: Settings, s: System)
    requires Inv(conf, s) && s.client.failure.None? && s.stdout != []
    ensures s.stdout[0].Reply? && s.stdout[0].id in s.client.pending
  {
    var m := s.stdout[0];
    assert FlowAt(s, m.id);
    CountHas(s.stdout, 0, m.id);
  }

  /** So moves alone answer everything that is pending. */
  lemma {:induction false} EveryRequestIsAnswered(conf: Settings, s: System) returns (steps: seq<Step>, t: System)
    requires Inv(conf, s) && s.client.failure.None? && !s.lost && conf.workers > 0
    ensures Leads(conf, s, steps, t) && (forall i :: 0 <= i < |steps| ==> IsMove(steps[i])) && |steps| <= Distance(s)
    ensures t.client.failure.None? && t.client.pending == map[]
    ensures AllAnswered(conf, t.client)
    decreases Distance(s)
  {
    hide Inv, Do, Enabled, Distance, AllAnswered;
    if s.client.pending == map[] {
      steps, t := [], s;
      EachIsAnswered(conf, s);
    } else {
      InvHasClient(conf, s);
      var step := SomethingMoves(conf, s);
      MovesArrive(conf, s, step);
      StepKeepsInv(conf, s, step);
      var rest;
      rest, t := EveryRequestIsAnswered(conf, Do(conf, s, step));
      steps := [step] + rest;
      assert steps[1..] == rest;
    }
  }

  // ----- the helper is gone -----

  /** Every request has an answer: the helper's own, that it is too large, or why the helper is gone. */
  ghost predicate AllSettled(conf: Settings, c: Client) {
    && |c.answers| == |c.requests| && c.failure.Some? && c.pending == map[]
    && forall t :: 0 <= t < |c.requests| ==>
        || c.answers[t] == One(Failed(c.failure.value))
        || c.answers[t] == One(if c.requests[t].size > conf.limit then TooLarge else Replied(c.requests[t].rel, conf.handle(c.requests[t])))
  }

  lemma FailureSettles(conf: Settings, s: System)
    requires Inv(conf, s) && s.client.failure.Some?
    ensures AllSettled(conf, s.client)
  {
    hide Flow, Right, Kinds, Order;
    forall t | 0 <= t < |s.client.requests|
      ensures || s.client.answers[t] == One(Failed(s.client.failure.value))
        || s.client.answers[t] == One(if s.client.requests[t].size > conf.limit then TooLarge else Replied(s.client.requests[t].rel, conf.handle(s.client.requests[t])))
    {
      assert TicketOk(s.client, conf.handle, t);
    }
  }

  /**
  Once the helper is gone, whether it exited, crashed or was killed, the reader
  alone settles every request: it delivers what arrived, fails the rest and
  stops. Frames are lost only to a helper that is gone.
  */
  lemma {:induction false} GoneIsSettled(conf: Settings, s: System) returns (steps: seq<Step>, t: System)
    requires Inv(conf, s) && s.client.failure.None? && (s.exited || s.lost)
    ensures Leads(conf, s, steps, t) && Inv(conf, t) && (forall i :: 0 <= i < |steps| ==> steps[i].DeliverReply? || steps[i].End?)
    ensures AllSettled(conf, t.client) && !t.listening
    ensures t.client.failure == Some(if s.closing then Closed else Crashed(Exited))
    decreases |s.stdout|
  {
    hide Inv, Enabled, AllSettled, ClientOk, Do;
    InvHasClient(conf, s);
    if s.stdout == [] {
      EndFails(conf, s);
      t := Do(conf, s, Step.End(false));
      FailureSettles(conf, t);
      steps := [Step.End(false)];
      assert steps[1..] == [] && Leads(conf, t, [], t);
    } else {
      NextArrives(conf, s);
      var rest;
      rest, t := GoneIsSettled(conf, Do(conf, s, Step.DeliverReply));
      steps := [Step.DeliverReply] + rest;
      assert steps[1..] == rest;
    }
  }

  lemma NextArrives(conf: Settings, s: System)
    requires Inv(conf, s) && s.client.failure.None? && (s.exited || s.lost) && s.stdout != []
    ensures Enabled(conf, s, Step.DeliverReply)
    ensures var t := Do(conf, s, Step.DeliverReply);
      Inv(conf, t) && t.client.failure.None? && t.exited && t.closing == s.closing && t.stdout == s.stdout[1..]
  {
    InvHasOrder(conf, s);
    ArrivalIsExpected(conf, s);
    DeliveredAway(conf, s);
    assert Enabled(conf, s, Step.DeliverReply);
    StepKeepsInv(conf, s, Step.DeliverReply);
    hide Inv, ClientOk, Delivered;
    assert Do(conf, s, Step.DeliverReply) == Delivered(conf, s);
  }

  lemma EndFails(conf: Settings, s: System)
    requires Inv(conf, s) && s.client.failure.None? && (s.exited || s.lost) && s.stdout == []
    ensures Enabled(conf, s, Step.End(false))
    ensures var t := Do(conf, s, Step.End(false));
      Inv(conf, t) && t.client.failure == Some(if s.closing then Closed else Crashed(Exited)) && !t.listening
  {
    InvHasOrder(conf, s);
    StepKeepsInv(conf, s, Step.End(false));
    hide Inv, ClientOk;
  }

  /** A crash at any moment is seen as a helper that is gone. */
  lemma CrashIsGone(conf: Settings, s: System)
    requires Inv(conf, s) && !s.exited
    ensures Enabled(conf, s, Step.Crash)
    ensures var t := Do(conf, s, Step.Crash); Inv(conf, t) && t.exited && t.lost && t.client == s.client && t.stdout == s.stdout
  {
    StepKeepsInv(conf, s, Step.Crash);
    hide Inv, ClientOk;
  }

  lemma InvHasClient(conf: Settings, s: System)
    requires Inv(conf, s)
    ensures ClientOk(s.client, conf.handle)
  {
  }
}
