/**
The client and the helper process as one transition system. Every step is one
action of one thread, so a sequence of steps is any interleaving of submitting
threads, the writer, the reader, and the helper's reader, workers and writer.
*/
module Protocol {
  import opened Options
  import opened Tickets

  datatype Message = Process(id: nat, request: Request) | Reply(id: nat, reply: WireReply) | Shutdown

  /**
  `held` are frames encoded and not queued yet. `outbox` is the client's queue,
  `stdin` and `stdout` the pipes; `jobs`, `working` and `replies` are the
  helper's. `lost` says that the helper crashed, or was killed, with frames in it.
  */
  datatype System = System(
    client: Client, closing: bool, listening: bool,
    held: seq<Message>, outbox: seq<Message>, outboxOpen: bool, writing: bool,
    stdin: seq<Message>, stdinOpen: bool,
    reading: bool, jobs: seq<Message>, working: seq<Message>, replies: seq<Message>,
    stdout: seq<Message>, exited: bool, lost: bool)

  datatype Settings = Settings(workers: nat, limit: nat, handle: Request -> WireReply)

  const START := System(FRESH, false, true, [], [], true, true, [], true, true, [], [], [], [], false, false)

  datatype Step =
    | Submit(request: Request, id: nat)
    | Enqueue(k: nat)
    | Close
    | Write
    | WriteFails
    | WriterEnds
    | Read
    | ReadEnds
    | Take
    | Finish(w: nat)
    | SendReply
    | Exit
    | Crash
    | DeliverReply
    | End(torn: bool)
    | Drop

  function Without(s: seq<Message>, k: nat): seq<Message>
    requires k < |s|
  {
    s[..k] + s[k + 1..]
  }

  /** Submitting needs the client, which shutting down and dropping take away. */
  ghost predicate Enabled(conf: Settings, s: System, step: Step) {
    match step
    case Submit(request, id) =>
      s.outboxOpen && (request.size <= conf.limit && s.client.failure.None? ==> exists n :: IsNextFree(s.client.nextId, s.client.pending, id, n))
    case Enqueue(k) => k < |s.held|
    case Close => s.outboxOpen && s.held == []
    case Write => s.writing && s.outbox != [] && !s.exited
    case WriteFails => s.writing && s.outbox != [] && s.exited
    case WriterEnds => s.writing && s.outbox == [] && !s.outboxOpen
    case Read => !s.exited && s.reading && s.stdin != [] && (s.stdin[0].Process? ==> |s.jobs| < 4 * conf.workers)
    case ReadEnds => !s.exited && s.reading && s.stdin == [] && !s.stdinOpen
    case Take => !s.exited && s.jobs != [] && |s.working| < conf.workers
    case Finish(w) => !s.exited && w < |s.working| && |s.replies| < 4 * conf.workers
    case SendReply => !s.exited && s.replies != []
    case Exit => !s.exited && !s.reading && s.jobs == [] && s.working == [] && s.replies == []
    case Crash => !s.exited
    case DeliverReply => s.listening && s.stdout != []
    case End(torn) => s.listening && s.stdout == [] && s.exited && (torn ==> s.lost)
    case Drop => s.outboxOpen && s.held == []
  }

  /** The helper is gone, with what was in it. */
  function Killed(s: System): System {
    s.(exited := true, lost := s.lost || !s.exited, stdin := [], jobs := [], working := [], replies := [])
  }

  /** The reader stops for `failure`. */
  function Ended(s: System, failure: Failure): System {
    s.(client := Fail(s.client, failure), listening := false)
  }

  function Finished(handle: Request -> WireReply, m: Message): Message {
    if m.Process? then Reply(m.id, handle(m.request)) else m
  }

  function Submitted(conf: Settings, s: System, request: Request, id: nat): System {
    if request.size > conf.limit then s.(client := Issue(s.client, request, One(TooLarge))) else
    if s.client.failure.Some? then s else
      s.(client := Register(s.client, request, id), held := s.held + [Process(id, request)])
  }

  ghost function Delivered(conf: Settings, s: System): System
    requires s.stdout != [] && ClientOk(s.client, conf.handle)
  {
    var m, rest := s.stdout[0], s.(stdout := s.stdout[1..]);
    if !m.Reply? then Killed(Ended(rest, Failure.Protocol(UnexpectedFrame))) else
    if m.id !in s.client.pending then Killed(Ended(rest, Failure.Protocol(UnknownId))) else
      rest.(client := Deliver(s.client, m.id, m.reply))
  }

  ghost function Do(conf: Settings, s: System, step: Step): System
    requires Enabled(conf, s, step) && ClientOk(s.client, conf.handle)
  {
    match step
    case Submit(request, id) => Submitted(conf, s, request, id)
    case Enqueue(k) =>
      if s.writing then s.(held := Without(s.held, k), outbox := s.outbox + [s.held[k]])
      else s.(held := Without(s.held, k), lost := true)
    case Close =>
      s.(closing := true, outboxOpen := false, outbox := if s.writing then s.outbox + [Shutdown] else s.outbox)
    case Write => s.(outbox := s.outbox[1..], stdin := s.stdin + [s.outbox[0]])
    case WriteFails => s.(writing := false, outbox := [], stdinOpen := false, lost := true)
    case WriterEnds => s.(writing := false, stdinOpen := false)
    case Read =>
      if s.stdin[0].Process? then s.(stdin := s.stdin[1..], jobs := s.jobs + [s.stdin[0]])
      else s.(stdin := s.stdin[1..], reading := false)
    case ReadEnds => s.(reading := false)
    case Take => s.(jobs := s.jobs[1..], working := s.working + [s.jobs[0]])
    case Finish(w) => s.(working := Without(s.working, w), replies := s.replies + [Finished(conf.handle, s.working[w])])
    case SendReply => s.(replies := s.replies[1..], stdout := s.stdout + [s.replies[0]])
    case Exit => s.(exited := true)
    case Crash => Killed(s)
    case DeliverReply => Delivered(conf, s)
    case End(torn) =>
      Ended(s, if torn then Failure.Protocol(Malformed) else if s.closing then Closed else Crashed(Exited))
    case Drop =>
      Killed(s.(closing := true, outboxOpen := false, client := Fail(s.client, Crashed(Stopped))))
  }

  // ----- where the ids are -----

  predicate Carries(m: Message, id: nat) {
    !m.Shutdown? && m.id == id
  }

  /** How many frames of a stage carry `id`. */
  function Count(stage: seq<Message>, id: nat): nat {
    if stage == [] then 0 else (if Carries(stage[0], id) then 1 else 0) + Count(stage[1..], id)
  }

  lemma CountConcat(a: seq<Message>, b: seq<Message>, id: nat)
    ensures Count(a + b, id) == Count(a, id) + Count(b, id)
  {
    if a == [] {
      assert a + b == b;
    } else {
      assert (a + b)[1..] == a[1..] + b;
      CountConcat(a[1..], b, id);
    }
  }

  lemma CountAppend(a: seq<Message>, m: Message, id: nat)
    ensures Count(a + [m], id) == Count(a, id) + if Carries(m, id) then 1 else 0
  {
    CountConcat(a, [m], id);
    assert [m][1..] == [];
  }

  lemma CountWithout(s: seq<Message>, k: nat, id: nat)
    requires k < |s|
    ensures Count(s, id) == Count(Without(s, k), id) + if Carries(s[k], id) then 1 else 0
  {
    assert s == s[..k] + [s[k]] + s[k + 1..];
    CountConcat(s[..k] + [s[k]], s[k + 1..], id);
    CountAppend(s[..k], s[k], id);
    CountConcat(s[..k], s[k + 1..], id);
  }

  lemma CountHas(s: seq<Message>, k: nat, id: nat)
    requires k < |s| && Carries(s[k], id)
    ensures Count(s, id) >= 1
  {
    CountWithout(s, k, id);
  }

  lemma CountMoved(a: seq<Message>, b: seq<Message>, id: nat)
    requires a != []
    ensures Count(a[1..], id) + Count(b + [a[0]], id) == Count(a, id) + Count(b, id)
  {
    CountAppend(b, a[0], id);
  }

  /** How many frames carry `id` from the client to the helper and back. */
  function InFlight(s: System, id: nat): nat {
    Count(s.held, id) + Count(s.outbox, id) + Count(s.stdin, id) + Count(s.jobs, id) + Count(s.working, id)
      + Count(s.replies, id) + Count(s.stdout, id)
  }

  // ----- the invariant -----

  /** A pending id is on its way in one frame, unless frames were lost; and no other id is. */
  ghost predicate FlowAt(s: System, id: nat) {
    var waiting := if id in s.client.pending then 1 else 0;
    InFlight(s, id) <= waiting && (!s.lost ==> InFlight(s, id) == waiting)
  }

  ghost predicate Flow(s: System) {
    s.client.failure.None? ==> forall id: nat :: FlowAt(s, id)
  }

  /** A frame carries the request its id stands for, or the reply to it. */
  ghost predicate Fits(handle: Request -> WireReply, c: Client, m: Message) {
    m.Shutdown? || (m.id in c.pending ==>
      var ticket := c.pending[m.id].ticket;
      && ticket < |c.requests|
      && (if m.Process? then m.request == c.requests[ticket] else m.reply == handle(c.requests[ticket])))
  }

  ghost predicate AllFit(handle: Request -> WireReply, c: Client, stage: seq<Message>) {
    forall i :: 0 <= i < |stage| ==> Fits(handle, c, stage[i])
  }

  ghost predicate Right(handle: Request -> WireReply, s: System) {
    && AllFit(handle, s.client, s.held) && AllFit(handle, s.client, s.outbox) && AllFit(handle, s.client, s.stdin)
    && AllFit(handle, s.client, s.jobs) && AllFit(handle, s.client, s.working)
    && AllFit(handle, s.client, s.replies) && AllFit(handle, s.client, s.stdout)
  }

  predicate OnlyRequests(stage: seq<Message>) {
    forall i :: 0 <= i < |stage| ==> stage[i].Process?
  }

  predicate OnlyReplies(stage: seq<Message>) {
    forall i :: 0 <= i < |stage| ==> stage[i].Reply?
  }

  /** Nothing follows the Shutdown frame. */
  predicate ShutdownLast(stream: seq<Message>) {
    forall i :: 0 <= i < |stream| ==> !stream[i].Reply? && (stream[i].Shutdown? ==> i == |stream| - 1)
  }

  ghost predicate Kinds(s: System) {
    && OnlyRequests(s.held) && OnlyRequests(s.jobs) && OnlyRequests(s.working) && OnlyReplies(s.replies) && OnlyReplies(s.stdout)
    && ShutdownLast(s.stdin + s.outbox) && (Shutdown in s.stdin + s.outbox ==> !s.outboxOpen)
  }

  /**
  Once the helper stops reading there is nothing left to read, and nothing to
  answer once it exits. Frames are lost, and writing fails, only to a helper that
  is gone.
  */
  ghost predicate Order(s: System) {
    && s.closing == !s.outboxOpen && (!s.outboxOpen ==> s.held == [])
    && s.stdinOpen == s.writing && (!s.writing ==> s.outbox == []) && (!s.writing && !s.lost ==> !s.outboxOpen)
    && (!s.reading && !s.lost ==> s.held == [] && s.outbox == [] && s.stdin == [] && !s.outboxOpen)
    && (s.exited && !s.lost ==> !s.reading && s.jobs == [] && s.working == [] && s.replies == [])
    && (!s.listening ==> s.client.failure.Some?)
    && (s.lost || (!s.writing && s.outboxOpen) ==> s.exited)
  }

  /** A ticket is answered as too large exactly when its request is. */
  ghost predicate LargeOnly(limit: nat, c: Client) {
    |c.answers| == |c.requests| && forall t :: 0 <= t < |c.requests| ==> (c.answers[t] == One(TooLarge) <==> c.requests[t].size > limit)
  }

  ghost predicate Inv(conf: Settings, s: System) {
    ClientOk(s.client, conf.handle) && LargeOnly(conf.limit, s.client) && Flow(s) && Right(conf.handle, s) && Kinds(s) && Order(s)
  }

  // ----- ids in flight -----

  /** A frame that moves on is in flight still. */
  lemma MovesKeepInFlight(conf: Settings, s: System, step: Step, id: nat)
    requires Inv(conf, s) && Enabled(conf, s, step)
    requires step.Close? || step.Write? || step.Read? || step.Take? || step.SendReply? || step.Finish? || (step.Enqueue? && s.writing)
    ensures InFlight(Do(conf, s, step), id) == InFlight(s, id)
  {
    hide Count, ClientOk, Right, Order, Flow, Kinds, IsNextFree;
    match step
    case Enqueue(k) => EnqueueKeeps(s, k, id);
    case Close => CountAppend(s.outbox, Shutdown, id);
    case Write => CountMoved(s.outbox, s.stdin, id);
    case Read => ReadKeeps(s, id);
    case Take => CountMoved(s.jobs, s.working, id);
    case SendReply => CountMoved(s.replies, s.stdout, id);
    case Finish(w) => FinishKeeps(conf, s, w, id);
    case _ =>
  }

  lemma EnqueueKeeps(s: System, k: nat, id: nat)
    requires k < |s.held|
    ensures Count(Without(s.held, k), id) + Count(s.outbox + [s.held[k]], id) == Count(s.held, id) + Count(s.outbox, id)
  {
    CountWithout(s.held, k, id);
    CountAppend(s.outbox, s.held[k], id);
  }

  lemma ReadKeeps(s: System, id: nat)
    requires Kinds(s) && s.stdin != []
    ensures s.stdin[0].Process? ==> Count(s.stdin[1..], id) + Count(s.jobs + [s.stdin[0]], id) == Count(s.stdin, id) + Count(s.jobs, id)
    ensures !s.stdin[0].Process? ==> Count(s.stdin[1..], id) == Count(s.stdin, id)
  {
    HeadIsRequest(s);
    hide Kinds;
    CountMoved(s.stdin, s.jobs, id);
    CountTail(s.stdin, id);
  }

  lemma FinishKeeps(conf: Settings, s: System, w: nat, id: nat)
    requires w < |s.working|
    ensures Count(Without(s.working, w), id) + Count(s.replies + [Finished(conf.handle, s.working[w])], id) == Count(s.working, id) + Count(s.replies, id)
  {
    CountWithout(s.working, w, id);
    CountAppend(s.replies, Finished(conf.handle, s.working[w]), id);
  }

  lemma HeadIsRequest(s: System)
    requires Kinds(s) && s.stdin != []
    ensures !s.stdin[0].Reply?
  {
    assert (s.stdin + s.outbox)[0] == s.stdin[0];
  }

  /** Frames are lost only with `lost`. */
  lemma LossesAreNoted(conf: Settings, s: System, step: Step, id: nat)
    requires Inv(conf, s) && Enabled(conf, s, step)
    requires step.WriteFails? || step.Crash? || (step.Enqueue? && !s.writing)
    ensures InFlight(Do(conf, s, step), id) <= InFlight(s, id) && Do(conf, s, step).lost
  {
    hide ClientOk, Right, Order, Flow, Kinds;
    if step.Enqueue? {
      CountWithout(s.held, step.k, id);
    }
  }

  /** A submitted request is one more frame in flight, and one more pending id. */
  lemma SubmitKeepsFlow(conf: Settings, s: System, request: Request, own: nat, id: nat)
    requires FlowAt(s, id) && s.client.failure.None? && own !in s.client.pending && request.size <= conf.limit
    ensures FlowAt(Submitted(conf, s, request, own), id)
  {
    hide Count, After;
    CountAppend(s.held, Process(own, request), id);
  }

  lemma TooLargeKeepsFlow(conf: Settings, s: System, request: Request, own: nat, id: nat)
    requires FlowAt(s, id) && request.size > conf.limit
    ensures FlowAt(Submitted(conf, s, request, own), id)
  {
    hide Count;
  }

  /** A delivered reply is one of each less. */
  lemma DeliverKeepsFlow(conf: Settings, s: System, id: nat)
    requires ClientOk(s.client, conf.handle) && FlowAt(s, id)
    requires s.stdout != [] && s.stdout[0].Reply? && s.stdout[0].id in s.client.pending
    ensures FlowAt(Delivered(conf, s), id)
  {
    hide Count, ClientOk, TicketOk, Waits;
    CountTail(s.stdout, id);
  }

  lemma CountTail(s: seq<Message>, id: nat)
    requires s != []
    ensures Count(s, id) == Count(s[1..], id) + if Carries(s[0], id) then 1 else 0
  {
  }

  lemma StepKeepsFlow(conf: Settings, s: System, step: Step)
    requires Inv(conf, s) && Enabled(conf, s, step)
    ensures Flow(Do(conf, s, step))
  {
    hide InFlight, Right, ClientOk, Kinds, Order, Fail, Deliver, Register;
    var t := Do(conf, s, step);
    if t.client.failure.None? {
      forall id: nat ensures FlowAt(t, id) {
        FailureStays(conf, s, step);
        assert FlowAt(s, id);
        if step.Submit? {
          if step.request.size > conf.limit {
            TooLargeKeepsFlow(conf, s, step.request, step.id, id);
          } else {
            FreeIsNotPending(conf, s, step);
            SubmitKeepsFlow(conf, s, step.request, step.id, id);
          }
        } else if step.DeliverReply? {
          DeliverKeepsFlow(conf, s, id);
        } else if step.WriteFails? || step.Crash? || (step.Enqueue? && !s.writing) {
          LossesAreNoted(conf, s, step, id);
        } else if step.WriterEnds? || step.ReadEnds? || step.Exit? {
          SameFlight(s, t, id);
        } else {
          MovesKeepInFlight(conf, s, step, id);
        }
      }
    }
  }

  lemma FailureStays(conf: Settings, s: System, step: Step)
    requires Enabled(conf, s, step) && ClientOk(s.client, conf.handle)
    ensures s.client.failure.Some? ==> Do(conf, s, step).client.failure == s.client.failure
    ensures (step.End? || step.Drop?) ==> Do(conf, s, step).client.failure.Some?
    ensures step.DeliverReply? && !(s.stdout[0].Reply? && s.stdout[0].id in s.client.pending) ==> Do(conf, s, step).client.failure.Some?
  {
    hide ClientOk, IsNextFree, Submitted, Delivered, Fail;
    match step
    case Submit(request, id) => SubmittedFailure(conf, s, request, id);
    case DeliverReply => DeliveredFailure(conf, s);
    case End(torn) => EndedClient(s, if torn then Failure.Protocol(Malformed) else if s.closing then Closed else Crashed(Exited));
    case Drop => EndedClient(s, Crashed(Stopped));
    case _ =>
  }

  lemma FreeIsNotPending(conf: Settings, s: System, step: Step)
    requires Enabled(conf, s, step) && step.Submit? && step.request.size <= conf.limit && s.client.failure.None?
    ensures step.id !in s.client.pending && IsFree(step.id, s.client.pending)
  {
  }

  lemma SubmittedFailure(conf: Settings, s: System, request: Request, id: nat)
    ensures Submitted(conf, s, request, id).client.failure == s.client.failure
  {
  }

  /** Killing the helper does not touch the client; the reader's end fails it. */
  lemma EndedClient(s: System, failure: Failure)
    ensures Killed(s).client == s.client && Ended(s, failure).client == Fail(s.client, failure)
    ensures Fail(s.client, failure).failure == if s.client.failure.Some? then s.client.failure else Some(failure)
  {
    hide SendAll, WaitingTickets;
  }

  /** What the reader makes of the frame it reads. */
  lemma DeliveredClient(conf: Settings, s: System)
    requires s.stdout != [] && ClientOk(s.client, conf.handle)
    ensures var m, t := s.stdout[0], Delivered(conf, s);
      t.client ==
        if !m.Reply? then Fail(s.client, Failure.Protocol(UnexpectedFrame)) else
        if m.id !in s.client.pending then Fail(s.client, Failure.Protocol(UnknownId)) else Deliver(s.client, m.id, m.reply)
  {
    hide ClientOk, Fail, Deliver, Killed, Ended;
    var m, rest := s.stdout[0], s.(stdout := s.stdout[1..]);
    var failure := if !m.Reply? then Failure.Protocol(UnexpectedFrame) else Failure.Protocol(UnknownId);
    EndedClient(rest, failure);
    EndedClient(Ended(rest, failure), failure);
  }

  lemma DeliveredFailure(conf: Settings, s: System)
    requires s.stdout != [] && ClientOk(s.client, conf.handle)
    ensures s.client.failure.Some? ==> Delivered(conf, s).client.failure == s.client.failure
    ensures !(s.stdout[0].Reply? && s.stdout[0].id in s.client.pending) ==> Delivered(conf, s).client.failure.Some?
  {
    DeliveredClient(conf, s);
    hide ClientOk, Fail, Delivered;
    EndedClient(s, Failure.Protocol(UnexpectedFrame));
    EndedClient(s, Failure.Protocol(UnknownId));
  }

  lemma SameFlight(s: System, t: System, id: nat)
    requires s.held == t.held && s.outbox == t.outbox && s.stdin == t.stdin && s.jobs == t.jobs
      && s.working == t.working && s.replies == t.replies && s.stdout == t.stdout
    ensures InFlight(s, id) == InFlight(t, id)
  {
  }

  // ----- what the frames carry -----

  lemma IssuedFits(handle: Request -> WireReply, c: Client, request: Request, stage: seq<Message>)
    requires AllFit(handle, c, stage)
    ensures AllFit(handle, Issue(c, request, One(TooLarge)), stage)
  {
    forall i | 0 <= i < |stage| ensures Fits(handle, Issue(c, request, One(TooLarge)), stage[i]) {
      assert Fits(handle, c, stage[i]);
    }
  }

  /** An id taken again, once the counter has wrapped, has no old frame left that could be taken for its own. */
  lemma RegisteredFits(handle: Request -> WireReply, c: Client, request: Request, id: nat, stage: seq<Message>)
    requires AllFit(handle, c, stage) && Count(stage, id) == 0
    ensures AllFit(handle, Register(c, request, id), stage)
  {
    hide After;
    forall i | 0 <= i < |stage| ensures Fits(handle, Register(c, request, id), stage[i]) {
      assert Fits(handle, c, stage[i]);
      if Carries(stage[i], id) {
        CountHas(stage, i, id);
      }
    }
  }

  lemma DeliveredFits(handle: Request -> WireReply, c: Client, id: nat, reply: WireReply, stage: seq<Message>)
    requires AllFit(handle, c, stage) && id in c.pending && c.pending[id].ticket < |c.answers|
    ensures AllFit(handle, Deliver(c, id, reply), stage)
  {
    forall i | 0 <= i < |stage| ensures Fits(handle, Deliver(c, id, reply), stage[i]) {
      assert Fits(handle, c, stage[i]);
    }
  }

  lemma NothingPendingFits(handle: Request -> WireReply, c: Client, stage: seq<Message>)
    requires c.pending == map[]
    ensures AllFit(handle, c, stage)
  {
  }

  lemma SubmitKeepsRight(conf: Settings, s: System, request: Request, id: nat)
    requires Inv(conf, s) && Enabled(conf, s, Step.Submit(request, id))
    ensures Right(conf.handle, Submitted(conf, s, request, id))
  {
    hide Count, Order, Kinds, AllFit, ClientOk;
    if request.size > conf.limit {
      IssuedFits(conf.handle, s.client, request, s.held);
      IssuedFits(conf.handle, s.client, request, s.outbox);
      IssuedFits(conf.handle, s.client, request, s.stdin);
      IssuedFits(conf.handle, s.client, request, s.jobs);
      IssuedFits(conf.handle, s.client, request, s.working);
      IssuedFits(conf.handle, s.client, request, s.replies);
      IssuedFits(conf.handle, s.client, request, s.stdout);
    } else if s.client.failure.None? {
      FreeIsNotPending(conf, s, Step.Submit(request, id));
      assert FlowAt(s, id);
      RegisteredFits(conf.handle, s.client, request, id, s.held);
      RegisteredFits(conf.handle, s.client, request, id, s.outbox);
      RegisteredFits(conf.handle, s.client, request, id, s.stdin);
      RegisteredFits(conf.handle, s.client, request, id, s.jobs);
      RegisteredFits(conf.handle, s.client, request, id, s.working);
      RegisteredFits(conf.handle, s.client, request, id, s.replies);
      RegisteredFits(conf.handle, s.client, request, id, s.stdout);
      OwnFits(conf.handle, s.client, request, id, s.held);
    }
  }

  lemma OwnFits(handle: Request -> WireReply, c: Client, request: Request, id: nat, held: seq<Message>)
    requires AllFit(handle, Register(c, request, id), held)
    ensures AllFit(handle, Register(c, request, id), held + [Process(id, request)])
  {
    hide After;
  }

  lemma DeliverKeepsRight(conf: Settings, s: System)
    requires Inv(conf, s) && s.stdout != []
    ensures Right(conf.handle, Delivered(conf, s))
  {
    DeliveredClient(conf, s);
    var m, t := s.stdout[0], Delivered(conf, s);
    if m.Reply? && m.id in s.client.pending {
      hide Order, Kinds, Flow;
      DeliveredFits(conf.handle, s.client, m.id, m.reply, s.held);
      DeliveredFits(conf.handle, s.client, m.id, m.reply, s.outbox);
      DeliveredFits(conf.handle, s.client, m.id, m.reply, s.stdin);
      DeliveredFits(conf.handle, s.client, m.id, m.reply, s.jobs);
      DeliveredFits(conf.handle, s.client, m.id, m.reply, s.working);
      DeliveredFits(conf.handle, s.client, m.id, m.reply, s.replies);
      DeliveredFits(conf.handle, s.client, m.id, m.reply, s.stdout);
    } else {
      NothingPending(conf.handle, t);
    }
  }

  lemma NothingPending(handle: Request -> WireReply, s: System)
    requires s.client.pending == map[]
    ensures Right(handle, s)
  {
  }

  lemma FitsMoved(handle: Request -> WireReply, c: Client, a: seq<Message>, b: seq<Message>)
    requires AllFit(handle, c, a) && AllFit(handle, c, b) && a != []
    ensures AllFit(handle, c, a[1..]) && AllFit(handle, c, b + [a[0]])
  {
  }

  lemma FitsWithout(handle: Request -> WireReply, c: Client, a: seq<Message>, k: nat)
    requires AllFit(handle, c, a) && k < |a|
    ensures AllFit(handle, c, Without(a, k)) && Fits(handle, c, a[k])
  {
    forall i | 0 <= i < |Without(a, k)| ensures Fits(handle, c, Without(a, k)[i]) {
      assert Without(a, k)[i] == if i < k then a[i] else a[i + 1];
    }
  }

  lemma FitsAppended(handle: Request -> WireReply, c: Client, a: seq<Message>, m: Message)
    requires AllFit(handle, c, a) && Fits(handle, c, m)
    ensures AllFit(handle, c, a + [m])
  {
  }

  lemma MovesKeepRight(conf: Settings, s: System, step: Step)
    requires Inv(conf, s) && Enabled(conf, s, step)
    requires step.Close? || step.Write? || step.Read? || step.Take? || step.SendReply?
    ensures Right(conf.handle, Do(conf, s, step))
  {
    hide Flow, Order, AllFit, ClientOk, Kinds, Fits;
    var c, handle := s.client, conf.handle;
    match step
    case Close => CloseFits(handle, c, s.outbox);
    case Write => FitsMoved(handle, c, s.outbox, s.stdin);
    case Read => FitsMoved(handle, c, s.stdin, s.jobs);
    case Take => FitsMoved(handle, c, s.jobs, s.working);
    case SendReply => FitsMoved(handle, c, s.replies, s.stdout);
    case _ =>
  }

  lemma EnqueueKeepsRight(conf: Settings, s: System, k: nat)
    requires Inv(conf, s) && Enabled(conf, s, Step.Enqueue(k))
    ensures Right(conf.handle, Do(conf, s, Step.Enqueue(k)))
  {
    hide Flow, Order, AllFit, ClientOk, Kinds, Fits, Without;
    FitsWithout(conf.handle, s.client, s.held, k);
    FitsAppended(conf.handle, s.client, s.outbox, s.held[k]);
  }

  lemma FinishKeepsRight(conf: Settings, s: System, w: nat)
    requires Inv(conf, s) && Enabled(conf, s, Step.Finish(w))
    ensures Right(conf.handle, Do(conf, s, Step.Finish(w)))
  {
    hide Flow, Order, AllFit, ClientOk, Kinds, Fits, Without;
    var c, handle := s.client, conf.handle;
    FitsWithout(handle, c, s.working, w);
    FinishedFits(handle, c, s.working[w]);
    FitsAppended(handle, c, s.replies, Finished(handle, s.working[w]));
  }

  lemma StepKeepsRight(conf: Settings, s: System, step: Step)
    requires Inv(conf, s) && Enabled(conf, s, step)
    ensures Right(conf.handle, Do(conf, s, step))
  {
    hide Right, Flow, Order, ClientOk, Kinds, Submitted, Delivered, Without;
    match step
    case Submit(request, id) => SubmitKeepsRight(conf, s, request, id);
    case Enqueue(k) => EnqueueKeepsRight(conf, s, k);
    case Finish(w) => FinishKeepsRight(conf, s, w);
    case DeliverReply => DeliverKeepsRight(conf, s);
    case End(torn) => NothingPending(conf.handle, Do(conf, s, step));
    case Drop => NothingPending(conf.handle, Do(conf, s, step));
    case WriteFails => LessKeepsRight(conf.handle, s, Do(conf, s, step));
    case WriterEnds => LessKeepsRight(conf.handle, s, Do(conf, s, step));
    case ReadEnds => LessKeepsRight(conf.handle, s, Do(conf, s, step));
    case Exit => LessKeepsRight(conf.handle, s, Do(conf, s, step));
    case Crash => LessKeepsRight(conf.handle, s, Do(conf, s, step));
    case _ => MovesKeepRight(conf, s, step);
  }

  predicate IsEmptyOr(a: seq<Message>, b: seq<Message>) {
    a == [] || a == b
  }

  lemma LessKeepsRight(handle: Request -> WireReply, s: System, t: System)
    requires Right(handle, s) && t.client == s.client
    requires IsEmptyOr(t.held, s.held) && IsEmptyOr(t.outbox, s.outbox) && IsEmptyOr(t.stdin, s.stdin) && IsEmptyOr(t.jobs, s.jobs)
    requires IsEmptyOr(t.working, s.working) && IsEmptyOr(t.replies, s.replies) && IsEmptyOr(t.stdout, s.stdout)
    ensures Right(handle, t)
  {
  }

  lemma CloseFits(handle: Request -> WireReply, c: Client, outbox: seq<Message>)
    requires AllFit(handle, c, outbox)
    ensures AllFit(handle, c, outbox + [Shutdown])
  {
  }

  lemma FinishedFits(handle: Request -> WireReply, c: Client, m: Message)
    requires Fits(handle, c, m)
    ensures Fits(handle, c, Finished(handle, m))
  {
  }
}
