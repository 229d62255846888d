/**
 The way of a stream from the dispatcher to its connection task: when it can go on, and that every
 schedule takes it there.
 */
module LifecycleHandOff {
  import opened Prelude
  import opened Lifecycle
  import opened LifecycleShape
  import opened LifecycleSafety
  import opened LifecycleOrder
  import opened LifecycleProgress

  // ---------- When hand-off can go on ----------

  /** The actions that move a stream towards its connection task, peeks and handshakes succeeding. */
  predicate HandOff(a: Action) {
    match a
    case ByOwner(_) => false
    case ByDispatcher(d) => d.Send? || (d.Greet? && d.ok)
    case ByWorker(_, e) => e.Begin? || (e.Take? && e.peer.Some?) || (e.Peek? && e.tls.Some?) || e.Insert?
    case ByTask(_, _) => false
  }

  predicate AllHandOff(acts: seq<Action>) {
    forall i :: 0 <= i < |acts| ==> HandOff(acts[i])
  }

  predicate InService(v: Worker) {
    v.phase.NotPolled? || v.InLoop()
  }

  /** Some worker is in its loop or about to enter it. */
  predicate Staffed(s: State) {
    exists w :: 0 <= w < |s.workers| && InService(s.workers[w])
  }

  lemma {:induction false} NoHands(ws: seq<Worker>)
    requires forall w :: 0 <= w < |ws| ==> !ws[w].phase.Peeking?
    ensures HeldTotal(ws) == 0
  {
    if ws != [] {
      NoHands(ws[1..]);
    }
  }

  predicate CanHandOff(s: State) {
    Staffed(s) || s.disp.Greeting? || (s.disp.Sending? && |s.queue| < s.capacity)
  }

  /** While the dispatcher runs and a stream is pending, a worker in service makes hand-off possible. */
  lemma HandOffCanMove(s: State) returns (a: Action)
    requires Shape(s) && !Leaving(s.disp) && InTransit(s) > 0 && s.capacity > 0 && CanHandOff(s)
    ensures HandOff(a) && Enabled(s, a)
  {
    assert forall w :: 0 <= w < |s.workers| ==> WorkerShape(s.disp, s.workers[w]);
    if s.disp.Greeting? {
      a := ByDispatcher(Greet(true));
    } else if s.disp.Sending? && |s.queue| < s.capacity {
      a := ByDispatcher(Send);
    } else if w :| 0 <= w < |s.workers| && s.workers[w].phase.Inserting? {
      a := ByWorker(w, Insert);
    } else if w :| 0 <= w < |s.workers| && s.workers[w].phase.NotPolled? {
      a := ByWorker(w, Begin);
    } else if w :| 0 <= w < |s.workers| && s.workers[w].phase.Peeking? {
      a := ByWorker(w, Peek(Some(true)));
    } else {
      var w :| 0 <= w < |s.workers| && InService(s.workers[w]);
      NoHands(s.workers);
      a := ByWorker(w, Take(Some(0)));
    }
  }

  /** With a stream pending, some hand-off action is enabled exactly if `CanHandOff` says so. */
  lemma HandOffExactly(s: State)
    requires Shape(s) && !Leaving(s.disp) && InTransit(s) > 0 && s.capacity > 0
    ensures (exists a :: HandOff(a) && Enabled(s, a)) <==> CanHandOff(s)
  {
    if CanHandOff(s) {
      var a := HandOffCanMove(s);
    }
    hide Shape, InTransit;
    if a :| HandOff(a) && Enabled(s, a) {
      if a.ByWorker? {
        assert InService(s.workers[a.w]);
      }
    }
  }

  /**
   Hand-off has no next action, with a stream pending, exactly when every worker has left its loop
   and neither a greeting is under way nor a send has room. Whether a stream can still get its task
   at all is decided by `DeliveryPossibleExactly`.
   */
  lemma HandOffStandsStillExactly(transport: Transport, workersCfg: nat, capacity: nat, acts: seq<Action>)
    requires capacity > 0 && Valid(Init(transport, workersCfg, capacity), acts)
    requires !Leaving(Run(Init(transport, workersCfg, capacity), acts).disp)
    requires Pending(Run(Init(transport, workersCfg, capacity), acts)) > 0
    ensures var s := Run(Init(transport, workersCfg, capacity), acts);
            (exists a :: HandOff(a) && Enabled(s, a)) <==> CanHandOff(s)
  {
    var i := Init(transport, workersCfg, capacity);
    InitShape(transport, workersCfg, capacity);
    RunKeepsShape(i, acts);
    RunKeepsTransit(i, acts);
    RunKeepsConfig(i, acts);
    HandOffExactly(Run(i, acts));
  }

  // ---------- Every schedule hands off ----------

  /** What a run retired since `before`, while the dispatcher stayed in its loop. */
  predicate RetiredInService(before: seq<Retirement>, after: seq<Retirement>) {
    && before <= after
    && forall r :: |before| <= r < |after| ==> after[r].why.WorkerError? || after[r].why.Discarded?
  }

  /** Not the failure that ends a worker: an unknown peer address or a failed peek. */
  predicate Smooth(a: Action) {
    a.ByWorker? ==> (a.e.Take? ==> a.e.peer.Some?) && (a.e.Peek? ==> a.e.tls.Some?)
  }

  predicate AllSmooth(acts: seq<Action>) {
    forall i :: 0 <= i < |acts| ==> Smooth(acts[i])
  }

  lemma DispatcherInService(s: State, d: DispatcherAction)
    requires Shape(s) && DispatcherEnabled(s, d) && !Leaving(DispatcherStep(s, d).disp)
    ensures RetiredInService(s.retired, DispatcherStep(s, d).retired)
    ensures Staffed(s) ==> DispatcherStep(s, d).workers == s.workers
  {}

  lemma OtherInService(s: State, w: nat, e: WorkerAction)
    requires WorkerEnabled(s, w, e) && !e.Take? && !e.Peek? && !e.AbortOne?
    requires WorkerShape(s.disp, s.workers[w]) && DispatcherShape(s) && !Leaving(s.disp)
    ensures s.workers[w].Hand() == [] && (e.Begin? || e.Insert? || e.StopDone?)
    ensures WorkerStep(s, w, e).retired == s.retired && w < |WorkerStep(s, w, e).workers|
    ensures InService(s.workers[w]) ==> InService(WorkerStep(s, w, e).workers[w])
  {}

  lemma WorkerInService(s: State, w: nat, e: WorkerAction)
    requires WorkerEnabled(s, w, e) && WorkerShape(s.disp, s.workers[w]) && DispatcherShape(s) && !Leaving(s.disp)
    ensures RetiredInService(s.retired, WorkerStep(s, w, e).retired)
    ensures w < |WorkerStep(s, w, e).workers|
    ensures Smooth(ByWorker(w, e)) && InService(s.workers[w]) ==> InService(WorkerStep(s, w, e).workers[w])
  {
    match e {
      case Take(_) =>
      case Peek(_) =>
      case AbortOne(_) =>
      case _ => hide WorkerStep; OtherStepFrame(s, w, e); OtherInService(s, w, e);
    }
  }

  lemma StaffedElsewhere(s: State, s': State, w: nat)
    requires w < |s.workers| == |s'.workers| && s'.workers == s.workers[w := s'.workers[w]]
    ensures Staffed(s) && (InService(s.workers[w]) ==> InService(s'.workers[w])) ==> Staffed(s')
  {
    if Staffed(s) && (InService(s.workers[w]) ==> InService(s'.workers[w])) {
      var i :| 0 <= i < |s.workers| && InService(s.workers[i]);
      assert InService(s'.workers[i]);
    }
  }

  /** While the dispatcher is in its loop, only a failed peek or peer address costs a stream or a worker. */
  lemma InServiceStep(s: State, a: Action)
    requires Shape(s) && Enabled(s, a) && !Leaving(Apply(s, a).disp)
    ensures !Leaving(s.disp) && RetiredInService(s.retired, Apply(s, a).retired)
    ensures Staffed(s) && Smooth(a) ==> Staffed(Apply(s, a))
  {
    if Leaving(s.disp) {
      LeavingStep(s, a);
    }
    match a {
      case ByOwner(_) => hide Shape, DispatcherStep, WorkerStep, TaskStep;
      case ByDispatcher(d) => hide DispatcherStep, WorkerStep, TaskStep; DispatcherInService(s, d);
      case ByWorker(w, e) =>
        hide DispatcherStep, WorkerStep, TaskStep, InService, Smooth;
        assert WorkerShape(s.disp, s.workers[w]);
        WorkerInService(s, w, e);
        WorkerStepFrame(s, w, e);
        hide Shape;
        StaffedElsewhere(s, WorkerStep(s, w, e), w);
      case ByTask(t, k) =>
        hide Shape, DispatcherStep, WorkerStep, InService;
        StaffedElsewhere(s, TaskStep(s, t, k), s.tasks[t].worker);
    }
  }

  lemma {:induction false} RunInService(s: State, acts: seq<Action>)
    requires Shape(s) && Valid(s, acts) && !Leaving(Run(s, acts).disp)
    ensures !Leaving(s.disp) && RetiredInService(s.retired, Run(s, acts).retired)
    ensures Staffed(s) && AllSmooth(acts) ==> Staffed(Run(s, acts))
    decreases |acts|
  {
    hide Shape, Staffed, Smooth, Enabled, Apply;
    if acts != [] {
      KeepsShape(s, acts[0]);
      RunInService(Apply(s, acts[0]), acts[1..]);
      InServiceStep(s, acts[0]);
      assert AllSmooth(acts) ==> Smooth(acts[0]) && AllSmooth(acts[1..]);
    }
  }

  /** A pending stream can be moved on by some hand-off action exactly if `CanHandOff` says so. */
  ghost predicate MovesOn(s: State) {
    Pending(s) > 0 ==> ((exists a :: HandOff(a) && Enabled(s, a)) <==> CanHandOff(s))
  }

  /**
   Every schedule during which the dispatcher stays in its loop, whatever else happens in it, is
   bounded by the work at its start plus ten actions per answer of `accept`. At its end some action
   still moves a stream on, unless none is pending or `CanHandOff` is false.
   It loses no stream but those whose worker failed on them and those the error log discards; and
   while no worker fails, one stays in service.
   */
  lemma EveryScheduleHandsOff(s: State, acts: seq<Action>)
    requires Shape(s) && s.capacity > 0 && Pending(s) == InTransit(s)
    requires Valid(s, acts) && !Leaving(Run(s, acts).disp)
    ensures |acts| + Work(Run(s, acts)) <= Work(s) + 10 * Arrivals(acts)
    ensures MovesOn(Run(s, acts)) && RetiredInService(s.retired, Run(s, acts).retired)
    ensures Staffed(s) && AllSmooth(acts) ==> CanHandOff(Run(s, acts))
  {
    RunLength(s, acts);
    RunKeepsShape(s, acts);
    RunKeepsTransit(s, acts);
    RunKeepsConfig(s, acts);
    RunInService(s, acts);
    hide Shape, Run, Valid, Work, Pending, InTransit, Arrivals, HandOff, Enabled, Staffed, Leaving;
    if InTransit(Run(s, acts)) > 0 {
      HandOffExactly(Run(s, acts));
    }
  }

  lemma HandOffStep(s: State, a: Action)
    requires Shape(s) && !Leaving(s.disp) && Staffed(s) && Enabled(s, a) && HandOff(a)
    ensures var s' := Apply(s, a);
            && !Leaving(s'.disp) && Staffed(s') && !Arrival(a)
            && s'.accepted == s.accepted && s'.retired == s.retired && s'.capacity == s.capacity
  {
    var s' := Apply(s, a);
    var w :| 0 <= w < |s.workers| && InService(s.workers[w]);
    if a.ByWorker? {
      assert InService(s'.workers[a.w]);
    } else {
      assert InService(s'.workers[w]);
    }
  }

  /** `acts` hand off every stream pending in `s`, within its work, and retire none. */
  predicate HandsOff(s: State, acts: seq<Action>) {
    && Valid(s, acts) && AllHandOff(acts) && |acts| <= Work(s)
    && var s' := Run(s, acts);
       s'.accepted == s.accepted && s'.retired == s.retired && |s'.tasks| == |s.tasks| + Pending(s)
  }

  /** With a worker in service, hand-off actions alone give every pending stream to a connection task. */
  lemma {:induction false} HandOffCompletes(s: State)
    requires Shape(s) && !Leaving(s.disp) && Staffed(s) && s.capacity > 0 && Pending(s) == InTransit(s)
    ensures exists acts :: HandsOff(s, acts)
    decreases Work(s)
  {
    if InTransit(s) == 0 {
      assert HandsOff(s, []);
    } else {
      var a := HandOffCanMove(s);
      HandOffStep(s, a);
      Spends(s, a);
      KeepsShape(s, a);
      KeepsTransit(s, a);
      hide Shape, Work, HandOff, Staffed, InTransit, Enabled, Apply, Arrival;
      HandOffCompletes(Apply(s, a));
      var rest :| HandsOff(Apply(s, a), rest);
      var acts := [a] + rest;
      assert acts[1..] == rest;
      assert HandsOff(s, acts);
    }
  }

  /** A schedule of hand-off actions alone loses no stream and no worker. */
  lemma {:induction false} HandOffOnly(s: State, acts: seq<Action>)
    requires Shape(s) && !Leaving(s.disp) && Staffed(s) && Valid(s, acts) && AllHandOff(acts)
    ensures var s' := Run(s, acts);
            && !Leaving(s'.disp) && Staffed(s') && Arrivals(acts) == 0
            && s'.accepted == s.accepted && s'.retired == s.retired
    decreases |acts|
  {
    if acts != [] {
      assert HandOff(acts[0]);
      HandOffStep(s, acts[0]);
      KeepsShape(s, acts[0]);
      hide Shape, Leaving, Staffed, HandOff, Enabled, Apply, Arrival;
      HandOffOnly(Apply(s, acts[0]), acts[1..]);
    }
  }

  /**
   From every reachable state with the dispatcher in its loop and a worker in service, every schedule
   of hand-off actions ends within the work there and loses no stream, and it can be continued until
   every stream that was pending has its connection task.
   */
  lemma PendingStreamsGetTasks(
      transport: Transport, workersCfg: nat, capacity: nat, acts: seq<Action>, s: State, more: seq<Action>)
    requires capacity > 0 && Valid(Init(transport, workersCfg, capacity), acts)
    requires s == Run(Init(transport, workersCfg, capacity), acts) && !Leaving(s.disp) && Staffed(s)
    requires Valid(s, more) && AllHandOff(more)
    ensures |more| + Work(Run(s, more)) <= Work(s)
    ensures Run(s, more).accepted == s.accepted && Run(s, more).retired == s.retired
    ensures |Run(s, more).tasks| == |s.tasks| + Pending(s) || exists a :: HandOff(a) && Enabled(Run(s, more), a)
    ensures exists rest :: HandsOff(Run(s, more), rest)
  {
    var i := Init(transport, workersCfg, capacity);
    InitShape(transport, workersCfg, capacity);
    RunKeepsShape(i, acts);
    RunKeepsTransit(i, acts);
    RunKeepsConfig(i, acts);
    HandOffOnly(s, more);
    RunLength(s, more);
    RunKeepsShape(s, more);
    RunKeepsTransit(s, more);
    RunKeepsConfig(s, more);
    hide Run, Valid, Shape, Work, InTransit, HandOff, Enabled, Staffed, Leaving;
    if InTransit(Run(s, more)) > 0 {
      HandOffExactly(Run(s, more));
    }
    HandOffCompletes(Run(s, more));
  }

  // ---------- When hand-off is over for good ----------

  /** The dispatcher has made its attempt to start workers, and none is in service. */
  predicate Deserted(s: State) {
    !s.disp.Unstarted? && !Staffed(s)
  }

  /** A worker that has left its loop never takes, spawns or comes back. */
  lemma DesertedWorkerStep(s: State, w: nat, e: WorkerAction)
    requires WorkerEnabled(s, w, e) && !InService(s.workers[w])
    ensures var s' := WorkerStep(s, w, e);
            && w < |s'.workers| && !InService(s'.workers[w])
            && s'.taken == s.taken && |s'.tasks| == |s.tasks|
  {}

  lemma DesertedDispatcherStep(s: State, d: DispatcherAction)
    requires DispatcherEnabled(s, d) && Deserted(s)
    ensures var s' := DispatcherStep(s, d);
            && !s'.disp.Unstarted? && s'.taken == s.taken && s'.tasks == s.tasks && |s'.workers| == |s.workers|
            && forall w :: 0 <= w < |s'.workers| ==> s'.workers[w].phase == s.workers[w].phase
  {}

  lemma TaskStepService(s: State, t: nat, k: TaskAction)
    requires TaskEnabled(s, t, k)
    ensures var s' := TaskStep(s, t, k);
            var w := s.tasks[t].worker;
            && s'.taken == s.taken && |s'.tasks| == |s.tasks| && s'.disp == s.disp && |s'.workers| == |s.workers|
            && s'.workers == s.workers[w := s'.workers[w]] && s'.workers[w].phase == s.workers[w].phase
            && InService(s'.workers[w]) == InService(s.workers[w])
  {}

  lemma NoneElsewhere(s: State, s': State, w: nat)
    requires w < |s.workers| == |s'.workers| && s'.workers == s.workers[w := s'.workers[w]]
    requires !Staffed(s) && (InService(s'.workers[w]) ==> InService(s.workers[w]))
    ensures !Staffed(s')
  {
    forall i | 0 <= i < |s'.workers| ensures !InService(s'.workers[i]) {
      assert !InService(s.workers[i]);
    }
  }

  lemma DesertedStep(s: State, a: Action)
    requires Deserted(s) && Enabled(s, a)
    ensures Deserted(Apply(s, a)) && Apply(s, a).taken == s.taken && |Apply(s, a).tasks| == |s.tasks|
  {
    var s' := Apply(s, a);
    match a {
      case ByOwner(_) => hide DispatcherStep, WorkerStep, TaskStep;
      case ByDispatcher(d) =>
        DesertedDispatcherStep(s, d);
        hide DispatcherStep, DispatcherEnabled, WorkerStep, TaskStep;
        forall w | 0 <= w < |s'.workers| ensures !InService(s'.workers[w]) {
          assert !InService(s.workers[w]);
        }
      case ByWorker(w, e) =>
        hide DispatcherStep, WorkerStep, TaskStep, InService;
        DesertedWorkerStep(s, w, e);
        WorkerStepFrame(s, w, e);
        NoneElsewhere(s, s', w);
      case ByTask(t, k) =>
        hide DispatcherStep, WorkerStep, InService;
        TaskStepService(s, t, k);
        NoneElsewhere(s, s', s.tasks[t].worker);
    }
  }

  /** With no worker in service, no continuation of any kind takes a stream or starts a task. */
  lemma {:induction false} DesertedForGood(s: State, acts: seq<Action>)
    requires Deserted(s) && Valid(s, acts)
    ensures Deserted(Run(s, acts)) && Run(s, acts).taken == s.taken && |Run(s, acts).tasks| == |s.tasks|
    decreases |acts|
  {
    hide Deserted, Enabled, Apply;
    if acts != [] {
      DesertedStep(s, acts[0]);
      DesertedForGood(Apply(s, acts[0]), acts[1..]);
    }
  }

  /** `acts` give some stream to a connection task. */
  predicate GivesOne(s: State, acts: seq<Action>) {
    Valid(s, acts) && |Run(s, acts).tasks| > |s.tasks|
  }

  lemma DeliveryExact(s: State)
    requires Shape(s) && !Leaving(s.disp) && s.capacity > 0 && Pending(s) == InTransit(s) && Pending(s) > 0
    ensures (exists acts :: HandsOff(s, acts)) <==> Staffed(s)
    ensures (exists acts :: GivesOne(s, acts)) <==> Staffed(s)
  {
    assert s.disp.Unstarted? ==> InTransit(s) == 0;
    hide Shape, InTransit, Leaving, Valid, Run, Staffed, Work;
    if Staffed(s) {
      HandOffCompletes(s);
      var acts :| HandsOff(s, acts);
      assert GivesOne(s, acts);
    } else {
      forall acts | Valid(s, acts) ensures |Run(s, acts).tasks| == |s.tasks| {
        DesertedForGood(s, acts);
      }
    }
  }

  /**
   In every reachable state with the dispatcher in its loop and a stream pending: all pending streams
   can be delivered exactly if some worker is in service. If none is, no continuation of any kind gives
   a connection task to any stream, pending or yet to come.
   */
  lemma DeliveryPossibleExactly(transport: Transport, workersCfg: nat, capacity: nat, acts: seq<Action>)
    requires capacity > 0 && Valid(Init(transport, workersCfg, capacity), acts)
    requires !Leaving(Run(Init(transport, workersCfg, capacity), acts).disp)
    requires Pending(Run(Init(transport, workersCfg, capacity), acts)) > 0
    ensures var s := Run(Init(transport, workersCfg, capacity), acts);
            && ((exists more :: HandsOff(s, more)) <==> Staffed(s))
            && ((exists more :: GivesOne(s, more)) <==> Staffed(s))
  {
    var i := Init(transport, workersCfg, capacity);
    InitShape(transport, workersCfg, capacity);
    RunKeepsShape(i, acts);
    RunKeepsTransit(i, acts);
    RunKeepsConfig(i, acts);
    DeliveryExact(Run(i, acts));
  }
}
