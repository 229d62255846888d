/**
 What the actions of a run say about the state it ends in: how many workers there are, where each
 task, worker and the dispatcher stand, and why streams were retired. Everything here is read off
 the list of actions alone.
 */
module LifecycleHistory {
  import opened Prelude
  import opened Lifecycle
  import opened LifecycleShape
  import opened LifecycleSafety
  import opened LifecycleOrder
  import opened LifecycleTable

  // ---------- Tasks ----------

  /** A connection task is born of a peek that saw a TLS record or not, or on UDP of a stream taken. */
  datatype Birth = Birth(worker: nat, tls: bool)

  function BirthOf(t: Transport, a: Action): seq<Birth> {
    match a
    case ByWorker(w, Peek(Some(tls))) => [Birth(w, tls)]
    case ByWorker(w, Take(Some(_))) => if t.Udp? then [Birth(w, false)] else []
    case _ => []
  }

  function Births(t: Transport, acts: seq<Action>): seq<Birth> {
    if acts == [] then [] else Births(t, acts[..|acts| - 1]) + BirthOf(t, acts[|acts| - 1])
  }

  /** A plain connection is served at once, one with TLS only after a handshake that succeeded. */
  predicate Secured(acts: seq<Action>, t: nat, b: Birth) {
    !b.tls || ByTask(t, Secure(true)) in acts
  }

  /** Where task `t` stands, by what it was born as and what it has done. */
  predicate TaskTold(acts: seq<Action>, t: nat, c: Task, b: Birth) {
    && c.worker == b.worker
    && (ByTask(t, Secure(true)) in acts || ByTask(t, Secure(false)) in acts ==> b.tls)
    && (c.phase.Handshake? <==>
          b.tls && ByTask(t, Secure(true)) !in acts && ByTask(t, Secure(false)) !in acts && ByTask(t, Abort) !in acts)
    && (c.phase == Done(HandshakeFailed) <==> ByTask(t, Secure(false)) in acts)
    && (c.phase.Serving? <==>
          Secured(acts, t, b) && ByTask(t, Serve) !in acts && ByTask(t, Close) !in acts && ByTask(t, Abort) !in acts)
    && (c.phase.Served? || c.phase == Done(Completed) <==> ByTask(t, Serve) in acts)
    && (c.phase.Served? || c.phase == Done(Completed) || c.phase == Done(ClosedBySignal) ==> Secured(acts, t, b))
    && (c.phase == Done(Completed) <==> ByTask(t, Remove) in acts)
    && (c.phase == Done(ClosedBySignal) <==> ByTask(t, Close) in acts)
    && (c.phase == Done(Aborted) <==> ByTask(t, Abort) in acts)
    && (c.aborted ==> ByWorker(c.worker, AbortOne(c.addr)) in acts)
  }

  ghost predicate TasksTold(s: State, acts: seq<Action>) {
    && |s.tasks| == |Births(s.transport, acts)|
    && (forall t :: 0 <= t < |s.tasks| ==> TaskTold(acts, t, s.tasks[t], Births(s.transport, acts)[t]))
    && (forall a :: a in acts && a.ByTask? ==> a.t < |s.tasks|)
  }

  lemma BirthsMore(t: Transport, acts: seq<Action>, a: Action)
    ensures Births(t, acts + [a]) == Births(t, acts) + BirthOf(t, a)
  {
    assert (acts + [a])[..|acts|] == acts;
  }

  /** An action that leaves the tasks alone says nothing about them. */
  lemma SameTasksTold(s: State, s': State, acts: seq<Action>, a: Action)
    requires TasksTold(s, acts) && s'.tasks == s.tasks && s'.transport == s.transport
    requires !a.ByTask? && BirthOf(s.transport, a) == []
    ensures TasksTold(s', acts + [a])
  {
    BirthsMore(s.transport, acts, a);
    hide Births, BirthOf;
    forall t | 0 <= t < |s'.tasks| ensures TaskTold(acts + [a], t, s'.tasks[t], Births(s.transport, acts + [a])[t]) {
      assert TaskTold(acts, t, s.tasks[t], Births(s.transport, acts)[t]);
    }
  }

  lemma SpawnTold(s: State, s': State, acts: seq<Action>, a: Action, c: Task)
    requires TasksTold(s, acts) && s'.tasks == s.tasks + [c] && s'.transport == s.transport
    requires a.ByWorker? && !c.aborted && (c.phase.Handshake? || c.phase.Serving?)
    requires BirthOf(s.transport, a) == [Birth(c.worker, c.phase.Handshake?)]
    ensures TasksTold(s', acts + [a])
  {
    BirthsMore(s.transport, acts, a);
    hide Births, BirthOf;
    var births := Births(s.transport, acts);
    forall t | 0 <= t < |s'.tasks| ensures TaskTold(acts + [a], t, s'.tasks[t], (births + [Birth(c.worker, c.phase.Handshake?)])[t]) {
      if t < |s.tasks| {
        assert TaskTold(acts, t, s.tasks[t], births[t]);
      } else {
        assert forall k: TaskAction :: ByTask(t, k) !in acts;
      }
    }
  }

  lemma OtherTaskTold(acts: seq<Action>, a: Action, t: nat, c: Task, b: Birth)
    requires TaskTold(acts, t, c, b) && !(a.ByTask? && a.t == t)
    ensures TaskTold(acts + [a], t, c, b)
  {}

  /** Only the task filed under an address is aborted there. */
  lemma AbortMarks(s: State, w: nat, b: Addr, t: nat)
    requires Tables(s) && WorkerEnabled(s, w, AbortOne(b)) && t < |s.tasks|
    ensures var s' := AbortStep(s, w, b);
            && |s'.tasks| == |s.tasks|
            && (s'.tasks[t] == s.tasks[t]
                || (s'.tasks[t] == s.tasks[t].(aborted := true) && s.tasks[t].worker == w && s.tasks[t].addr == b))
  {
    assert TableShape(s.tasks, w, s.workers[w]);
    assert b in s.workers[w].table ==> EntryShape(s.tasks, w, b, s.workers[w].table[b]);
  }

  lemma AbortedTaskTold(acts: seq<Action>, t: nat, c: Task, b: Birth, a: Action)
    requires TaskTold(acts, t, c, b) && a == ByWorker(c.worker, AbortOne(c.addr))
    ensures TaskTold(acts + [a], t, c.(aborted := true), b)
  {}

  lemma AbortTold(s: State, acts: seq<Action>, w: nat, b: Addr)
    requires TasksTold(s, acts) && Tables(s) && WorkerEnabled(s, w, AbortOne(b))
    ensures TasksTold(AbortStep(s, w, b), acts + [ByWorker(w, AbortOne(b))])
  {
    var a := ByWorker(w, AbortOne(b));
    var s' := AbortStep(s, w, b);
    BirthsMore(s.transport, acts, a);
    assert BirthOf(s.transport, a) == [];
    hide Births, BirthOf, Tables, TaskTold;
    assert s'.transport == s.transport && |s'.tasks| == |s.tasks|;
    hide AbortStep, WorkerEnabled;
    forall t | 0 <= t < |s'.tasks| ensures TaskTold(acts + [a], t, s'.tasks[t], Births(s.transport, acts)[t]) {
      AbortMarks(s, w, b, t);
      if s'.tasks[t] == s.tasks[t] {
        OtherTaskTold(acts, a, t, s.tasks[t], Births(s.transport, acts)[t]);
      } else {
        AbortedTaskTold(acts, t, s.tasks[t], Births(s.transport, acts)[t], a);
      }
    }
  }

  lemma WorkerTasksTold(s: State, acts: seq<Action>, w: nat, e: WorkerAction)
    requires TasksTold(s, acts) && Tables(s) && WorkerEnabled(s, w, e)
    ensures TasksTold(WorkerStep(s, w, e), acts + [ByWorker(w, e)])
  {
    hide TasksTold, Tables;
    var s' := WorkerStep(s, w, e);
    var a := ByWorker(w, e);
    match e {
      case AbortOne(b) => AbortTold(s, acts, w, b);
      case Take(peer) =>
        if peer.Some? && s.transport.Udp? {
          SpawnTold(s, s', acts, a, s'.tasks[|s.tasks|]);
        } else {
          SameTasksTold(s, s', acts, a);
        }
      case Peek(tls) =>
        if tls.Some? {
          SpawnTold(s, s', acts, a, s'.tasks[|s.tasks|]);
        } else {
          SameTasksTold(s, s', acts, a);
        }
      case _ => SameTasksTold(s, s', acts, a);
    }
  }

  lemma OwnTaskTold(s: State, acts: seq<Action>, t: nat, k: TaskAction, b: Birth)
    requires TaskEnabled(s, t, k) && TaskTold(acts, t, s.tasks[t], b)
    ensures |TaskStep(s, t, k).tasks| == |s.tasks| && TaskTold(acts + [ByTask(t, k)], t, TaskStep(s, t, k).tasks[t], b)
  {
    var acts' := acts + [ByTask(t, k)];
    assert forall j: TaskAction :: ByTask(t, j) in acts' <==> ByTask(t, j) in acts || j == k;
  }

  lemma TaskTasksTold(s: State, acts: seq<Action>, t: nat, k: TaskAction)
    requires TasksTold(s, acts) && TaskEnabled(s, t, k)
    ensures TasksTold(TaskStep(s, t, k), acts + [ByTask(t, k)])
  {
    var a := ByTask(t, k);
    var s' := TaskStep(s, t, k);
    BirthsMore(s.transport, acts, a);
    assert BirthOf(s.transport, a) == [];
    hide Births, BirthOf, TaskTold;
    var births := Births(s.transport, acts);
    OwnTaskTold(s, acts, t, k, births[t]);
    forall i | 0 <= i < |s'.tasks| ensures TaskTold(acts + [a], i, s'.tasks[i], births[i]) {
      if i != t {
        OtherTaskTold(acts, a, i, s.tasks[i], births[i]);
      }
    }
  }

  lemma DispatcherTasksTold(s: State, acts: seq<Action>, d: DispatcherAction)
    requires TasksTold(s, acts) && DispatcherEnabled(s, d)
    ensures TasksTold(DispatcherStep(s, d), acts + [ByDispatcher(d)])
  {
    hide TasksTold;
    assert BirthOf(s.transport, ByDispatcher(d)) == [];
    SameTasksTold(s, DispatcherStep(s, d), acts, ByDispatcher(d));
  }

  lemma KeepsTasksTold(s: State, acts: seq<Action>, a: Action)
    requires TasksTold(s, acts) && Tables(s) && Enabled(s, a)
    ensures TasksTold(Apply(s, a), acts + [a])
  {
    hide TasksTold, Tables, DispatcherStep, WorkerStep, TaskStep;
    match a {
      case ByOwner(_) => SameTasksTold(s, Apply(s, a), acts, a);
      case ByDispatcher(d) => DispatcherTasksTold(s, acts, d);
      case ByWorker(w, e) => WorkerTasksTold(s, acts, w, e);
      case ByTask(t, k) => TaskTasksTold(s, acts, t, k);
    }
  }

  // ---------- Workers ----------

  /** How worker `w` ended, if it did, and whether it was joined. */
  predicate WorkerTold(acts: seq<Action>, w: nat, v: Worker) {
    && (v.phase.NotPolled? <==>
          ByWorker(w, Begin) !in acts && ByWorker(w, StopWorker) !in acts && ByWorker(w, Cancel) !in acts)
    && (v.phase == Finished(ByError) <==> ByWorker(w, Take(None)) in acts || ByWorker(w, Peek(None)) in acts)
    && (v.phase == Finished(ByDisconnect) <==> ByWorker(w, Disconnect) in acts)
    && (v.phase == Finished(ByCancel) <==> ByWorker(w, Cancel) in acts)
    && (v.phase.Aborting? || v.phase == Finished(ByStop) <==> ByWorker(w, StopWorker) in acts)
    && (v.joined <==> ByDispatcher(Join(w)) in acts)
    && (v.cancelled ==> ByDispatcher(Unwind) in acts)
  }

  /** A successful start spawns as many workers as are configured; nothing else adds or removes one. */
  ghost predicate WorkersTold(s: State, acts: seq<Action>) {
    && |s.workers| == (if ByDispatcher(Start(true)) in acts then s.workersCfg else 0)
    && (s.disp.Unstarted? ==> ByDispatcher(Start(true)) !in acts)
    && (forall w :: 0 <= w < |s.workers| ==> WorkerTold(acts, w, s.workers[w]))
    && (forall a :: a in acts && a.ByWorker? ==> a.w < |s.workers|)
    && (forall a :: a in acts && a.ByDispatcher? && a.d.Join? ==> a.d.worker < |s.workers|)
  }

  /** What one action makes of its worker. */
  predicate TurnsInto(v: Worker, e: WorkerAction, v': Worker) {
    && v'.joined == v.joined && v'.cancelled == v.cancelled
    && !v'.phase.NotPolled? && !v.phase.Finished?
    && (v.phase.NotPolled? ==> e.Begin? || e.StopWorker? || e.Cancel?)
    && (v'.phase == Finished(ByError) <==> e == Take(None) || e == Peek(None))
    && (v'.phase == Finished(ByDisconnect) <==> e.Disconnect?)
    && (v'.phase == Finished(ByCancel) <==> e.Cancel?)
    && (v'.phase.Aborting? || v'.phase == Finished(ByStop) <==> v.phase.Aborting? || e.StopWorker?)
  }

  lemma TakeTurn(s: State, w: nat, peer: Option<Addr>)
    requires WorkerEnabled(s, w, Take(peer))
    ensures w < |TakeStep(s, w, peer).workers|
    ensures TurnsInto(s.workers[w], Take(peer), TakeStep(s, w, peer).workers[w])
  {}

  lemma PeekTurn(s: State, w: nat, tls: Option<bool>)
    requires WorkerEnabled(s, w, Peek(tls))
    ensures w < |PeekStep(s, w, tls).workers|
    ensures TurnsInto(s.workers[w], Peek(tls), PeekStep(s, w, tls).workers[w])
  {}

  lemma WorkerTurn(s: State, w: nat, e: WorkerAction)
    requires WorkerEnabled(s, w, e)
    ensures w < |WorkerStep(s, w, e).workers|
    ensures TurnsInto(s.workers[w], e, WorkerStep(s, w, e).workers[w])
  {
    hide TakeStep, PeekStep;
    match e {
      case Take(peer) => hide TurnsInto; TakeTurn(s, w, peer);
      case Peek(tls) => hide TurnsInto; PeekTurn(s, w, tls);
      case _ =>
    }
  }

  lemma OneWorkerTold(s: State, acts: seq<Action>, w: nat, e: WorkerAction)
    requires WorkerEnabled(s, w, e) && WorkerTold(acts, w, s.workers[w])
    ensures w < |WorkerStep(s, w, e).workers|
    ensures WorkerTold(acts + [ByWorker(w, e)], w, WorkerStep(s, w, e).workers[w])
  {
    WorkerTurn(s, w, e);
    hide WorkerStep, WorkerEnabled;
    var acts' := acts + [ByWorker(w, e)];
    assert forall f: WorkerAction :: ByWorker(w, f) in acts' <==> ByWorker(w, f) in acts || f == e;
    assert ByDispatcher(Join(w)) in acts' <==> ByDispatcher(Join(w)) in acts;
    assert ByDispatcher(Unwind) in acts' <==> ByDispatcher(Unwind) in acts;
  }

  /** Nobody else's action says anything about a worker's end. */
  lemma OtherWorkerTold(acts: seq<Action>, a: Action, w: nat, v: Worker, v': Worker)
    requires WorkerTold(acts, w, v) && v'.phase == v.phase && !(a.ByWorker? && a.w == w)
    requires v'.joined == (v.joined || a == ByDispatcher(Join(w)))
    requires v'.cancelled ==> v.cancelled || a == ByDispatcher(Unwind)
    ensures WorkerTold(acts + [a], w, v')
  {}

  lemma WorkerWorkersTold(s: State, acts: seq<Action>, w: nat, e: WorkerAction)
    requires WorkersTold(s, acts) && WorkerEnabled(s, w, e)
    ensures WorkersTold(WorkerStep(s, w, e), acts + [ByWorker(w, e)])
  {
    hide WorkerStep, WorkerTold;
    var s' := WorkerStep(s, w, e);
    WorkerStepFrame(s, w, e);
    OneWorkerTold(s, acts, w, e);
    forall i | 0 <= i < |s'.workers| ensures WorkerTold(acts + [ByWorker(w, e)], i, s'.workers[i]) {
      if i != w {
        OtherWorkerTold(acts, ByWorker(w, e), i, s.workers[i], s'.workers[i]);
      }
    }
  }

  lemma TaskWorkersTold(s: State, acts: seq<Action>, t: nat, k: TaskAction)
    requires WorkersTold(s, acts) && TaskEnabled(s, t, k)
    ensures WorkersTold(TaskStep(s, t, k), acts + [ByTask(t, k)])
  {
    hide WorkerTold;
    var s' := TaskStep(s, t, k);
    forall i | 0 <= i < |s'.workers| ensures WorkerTold(acts + [ByTask(t, k)], i, s'.workers[i]) {
      OtherWorkerTold(acts, ByTask(t, k), i, s.workers[i], s'.workers[i]);
    }
  }

  lemma StartWorkersTold(s: State, acts: seq<Action>, tlsOk: bool)
    requires WorkersTold(s, acts) && DispatcherEnabled(s, Start(tlsOk)) && DispatcherShape(s)
    ensures WorkersTold(DispatcherStep(s, Start(tlsOk)), acts + [ByDispatcher(Start(tlsOk))])
  {
    var s' := DispatcherStep(s, Start(tlsOk));
    var acts' := acts + [ByDispatcher(Start(tlsOk))];
    assert forall w: nat, e: WorkerAction :: ByWorker(w, e) in acts' <==> ByWorker(w, e) in acts;
    forall w | 0 <= w < |s'.workers| ensures WorkerTold(acts', w, s'.workers[w]) {
      assert forall e: WorkerAction :: ByWorker(w, e) !in acts';
      assert s'.workers[w] == NewWorker();
    }
  }

  lemma DispatcherWorkersTold(s: State, acts: seq<Action>, d: DispatcherAction)
    requires WorkersTold(s, acts) && DispatcherEnabled(s, d) && DispatcherShape(s)
    ensures WorkersTold(DispatcherStep(s, d), acts + [ByDispatcher(d)])
  {
    if d.Start? {
      StartWorkersTold(s, acts, d.tlsOk);
    } else {
      hide WorkerTold, DispatcherShape;
      var s' := DispatcherStep(s, d);
      assert ByDispatcher(Start(true)) in acts + [ByDispatcher(d)] <==> ByDispatcher(Start(true)) in acts;
      forall i | 0 <= i < |s'.workers| ensures WorkerTold(acts + [ByDispatcher(d)], i, s'.workers[i]) {
        OtherWorkerTold(acts, ByDispatcher(d), i, s.workers[i], s'.workers[i]);
      }
    }
  }

  lemma KeepsWorkersTold(s: State, acts: seq<Action>, a: Action)
    requires WorkersTold(s, acts) && DispatcherShape(s) && Enabled(s, a)
    ensures WorkersTold(Apply(s, a), acts + [a])
  {
    hide DispatcherStep, WorkerStep, TaskStep, WorkerTold;
    match a {
      case ByOwner(_) =>
        forall i | 0 <= i < |s.workers| ensures WorkerTold(acts + [a], i, s.workers[i]) {
          OtherWorkerTold(acts, a, i, s.workers[i], s.workers[i]);
        }
      case ByDispatcher(d) => DispatcherWorkersTold(s, acts, d);
      case ByWorker(w, e) => WorkerWorkersTold(s, acts, w, e);
      case ByTask(t, k) => TaskWorkersTold(s, acts, t, k);
    }
  }

  // ---------- The dispatcher and the owner ----------

  /** Where the dispatcher stands, and what it reports, by the turns the run has taken. */
  predicate DispatcherTold(acts: seq<Action>, d: DispatcherPhase) {
    && (d.Unstarted? <==>
          ByDispatcher(Start(true)) !in acts && ByDispatcher(Start(false)) !in acts && ByDispatcher(Halt) !in acts)
    && (d.Draining? <==>
          ByDispatcher(EndpointClosed) in acts && ByDispatcher(IdleDone) !in acts && ByDispatcher(Halt) !in acts)
    && (d.Unwinding? || ByDispatcher(Unwind) in acts <==>
          ByDispatcher(IdleDone) in acts || ByDispatcher(Greet(false)) in acts)
    && (ByDispatcher(Unwind) in acts ==> d.Ended?)
    && (d.Joining? || ByDispatcher(JoinDone) in acts <==> ByDispatcher(Halt) in acts)
    && (d.Ended? <==> ByDispatcher(Unwind) in acts || ByDispatcher(JoinDone) in acts)
    && (d.Unwinding? || d.Ended? ==> (d.ok <==> ByDispatcher(Greet(false)) !in acts))
    && (ByDispatcher(Greet(false)) in acts ==> d.Unwinding? || d.Ended?)
  }

  predicate OwnerTold(acts: seq<Action>, o: Owner) {
    && (o.Up? <==> ByOwner(OwnerStop) !in acts && ByOwner(OwnerDrop) !in acts)
    && (o.Dropped? <==> ByOwner(OwnerDrop) in acts)
    && (o.Stopping? || o.Stopped? <==> ByOwner(OwnerStop) in acts)
    && (o.Stopped? <==> ByOwner(OwnerJoin) in acts)
  }

  lemma DispatcherStepTold(s: State, acts: seq<Action>, d: DispatcherAction)
    requires DispatcherTold(acts, s.disp) && DispatcherEnabled(s, d)
    ensures DispatcherTold(acts + [ByDispatcher(d)], DispatcherStep(s, d).disp)
  {
    var acts' := acts + [ByDispatcher(d)];
    assert forall e: DispatcherAction :: ByDispatcher(e) in acts' <==> ByDispatcher(e) in acts || e == d;
  }

  lemma SameDispatcherTold(acts: seq<Action>, a: Action, d: DispatcherPhase)
    requires DispatcherTold(acts, d) && !a.ByDispatcher?
    ensures DispatcherTold(acts + [a], d)
  {}

  lemma OwnerStepTold(s: State, acts: seq<Action>, a: Action)
    requires OwnerTold(acts, s.owner) && Enabled(s, a)
    ensures OwnerTold(acts + [a], Apply(s, a).owner)
  {
    match a {
      case ByOwner(o) =>
        hide DispatcherStep, WorkerStep, TaskStep;
        assert forall e: OwnerAction :: ByOwner(e) in acts + [a] <==> ByOwner(e) in acts || e == o;
      case ByDispatcher(_) => hide WorkerStep, TaskStep;
      case ByWorker(w, e) => hide DispatcherStep, TaskStep, WorkerStep; WorkerStepFrame(s, w, e);
      case ByTask(_, _) => hide DispatcherStep, WorkerStep;
    }
  }

  lemma KeepsDispatcherTold(s: State, acts: seq<Action>, a: Action)
    requires DispatcherTold(acts, s.disp) && Enabled(s, a)
    ensures DispatcherTold(acts + [a], Apply(s, a).disp)
  {
    hide DispatcherTold, DispatcherStep, WorkerStep;
    match a {
      case ByDispatcher(d) => DispatcherStepTold(s, acts, d);
      case ByOwner(_) => SameDispatcherTold(acts, a, s.disp);
      case ByWorker(w, e) => WorkerStepFrame(s, w, e); SameDispatcherTold(acts, a, s.disp);
      case ByTask(_, _) => SameDispatcherTold(acts, a, s.disp);
    }
  }

  // ---------- Tallies ----------

  function Times(acts: seq<Action>, kind: Action -> bool): nat {
    if acts == [] then 0 else Times(acts[..|acts| - 1], kind) + Bit(kind(acts[|acts| - 1]))
  }

  function Reasons(rs: seq<Retirement>, why: Reason): nat {
    if rs == [] then 0 else Reasons(rs[..|rs| - 1], why) + Bit(rs[|rs| - 1].why == why)
  }

  predicate IsSend(a: Action) {
    a == ByDispatcher(Send)
  }

  predicate IsTake(a: Action) {
    a.ByWorker? && a.e.Take?
  }

  predicate IsDiscard(a: Action) {
    a == ByDispatcher(LogAccept)
  }

  predicate IsError(a: Action) {
    a.ByWorker? && (a.e == Take(None) || a.e == Peek(None))
  }

  predicate IsWorkerEnd(a: Action) {
    a.ByWorker? && (a.e.StopWorker? || a.e.Cancel?)
  }

  predicate IsHalt(a: Action) {
    a == ByDispatcher(Halt)
  }

  predicate IsBadGreeting(a: Action) {
    a == ByDispatcher(Greet(false))
  }

  /** Streams accepted, sent and taken are as many as there were such actions, and each loss has its reason. */
  predicate Tallied(s: State, acts: seq<Action>) {
    && s.accepted == Times(acts, Arrives)
    && |s.sent| == Times(acts, IsSend)
    && |s.taken| == Times(acts, IsTake)
    && Reasons(s.retired, Discarded) == Times(acts, IsDiscard)
    && Reasons(s.retired, WorkerError) == Times(acts, IsError)
    && Reasons(s.retired, GreetingFailed) == Times(acts, IsBadGreeting)
    && Reasons(s.retired, WorkerShutdown) <= Times(acts, IsWorkerEnd)
    && Reasons(s.retired, DispatcherShutdown) <= Times(acts, IsHalt)
  }

  lemma TimesMore(acts: seq<Action>, a: Action, kind: Action -> bool)
    ensures Times(acts + [a], kind) == Times(acts, kind) + Bit(kind(a))
  {
    assert (acts + [a])[..|acts|] == acts;
  }

  lemma ReasonsMore(rs: seq<Retirement>, xs: seq<Stream>, why: Reason, of: Reason)
    requires |xs| <= 1
    ensures Reasons(Retire(rs, xs, why), of) == Reasons(rs, of) + if why == of then |xs| else 0
  {
    if xs == [] {
      assert Retire(rs, xs, why) == rs;
    } else {
      assert Retire(rs, xs, why)[..|rs|] == rs;
    }
  }

  lemma AllReasonsMore(rs: seq<Retirement>, xs: seq<Stream>, why: Reason)
    requires |xs| <= 1
    ensures forall of: Reason :: Reasons(Retire(rs, xs, why), of) == Reasons(rs, of) + if why == of then |xs| else 0
  {
    forall of: Reason
      ensures Reasons(Retire(rs, xs, why), of) == Reasons(rs, of) + if why == of then |xs| else 0
    {
      ReasonsMore(rs, xs, why, of);
    }
  }

  lemma AllTimesMore(acts: seq<Action>, a: Action)
    ensures Times(acts + [a], Arrives) == Times(acts, Arrives) + Bit(Arrives(a))
    ensures Times(acts + [a], IsSend) == Times(acts, IsSend) + Bit(IsSend(a))
    ensures Times(acts + [a], IsTake) == Times(acts, IsTake) + Bit(IsTake(a))
    ensures Times(acts + [a], IsDiscard) == Times(acts, IsDiscard) + Bit(IsDiscard(a))
    ensures Times(acts + [a], IsError) == Times(acts, IsError) + Bit(IsError(a))
    ensures Times(acts + [a], IsBadGreeting) == Times(acts, IsBadGreeting) + Bit(IsBadGreeting(a))
    ensures Times(acts + [a], IsWorkerEnd) == Times(acts, IsWorkerEnd) + Bit(IsWorkerEnd(a))
    ensures Times(acts + [a], IsHalt) == Times(acts, IsHalt) + Bit(IsHalt(a))
  {
    hide Times;
    TimesMore(acts, a, Arrives);
    TimesMore(acts, a, IsSend);
    TimesMore(acts, a, IsTake);
    TimesMore(acts, a, IsDiscard);
    TimesMore(acts, a, IsError);
    TimesMore(acts, a, IsBadGreeting);
    TimesMore(acts, a, IsWorkerEnd);
    TimesMore(acts, a, IsHalt);
  }

  /** The streams an action retires, and why. */
  predicate Retires(s: State, s': State, xs: seq<Stream>, why: Reason) {
    |xs| <= 1 && s'.retired == Retire(s.retired, xs, why)
  }

  lemma DispatcherTurn(s: State, d: DispatcherAction) returns (xs: seq<Stream>, why: Reason)
    requires DispatcherEnabled(s, d)
    ensures var s' := DispatcherStep(s, d);
            && Retires(s, s', xs, why) && s'.taken == s.taken
            && |s'.sent| == |s.sent| + Bit(d.Send?)
            && (d.LogAccept? ==> |xs| == 1 && why == Discarded)
            && (d == Greet(false) ==> |xs| == 1 && why == GreetingFailed)
            && (xs != [] && !d.LogAccept? && d != Greet(false) ==> d.Halt? && why == DispatcherShutdown)
  {
    why := if d.LogAccept? then Discarded else if d.Greet? then GreetingFailed else DispatcherShutdown;
    xs := if d.LogAccept? then [s.accepted] else if d == Greet(false) || d.Halt? then s.disp.Hand() else [];
    assert Retire(s.retired, [], why) == s.retired;
  }

  lemma WorkerRetires(s: State, w: nat, e: WorkerAction) returns (xs: seq<Stream>, why: Reason)
    requires WorkerEnabled(s, w, e)
    ensures var s' := WorkerStep(s, w, e);
            && Retires(s, s', xs, why) && s'.sent == s.sent && s'.accepted == s.accepted
            && |s'.taken| == |s.taken| + Bit(e.Take?)
            && (IsError(ByWorker(w, e)) ==> |xs| == 1 && why == WorkerError)
            && (xs != [] && !IsError(ByWorker(w, e)) ==> (e.StopWorker? || e.Cancel?) && why == WorkerShutdown)
  {
    var v := s.workers[w];
    why := if e.Take? || e.Peek? then WorkerError else WorkerShutdown;
    xs := if e == Take(None) then [s.queue[0]] else if e == Peek(None) then [v.phase.held]
          else if e.StopWorker? || e.Cancel? then v.Hand() else [];
    assert Retire(s.retired, [], why) == s.retired;
  }

  lemma KeepsTallied(s: State, acts: seq<Action>, a: Action)
    requires Tallied(s, acts) && Enabled(s, a)
    ensures Tallied(Apply(s, a), acts + [a])
  {
    hide DispatcherStep, WorkerStep, Times, Reasons, Retire;
    AllTimesMore(acts, a);
    AcceptedStep(s, a);
    match a {
      case ByOwner(_) =>
      case ByDispatcher(d) =>
        var xs, why := DispatcherTurn(s, d);
        AllReasonsMore(s.retired, xs, why);
      case ByWorker(w, e) =>
        var xs, why := WorkerRetires(s, w, e);
        AllReasonsMore(s.retired, xs, why);
      case ByTask(_, _) =>
    }
  }

  // ---------- Over every run ----------

  ghost predicate Told(s: State, acts: seq<Action>) {
    && Shape(s) && Tables(s)
    && TasksTold(s, acts) && WorkersTold(s, acts)
    && DispatcherTold(acts, s.disp) && OwnerTold(acts, s.owner)
    && Tallied(s, acts)
  }

  lemma KeepsTold(s: State, acts: seq<Action>, a: Action)
    requires Told(s, acts) && Enabled(s, a)
    ensures Told(Apply(s, a), acts + [a])
  {
    assert DispatcherShape(s);
    hide Shape, DispatcherShape, Tables, TasksTold, WorkersTold, DispatcherTold, OwnerTold, Tallied, Enabled, Apply;
    KeepsShape(s, a);
    KeepsTables(s, a);
    KeepsTasksTold(s, acts, a);
    KeepsWorkersTold(s, acts, a);
    KeepsDispatcherTold(s, acts, a);
    OwnerStepTold(s, acts, a);
    KeepsTallied(s, acts, a);
  }

  lemma {:induction false} RunTold(s: State, done: seq<Action>, acts: seq<Action>)
    requires Told(s, done) && Valid(s, acts)
    ensures Told(Run(s, acts), done + acts)
    decreases |acts|
  {
    hide Told, Enabled, Apply;
    if acts == [] {
      assert done + acts == done;
    } else {
      KeepsTold(s, done, acts[0]);
      RunTold(Apply(s, acts[0]), done + [acts[0]], acts[1..]);
      assert done + [acts[0]] + acts[1..] == done + acts;
    }
  }

  lemma ReachableTold(transport: Transport, workersCfg: nat, capacity: nat, acts: seq<Action>)
    requires Valid(Init(transport, workersCfg, capacity), acts)
    ensures Told(Run(Init(transport, workersCfg, capacity), acts), acts)
  {
    var i := Init(transport, workersCfg, capacity);
    InitShape(transport, workersCfg, capacity);
    assert Told(i, []);
    RunTold(i, [], acts);
    assert [] + acts == acts;
  }

  /**
   After any run in which the workers were started there are as many as are configured, and without a
   successful start there is none; each stands where the run's actions say.
   */
  lemma WorkersAfterRun(transport: Transport, workersCfg: nat, capacity: nat, acts: seq<Action>)
    requires Valid(Init(transport, workersCfg, capacity), acts)
    ensures var s := Run(Init(transport, workersCfg, capacity), acts);
            && |s.workers| == (if ByDispatcher(Start(true)) in acts then workersCfg else 0)
            && (forall w :: 0 <= w < |s.workers| ==> WorkerTold(acts, w, s.workers[w]))
  {
    ReachableTold(transport, workersCfg, capacity, acts);
    RunKeepsConfig(Init(transport, workersCfg, capacity), acts);
  }

  /**
   After any run there is one task for each successful peek, on UDP for each stream taken, and it
   stands where its birth and its own actions say. With TLS it is served only after a successful
   handshake, and it has failed exactly if its handshake has.
   */
  lemma TasksAfterRun(transport: Transport, workersCfg: nat, capacity: nat, acts: seq<Action>)
    requires Valid(Init(transport, workersCfg, capacity), acts)
    ensures var s := Run(Init(transport, workersCfg, capacity), acts);
            && |s.tasks| == |Births(transport, acts)|
            && (forall t :: 0 <= t < |s.tasks| ==> TaskTold(acts, t, s.tasks[t], Births(transport, acts)[t]))
  {
    ReachableTold(transport, workersCfg, capacity, acts);
    RunKeepsConfig(Init(transport, workersCfg, capacity), acts);
  }

  /** After any run the dispatcher and its owner stand where the run's actions say. */
  lemma DispatcherAfterRun(transport: Transport, workersCfg: nat, capacity: nat, acts: seq<Action>)
    requires Valid(Init(transport, workersCfg, capacity), acts)
    ensures var s := Run(Init(transport, workersCfg, capacity), acts);
            DispatcherTold(acts, s.disp) && OwnerTold(acts, s.owner)
  {
    ReachableTold(transport, workersCfg, capacity, acts);
  }

  /** After any run the streams accepted, sent, taken and lost are those the run's actions account for. */
  lemma StreamsAfterRun(transport: Transport, workersCfg: nat, capacity: nat, acts: seq<Action>)
    requires Valid(Init(transport, workersCfg, capacity), acts)
    ensures Tallied(Run(Init(transport, workersCfg, capacity), acts), acts)
  {
    ReachableTold(transport, workersCfg, capacity, acts);
  }
}
