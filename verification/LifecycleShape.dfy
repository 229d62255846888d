/** Facts about the phases and channels of a listener that every action keeps. */
module LifecycleShape {
  import opened Prelude
  import opened Lifecycle

  predicate Leaving(d: DispatcherPhase) {
    d.Unwinding? || d.Joining? || d.Ended?
  }

  /** The dispatcher's phases, its queue and the two outer channels. */
  predicate DispatcherShape(s: State) {
    && |s.queue| <= s.capacity
    && |s.workers| <= s.workersCfg
    && (s.disp.Unstarted? ==> s.workers == [] && s.tasks == [] && s.queue == [])
    && (s.disp.Greeting? || s.disp.Draining? || s.disp.Unwinding? ==> s.transport.Udp?)
    && (s.disp.Logging? ==> s.transport.Tcp?)
    && (s.owner.Up? ==> s.listenerChan == Watch(0, 1))
    && (s.owner.Stopping? ==> s.listenerChan.version == 1)
    && (s.owner.Stopped? || s.owner.Dropped? ==> s.listenerChan.senders == 0)
    && (s.owner.Stopped? ==> s.disp.Ended?)
    && (Leaving(s.disp) ==> s.workerChan.senders == 0)
    && (s.disp.Joining? && s.workers != [] ==> s.workerChan.version == 1)
    && (!Leaving(s.disp) && s.signal ==> s.workerChan == Watch(0, 1))
    && (!Leaving(s.disp) && !s.signal ==> s.workerChan.senders == 0 && s.workers == [])
  }

  /** A worker's own channel follows its phase: two senders inside the loop, none once it left. */
  predicate WorkerShape(disp: DispatcherPhase, v: Worker) {
    && (v.phase.NotPolled? ==> v.chan == Watch(0, 0) && v.table == map[])
    && (v.InLoop() ==> v.chan == Watch(0, 2))
    && (v.phase.Aborting? || v.phase.Finished? ==> v.chan.senders == 0)
    && (v.phase.Aborting? ==> v.chan.version == 1)
    && (v.joined ==> v.phase.Finished? && (disp.Joining? || disp.Ended?))
    && (v.cancelled ==> disp.Ended?)
    && (disp.Ended? ==> v.phase.Finished? || v.cancelled)
  }

  /** A connection task was spawned by a polled worker, before that worker ever signalled. */
  predicate TaskShape(ws: seq<Worker>, c: Task) {
    && c.worker < |ws|
    && !ws[c.worker].phase.NotPolled?
    && c.seen == 0
  }

  predicate WorkersShape(s: State) {
    forall w :: 0 <= w < |s.workers| ==> WorkerShape(s.disp, s.workers[w])
  }

  predicate TasksShape(s: State) {
    forall t :: 0 <= t < |s.tasks| ==> TaskShape(s.workers, s.tasks[t])
  }

  predicate Shape(s: State) {
    DispatcherShape(s) && WorkersShape(s) && TasksShape(s)
  }

  lemma InitShape(transport: Transport, workersCfg: nat, capacity: nat)
    ensures Shape(Init(transport, workersCfg, capacity))
  {}

  lemma DispatcherKeepsDispatcherShape(s: State, d: DispatcherAction)
    requires DispatcherShape(s) && DispatcherEnabled(s, d)
    ensures DispatcherShape(DispatcherStep(s, d))
  {}

  lemma DispatcherKeepsWorkersShape(s: State, d: DispatcherAction)
    requires DispatcherShape(s) && WorkersShape(s) && DispatcherEnabled(s, d)
    ensures WorkersShape(DispatcherStep(s, d))
  {
    hide DispatcherShape;
    var s' := DispatcherStep(s, d);
    forall w | 0 <= w < |s'.workers| ensures WorkerShape(s'.disp, s'.workers[w]) {
      if w < |s.workers| {
        assert WorkerShape(s.disp, s.workers[w]);
      }
    }
  }

  lemma DispatcherKeepsTasksShape(s: State, d: DispatcherAction)
    requires DispatcherShape(s) && TasksShape(s) && DispatcherEnabled(s, d)
    ensures TasksShape(DispatcherStep(s, d))
  {
    var s' := DispatcherStep(s, d);
    forall t | 0 <= t < |s'.tasks| ensures TaskShape(s'.workers, s'.tasks[t]) {
      assert TaskShape(s.workers, s.tasks[t]);
    }
  }

  lemma DispatcherKeepsShape(s: State, d: DispatcherAction)
    requires Shape(s) && DispatcherEnabled(s, d)
    ensures Shape(DispatcherStep(s, d))
  {
    hide DispatcherShape, WorkersShape, TasksShape, DispatcherStep, DispatcherEnabled;
    DispatcherKeepsDispatcherShape(s, d);
    DispatcherKeepsWorkersShape(s, d);
    DispatcherKeepsTasksShape(s, d);
  }

  /** A worker action changes one worker, the queue, the tasks and the histories, and nothing else. */
  lemma WorkerStepFrame(s: State, w: nat, e: WorkerAction)
    requires WorkerEnabled(s, w, e)
    ensures var s' := WorkerStep(s, w, e);
            && w < |s'.workers| && |s'.queue| <= |s.queue| && (s.queue == [] ==> s'.queue == [])
            && s' == s.(workers := s.workers[w := s'.workers[w]], queue := s'.queue, tasks := s'.tasks,
                        taken := s'.taken, retired := s'.retired)
  {}

  lemma WorkerStepShape(s: State, w: nat, e: WorkerAction)
    requires WorkerEnabled(s, w, e) && WorkerShape(s.disp, s.workers[w])
    ensures w < |WorkerStep(s, w, e).workers| && WorkerShape(s.disp, WorkerStep(s, w, e).workers[w])
    ensures !WorkerStep(s, w, e).workers[w].phase.NotPolled?
  {
    var v := s.workers[w];
    match e {
      case Take(_) =>
      case Peek(_) =>
      case AbortOne(_) =>
      case _ => hide WorkerEnabled;
    }
  }

  /** It adds at most one task, which has seen no signal yet. */
  lemma WorkerStepTasks(s: State, w: nat, e: WorkerAction)
    requires WorkerEnabled(s, w, e) && WorkerShape(s.disp, s.workers[w])
    ensures var s' := WorkerStep(s, w, e);
            && |s.tasks| <= |s'.tasks| <= |s.tasks| + 1
            && (forall t :: 0 <= t < |s.tasks| ==>
                 s'.tasks[t].worker == s.tasks[t].worker && s'.tasks[t].seen == s.tasks[t].seen)
            && (|s.tasks| < |s'.tasks| ==> s'.tasks[|s.tasks|].worker == w && s'.tasks[|s.tasks|].seen == 0)
  {}

  lemma WorkerKeepsShape(s: State, w: nat, e: WorkerAction)
    requires Shape(s) && WorkerEnabled(s, w, e)
    ensures Shape(WorkerStep(s, w, e))
  {
    hide WorkerStep, WorkerShape;
    var s' := WorkerStep(s, w, e);
    assert WorkerShape(s.disp, s.workers[w]);
    WorkerStepFrame(s, w, e);
    WorkerStepShape(s, w, e);
    WorkerStepTasks(s, w, e);
    assert DispatcherShape(s');
    hide DispatcherShape, WorkerEnabled;
    forall i | 0 <= i < |s'.workers| ensures WorkerShape(s'.disp, s'.workers[i]) {
      assert WorkerShape(s.disp, s.workers[i]);
    }
    forall t | 0 <= t < |s'.tasks| ensures TaskShape(s'.workers, s'.tasks[t]) {
      if t < |s.tasks| {
        assert TaskShape(s.workers, s.tasks[t]);
      }
    }
  }

  lemma TaskKeepsShape(s: State, t: nat, k: TaskAction)
    requires Shape(s) && TaskEnabled(s, t, k)
    ensures Shape(TaskStep(s, t, k))
  {
    var s' := TaskStep(s, t, k);
    assert WorkerShape(s.disp, s.workers[s.tasks[t].worker]);
    forall i | 0 <= i < |s'.tasks| ensures TaskShape(s'.workers, s'.tasks[i]) {
      assert TaskShape(s.workers, s.tasks[i]);
    }
  }

  lemma OwnerKeepsShape(s: State, o: OwnerAction)
    requires Shape(s) && OwnerEnabled(s, o)
    ensures Shape(OwnerStep(s, o))
  {}

  lemma KeepsShape(s: State, a: Action)
    requires Shape(s) && Enabled(s, a)
    ensures Shape(Apply(s, a))
  {
    hide Shape, DispatcherStep, WorkerStep, TaskStep, OwnerStep;
    match a {
      case ByOwner(o) => OwnerKeepsShape(s, o);
      case ByDispatcher(d) => DispatcherKeepsShape(s, d);
      case ByWorker(w, e) => WorkerKeepsShape(s, w, e);
      case ByTask(t, k) => TaskKeepsShape(s, t, k);
    }
  }

  lemma {:induction false} RunKeepsShape(s: State, acts: seq<Action>)
    requires Shape(s) && Valid(s, acts)
    ensures Shape(Run(s, acts))
    decreases |acts|
  {
    hide Shape, Enabled, Apply;
    if acts != [] {
      KeepsShape(s, acts[0]);
      RunKeepsShape(Apply(s, acts[0]), acts[1..]);
    }
  }
}
