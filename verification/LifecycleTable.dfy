/**
 The address table of a worker. A connection task removes its own address when it has been
 served, in parallel with the worker, so a handle can be removed before it is inserted, and the
 table may hold handles of tasks that have ended. What matters is the other direction: a live
 connection task must be found there by `stop`.
 */
module LifecycleTable {
  import opened Prelude
  import opened Lifecycle
  import opened LifecycleShape
  import opened LifecycleSafety
  import opened LifecycleProgress

  predicate InTable(v: Worker, c: Task, t: nat) {
    c.addr in v.table && v.table[c.addr] == t
  }

  predicate EntryShape(ts: seq<Task>, w: nat, b: Addr, k: nat) {
    k < |ts| && ts[k].worker == w && ts[k].addr == b
  }

  /** The entries of one worker name its own tasks; the task being inserted is its latest one. */
  ghost predicate TableShape(ts: seq<Task>, w: nat, v: Worker) {
    && (forall b :: b in v.table ==> EntryShape(ts, w, b, v.table[b]))
    && (v.phase.Inserting? ==>
         && EntryShape(ts, w, v.phase.addr, v.phase.task)
         && (v.phase.addr in v.table ==> v.table[v.phase.addr] != v.phase.task)
         && (forall t :: v.phase.task < t < |ts| ==> ts[t].worker != w))
  }

  predicate AbortShape(ws: seq<Worker>, c: Task) {
    c.worker < |ws| && (c.aborted ==> ws[c.worker].phase.Aborting? || ws[c.worker].phase.Finished?)
  }

  ghost predicate Tables(s: State) {
    && (forall w :: 0 <= w < |s.workers| ==> TableShape(s.tasks, w, s.workers[w]))
    && (forall t :: 0 <= t < |s.tasks| ==> AbortShape(s.workers, s.tasks[t]))
  }

  /** What must hold of a task in handshake or serving, given where its worker stands. */
  predicate TaskCovered(v: Worker, c: Task, t: nat) {
    c.Live() ==>
      match v.phase
      case NotPolled => true
      case Receiving => InTable(v, c, t)
      case Peeking(_, _) => InTable(v, c, t)
      case Inserting(k, _) => k == t || InTable(v, c, t)
      case Aborting(todo) => c.aborted || (c.addr in todo && InTable(v, c, t))
      case Finished(how) => how.ByStop? ==> c.aborted
  }

  predicate CoveredAt(s: State, t: nat)
    requires t < |s.tasks|
  {
    s.tasks[t].worker < |s.workers| && TaskCovered(s.workers[s.tasks[t].worker], s.tasks[t], t)
  }

  predicate Covered(s: State) {
    forall t :: 0 <= t < |s.tasks| ==> CoveredAt(s, t)
  }

  // ---------- The table's own invariant ----------

  lemma DispatcherKeepsTables(s: State, d: DispatcherAction)
    requires Shape(s) && Tables(s) && DispatcherEnabled(s, d)
    ensures Tables(DispatcherStep(s, d))
  {
    var s' := DispatcherStep(s, d);
    forall w | 0 <= w < |s'.workers| ensures TableShape(s'.tasks, w, s'.workers[w]) {
      if w < |s.workers| {
        assert TableShape(s.tasks, w, s.workers[w]);
      }
    }
    forall t | 0 <= t < |s'.tasks| ensures AbortShape(s'.workers, s'.tasks[t]) {
      assert AbortShape(s.workers, s.tasks[t]);
    }
  }

  /** Adding a task of worker `w` keeps the entries of every other worker. */
  lemma SpawnKeepsTables(s: State, w: nat, x: Stream, b: Addr, phase: TaskPhase)
    requires Tables(s) && w < |s.workers| && (s.workers[w].phase.Receiving? || s.workers[w].phase.Peeking?)
    ensures Tables(Spawn(s, w, x, b, phase))
  {
    var s' := Spawn(s, w, x, b, phase);
    forall i | 0 <= i < |s'.workers| ensures TableShape(s'.tasks, i, s'.workers[i]) {
      assert TableShape(s.tasks, i, s.workers[i]);
      if i == w {
        assert EntryShape(s'.tasks, w, b, |s.tasks|);
      }
      forall a | a in s'.workers[i].table ensures EntryShape(s'.tasks, i, a, s'.workers[i].table[a]) {
        assert EntryShape(s.tasks, i, a, s.workers[i].table[a]);
      }
    }
    forall t | 0 <= t < |s'.tasks| ensures AbortShape(s'.workers, s'.tasks[t]) {
      if t < |s.tasks| {
        assert AbortShape(s.workers, s.tasks[t]);
      }
    }
  }

  lemma AbortKeepsTables(s: State, w: nat, b: Addr)
    requires Tables(s) && WorkerEnabled(s, w, AbortOne(b))
    ensures Tables(AbortStep(s, w, b))
  {
    var s' := AbortStep(s, w, b);
    forall i | 0 <= i < |s'.workers| ensures TableShape(s'.tasks, i, s'.workers[i]) {
      assert TableShape(s.tasks, i, s.workers[i]);
      forall a | a in s'.workers[i].table ensures EntryShape(s'.tasks, i, a, s'.workers[i].table[a]) {
        assert EntryShape(s.tasks, i, a, s.workers[i].table[a]);
      }
    }
    assert TableShape(s.tasks, w, s.workers[w]);
    forall t | 0 <= t < |s'.tasks| ensures AbortShape(s'.workers, s'.tasks[t]) {
      assert AbortShape(s.workers, s.tasks[t]);
    }
  }

  /** The remaining worker actions change one worker's phase and, at most, record one handle. */
  lemma PhaseKeepsTables(s: State, w: nat, v: Worker)
    requires Tables(s) && w < |s.workers| && TableShape(s.tasks, w, v)
    requires (s.workers[w].phase.Aborting? || s.workers[w].phase.Finished?) ==> (v.phase.Aborting? || v.phase.Finished?)
    ensures Tables(SetWorker(s, w, v))
  {
    var s' := SetWorker(s, w, v);
    forall t | 0 <= t < |s'.tasks| ensures AbortShape(s'.workers, s'.tasks[t]) {
      assert AbortShape(s.workers, s.tasks[t]);
    }
  }

  lemma TakeKeepsTables(s: State, w: nat, peer: Option<Addr>)
    requires Tables(s) && WorkerEnabled(s, w, Take(peer))
    ensures Tables(TakeStep(s, w, peer))
  {
    var s1 := s.(queue := s.queue[1..], taken := s.taken + [s.queue[0]]);
    assert Tables(s1);
    if peer.Some? && s.transport.Udp? {
      SpawnKeepsTables(s1, w, s.queue[0], peer.value, Serving);
    } else {
      assert TableShape(s.tasks, w, s.workers[w]);
      var v := TakeStep(s, w, peer).workers[w];
      PhaseKeepsTables(s, w, v);
      assert TakeStep(s, w, peer).workers == SetWorker(s, w, v).workers;
    }
  }

  lemma PeekKeepsTables(s: State, w: nat, tls: Option<bool>)
    requires Tables(s) && WorkerEnabled(s, w, Peek(tls))
    ensures Tables(PeekStep(s, w, tls))
  {
    var v := s.workers[w];
    if tls.Some? {
      SpawnKeepsTables(s, w, v.phase.held, v.phase.addr, if tls.value then Handshake else Serving);
    } else {
      assert TableShape(s.tasks, w, v);
      PhaseKeepsTables(s, w, v.End(ByError));
    }
  }

  lemma OtherKeepsTables(s: State, w: nat, e: WorkerAction)
    requires Tables(s) && WorkerEnabled(s, w, e) && !e.Take? && !e.Peek? && !e.AbortOne?
    ensures Tables(WorkerStep(s, w, e))
  {
    var v := WorkerStep(s, w, e).workers[w];
    assert TableShape(s.tasks, w, s.workers[w]);
    OtherStepFrame(s, w, e);
    PhaseKeepsTables(s, w, v);
  }

  lemma WorkerKeepsTables(s: State, w: nat, e: WorkerAction)
    requires Tables(s) && WorkerEnabled(s, w, e)
    ensures Tables(WorkerStep(s, w, e))
  {
    hide Tables;
    match e {
      case Take(peer) => TakeKeepsTables(s, w, peer);
      case Peek(tls) => PeekKeepsTables(s, w, tls);
      case AbortOne(b) => AbortKeepsTables(s, w, b);
      case _ => OtherKeepsTables(s, w, e);
    }
  }

  lemma TaskKeepsTables(s: State, t: nat, k: TaskAction)
    requires Tables(s) && TaskEnabled(s, t, k)
    ensures Tables(TaskStep(s, t, k))
  {
    var s' := TaskStep(s, t, k);
    forall i | 0 <= i < |s'.workers| ensures TableShape(s'.tasks, i, s'.workers[i]) {
      assert TableShape(s.tasks, i, s.workers[i]);
      forall a | a in s'.workers[i].table ensures EntryShape(s'.tasks, i, a, s'.workers[i].table[a]) {
        assert EntryShape(s.tasks, i, a, s.workers[i].table[a]);
      }
    }
    forall j | 0 <= j < |s'.tasks| ensures AbortShape(s'.workers, s'.tasks[j]) {
      assert AbortShape(s.workers, s.tasks[j]);
    }
  }

  lemma KeepsTables(s: State, a: Action)
    requires Shape(s) && Tables(s) && Enabled(s, a)
    ensures Tables(Apply(s, a))
  {
    match a {
      case ByOwner(_) => hide Shape, DispatcherStep, WorkerStep, TaskStep;
      case ByDispatcher(d) => hide Shape, Tables, DispatcherStep, WorkerStep, TaskStep; DispatcherKeepsTables(s, d);
      case ByWorker(w, e) => hide Shape, Tables, DispatcherStep, WorkerStep, TaskStep; WorkerKeepsTables(s, w, e);
      case ByTask(t, k) => hide Shape, Tables, DispatcherStep, WorkerStep, TaskStep; TaskKeepsTables(s, t, k);
    }
  }

  // ---------- Coverage ----------

  /**
   The two actions that can lose the handle of a live task, both on a peer address used twice:
   recording a handle over the one of a live task, and a served task removing an entry that by
   then belongs to a later, live task.
   */
  predicate Clobbers(s: State, a: Action) {
    match a
    case ByWorker(w, Insert) =>
      && w < |s.workers| && s.workers[w].phase.Inserting?
      && var v := s.workers[w];
         v.phase.addr in v.table && v.table[v.phase.addr] < |s.tasks| && s.tasks[v.table[v.phase.addr]].Live()
    case ByTask(t, Remove) =>
      && t < |s.tasks| && s.tasks[t].worker < |s.workers|
      && var c := s.tasks[t];
         var v := s.workers[c.worker];
         && c.addr in v.table && v.table[c.addr] != t && v.table[c.addr] < |s.tasks|
         && s.tasks[v.table[c.addr]].Live()
         && (v.InLoop() || (v.phase.Aborting? && c.addr in v.phase.todo && !s.tasks[v.table[c.addr]].aborted))
    case _ => false
  }

  lemma DispatcherKeepsCover(s: State, d: DispatcherAction)
    requires Shape(s) && Covered(s) && DispatcherEnabled(s, d)
    ensures Covered(DispatcherStep(s, d))
  {
    var s' := DispatcherStep(s, d);
    forall t | 0 <= t < |s'.tasks| ensures CoveredAt(s', t) {
      assert CoveredAt(s, t);
    }
  }

  lemma SpawnKeepsCover(s: State, w: nat, x: Stream, b: Addr, phase: TaskPhase)
    requires Covered(s) && w < |s.workers| && (s.workers[w].phase.Receiving? || s.workers[w].phase.Peeking?)
    ensures Covered(Spawn(s, w, x, b, phase))
  {
    var s' := Spawn(s, w, x, b, phase);
    forall t | 0 <= t < |s'.tasks| ensures CoveredAt(s', t) {
      if t < |s.tasks| {
        assert CoveredAt(s, t);
      }
    }
  }

  lemma AbortKeepsCover(s: State, w: nat, b: Addr)
    requires Tables(s) && Covered(s) && WorkerEnabled(s, w, AbortOne(b))
    ensures Covered(AbortStep(s, w, b))
  {
    var s' := AbortStep(s, w, b);
    assert TableShape(s.tasks, w, s.workers[w]);
    forall t | 0 <= t < |s'.tasks| ensures CoveredAt(s', t) {
      assert CoveredAt(s, t);
    }
  }

  lemma InsertCover(s: State, w: nat)
    requires Tables(s) && Covered(s) && WorkerEnabled(s, w, Insert)
    ensures Covered(WorkerStep(s, w, Insert)) <==> !Clobbers(s, ByWorker(w, Insert))
  {
    var v := s.workers[w];
    var s' := WorkerStep(s, w, Insert);
    assert TableShape(s.tasks, w, v);
    if Clobbers(s, ByWorker(w, Insert)) {
      var t := v.table[v.phase.addr];
      assert EntryShape(s.tasks, w, v.phase.addr, t);
      assert !CoveredAt(s', t);
    } else {
      forall t | 0 <= t < |s'.tasks| ensures CoveredAt(s', t) {
        assert CoveredAt(s, t);
      }
    }
  }

  /** Changing only its phase, a worker keeps its own tasks covered. */
  lemma OwnPhaseCover(s: State, w: nat, e: WorkerAction)
    requires Shape(s) && Covered(s) && WorkerEnabled(s, w, e)
    requires !e.Insert? && !e.AbortOne? && !(e.Peek? && e.tls.Some?) && !(e.Take? && e.peer.Some? && s.transport.Udp?)
    ensures Covered(WorkerStep(s, w, e))
  {
    var s' := WorkerStep(s, w, e);
    assert s'.tasks == s.tasks;
    assert forall i :: 0 <= i < |s.workers| && i != w ==> s'.workers[i] == s.workers[i];
    forall t | 0 <= t < |s'.tasks| ensures CoveredAt(s', t) {
      assert CoveredAt(s, t);
      assert TaskShape(s.workers, s.tasks[t]);
    }
  }

  lemma WorkerCover(s: State, w: nat, e: WorkerAction)
    requires Shape(s) && Tables(s) && Covered(s) && WorkerEnabled(s, w, e)
    ensures Covered(WorkerStep(s, w, e)) <==> !Clobbers(s, ByWorker(w, e))
  {
    match e {
      case Insert => InsertCover(s, w);
      case AbortOne(b) => AbortKeepsCover(s, w, b);
      case Take(peer) =>
        var s1 := s.(queue := s.queue[1..], taken := s.taken + [s.queue[0]]);
        forall t | 0 <= t < |s1.tasks| ensures CoveredAt(s1, t) {
          assert CoveredAt(s, t);
        }
        if peer.Some? && s.transport.Udp? {
          SpawnKeepsCover(s1, w, s.queue[0], peer.value, Serving);
        } else {
          OwnPhaseCover(s, w, e);
        }
      case Peek(tls) =>
        if tls.Some? {
          SpawnKeepsCover(s, w, s.workers[w].phase.held, s.workers[w].phase.addr, if tls.value then Handshake else Serving);
        } else {
          OwnPhaseCover(s, w, e);
        }
      case _ => OwnPhaseCover(s, w, e);
    }
  }

  lemma RemoveCover(s: State, t: nat)
    requires Tables(s) && Covered(s) && TaskEnabled(s, t, Remove)
    ensures Covered(TaskStep(s, t, Remove)) <==> !Clobbers(s, ByTask(t, Remove))
  {
    var c := s.tasks[t];
    var v := s.workers[c.worker];
    var s' := TaskStep(s, t, Remove);
    assert TableShape(s.tasks, c.worker, v);
    if Clobbers(s, ByTask(t, Remove)) {
      var k := v.table[c.addr];
      assert EntryShape(s.tasks, c.worker, c.addr, k);
      assert !CoveredAt(s', k);
    } else {
      forall i | 0 <= i < |s'.tasks| ensures CoveredAt(s', i) {
        assert CoveredAt(s, i);
        assert AbortShape(s.workers, s.tasks[i]);
      }
    }
  }

  lemma TaskCover(s: State, t: nat, k: TaskAction)
    requires Tables(s) && Covered(s) && TaskEnabled(s, t, k)
    ensures Covered(TaskStep(s, t, k)) <==> !Clobbers(s, ByTask(t, k))
  {
    if k.Remove? {
      RemoveCover(s, t);
    } else {
      var s' := TaskStep(s, t, k);
      forall i | 0 <= i < |s'.tasks| ensures CoveredAt(s', i) {
        assert CoveredAt(s, i);
      }
    }
  }

  lemma OwnerKeepsCover(s: State, o: OwnerAction)
    requires Covered(s) && OwnerEnabled(s, o)
    ensures Covered(OwnerStep(s, o))
  {
    forall t | 0 <= t < |s.tasks| ensures CoveredAt(OwnerStep(s, o), t) {
      assert CoveredAt(s, t);
    }
  }

  /** Exactly the clobbering actions lose a live task's handle. */
  lemma CoverageExact(s: State, a: Action)
    requires Shape(s) && Tables(s) && Covered(s) && Enabled(s, a)
    ensures Covered(Apply(s, a)) <==> !Clobbers(s, a)
  {
    match a {
      case ByOwner(o) => hide Covered, Shape, Tables, OwnerStep; OwnerKeepsCover(s, o);
      case ByDispatcher(d) => hide Covered, Shape, Tables, DispatcherStep; DispatcherKeepsCover(s, d);
      case ByWorker(w, e) => hide Covered, Shape, Tables, WorkerStep, Clobbers; WorkerCover(s, w, e);
      case ByTask(t, k) => hide Covered, Shape, Tables, TaskStep, Clobbers; TaskCover(s, t, k);
    }
  }

  // ---------- Runs that do not reuse an address too early ----------

  ghost predicate Busy(s: State, w: nat, b: Addr) {
    exists t :: 0 <= t < |s.tasks| && s.tasks[t].worker == w && s.tasks[t].addr == b && !s.tasks[t].phase.Done?
  }

  /** An address given to a new task while an earlier one on it has yet to end, removal included. */
  ghost predicate Reuses(s: State, a: Action) {
    a.ByWorker? && a.w < |s.workers|
    && ((a.e.Take? && a.e.peer.Some? && s.transport.Udp? && Busy(s, a.w, a.e.peer.value))
        || (a.e.Peek? && a.e.tls.Some? && s.workers[a.w].phase.Peeking? && Busy(s, a.w, s.workers[a.w].phase.addr)))
  }

  predicate Apart(earlier: Task, later: Task) {
    earlier.worker == later.worker && earlier.addr == later.addr ==> earlier.phase.Done?
  }

  /** Of two tasks of one worker on one address, the earlier has ended. */
  predicate Separate(s: State) {
    forall i, j :: 0 <= i < j < |s.tasks| ==> Apart(s.tasks[i], s.tasks[j])
  }

  /** A task keeps its worker and address, and what ended stays ended. */
  predicate Older(s: State, s': State) {
    && |s.tasks| <= |s'.tasks| <= |s.tasks| + 1
    && (forall t :: 0 <= t < |s.tasks| ==>
         && s'.tasks[t].worker == s.tasks[t].worker && s'.tasks[t].addr == s.tasks[t].addr
         && (s.tasks[t].phase.Done? ==> s'.tasks[t].phase.Done?))
  }

  lemma WorkerHistory(s: State, w: nat, e: WorkerAction)
    requires WorkerEnabled(s, w, e)
    ensures var s' := WorkerStep(s, w, e);
            && Older(s, s')
            && (|s.tasks| < |s'.tasks| && Busy(s, s'.tasks[|s.tasks|].worker, s'.tasks[|s.tasks|].addr)
                ==> Reuses(s, ByWorker(w, e)))
  {
    hide Busy;
  }

  lemma TaskStepHistory(s: State, t: nat, k: TaskAction)
    requires TaskEnabled(s, t, k)
    ensures Older(s, TaskStep(s, t, k)) && |TaskStep(s, t, k).tasks| == |s.tasks|
  {}

  lemma DispatcherHistory(s: State, d: DispatcherAction)
    requires DispatcherEnabled(s, d)
    ensures DispatcherStep(s, d).tasks == s.tasks
  {}

  /** A new task uses an address that is free unless the action reuses one. */
  lemma TaskHistory(s: State, a: Action)
    requires Enabled(s, a)
    ensures var s' := Apply(s, a);
            && Older(s, s')
            && (|s.tasks| < |s'.tasks| && Busy(s, s'.tasks[|s.tasks|].worker, s'.tasks[|s.tasks|].addr) ==> Reuses(s, a))
  {
    hide Busy, Reuses, DispatcherStep, WorkerStep, TaskStep;
    match a {
      case ByOwner(_) =>
      case ByDispatcher(d) => DispatcherHistory(s, d);
      case ByWorker(w, e) => WorkerHistory(s, w, e);
      case ByTask(t, k) => TaskStepHistory(s, t, k);
    }
  }

  lemma SeparateStep(s: State, a: Action)
    requires Separate(s) && Enabled(s, a) && !Reuses(s, a)
    ensures Separate(Apply(s, a))
  {
    var s' := Apply(s, a);
    TaskHistory(s, a);
    forall i, j | 0 <= i < j < |s'.tasks| ensures Apart(s'.tasks[i], s'.tasks[j]) {
      if j < |s.tasks| {
        assert Apart(s.tasks[i], s.tasks[j]);
      } else {
        hide Apply;
        assert Busy(s, s'.tasks[j].worker, s'.tasks[j].addr) ==> Reuses(s, a);
      }
    }
  }

  lemma SeparateNeverClobbers(s: State, a: Action)
    requires Tables(s) && Separate(s) && Enabled(s, a)
    ensures !Clobbers(s, a)
  {
    match a {
      case ByWorker(w, Insert) =>
        var v := s.workers[w];
        assert TableShape(s.tasks, w, v);
        if v.phase.addr in v.table {
          assert EntryShape(s.tasks, w, v.phase.addr, v.table[v.phase.addr]);
          assert Apart(s.tasks[v.table[v.phase.addr]], s.tasks[v.phase.task]);
        }
      case ByTask(t, Remove) =>
        var c := s.tasks[t];
        var v := s.workers[c.worker];
        assert TableShape(s.tasks, c.worker, v);
        if c.addr in v.table && v.table[c.addr] != t {
          var k := v.table[c.addr];
          assert EntryShape(s.tasks, c.worker, c.addr, k);
          assert if k < t then Apart(s.tasks[k], c) else Apart(c, s.tasks[k]);
        }
      case _ =>
    }
  }

  /** No action of the run reuses an address too early. */
  ghost predicate Fresh(s: State, acts: seq<Action>)
    requires Valid(s, acts)
    decreases |acts|
  {
    acts == [] || (!Reuses(s, acts[0]) && Fresh(Apply(s, acts[0]), acts[1..]))
  }

  ghost predicate TableInv(s: State) {
    Shape(s) && Tables(s) && Covered(s) && Separate(s)
  }

  lemma TableInvStep(s: State, a: Action)
    requires TableInv(s) && Enabled(s, a) && !Reuses(s, a)
    ensures TableInv(Apply(s, a))
  {
    hide Shape, Tables, Covered, Separate, Enabled, Apply, Clobbers, Reuses;
    KeepsShape(s, a);
    KeepsTables(s, a);
    SeparateNeverClobbers(s, a);
    CoverageExact(s, a);
    SeparateStep(s, a);
  }

  lemma {:induction false} RunKeepsTableInv(s: State, acts: seq<Action>)
    requires TableInv(s) && Valid(s, acts) && Fresh(s, acts)
    ensures TableInv(Run(s, acts))
    decreases |acts|
  {
    hide TableInv, Enabled, Apply, Reuses;
    if acts != [] {
      TableInvStep(s, acts[0]);
      RunKeepsTableInv(Apply(s, acts[0]), acts[1..]);
    }
  }

  /**
   In every state reached without reusing an address too early, each live connection task has its
   handle in the table while its worker is inside the loop and not between spawn and insert; and
   once `stop` has gone through its loop, each live task of the worker has been aborted.
   */
  lemma StopFindsEveryLiveTask(transport: Transport, workersCfg: nat, capacity: nat, acts: seq<Action>, t: nat)
    requires Valid(Init(transport, workersCfg, capacity), acts)
    requires Fresh(Init(transport, workersCfg, capacity), acts)
    requires t < |Run(Init(transport, workersCfg, capacity), acts).tasks|
    requires Run(Init(transport, workersCfg, capacity), acts).tasks[t].Live()
    ensures var s := Run(Init(transport, workersCfg, capacity), acts);
            var c := s.tasks[t];
            && c.worker < |s.workers|
            && var v := s.workers[c.worker];
               && (v.phase.Receiving? || v.phase.Peeking? ==> InTable(v, c, t))
               && (v.phase.Inserting? && v.phase.task != t ==> InTable(v, c, t))
               && (v.phase == Finished(ByStop) ==> TaskEnabled(s, t, Abort))
  {
    var i := Init(transport, workersCfg, capacity);
    InitShape(transport, workersCfg, capacity);
    assert TableInv(i);
    RunKeepsTableInv(i, acts);
    assert CoveredAt(Run(i, acts), t);
  }

  predicate EndedOrLeft(ws: seq<Worker>, c: Task) {
    c.phase.Done?
    || (c.phase.Handshake? && c.worker < |ws| && ws[c.worker].phase.Finished? && !ws[c.worker].phase.how.ByStop?)
  }

  /**
   Once the end has been asked for, or the dispatcher has left its loop, a run that reuses no address
   too early can be continued by the listener itself until it is at rest, and then every task of a worker that was stopped has
   ended. What may be left is a handshake of a worker that ended otherwise.
   */
  lemma StopEndsEveryTask(transport: Transport, workersCfg: nat, capacity: nat, acts: seq<Action>)
    requires Valid(Init(transport, workersCfg, capacity), acts)
    requires Fresh(Init(transport, workersCfg, capacity), acts)
    requires Ending(Run(Init(transport, workersCfg, capacity), acts))
    ensures var s := Run(Init(transport, workersCfg, capacity), acts);
            || (exists a :: Own(a) && Enabled(s, a))
            || (AtRest(s) && forall t :: 0 <= t < |s.tasks| ==> EndedOrLeft(s.workers, s.tasks[t]))
  {
    var i := Init(transport, workersCfg, capacity);
    InitShape(transport, workersCfg, capacity);
    RunKeepsShape(i, acts);
    var s := Run(i, acts);
    EveryScheduleEnds(s, []);
    hide Run, Shape, Valid, Fresh, Own, Enabled;
    if AtRest(s) {
      forall t | 0 <= t < |s.tasks| ensures EndedOrLeft(s.workers, s.tasks[t]) {
        if s.tasks[t].Live() {
          StopFindsEveryLiveTask(transport, workersCfg, capacity, acts, t);
        }
      }
    }
  }

  // ---------- The exact condition, over runs ----------

  ghost predicate AlwaysCovered(s: State, acts: seq<Action>)
    requires Valid(s, acts)
    decreases |acts|
  {
    Covered(s) && (acts == [] || AlwaysCovered(Apply(s, acts[0]), acts[1..]))
  }

  predicate NeverClobbers(s: State, acts: seq<Action>)
    requires Valid(s, acts)
    decreases |acts|
  {
    acts == [] || (!Clobbers(s, acts[0]) && NeverClobbers(Apply(s, acts[0]), acts[1..]))
  }

  lemma {:induction false} CoveredAlong(s: State, acts: seq<Action>)
    requires Shape(s) && Tables(s) && Covered(s) && Valid(s, acts)
    ensures AlwaysCovered(s, acts) <==> NeverClobbers(s, acts)
    decreases |acts|
  {
    hide Shape, Tables, Covered, Enabled, Apply, Clobbers;
    if acts != [] {
      var s' := Apply(s, acts[0]);
      KeepsShape(s, acts[0]);
      KeepsTables(s, acts[0]);
      CoverageExact(s, acts[0]);
      if Covered(s') {
        CoveredAlong(s', acts[1..]);
      }
    }
  }

  /** Every live task can be found by `stop` throughout a run if and only if no action of it clobbers. */
  lemma CoverageOverRuns(transport: Transport, workersCfg: nat, capacity: nat, acts: seq<Action>)
    requires Valid(Init(transport, workersCfg, capacity), acts)
    ensures AlwaysCovered(Init(transport, workersCfg, capacity), acts)
       <==> NeverClobbers(Init(transport, workersCfg, capacity), acts)
  {
    InitShape(transport, workersCfg, capacity);
    CoveredAlong(Init(transport, workersCfg, capacity), acts);
  }
}
