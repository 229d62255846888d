/**
 How long a listener can run, and where it can come to rest. One potential bounds every run by
 the number of arrivals; what a state at rest looks like is proved separately, so that shutdown
 is shown to complete.
 */
module LifecycleProgress {
  import opened Prelude
  import opened Lifecycle
  import opened LifecycleShape
  import opened LifecycleSafety
  import opened LifecycleOrder

  // ---------- The potential ----------

  function OwnerWork(o: Owner): nat {
    match o
    case Up => 2
    case Stopping => 1
    case Stopped => 0
    case Dropped => 0
  }

  function DispatcherWork(d: DispatcherPhase, workersCfg: nat): nat {
    match d
    case Unstarted => 4 + 4 * workersCfg
    case Accepting => 3
    case Logging => 4
    case Greeting(_) => 12
    case Sending(_) => 11
    case Draining => 2
    case Unwinding(_) => 1
    case Joining => 1
    case Ended(_) => 0
  }

  function WorkerWork(v: Worker): nat {
    match v.phase
    case NotPolled => 4
    case Receiving => 3 + |v.table|
    case Peeking(_, _) => 9 + |v.table|
    case Inserting(_, _) => 5 + |v.table|
    case Aborting(todo) => 2 + |todo|
    case Finished(_) => if v.joined then 0 else 1
  }

  function TaskWork(c: Task): nat {
    match c.phase
    case Handshake => 3
    case Serving => 2
    case Served => 1
    case Done(_) => 0
  }

  function WorkersWork(ws: seq<Worker>): nat {
    if ws == [] then 0 else WorkerWork(ws[0]) + WorkersWork(ws[1..])
  }

  function TasksWork(ts: seq<Task>): nat {
    if ts == [] then 0 else TaskWork(ts[0]) + TasksWork(ts[1..])
  }

  /** An upper bound on the actions left if nothing more arrives. */
  function Work(s: State): nat {
    OwnerWork(s.owner) + DispatcherWork(s.disp, s.workersCfg) + 7 * |s.queue| + WorkersWork(s.workers) + TasksWork(s.tasks)
  }

  /** What `accept` returns is the only thing that adds work. */
  predicate Arrival(a: Action) {
    a.ByDispatcher? && (a.d.Accept? || a.d.AcceptFail?)
  }

  function Arrivals(acts: seq<Action>): nat {
    if acts == [] then 0 else Bit(Arrival(acts[0])) + Arrivals(acts[1..])
  }

  lemma {:induction false} WorkersUpdate(ws: seq<Worker>, i: nat, v: Worker)
    requires i < |ws|
    ensures WorkersWork(ws[i := v]) + WorkerWork(ws[i]) == WorkersWork(ws) + WorkerWork(v)
  {
    if i == 0 {
      assert ws[i := v][1..] == ws[1..];
    } else {
      WorkersUpdate(ws[1..], i - 1, v);
      assert ws[i := v][1..] == ws[1..][i - 1 := v];
    }
  }

  lemma {:induction false} TasksUpdate(ts: seq<Task>, i: nat, c: Task)
    requires i < |ts|
    ensures TasksWork(ts[i := c]) + TaskWork(ts[i]) == TasksWork(ts) + TaskWork(c)
  {
    if i == 0 {
      assert ts[i := c][1..] == ts[1..];
    } else {
      TasksUpdate(ts[1..], i - 1, c);
      assert ts[i := c][1..] == ts[1..][i - 1 := c];
    }
  }

  lemma {:induction false} TasksAppend(ts: seq<Task>, c: Task)
    ensures TasksWork(ts + [c]) == TasksWork(ts) + TaskWork(c)
  {
    if ts == [] {
      assert ts + [c] == [c];
    } else {
      TasksAppend(ts[1..], c);
      assert (ts + [c])[1..] == ts[1..] + [c];
    }
  }

  lemma {:induction false} FreshWorkersWork(n: nat)
    ensures WorkersWork(seq(n, _ => NewWorker())) == 4 * n
  {
    if n > 0 {
      FreshWorkersWork(n - 1);
      assert seq(n, _ => NewWorker())[1..] == seq(n - 1, _ => NewWorker());
    }
  }

  lemma {:induction false} CancelAllWork(ws: seq<Worker>)
    ensures WorkersWork(CancelAll(ws)) == WorkersWork(ws)
  {
    if ws != [] {
      CancelAllWork(ws[1..]);
      assert CancelAll(ws)[1..] == CancelAll(ws[1..]);
    }
  }

  lemma DispatcherSpends(s: State, d: DispatcherAction)
    requires DispatcherEnabled(s, d) && (d.Start? ==> s.workers == [])
    ensures Work(DispatcherStep(s, d)) + 1 <= Work(s) + (if Arrival(ByDispatcher(d)) then 10 else 0)
  {
    var s' := DispatcherStep(s, d);
    match d {
      case Start(_) => FreshWorkersWork(s.workersCfg);
      case Unwind => CancelAllWork(s.workers);
      case Join(w) => WorkersUpdate(s.workers, w, s'.workers[w]);
      case _ =>
    }
  }

  lemma SpawnSpends(s: State, w: nat, x: Stream, b: Addr, phase: TaskPhase)
    requires w < |s.workers|
    ensures var s' := Spawn(s, w, x, b, phase);
            Work(s') + WorkerWork(s.workers[w])
            == Work(s) + 5 + |s.workers[w].table| + TaskWork(Task(w, x, b, phase, 0, false))
  {
    var s' := Spawn(s, w, x, b, phase);
    WorkersUpdate(s.workers, w, s'.workers[w]);
    TasksAppend(s.tasks, s'.tasks[|s.tasks|]);
  }

  lemma TakeSpends(s: State, w: nat, peer: Option<Addr>)
    requires WorkerEnabled(s, w, Take(peer))
    ensures Work(TakeStep(s, w, peer)) + 1 <= Work(s)
  {
    var s' := TakeStep(s, w, peer);
    if peer.Some? && s.transport.Udp? {
      SpawnSpends(s.(queue := s.queue[1..], taken := s.taken + [s.queue[0]]), w, s.queue[0], peer.value, Serving);
    } else {
      WorkersUpdate(s.workers, w, s'.workers[w]);
    }
  }

  lemma PeekSpends(s: State, w: nat, tls: Option<bool>)
    requires WorkerEnabled(s, w, Peek(tls))
    ensures Work(PeekStep(s, w, tls)) + 1 <= Work(s)
  {
    var p := s.workers[w].phase;
    if tls.Some? {
      SpawnSpends(s, w, p.held, p.addr, if tls.value then Handshake else Serving);
    } else {
      WorkersUpdate(s.workers, w, s.workers[w].End(ByError));
    }
  }

  lemma AbortSpends(s: State, w: nat, b: Addr)
    requires WorkerEnabled(s, w, AbortOne(b))
    ensures Work(AbortStep(s, w, b)) + 1 <= Work(s)
  {
    var s' := AbortStep(s, w, b);
    var v := s.workers[w];
    WorkersUpdate(s.workers, w, s'.workers[w]);
    if b in v.table && v.table[b] < |s.tasks| {
      TasksUpdate(s.tasks, v.table[b], s'.tasks[v.table[b]]);
    }
  }

  lemma WorkerSpends(s: State, w: nat, e: WorkerAction)
    requires WorkerEnabled(s, w, e)
    requires s.workers[w].phase.NotPolled? ==> s.workers[w].table == map[]
    ensures Work(WorkerStep(s, w, e)) + 1 <= Work(s)
  {
    match e {
      case Take(peer) => TakeSpends(s, w, peer);
      case Peek(tls) => PeekSpends(s, w, tls);
      case AbortOne(b) => AbortSpends(s, w, b);
      case Insert =>
        var v := s.workers[w];
        assert |v.table[v.phase.addr := v.phase.task]| <= |v.table| + 1;
        WorkersUpdate(s.workers, w, v.Record());
      case StopWorker => WorkersUpdate(s.workers, w, s.workers[w].BeginStop());
      case _ => WorkersUpdate(s.workers, w, WorkerStep(s, w, e).workers[w]);
    }
  }

  lemma Smaller(a: set<Addr>, b: set<Addr>)
    requires a <= b
    ensures |a| <= |b|
  {
    assert b == a + (b - a);
  }

  lemma TableShrinks(table: map<Addr, nat>, b: Addr)
    ensures |table - {b}| <= |table|
  {
    assert (table - {b}).Keys <= table.Keys;
    Smaller((table - {b}).Keys, table.Keys);
  }

  /** A task action brings its task nearer to its end and adds nothing to its worker's table. */
  lemma TaskStepWork(s: State, t: nat, k: TaskAction)
    requires TaskEnabled(s, t, k)
    ensures var s' := TaskStep(s, t, k);
            var c := s.tasks[t];
            && s' == s.(tasks := s.tasks[t := s'.tasks[t]], workers := s.workers[c.worker := s'.workers[c.worker]])
            && TaskWork(s'.tasks[t]) < TaskWork(c)
            && WorkerWork(s'.workers[c.worker]) <= WorkerWork(s.workers[c.worker])
  {
    var c := s.tasks[t];
    var v := s.workers[c.worker];
    TableShrinks(v.table, c.addr);
    assert s.workers[c.worker := v] == s.workers;
  }

  lemma TaskSpends(s: State, t: nat, k: TaskAction)
    requires TaskEnabled(s, t, k)
    ensures Work(TaskStep(s, t, k)) + 1 <= Work(s)
  {
    var s' := TaskStep(s, t, k);
    var w := s.tasks[t].worker;
    TaskStepWork(s, t, k);
    TasksUpdate(s.tasks, t, s'.tasks[t]);
    WorkersUpdate(s.workers, w, s'.workers[w]);
    hide TaskStep, TaskEnabled, TaskWork, WorkerWork, TasksWork, WorkersWork;
  }

  lemma Spends(s: State, a: Action)
    requires Shape(s) && Enabled(s, a)
    ensures Work(Apply(s, a)) + 1 <= Work(s) + (if Arrival(a) then 10 else 0)
  {
    match a {
      case ByOwner(_) => hide DispatcherStep, WorkerStep, TaskStep;
      case ByDispatcher(d) => hide Work, DispatcherStep, WorkerStep, TaskStep; DispatcherSpends(s, d);
      case ByWorker(w, e) =>
        hide Work, DispatcherStep, WorkerStep, TaskStep;
        assert WorkerShape(s.disp, s.workers[w]);
        WorkerSpends(s, w, e);
      case ByTask(t, k) => hide Work, DispatcherStep, WorkerStep, TaskStep; TaskSpends(s, t, k);
    }
  }

  /** Whatever is scheduled, a run is at most as long as the initial work plus ten actions per arrival. */
  lemma {:induction false} RunLength(s: State, acts: seq<Action>)
    requires Shape(s) && Valid(s, acts)
    ensures |acts| + Work(Run(s, acts)) <= Work(s) + 10 * Arrivals(acts)
    decreases |acts|
  {
    hide Shape, Work, Enabled, Apply, Arrival;
    if acts != [] {
      Spends(s, acts[0]);
      KeepsShape(s, acts[0]);
      RunLength(Apply(s, acts[0]), acts[1..]);
    }
  }

  // ---------- Shutdown ----------

  /** Actions that wait for nobody: no peer, no handshake, no socket and no decision of the owner. */
  predicate Own(a: Action) {
    match a
    case ByOwner(o) => o.OwnerJoin?
    case ByDispatcher(d) => d.Send? || d.Unwind? || d.Halt? || d.Join? || d.JoinDone?
    case ByWorker(_, e) => !e.Peek? && !e.Take?
    case ByTask(_, k) => k.Remove? || k.Close? || k.Abort?
  }

  predicate AllFinished(ws: seq<Worker>) {
    forall w :: 0 <= w < |ws| ==> ws[w].phase.Finished?
  }

  /** The owner has its answer, no worker is left, and of the tasks only handshakes nobody aborted. */
  predicate AtRest(s: State) {
    && !s.owner.Stopping? && s.disp.Ended? && AllFinished(s.workers)
    && (forall t :: 0 <= t < |s.tasks| ==> s.tasks[t].phase.Done? || (s.tasks[t].phase.Handshake? && !s.tasks[t].aborted))
  }

  /** Shutdown has been asked for, or the dispatcher has left its loop by itself. */
  predicate Ending(s: State) {
    !s.owner.Up? || Leaving(s.disp)
  }

  /** A worker that has not finished can act by itself once the dispatcher has left its loop. */
  lemma WorkerCanMove(s: State, w: nat) returns (a: Action)
    requires Shape(s) && (s.disp.Joining? || s.disp.Ended?)
    requires w < |s.workers| && !s.workers[w].phase.Finished?
    ensures Own(a) && Enabled(s, a)
  {
    var v := s.workers[w];
    assert WorkerShape(s.disp, v);
    if v.phase.Inserting? {
      a := ByWorker(w, Insert);
    } else if v.phase.Aborting? {
      if v.phase.todo == {} {
        a := ByWorker(w, StopDone);
      } else {
        var b :| b in v.phase.todo;
        a := ByWorker(w, AbortOne(b));
      }
    } else if v.cancelled {
      a := ByWorker(w, Cancel);
    } else {
      a := ByWorker(w, StopWorker);
    }
  }

  /** A listener that is ending has some own action enabled until it is at rest. */
  lemma ShutdownCanMove(s: State) returns (a: Action)
    requires Shape(s) && Ending(s) && !AtRest(s)
    ensures Own(a) && Enabled(s, a)
  {
    if s.disp.AtAwait() {
      a := ByDispatcher(Halt);
    } else if s.disp.Unwinding? {
      a := ByDispatcher(Unwind);
    } else if !AllFinished(s.workers) {
      var w :| 0 <= w < |s.workers| && !s.workers[w].phase.Finished?;
      a := WorkerCanMove(s, w);
    } else if s.disp.Joining? {
      if w :| 0 <= w < |s.workers| && !s.workers[w].joined {
        a := ByDispatcher(Join(w));
      } else {
        a := ByDispatcher(JoinDone);
      }
    } else if s.owner.Stopping? {
      a := ByOwner(OwnerJoin);
    } else {
      var t :| 0 <= t < |s.tasks| && !(s.tasks[t].phase.Done? || (s.tasks[t].phase.Handshake? && !s.tasks[t].aborted));
      assert TaskShape(s.workers, s.tasks[t]);
      assert WorkerShape(s.disp, s.workers[s.tasks[t].worker]);
      a := ByTask(t, if s.tasks[t].phase.Served? then Remove else if s.tasks[t].phase.Serving? then Close else Abort);
    }
  }

  predicate AllOwn(acts: seq<Action>) {
    forall i :: 0 <= i < |acts| ==> Own(acts[i])
  }

  /** A TCP dispatcher ends only by joining every worker, and then reports success. */
  predicate EndsJoined(s: State) {
    s.transport.Tcp? && s.disp.Ended? ==> AllJoined(s.workers) && s.disp.ok
  }

  lemma WorkerKeepsDispatcher(s: State, w: nat, e: WorkerAction)
    requires WorkerEnabled(s, w, e)
    ensures WorkerStep(s, w, e).disp == s.disp && WorkerStep(s, w, e).transport == s.transport
  {}

  lemma DispatcherKeepsEndsJoined(s: State, d: DispatcherAction)
    requires DispatcherShape(s) && EndsJoined(s) && DispatcherEnabled(s, d)
    ensures EndsJoined(DispatcherStep(s, d))
  {}

  lemma KeepsEndsJoined(s: State, a: Action)
    requires Shape(s) && EndsJoined(s) && Enabled(s, a)
    ensures EndsJoined(Apply(s, a))
  {
    match a {
      case ByOwner(_) => hide Shape, DispatcherStep, WorkerStep, TaskStep;
      case ByDispatcher(d) => hide EndsJoined, DispatcherStep, WorkerStep, TaskStep; DispatcherKeepsEndsJoined(s, d);
      case ByWorker(w, e) =>
        hide DispatcherStep, WorkerStep, TaskStep;
        assert WorkerShape(s.disp, s.workers[w]);
        WorkerKeepsDispatcher(s, w, e);
      case ByTask(t, _) => hide Shape, DispatcherStep, WorkerStep;
    }
  }

  lemma {:induction false} RunKeepsEndsJoined(s: State, acts: seq<Action>)
    requires Shape(s) && EndsJoined(s) && Valid(s, acts)
    ensures EndsJoined(Run(s, acts))
    decreases |acts|
  {
    hide Shape, EndsJoined, Enabled, Apply;
    if acts != [] {
      KeepsEndsJoined(s, acts[0]);
      KeepsShape(s, acts[0]);
      RunKeepsEndsJoined(Apply(s, acts[0]), acts[1..]);
    }
  }

  lemma OwnKeepsEnding(s: State, a: Action)
    requires Enabled(s, a) && Own(a) && Ending(s)
    ensures Ending(Apply(s, a)) && !Arrival(a)
    ensures Apply(s, a).owner == s.owner || (s.owner.Stopping? && Apply(s, a).owner.Stopped?)
  {
    match a {
      case ByOwner(_) => hide DispatcherStep, WorkerStep, TaskStep;
      case ByDispatcher(_) => hide WorkerStep, TaskStep;
      case ByWorker(_, _) => hide DispatcherStep, TaskStep;
      case ByTask(_, _) => hide DispatcherStep, WorkerStep;
    }
  }

  /** `acts` are own actions, within the work of `s`, that lead from it to rest and a `stop` to its return. */
  predicate Rests(s: State, acts: seq<Action>) {
    && Valid(s, acts) && AllOwn(acts) && |acts| <= Work(s)
    && AtRest(Run(s, acts))
    && Run(s, acts).owner == if s.owner.Stopping? then Stopped else s.owner
  }

  /** From every state in which the listener is ending, its own actions alone bring it to rest. */
  lemma {:induction false} ShutdownCompletes(s: State)
    requires Shape(s) && Ending(s)
    ensures exists acts :: Rests(s, acts)
    decreases Work(s)
  {
    if AtRest(s) {
      assert Rests(s, []);
    } else {
      var a := ShutdownCanMove(s);
      OwnKeepsEnding(s, a);
      Spends(s, a);
      KeepsShape(s, a);
      hide Shape, Work, AtRest, Own, Ending, Enabled, Apply, Arrival;
      ShutdownCompletes(Apply(s, a));
      var rest :| Rests(Apply(s, a), rest);
      var acts := [a] + rest;
      assert acts[1..] == rest;
      assert Rests(s, acts);
    }
  }

  lemma LeavingStep(s: State, a: Action)
    requires Leaving(s.disp) && Enabled(s, a)
    ensures Leaving(Apply(s, a).disp) && !Arrival(a) && Apply(s, a).accepted == s.accepted
  {
    match a {
      case ByOwner(_) => hide DispatcherStep, WorkerStep, TaskStep;
      case ByDispatcher(_) => hide WorkerStep, TaskStep;
      case ByWorker(_, _) => hide DispatcherStep, TaskStep;
      case ByTask(_, _) => hide DispatcherStep, WorkerStep;
    }
  }

  /** Neither the owner's decision nor the dispatcher's exit is ever taken back. */
  lemma EndingStep(s: State, a: Action)
    requires Ending(s) && Enabled(s, a)
    ensures Ending(Apply(s, a))
  {
    if Leaving(s.disp) {
      LeavingStep(s, a);
    }
    match a {
      case ByOwner(_) => hide DispatcherStep, WorkerStep, TaskStep;
      case ByDispatcher(_) => hide WorkerStep, TaskStep;
      case ByWorker(w, e) => hide DispatcherStep, TaskStep;
      case ByTask(_, _) => hide DispatcherStep, WorkerStep;
    }
  }

  /**
   Once the end has been asked for, or the dispatcher has left its loop, every schedule is at most as
   long as the work at that point plus ten actions per further answer of `accept`, and one that no own
   action can extend has come to rest. Out of its loop the dispatcher accepts nothing more.
   */
  lemma {:induction false} EveryScheduleEnds(s: State, acts: seq<Action>)
    requires Shape(s) && Ending(s) && Valid(s, acts)
    ensures |acts| + Work(Run(s, acts)) <= Work(s) + 10 * Arrivals(acts)
    ensures Leaving(s.disp) ==> Arrivals(acts) == 0 && Run(s, acts).accepted == s.accepted
    ensures AtRest(Run(s, acts)) || exists a :: Own(a) && Enabled(Run(s, acts), a)
    decreases |acts|
  {
    if acts == [] {
      if !AtRest(s) {
        var a := ShutdownCanMove(s);
      }
    } else {
      if Leaving(s.disp) {
        LeavingStep(s, acts[0]);
      }
      EndingStep(s, acts[0]);
      Spends(s, acts[0]);
      KeepsShape(s, acts[0]);
      hide Shape, Work, AtRest, Own, Ending, Leaving, Enabled, Apply, Arrival;
      EveryScheduleEnds(Apply(s, acts[0]), acts[1..]);
    }
  }

  /**
   A failed QUIC handshake is fatal to its listener although nobody asked it to stop: no schedule
   accepts another connection, each ends, and what cannot be continued is at rest.
   */
  lemma FailedGreetingEndsTheListener(s: State, s1: State, acts: seq<Action>)
    requires Shape(s) && DispatcherEnabled(s, Greet(false)) && s1 == DispatcherStep(s, Greet(false)) && Valid(s1, acts)
    ensures |acts| < Work(s) && Run(s1, acts).accepted == s.accepted
    ensures AtRest(Run(s1, acts)) || exists a :: Own(a) && Enabled(Run(s1, acts), a)
  {
    Spends(s, ByDispatcher(Greet(false)));
    KeepsShape(s, ByDispatcher(Greet(false)));
    EveryScheduleEnds(s1, acts);
  }

  // ---------- After the end ----------

  predicate Over(s: State) {
    s.disp.Ended? && AllFinished(s.workers)
  }

  lemma OverStep(s: State, a: Action)
    requires Over(s) && Enabled(s, a)
    ensures Over(Apply(s, a))
    ensures Apply(s, a).taken == s.taken && Apply(s, a).queue == s.queue && |Apply(s, a).tasks| == |s.tasks|
  {
    match a {
      case ByOwner(_) => hide DispatcherStep, WorkerStep, TaskStep;
      case ByDispatcher(_) => hide WorkerStep, TaskStep;
      case ByWorker(_, _) => hide DispatcherStep, TaskStep, WorkerStep;
      case ByTask(_, _) => hide DispatcherStep, WorkerStep;
    }
  }

  /** With the dispatcher ended and no worker left, no continuation takes a stream or starts a task. */
  lemma {:induction false} NothingTakenAfterTheEnd(s: State, acts: seq<Action>)
    requires Over(s) && Valid(s, acts)
    ensures Run(s, acts).taken == s.taken && Run(s, acts).queue == s.queue && |Run(s, acts).tasks| == |s.tasks|
    decreases |acts|
  {
    hide Over, Enabled, Apply;
    if acts != [] {
      OverStep(s, acts[0]);
      NothingTakenAfterTheEnd(Apply(s, acts[0]), acts[1..]);
    }
  }

  // ---------- The sender that keeps the queue connected ----------

  /**
   In every reachable state a worker's `recv` can report a lost sender exactly if a poll of that
   worker has outlived the cancellation left by the dispatcher's drop, and finds the queue empty.
   Only a UDP dispatcher is ever dropped before its workers; on TCP the queue never disconnects.
   */
  lemma QueueDisconnectsExactly(transport: Transport, workersCfg: nat, capacity: nat, acts: seq<Action>, w: nat)
    requires Valid(Init(transport, workersCfg, capacity), acts)
    ensures var s := Run(Init(transport, workersCfg, capacity), acts);
            && (WorkerEnabled(s, w, Disconnect)
                <==> w < |s.workers| && s.workers[w].cancelled && s.workers[w].phase.Receiving? && s.queue == [])
            && (WorkerEnabled(s, w, Disconnect) ==> transport.Udp? && s.disp.Ended?)
  {
    var i := Init(transport, workersCfg, capacity);
    InitShape(transport, workersCfg, capacity);
    RunKeepsShape(i, acts);
    RunKeepsEndsJoined(i, acts);
    RunKeepsConfig(i, acts);
    var s := Run(i, acts);
    if w < |s.workers| {
      assert WorkerShape(s.disp, s.workers[w]);
    }
  }

  /** Continuing `acts` by own actions `rest`, `stop` has returned with every worker joined and success reported. */
  predicate StopReturned(i: State, acts: seq<Action>, rest: seq<Action>)
    requires Valid(i, acts)
  {
    && Valid(i, acts + rest) && AllOwn(rest) && |rest| <= Work(Run(i, acts))
    && var s := Run(i, acts + rest);
       s.owner.Stopped? && AllJoined(s.workers) && s.disp == Ended(true)
  }

  /** From every reachable state of a TCP listener in which `stop` has been called, it can return by own actions. */
  lemma TcpStopReturns(workersCfg: nat, capacity: nat, acts: seq<Action>)
    requires Valid(Init(Tcp, workersCfg, capacity), acts)
    requires Run(Init(Tcp, workersCfg, capacity), acts).owner.Stopping?
    ensures exists rest :: StopReturned(Init(Tcp, workersCfg, capacity), acts, rest)
  {
    var i := Init(Tcp, workersCfg, capacity);
    InitShape(Tcp, workersCfg, capacity);
    RunKeepsShape(i, acts);
    ShutdownCompletes(Run(i, acts));
    var rest :| Rests(Run(i, acts), rest);
    RunConcat(i, acts, rest);
    RunKeepsEndsJoined(i, acts + rest);
    RunKeepsConfig(i, acts + rest);
    assert StopReturned(i, acts, rest);
  }
}
