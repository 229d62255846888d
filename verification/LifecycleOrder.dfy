/** Order of hand-off, its bound, and the channels that close connections, over every run. */
module LifecycleOrder {
  import opened Prelude
  import opened Lifecycle
  import opened LifecycleShape
  import opened LifecycleSafety

  // ---------- Order ----------

  /** Everything sent, then what the dispatcher is about to send. */
  function Line(s: State): seq<Stream> {
    s.sent + s.disp.Hand()
  }

  predicate Increasing(xs: seq<Stream>) {
    forall i, j :: 0 <= i < j < |xs| ==> xs[i] < xs[j]
  }

  predicate Ordered(s: State) {
    && s.sent == s.taken + s.queue
    && Increasing(Line(s))
    && (forall i :: 0 <= i < |Line(s)| ==> Line(s)[i] < s.accepted)
  }

  lemma DispatcherSendsInOrder(s: State, d: DispatcherAction)
    requires Ordered(s) && DispatcherEnabled(s, d)
    requires d.Accept? || d.Send? || d.Greet?
    ensures Ordered(DispatcherStep(s, d))
  {
    var s' := DispatcherStep(s, d);
    assert s'.sent == s'.taken + s'.queue;
    if d.Accept? {
      assert forall i :: 0 <= i < |s.sent| ==> Line(s)[i] == s.sent[i];
    } else {
      assert Line(s') <= Line(s);
    }
  }

  lemma DispatcherKeepsLine(s: State, d: DispatcherAction)
    requires DispatcherEnabled(s, d)
    requires !d.Accept? && !d.Send? && !d.Greet?
    ensures var s' := DispatcherStep(s, d);
            && s'.sent == s.sent && s'.taken == s.taken && s'.queue == s.queue && s'.accepted >= s.accepted
            && Line(s') <= Line(s)
  {
    var s' := DispatcherStep(s, d);
    assert s'.disp.Hand() == [] || s'.disp.Hand() == s.disp.Hand();
  }

  lemma DispatcherKeepsOrder(s: State, d: DispatcherAction)
    requires Ordered(s) && DispatcherEnabled(s, d)
    ensures Ordered(DispatcherStep(s, d))
  {
    if d.Accept? || d.Send? || d.Greet? {
      hide Ordered, DispatcherStep;
      DispatcherSendsInOrder(s, d);
    } else {
      hide DispatcherStep, Line;
      DispatcherKeepsLine(s, d);
      assert forall i :: 0 <= i < |Line(DispatcherStep(s, d))| ==> Line(DispatcherStep(s, d))[i] == Line(s)[i];
    }
  }

  lemma WorkerKeepsLine(s: State, w: nat, e: WorkerAction)
    requires WorkerEnabled(s, w, e)
    ensures var s' := WorkerStep(s, w, e);
            && s'.sent == s.sent && s'.taken + s'.queue == s.taken + s.queue && |s'.taken| >= |s.taken|
            && s'.disp == s.disp && s'.accepted == s.accepted
  {
    match e {
      case Take(peer) =>
        assert TakeStep(s, w, peer).taken == s.taken + [s.queue[0]] && TakeStep(s, w, peer).queue == s.queue[1..];
        assert s.taken + s.queue == (s.taken + [s.queue[0]]) + s.queue[1..];
      case _ =>
    }
  }

  lemma WorkerKeepsOrder(s: State, w: nat, e: WorkerAction)
    requires Ordered(s) && WorkerEnabled(s, w, e)
    ensures Ordered(WorkerStep(s, w, e))
  {
    WorkerKeepsLine(s, w, e);
    hide WorkerStep, WorkerEnabled;
  }

  lemma KeepsOrder(s: State, a: Action)
    requires Ordered(s) && Enabled(s, a)
    ensures Ordered(Apply(s, a))
  {
    match a {
      case ByOwner(_) => hide DispatcherStep, WorkerStep, TaskStep;
      case ByDispatcher(d) => hide Ordered, DispatcherStep, WorkerStep, TaskStep; DispatcherKeepsOrder(s, d);
      case ByWorker(w, e) => hide Ordered, DispatcherStep, WorkerStep, TaskStep; WorkerKeepsOrder(s, w, e);
      case ByTask(_, _) => hide DispatcherStep, WorkerStep;
    }
  }

  lemma {:induction false} RunKeepsOrder(s: State, acts: seq<Action>)
    requires Ordered(s) && Valid(s, acts)
    ensures Ordered(Run(s, acts))
    decreases |acts|
  {
    hide Ordered, Enabled, Apply;
    if acts != [] {
      KeepsOrder(s, acts[0]);
      RunKeepsOrder(Apply(s, acts[0]), acts[1..]);
    }
  }

  lemma OrderedTaken(s: State)
    requires Ordered(s)
    ensures s.sent == s.taken + s.queue && Increasing(s.taken)
  {
    assert forall i :: 0 <= i < |s.taken| ==> s.taken[i] == Line(s)[i];
  }

  /**
   In every reachable state the workers have together taken a prefix of what was sent, in the
   order in which it was accepted; hence no stream was ever taken twice.
   */
  lemma TakenInAcceptOrder(transport: Transport, workersCfg: nat, capacity: nat, acts: seq<Action>)
    requires Valid(Init(transport, workersCfg, capacity), acts)
    ensures var s := Run(Init(transport, workersCfg, capacity), acts);
            && s.sent == s.taken + s.queue
            && Increasing(s.taken)
            && (forall i, j :: 0 <= i < j < |s.taken| ==> s.taken[i] != s.taken[j])
  {
    hide Run, Valid;
    RunKeepsOrder(Init(transport, workersCfg, capacity), acts);
    OrderedTaken(Run(Init(transport, workersCfg, capacity), acts));
  }

  // ---------- What is settled stays settled ----------

  predicate Settled(p: Place) {
    p.Given? || p.Gone?
  }

  /** The histories only grow, and a task keeps its stream. */
  predicate Grows(s: State, s': State) {
    && |s.tasks| <= |s'.tasks| && (forall t :: 0 <= t < |s.tasks| ==> s'.tasks[t].stream == s.tasks[t].stream)
    && s.retired <= s'.retired
  }

  lemma DispatcherGrows(s: State, d: DispatcherAction)
    requires DispatcherEnabled(s, d)
    ensures Grows(s, DispatcherStep(s, d))
  {}

  lemma WorkerGrows(s: State, w: nat, e: WorkerAction)
    requires WorkerEnabled(s, w, e)
    ensures Grows(s, WorkerStep(s, w, e))
  {}

  lemma TaskGrows(s: State, t: nat, k: TaskAction)
    requires TaskEnabled(s, t, k)
    ensures Grows(s, TaskStep(s, t, k))
  {}

  lemma KeepsSettled(s: State, a: Action, x: Stream, p: Place)
    requires Enabled(s, a) && At(s, x, p) && Settled(p)
    ensures At(Apply(s, a), x, p)
  {
    hide DispatcherStep, WorkerStep, TaskStep;
    match a {
      case ByOwner(_) =>
      case ByDispatcher(d) => DispatcherGrows(s, d);
      case ByWorker(w, e) => WorkerGrows(s, w, e);
      case ByTask(t, k) => TaskGrows(s, t, k);
    }
  }

  /** A stream given to a connection task, or retired, keeps that place for the rest of the run. */
  lemma {:induction false} SettledForGood(s: State, acts: seq<Action>, x: Stream, p: Place)
    requires Valid(s, acts) && At(s, x, p) && Settled(p)
    ensures At(Run(s, acts), x, p)
    decreases |acts|
  {
    hide At, Enabled, Apply;
    if acts != [] {
      KeepsSettled(s, acts[0], x, p);
      SettledForGood(Apply(s, acts[0]), acts[1..], x, p);
    }
  }

  // ---------- The hand-off bound ----------

  function HeldTotal(ws: seq<Worker>): (n: nat)
    ensures n <= |ws|
  {
    if ws == [] then 0 else Bit(ws[0].phase.Peeking?) + HeldTotal(ws[1..])
  }

  lemma {:induction false} TotalUpdate(ws: seq<Worker>, i: nat, v: Worker)
    requires i < |ws|
    ensures HeldTotal(ws[i := v]) + Bit(ws[i].phase.Peeking?) == HeldTotal(ws) + Bit(v.phase.Peeking?)
  {
    if i == 0 {
      assert ws[i := v][1..] == ws[1..];
    } else {
      TotalUpdate(ws[1..], i - 1, v);
      assert ws[i := v][1..] == ws[1..][i - 1 := v];
    }
  }

  lemma {:induction false} TotalSame(ws: seq<Worker>, vs: seq<Worker>)
    requires |ws| == |vs| && forall w :: 0 <= w < |ws| ==> ws[w].phase == vs[w].phase
    ensures HeldTotal(ws) == HeldTotal(vs)
  {
    if ws != [] {
      TotalSame(ws[1..], vs[1..]);
    }
  }

  lemma {:induction false} TotalNone(ws: seq<Worker>)
    requires forall w :: 0 <= w < |ws| ==> ws[w].phase.NotPolled?
    ensures HeldTotal(ws) == 0
  {
    if ws != [] {
      TotalNone(ws[1..]);
    }
  }

  /** Streams accepted and neither retired nor given to a connection task. */
  function Pending(s: State): int {
    s.accepted - |s.retired| - |s.tasks|
  }

  function InTransit(s: State): nat {
    |s.disp.Hand()| + |s.queue| + HeldTotal(s.workers)
  }

  lemma DispatcherKeepsTransit(s: State, d: DispatcherAction)
    requires DispatcherEnabled(s, d) && (d.Start? ==> s.workers == [])
    ensures Pending(DispatcherStep(s, d)) - InTransit(DispatcherStep(s, d)) == Pending(s) - InTransit(s)
  {
    var s' := DispatcherStep(s, d);
    match d {
      case Start(_) => TotalNone(s'.workers);
      case Unwind => TotalSame(s.workers, s'.workers);
      case Join(w) => TotalUpdate(s.workers, w, s'.workers[w]);
      case _ =>
    }
  }

  lemma TakeKeepsTransit(s: State, w: nat, peer: Option<Addr>)
    requires WorkerEnabled(s, w, Take(peer))
    ensures Pending(TakeStep(s, w, peer)) - InTransit(TakeStep(s, w, peer)) == Pending(s) - InTransit(s)
  {
    TotalUpdate(s.workers, w, TakeStep(s, w, peer).workers[w]);
  }

  lemma PeekKeepsTransit(s: State, w: nat, tls: Option<bool>)
    requires WorkerEnabled(s, w, Peek(tls))
    ensures Pending(PeekStep(s, w, tls)) - InTransit(PeekStep(s, w, tls)) == Pending(s) - InTransit(s)
  {
    TotalUpdate(s.workers, w, PeekStep(s, w, tls).workers[w]);
  }

  lemma AbortKeepsTransit(s: State, w: nat, b: Addr)
    requires WorkerEnabled(s, w, AbortOne(b))
    ensures Pending(AbortStep(s, w, b)) - InTransit(AbortStep(s, w, b)) == Pending(s) - InTransit(s)
  {
    TotalUpdate(s.workers, w, AbortStep(s, w, b).workers[w]);
  }

  lemma OtherKeepsTransit(s: State, w: nat, e: WorkerAction)
    requires WorkerEnabled(s, w, e) && !e.Take? && !e.Peek? && !e.AbortOne?
    ensures Pending(WorkerStep(s, w, e)) - InTransit(WorkerStep(s, w, e)) == Pending(s) - InTransit(s)
  {
    hide WorkerStep, HeldTotal;
    OtherStepFrame(s, w, e);
    hide WorkerEnabled;
    TotalUpdate(s.workers, w, WorkerStep(s, w, e).workers[w]);
  }

  lemma WorkerKeepsTransit(s: State, w: nat, e: WorkerAction)
    requires WorkerEnabled(s, w, e)
    ensures Pending(WorkerStep(s, w, e)) - InTransit(WorkerStep(s, w, e)) == Pending(s) - InTransit(s)
  {
    hide Pending, InTransit;
    match e {
      case Take(peer) => TakeKeepsTransit(s, w, peer);
      case Peek(tls) => PeekKeepsTransit(s, w, tls);
      case AbortOne(b) => AbortKeepsTransit(s, w, b);
      case _ => OtherKeepsTransit(s, w, e);
    }
  }

  lemma TaskKeepsTransit(s: State, t: nat, k: TaskAction)
    requires TaskEnabled(s, t, k)
    ensures Pending(TaskStep(s, t, k)) - InTransit(TaskStep(s, t, k)) == Pending(s) - InTransit(s)
  {
    var w := s.tasks[t].worker;
    TotalUpdate(s.workers, w, TaskStep(s, t, k).workers[w]);
  }

  lemma KeepsTransit(s: State, a: Action)
    requires Shape(s) && Enabled(s, a)
    ensures Pending(Apply(s, a)) - InTransit(Apply(s, a)) == Pending(s) - InTransit(s)
  {
    match a {
      case ByOwner(_) => hide DispatcherStep, WorkerStep, TaskStep;
      case ByDispatcher(d) => hide Pending, InTransit, DispatcherStep, WorkerStep, TaskStep; DispatcherKeepsTransit(s, d);
      case ByWorker(w, e) => hide Pending, InTransit, DispatcherStep, WorkerStep, TaskStep; WorkerKeepsTransit(s, w, e);
      case ByTask(t, k) => hide Pending, InTransit, DispatcherStep, WorkerStep, TaskStep; TaskKeepsTransit(s, t, k);
    }
  }

  lemma {:induction false} RunKeepsTransit(s: State, acts: seq<Action>)
    requires Shape(s) && Pending(s) == InTransit(s) && Valid(s, acts)
    ensures Pending(Run(s, acts)) == InTransit(Run(s, acts))
    decreases |acts|
  {
    if acts != [] {
      KeepsTransit(s, acts[0]);
      KeepsShape(s, acts[0]);
      hide Shape, Pending, InTransit, Enabled, Apply;
      RunKeepsTransit(Apply(s, acts[0]), acts[1..]);
    }
  }

  lemma ConfigStep(s: State, a: Action)
    requires Enabled(s, a)
    ensures Apply(s, a).workersCfg == s.workersCfg && Apply(s, a).capacity == s.capacity
    ensures Apply(s, a).transport == s.transport
  {}

  lemma {:induction false} RunKeepsConfig(s: State, acts: seq<Action>)
    requires Valid(s, acts)
    ensures Run(s, acts).workersCfg == s.workersCfg && Run(s, acts).capacity == s.capacity
    ensures Run(s, acts).transport == s.transport
    decreases |acts|
  {
    if acts != [] {
      ConfigStep(s, acts[0]);
      hide Enabled, Apply;
      RunKeepsConfig(Apply(s, acts[0]), acts[1..]);
    }
  }

  /**
   Accepted streams that no connection task has yet are at most the queue's capacity, one per
   worker and one in the dispatcher: 2W + 1, since the capacity is the number of workers.
   */
  lemma HandOffBound(transport: Transport, workersCfg: nat, capacity: nat, acts: seq<Action>)
    requires Valid(Init(transport, workersCfg, capacity), acts)
    ensures var s := Run(Init(transport, workersCfg, capacity), acts);
            0 <= Pending(s) <= capacity + workersCfg + 1 && (capacity == workersCfg ==> Pending(s) <= 2 * workersCfg + 1)
  {
    var i := Init(transport, workersCfg, capacity);
    InitShape(transport, workersCfg, capacity);
    RunKeepsShape(i, acts);
    RunKeepsTransit(i, acts);
    RunKeepsConfig(i, acts);
  }

  // ---------- Open senders ----------

  /**
   A serving connection whose shutdown receiver is unresolved has a worker inside its loop that
   still holds a sender; so however the worker leaves its loop, by stop, error, cancellation or
   disconnection, the close branch of each of its serving connections is enabled.
   */
  lemma NoConnectionOutlivesItsWorker(transport: Transport, workersCfg: nat, capacity: nat, acts: seq<Action>, t: nat)
    requires Valid(Init(transport, workersCfg, capacity), acts)
    requires t < |Run(Init(transport, workersCfg, capacity), acts).tasks|
    requires Run(Init(transport, workersCfg, capacity), acts).tasks[t].phase.Serving?
    ensures var s := Run(Init(transport, workersCfg, capacity), acts);
            var w := s.tasks[t].worker;
            && w < |s.workers|
            && (!s.workers[w].chan.Resolved(s.tasks[t].seen) ==> s.workers[w].InLoop() && s.workers[w].chan.senders > 0)
            && (!s.workers[w].InLoop() <==> TaskEnabled(s, t, Close))
  {
    var i := Init(transport, workersCfg, capacity);
    InitShape(transport, workersCfg, capacity);
    RunKeepsShape(i, acts);
    var s := Run(i, acts);
    assert TaskShape(s.workers, s.tasks[t]);
    assert WorkerShape(s.disp, s.workers[s.tasks[t].worker]);
  }
}
