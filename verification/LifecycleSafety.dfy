/** Conservation, hand-off bound, order and open senders, over every run of a listener. */
module LifecycleSafety {
  import opened Prelude
  import opened Lifecycle
  import opened LifecycleShape

  // ---------- Where a stream can be ----------

  datatype Place =
    | InHand
    | Queued(i: nat)
    | Held(w: nat)
    | Given(t: nat)
    | Gone(r: nat)

  predicate At(s: State, x: Stream, p: Place) {
    match p
    case InHand => s.disp.Hand() == [x]
    case Queued(i) => i < |s.queue| && s.queue[i] == x
    case Held(w) => w < |s.workers| && s.workers[w].Holds(x)
    case Given(t) => t < |s.tasks| && s.tasks[t].stream == x
    case Gone(r) => r < |s.retired| && s.retired[r].stream == x
  }

  // ---------- Counting places ----------

  function Bit(b: bool): nat {
    if b then 1 else 0
  }

  function HeldCount(ws: seq<Worker>, x: Stream): nat {
    if ws == [] then 0 else Bit(ws[0].Holds(x)) + HeldCount(ws[1..], x)
  }

  function Streams(ts: seq<Task>): seq<Stream> {
    seq(|ts|, i requires 0 <= i < |ts| => ts[i].stream)
  }

  function RetiredStreams(rs: seq<Retirement>): seq<Stream> {
    seq(|rs|, i requires 0 <= i < |rs| => rs[i].stream)
  }

  /** In how many places stream `x` is. */
  function Count(s: State, x: Stream): nat {
    multiset(s.disp.Hand())[x] + multiset(s.queue)[x] + HeldCount(s.workers, x)
    + multiset(Streams(s.tasks))[x] + multiset(RetiredStreams(s.retired))[x]
  }

  lemma {:induction false} HeldUpdate(ws: seq<Worker>, i: nat, v: Worker, x: Stream)
    requires i < |ws|
    ensures HeldCount(ws[i := v], x) + Bit(ws[i].Holds(x)) == HeldCount(ws, x) + Bit(v.Holds(x))
  {
    if i == 0 {
      assert ws[i := v][1..] == ws[1..];
    } else {
      HeldUpdate(ws[1..], i - 1, v, x);
      assert ws[i := v][1..] == ws[1..][i - 1 := v];
    }
  }

  lemma {:induction false} HeldNone(ws: seq<Worker>, x: Stream)
    requires forall w :: 0 <= w < |ws| ==> !ws[w].Holds(x)
    ensures HeldCount(ws, x) == 0
  {
    if ws != [] {
      HeldNone(ws[1..], x);
    }
  }

  lemma {:induction false} HeldSame(ws: seq<Worker>, vs: seq<Worker>, x: Stream)
    requires |ws| == |vs| && forall w :: 0 <= w < |ws| ==> ws[w].Holds(x) == vs[w].Holds(x)
    ensures HeldCount(ws, x) == HeldCount(vs, x)
  {
    if ws != [] {
      HeldSame(ws[1..], vs[1..], x);
    }
  }

  lemma RetireCount(rs: seq<Retirement>, xs: seq<Stream>, why: Reason, x: Stream)
    ensures multiset(RetiredStreams(Retire(rs, xs, why)))[x] == multiset(RetiredStreams(rs))[x] + multiset(xs)[x]
  {
    assert RetiredStreams(Retire(rs, xs, why)) == RetiredStreams(rs) + xs;
  }

  lemma SpawnStreams(ts: seq<Task>, t: Task)
    ensures Streams(ts + [t]) == Streams(ts) + [t.stream]
  {}

  lemma SameStreams(ts: seq<Task>, t: nat, v: Task)
    requires t < |ts| && v.stream == ts[t].stream
    ensures Streams(ts[t := v]) == Streams(ts)
  {}

  /** The actions that bring a new stream in. */
  predicate Arrives(a: Action) {
    a.ByDispatcher? && (a.d.Accept? || a.d.LogAccept?)
  }

  lemma DiscardConserves(s: State, x: Stream)
    requires DispatcherEnabled(s, LogAccept)
    ensures Count(DispatcherStep(s, LogAccept), x) == Count(s, x) + Bit(x == s.accepted)
  {
    RetireCount(s.retired, [s.accepted], Discarded, x);
    hide Retire, RetiredStreams, HeldCount;
  }

  /** A greeting or a halt keeps what the dispatcher holds or retires it. */
  lemma RetireStepFrame(s: State, d: DispatcherAction)
    requires DispatcherEnabled(s, d)
    requires d.Greet? || d.Halt?
    ensures var s' := DispatcherStep(s, d);
            && s'.queue == s.queue && s'.workers == s.workers && s'.tasks == s.tasks
            && if d == Greet(true) then s'.disp.Hand() == s.disp.Hand() && s'.retired == s.retired
               else && s'.disp.Hand() == []
                    && s'.retired == Retire(s.retired, s.disp.Hand(), if d.Halt? then DispatcherShutdown else GreetingFailed)
  {}

  lemma RetireConserves(s: State, d: DispatcherAction, x: Stream)
    requires DispatcherEnabled(s, d)
    requires d.Greet? || d.Halt?
    ensures Count(DispatcherStep(s, d), x) == Count(s, x)
  {
    hide DispatcherStep, DispatcherEnabled, Retire, RetiredStreams, Streams, HeldCount;
    RetireStepFrame(s, d);
    RetireCount(s.retired, s.disp.Hand(), if d.Halt? then DispatcherShutdown else GreetingFailed, x);
  }

  lemma SendConserves(s: State, d: DispatcherAction, x: Stream)
    requires DispatcherEnabled(s, d)
    requires d.Accept? || d.Send?
    ensures Count(DispatcherStep(s, d), x) == Count(s, x) + Bit(d.Accept? && x == s.accepted)
  {}

  /** Where only the workers change, only their hands matter. */
  lemma CountByHands(s: State, s': State, x: Stream)
    requires s'.disp.Hand() == s.disp.Hand() && s'.queue == s.queue && s'.tasks == s.tasks && s'.retired == s.retired
    requires HeldCount(s'.workers, x) == HeldCount(s.workers, x)
    ensures Count(s', x) == Count(s, x)
  {
    hide HeldCount;
  }

  lemma PoolConserves(s: State, d: DispatcherAction, x: Stream)
    requires DispatcherEnabled(s, d)
    requires d.Start? || d.Unwind? || d.Join?
    requires d.Start? ==> s.workers == []
    ensures Count(DispatcherStep(s, d), x) == Count(s, x)
  {
    hide Count;
    var s' := DispatcherStep(s, d);
    match d {
      case Start(tlsOk) =>
        HeldNone(s'.workers, x);
        HeldNone(s.workers, x);
      case Unwind => HeldSame(s.workers, s'.workers, x);
      case Join(w) => HeldUpdate(s.workers, w, s'.workers[w], x);
    }
    CountByHands(s, s', x);
  }

  lemma QuietConserves(s: State, d: DispatcherAction, x: Stream)
    requires DispatcherEnabled(s, d)
    requires d.AcceptFail? || d.LogSkip? || d.EndpointClosed? || d.IdleDone? || d.JoinDone?
    ensures Count(DispatcherStep(s, d), x) == Count(s, x)
  {}

  lemma DispatcherConserves(s: State, d: DispatcherAction, x: Stream)
    requires DispatcherEnabled(s, d)
    requires d.Start? ==> s.workers == []
    ensures Count(DispatcherStep(s, d), x) == Count(s, x) + Bit((d.Accept? || d.LogAccept?) && x == s.accepted)
  {
    hide DispatcherStep, Count;
    if d.LogAccept? {
      DiscardConserves(s, x);
    } else if d.Greet? || d.Halt? {
      RetireConserves(s, d, x);
    } else if d.Accept? || d.Send? {
      SendConserves(s, d, x);
    } else if d.Start? || d.Unwind? || d.Join? {
      PoolConserves(s, d, x);
    } else {
      QuietConserves(s, d, x);
    }
  }

  lemma TakeConserves(s: State, w: nat, peer: Option<Addr>, x: Stream)
    requires WorkerEnabled(s, w, Take(peer))
    ensures Count(TakeStep(s, w, peer), x) == Count(s, x)
  {
    var s' := TakeStep(s, w, peer);
    assert s.queue == [s.queue[0]] + s.queue[1..];
    HeldUpdate(s.workers, w, s'.workers[w], x);
    if peer.None? {
      RetireCount(s.retired, [s.queue[0]], WorkerError, x);
    } else if s.transport.Udp? {
      SpawnStreams(s.tasks, s'.tasks[|s.tasks|]);
    }
  }

  lemma PeekConserves(s: State, w: nat, tls: Option<bool>, x: Stream)
    requires WorkerEnabled(s, w, Peek(tls))
    ensures Count(PeekStep(s, w, tls), x) == Count(s, x)
  {
    var s' := PeekStep(s, w, tls);
    HeldUpdate(s.workers, w, s'.workers[w], x);
    if tls.None? {
      RetireCount(s.retired, [s.workers[w].phase.held], WorkerError, x);
    } else {
      SpawnStreams(s.tasks, s'.tasks[|s.tasks|]);
    }
  }

  lemma AbortConserves(s: State, w: nat, b: Addr, x: Stream)
    requires WorkerEnabled(s, w, AbortOne(b))
    ensures Count(AbortStep(s, w, b), x) == Count(s, x)
  {
    var s' := AbortStep(s, w, b);
    HeldUpdate(s.workers, w, s'.workers[w], x);
    assert Streams(s'.tasks) == Streams(s.tasks);
  }

  /** Apart from the three actions above, a worker keeps what it holds or retires it. */
  lemma OtherStepFrame(s: State, w: nat, e: WorkerAction)
    requires WorkerEnabled(s, w, e) && !e.Take? && !e.Peek? && !e.AbortOne?
    ensures var s' := WorkerStep(s, w, e);
            && w < |s.workers| && |s'.workers| == |s.workers| && s'.workers == s.workers[w := s'.workers[w]]
            && s'.disp == s.disp && s'.queue == s.queue && s'.accepted == s.accepted && s'.tasks == s.tasks
            && s'.workers[w].Hand() == []
            && s'.retired == Retire(s.retired, s.workers[w].Hand(), WorkerShutdown)
  {
    assert Retire(s.retired, [], WorkerShutdown) == s.retired;
  }

  lemma OtherConserves(s: State, w: nat, e: WorkerAction, x: Stream)
    requires WorkerEnabled(s, w, e) && !e.Take? && !e.Peek? && !e.AbortOne?
    ensures Count(WorkerStep(s, w, e), x) == Count(s, x)
  {
    hide WorkerStep, Retire, RetiredStreams, Streams, HeldCount;
    OtherStepFrame(s, w, e);
    var v := WorkerStep(s, w, e).workers[w];
    hide WorkerEnabled;
    RetireCount(s.retired, s.workers[w].Hand(), WorkerShutdown, x);
    HeldUpdate(s.workers, w, v, x);
  }

  lemma WorkerConserves(s: State, w: nat, e: WorkerAction, x: Stream)
    requires WorkerEnabled(s, w, e)
    ensures Count(WorkerStep(s, w, e), x) == Count(s, x)
  {
    hide Count;
    match e {
      case Take(peer) => TakeConserves(s, w, peer, x);
      case Peek(tls) => PeekConserves(s, w, tls, x);
      case AbortOne(b) => AbortConserves(s, w, b, x);
      case _ => OtherConserves(s, w, e, x);
    }
  }

  lemma TaskConserves(s: State, t: nat, k: TaskAction, x: Stream)
    requires TaskEnabled(s, t, k)
    ensures Count(TaskStep(s, t, k), x) == Count(s, x)
  {
    var s' := TaskStep(s, t, k);
    SameStreams(s.tasks, t, s'.tasks[t]);
    var w := s.tasks[t].worker;
    HeldUpdate(s.workers, w, s'.workers[w], x);
  }

  lemma OwnerConserves(s: State, o: OwnerAction, x: Stream)
    requires OwnerEnabled(s, o)
    ensures Count(OwnerStep(s, o), x) == Count(s, x)
  {}

  /** No action duplicates or loses a stream, whatever the state. */
  lemma ConservationStep(s: State, a: Action, x: Stream)
    requires Enabled(s, a)
    requires s.disp.Unstarted? ==> s.workers == []
    ensures Count(Apply(s, a), x) == Count(s, x) + Bit(Arrives(a) && x == s.accepted)
  {
    hide Count, DispatcherStep, WorkerStep, TaskStep;
    match a {
      case ByOwner(o) => OwnerConserves(s, o, x);
      case ByDispatcher(d) => DispatcherConserves(s, d, x);
      case ByWorker(w, e) => WorkerConserves(s, w, e, x);
      case ByTask(t, k) => TaskConserves(s, t, k, x);
    }
  }

  /** Every accepted stream is in one place, counted once; no other stream is anywhere. */
  ghost predicate Conserved(s: State) {
    forall x: Stream :: Count(s, x) == Bit(x < s.accepted)
  }

  lemma AcceptedStep(s: State, a: Action)
    requires Enabled(s, a)
    ensures Apply(s, a).accepted == s.accepted + Bit(Arrives(a))
  {}

  lemma {:induction false} RunConserves(s: State, acts: seq<Action>)
    requires Shape(s) && Conserved(s) && Valid(s, acts)
    ensures Conserved(Run(s, acts))
    decreases |acts|
  {
    if acts != [] {
      var a := acts[0];
      forall x: Stream ensures Count(Apply(s, a), x) == Bit(x < Apply(s, a).accepted) {
        ConservationStep(s, a, x);
        AcceptedStep(s, a);
        hide Count, Apply;
      }
      KeepsShape(s, a);
      hide Count, Shape, Enabled, Apply;
      RunConserves(Apply(s, a), acts[1..]);
    }
  }

  // ---------- From counts to places ----------

  lemma SeqHasOne(xs: seq<Stream>, i: nat)
    requires i < |xs|
    ensures multiset(xs)[xs[i]] >= 1
  {
    assert xs[i] in multiset(xs);
  }

  lemma SeqHasTwo(xs: seq<Stream>, i: nat, j: nat)
    requires i < j < |xs| && xs[i] == xs[j]
    ensures multiset(xs)[xs[i]] >= 2
  {
    assert xs == xs[..j] + xs[j..];
    SeqHasOne(xs[..j], i);
    SeqHasOne(xs[j..], 0);
  }

  lemma {:induction false} HeldHasOne(ws: seq<Worker>, w: nat, x: Stream)
    requires w < |ws| && ws[w].Holds(x)
    ensures HeldCount(ws, x) >= 1
  {
    if w > 0 {
      HeldHasOne(ws[1..], w - 1, x);
    }
  }

  lemma {:induction false} HeldHasTwo(ws: seq<Worker>, v: nat, w: nat, x: Stream)
    requires v < w < |ws| && ws[v].Holds(x) && ws[w].Holds(x)
    ensures HeldCount(ws, x) >= 2
  {
    if v == 0 {
      HeldHasOne(ws[1..], w - 1, x);
    } else {
      HeldHasTwo(ws[1..], v - 1, w - 1, x);
    }
  }

  /** A worker that holds `x`, when the count says there is one. */
  lemma {:induction false} HeldWitness(ws: seq<Worker>, x: Stream) returns (w: nat)
    requires HeldCount(ws, x) >= 1
    ensures w < |ws| && ws[w].Holds(x)
  {
    if ws[0].Holds(x) {
      w := 0;
    } else {
      w := HeldWitness(ws[1..], x);
      w := w + 1;
    }
  }

  /** The number of places of each kind, with the kind of `p` counted at least once. */
  lemma PlaceCounts(s: State, x: Stream, p: Place)
    requires At(s, x, p)
    ensures p.InHand? ==> multiset(s.disp.Hand())[x] >= 1
    ensures p.Queued? ==> multiset(s.queue)[x] >= 1
    ensures p.Held? ==> HeldCount(s.workers, x) >= 1
    ensures p.Given? ==> multiset(Streams(s.tasks))[x] >= 1
    ensures p.Gone? ==> multiset(RetiredStreams(s.retired))[x] >= 1
  {
    match p {
      case InHand => SeqHasOne(s.disp.Hand(), 0);
      case Queued(i) => SeqHasOne(s.queue, i);
      case Held(w) => HeldHasOne(s.workers, w, x);
      case Given(t) => SeqHasOne(Streams(s.tasks), t);
      case Gone(r) => SeqHasOne(RetiredStreams(s.retired), r);
    }
  }

  lemma SameKindTwice(s: State, x: Stream, p: Place, q: Place)
    requires At(s, x, p) && At(s, x, q) && p != q
    requires (p.Queued? && q.Queued? && p.i < q.i) || (p.Held? && q.Held? && p.w < q.w)
          || (p.Given? && q.Given? && p.t < q.t) || (p.Gone? && q.Gone? && p.r < q.r)
    ensures Count(s, x) >= 2
  {
    match p {
      case Queued(i) => SeqHasTwo(s.queue, i, q.i);
      case Held(w) => HeldHasTwo(s.workers, w, q.w, x);
      case Given(t) => SeqHasTwo(Streams(s.tasks), t, q.t);
      case Gone(r) => SeqHasTwo(RetiredStreams(s.retired), r, q.r);
    }
  }

  lemma TwoPlaces(s: State, x: Stream, p: Place, q: Place)
    requires At(s, x, p) && At(s, x, q) && p != q
    ensures Count(s, x) >= 2
  {
    if (p.Queued? && q.Queued? && p.i < q.i) || (p.Held? && q.Held? && p.w < q.w)
       || (p.Given? && q.Given? && p.t < q.t) || (p.Gone? && q.Gone? && p.r < q.r) {
      SameKindTwice(s, x, p, q);
    } else if (p.Queued? && q.Queued?) || (p.Held? && q.Held?) || (p.Given? && q.Given?) || (p.Gone? && q.Gone?) {
      SameKindTwice(s, x, q, p);
    } else {
      PlaceCounts(s, x, p);
      PlaceCounts(s, x, q);
    }
  }

  lemma PlaceWitness(s: State, x: Stream) returns (p: Place)
    requires Count(s, x) >= 1
    ensures At(s, x, p)
  {
    if x in s.disp.Hand() {
      p := InHand;
    } else if x in s.queue {
      var i :| 0 <= i < |s.queue| && s.queue[i] == x;
      p := Queued(i);
    } else if HeldCount(s.workers, x) >= 1 {
      var w := HeldWitness(s.workers, x);
      p := Held(w);
    } else if x in Streams(s.tasks) {
      var t :| 0 <= t < |s.tasks| && Streams(s.tasks)[t] == x;
      p := Given(t);
    } else {
      assert x in RetiredStreams(s.retired);
      var r :| 0 <= r < |s.retired| && RetiredStreams(s.retired)[r] == x;
      p := Gone(r);
    }
  }

  lemma AtCounts(s: State, x: Stream, p: Place)
    requires At(s, x, p)
    ensures Count(s, x) >= 1
  {
    PlaceCounts(s, x, p);
  }

  /**
   In every reachable state each accepted stream is in exactly one place: the dispatcher's hand,
   one slot of the queue, one worker's hand, one connection task or the retired list; a stream
   that was not accepted is in none.
   */
  lemma ExactlyOnePlace(transport: Transport, workersCfg: nat, capacity: nat, acts: seq<Action>, x: Stream)
    requires Valid(Init(transport, workersCfg, capacity), acts)
    ensures var s := Run(Init(transport, workersCfg, capacity), acts);
            && ((exists p :: At(s, x, p)) <==> x < s.accepted)
            && (forall p, q :: At(s, x, p) && At(s, x, q) ==> p == q)
  {
    var i := Init(transport, workersCfg, capacity);
    var s := Run(i, acts);
    assert Conserved(s) by {
      InitShape(transport, workersCfg, capacity);
      forall y: Stream ensures Count(i, y) == 0 {
        HeldNone(i.workers, y);
      }
      RunConserves(i, acts);
    }
    assert Count(s, x) == Bit(x < s.accepted);
    hide Count, Run, Valid;
    if x < s.accepted {
      var p := PlaceWitness(s, x);
    }
    forall p | At(s, x, p) ensures Count(s, x) >= 1 {
      AtCounts(s, x, p);
    }
    forall p, q | At(s, x, p) && At(s, x, q) ensures p == q {
      if p != q {
        TwoPlaces(s, x, p, q);
      }
    }
  }
}
