/**
 The life of one listener, from `listen` to `stop`, as a transition system.

 A dispatcher task accepts streams and sends them into a bounded queue. Worker tasks take them,
 peek (TCP only) and spawn one task per connection, whose handle they record in a table keyed by
 the peer address. A future can be cancelled only where it awaits, so every action below runs
 from one `.await` to the next. Blocks that touch state shared with tasks running in parallel
 are cut further: a worker spawns a task in one action and inserts its handle in another, and
 its `stop` aborts one handle per action.

 Sockets, TLS, the schedule and the moment a connection ends are choices of the environment:
 any enabled action may be taken.
 */
module Lifecycle {
  import opened Prelude

  /** Streams are numbered in the order they are accepted. */
  type Stream = nat

  type Addr = nat

  /** A `watch` channel: the version of its value and the number of open senders. */
  datatype Watch = Watch(version: nat, senders: nat) {
    /** Whether `changed()` is ready for a receiver that last saw version `seen`. */
    predicate Resolved(seen: nat) {
      version != seen || senders == 0
    }
  }

  /** What the owner of the listener has done with it. */
  datatype Owner = Up | Stopping | Stopped | Dropped

  /** Where the dispatcher task stands. `Logging` is the second `accept` inside the error log. */
  datatype DispatcherPhase =
    | Unstarted
    | Accepting
    | Logging
    | Greeting(conn: Stream)
    | Sending(conn: Stream)
    | Draining
    | Unwinding(ok: bool)
    | Joining
    | Ended(ok: bool)
  {
    function Hand(): seq<Stream> {
      if Greeting? || Sending? then [conn] else []
    }

    /** The points where `select!` may drop `run` in favour of the shutdown branch. */
    predicate AtAwait() {
      Unstarted? || Accepting? || Logging? || Greeting? || Sending? || Draining?
    }
  }

  datatype WorkerEnd = ByStop | ByError | ByCancel | ByDisconnect

  datatype WorkerPhase =
    | NotPolled
    | Receiving
    | Peeking(held: Stream, addr: Addr)
    | Inserting(task: nat, addr: Addr)
    | Aborting(todo: set<Addr>)
    | Finished(how: WorkerEnd)

  /** One worker future: its table of handles and its own shutdown channel. */
  datatype Worker = Worker(phase: WorkerPhase, table: map<Addr, nat>, chan: Watch, joined: bool, cancelled: bool) {
    predicate AtAwait() {
      phase.NotPolled? || phase.Receiving? || phase.Peeking?
    }

    predicate InLoop() {
      phase.Receiving? || phase.Peeking? || phase.Inserting?
    }

    predicate Holds(x: Stream) {
      phase.Peeking? && phase.held == x
    }

    function Hand(): seq<Stream> {
      if phase.Peeking? then [phase.held] else []
    }

    /** `run` creates the channel and keeps one sender; `self.signal` keeps the other. */
    function Begin(): Worker {
      this.(phase := Receiving, chan := Watch(0, 2))
    }

    /** The future ends without `stop`: both senders are dropped with it. */
    function End(how: WorkerEnd): Worker {
      this.(phase := Finished(how), chan := chan.(senders := 0))
    }

    /** `stop` up to its abort loop. Before the first poll there is neither signal nor table. */
    function BeginStop(): Worker {
      if phase.NotPolled? then this.(phase := Finished(ByStop))
      else this.(phase := Aborting(table.Keys), chan := Watch(chan.version + 1, 0))
    }

    function Record(): Worker
      requires phase.Inserting?
    {
      this.(phase := Receiving, table := table[phase.addr := phase.task])
    }
  }

  function NewWorker(): Worker {
    Worker(NotPolled, map[], Watch(0, 0), false, false)
  }

  datatype TaskEnd = Completed | HandshakeFailed | ClosedBySignal | Aborted

  /** `Served` is a connection served but not yet removed from its worker's table. */
  datatype TaskPhase = Handshake | Serving | Served | Done(how: TaskEnd)

  datatype Task = Task(worker: nat, stream: Stream, addr: Addr, phase: TaskPhase, seen: nat, aborted: bool) {
    predicate Live() {
      phase.Handshake? || phase.Serving?
    }
  }

  datatype Reason = WorkerError | WorkerShutdown | DispatcherShutdown | Discarded | GreetingFailed

  datatype Retirement = Retirement(stream: Stream, why: Reason)

  /** `accepted`, `sent`, `taken` and `retired` are histories. */
  datatype State = State(
    transport: Transport,
    workersCfg: nat,
    capacity: nat,
    owner: Owner,
    listenerChan: Watch,
    disp: DispatcherPhase,
    signal: bool,
    workerChan: Watch,
    queue: seq<Stream>,
    workers: seq<Worker>,
    tasks: seq<Task>,
    accepted: nat,
    sent: seq<Stream>,
    taken: seq<Stream>,
    retired: seq<Retirement>)

  datatype OwnerAction = OwnerStop | OwnerJoin | OwnerDrop

  datatype DispatcherAction =
    | Start(tlsOk: bool)
    | Accept
    | AcceptFail
    | LogSkip
    | LogAccept
    | EndpointClosed
    | IdleDone
    | Greet(ok: bool)
    | Send
    | Unwind
    | Halt
    | Join(worker: nat)
    | JoinDone

  datatype WorkerAction =
    | Begin
    | Take(peer: Option<Addr>)
    | Disconnect
    | Peek(tls: Option<bool>)
    | Insert
    | StopWorker
    | AbortOne(addr: Addr)
    | StopDone
    | Cancel

  datatype TaskAction = Secure(ok: bool) | Serve | Remove | Close | Abort

  datatype Action =
    | ByOwner(o: OwnerAction)
    | ByDispatcher(d: DispatcherAction)
    | ByWorker(w: nat, e: WorkerAction)
    | ByTask(t: nat, k: TaskAction)

  /** The state right after `listen` spawned the dispatcher task. */
  function Init(transport: Transport, workersCfg: nat, capacity: nat): State {
    State(transport, workersCfg, capacity, Up, Watch(0, 1), Unstarted, false, Watch(0, 0), [], [], [], 0, [], [], [])
  }

  predicate AllJoined(ws: seq<Worker>) {
    forall w :: 0 <= w < |ws| ==> ws[w].joined
  }

  function Retire(rs: seq<Retirement>, xs: seq<Stream>, why: Reason): seq<Retirement> {
    rs + seq(|xs|, i requires 0 <= i < |xs| => Retirement(xs[i], why))
  }

  // ---------- The owner: `TcpListener::stop`, `UdpListener::stop` or a plain drop ----------

  predicate OwnerEnabled(s: State, o: OwnerAction) {
    match o
    case OwnerStop => s.owner.Up?
    case OwnerJoin => s.owner.Stopping? && s.disp.Ended?
    case OwnerDrop => s.owner.Up?
  }

  function OwnerStep(s: State, o: OwnerAction): State {
    match o
    case OwnerStop => s.(owner := Stopping, listenerChan := s.listenerChan.(version := s.listenerChan.version + 1))
    case OwnerJoin => s.(owner := Stopped, listenerChan := s.listenerChan.(senders := 0))
    case OwnerDrop => s.(owner := Dropped, listenerChan := s.listenerChan.(senders := 0))
  }

  // ---------- The dispatcher ----------

  predicate DispatcherEnabled(s: State, d: DispatcherAction) {
    match d
    case Start(tlsOk) => s.disp.Unstarted? && (s.transport.Udp? ==> tlsOk)
    case Accept => s.disp.Accepting?
    case AcceptFail => s.disp.Accepting? && s.transport.Tcp?
    case LogSkip => s.disp.Logging?
    case LogAccept => s.disp.Logging?
    case EndpointClosed => s.disp.Accepting? && s.transport.Udp?
    case IdleDone => s.disp.Draining?
    case Greet(_) => s.disp.Greeting?
    case Send => s.disp.Sending? && |s.queue| < s.capacity
    case Unwind => s.disp.Unwinding?
    case Halt => s.disp.AtAwait() && s.listenerChan.Resolved(0)
    case Join(w) => s.disp.Joining? && w < |s.workers| && s.workers[w].phase.Finished? && !s.workers[w].joined
    case JoinDone => s.disp.Joining? && AllJoined(s.workers)
  }

  /** The mark that dropping a `JoinSet` leaves on every worker still running. */
  function CancelAll(ws: seq<Worker>): seq<Worker> {
    seq(|ws|, i requires 0 <= i < |ws| => if ws[i].phase.Finished? then ws[i] else ws[i].(cancelled := true))
  }

  /** `run` has returned: the dispatcher's fields are dropped, its signal first. */
  function BeginUnwind(s: State, ok: bool): State {
    s.(disp := Unwinding(ok), signal := false, workerChan := s.workerChan.(senders := 0))
  }

  function DispatcherStep(s: State, d: DispatcherAction): State
    requires DispatcherEnabled(s, d)
  {
    match d
    case Start(tlsOk) =>
      if tlsOk then
        s.(disp := Accepting, signal := true, workerChan := Watch(0, 1),
           workers := seq(s.workersCfg, _ => NewWorker()))
      else s.(disp := Accepting)
    case Accept =>
      s.(disp := if s.transport.Tcp? then Sending(s.accepted) else Greeting(s.accepted), accepted := s.accepted + 1)
    case AcceptFail => s.(disp := Logging)
    case LogSkip => s.(disp := Accepting)
    case LogAccept =>
      s.(disp := Accepting, accepted := s.accepted + 1, retired := Retire(s.retired, [s.accepted], Discarded))
    case EndpointClosed => s.(disp := Draining)
    case IdleDone => BeginUnwind(s, true)
    case Greet(ok) =>
      if ok then s.(disp := Sending(s.disp.conn))
      else BeginUnwind(s, false).(retired := Retire(s.retired, s.disp.Hand(), GreetingFailed))
    case Send => s.(disp := Accepting, queue := s.queue + [s.disp.conn], sent := s.sent + [s.disp.conn])
    case Unwind => s.(disp := Ended(s.disp.ok), workers := CancelAll(s.workers))
    case Halt =>
      s.(disp := Joining, signal := false, retired := Retire(s.retired, s.disp.Hand(), DispatcherShutdown),
         workerChan := if s.signal then Watch(s.workerChan.version + 1, 0) else s.workerChan)
    case Join(w) => SetWorker(s, w, s.workers[w].(joined := true))
    case JoinDone => s.(disp := Ended(true))
  }

  // ---------- The workers ----------

  function SetWorker(s: State, w: nat, v: Worker): State
    requires w < |s.workers|
  {
    s.(workers := s.workers[w := v])
  }

  /**
   A cancelled worker is dropped where it waits. If it was being polled when the mark was left, it
   still runs through every await that is ready, so the mark disables nothing.
   */
  predicate WorkerEnabled(s: State, w: nat, e: WorkerAction) {
    && w < |s.workers|
    && var v := s.workers[w];
       match e
       case Begin => v.phase.NotPolled?
       case Take(peer) => v.phase.Receiving? && s.queue != [] && (s.transport.Udp? ==> peer.Some?)
       case Disconnect => v.phase.Receiving? && s.queue == [] && s.disp.Ended?
       case Peek(_) => v.phase.Peeking?
       case Insert => v.phase.Inserting?
       case StopWorker => v.AtAwait() && s.workerChan.Resolved(0)
       case AbortOne(b) => v.phase.Aborting? && b in v.phase.todo
       case StopDone => v.phase == Aborting({})
       case Cancel => v.AtAwait() && v.cancelled
  }

  /** `tokio::spawn` of a connection task, whose receiver has seen the current version. */
  function Spawn(s: State, w: nat, x: Stream, b: Addr, phase: TaskPhase): State
    requires w < |s.workers|
  {
    var v := s.workers[w];
    SetWorker(s, w, v.(phase := Inserting(|s.tasks|, b)))
    .(tasks := s.tasks + [Task(w, x, b, phase, v.chan.version, false)])
  }

  /** `worker` receives from the queue; an unknown peer address ends it. */
  function TakeStep(s: State, w: nat, peer: Option<Addr>): State
    requires WorkerEnabled(s, w, Take(peer))
  {
    var x := s.queue[0];
    var s' := s.(queue := s.queue[1..], taken := s.taken + [x]);
    match peer
    case None => SetWorker(s'.(retired := Retire(s.retired, [x], WorkerError)), w, s.workers[w].End(ByError))
    case Some(b) =>
      if s.transport.Tcp? then SetWorker(s', w, s.workers[w].(phase := Peeking(x, b)))
      else Spawn(s', w, x, b, Serving)
  }

  /** A failed peek ends the worker; two bytes of a TLS record choose the handshake. */
  function PeekStep(s: State, w: nat, tls: Option<bool>): State
    requires WorkerEnabled(s, w, Peek(tls))
  {
    var p := s.workers[w].phase;
    match tls
    case None => SetWorker(s.(retired := Retire(s.retired, [p.held], WorkerError)), w, s.workers[w].End(ByError))
    case Some(isTls) => Spawn(s, w, p.held, p.addr, if isTls then Handshake else Serving)
  }

  /** `handle.abort()` for one entry of the table, if a task has not removed it meanwhile. */
  function AbortStep(s: State, w: nat, b: Addr): State
    requires WorkerEnabled(s, w, AbortOne(b))
  {
    var v := s.workers[w];
    var s' := SetWorker(s, w, v.(phase := Aborting(v.phase.todo - {b})));
    if b in v.table && v.table[b] < |s.tasks|
    then s'.(tasks := s.tasks[v.table[b] := s.tasks[v.table[b]].(aborted := true)])
    else s'
  }

  function WorkerStep(s: State, w: nat, e: WorkerAction): State
    requires WorkerEnabled(s, w, e)
  {
    var v := s.workers[w];
    match e
    case Begin => SetWorker(s, w, v.Begin())
    case Take(peer) => TakeStep(s, w, peer)
    case Disconnect => SetWorker(s, w, v.End(ByDisconnect))
    case Peek(tls) => PeekStep(s, w, tls)
    case Insert => SetWorker(s, w, v.Record())
    case StopWorker => SetWorker(s.(retired := Retire(s.retired, v.Hand(), WorkerShutdown)), w, v.BeginStop())
    case AbortOne(b) => AbortStep(s, w, b)
    case StopDone => SetWorker(s, w, v.(phase := Finished(ByStop)))
    case Cancel => SetWorker(s.(retired := Retire(s.retired, v.Hand(), WorkerShutdown)), w, v.End(ByCancel))
  }

  // ---------- The connection tasks ----------

  predicate TaskEnabled(s: State, t: nat, k: TaskAction) {
    && t < |s.tasks| && s.tasks[t].worker < |s.workers|
    && var c := s.tasks[t];
       match k
       case Secure(_) => c.phase.Handshake?
       case Serve => c.phase.Serving?
       case Remove => c.phase.Served?
       case Close => c.phase.Serving? && s.workers[c.worker].chan.Resolved(c.seen)
       case Abort => c.Live() && c.aborted
  }

  function TaskAfter(k: TaskAction): TaskPhase {
    match k
    case Secure(ok) => if ok then Serving else Done(HandshakeFailed)
    case Serve => Served
    case Remove => Done(Completed)
    case Close => Done(ClosedBySignal)
    case Abort => Done(Aborted)
  }

  /** Only a connection served to its end takes its entry out of the table. */
  function TaskStep(s: State, t: nat, k: TaskAction): State
    requires TaskEnabled(s, t, k)
  {
    var c := s.tasks[t];
    var s' := s.(tasks := s.tasks[t := c.(phase := TaskAfter(k))]);
    if k.Remove? then SetWorker(s', c.worker, s.workers[c.worker].(table := s.workers[c.worker].table - {c.addr}))
    else s'
  }

  // ---------- All actors ----------

  predicate Enabled(s: State, a: Action) {
    match a
    case ByOwner(o) => OwnerEnabled(s, o)
    case ByDispatcher(d) => DispatcherEnabled(s, d)
    case ByWorker(w, e) => WorkerEnabled(s, w, e)
    case ByTask(t, k) => TaskEnabled(s, t, k)
  }

  function Apply(s: State, a: Action): State
    requires Enabled(s, a)
  {
    match a
    case ByOwner(o) => OwnerStep(s, o)
    case ByDispatcher(d) => DispatcherStep(s, d)
    case ByWorker(w, e) => WorkerStep(s, w, e)
    case ByTask(t, k) => TaskStep(s, t, k)
  }

  /** Whether `acts` can be taken one after the other from `s`. */
  predicate Valid(s: State, acts: seq<Action>)
    decreases |acts|
  {
    acts == [] || (Enabled(s, acts[0]) && Valid(Apply(s, acts[0]), acts[1..]))
  }

  function Run(s: State, acts: seq<Action>): State
    requires Valid(s, acts)
    decreases |acts|
  {
    if acts == [] then s else Run(Apply(s, acts[0]), acts[1..])
  }

  lemma {:induction false} RunConcat(s: State, a: seq<Action>, b: seq<Action>)
    requires Valid(s, a) && Valid(Run(s, a), b)
    ensures Valid(s, a + b) && Run(s, a + b) == Run(Run(s, a), b)
    decreases |a|
  {
    hide Apply, Enabled;
    if a == [] {
      assert a + b == b;
    } else {
      RunConcat(Apply(s, a[0]), a[1..], b);
      assert (a + b)[1..] == a[1..] + b;
    }
  }

  /** One more action at the end of a run that has led from `i` to `s`. */
  lemma RunExtend(i: State, acts: seq<Action>, s: State, a: Action) returns (more: seq<Action>)
    requires Valid(i, acts) && Run(i, acts) == s && Enabled(s, a)
    ensures Valid(i, more) && Run(i, more) == Apply(s, a)
    ensures more == acts + [a]
  {
    more := acts + [a];
    assert Valid(s, [a]) && Run(s, [a]) == Apply(s, a) by {
      hide Enabled, Apply;
      assert [a][1..] == [];
    }
    hide Enabled, Apply;
    RunConcat(i, acts, [a]);
  }

  /** The same, handing back the state reached, for following a concrete run. */
  lemma Follow(i: State, acts: seq<Action>, s: State, a: Action) returns (more: seq<Action>, after: State)
    requires Valid(i, acts) && Run(i, acts) == s && Enabled(s, a)
    ensures Valid(i, more) && Run(i, more) == after && after == Apply(s, a)
  {
    hide Enabled, Apply;
    more := RunExtend(i, acts, s, a);
    after := Apply(s, a);
  }
}
