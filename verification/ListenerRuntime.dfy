/**
 The loops of the dispatcher and of its workers as they are written: `init`, `run` and `stop` of
 the dispatcher, `run` and `stop` of a worker. Each is proved to be a run of the transition system,
 so what holds over all runs holds of them.

 The futures share the queue and the tables through `Arc`, so one object holds their state.
 */
module ListenerRuntime {
  import opened Prelude
  import opened Lifecycle
  import opened LifecycleShape
  import opened LifecycleSafety
  import opened LifecycleProgress

  /** What `accept` answers: a stream, with its QUIC handshake, or an error, with the second `accept`. */
  datatype Answer = Incoming(greeted: bool) | Failed(second: bool) | NoMore

  /** What a worker learns about a stream it received: its peer address and its first two bytes. */
  datatype Wake = Wake(peer: Option<Addr>, tls: Option<bool>)

  /** The dispatcher actions an answer calls for, sends aside. */
  function Words(t: Transport, answer: Answer): seq<Action> {
    match answer
    case Incoming(greeted) => [ByDispatcher(Accept)] + if t.Udp? then [ByDispatcher(Greet(greeted))] else []
    case Failed(second) => [ByDispatcher(AcceptFail), ByDispatcher(if second then LogAccept else LogSkip)]
    case NoMore => [ByDispatcher(EndpointClosed)]
  }

  function Spoken(t: Transport, answers: seq<Answer>): seq<Action> {
    if answers == [] then [] else Spoken(t, answers[..|answers| - 1]) + Words(t, answers[|answers| - 1])
  }

  /** The actions of a run without its sends. */
  function Heard(acts: seq<Action>): seq<Action> {
    if acts == [] then []
    else
      var a := acts[|acts| - 1];
      Heard(acts[..|acts| - 1]) + if a == ByDispatcher(Send) then [] else [a]
  }

  lemma HeardMore(acts: seq<Action>, a: Action)
    ensures Heard(acts + [a]) == Heard(acts) + if a == ByDispatcher(Send) then [] else [a]
  {
    assert (acts + [a])[..|acts|] == acts;
  }

  /** The actions of a worker for one stream. */
  function Turn(t: Transport, w: nat, wake: Wake): seq<Action> {
    [ByWorker(w, Take(wake.peer))] +
    if wake.peer.None? then []
    else if t.Udp? then [ByWorker(w, Insert)]
    else [ByWorker(w, Peek(wake.tls))] + if wake.tls.None? then [] else [ByWorker(w, Insert)]
  }

  function Turns(t: Transport, w: nat, wakes: seq<Wake>): seq<Action> {
    if wakes == [] then [] else Turns(t, w, wakes[..|wakes| - 1]) + Turn(t, w, wakes[|wakes| - 1])
  }

  lemma JoiningShape(v0: State, acts: seq<Action>, w: nat)
    requires Shape(v0) && Valid(v0, acts) && Run(v0, acts).disp.Joining? && w < |Run(v0, acts).workers|
    ensures WorkerShape(Joining, Run(v0, acts).workers[w]) && Run(v0, acts).workerChan.Resolved(0)
  {
    RunKeepsShape(v0, acts);
  }

  lemma {:induction false} NoArrivals(acts: seq<Action>)
    requires AllOwn(acts)
    ensures Arrivals(acts) == 0
  {
    if acts != [] {
      assert Own(acts[0]);
      assert AllOwn(acts[1..]) by {
        assert forall i :: 0 <= i < |acts| - 1 ==> acts[1..][i] == acts[i + 1];
      }
      NoArrivals(acts[1..]);
    }
  }

  class Runtime {
    const transport: Transport
    const workersCfg: nat
    const capacity: nat
    var owner: Owner
    var listenerChan: Watch
    var disp: DispatcherPhase
    var signal: bool
    var workerChan: Watch
    var queue: seq<Stream>
    var workers: seq<Worker>
    var tasks: seq<Task>
    var accepted: nat
    ghost var sent: seq<Stream>
    ghost var taken: seq<Stream>
    ghost var retired: seq<Retirement>

    ghost function View(): State
      reads this
    {
      State(transport, workersCfg, capacity, owner, listenerChan, disp, signal, workerChan, queue, workers, tasks,
            accepted, sent, taken, retired)
    }

    constructor (transport: Transport, workersCfg: nat, capacity: nat)
      ensures View() == Init(transport, workersCfg, capacity)
    {
      this.transport, this.workersCfg, this.capacity := transport, workersCfg, capacity;
      owner, listenerChan, disp := Up, Watch(0, 1), Unstarted;
      signal, workerChan := false, Watch(0, 0);
      queue, workers, tasks, accepted := [], [], [], 0;
      sent, taken, retired := [], [], [];
    }

    /** The dispatcher's `init`, called first thing in `run`: a failed TLS set-up leaves no worker. */
    method InitWorkers(tlsOk: bool)
      requires DispatcherEnabled(View(), Start(tlsOk)) && workers == []
      modifies this
      ensures View() == Apply(old(View()), ByDispatcher(Start(tlsOk)))
      ensures |workers| == (if tlsOk then workersCfg else 0) && forall w :: 0 <= w < |workers| ==> workers[w] == NewWorker()
    {
      if tlsOk {
        var spawned: seq<Worker> := [];
        for n := 0 to workersCfg
          invariant |spawned| == n && forall i :: 0 <= i < n ==> spawned[i] == NewWorker()
          invariant View() == old(View())
        {
          spawned := spawned + [NewWorker()];
        }
        workers := spawned;
        workerChan := Watch(0, 1);
        signal := true;
      }
      disp := Accepting;
      assert tlsOk ==> workers == seq(workersCfg, _ => NewWorker());
    }

    /** `listener.accept()` has a stream. */
    method TakeIncoming()
      requires disp.Accepting?
      modifies this
      ensures View() == Apply(old(View()), ByDispatcher(Accept))
    {
      disp := if transport.Tcp? then Sending(accepted) else Greeting(accepted);
      accepted := accepted + 1;
    }

    /** The QUIC handshake: a failure returns from `run`, which drops the dispatcher. */
    method FinishGreeting(greeted: bool)
      requires disp.Greeting?
      modifies this
      ensures View() == Apply(old(View()), ByDispatcher(Greet(greeted)))
    {
      if greeted {
        disp := Sending(disp.conn);
      } else {
        retired := Retire(retired, disp.Hand(), GreetingFailed);
        disp := Unwinding(false);
        signal := false;
        workerChan := workerChan.(senders := 0);
      }
    }

    /** `sender.send(stream)` once the queue has room. */
    method SendHeld()
      requires disp.Sending? && |queue| < capacity
      modifies this
      ensures View() == Apply(old(View()), ByDispatcher(Send))
    {
      queue := queue + [disp.conn];
      sent := sent + [disp.conn];
      disp := Accepting;
    }

    /** One accepted stream: the QUIC handshake if there is one, then the send if there is room. */
    method OnIncoming(greeted: bool, ghost v0: State, ghost acts: seq<Action>) returns (ghost more: seq<Action>)
      requires disp.Accepting? && Valid(v0, acts) && View() == Run(v0, acts)
      modifies this
      ensures Valid(v0, more) && View() == Run(v0, more)
      ensures Heard(more) == Heard(acts) + Words(transport, Incoming(greeted))
      ensures disp.Accepting? || (disp.Sending? && |queue| >= capacity) || disp.Unwinding?
    {
      hide Valid, Run, Heard;
      HeardMore(acts, ByDispatcher(Accept));
      more := RunExtend(v0, acts, View(), ByDispatcher(Accept));
      TakeIncoming();
      if disp.Greeting? {
        HeardMore(more, ByDispatcher(Greet(greeted)));
        more := RunExtend(v0, more, View(), ByDispatcher(Greet(greeted)));
        FinishGreeting(greeted);
      }
      if disp.Sending? && |queue| < capacity {
        HeardMore(more, ByDispatcher(Send));
        more := RunExtend(v0, more, View(), ByDispatcher(Send));
        SendHeld();
      }
    }

    /** A failed `accept`: the log call accepts once more and drops what it gets. */
    method OnFailed(second: bool, ghost v0: State, ghost acts: seq<Action>) returns (ghost more: seq<Action>)
      requires transport.Tcp? && disp.Accepting? && Valid(v0, acts) && View() == Run(v0, acts)
      modifies this
      ensures Valid(v0, more) && View() == Run(v0, more)
      ensures Heard(more) == Heard(acts) + Words(transport, Failed(second))
      ensures disp.Accepting?
    {
      hide Valid, Run, Heard;
      HeardMore(acts, ByDispatcher(AcceptFail));
      more := RunExtend(v0, acts, View(), ByDispatcher(AcceptFail));
      disp := Logging;
      HeardMore(more, ByDispatcher(if second then LogAccept else LogSkip));
      if second {
        more := RunExtend(v0, more, View(), ByDispatcher(LogAccept));
        retired := Retire(retired, [accepted], Discarded);
        accepted := accepted + 1;
      } else {
        more := RunExtend(v0, more, View(), ByDispatcher(LogSkip));
      }
      disp := Accepting;
    }

    /**
     The accept loop of `run`, until it has used its answers, must wait for room in the queue, or
     has ended.
     */
    method AcceptLoop(answers: seq<Answer>) returns (used: nat, ghost acts: seq<Action>)
      requires disp.Accepting?
      requires forall i :: 0 <= i < |answers| ==>
                 (answers[i].Failed? ==> transport.Tcp?) && (answers[i].NoMore? ==> transport.Udp?)
      modifies this
      ensures Valid(old(View()), acts) && View() == Run(old(View()), acts)
      ensures used <= |answers| && Heard(acts) == Spoken(transport, answers[..used])
      ensures disp.Accepting? ==> used == |answers|
      ensures disp.Accepting? || (disp.Sending? && |queue| >= capacity) || disp.Unwinding? || disp.Draining?
    {
      used := 0;
      acts := [];
      ghost var v0 := View();
      while used < |answers| && disp.Accepting?
        invariant used <= |answers| && Heard(acts) == Spoken(transport, answers[..used])
        invariant Valid(v0, acts) && View() == Run(v0, acts)
        invariant disp.Accepting? || (disp.Sending? && |queue| >= capacity) || disp.Unwinding? || disp.Draining?
      {
        var answer := answers[used];
        assert answers[..used + 1][..used] == answers[..used];
        used := used + 1;
        match answer {
          case Incoming(greeted) =>
            acts := OnIncoming(greeted, v0, acts);
          case Failed(second) =>
            acts := OnFailed(second, v0, acts);
          case NoMore =>
            HeardMore(acts, ByDispatcher(EndpointClosed));
            acts := RunExtend(v0, acts, View(), ByDispatcher(EndpointClosed));
            disp := Draining;
        }
      }
    }

    /** `recv` finds no sender: the loop ends and both senders of the worker's channel go with it. */
    method Disconnected(w: nat)
      requires WorkerEnabled(View(), w, Disconnect)
      modifies this`workers
      ensures View() == Apply(old(View()), ByWorker(w, Disconnect))
      ensures w < |workers| && workers[w].phase == Finished(ByDisconnect)
    {
      workers := workers[w := workers[w].End(ByDisconnect)];
    }

    method SpawnTask(w: nat, x: Stream, b: Addr, phase: TaskPhase)
      requires w < |workers|
      modifies this
      ensures View() == Spawn(old(View()), w, x, b, phase)
    {
      tasks := tasks + [Task(w, x, b, phase, workers[w].chan.version, false)];
      workers := workers[w := workers[w].(phase := Inserting(|tasks| - 1, b))];
    }

    /** `receiver.recv()` and `peer_addr()`; QUIC connections are spawned at once. */
    method Receive(w: nat, peer: Option<Addr>)
      requires WorkerEnabled(View(), w, Take(peer))
      modifies this
      ensures View() == Apply(old(View()), ByWorker(w, Take(peer)))
      ensures taken == old(taken) + [old(queue)[0]] && w < |workers|
      ensures match workers[w].phase
              case Peeking(x, _) =>
                transport.Tcp? && peer.Some? && x == old(queue)[0] && tasks == old(tasks)
              case Inserting(_, _) =>
                transport.Udp? && peer.Some? && Streams(tasks) == old(Streams(tasks)) + [old(queue)[0]]
              case Finished(how) => how.ByError? && peer.None?
              case _ => false
    {
      var x := queue[0];
      queue := queue[1..];
      taken := taken + [x];
      match peer {
        case None =>
          retired := Retire(retired, [x], WorkerError);
          workers := workers[w := workers[w].End(ByError)];
        case Some(b) =>
          if transport.Tcp? {
            workers := workers[w := workers[w].(phase := Peeking(x, b))];
          } else {
            SpawnTask(w, x, b, Serving);
          }
      }
    }

    /** `peek`: a failure ends the worker, two bytes of a TLS record choose the handshake. */
    method Peeked(w: nat, tls: Option<bool>)
      requires WorkerEnabled(View(), w, Peek(tls))
      modifies this
      ensures View() == Apply(old(View()), ByWorker(w, Peek(tls)))
      ensures taken == old(taken) && w < |workers|
      ensures match workers[w].phase
              case Inserting(_, _) =>
                tls.Some? && Streams(tasks) == old(Streams(tasks)) + [old(workers[w].phase.held)]
              case Finished(how) => how.ByError? && tls.None?
              case _ => false
    {
      var p := workers[w].phase;
      match tls {
        case None =>
          retired := Retire(retired, [p.held], WorkerError);
          workers := workers[w := workers[w].End(ByError)];
        case Some(isTls) => SpawnTask(w, p.held, p.addr, if isTls then Handshake else Serving);
      }
    }

    /** `connections.insert(client_addr, handle)`. */
    method Recorded(w: nat)
      requires WorkerEnabled(View(), w, Insert)
      modifies this
      ensures View() == Apply(old(View()), ByWorker(w, Insert))
      ensures taken == old(taken) && tasks == old(tasks) && disp == old(disp) && workerChan == old(workerChan)
      ensures |workers| == |old(workers)| && workers[w].phase.Receiving?
      ensures workers[w].joined == old(workers[w].joined)
      ensures forall i :: 0 <= i < |workers| && i != w ==> workers[i] == old(workers[i])
    {
      workers := workers[w := workers[w].Record()];
    }

    /** One iteration of a worker's loop, from the stream received to the handle recorded. */
    method OnReceived(w: nat, wake: Wake, ghost v0: State, ghost acts: seq<Action>) returns (ghost more: seq<Action>)
      requires WorkerEnabled(View(), w, Take(wake.peer))
      requires Valid(v0, acts) && View() == Run(v0, acts)
      modifies this
      ensures Valid(v0, more) && View() == Run(v0, more)
      ensures more == acts + Turn(transport, w, wake)
      ensures |taken| == |old(taken)| + 1 && taken[..|old(taken)|] == old(taken)
      ensures w < |workers| && (workers[w].phase.Receiving? || workers[w].phase == Finished(ByError))
      ensures workers[w].phase.Receiving? ==>
                Streams(tasks) == old(Streams(tasks)) + [taken[|old(taken)|]]
    {
      hide Valid, Run, Apply, Streams;
      more := RunExtend(v0, acts, View(), ByWorker(w, Take(wake.peer)));
      Receive(w, wake.peer);
      if workers[w].phase.Peeking? {
        more := RunExtend(v0, more, View(), ByWorker(w, Peek(wake.tls)));
        Peeked(w, wake.tls);
      }
      if workers[w].phase.Inserting? {
        more := RunExtend(v0, more, View(), ByWorker(w, Insert));
        Recorded(w);
      }
    }

    /**
     A worker's `run` from one poll: take, peek and spawn until the queue is empty or a peek fails. An
     empty queue ends the loop if the dispatcher, and its sender with it, is gone.
     */
    method WorkerLoop(w: nat, wakes: seq<Wake>) returns (used: nat, ghost acts: seq<Action>)
      requires w < |workers| && workers[w].phase.Receiving?
      requires forall i :: 0 <= i < |wakes| ==> transport.Udp? ==> wakes[i].peer.Some?
      modifies this
      ensures Valid(old(View()), acts) && View() == Run(old(View()), acts)
      ensures used <= |wakes| && |taken| == |old(taken)| + used && w < |workers|
      ensures acts == Turns(transport, w, wakes[..used])
                      + if workers[w].phase == Finished(ByDisconnect) then [ByWorker(w, Disconnect)] else []
      ensures workers[w].phase.Receiving? || workers[w].phase in {Finished(ByError), Finished(ByDisconnect)}
      ensures workers[w].phase.Receiving? ==> if queue == [] then !disp.Ended? else used == |wakes|
      ensures workers[w].phase == Finished(ByDisconnect) ==> queue == [] && disp.Ended?
      ensures workers[w].phase != Finished(ByError) ==> Streams(tasks) == old(Streams(tasks)) + taken[|old(taken)|..]
    {
      used := 0;
      acts := [];
      ghost var v0 := View();
      assert Valid(v0, acts) && Run(v0, acts) == v0;
      assert Streams(tasks) == Streams(v0.tasks) + taken[|v0.taken|..];
      hide Valid, Run, Streams;
      while used < |wakes| && queue != [] && workers[w].phase.Receiving?
        invariant used <= |wakes| && acts == Turns(transport, w, wakes[..used])
        invariant Valid(v0, acts) && View() == Run(v0, acts)
        invariant |taken| == |v0.taken| + used && w < |workers|
        invariant workers[w].phase.Receiving? || workers[w].phase == Finished(ByError)
        invariant workers[w].phase.Receiving? ==>
                    Streams(tasks) == Streams(v0.tasks) + taken[|v0.taken|..]
        decreases |wakes| - used
      {
        ghost var before := taken;
        assert wakes[..used + 1][..used] == wakes[..used];
        acts := OnReceived(w, wakes[used], v0, acts);
        assert taken[|v0.taken|..] == before[|v0.taken|..] + [taken[|before|]];
        used := used + 1;
      }
      if workers[w].phase.Receiving? && queue == [] && disp.Ended? {
        acts := RunExtend(v0, acts, View(), ByWorker(w, Disconnect));
        Disconnected(w);
      }
    }

    method AbortHandle(w: nat, b: Addr)
      requires WorkerEnabled(View(), w, AbortOne(b))
      modifies this
      ensures View() == Apply(old(View()), ByWorker(w, AbortOne(b)))
      ensures workers == old(workers[w := workers[w].(phase := Aborting(workers[w].phase.todo - {b}))])
      ensures |tasks| == |old(tasks)| && disp == old(disp)
      ensures forall t :: 0 <= t < |tasks| && old(tasks[t].aborted) ==> tasks[t].aborted
      ensures b in workers[w].table && workers[w].table[b] < |tasks| ==> tasks[workers[w].table[b]].aborted
    {
      var v := workers[w];
      workers := workers[w := v.(phase := Aborting(v.phase.todo - {b}))];
      if b in v.table && v.table[b] < |tasks| {
        tasks := tasks[v.table[b] := tasks[v.table[b]].(aborted := true)];
      }
    }

    /** `for handle in connections.values() { handle.abort(); }`, from wherever it stands. */
    method AbortAll(w: nat, ghost v0: State, ghost acts: seq<Action>) returns (ghost more: seq<Action>)
      requires w < |workers| && workers[w].phase.Aborting?
      requires Valid(v0, acts) && View() == Run(v0, acts) && AllOwn(acts)
      modifies this
      ensures Valid(v0, more) && View() == Run(v0, more) && AllOwn(more)
      ensures |workers| == |old(workers)| && workers[w].phase == Finished(ByStop) && disp == old(disp)
      ensures workers[w].joined == old(workers[w].joined)
      ensures forall i :: 0 <= i < |workers| && i != w ==> workers[i] == old(workers[i])
      ensures |tasks| == |old(tasks)|
      ensures var v := old(workers[w]);
              forall b :: b in v.phase.todo && b in v.table && v.table[b] < |tasks| ==> tasks[v.table[b]].aborted
    {
      hide Valid, Run;
      more := acts;
      ghost var v := workers[w];
      while workers[w].phase.todo != {}
        invariant Valid(v0, more) && View() == Run(v0, more) && AllOwn(more)
        invariant |workers| == |old(workers)| && workers[w].phase.Aborting? && workers[w].table == v.table
        invariant workers[w].joined == v.joined
        invariant forall i :: 0 <= i < |workers| && i != w ==> workers[i] == old(workers[i])
        invariant |tasks| == |old(tasks)| && disp == old(disp)
        invariant workers[w].phase.todo <= v.phase.todo
        invariant forall b :: b in v.phase.todo - workers[w].phase.todo && b in v.table && v.table[b] < |tasks|
                              ==> tasks[v.table[b]].aborted
        decreases |workers[w].phase.todo|
      {
        hide Apply;
        var b :| b in workers[w].phase.todo;
        more := RunExtend(v0, more, View(), ByWorker(w, AbortOne(b)));
        AbortHandle(w, b);
      }
      more := RunExtend(v0, more, View(), ByWorker(w, StopDone));
      workers := workers[w := workers[w].(phase := Finished(ByStop))];
    }

    /** A worker's `stop`: signal, drop both senders, then abort every handle in the table. */
    method WorkerStop(w: nat, ghost v0: State, ghost acts: seq<Action>) returns (ghost more: seq<Action>)
      requires WorkerEnabled(View(), w, StopWorker) && Valid(v0, acts) && View() == Run(v0, acts) && AllOwn(acts)
      modifies this
      ensures Valid(v0, more) && View() == Run(v0, more) && AllOwn(more)
      ensures w < |workers| && workers[w].phase == Finished(ByStop) && disp == old(disp)
      ensures workers[w].joined == old(workers[w].joined)
      ensures |workers| == |old(workers)| && forall i :: 0 <= i < |workers| && i != w ==> workers[i] == old(workers[i])
      ensures |tasks| == |old(tasks)|
      ensures var table := old(workers[w].table);
              !old(workers[w].phase.NotPolled?) ==>
                forall b :: b in table && table[b] < |tasks| ==> tasks[table[b]].aborted
    {
      hide Valid, Run;
      more := RunExtend(v0, acts, View(), ByWorker(w, StopWorker));
      retired := Retire(retired, workers[w].Hand(), WorkerShutdown);
      workers := workers[w := workers[w].BeginStop()];
      if workers[w].phase.Aborting? {
        more := AbortAll(w, v0, more);
      }
    }

    /** The shutdown branch of a worker's `select!`, taken as soon as its current block has ended. */
    method FinishWorker(w: nat, ghost v0: State, ghost acts: seq<Action>) returns (ghost more: seq<Action>)
      requires disp.Joining? && w < |workers| && !workers[w].phase.Finished? && WorkerShape(disp, workers[w])
      requires workerChan.Resolved(0)
      requires Valid(v0, acts) && View() == Run(v0, acts) && AllOwn(acts)
      modifies this
      ensures Valid(v0, more) && View() == Run(v0, more) && AllOwn(more)
      ensures disp.Joining? && |workers| == |old(workers)| && workers[w].phase.Finished?
      ensures workers[w].joined == old(workers[w].joined)
      ensures forall i :: 0 <= i < |workers| && i != w ==> workers[i] == old(workers[i])
    {
      hide Valid, Run;
      more := acts;
      if workers[w].phase.Inserting? {
        more := RunExtend(v0, more, View(), ByWorker(w, Insert));
        Recorded(w);
      }
      if workers[w].phase.Aborting? {
        more := AbortAll(w, v0, more);
      } else {
        more := WorkerStop(w, v0, more);
      }
    }

    method BeginStop()
      requires DispatcherEnabled(View(), Halt)
      modifies this
      ensures View() == Apply(old(View()), ByDispatcher(Halt)) && disp.Joining?
    {
      retired := Retire(retired, disp.Hand(), DispatcherShutdown);
      if signal {
        workerChan := Watch(workerChan.version + 1, 0);
      }
      signal := false;
      disp := Joining;
    }

    method EndStop()
      requires disp.Joining? && AllJoined(workers)
      modifies this
      ensures View() == Apply(old(View()), ByDispatcher(JoinDone)) && disp == Ended(true) && workers == old(workers)
    {
      disp := Ended(true);
    }

    ghost function Unjoined(): set<nat>
      reads this
    {
      set w: nat | w < |workers| && !workers[w].joined
    }

    /** `join_next` resolves with worker `w`, which first runs to its end if it has not yet. */
    method JoinNext(w: nat, ghost v0: State, ghost acts: seq<Action>) returns (ghost more: seq<Action>)
      requires Shape(v0) && Valid(v0, acts) && View() == Run(v0, acts) && AllOwn(acts)
      requires disp.Joining? && w < |workers| && !workers[w].joined
      modifies this
      ensures Valid(v0, more) && View() == Run(v0, more) && AllOwn(more)
      ensures disp.Joining? && |workers| == |old(workers)| && workers[w].joined
      ensures forall i :: 0 <= i < |workers| && i != w ==> workers[i] == old(workers[i])
    {
      JoiningShape(v0, acts, w);
      hide Valid, Run, Shape;
      more := acts;
      if !workers[w].phase.Finished? {
        more := FinishWorker(w, v0, more);
      }
      more := RunExtend(v0, more, View(), ByDispatcher(Join(w)));
      workers := workers[w := workers[w].(joined := true)];
    }

    /** `while let Some(handle) = workers.join_next().await`. */
    method JoinLoop(ghost v0: State, ghost acts: seq<Action>) returns (ghost more: seq<Action>)
      requires Shape(v0) && Valid(v0, acts) && View() == Run(v0, acts) && AllOwn(acts)
      requires disp.Joining?
      modifies this
      ensures Valid(v0, more) && View() == Run(v0, more) && AllOwn(more)
      ensures disp.Joining? && AllJoined(workers)
    {
      hide Valid, Run, Shape;
      more := acts;
      ghost var left := Unjoined();
      while exists w :: 0 <= w < |workers| && !workers[w].joined
        invariant Valid(v0, more) && View() == Run(v0, more) && AllOwn(more)
        invariant disp.Joining? && left == Unjoined()
        decreases left
      {
        var w :| 0 <= w < |workers| && !workers[w].joined;
        more := JoinNext(w, v0, more);
        assert Unjoined() == left - {w} && w in left;
        left := Unjoined();
      }
    }

    /**
     The dispatcher's `stop`: signal the workers, then join until none is left. Which worker ends
     next is up to the scheduler. It returns with every worker joined, after at most as many
     actions as there was work.
     */
    method DispatcherStop() returns (ghost acts: seq<Action>)
      requires Shape(View()) && DispatcherEnabled(View(), Halt)
      modifies this
      ensures Valid(old(View()), acts) && View() == Run(old(View()), acts) && AllOwn(acts)
      ensures |acts| + Work(View()) <= Work(old(View()))
      ensures disp == Ended(true) && AllJoined(workers)
    {
      ghost var v0 := View();
      acts := [];
      assert Valid(v0, acts) && Run(v0, acts) == v0;
      hide Shape, Work, Valid, Run, Apply;
      acts := RunExtend(v0, acts, View(), ByDispatcher(Halt));
      BeginStop();
      acts := JoinLoop(v0, acts);
      acts := RunExtend(v0, acts, View(), ByDispatcher(JoinDone));
      EndStop();
      RunLength(v0, acts);
      NoArrivals(acts);
    }
  }
}
