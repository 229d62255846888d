/** Concrete runs: those in which a listener does not do what it should, and some ends of its life. */
module LifecycleRuns {
  import opened Prelude
  import opened Lifecycle
  import opened LifecycleShape
  import opened LifecycleOrder
  import opened LifecycleHandOff

  // ---------- A run that loses a handle ----------

  function Start0(): State {
    Init(Tcp, 1, 1)
  }

  /** A running listener with one worker in phase `phase` and `n` streams accepted and taken. */
  function Scene(phase: WorkerPhase, table: map<Addr, nat>, tasks: seq<Task>, line: seq<Stream>): State {
    Start0().(disp := Accepting, signal := true, workerChan := Watch(0, 1),
              workers := [Worker(phase, table, Watch(0, 2), false, false)],
              tasks := tasks, accepted := |line|, sent := line, taken := line)
  }

  /** The first stream in the dispatcher's hand, the worker not yet polled. */
  function FirstAccepted(): State {
    Scene(NotPolled, map[], [], []).(workers := [NewWorker()], disp := Sending(0), accepted := 1)
  }

  /** One connection served but not yet removed, with its handle in the table. */
  function FirstServed(): State {
    Scene(Receiving, map[7 := 0], [Task(0, 0, 7, Served, 0, false)], [0])
  }

  /** The same peer is back, and the worker peeks at its second connection. */
  function SecondTaken(): State {
    Scene(Peeking(1, 7), map[7 := 0], [Task(0, 0, 7, Served, 0, false)], [0, 1])
  }

  /** The first task has removed the handle of the second. */
  function HandleLost(): State {
    Scene(Receiving, map[], [Task(0, 0, 7, Done(Completed), 0, false), Task(0, 1, 7, Handshake, 0, false)], [0, 1])
  }

  lemma Opening(acts: seq<Action>) returns (more: seq<Action>)
    requires Valid(Start0(), acts) && Run(Start0(), acts) == Start0()
    ensures Valid(Start0(), more) && Run(Start0(), more) == FirstAccepted()
  {
    hide Valid, Run;
    var s := Start0();
    more := acts;
    more, s := Follow(Start0(), more, s, ByDispatcher(Start(true)));
    more, s := Follow(Start0(), more, s, ByDispatcher(Accept));
    assert s == FirstAccepted();
  }

  lemma FirstTaken(acts: seq<Action>) returns (more: seq<Action>)
    requires Valid(Start0(), acts) && Run(Start0(), acts) == FirstAccepted()
    ensures Valid(Start0(), more) && Run(Start0(), more) == Scene(Peeking(0, 7), map[], [], [0])
  {
    hide Valid, Run;
    var s := FirstAccepted();
    more := acts;
    more, s := Follow(Start0(), more, s, ByDispatcher(Send));
    more, s := Follow(Start0(), more, s, ByWorker(0, Begin));
    more, s := Follow(Start0(), more, s, ByWorker(0, Take(Some(7))));
    assert s == Scene(Peeking(0, 7), map[], [], [0]);
  }

  lemma FirstConnection(acts: seq<Action>) returns (more: seq<Action>)
    requires Valid(Start0(), acts) && Run(Start0(), acts) == Scene(Peeking(0, 7), map[], [], [0])
    ensures Valid(Start0(), more) && Run(Start0(), more) == FirstServed()
  {
    hide Valid, Run;
    var s := Scene(Peeking(0, 7), map[], [], [0]);
    more := acts;
    more, s := Follow(Start0(), more, s, ByWorker(0, Peek(Some(false))));
    more, s := Follow(Start0(), more, s, ByWorker(0, Insert));
    more, s := Follow(Start0(), more, s, ByTask(0, Serve));
    assert s == FirstServed();
  }

  lemma SamePeerAgain(acts: seq<Action>) returns (more: seq<Action>)
    requires Valid(Start0(), acts) && Run(Start0(), acts) == FirstServed()
    ensures Valid(Start0(), more) && Run(Start0(), more) == SecondTaken()
  {
    hide Valid, Run;
    var s := FirstServed();
    more := acts;
    more, s := Follow(Start0(), more, s, ByDispatcher(Accept));
    more, s := Follow(Start0(), more, s, ByDispatcher(Send));
    more, s := Follow(Start0(), more, s, ByWorker(0, Take(Some(7))));
    assert s == SecondTaken();
  }

  lemma RemoveTooLate(acts: seq<Action>) returns (more: seq<Action>)
    requires Valid(Start0(), acts) && Run(Start0(), acts) == SecondTaken()
    ensures Valid(Start0(), more) && Run(Start0(), more) == HandleLost()
  {
    hide Valid, Run;
    var s := SecondTaken();
    more := acts;
    more, s := Follow(Start0(), more, s, ByWorker(0, Peek(Some(true))));
    more, s := Follow(Start0(), more, s, ByWorker(0, Insert));
    more, s := Follow(Start0(), more, s, ByTask(0, Remove));
    assert s == HandleLost();
  }

  function Stopped0(phase: WorkerPhase, disp: DispatcherPhase): State {
    HandleLost().(owner := Stopping, listenerChan := Watch(1, 1), disp := disp, signal := false, workerChan := Watch(1, 0),
                  workers := [Worker(phase, map[], Watch(1, 0), false, false)])
  }

  lemma OwnerStops(acts: seq<Action>) returns (more: seq<Action>)
    requires Valid(Start0(), acts) && Run(Start0(), acts) == HandleLost()
    ensures Valid(Start0(), more) && Run(Start0(), more) == Stopped0(Aborting({}), Joining)
  {
    hide Valid, Run;
    var s := HandleLost();
    more := acts;
    more, s := Follow(Start0(), more, s, ByOwner(OwnerStop));
    more, s := Follow(Start0(), more, s, ByDispatcher(Halt));
    more, s := Follow(Start0(), more, s, ByWorker(0, StopWorker));
    assert s.retired == [];
    assert s.workers[0].phase.todo == {};
    assert s.workers == [s.workers[0]];
    assert s == Stopped0(Aborting({}), Joining);
  }

  lemma OwnerReturns(acts: seq<Action>) returns (more: seq<Action>)
    requires Valid(Start0(), acts) && Run(Start0(), acts) == Stopped0(Aborting({}), Joining)
    ensures Valid(Start0(), more)
    ensures var s := Run(Start0(), more);
            && s.owner.Stopped? && |s.workers| == 1 && s.workers[0].phase == Finished(ByStop)
            && s.tasks == HandleLost().tasks
  {
    hide Valid, Run;
    var s := Stopped0(Aborting({}), Joining);
    more := acts;
    more, s := Follow(Start0(), more, s, ByWorker(0, StopDone));
    more, s := Follow(Start0(), more, s, ByDispatcher(Join(0)));
    more, s := Follow(Start0(), more, s, ByDispatcher(JoinDone));
    more, s := Follow(Start0(), more, s, ByOwner(OwnerJoin));
  }

  /**
   The peer connects again from the same address before the first task has run its `remove`. That
   `remove` then takes out the handle of the second task, and the owner's `stop` returns although
   the second task is still in its handshake, with nothing left that would end it.
   */
  lemma StopCanMissALiveTask() returns (acts: seq<Action>)
    ensures Valid(Init(Tcp, 1, 1), acts)
    ensures var s := Run(Init(Tcp, 1, 1), acts);
            && s.owner.Stopped? && |s.workers| == 1 && s.workers[0].phase == Finished(ByStop)
            && |s.tasks| == 2 && s.tasks[1].phase.Handshake?
            && !TaskEnabled(s, 1, Abort) && !TaskEnabled(s, 1, Close)
  {
    acts := [];
    acts := Opening(acts);
    acts := FirstTaken(acts);
    acts := FirstConnection(acts);
    acts := SamePeerAgain(acts);
    acts := RemoveTooLate(acts);
    acts := OwnerStops(acts);
    acts := OwnerReturns(acts);
  }

  // ---------- Handles of tasks that have ended ----------

  /** A failed TLS handshake skips the removal, so its handle stays in the table. */
  lemma FailedHandshakeStays() returns (acts: seq<Action>)
    ensures Valid(Init(Tcp, 1, 1), acts)
    ensures var s := Run(Init(Tcp, 1, 1), acts);
            && |s.workers| == 1 && s.workers[0].phase.Receiving? && s.workers[0].table == map[7 := 0]
            && |s.tasks| == 1 && s.tasks[0].phase == Done(HandshakeFailed)
  {
    acts := [];
    acts := Opening(acts);
    acts := FirstTaken(acts);
    var s := Scene(Peeking(0, 7), map[], [], [0]);
    hide Valid, Run;
    acts, s := Follow(Start0(), acts, s, ByWorker(0, Peek(Some(true))));
    acts, s := Follow(Start0(), acts, s, ByWorker(0, Insert));
    acts, s := Follow(Start0(), acts, s, ByTask(0, Secure(false)));
  }

  /** A task that removes its address before the worker has recorded it leaves its handle behind. */
  lemma RemovedBeforeInserted() returns (acts: seq<Action>)
    ensures Valid(Init(Tcp, 1, 1), acts)
    ensures var s := Run(Init(Tcp, 1, 1), acts);
            && |s.workers| == 1 && s.workers[0].phase.Receiving? && s.workers[0].table == map[7 := 0]
            && |s.tasks| == 1 && s.tasks[0].phase == Done(Completed)
  {
    acts := [];
    acts := Opening(acts);
    acts := FirstTaken(acts);
    var s := Scene(Peeking(0, 7), map[], [], [0]);
    hide Valid, Run;
    acts, s := Follow(Start0(), acts, s, ByWorker(0, Peek(Some(false))));
    acts, s := Follow(Start0(), acts, s, ByTask(0, Serve));
    acts, s := Follow(Start0(), acts, s, ByTask(0, Remove));
    acts, s := Follow(Start0(), acts, s, ByWorker(0, Insert));
  }

  // ---------- A shutdown under a served connection ----------

  /** One TLS connection being served, and a worker that has been told to stop. */
  function ServedUnderStop(): State {
    Scene(Receiving, map[], [], [0])
    .(disp := Joining, signal := false, workerChan := Watch(1, 0), owner := Stopping, listenerChan := Watch(1, 1),
      workers := [Worker(Aborting({7}), map[7 := 0], Watch(1, 0), false, false)],
      tasks := [Task(0, 0, 7, Serving, 0, false)])
  }

  lemma TlsServedThenStopped(acts: seq<Action>) returns (more: seq<Action>)
    requires Valid(Start0(), acts) && Run(Start0(), acts) == Scene(Peeking(0, 7), map[], [], [0])
    ensures Valid(Start0(), more) && Run(Start0(), more) == ServedUnderStop()
  {
    hide Valid, Run;
    var s := Scene(Peeking(0, 7), map[], [], [0]);
    more := acts;
    more, s := Follow(Start0(), more, s, ByWorker(0, Peek(Some(true))));
    more, s := Follow(Start0(), more, s, ByWorker(0, Insert));
    more, s := Follow(Start0(), more, s, ByTask(0, Secure(true)));
    more, s := Follow(Start0(), more, s, ByOwner(OwnerStop));
    more, s := Follow(Start0(), more, s, ByDispatcher(Halt));
    more, s := Follow(Start0(), more, s, ByWorker(0, StopWorker));
    assert s.retired == [];
    assert s.workers[0].table == map[7 := 0] && s.workers[0].phase.todo == {7};
    assert s == ServedUnderStop();
  }

  /** The worker has aborted the connection's handle, and the connection goes on until it is polled. */
  function MarkedUnderStop(phase: WorkerPhase, task: TaskPhase): State {
    ServedUnderStop()
    .(workers := [Worker(phase, map[7 := 0], Watch(1, 0), false, false)], tasks := [Task(0, 0, 7, task, 0, true)])
  }

  lemma HandleAborted(acts: seq<Action>) returns (more: seq<Action>)
    requires Valid(Start0(), acts) && Run(Start0(), acts) == ServedUnderStop()
    ensures Valid(Start0(), more) && Run(Start0(), more) == MarkedUnderStop(Finished(ByStop), Serving)
  {
    hide Valid, Run;
    var s := ServedUnderStop();
    more := acts;
    more, s := Follow(Start0(), more, s, ByWorker(0, AbortOne(7)));
    assert s.workers[0].phase == Aborting({});
    assert s == MarkedUnderStop(Aborting({}), Serving);
    more, s := Follow(Start0(), more, s, ByWorker(0, StopDone));
  }

  /** The connection ends by the signal although its handle is aborted too; nothing is drained. */
  lemma StopClosesAServedConnection() returns (acts: seq<Action>)
    ensures Valid(Init(Tcp, 1, 1), acts)
    ensures var s := Run(Init(Tcp, 1, 1), acts);
            && s.owner.Stopping? && |s.workers| == 1 && s.workers[0].phase == Finished(ByStop)
            && |s.tasks| == 1 && s.tasks[0].phase == Done(ClosedBySignal) && s.tasks[0].aborted
  {
    acts := [];
    acts := Opening(acts);
    acts := FirstTaken(acts);
    acts := TlsServedThenStopped(acts);
    acts := HandleAborted(acts);
    var s := MarkedUnderStop(Finished(ByStop), Serving);
    hide Valid, Run;
    acts, s := Follow(Start0(), acts, s, ByTask(0, Close));
  }

  /** The same connection may as well end by the abort. */
  lemma StopAbortsAServedConnection() returns (acts: seq<Action>)
    ensures Valid(Init(Tcp, 1, 1), acts)
    ensures var s := Run(Init(Tcp, 1, 1), acts);
            && s.owner.Stopping? && |s.workers| == 1 && s.workers[0].phase == Finished(ByStop)
            && |s.tasks| == 1 && s.tasks[0].phase == Done(Aborted)
  {
    acts := [];
    acts := Opening(acts);
    acts := FirstTaken(acts);
    acts := TlsServedThenStopped(acts);
    acts := HandleAborted(acts);
    var s := MarkedUnderStop(Finished(ByStop), Serving);
    hide Valid, Run;
    acts, s := Follow(Start0(), acts, s, ByTask(0, Abort));
  }

  /** The dispatcher has seen the drop with a stream in its hand, and its worker never began. */
  function Dropping(worker: Worker): State {
    FirstAccepted().(owner := Dropped, listenerChan := Watch(0, 0), disp := Joining, signal := false,
                     workerChan := Watch(1, 0), workers := [worker], retired := [Retirement(0, DispatcherShutdown)])
  }

  lemma OwnerDrops(acts: seq<Action>) returns (more: seq<Action>)
    requires Valid(Start0(), acts) && Run(Start0(), acts) == FirstAccepted()
    ensures Valid(Start0(), more) && Run(Start0(), more) == Dropping(NewWorker())
  {
    hide Valid, Run;
    var s := FirstAccepted();
    more := acts;
    more, s := Follow(Start0(), more, s, ByOwner(OwnerDrop));
    more, s := Follow(Start0(), more, s, ByDispatcher(Halt));
    assert s.retired == [Retirement(0, DispatcherShutdown)];
  }

  function NeverPolled(joined: bool): Worker {
    Worker(Finished(ByStop), map[], Watch(0, 0), joined, false)
  }

  lemma WorkerNeverBegins(acts: seq<Action>) returns (more: seq<Action>)
    requires Valid(Start0(), acts) && Run(Start0(), acts) == Dropping(NewWorker())
    ensures Valid(Start0(), more) && Run(Start0(), more) == Dropping(NeverPolled(true))
  {
    hide Valid, Run;
    var s := Dropping(NewWorker());
    more := acts;
    more, s := Follow(Start0(), more, s, ByWorker(0, StopWorker));
    assert s.retired == [Retirement(0, DispatcherShutdown)];
    assert s == Dropping(NeverPolled(false));
    more, s := Follow(Start0(), more, s, ByDispatcher(Join(0)));
  }

  /** An owner that drops the listener ends it like one that stops it. */
  lemma DropEndsTheListener() returns (acts: seq<Action>)
    ensures Valid(Init(Tcp, 1, 1), acts)
    ensures var s := Run(Init(Tcp, 1, 1), acts);
            && s.owner.Dropped? && s.disp == Ended(true) && |s.workers| == 1 && s.workers[0].phase == Finished(ByStop)
            && s.retired == [Retirement(0, DispatcherShutdown)]
  {
    acts := [];
    acts := Opening(acts);
    acts := OwnerDrops(acts);
    acts := WorkerNeverBegins(acts);
    var s := Dropping(NeverPolled(true));
    hide Valid, Run;
    acts, s := Follow(Start0(), acts, s, ByDispatcher(JoinDone));
  }

  // ---------- Runs in which hand-off stands still ----------

  /** The second stream queued behind a worker that is gone, the third in the dispatcher's hand. */
  function Stuck(workers: seq<Worker>, accepted: nat, done: seq<Stream>, gone: seq<Retirement>): State
    requires accepted >= 2
  {
    Start0().(disp := Sending(accepted - 1), signal := workers != [],
              workerChan := if workers == [] then Watch(0, 0) else Watch(0, 1), workers := workers,
              queue := [accepted - 2], accepted := accepted, sent := done + [accepted - 2], taken := done, retired := gone)
  }

  lemma NothingMore(s: State)
    requires Deserted(s) && s.tasks == []
    ensures forall more :: Valid(s, more) ==> Run(s, more).taken == s.taken && Run(s, more).tasks == []
  {
    forall more | Valid(s, more) ensures Run(s, more).taken == s.taken && Run(s, more).tasks == [] {
      DesertedForGood(s, more);
    }
  }

  /**
   No worker is there, and one stream is on its way into the queue: a send is possible, but no
   continuation gives the stream a task.
   */
  lemma SendWithoutWorkersIsInVain() returns (acts: seq<Action>)
    ensures Valid(Init(Tcp, 1, 1), acts)
    ensures var s := Run(Init(Tcp, 1, 1), acts);
            && !Leaving(s.disp) && Pending(s) == 1 && CanHandOff(s)
            && forall more :: Valid(s, more) ==> Run(s, more).taken == s.taken && Run(s, more).tasks == []
  {
    acts := [];
    var s := Start0();
    assert Valid(s, acts) && Run(s, acts) == s;
    hide Valid, Run;
    acts, s := Follow(Start0(), acts, s, ByDispatcher(Start(false)));
    acts, s := Follow(Start0(), acts, s, ByDispatcher(Accept));
    NothingMore(s);
  }

  /** The TLS set-up fails, so no worker is there; the queue fills and every stream waits for ever. */
  lemma HandOffStopsWithoutWorkers() returns (acts: seq<Action>)
    ensures Valid(Init(Tcp, 1, 1), acts)
    ensures var s := Run(Init(Tcp, 1, 1), acts);
            && !Leaving(s.disp) && Pending(s) == 2 && !CanHandOff(s)
            && forall more :: Valid(s, more) ==> Run(s, more).taken == s.taken && Run(s, more).tasks == []
  {
    acts := [];
    var s := Start0();
    assert Valid(s, acts) && Run(s, acts) == s;
    hide Valid, Run;
    acts, s := Follow(Start0(), acts, s, ByDispatcher(Start(false)));
    acts, s := Follow(Start0(), acts, s, ByDispatcher(Accept));
    acts, s := Follow(Start0(), acts, s, ByDispatcher(Send));
    acts, s := Follow(Start0(), acts, s, ByDispatcher(Accept));
    assert s == Stuck([], 2, [], []);
    NothingMore(s);
  }

  /** A worker that has lost its first stream, and itself, to a failed peek. */
  function Lost(): Worker {
    Worker(Finished(ByError), map[], Watch(0, 0), false, false)
  }

  lemma PeekFails(acts: seq<Action>) returns (more: seq<Action>)
    requires Valid(Start0(), acts) && Run(Start0(), acts) == Scene(Peeking(0, 7), map[], [], [0])
    ensures Valid(Start0(), more)
    ensures Run(Start0(), more) == Stuck([Lost()], 3, [0], [Retirement(0, WorkerError)])
  {
    hide Valid, Run;
    var s := Scene(Peeking(0, 7), map[], [], [0]);
    more := acts;
    more, s := Follow(Start0(), more, s, ByWorker(0, Peek(None)));
    more, s := Follow(Start0(), more, s, ByDispatcher(Accept));
    more, s := Follow(Start0(), more, s, ByDispatcher(Send));
    more, s := Follow(Start0(), more, s, ByDispatcher(Accept));
    assert s.retired == [Retirement(0, WorkerError)];
    assert s == Stuck([Lost()], 3, [0], [Retirement(0, WorkerError)]);
  }

  /** The only worker is lost to a failed peek; no later stream ever gets a task. */
  lemma HandOffStopsAfterFailedPeek() returns (acts: seq<Action>)
    ensures Valid(Init(Tcp, 1, 1), acts)
    ensures var s := Run(Init(Tcp, 1, 1), acts);
            && !Leaving(s.disp) && Pending(s) == 2 && !CanHandOff(s)
            && forall more :: Valid(s, more) ==> Run(s, more).taken == s.taken && Run(s, more).tasks == []
  {
    acts := [];
    acts := Opening(acts);
    acts := FirstTaken(acts);
    acts := PeekFails(acts);
    NothingMore(Stuck([Lost()], 3, [0], [Retirement(0, WorkerError)]));
  }

  // ---------- A run in which the queue disconnects ----------

  function Quic0(): State {
    Init(Udp, 1, 1)
  }

  /** The worker has spawned the task of the first connection and is still being polled. */
  function FirstSpawned(): State {
    Quic0().(disp := Accepting, signal := true, workerChan := Watch(0, 1),
             workers := [Worker(Inserting(0, 7), map[], Watch(0, 2), false, false)],
             tasks := [Task(0, 0, 7, Serving, 0, false)], accepted := 1, sent := [0], taken := [0])
  }

  lemma QuicOpening(acts: seq<Action>) returns (more: seq<Action>)
    requires Valid(Quic0(), acts) && Run(Quic0(), acts) == Quic0()
    ensures Valid(Quic0(), more)
    ensures Run(Quic0(), more) == Quic0().(disp := Sending(0), signal := true, workerChan := Watch(0, 1),
                                           workers := [NewWorker()], accepted := 1)
  {
    hide Valid, Run;
    var s := Quic0();
    more := acts;
    more, s := Follow(Quic0(), more, s, ByDispatcher(Start(true)));
    more, s := Follow(Quic0(), more, s, ByDispatcher(Accept));
    more, s := Follow(Quic0(), more, s, ByDispatcher(Greet(true)));
    assert s.workers == [NewWorker()];
  }

  lemma QuicFirstTaken(acts: seq<Action>) returns (more: seq<Action>)
    requires Valid(Quic0(), acts)
    requires Run(Quic0(), acts) == Quic0().(disp := Sending(0), signal := true, workerChan := Watch(0, 1),
                                            workers := [NewWorker()], accepted := 1)
    ensures Valid(Quic0(), more) && Run(Quic0(), more) == FirstSpawned()
  {
    hide Valid, Run;
    var s := Run(Quic0(), acts);
    more := acts;
    more, s := Follow(Quic0(), more, s, ByDispatcher(Send));
    more, s := Follow(Quic0(), more, s, ByWorker(0, Begin));
    more, s := Follow(Quic0(), more, s, ByWorker(0, Take(Some(7))));
    assert s == FirstSpawned();
  }

  /**
   A failed handshake drops the dispatcher while the worker is between spawn and insert. The poll
   goes on to `recv` and finds the queue empty and without a sender.
   */
  lemma QueueCanDisconnect() returns (acts: seq<Action>)
    ensures Valid(Init(Udp, 1, 1), acts)
    ensures WorkerEnabled(Run(Init(Udp, 1, 1), acts), 0, Disconnect)
  {
    acts := [];
    acts := QuicOpening(acts);
    acts := QuicFirstTaken(acts);
    var s := FirstSpawned();
    hide Valid, Run;
    acts, s := Follow(Quic0(), acts, s, ByDispatcher(Accept));
    acts, s := Follow(Quic0(), acts, s, ByDispatcher(Greet(false)));
    acts, s := Follow(Quic0(), acts, s, ByDispatcher(Unwind));
    acts, s := Follow(Quic0(), acts, s, ByWorker(0, Insert));
  }

  /** The endpoint has closed and the dispatcher's `run` has returned, its worker not yet polled. */
  function Emptied(): State {
    Quic0().(disp := Unwinding(true), workerChan := Watch(0, 0), workers := [NewWorker()])
  }

  lemma EndpointCloses(acts: seq<Action>) returns (more: seq<Action>)
    requires Valid(Quic0(), acts) && Run(Quic0(), acts) == Quic0()
    ensures Valid(Quic0(), more) && Run(Quic0(), more) == Emptied()
  {
    hide Valid, Run;
    var s := Quic0();
    more := acts;
    more, s := Follow(Quic0(), more, s, ByDispatcher(Start(true)));
    more, s := Follow(Quic0(), more, s, ByDispatcher(EndpointClosed));
    more, s := Follow(Quic0(), more, s, ByDispatcher(IdleDone));
    assert s.workers == [NewWorker()];
  }

  /** A closed QUIC endpoint ends the listener with success, and cancels its workers. */
  lemma EndpointEndsTheListener() returns (acts: seq<Action>)
    ensures Valid(Init(Udp, 1, 1), acts)
    ensures var s := Run(Init(Udp, 1, 1), acts);
            s.owner.Up? && s.disp == Ended(true) && |s.workers| == 1 && s.workers[0].phase == Finished(ByCancel)
  {
    acts := [];
    acts := EndpointCloses(acts);
    var s := Emptied();
    hide Valid, Run;
    acts, s := Follow(Quic0(), acts, s, ByDispatcher(Unwind));
    acts, s := Follow(Quic0(), acts, s, ByWorker(0, Cancel));
  }
}
