/** Starting and stopping the server: a start that fails half-way, and the stop that follows. */
module Server {
  import opened Prelude
  import opened Listeners
  import opened Registration
  import opened RegistrationFacts
  import opened VetisBuilder

  datatype Outcome = Done | NotRunning | FailedAt(i: nat)

  class Vetis {
    const listeners: seq<Listener>
    var logger: bool

    ghost predicate Valid() {
      forall i, j :: 0 <= i < j < |listeners| ==> listeners[i] != listeners[j]
    }

    ghost function Objects(): set<Listener> {
      set l | l in listeners
    }

    predicate Running(i: nat)
      requires i < |listeners|
      reads listeners[i]
    {
      listeners[i].signal && listeners[i].handle.Some?
    }

    predicate Idle(i: nat)
      requires i < |listeners|
      reads listeners[i]
    {
      !listeners[i].signal && listeners[i].handle.None?
    }

    /** Whether `listen` will succeed: the socket is reserved or can be bound, and QUIC sets up. */
    predicate Starts(i: nat, answer: StartAnswer)
      requires i < |listeners|
      reads listeners[i]
    {
      && (listeners[i].inner.Some? || answer.binds)
      && (listeners[i].transport.Udp? ==> answer.setUp)
    }

    /** The socket a listener is to serve: the reserved one, else one bound to its address. */
    function SocketFor(i: nat): Socket
      requires i < |listeners|
      reads listeners[i]
    {
      if listeners[i].inner.Some? then listeners[i].inner.value
      else Socket(listeners[i].interface, listeners[i].port)
    }

    constructor (listeners: seq<Listener>)
      ensures this.listeners == listeners && !logger
    {
      this.listeners := listeners;
      logger := false;
    }

    /**
     Listeners start one after the other, and the first that fails ends the start. Those before it
     hold a signal and a handle on the socket meant for them; those from it on do not.
     */
    method Start(answers: seq<StartAnswer>) returns (r: Outcome)
      requires Valid() && |answers| == |listeners|
      requires forall i :: 0 <= i < |listeners| ==> Idle(i)
      modifies this`logger, Objects()
      ensures r.NotRunning? <==> listeners == []
      ensures forall i :: 0 <= i < |listeners| ==>
                listeners[i].port == old(listeners[i].port) && listeners[i].hosts == old(listeners[i].hosts)
      ensures logger == (old(logger) || listeners != [])
      ensures r.Done? ==> forall i :: 0 <= i < |listeners| ==> Running(i) && old(Starts(i, answers[i]))
      ensures r.FailedAt? ==>
                && r.i < |listeners| && !old(Starts(r.i, answers[r.i]))
                && (forall i :: 0 <= i < r.i ==> Running(i) && old(Starts(i, answers[i])))
                && (forall i :: r.i <= i < |listeners| ==> Idle(i))
                && (forall i :: r.i < i < |listeners| ==> listeners[i].inner == old(listeners[i].inner))
      ensures forall i :: 0 <= i < |listeners| && Running(i) ==>
                listeners[i].handle == Some(old(SocketFor(i))) && listeners[i].inner.None?
      ensures forall i :: 0 <= i < |listeners| && Running(i) && old(listeners[i].View().InnerBound()) ==>
                listeners[i].handle == Some(Socket(listeners[i].interface, listeners[i].port))
    {
      if |listeners| == 0 {
        return NotRunning;
      }
      logger := true;
      var n := 0;
      while n < |listeners|
        invariant n <= |listeners| && logger
        invariant forall i :: 0 <= i < n ==> Running(i) && old(Starts(i, answers[i]))
        invariant forall i :: 0 <= i < |listeners| ==>
                    listeners[i].port == old(listeners[i].port) && listeners[i].hosts == old(listeners[i].hosts)
        invariant forall i :: 0 <= i < n ==> listeners[i].handle == Some(old(SocketFor(i))) && listeners[i].inner.None?
        invariant forall i :: n <= i < |listeners| ==>
                    Idle(i) && listeners[i].inner == old(listeners[i].inner)
      {
        var l := listeners[n];
        assert Starts(n, answers[n]) == old(Starts(n, answers[n]));
        var ok, _ := l.Listen(answers[n]);
        if !ok {
          return FailedAt(n);
        }
        n := n + 1;
      }
      r := Done;
    }

    /** Every listener is visited; exactly those that run are shut down; there is no error to return. */
    method Stop() returns (r: Outcome, stopped: seq<bool>)
      requires Valid()
      modifies Objects()
      ensures r == if listeners == [] then NotRunning else Done
      ensures |stopped| == |listeners|
      ensures forall i :: 0 <= i < |listeners| ==> (stopped[i] <==> old(Running(i)))
      ensures forall i :: 0 <= i < |listeners| ==> !listeners[i].signal && !Running(i)
    {
      stopped := [];
      if |listeners| == 0 {
        return NotRunning, [];
      }
      var n := 0;
      while n < |listeners|
        invariant n <= |listeners| && |stopped| == n
        invariant forall i :: 0 <= i < n ==> (stopped[i] <==> old(Running(i))) && !listeners[i].signal
        invariant forall i :: n <= i < |listeners| ==>
                    listeners[i].signal == old(listeners[i].signal) && listeners[i].handle == old(listeners[i].handle)
      {
        var was := listeners[n].Stop();
        stopped := stopped + [was];
        n := n + 1;
      }
      r := Done;
    }
  }

  /**
   A start from rest, whatever fails in it, and the stop after it: the stop returns without error,
   has shut down exactly the listeners before the failure, and leaves none running.
   */
  method StartThenStop(server: Vetis, answers: seq<StartAnswer>)
    returns (started: Outcome, ended: Outcome, stopped: seq<bool>)
    requires server.Valid() && server.listeners != [] && |answers| == |server.listeners|
    requires forall i :: 0 <= i < |server.listeners| ==> server.Idle(i)
    modifies server`logger, server.Objects()
    ensures ended == Done && |stopped| == |server.listeners|
    ensures started.Done? || started.FailedAt?
    ensures forall i :: 0 <= i < |stopped| ==> (stopped[i] <==> started.Done? || i < started.i)
    ensures forall i :: 0 <= i < |stopped| ==> !server.Running(i)
  {
    started := server.Start(answers);
    forall i | 0 <= i < |server.listeners|
      ensures server.Running(i) <==> started.Done? || i < started.i
    {
      if started.FailedAt? && started.i <= i {
        assert server.Idle(i);
      }
    }
    ended, stopped := server.Stop();
  }

  /** `from_config`: the hosts of the configuration one after the other, and an error if one cannot be made or added. */
  method FromConfig(items: seq<Item>, workers: nat) returns (server: Option<Vetis>)
    requires AllAnswered(items)
    ensures server.Some? <==> AddAll([], items, workers).0
    ensures server.Some? <==> forall i :: 0 <= i < |items| ==> Works(items[i])
    ensures server.Some? ==>
              && server.value.Valid() && fresh(server.value) && fresh(server.value.Objects())
              && ViewsOf(server.value.listeners) == AddAll([], items, workers).1
              && forall i :: 0 <= i < |server.value.listeners| ==> server.value.Idle(i)
  {
    RegistrationRefinesFlatMap(items, workers);
    EnterAllSucceeds(map[], items);
    var builder := new Builder(workers);
    var ok := builder.AddHosts(items);
    if !ok {
      return None;
    }
    var vetis := new Vetis(builder.listeners);
    server := Some(vetis);
  }

  /**
   From the configuration to the sockets: whatever ports the system hands out and wherever the start
   fails, each listener that runs serves a socket bound to the address it is configured for, which
   has a real port, and no two running listeners of one transport serve the same address.
   */
  method StartConfigured(items: seq<Item>, workers: nat, answers: seq<StartAnswer>) returns (server: Vetis, r: Outcome)
    requires RealItems(items) && AddAll([], items, workers).0
    requires |answers| == |AddAll([], items, workers).1|
    ensures |server.listeners| == |answers|
    ensures r.Done? ==> forall i :: 0 <= i < |answers| ==> server.Running(i)
    ensures forall i :: 0 <= i < |answers| && server.Running(i) ==>
              var l := AddAll([], items, workers).1[i];
              && l.port != 0 && server.listeners[i].handle == Some(Socket(l.interface, l.port))
              && server.listeners[i].transport == l.transport && server.listeners[i].hosts == l.hosts
    ensures forall i, j :: 0 <= i < j < |answers| && server.Running(i) && server.Running(j)
              && server.listeners[i].transport == server.listeners[j].transport
              ==> server.listeners[i].handle != server.listeners[j].handle
  {
    VectorOverRuns(items, workers);
    var configured := FromConfig(items, workers);
    server := configured.value;
    ghost var views := ViewsOf(server.listeners);
    assert forall i :: 0 <= i < |answers| ==> server.listeners[i].View() == views[i];
    hide AddAll;
    r := server.Start(answers);
    forall i, j | 0 <= i < j < |answers| && server.Running(i) && server.Running(j)
      && server.listeners[i].transport == server.listeners[j].transport
      ensures server.listeners[i].handle != server.listeners[j].handle
    {
      assert !views[i].Same(views[j]);
    }
  }
}
