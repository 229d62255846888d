/** One listener: its address, its table of hosts, its reserved socket, and its equality. */
module Listeners {
  import opened Prelude
  import opened HostModel
  import opened HostKeys

  /** A bound socket, with the address it is bound to. */
  datatype Socket = Socket(interface: Interface, port: Port)

  datatype ListenerView = ListenerView(
    transport: Transport,
    interface: Interface,
    port: Port,
    workers: nat,
    hosts: map<string, Host>,
    inner: Option<Socket>)
  {
    function With(h: Host): ListenerView {
      this.(hosts := hosts[KeyOf(transport, port, h.config.hostname) := h])
    }

    /** The equality by which registration merges. */
    predicate Same(other: ListenerView) {
      transport == other.transport && port == other.port && interface == other.interface
    }

    /** `ne` as it is written for each transport. */
    predicate Differs(other: ListenerView) {
      match (transport, other.transport)
      case (Tcp, Tcp) => port != other.port || interface != other.interface
      case (Udp, Udp) => port != other.port && interface != other.interface
      case _ => true
    }

    /** A reserved socket is bound to the configured address. */
    predicate InnerBound() {
      inner.Some? ==> inner.value == Socket(interface, port)
    }
  }

  /** For UDP, `!=` is not the negation of `==` when just one of port and interface differs. */
  lemma DiffersExactly(a: ListenerView, b: ListenerView)
    ensures (a.Differs(b) <==> !a.Same(b))
       <==> !(a.transport.Udp? && b.transport.Udp? && (a.port == b.port) != (a.interface == b.interface))
  {}

  /** What the environment answers while a listener starts. */
  datatype StartAnswer = StartAnswer(binds: bool, setUp: bool)

  class Listener {
    const transport: Transport
    const interface: Interface
    const workers: nat
    var port: Port
    var hosts: map<string, Host>
    var inner: Option<Socket>
    var signal: bool
    var handle: Option<Socket>

    function View(): ListenerView
      reads this
    {
      ListenerView(transport, interface, port, workers, hosts, inner)
    }

    constructor (transport: Transport, bind: Bind, workers: nat)
      ensures View() == ListenerView(transport, bind.interface, bind.port, workers, map[], None)
      ensures !signal && handle.None?
    {
      this.transport, this.interface, this.workers := transport, bind.interface, workers;
      port, hosts, inner, signal, handle := bind.port, map[], None, false, None;
    }

    method AddHost(h: Host)
      modifies this`hosts
      ensures View() == old(View()).With(h)
    {
      var key := match transport
        case Tcp => (if port == 80 || port == 443 then h.config.hostname else WithPort(h.config.hostname, port))
        case Udp => (if port == 443 then h.config.hostname else WithPort(h.config.hostname, port));
      hosts := hosts[key := h];
    }

    /** Whether a host is registered here under `hostname`. */
    predicate Holds(hostname: string)
      reads this
    {
      KeyOf(transport, port, hostname) in hosts
    }

    /**
     The name is used as given, not as the key that `add_host` builds from it. On a port left out of
     keys it takes out the host of that name. On any other port that host stays, and what goes is at
     most the host whose hostname, with the port written out, spells the name. All others stay.
     */
    method RemoveHost(name: string)
      modifies this`hosts
      ensures forall n: string :: Holds(n) <==>
                old(Holds(n)) && (if Bare(transport, port) then n != name else WithPort(n, port) != name)
      ensures Holds(name) <==> old(Holds(name)) && !Bare(transport, port)
      ensures forall k :: k in hosts ==> k in old(hosts) && hosts[k] == old(hosts)[k]
      ensures forall k :: k in old(hosts) && k != name ==> k in hosts
    {
      hosts := hosts - {name};
      assert |WithPort(name, port)| > |name|;
    }

    /** Binds port 0 and keeps the socket; the port the system chose becomes the configured one. */
    method ReservePort(chosen: Option<Port>) returns (ok: bool)
      modifies this`port, this`inner
      ensures ok <==> old(port) != 0 || chosen.Some?
      ensures ok && old(port) == 0 ==> port == chosen.value && inner == Some(Socket(interface, port))
      ensures !ok || old(port) != 0 ==> port == old(port) && inner == old(inner)
    {
      ok := true;
      if port == 0 {
        if chosen.None? {
          return false;
        }
        port := chosen.value;
        inner := Some(Socket(interface, port));
      }
    }

    method ReassignPort(p: Port)
      modifies this`port
      ensures port == p
    {
      port := p;
    }

    /**
     Takes the reserved socket if there is one and binds a new one only otherwise; whatever follows,
     a reserved socket is gone from the listener.
     */
    method Listen(answer: StartAnswer) returns (ok: bool, rebound: bool)
      modifies this`inner, this`signal, this`handle
      ensures inner.None?
      ensures rebound <==> old(inner).None?
      ensures ok <==> (old(inner).Some? || answer.binds) && (transport.Udp? ==> answer.setUp)
      ensures ok ==> signal && handle == Some(if old(inner).Some? then old(inner).value else Socket(interface, port))
      ensures !ok ==> signal == old(signal) && handle == old(handle)
    {
      var socket: Socket;
      match inner {
        case Some(reserved) =>
          socket := reserved;
          inner := None;
          rebound := false;
        case None =>
          rebound := true;
          if !answer.binds {
            return false, true;
          }
          socket := Socket(interface, port);
      }
      if transport.Udp? && !answer.setUp {
        return false, rebound;
      }
      signal := true;
      handle := Some(socket);
      ok := true;
    }

    /** Signals and waits for the dispatcher, if there is one; never an error. */
    method Stop() returns (stopped: bool)
      modifies this`signal, this`handle
      ensures stopped <==> old(signal) && old(handle).Some?
      ensures !signal && (old(signal) ==> handle.None?) && (!old(signal) ==> handle == old(handle))
    {
      stopped := false;
      if signal {
        signal := false;
        if handle.Some? {
          handle := None;
          stopped := true;
        }
      }
    }
  }
}
