/** `add_host_to_listeners` as written: listeners are objects, merged and pushed in place. */
module VetisBuilder {
  import opened Prelude
  import opened HostModel
  import opened Listeners
  import opened Registration

  ghost function ViewsOf(ls: seq<Listener>): seq<ListenerView>
    reads ls
  {
    seq(|ls|, i requires 0 <= i < |ls| reads ls => ls[i].View())
  }

  ghost predicate Distinct(ls: seq<Listener>) {
    forall i, j :: 0 <= i < j < |ls| ==> ls[i] != ls[j]
  }

  lemma PositionIs(ls: seq<ListenerView>, l: ListenerView, i: nat)
    requires i <= |ls| && (i < |ls| ==> ls[i].Same(l))
    requires forall k :: 0 <= k < i ==> !ls[k].Same(l)
    ensures Position(ls, l) == i
  {}

  class Builder {
    var listeners: seq<Listener>
    const workers: nat

    /** The listeners are distinct objects, and none has been started. */
    ghost predicate Valid()
      reads this, listeners
    {
      Distinct(listeners) && forall i :: 0 <= i < |listeners| ==> !listeners[i].signal && listeners[i].handle.None?
    }

    ghost function Objects(): set<Listener>
      reads this
    {
      set l | l in listeners
    }

    ghost function Views(): seq<ListenerView>
      reads this, listeners
    {
      ViewsOf(listeners)
    }

    constructor (workers: nat)
      ensures Valid() && Views() == [] && this.workers == workers
    {
      listeners := [];
      this.workers := workers;
    }

    /** `listeners.iter().position(|l| l == &listener)`. */
    method Find(l: Listener) returns (i: nat)
      ensures i <= |listeners| && i == Position(Views(), l.View())
    {
      i := 0;
      while i < |listeners| && !listeners[i].View().Same(l.View())
        invariant i <= |listeners|
        invariant forall k :: 0 <= k < i ==> !listeners[k].View().Same(l.View())
      {
        i := i + 1;
      }
      PositionIs(Views(), l.View(), i);
    }

    /** Add the host to the equal listener, or to the new one, which is pushed. */
    method MergeListener(l: Listener, h: Host)
      requires Valid() && l !in listeners && !l.signal && l.handle.None?
      modifies this`listeners, Objects(), l
      ensures Valid() && Views() == Merge(old(Views()), old(l.View()), h)
      ensures Objects() <= old(Objects()) + {l}
    {
      var i := Find(l);
      ghost var views := Views();
      ghost var lView := l.View();
      if i < |listeners| {
        listeners[i].AddHost(h);
        assert forall k :: 0 <= k < |listeners| && k != i ==> listeners[k].View() == views[k];
      } else {
        l.AddHost(h);
        listeners := listeners + [l];
        assert forall k :: 0 <= k < |views| ==> listeners[k].View() == views[k];
      }
      assert Views() == Merge(views, lView, h);
    }

    /** The port returned is 0 unless this call reserved one. */
    method AddTcp(h: Host, b: Bind, a: Answer) returns (ok: bool, port: Port)
      requires Valid() && WantsTcp(h)
      modifies this`listeners, Objects()
      ensures Valid() && (ok, Views(), port) == BindTcp(old(Views()), h, b, a, workers)
      ensures fresh(Objects() - old(Objects()))
    {
      port := 0;
      var listener := new Listener(Tcp, b, workers);
      if listener.port == 0 {
        ok := listener.ReservePort(a.tcp);
        if !ok {
          return;
        }
        port := listener.port;
      }
      assert Views() == old(Views());
      MergeListener(listener, h);
      ok := true;
    }

    /** UDP asks for a port of its own only if TCP reserved none. */
    method AddUdp(h: Host, b: Bind, a: Answer, port: Port) returns (ok: bool)
      requires Valid() && WantsUdp(h)
      requires b.port != 0 ==> port == 0
      modifies this`listeners, Objects()
      ensures Valid() && (ok, Views()) == BindUdp(old(Views()), h, b, a, workers, port)
      ensures fresh(Objects() - old(Objects()))
    {
      var listener := new Listener(Udp, b, workers);
      if port == 0 && listener.port == 0 {
        ok := listener.ReservePort(a.udp);
        if !ok {
          return;
        }
      } else if port > 0 {
        listener.ReassignPort(port);
      }
      assert Views() == old(Views());
      MergeListener(listener, h);
      ok := true;
    }

    method AddBind(h: Host, b: Bind, a: Answer) returns (ok: bool)
      requires Valid()
      modifies this`listeners, Objects()
      ensures Valid() && (ok, Views()) == BindOne(old(Views()), h, b, a, workers)
      ensures fresh(Objects() - old(Objects()))
    {
      if !a.configOk {
        return false;
      }
      var port: Port := 0;
      ok := true;
      if Http11 in h.config.protos || Http2 in h.config.protos {
        ok, port := AddTcp(h, b, a);
      }
      if ok && Http3 in h.config.protos {
        ok := AddUdp(h, b, a, port);
      }
    }

    /** One host on all its bind addresses; an error returns at once and keeps what was done. */
    method AddHost(h: Host, answers: seq<Answer>) returns (ok: bool)
      requires Valid() && |answers| == |h.config.binds|
      modifies this`listeners, Objects()
      ensures Valid() && (ok, Views()) == BindAll(old(Views()), h, h.config.binds, answers, workers)
      ensures fresh(Objects() - old(Objects()))
    {
      ok := true;
      var n := 0;
      ghost var bs := h.config.binds;
      while ok && n < |h.config.binds|
        invariant n <= |bs| && Valid()
        invariant fresh(Objects() - old(Objects()))
        invariant ok ==> BindAll(old(Views()), h, bs, answers, workers)
                         == BindAll(Views(), h, bs[n..], answers[n..], workers)
        invariant !ok ==> BindAll(old(Views()), h, bs, answers, workers) == (false, Views())
      {
        assert bs[n..][1..] == bs[n + 1..] && answers[n..][1..] == answers[n + 1..];
        ok := AddBind(h, h.config.binds[n], answers[n]);
        n := n + 1;
      }
    }

    /** `Vetis::from_config`: host after host, up to the first that cannot be built or added. */
    method AddHosts(items: seq<Item>) returns (ok: bool)
      requires Valid() && AllAnswered(items)
      modifies this`listeners, Objects()
      ensures Valid() && (ok, Views()) == AddAll(old(Views()), items, workers)
      ensures fresh(Objects() - old(Objects()))
    {
      ok := true;
      var n := 0;
      while ok && n < |items|
        invariant n <= |items| && Valid()
        invariant fresh(Objects() - old(Objects()))
        invariant ok ==> AddAll(old(Views()), items, workers) == AddAll(Views(), items[n..], workers)
        invariant !ok ==> AddAll(old(Views()), items, workers) == (false, Views())
      {
        assert items[n..][1..] == items[n + 1..] && items[n].Answered();
        ok := items[n].built;
        if ok {
          ok := AddHost(items[n].host, items[n].answers);
        }
        n := n + 1;
      }
    }
  }
}
