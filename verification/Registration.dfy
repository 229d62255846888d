/**
 Adding hosts to the vector of listeners, and what it amounts to: one flat map from transport,
 interface, port and hostname to the last host added there.
 */
module Registration {
  import opened Prelude
  import opened HostModel
  import opened HostKeys
  import opened Listeners

  /** What the environment answers for one bind address: configuration, and ports for port 0. */
  datatype Answer = Answer(configOk: bool, tcp: Option<Port>, udp: Option<Port>)

  predicate WantsTcp(h: Host) {
    Http11 in h.config.protos || Http2 in h.config.protos
  }

  predicate WantsUdp(h: Host) {
    Http3 in h.config.protos
  }

  // ---------- The vector ----------

  /** The index of the first equal entry, or the length. */
  function Position(ls: seq<ListenerView>, l: ListenerView): (i: nat)
    ensures i <= |ls|
    ensures i < |ls| ==> ls[i].Same(l)
    ensures forall k :: 0 <= k < i ==> !ls[k].Same(l)
  {
    if ls == [] || ls[0].Same(l) then 0 else 1 + Position(ls[1..], l)
  }

  /** Add the host to the equal listener already there, or push the new one. */
  function Merge(ls: seq<ListenerView>, l: ListenerView, h: Host): seq<ListenerView> {
    var i := Position(ls, l);
    if i < |ls| then ls[i := ls[i].With(h)] else ls + [l.With(h)]
  }

  function NewView(t: Transport, b: Bind, workers: nat): ListenerView {
    ListenerView(t, b.interface, b.port, workers, map[], None)
  }

  function Reserved(l: ListenerView, p: Port): ListenerView {
    l.(port := p, inner := Some(Socket(l.interface, p)))
  }

  /** The TCP half of one bind address; the port is 0 unless it was reserved here. */
  function BindTcp(ls: seq<ListenerView>, h: Host, b: Bind, a: Answer, workers: nat): (bool, seq<ListenerView>, Port) {
    if !WantsTcp(h) then (true, ls, 0)
    else if b.port != 0 then (true, Merge(ls, NewView(Tcp, b, workers), h), 0)
    else match a.tcp
      case None => (false, ls, 0)
      case Some(p) => (true, Merge(ls, Reserved(NewView(Tcp, b, workers), p), h), p)
  }

  /** The UDP half, which shares the port reserved for TCP. */
  function BindUdp(ls: seq<ListenerView>, h: Host, b: Bind, a: Answer, workers: nat, shared: Port)
    : (bool, seq<ListenerView>)
  {
    if !WantsUdp(h) then (true, ls)
    else if shared > 0 then (true, Merge(ls, NewView(Udp, b, workers).(port := shared), h))
    else if b.port != 0 then (true, Merge(ls, NewView(Udp, b, workers), h))
    else match a.udp
      case None => (false, ls)
      case Some(p) => (true, Merge(ls, Reserved(NewView(Udp, b, workers), p), h))
  }

  function BindOne(ls: seq<ListenerView>, h: Host, b: Bind, a: Answer, workers: nat): (bool, seq<ListenerView>) {
    if !a.configOk then (false, ls)
    else
      var (ok, ls', shared) := BindTcp(ls, h, b, a, workers);
      if ok then BindUdp(ls', h, b, a, workers, shared) else (false, ls')
  }

  function BindAll(ls: seq<ListenerView>, h: Host, bs: seq<Bind>, answers: seq<Answer>, workers: nat)
    : (bool, seq<ListenerView>)
    requires |bs| == |answers|
    decreases |bs|
  {
    if bs == [] then (true, ls)
    else
      var (ok, ls') := BindOne(ls, h, bs[0], answers[0], workers);
      if ok then BindAll(ls', h, bs[1..], answers[1..], workers) else (false, ls')
  }

  // ---------- The flat map ----------

  datatype Key = Key(transport: Transport, interface: Interface, port: Port, hostname: string)

  type Flat = map<Key, Host>

  /** The keys one bind address registers its host under, read off the configuration alone. */
  function TcpKeys(h: Host, b: Bind, a: Answer): (bool, seq<Key>) {
    if !WantsTcp(h) then (true, [])
    else if b.port != 0 then (true, [Key(Tcp, b.interface, b.port, h.config.hostname)])
    else match a.tcp
      case None => (false, [])
      case Some(p) => (true, [Key(Tcp, b.interface, p, h.config.hostname)])
  }

  /** UDP goes to the configured port, else to the port TCP got, else to one of its own. */
  function UdpKeys(h: Host, b: Bind, a: Answer): (bool, seq<Key>) {
    if !WantsUdp(h) then (true, [])
    else if b.port != 0 then (true, [Key(Udp, b.interface, b.port, h.config.hostname)])
    else if WantsTcp(h) && a.tcp.Some? && a.tcp.value > 0 then
      (true, [Key(Udp, b.interface, a.tcp.value, h.config.hostname)])
    else match a.udp
      case None => (false, [])
      case Some(p) => (true, [Key(Udp, b.interface, p, h.config.hostname)])
  }

  function BindKeys(h: Host, b: Bind, a: Answer): (bool, seq<Key>) {
    if !a.configOk then (false, [])
    else
      var (ok, tcp) := TcpKeys(h, b, a);
      if !ok then (false, tcp)
      else var (ok', udp) := UdpKeys(h, b, a); (ok', tcp + udp)
  }

  function HostKeysOf(h: Host, bs: seq<Bind>, answers: seq<Answer>): (bool, seq<Key>)
    requires |bs| == |answers|
  {
    if bs == [] then (true, [])
    else
      var (ok, keys) := BindKeys(h, bs[0], answers[0]);
      if !ok then (false, keys)
      else var (ok', more) := HostKeysOf(h, bs[1..], answers[1..]); (ok', keys + more)
  }

  /** Later registrations win. */
  function Enter(flat: Flat, keys: seq<Key>, h: Host): Flat
    decreases |keys|
  {
    if keys == [] then flat else Enter(flat[keys[0] := h], keys[1..], h)
  }

  // ---------- Whole runs of `add_host` ----------

  /** One host to add; `built` says whether `Host::new` could make it of its configuration. */
  datatype Item = Item(host: Host, built: bool, answers: seq<Answer>) {
    predicate Answered() {
      |answers| == |host.config.binds|
    }
  }

  predicate AllAnswered(items: seq<Item>) {
    forall i :: 0 <= i < |items| ==> items[i].Answered()
  }

  /** Hosts are added one after the other; the first error ends the run. */
  function AddAll(ls: seq<ListenerView>, items: seq<Item>, workers: nat): (bool, seq<ListenerView>)
    requires AllAnswered(items)
    decreases |items|
  {
    if items == [] then (true, ls)
    else if !items[0].built then (false, ls)
    else
      var (ok, ls') := BindAll(ls, items[0].host, items[0].host.config.binds, items[0].answers, workers);
      if ok then AddAll(ls', items[1..], workers) else (false, ls')
  }

  function EnterAll(flat: Flat, items: seq<Item>): (bool, Flat)
    requires AllAnswered(items)
    decreases |items|
  {
    if items == [] then (true, flat)
    else if !items[0].built then (false, flat)
    else
      var (ok, keys) := HostKeysOf(items[0].host, items[0].host.config.binds, items[0].answers);
      var flat' := Enter(flat, keys, items[0].host);
      if ok then EnterAll(flat', items[1..]) else (false, flat')
  }

  // ---------- Refinement ----------

  predicate PairwiseDifferent(ls: seq<ListenerView>) {
    forall i, j :: 0 <= i < j < |ls| ==> !ls[i].Same(ls[j])
  }

  function KeyAt(l: ListenerView, hostname: string): Key {
    Key(l.transport, l.interface, l.port, hostname)
  }

  /** A listener's table holds, under printed keys, exactly the flat map's entries for its address. */
  ghost predicate TableAgrees(l: ListenerView, flat: Flat) {
    && (forall n: string :: KeyOf(l.transport, l.port, n) in l.hosts <==> KeyAt(l, n) in flat)
    && (forall n: string :: KeyAt(l, n) in flat ==> l.hosts[KeyOf(l.transport, l.port, n)] == flat[KeyAt(l, n)])
    && (forall k :: k in l.hosts ==> exists n: string :: k == KeyOf(l.transport, l.port, n))
  }

  predicate Owns(l: ListenerView, k: Key) {
    l.transport == k.transport && l.interface == k.interface && l.port == k.port
  }

  /** The tables together are the flat map: nothing lost, duplicated or misplaced. */
  ghost predicate Refines(ls: seq<ListenerView>, flat: Flat) {
    && PairwiseDifferent(ls)
    && (forall i :: 0 <= i < |ls| ==> TableAgrees(ls[i], flat))
    && (forall k :: k in flat ==> exists i :: 0 <= i < |ls| && Owns(ls[i], k))
  }

  /** Adding a host to a listener is entering it in the flat map under that listener's address. */
  lemma WithAgrees(l: ListenerView, flat: Flat, h: Host)
    requires TableAgrees(l, flat)
    ensures TableAgrees(l.With(h), flat[KeyAt(l, h.config.hostname) := h])
  {
    var l' := l.With(h);
    var flat' := flat[KeyAt(l, h.config.hostname) := h];
    forall n: string
      ensures KeyOf(l'.transport, l'.port, n) in l'.hosts <==> KeyAt(l', n) in flat'
      ensures KeyAt(l', n) in flat' ==> l'.hosts[KeyOf(l'.transport, l'.port, n)] == flat'[KeyAt(l', n)]
    {
      if KeyOf(l.transport, l.port, n) == KeyOf(l.transport, l.port, h.config.hostname) {
        KeyInjective(l.transport, l.port, n, h.config.hostname);
      }
    }
  }

  /** A key entered elsewhere leaves a listener's agreement alone. */
  lemma OtherAgrees(l: ListenerView, flat: Flat, k: Key, h: Host)
    requires TableAgrees(l, flat) && !Owns(l, k)
    ensures TableAgrees(l, flat[k := h])
  {
    assert forall n: string :: KeyAt(l, n) != k;
  }

  lemma EmptyAgrees(l: ListenerView, flat: Flat)
    requires l.hosts == map[] && forall k :: k in flat ==> !Owns(l, k)
    ensures TableAgrees(l, flat)
  {}

  lemma MergeAgrees(ls: seq<ListenerView>, flat: Flat, l: ListenerView, h: Host, i: nat)
    requires Refines(ls, flat) && l.hosts == map[] && i < |Merge(ls, l, h)|
    ensures TableAgrees(Merge(ls, l, h)[i], flat[KeyAt(l, h.config.hostname) := h])
  {
    var p := Position(ls, l);
    hide TableAgrees;
    if i == p && p < |ls| {
      WithAgrees(ls[p], flat, h);
    } else if i == |ls| {
      forall k | k in flat ensures !Owns(l, k) {
        var j :| 0 <= j < |ls| && Owns(ls[j], k);
        assert !ls[j].Same(l);
      }
      EmptyAgrees(l, flat);
      WithAgrees(l, flat, h);
    } else {
      assert !ls[i].Same(l) by {
        if i > p {
          assert !ls[p].Same(ls[i]);
        }
      }
      OtherAgrees(ls[i], flat, KeyAt(l, h.config.hostname), h);
    }
  }

  lemma MergeRefines(ls: seq<ListenerView>, flat: Flat, l: ListenerView, h: Host)
    requires Refines(ls, flat) && l.hosts == map[]
    ensures Refines(Merge(ls, l, h), flat[KeyAt(l, h.config.hostname) := h])
  {
    var key := KeyAt(l, h.config.hostname);
    var flat' := flat[key := h];
    var ls' := Merge(ls, l, h);
    var p := Position(ls, l);
    hide TableAgrees;
    forall i | 0 <= i < |ls'| ensures TableAgrees(ls'[i], flat') {
      MergeAgrees(ls, flat, l, h, i);
    }
    forall k | k in flat' ensures exists i :: 0 <= i < |ls'| && Owns(ls'[i], k) {
      if k == key {
        assert Owns(ls'[p], k);
      } else {
        var j :| 0 <= j < |ls| && Owns(ls[j], k);
        assert Owns(ls'[j], k);
      }
    }
  }

  lemma {:induction false} EnterConcat(flat: Flat, a: seq<Key>, b: seq<Key>, h: Host)
    ensures Enter(flat, a + b, h) == Enter(Enter(flat, a, h), b, h)
    decreases |a|
  {
    if a == [] {
      assert a + b == b;
    } else {
      EnterConcat(flat[a[0] := h], a[1..], b, h);
      assert (a + b)[1..] == a[1..] + b;
    }
  }

  lemma TcpRefines(ls: seq<ListenerView>, flat: Flat, h: Host, b: Bind, a: Answer, workers: nat)
    requires Refines(ls, flat)
    ensures BindTcp(ls, h, b, a, workers).0 == TcpKeys(h, b, a).0
    ensures Refines(BindTcp(ls, h, b, a, workers).1, Enter(flat, TcpKeys(h, b, a).1, h))
  {
    hide Refines, Merge;
    var keys := TcpKeys(h, b, a).1;
    if keys != [] {
      assert keys[1..] == [];
      var l := NewView(Tcp, b, workers);
      MergeRefines(ls, flat, if b.port == 0 then Reserved(l, keys[0].port) else l, h);
    }
  }

  lemma UdpRefines(ls: seq<ListenerView>, flat: Flat, h: Host, b: Bind, a: Answer, workers: nat, shared: Port)
    requires Refines(ls, flat)
    requires shared == if WantsTcp(h) && b.port == 0 && a.tcp.Some? then a.tcp.value else 0
    ensures BindUdp(ls, h, b, a, workers, shared).0 == UdpKeys(h, b, a).0
    ensures Refines(BindUdp(ls, h, b, a, workers, shared).1, Enter(flat, UdpKeys(h, b, a).1, h))
  {
    hide Refines, Merge;
    var keys := UdpKeys(h, b, a).1;
    if keys != [] {
      assert keys[1..] == [];
      var l := NewView(Udp, b, workers);
      var m := if shared > 0 then l.(port := shared) else if b.port != 0 then l else Reserved(l, keys[0].port);
      MergeRefines(ls, flat, m, h);
    }
  }

  lemma BindOneRefines(ls: seq<ListenerView>, flat: Flat, h: Host, b: Bind, a: Answer, workers: nat)
    requires Refines(ls, flat)
    ensures BindOne(ls, h, b, a, workers).0 == BindKeys(h, b, a).0
    ensures Refines(BindOne(ls, h, b, a, workers).1, Enter(flat, BindKeys(h, b, a).1, h))
  {
    if a.configOk {
      TcpRefines(ls, flat, h, b, a, workers);
      var (okTcp, ls1, shared) := BindTcp(ls, h, b, a, workers);
      if okTcp {
        UdpRefines(ls1, Enter(flat, TcpKeys(h, b, a).1, h), h, b, a, workers, shared);
        hide Refines, Enter;
        EnterConcat(flat, TcpKeys(h, b, a).1, UdpKeys(h, b, a).1, h);
      }
    }
  }

  lemma {:induction false} BindAllRefines(
      ls: seq<ListenerView>, flat: Flat, h: Host, bs: seq<Bind>, answers: seq<Answer>, workers: nat)
    requires |bs| == |answers| && Refines(ls, flat)
    ensures BindAll(ls, h, bs, answers, workers).0 == HostKeysOf(h, bs, answers).0
    ensures Refines(BindAll(ls, h, bs, answers, workers).1, Enter(flat, HostKeysOf(h, bs, answers).1, h))
    decreases |bs|
  {
    if bs != [] {
      BindOneRefines(ls, flat, h, bs[0], answers[0], workers);
      var (ok, ls1) := BindOne(ls, h, bs[0], answers[0], workers);
      var keys := BindKeys(h, bs[0], answers[0]).1;
      if ok {
        BindAllRefines(ls1, Enter(flat, keys, h), h, bs[1..], answers[1..], workers);
        EnterConcat(flat, keys, HostKeysOf(h, bs[1..], answers[1..]).1, h);
      }
    }
  }

  lemma {:induction false} AddAllRefines(ls: seq<ListenerView>, flat: Flat, items: seq<Item>, workers: nat)
    requires AllAnswered(items) && Refines(ls, flat)
    ensures AddAll(ls, items, workers).0 == EnterAll(flat, items).0
    ensures Refines(AddAll(ls, items, workers).1, EnterAll(flat, items).1)
    decreases |items|
  {
    hide Refines;
    if items != [] && items[0].built {
      var h := items[0].host;
      BindAllRefines(ls, flat, h, h.config.binds, items[0].answers, workers);
      var (ok, ls1) := BindAll(ls, h, h.config.binds, items[0].answers, workers);
      if ok {
        AddAllRefines(ls1, Enter(flat, HostKeysOf(h, h.config.binds, items[0].answers).1, h), items[1..], workers);
      }
    }
  }

  /**
   For every sequence of hosts and whatever ports the system hands out, the listeners' tables are
   the flat map of last registrations, up to the first error if there is one.
   */
  lemma RegistrationRefinesFlatMap(items: seq<Item>, workers: nat)
    requires AllAnswered(items)
    ensures AddAll([], items, workers).0 == EnterAll(map[], items).0
    ensures Refines(AddAll([], items, workers).1, EnterAll(map[], items).1)
  {
    AddAllRefines([], map[], items, workers);
  }
}
