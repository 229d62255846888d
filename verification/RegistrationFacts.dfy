/** What registration keeps in the vector of listeners, and what a host gets from it. */
module RegistrationFacts {
  import opened Prelude
  import opened HostModel
  import opened HostKeys
  import opened Listeners
  import opened Registration

  // ---------- The vector over runs ----------

  /** Later additions leave an entry where it is, as it is configured, and only add hosts to it. */
  predicate Kept(l: ListenerView, m: ListenerView) {
    l.(hosts := m.hosts) == m && l.hosts.Keys <= m.hosts.Keys
  }

  predicate Extends(ls: seq<ListenerView>, ms: seq<ListenerView>) {
    |ls| <= |ms| && forall i :: 0 <= i < |ls| ==> Kept(ls[i], ms[i])
  }

  /**
   No entry waits for port 0, a reserved socket is bound to its entry's address, and each entry is
   configured for the server's number of workers.
   */
  predicate Settled(ls: seq<ListenerView>, workers: nat) {
    forall i :: 0 <= i < |ls| ==> ls[i].port != 0 && ls[i].InnerBound() && ls[i].workers == workers
  }

  /** The system never hands out port 0. */
  predicate RealPorts(a: Answer) {
    (a.tcp.Some? ==> a.tcp.value != 0) && (a.udp.Some? ==> a.udp.value != 0)
  }

  predicate AllReal(answers: seq<Answer>) {
    forall i :: 0 <= i < |answers| ==> RealPorts(answers[i])
  }

  lemma ExtendsTransitive(ls: seq<ListenerView>, ms: seq<ListenerView>, ns: seq<ListenerView>)
    requires Extends(ls, ms) && Extends(ms, ns)
    ensures Extends(ls, ns)
  {
    forall i | 0 <= i < |ls| ensures Kept(ls[i], ns[i]) {
      assert Kept(ls[i], ms[i]) && Kept(ms[i], ns[i]);
    }
  }

  lemma MergeExtends(ls: seq<ListenerView>, l: ListenerView, h: Host)
    requires Settled(ls, l.workers) && l.port != 0 && l.InnerBound()
    ensures Extends(ls, Merge(ls, l, h)) && Settled(Merge(ls, l, h), l.workers)
  {}

  lemma BindOneExtends(ls: seq<ListenerView>, h: Host, b: Bind, a: Answer, workers: nat)
    requires Settled(ls, workers) && RealPorts(a)
    ensures Extends(ls, BindOne(ls, h, b, a, workers).1) && Settled(BindOne(ls, h, b, a, workers).1, workers)
  {
    hide Merge;
    if a.configOk {
      var (okTcp, ls1, shared) := BindTcp(ls, h, b, a, workers);
      var l := NewView(Tcp, b, workers);
      if WantsTcp(h) && okTcp {
        MergeExtends(ls, if b.port != 0 then l else Reserved(l, shared), h);
      }
      if okTcp && WantsUdp(h) {
        var m := NewView(Udp, b, workers);
        if shared > 0 {
          MergeExtends(ls1, m.(port := shared), h);
        } else if b.port != 0 {
          MergeExtends(ls1, m, h);
        } else if a.udp.Some? {
          MergeExtends(ls1, Reserved(m, a.udp.value), h);
        }
        ExtendsTransitive(ls, ls1, BindUdp(ls1, h, b, a, workers, shared).1);
      }
    }
  }

  lemma {:induction false} BindAllExtends(ls: seq<ListenerView>, h: Host, bs: seq<Bind>, answers: seq<Answer>, workers: nat)
    requires |bs| == |answers| && Settled(ls, workers) && AllReal(answers)
    ensures Extends(ls, BindAll(ls, h, bs, answers, workers).1) && Settled(BindAll(ls, h, bs, answers, workers).1, workers)
    decreases |bs|
  {
    if bs != [] {
      BindOneExtends(ls, h, bs[0], answers[0], workers);
      var (ok, ls1) := BindOne(ls, h, bs[0], answers[0], workers);
      if ok {
        BindAllExtends(ls1, h, bs[1..], answers[1..], workers);
        ExtendsTransitive(ls, ls1, BindAll(ls, h, bs, answers, workers).1);
      }
    }
  }

  lemma {:induction false} AddAllExtends(ls: seq<ListenerView>, items: seq<Item>, workers: nat)
    requires AllAnswered(items) && Settled(ls, workers) && forall i :: 0 <= i < |items| ==> AllReal(items[i].answers)
    ensures Extends(ls, AddAll(ls, items, workers).1) && Settled(AddAll(ls, items, workers).1, workers)
    decreases |items|
  {
    if items != [] && items[0].built {
      var h := items[0].host;
      BindAllExtends(ls, h, h.config.binds, items[0].answers, workers);
      var (ok, ls1) := BindAll(ls, h, h.config.binds, items[0].answers, workers);
      if ok {
        AddAllExtends(ls1, items[1..], workers);
        ExtendsTransitive(ls, ls1, AddAll(ls, items, workers).1);
      }
    }
  }

  lemma {:induction false} AddAllSplits(ls: seq<ListenerView>, first: seq<Item>, then_: seq<Item>, workers: nat)
    requires AllAnswered(first) && AllAnswered(then_) && AddAll(ls, first, workers).0
    ensures AllAnswered(first + then_)
    ensures AddAll(ls, first + then_, workers) == AddAll(AddAll(ls, first, workers).1, then_, workers)
    decreases |first|
  {
    if first == [] {
      assert first + then_ == then_;
    } else {
      var h := first[0].host;
      var ls1 := BindAll(ls, h, h.config.binds, first[0].answers, workers).1;
      AddAllSplits(ls1, first[1..], then_, workers);
      assert (first + then_)[1..] == first[1..] + then_;
      assert (first + then_)[0] == first[0];
    }
  }

  predicate RealItems(items: seq<Item>) {
    AllAnswered(items) && forall i :: 0 <= i < |items| ==> AllReal(items[i].answers)
  }

  /**
   Over all runs, with real ports: the entries are pairwise different, none keeps port 0, each reserved
   socket is bound to its entry's address, and each entry has the server's number of workers.
   */
  lemma VectorOverRuns(items: seq<Item>, workers: nat)
    requires RealItems(items)
    ensures PairwiseDifferent(AddAll([], items, workers).1) && Settled(AddAll([], items, workers).1, workers)
  {
    AddAllExtends([], items, workers);
    RegistrationRefinesFlatMap(items, workers);
  }

  /** Continuing a run never moves, removes or reconfigures an entry; it only adds hosts to it. */
  lemma LaterAdditionsKeepEntries(first: seq<Item>, later: seq<Item>, workers: nat)
    requires RealItems(first) && RealItems(later) && AddAll([], first, workers).0
    ensures AllAnswered(first + later)
    ensures Extends(AddAll([], first, workers).1, AddAll([], first + later, workers).1)
  {
    AddAllSplits([], first, later, workers);
    AddAllExtends([], first, workers);
    AddAllExtends(AddAll([], first, workers).1, later, workers);
  }

  /** The host could be made, and each of its bind addresses got its configuration and its ports. */
  predicate Works(item: Item)
    requires item.Answered()
  {
    item.built && HostKeysOf(item.host, item.host.config.binds, item.answers).0
  }

  lemma {:induction false} EnterAllSucceeds(flat: Flat, items: seq<Item>)
    requires AllAnswered(items)
    ensures EnterAll(flat, items).0 <==> forall i :: 0 <= i < |items| ==> Works(items[i])
    decreases |items|
  {
    if items != [] {
      if Works(items[0]) {
        var h := items[0].host;
        EnterAllSucceeds(Enter(flat, HostKeysOf(h, h.config.binds, items[0].answers).1, h), items[1..]);
        assert forall i :: 1 <= i < |items| ==> items[i] == items[1..][i - 1];
      }
    }
  }

  // ---------- Port agreement ----------

  /** With both transports, each bind address yields a TCP and a UDP key on one interface and port. */
  lemma PortAgreement(h: Host, b: Bind, a: Answer)
    requires WantsTcp(h) && WantsUdp(h) && RealPorts(a) && BindKeys(h, b, a).0
    ensures exists p: Port :: p != 0 && (b.port != 0 ==> p == b.port)
              && BindKeys(h, b, a).1 == [Key(Tcp, b.interface, p, h.config.hostname),
                                         Key(Udp, b.interface, p, h.config.hostname)]
  {
    var p := if b.port != 0 then b.port else a.tcp.value;
    assert BindKeys(h, b, a).1 == [Key(Tcp, b.interface, p, h.config.hostname), Key(Udp, b.interface, p, h.config.hostname)];
  }

  /**
   What a host lists decides its transports: HTTP/1.1 or HTTP/2 a TCP listener and HTTP/3 a UDP one on
   each bind address, and nothing else. It is at the configured port if there is one; at port 0 the
   system chooses, once for both transports.
   */
  lemma ProtocolsDecide(h: Host, b: Bind, a: Answer)
    requires BindKeys(h, b, a).0
    ensures var keys := BindKeys(h, b, a).1;
            && ((exists k :: k in keys && k.transport == Tcp) <==> Http11 in h.config.protos || Http2 in h.config.protos)
            && ((exists k :: k in keys && k.transport == Udp) <==> Http3 in h.config.protos)
            && |keys| <= 2
            && forall k :: k in keys ==>
                 && k.interface == b.interface && k.hostname == h.config.hostname
                 && (b.port != 0 ==> k.port == b.port)
                 && (b.port == 0 && k.transport.Tcp? ==> a.tcp == Some(k.port))
                 && (b.port == 0 && k.transport.Udp? && RealPorts(a) ==>
                       Some(k.port) == if Http11 in h.config.protos || Http2 in h.config.protos then a.tcp else a.udp)
  {
    var tcp, udp := TcpKeys(h, b, a).1, UdpKeys(h, b, a).1;
    if Http11 in h.config.protos || Http2 in h.config.protos {
      assert tcp[0] in tcp + udp && tcp[0].transport == Tcp;
    }
    if Http3 in h.config.protos {
      assert udp[0] in tcp + udp && udp[0].transport == Udp;
    }
  }

  lemma {:induction false} EnterKeeps(flat: Flat, keys: seq<Key>, h: Host, k: Key)
    ensures k in Enter(flat, keys, h) <==> k in flat || k in keys
    ensures k in keys ==> Enter(flat, keys, h)[k] == h
    ensures k in flat && k !in keys ==> Enter(flat, keys, h)[k] == flat[k]
    decreases |keys|
  {
    if keys != [] {
      EnterKeeps(flat[keys[0] := h], keys[1..], h, k);
      assert keys == [keys[0]] + keys[1..];
    }
  }

  /** A key of one of the bind addresses is among the keys of the host. */
  lemma {:induction false} KeysOfBind(h: Host, bs: seq<Bind>, answers: seq<Answer>, i: nat, k: Key)
    requires |bs| == |answers| && i < |bs| && HostKeysOf(h, bs, answers).0
    requires k in BindKeys(h, bs[i], answers[i]).1
    ensures BindKeys(h, bs[i], answers[i]).0 && k in HostKeysOf(h, bs, answers).1
    decreases |bs|
  {
    if i > 0 {
      KeysOfBind(h, bs[1..], answers[1..], i - 1, k);
    }
  }

  lemma {:induction false} BindSucceeds(h: Host, bs: seq<Bind>, answers: seq<Answer>, i: nat)
    requires |bs| == |answers| && i < |bs| && HostKeysOf(h, bs, answers).0
    ensures BindKeys(h, bs[i], answers[i]).0
    decreases |bs|
  {
    if i > 0 {
      BindSucceeds(h, bs[1..], answers[1..], i - 1);
    }
  }

  lemma OwnerOf(ls: seq<ListenerView>, flat: Flat, k: Key) returns (i: nat)
    requires Refines(ls, flat) && k in flat
    ensures i < |ls| && Owns(ls[i], k) && flat[k] in ls[i].hosts.Values
  {
    i :| 0 <= i < |ls| && Owns(ls[i], k);
    assert TableAgrees(ls[i], flat);
    assert KeyAt(ls[i], k.hostname) == k;
    hide KeyOf;
    assert KeyOf(ls[i].transport, ls[i].port, k.hostname) in ls[i].hosts;
  }

  lemma HeldSomewhere(ls: seq<ListenerView>, flat: Flat, keys: seq<Key>, h: Host, k: Key) returns (i: nat)
    requires Refines(ls, Enter(flat, keys, h)) && k in keys
    ensures i < |ls| && Owns(ls[i], k) && h in ls[i].hosts.Values
  {
    EnterKeeps(flat, keys, h, k);
    i := OwnerOf(ls, Enter(flat, keys, h), k);
  }

  /**
   After a host with both transports has been added, each of its bind addresses, port 0 included,
   has a TCP and a UDP listener on the same interface and port, and both hold the host.
   */
  lemma BothTransportsShareThePort(ls: seq<ListenerView>, flat: Flat, h: Host, answers: seq<Answer>, workers: nat, i: nat)
    requires Refines(ls, flat) && |answers| == |h.config.binds| && AllReal(answers) && i < |answers|
    requires (Http11 in h.config.protos || Http2 in h.config.protos) && Http3 in h.config.protos
    requires BindAll(ls, h, h.config.binds, answers, workers).0
    ensures var ls' := BindAll(ls, h, h.config.binds, answers, workers).1;
            var b := h.config.binds[i];
            exists t, u :: 0 <= t < |ls'| && 0 <= u < |ls'| && ls'[t].transport == Tcp && ls'[u].transport == Udp
              && ls'[t].interface == ls'[u].interface == b.interface
              && ls'[t].port == ls'[u].port && (b.port != 0 ==> ls'[t].port == b.port)
              && h in ls'[t].hosts.Values && h in ls'[u].hosts.Values
  {
    var ls' := BindAll(ls, h, h.config.binds, answers, workers).1;
    var (ok, keys) := HostKeysOf(h, h.config.binds, answers);
    BindAllRefines(ls, flat, h, h.config.binds, answers, workers);
    BindSucceeds(h, h.config.binds, answers, i);
    PortAgreement(h, h.config.binds[i], answers[i]);
    var mine := BindKeys(h, h.config.binds[i], answers[i]).1;
    KeysOfBind(h, h.config.binds, answers, i, mine[0]);
    KeysOfBind(h, h.config.binds, answers, i, mine[1]);
    hide BindAll, HostKeysOf, BindKeys, Refines;
    var t := HeldSomewhere(ls', flat, keys, h, mine[0]);
    var u := HeldSomewhere(ls', flat, keys, h, mine[1]);
  }

  /** Every socket reserved for UDP in `ms` was reserved in `ls` already. */
  predicate NoNewUdpSocket(ls: seq<ListenerView>, ms: seq<ListenerView>) {
    forall i :: 0 <= i < |ms| && ms[i].transport.Udp? && ms[i].inner.Some? ==>
      i < |ls| && ls[i].transport.Udp? && ls[i].inner == ms[i].inner
  }

  lemma MergeReservesNothing(ls: seq<ListenerView>, ms: seq<ListenerView>, l: ListenerView, h: Host)
    requires NoNewUdpSocket(ls, ms) && (l.transport.Tcp? || l.inner.None?)
    ensures NoNewUdpSocket(ls, Merge(ms, l, h))
  {}

  /** A host with a TCP listener never has a socket reserved for UDP: TCP has chosen the port. */
  lemma SharedPortReservesOnce(ls: seq<ListenerView>, h: Host, b: Bind, a: Answer, workers: nat)
    requires Http11 in h.config.protos || Http2 in h.config.protos
    requires RealPorts(a)
    ensures NoNewUdpSocket(ls, BindOne(ls, h, b, a, workers).1)
  {
    var (okTcp, ls1, shared) := BindTcp(ls, h, b, a, workers);
    var t := NewView(Tcp, b, workers);
    var u := NewView(Udp, b, workers);
    MergeReservesNothing(ls, ls, if b.port != 0 then t else Reserved(t, shared), h);
    MergeReservesNothing(ls, ls1, if shared > 0 then u.(port := shared) else u, h);
    hide Merge, NoNewUdpSocket;
  }

  lemma {:induction false} NotReplaced(flat: Flat, items: seq<Item>, k: Key)
    requires AllAnswered(items)
    requires forall j :: 0 <= j < |items| ==>
               k !in HostKeysOf(items[j].host, items[j].host.config.binds, items[j].answers).1
    ensures Lookup(EnterAll(flat, items).1, k) == Lookup(flat, k)
    decreases |items|
  {
    if items != [] && items[0].built {
      var h := items[0].host;
      var (ok, keys) := HostKeysOf(h, h.config.binds, items[0].answers);
      EnterKeeps(flat, keys, h, k);
      if ok {
        NotReplaced(Enter(flat, keys, h), items[1..], k);
      }
    }
  }

  /** The last of the hosts registered under a key is the one found there. */
  lemma {:induction false} LastHostWins(flat: Flat, items: seq<Item>, i: nat, k: Key)
    requires AllAnswered(items) && i < |items| && (forall j :: 0 <= j < |items| ==> Works(items[j]))
    requires k in HostKeysOf(items[i].host, items[i].host.config.binds, items[i].answers).1
    requires forall j :: i < j < |items| ==>
               k !in HostKeysOf(items[j].host, items[j].host.config.binds, items[j].answers).1
    ensures Lookup(EnterAll(flat, items).1, k) == Some(items[i].host)
    decreases |items|
  {
    var h := items[0].host;
    var keys := HostKeysOf(h, h.config.binds, items[0].answers).1;
    assert Works(items[0]);
    hide HostKeysOf;
    if i > 0 {
      assert forall j :: 0 <= j < |items| - 1 ==> items[1..][j] == items[j + 1];
      LastHostWins(Enter(flat, keys, h), items[1..], i - 1, k);
    } else {
      EnterKeeps(flat, keys, h, k);
      NotReplaced(Enter(flat, keys, h), items[1..], k);
    }
  }

  /**
   After a host has been added, each of its bind addresses has a TCP listener that holds it if it
   lists HTTP/1.1 or HTTP/2, and a UDP listener that holds it if it lists HTTP/3.
   */
  lemma HostIsServed(
      ls: seq<ListenerView>, flat: Flat, h: Host, answers: seq<Answer>, workers: nat, i: nat, t: Transport)
    requires Refines(ls, flat) && |answers| == |h.config.binds| && i < |answers|
    requires BindAll(ls, h, h.config.binds, answers, workers).0
    requires t.Tcp? ==> Http11 in h.config.protos || Http2 in h.config.protos
    requires t.Udp? ==> Http3 in h.config.protos
    ensures var ls' := BindAll(ls, h, h.config.binds, answers, workers).1;
            var b := h.config.binds[i];
            exists j :: 0 <= j < |ls'| && ls'[j].transport == t && ls'[j].interface == b.interface
              && (b.port != 0 ==> ls'[j].port == b.port) && h in ls'[j].hosts.Values
  {
    var ls' := BindAll(ls, h, h.config.binds, answers, workers).1;
    BindAllRefines(ls, flat, h, h.config.binds, answers, workers);
    BindSucceeds(h, h.config.binds, answers, i);
    ProtocolsDecide(h, h.config.binds[i], answers[i]);
    var keys := HostKeysOf(h, h.config.binds, answers).1;
    var k :| k in BindKeys(h, h.config.binds[i], answers[i]).1 && k.transport == t;
    KeysOfBind(h, h.config.binds, answers, i, k);
    hide BindAll, HostKeysOf, BindKeys, Refines;
    var j := HeldSomewhere(ls', flat, keys, h, k);
  }

  // ---------- Finding a host by request authority ----------

  lemma LookupAgrees(l: ListenerView, flat: Flat, n: string)
    requires TableAgrees(l, flat)
    ensures Lookup(l.hosts, KeyOf(l.transport, l.port, n)) == Lookup(flat, KeyAt(l, n))
  {
    hide KeyOf;
  }

  /** Plain http on TCP port 443 and https on TCP port 80. */
  predicate Crossed(t: Transport, scheme: Scheme, port: Port) {
    t.Tcp? && ((scheme.Http? && port == 443) || (scheme.Https? && port == 80))
  }

  lemma AuthorityAgrees(l: ListenerView, flat: Flat, scheme: Scheme, hostname: string)
    requires TableAgrees(l, flat) && (l.transport.Udp? ==> scheme.Https?)
    ensures var name := if Crossed(l.transport, scheme, l.port) then WithPort(hostname, l.port) else hostname;
            Lookup(l.hosts, Authority(scheme, hostname, l.port)) == Lookup(flat, KeyAt(l, name))
  {
    var name := if Crossed(l.transport, scheme, l.port) then WithPort(hostname, l.port) else hostname;
    assert Authority(scheme, hostname, l.port) == KeyOf(l.transport, l.port, name);
    LookupAgrees(l, flat, name);
    hide TableAgrees, KeyOf, Authority;
  }

  /**
   After any run of registrations a request with a normalised authority finds the last host
   registered on that listener under its hostname, and nothing else. On the two crossed ports it
   finds the host registered under the hostname with the port written out instead.
   */
  lemma RequestFindsItsHost(items: seq<Item>, workers: nat, i: nat, scheme: Scheme, hostname: string)
    requires AllAnswered(items) && i < |AddAll([], items, workers).1|
    requires AddAll([], items, workers).1[i].transport.Udp? ==> scheme.Https?
    ensures var l := AddAll([], items, workers).1[i];
            var name := if Crossed(l.transport, scheme, l.port) then WithPort(hostname, l.port) else hostname;
            Lookup(l.hosts, Authority(scheme, hostname, l.port)) == Lookup(EnterAll(map[], items).1, KeyAt(l, name))
  {
    hide TableAgrees, AddAll, EnterAll, Authority, WithPort, KeyAt;
    RegistrationRefinesFlatMap(items, workers);
    assert TableAgrees(AddAll([], items, workers).1[i], EnterAll(map[], items).1);
    AuthorityAgrees(AddAll([], items, workers).1[i], EnterAll(map[], items).1, scheme, hostname);
  }

  /** Each entry of the flat map holds a host of the entry's own hostname. */
  predicate Named(flat: Flat) {
    forall k :: k in flat ==> flat[k].config.hostname == k.hostname
  }

  predicate KeysNamed(keys: seq<Key>, hostname: string) {
    forall i :: 0 <= i < |keys| ==> keys[i].hostname == hostname
  }

  lemma {:induction false} KeysBearTheName(h: Host, bs: seq<Bind>, answers: seq<Answer>)
    requires |bs| == |answers|
    ensures KeysNamed(HostKeysOf(h, bs, answers).1, h.config.hostname)
  {
    if bs != [] {
      assert KeysNamed(BindKeys(h, bs[0], answers[0]).1, h.config.hostname);
      KeysBearTheName(h, bs[1..], answers[1..]);
    }
  }

  lemma {:induction false} EnterKeepsNamed(flat: Flat, keys: seq<Key>, h: Host)
    requires Named(flat) && KeysNamed(keys, h.config.hostname)
    ensures Named(Enter(flat, keys, h))
    decreases |keys|
  {
    if keys != [] {
      EnterKeepsNamed(flat[keys[0] := h], keys[1..], h);
    }
  }

  lemma {:induction false} EnterAllKeepsNamed(flat: Flat, items: seq<Item>)
    requires AllAnswered(items) && Named(flat)
    ensures Named(EnterAll(flat, items).1)
    decreases |items|
  {
    if items != [] && items[0].built {
      var h := items[0].host;
      KeysBearTheName(h, h.config.binds, items[0].answers);
      var (ok, keys) := HostKeysOf(h, h.config.binds, items[0].answers);
      EnterKeepsNamed(flat, keys, h);
      if ok {
        EnterAllKeepsNamed(Enter(flat, keys, h), items[1..]);
      }
    }
  }

  /**
   After any run of registrations, the host last registered on a listener under a hostname bears
   that hostname, and a request with the normalised authority finds it exactly off the crossed ports.
   */
  lemma FoundExactly(items: seq<Item>, workers: nat, i: nat, scheme: Scheme, hostname: string, h: Host)
    requires AllAnswered(items) && i < |AddAll([], items, workers).1|
    requires AddAll([], items, workers).1[i].transport.Udp? ==> scheme.Https?
    requires Lookup(EnterAll(map[], items).1, KeyAt(AddAll([], items, workers).1[i], hostname)) == Some(h)
    ensures h.config.hostname == hostname
    ensures var l := AddAll([], items, workers).1[i];
            Lookup(l.hosts, Authority(scheme, hostname, l.port)) == Some(h) <==> !Crossed(l.transport, scheme, l.port)
  {
    var l := AddAll([], items, workers).1[i];
    RequestFindsItsHost(items, workers, i, scheme, hostname);
    EnterAllKeepsNamed(map[], items);
    hide AddAll, EnterAll, Authority;
    assert |WithPort(hostname, l.port)| > |hostname|;
  }

  /** No request finds a host of another hostname than the one its authority stands for. */
  lemma FoundBearsTheName(items: seq<Item>, workers: nat, i: nat, scheme: Scheme, hostname: string, h: Host)
    requires AllAnswered(items) && i < |AddAll([], items, workers).1|
    requires AddAll([], items, workers).1[i].transport.Udp? ==> scheme.Https?
    requires var l := AddAll([], items, workers).1[i];
             Lookup(l.hosts, Authority(scheme, hostname, l.port)) == Some(h)
    ensures var l := AddAll([], items, workers).1[i];
            h.config.hostname == if Crossed(l.transport, scheme, l.port) then WithPort(hostname, l.port) else hostname
  {
    RequestFindsItsHost(items, workers, i, scheme, hostname);
    EnterAllKeepsNamed(map[], items);
    hide AddAll, EnterAll, Authority, WithPort;
  }

  // ---------- Removing a host ----------

  /** `remove_host` with the name a host was added under undoes the addition exactly on bare ports. */
  lemma RemoveUndoesAddExactly(l: ListenerView, h: Host)
    requires KeyOf(l.transport, l.port, h.config.hostname) !in l.hosts
    ensures l.With(h).hosts - {h.config.hostname} == l.hosts <==> Bare(l.transport, l.port)
  {
    var key := KeyOf(l.transport, l.port, h.config.hostname);
    if Bare(l.transport, l.port) {
      assert l.With(h).hosts - {key} == l.hosts;
    } else {
      assert |key| > |h.config.hostname|;
      assert key in l.With(h).hosts - {h.config.hostname};
    }
  }
}
