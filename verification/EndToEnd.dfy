/** From registration to the host that serves a request. */
module EndToEnd {
  import opened Prelude
  import opened HostModel
  import opened HostKeys
  import opened Listeners
  import opened Registration
  import opened RegistrationFacts
  import opened Routing
  import opened Services
  import TlsSetup

  /** The host last registered on listener `l` under `hostname`. */
  function LastRegistered(items: seq<Item>, l: ListenerView, hostname: string): Option<Host>
    requires AllAnswered(items)
  {
    Lookup(EnterAll(map[], items).1, KeyAt(l, hostname))
  }

  /**
   After any run of registrations, a request to a TCP listener whose URI, or without an authority in it
   whose Host header, has the normalised authority of `hostname` there is routed to the host last
   registered under that name, unless that host redirects it, and to none if there is no such host;
   the crossed ports aside.
   */
  lemma HttpRequestReachesItsHost(items: seq<Item>, workers: nat, i: nat, scheme: Scheme, hostname: string, req: Request)
    requires AllAnswered(items) && i < |AddAll([], items, workers).1|
    requires AddAll([], items, workers).1[i].transport == Tcp
    requires !Crossed(Tcp, scheme, AddAll([], items, workers).1[i].port)
    requires var authority := Authority(scheme, hostname, AddAll([], items, workers).1[i].port);
             req.authority == Some(authority) || (req.authority.None? && req.hostHeader == Some(authority))
    ensures var l := AddAll([], items, workers).1[i];
            var last := LastRegistered(items, l, hostname);
            && RoutedHttp(l.hosts, req) == (if last.Some? && Redirects(last.value, req) then None else last)
            && (last.Some? ==> last.value.config.hostname == hostname)
  {
    hide AddAll, EnterAll, Authority;
    RequestFindsItsHost(items, workers, i, scheme, hostname);
    EnterAllKeepsNamed(map[], items);
  }

  /** The same on a UDP listener, for https and every port. */
  lemma QuicRequestReachesItsHost(items: seq<Item>, workers: nat, i: nat, hostname: string, req: Request)
    requires AllAnswered(items) && i < |AddAll([], items, workers).1|
    requires AddAll([], items, workers).1[i].transport == Udp
    requires req.authority == Some(Authority(Https, hostname, AddAll([], items, workers).1[i].port))
    ensures var l := AddAll([], items, workers).1[i];
            && RoutedQuic(l.hosts, req) == LastRegistered(items, l, hostname)
            && (RoutedQuic(l.hosts, req).Some? ==> RoutedQuic(l.hosts, req).value.config.hostname == hostname)
  {
    hide AddAll, EnterAll, Authority;
    RequestFindsItsHost(items, workers, i, Https, hostname);
    EnterAllKeepsNamed(map[], items);
  }

  /** And so such a request is answered: 502 without such a host, else by that host's route or a redirect. */
  lemma HttpRequestIsServed(items: seq<Item>, workers: nat, i: nat, scheme: Scheme, hostname: string, req: Request,
                            w: World, rules: Rules, r: Result<Response, VetisError>, calls: seq<Call>)
    requires AllAnswered(items) && i < |AddAll([], items, workers).1|
    requires AddAll([], items, workers).1[i].transport == Tcp
    requires !Crossed(Tcp, scheme, AddAll([], items, workers).1[i].port)
    requires var authority := Authority(scheme, hostname, AddAll([], items, workers).1[i].port);
             req.authority == Some(authority) || (req.authority.None? && req.hostHeader == Some(authority))
    requires ServedHttp(AddAll([], items, workers).1[i].hosts, req, w, rules, r, calls)
    ensures match LastRegistered(items, AddAll([], items, workers).1[i], hostname)
            case None => calls == [] && r.Success? && r.value.status == 502
            case Some(h) =>
              && (!Redirects(h, req) ==> calls == Route(h, req.path, w).1)
              && (!Redirects(h, req) && r.Success? ==> Delivers(h, req, w, rules, r.value))
              && (Redirects(h, req) ==> calls == [] && (r.Success? ==> r.value.status == 308))
  {
    hide AddAll, EnterAll, Authority, Route, Redirects, Delivers, AllValid;
    RequestFindsItsHost(items, workers, i, scheme, hostname);
  }

  /** The same over HTTP/3: 400 without such a host, else that host's route. */
  lemma QuicRequestIsServed(items: seq<Item>, workers: nat, i: nat, hostname: string, req: Request,
                            w: World, rules: Rules, r: Result<Response, VetisError>, calls: seq<Call>)
    requires AllAnswered(items) && i < |AddAll([], items, workers).1|
    requires AddAll([], items, workers).1[i].transport == Udp
    requires req.authority == Some(Authority(Https, hostname, AddAll([], items, workers).1[i].port))
    requires ServedQuic(AddAll([], items, workers).1[i].hosts, req, w, rules, r, calls)
    ensures match LastRegistered(items, AddAll([], items, workers).1[i], hostname)
            case None => calls == [] && r.Success? && r.value.status == 400
            case Some(h) =>
              && calls == Route(h, req.path, w).1 && r.Success?
              && (Route(h, req.path, w).0.Success? ==> Delivers(h, req, w, rules, r.value))
              && (Route(h, req.path, w).0.Failure? ==> r.value.status == 500)
  {
    hide AddAll, EnterAll, Authority, Route, Delivers, AllValid;
    RequestFindsItsHost(items, workers, i, Https, hostname);
  }

  predicate LastHasTls(items: seq<Item>, l: ListenerView, hostname: string)
    requires AllAnswered(items)
  {
    LastRegistered(items, l, hostname).Some? && LastRegistered(items, l, hostname).value.tls.Some?
  }

  /** The names resolved are exactly those whose last registered host has TLS. */
  ghost predicate NamesTheLastHosts(items: seq<Item>, l: ListenerView, names: map<string, nat>)
    requires AllAnswered(items)
  {
    forall n: string :: n in names <==> LastHasTls(items, l, n)
  }

  ghost predicate TlsNamesReadable(items: seq<Item>, l: ListenerView)
    requires AllAnswered(items)
  {
    forall n: string :: LastHasTls(items, l, n) ==> TlsSetup.Readable(l, n)
  }

  /**
   After any run of registrations, a successful TLS set-up of a listener resolves exactly the names
   whose last registered host has TLS, if and only if all of them can be read back from their keys; and
   then each to that host's certificate; for any iteration order.
   */
  lemma TlsNamesTheLastHosts(items: seq<Item>, workers: nat, i: nat, order: seq<string>, names: map<string, nat>,
                             alpns: set<string>)
    requires AllAnswered(items) && i < |AddAll([], items, workers).1|
    requires var l := AddAll([], items, workers).1[i];
             (forall k :: k in order <==> k in l.hosts) && TlsSetup.Collected(l.hosts, order, names, alpns)
    ensures var l := AddAll([], items, workers).1[i];
            && (NamesTheLastHosts(items, l, names) <==> TlsNamesReadable(items, l))
            && (TlsNamesReadable(items, l) ==>
                  forall n: string :: n in names ==>
                    LastHasTls(items, l, n) && names[n] == LastRegistered(items, l, n).value.tls.value.cert)
  {
    hide AddAll, EnterAll, TableAgrees, TlsSetup.Collected, TlsSetup.Readable, KeyAt;
    var l := AddAll([], items, workers).1[i];
    var flat := EnterAll(map[], items).1;
    RegistrationRefinesFlatMap(items, workers);
    assert TableAgrees(l, flat);
    assert forall n: string :: TlsSetup.Secured(l, flat, n) <==> LastHasTls(items, l, n);
    assert TlsSetup.AllReadable(l, flat) <==> TlsNamesReadable(items, l);
    assert TlsSetup.ResolvesExactly(l, flat, names) <==> NamesTheLastHosts(items, l, names);
    TlsSetup.NamesAreTheTlsHostnames(l, flat, order, names, alpns);
  }

  /** And it offers a protocol exactly if one of those hosts does. */
  lemma TlsOffersTheirProtocols(items: seq<Item>, workers: nat, i: nat, order: seq<string>, names: map<string, nat>,
                                alpns: set<string>, p: string)
    requires AllAnswered(items) && i < |AddAll([], items, workers).1|
    requires var l := AddAll([], items, workers).1[i];
             (forall k :: k in order <==> k in l.hosts) && TlsSetup.Collected(l.hosts, order, names, alpns)
    ensures var l := AddAll([], items, workers).1[i];
            (p in alpns)
            <==> (exists n: string :: LastHasTls(items, l, n) && p in LastRegistered(items, l, n).value.tls.value.alpns)
  {
    hide AddAll, EnterAll, TableAgrees, TlsSetup.Collected, KeyAt;
    var l := AddAll([], items, workers).1[i];
    var flat := EnterAll(map[], items).1;
    RegistrationRefinesFlatMap(items, workers);
    assert TableAgrees(l, flat);
    TlsSetup.AlpnsAreTheUnion(l, flat, order, names, alpns, p);
    if n: string :| TlsSetup.Secured(l, flat, n) && p in TlsSetup.TlsOf(l, flat, n).alpns {
      assert LastHasTls(items, l, n) && p in LastRegistered(items, l, n).value.tls.value.alpns;
    }
    if n: string :| LastHasTls(items, l, n) && p in LastRegistered(items, l, n).value.tls.value.alpns {
      assert TlsSetup.Secured(l, flat, n) && p in TlsSetup.TlsOf(l, flat, n).alpns;
    }
  }

  // ---------- Registrations at which the conditions fail ----------

  /** A host with a certificate on TCP port 443 of one interface. */
  function SecureHost(hostname: string): Host {
    Host(HostConfig(hostname, {Http11}, [Bind(0, 443)], true, false, false, None, map[]), map[], Some(Tls(0, true, [])))
  }

  function OneHost(hostname: string): seq<Item> {
    [Item(SecureHost(hostname), true, [Answer(true, None, None)])]
  }

  function OneListener(hostname: string, workers: nat): ListenerView {
    ListenerView(Tcp, 0, 443, workers, map[hostname := SecureHost(hostname)], None)
  }

  lemma OneHostBinds(hostname: string, workers: nat)
    ensures BindOne([], SecureHost(hostname), Bind(0, 443), Answer(true, None, None), workers)
         == (true, [OneListener(hostname, workers)])
  {
    var h := SecureHost(hostname);
    var empty := NewView(Tcp, Bind(0, 443), workers);
    assert empty.With(h) == OneListener(hostname, workers) && Position([], empty) == 0;
    assert Merge([], empty, h) == [OneListener(hostname, workers)];
    assert WantsTcp(h) && !WantsUdp(h);
  }

  lemma OneHostListens(hostname: string, workers: nat)
    ensures AllAnswered(OneHost(hostname))
    ensures AddAll([], OneHost(hostname), workers) == (true, [OneListener(hostname, workers)])
  {
    var h := SecureHost(hostname);
    var items := OneHost(hostname);
    assert items[1..] == [] && h.config.binds[1..] == [] && items[0].answers[1..] == [];
    OneHostBinds(hostname, workers);
    hide BindOne;
    assert BindAll([], h, h.config.binds, items[0].answers, workers) == (true, [OneListener(hostname, workers)]);
  }

  lemma OneHostEntered(hostname: string)
    ensures AllAnswered(OneHost(hostname))
    ensures EnterAll(map[], OneHost(hostname)).1 == map[Key(Tcp, 0, 443, hostname) := SecureHost(hostname)]
  {
    var h := SecureHost(hostname);
    var items := OneHost(hostname);
    var key := Key(Tcp, 0, 443, hostname);
    assert items[1..] == [] && h.config.binds[1..] == [] && items[0].answers[1..] == [];
    assert BindKeys(h, Bind(0, 443), Answer(true, None, None)) == (true, [key]) by {
      assert TcpKeys(h, Bind(0, 443), Answer(true, None, None)) == (true, [key]);
      assert UdpKeys(h, Bind(0, 443), Answer(true, None, None)) == (true, []);
      assert [key] + [] == [key];
    }
    hide BindKeys;
    assert HostKeysOf(h, h.config.binds, items[0].answers) == (true, [key]);
    assert [key][1..] == [];
    assert Enter(map[], [key], h) == map[key := h];
  }

  lemma OneHostIsLast(hostname: string, workers: nat)
    ensures AllAnswered(OneHost(hostname))
    ensures LastRegistered(OneHost(hostname), OneListener(hostname, workers), hostname) == Some(SecureHost(hostname))
  {
    OneHostEntered(hostname);
    hide EnterAll;
    assert KeyAt(OneListener(hostname, workers), hostname) == Key(Tcp, 0, 443, hostname);
  }

  /** A plain http request to port 443 does not find the host registered there under its very name. */
  lemma HttpOn443Misses(hostname: string, workers: nat, req: Request)
    requires var authority := Authority(Http, hostname, 443);
             req.authority == Some(authority) || (req.authority.None? && req.hostHeader == Some(authority))
    ensures AllAnswered(OneHost(hostname)) && |AddAll([], OneHost(hostname), workers).1| == 1
    ensures var l := AddAll([], OneHost(hostname), workers).1[0];
            && LastRegistered(OneHost(hostname), l, hostname) == Some(SecureHost(hostname))
            && RoutedHttp(l.hosts, req) == None
  {
    OneHostListens(hostname, workers);
    OneHostIsLast(hostname, workers);
    hide AddAll, EnterAll;
    assert |WithPort(hostname, 443)| > |hostname|;
  }

  /** A TLS host `::1` on TCP port 443 has no certificate under its name; the resolver has one for `:`. */
  lemma BareColonLosesItsCertificate(workers: nat, order: seq<string>, names: map<string, nat>, alpns: set<string>)
    requires AllAnswered(OneHost("::1")) && |AddAll([], OneHost("::1"), workers).1| == 1
    requires var l := AddAll([], OneHost("::1"), workers).1[0];
             (forall k :: k in order <==> k in l.hosts) && TlsSetup.Collected(l.hosts, order, names, alpns)
    ensures LastHasTls(OneHost("::1"), AddAll([], OneHost("::1"), workers).1[0], "::1")
    ensures "::1" !in names && ":" in names
  {
    OneHostListens("::1", workers);
    OneHostIsLast("::1", workers);
    SplitCutsBareColon();
    hide AddAll, EnterAll;
    var l := OneListener("::1", workers);
    assert "::1" in order && TlsSetup.HasTls(l.hosts, "::1");
    assert forall k :: k in order ==> k == "::1";
  }
}
