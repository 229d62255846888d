/** The TLS set-up of a listener: which names get a certificate, and which protocols are offered. */
module TlsSetup {
  import opened Prelude
  import opened HostModel
  import opened HostKeys
  import opened Listeners
  import opened Registration

  /** The certificate resolver by name, and the ALPN list. */
  datatype TlsConfig = TlsConfig(names: map<string, nat>, alpns: seq<string>)

  predicate NoDuplicates<T(==)>(xs: seq<T>) {
    forall i, j :: 0 <= i < j < |xs| ==> xs[i] != xs[j]
  }

  /** A host with TLS whose pair rustls takes and whose name the resolver takes for it. */
  predicate Accepted(key: string, h: Host, accepts: (string, nat) -> bool) {
    h.tls.Some? ==> h.tls.value.usable && accepts(SplitKey(key), h.tls.value.cert)
  }

  predicate AllAccepted(hosts: map<string, Host>, keys: seq<string>, accepts: (string, nat) -> bool) {
    forall k :: k in keys && k in hosts ==> Accepted(k, hosts[k], accepts)
  }

  predicate HasTls(hosts: map<string, Host>, key: string) {
    key in hosts && hosts[key].tls.Some?
  }

  /** Names and protocols come from the TLS hosts among `keys`, and all of theirs are there. */
  ghost predicate Collected(hosts: map<string, Host>, keys: seq<string>, names: map<string, nat>, alpns: set<string>) {
    && (forall k :: k in keys && HasTls(hosts, k) ==> SplitKey(k) in names)
    && (forall n :: n in names ==>
         exists k :: k in keys && HasTls(hosts, k) && SplitKey(k) == n && hosts[k].tls.value.cert == names[n])
    && (forall p :: p in alpns <==> exists k :: k in keys && HasTls(hosts, k) && p in hosts[k].tls.value.alpns)
  }

  lemma CollectedStep(hosts: map<string, Host>, keys: seq<string>, key: string, names: map<string, nat>, alpns: set<string>)
    requires Collected(hosts, keys, names, alpns) && HasTls(hosts, key)
    ensures var tls := hosts[key].tls.value;
            Collected(hosts, keys + [key], names[SplitKey(key) := tls.cert], alpns + set p | p in tls.alpns)
  {
    var tls := hosts[key].tls.value;
    var names' := names[SplitKey(key) := tls.cert];
    var alpns' := alpns + set p | p in tls.alpns;
    var keys' := keys + [key];
    forall n | n in names'
      ensures exists k :: k in keys' && HasTls(hosts, k) && SplitKey(k) == n && hosts[k].tls.value.cert == names'[n]
    {
      if n == SplitKey(key) {
        assert key in keys';
      } else {
        var k :| k in keys && HasTls(hosts, k) && SplitKey(k) == n && hosts[k].tls.value.cert == names[n];
        assert k in keys';
      }
    }
    forall p ensures p in alpns' <==> exists k :: k in keys' && HasTls(hosts, k) && p in hosts[k].tls.value.alpns {
      if p in alpns {
        var k :| k in keys && HasTls(hosts, k) && p in hosts[k].tls.value.alpns;
        assert k in keys';
      } else if p in alpns' {
        assert key in keys';
      }
    }
  }

  lemma CollectedSkip(hosts: map<string, Host>, keys: seq<string>, key: string, names: map<string, nat>, alpns: set<string>)
    requires Collected(hosts, keys, names, alpns) && !HasTls(hosts, key)
    ensures Collected(hosts, keys + [key], names, alpns)
  {
    forall n | n in names
      ensures exists k :: k in keys + [key] && HasTls(hosts, k) && SplitKey(k) == n && hosts[k].tls.value.cert == names[n]
    {
      var k :| k in keys && HasTls(hosts, k) && SplitKey(k) == n && hosts[k].tls.value.cert == names[n];
      assert k in keys + [key];
    }
    forall p ensures p in alpns <==> exists k :: k in keys + [key] && HasTls(hosts, k) && p in hosts[k].tls.value.alpns {
      if p in alpns {
        var k :| k in keys && HasTls(hosts, k) && p in hosts[k].tls.value.alpns;
        assert k in keys + [key];
      }
    }
  }

  /** `Vec::from_iter` of a hash set: its elements once each, in no particular order. */
  method FromSet(s: set<string>) returns (xs: seq<string>)
    ensures NoDuplicates(xs) && forall x :: x in xs <==> x in s
  {
    xs := [];
    var left := s;
    while left != {}
      invariant NoDuplicates(xs) && left <= s
      invariant forall x :: x in xs <==> x in s && x !in left
      decreases left
    {
      var x :| x in left;
      xs := xs + [x];
      left := left - {x};
    }
  }

  /** One more host, and whether all so far are accepted. */
  lemma AcceptedMore(hosts: map<string, Host>, order: seq<string>, n: nat, accepts: (string, nat) -> bool)
    requires n < |order| && order[n] in hosts && AllAccepted(hosts, order[..n], accepts)
    ensures AllAccepted(hosts, order[..n + 1], accepts) <==> Accepted(order[n], hosts[order[n]], accepts)
    ensures !Accepted(order[n], hosts[order[n]], accepts) ==> !AllAccepted(hosts, order, accepts)
  {
    hide Accepted;
    assert order[..n + 1] == order[..n] + [order[n]];
    assert order[n] in order;
  }

  lemma AcceptedIs(hosts: map<string, Host>, order: seq<string>, accepts: (string, nat) -> bool)
    requires forall k :: k in order <==> k in hosts
    ensures AllAccepted(hosts, [], accepts)
    ensures AllAccepted(hosts, order, accepts) <==>
              forall k :: k in hosts && hosts[k].tls.Some? ==>
                hosts[k].tls.value.usable && accepts(SplitKey(k), hosts[k].tls.value.cert)
  {}

  /**
   One pass over the hosts in the map's iteration order, whatever it is. It succeeds exactly when
   every TLS host is accepted, and then collects the names and protocols of just those hosts.
   */
  method CreateTlsConfig(hosts: map<string, Host>, order: seq<string>, accepts: (string, nat) -> bool)
    returns (r: Result<TlsConfig, VetisError>)
    requires NoDuplicates(order) && forall k :: k in order <==> k in hosts
    ensures r.Success? <==>
              forall k :: k in hosts && hosts[k].tls.Some? ==>
                hosts[k].tls.value.usable && accepts(SplitKey(k), hosts[k].tls.value.cert)
    ensures r.Success? ==> NoDuplicates(r.value.alpns)
    ensures r.Success? ==> Collected(hosts, order, r.value.names, set p | p in r.value.alpns)
  {
    var names: map<string, nat> := map[];
    var alpns: set<string> := {};
    assert Collected(hosts, [], names, alpns);
    AcceptedIs(hosts, order, accepts);
    hide Collected, SplitKey, AllAccepted;
    assert order[..0] == [];
    for n := 0 to |order|
      invariant Collected(hosts, order[..n], names, alpns)
      invariant AllAccepted(hosts, order[..n], accepts)
    {
      var key := order[n];
      var h := hosts[key];
      assert order[..n + 1] == order[..n] + [key];
      AcceptedMore(hosts, order, n, accepts);
      if h.tls.Some? {
        var tls := h.tls.value;
        if !tls.usable {
          return Failure(OtherError);
        }
        var name := SplitKey(key);
        CollectedStep(hosts, order[..n], key, names, alpns);
        alpns := alpns + set p | p in tls.alpns;
        if !accepts(name, tls.cert) {
          return Failure(OtherError);
        }
        names := names[name := tls.cert];
      } else {
        CollectedSkip(hosts, order[..n], key, names, alpns);
      }
    }
    assert order[..|order|] == order;
    var list := FromSet(alpns);
    assert (set p | p in list) == alpns;
    r := Success(TlsConfig(names, list));
  }

  /** A hostname that TLS set-up can read back from its key on this listener. */
  predicate Readable(l: ListenerView, hostname: string) {
    !Bare(l.transport, l.port) || ':' !in hostname
  }

  /** Whether the last host registered on the listener under `n` has TLS. */
  predicate Secured(l: ListenerView, flat: Flat, n: string) {
    KeyAt(l, n) in flat && flat[KeyAt(l, n)].tls.Some?
  }

  function TlsOf(l: ListenerView, flat: Flat, n: string): Tls
    requires Secured(l, flat, n)
  {
    flat[KeyAt(l, n)].tls.value
  }

  /** The names resolved are exactly the listener's TLS hostnames. */
  ghost predicate ResolvesExactly(l: ListenerView, flat: Flat, names: map<string, nat>) {
    forall n: string :: n in names <==> Secured(l, flat, n)
  }

  ghost predicate AllReadable(l: ListenerView, flat: Flat) {
    forall n: string :: Secured(l, flat, n) ==> Readable(l, n)
  }

  /** The hostname behind a TLS host's key, which is what set-up reads back. */
  lemma HostnameOf(l: ListenerView, flat: Flat, k: string) returns (n: string)
    requires TableAgrees(l, flat) && HasTls(l.hosts, k)
    requires AllReadable(l, flat)
    ensures k == KeyOf(l.transport, l.port, n) && SplitKey(k) == n
    ensures Secured(l, flat, n) && TlsOf(l, flat, n) == l.hosts[k].tls.value
  {
    n :| k == KeyOf(l.transport, l.port, n);
    assert KeyAt(l, n) in flat;
    assert Secured(l, flat, n);
    SplitExactly(l.transport, l.port, n);
  }

  lemma KeyFor(l: ListenerView, flat: Flat, n: string) returns (k: string)
    requires TableAgrees(l, flat) && Secured(l, flat, n) && Readable(l, n)
    ensures k in l.hosts && l.hosts[k] == flat[KeyAt(l, n)] && SplitKey(k) == n
  {
    k := KeyOf(l.transport, l.port, n);
    SplitExactly(l.transport, l.port, n);
  }

  /**
   When every TLS hostname on a listener can be read back, a successful set-up, for any iteration
   order, resolves exactly the hostnames of its TLS hosts, each to the certificate of the last host
   registered under it.
   */
  lemma ReadableNamesResolve(l: ListenerView, flat: Flat, order: seq<string>, names: map<string, nat>, alpns: set<string>)
    requires TableAgrees(l, flat) && (forall k :: k in order <==> k in l.hosts)
    requires Collected(l.hosts, order, names, alpns)
    requires AllReadable(l, flat)
    ensures ResolvesExactly(l, flat, names)
    ensures forall n: string :: n in names ==> names[n] == TlsOf(l, flat, n).cert
  {
    hide TableAgrees, SplitKey, KeyOf, KeyAt, Readable;
    forall n: string | n in names ensures Secured(l, flat, n) && names[n] == TlsOf(l, flat, n).cert {
      var k :| k in order && HasTls(l.hosts, k) && SplitKey(k) == n && l.hosts[k].tls.value.cert == names[n];
      var m := HostnameOf(l, flat, k);
      assert m == n;
    }
    forall n: string | Secured(l, flat, n) ensures n in names {
      var k := KeyFor(l, flat, n);
      assert k in order && HasTls(l.hosts, k);
    }
  }

  function LongestOf(keys: seq<string>): (m: nat)
    ensures forall k :: k in keys ==> |k| <= m
  {
    if keys == [] then 0
    else
      var m := LongestOf(keys[1..]);
      assert keys == [keys[0]] + keys[1..];
      if |keys[0]| > m then |keys[0]| else m
  }

  /** A name that is resolved although it has a colon and no port was cut off a longer hostname of that kind. */
  lemma LongerName(l: ListenerView, flat: Flat, order: seq<string>, names: map<string, nat>, alpns: set<string>, n: string)
    returns (m: string)
    requires TableAgrees(l, flat) && (forall k :: k in order <==> k in l.hosts)
    requires Collected(l.hosts, order, names, alpns)
    requires n in names && !Readable(l, n)
    ensures m in order && Secured(l, flat, m) && !Readable(l, m) && |m| > |n|
  {
    var k :| k in order && HasTls(l.hosts, k) && SplitKey(k) == n;
    m :| k == KeyOf(l.transport, l.port, m);
    assert k == m;
    assert KeyAt(l, m) in flat;
    SplitWithoutColon(m);
  }

  lemma LongestBounds(keys: seq<string>, k: string)
    requires k in keys
    ensures |k| <= LongestOf(keys)
  {}

  lemma {:induction false} UnreadableIsMissed(l: ListenerView, flat: Flat, order: seq<string>, names: map<string, nat>,
                                              alpns: set<string>, n: string)
    requires TableAgrees(l, flat) && (forall k :: k in order <==> k in l.hosts)
    requires Collected(l.hosts, order, names, alpns)
    requires ResolvesExactly(l, flat, names) && Secured(l, flat, n)
    ensures Readable(l, n)
    decreases LongestOf(order) - |n|
  {
    hide TableAgrees, Collected, LongestOf;
    if !Readable(l, n) {
      assert n in names;
      var m := LongerName(l, flat, order, names, alpns, n);
      LongestBounds(order, m);
      UnreadableIsMissed(l, flat, order, names, alpns, m);
    }
  }

  /**
   A successful set-up, for any iteration order, resolves exactly the hostnames of the listener's TLS
   hosts if and only if each of them can be read back from its key; and then each to the certificate of
   the last host registered under it.
   */
  lemma NamesAreTheTlsHostnames(l: ListenerView, flat: Flat, order: seq<string>, names: map<string, nat>, alpns: set<string>)
    requires TableAgrees(l, flat) && (forall k :: k in order <==> k in l.hosts)
    requires Collected(l.hosts, order, names, alpns)
    ensures ResolvesExactly(l, flat, names) <==> AllReadable(l, flat)
    ensures AllReadable(l, flat) ==>
              forall n: string :: n in names ==> Secured(l, flat, n) && names[n] == TlsOf(l, flat, n).cert
  {
    hide TableAgrees, Collected, Readable, Secured;
    if AllReadable(l, flat) {
      ReadableNamesResolve(l, flat, order, names, alpns);
    }
    if ResolvesExactly(l, flat, names) {
      forall n: string | Secured(l, flat, n) ensures Readable(l, n) {
        UnreadableIsMissed(l, flat, order, names, alpns, n);
      }
    }
  }

  /** The protocols offered are those of the listener's TLS hosts, whatever the iteration order. */
  lemma AlpnsAreTheUnion(
      l: ListenerView, flat: Flat, order: seq<string>, names: map<string, nat>, alpns: set<string>, p: string)
    requires TableAgrees(l, flat) && (forall k :: k in order <==> k in l.hosts)
    requires Collected(l.hosts, order, names, alpns)
    ensures p in alpns <==> exists n: string :: Secured(l, flat, n) && p in TlsOf(l, flat, n).alpns
  {
    if p in alpns {
      var k :| k in order && HasTls(l.hosts, k) && p in l.hosts[k].tls.value.alpns;
      hide Collected, SplitKey, KeyOf;
      var n: string :| k == KeyOf(l.transport, l.port, n);
      assert KeyAt(l, n) in flat;
      assert Secured(l, flat, n) && p in TlsOf(l, flat, n).alpns;
    }
    if n: string :| Secured(l, flat, n) && p in TlsOf(l, flat, n).alpns {
      hide SplitKey, KeyOf;
      var k := KeyOf(l.transport, l.port, n);
      assert k in order && HasTls(l.hosts, k);
    }
  }
}
