/** The strings under which listeners keep their hosts, and the two ways they are read again. */
module HostKeys {
  import opened Prelude
  import opened HostModel

  // ---------- Printing a key ----------

  function Digit(d: nat): char
    requires d < 10
  {
    "0123456789"[d]
  }

  function Decimal(n: nat): string {
    if n < 10 then [Digit(n)] else Decimal(n / 10) + [Digit(n % 10)]
  }

  /** The ports for which a listener leaves the port out of its keys. */
  predicate Bare(t: Transport, port: Port) {
    match t
    case Tcp => port == 80 || port == 443
    case Udp => port == 443
  }

  function WithPort(hostname: string, port: Port): string {
    hostname + ":" + Decimal(port)
  }

  /** The key that `add_host` builds. */
  function KeyOf(t: Transport, port: Port, hostname: string): string {
    if Bare(t, port) then hostname else WithPort(hostname, port)
  }

  lemma {:induction false} DecimalHasNoColon(n: nat)
    ensures ':' !in Decimal(n)
  {
    if n >= 10 {
      DecimalHasNoColon(n / 10);
    }
  }

  /** The number that a string of digits stands for, read from left to right. */
  function Value(s: string): int {
    if s == [] then 0 else 10 * Value(s[..|s| - 1]) + (s[|s| - 1] as int - '0' as int)
  }

  /** A number is printed as itself, in digits only and without leading zeros. */
  lemma {:induction false} DecimalPrints(n: nat)
    ensures Value(Decimal(n)) == n
    ensures Decimal(n) != [] && forall i :: 0 <= i < |Decimal(n)| ==> '0' <= Decimal(n)[i] <= '9'
    ensures n > 0 ==> Decimal(n)[0] != '0'
    ensures n == 0 ==> Decimal(n) == "0"
  {
    var s := Decimal(n);
    if n < 10 {
      assert s[..0] == [];
    } else {
      DecimalPrints(n / 10);
      assert s[..|s| - 1] == Decimal(n / 10);
    }
  }

  /** A key with a port ends in a colon and the port's digits. */
  lemma KeyReadsBack(t: Transport, port: Port, hostname: string)
    ensures Bare(t, port) ==> KeyOf(t, port, hostname) == hostname
    ensures !Bare(t, port) ==>
              exists digits: string ::
                KeyOf(t, port, hostname) == hostname + ":" + digits && ':' !in digits && Value(digits) == port
  {
    DecimalPrints(port);
    DecimalHasNoColon(port);
  }

  /** On one listener, different hostnames have different keys. */
  lemma KeyInjective(t: Transport, port: Port, a: string, b: string)
    requires KeyOf(t, port, a) == KeyOf(t, port, b)
    ensures a == b
  {
    if !Bare(t, port) {
      var tail := ":" + Decimal(port);
      assert WithPort(a, port) == a + tail && WithPort(b, port) == b + tail;
      assert (a + tail)[..|a|] == a && (b + tail)[..|b|] == b;
    }
  }

  // ---------- Splitting it again ----------

  /** `rsplit_once(':')`: what stands before the last colon. */
  function BeforeLastColon(s: string): Option<string>
    decreases |s|
  {
    if s == [] then None
    else if s[|s| - 1] == ':' then Some(s[..|s| - 1])
    else BeforeLastColon(s[..|s| - 1])
  }

  /** The hostname that TLS set-up reads from a key. */
  function SplitKey(key: string): string {
    match BeforeLastColon(key)
    case Some(name) => name
    case None => key
  }

  lemma {:induction false} SplitAtLastColon(name: string, tail: string)
    requires ':' !in tail
    ensures BeforeLastColon(name + ":" + tail) == Some(name)
    decreases |tail|
  {
    var s := name + ":" + tail;
    if tail == [] {
      assert s[..|s| - 1] == name;
    } else {
      assert s[..|s| - 1] == name + ":" + tail[..|tail| - 1];
      assert s[|s| - 1] == tail[|tail| - 1];
      SplitAtLastColon(name, tail[..|tail| - 1]);
    }
  }

  lemma {:induction false} SplitWithoutColon(s: string)
    ensures BeforeLastColon(s).None? <==> ':' !in s
    ensures BeforeLastColon(s).Some? ==> |BeforeLastColon(s).value| < |s|
    decreases |s|
  {
    if s != [] {
      SplitWithoutColon(s[..|s| - 1]);
      assert s == s[..|s| - 1] + [s[|s| - 1]];
    }
  }

  /**
   TLS set-up reads back the hostname of a key exactly when the key carries a port or the hostname
   has no colon; a bare IPv6 address on a default port is cut.
   */
  lemma SplitExactly(t: Transport, port: Port, hostname: string)
    ensures SplitKey(KeyOf(t, port, hostname)) == hostname <==> !Bare(t, port) || ':' !in hostname
  {
    if Bare(t, port) {
      SplitWithoutColon(hostname);
    } else {
      DecimalHasNoColon(port);
      SplitAtLastColon(hostname, Decimal(port));
    }
  }

  lemma SplitCutsBareColon()
    ensures KeyOf(Tcp, 443, "::1") == "::1" && SplitKey("::1") == ":"
  {
    assert "::1"[..2] == "::" && "::"[..1] == ":";
    assert BeforeLastColon("::1") == BeforeLastColon("::");
  }

  // ---------- Looking it up by request authority ----------

  datatype Scheme = Http | Https

  function DefaultPort(scheme: Scheme): Port {
    match scheme
    case Http => 80
    case Https => 443
  }

  /** The authority of a request, normalised as in section 4.2.3 of RFC 9110: no default port. */
  function Authority(scheme: Scheme, hostname: string, port: Port): string {
    if port == DefaultPort(scheme) then hostname else WithPort(hostname, port)
  }
}
