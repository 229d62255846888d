/** The two HTTP services: choice of the host, routing, default headers and what becomes of errors. */
module Services {
  import opened Prelude
  import opened HostModel
  import opened Routing

  /** `hostHeader` is the Host header if it is printable; `locationOk` says whether a redirect target is. */
  datatype Request = Request(
    authority: Option<string>,
    hostHeader: Option<string>,
    scheme: Option<string>,
    path: string,
    locationOk: bool)

  /** Which header names and values the `http` crate accepts. */
  datatype Rules = Rules(nameOk: string -> bool, valueOk: string -> bool)

  type Headers = map<string, seq<string>>

  // ---------- Default headers ----------

  function Lower(c: char): char {
    if 'A' <= c <= 'Z' then c - 'A' + 'a' else c
  }

  /** Header names are case-insensitive (section 5.1 of RFC 9110). */
  function Fold(name: string): string {
    seq(|name|, i requires 0 <= i < |name| => Lower(name[i]))
  }

  /** The same character, or one letter in its two cases. */
  predicate SameLetter(c: char, d: char) {
    c == d || ('a' <= c <= 'z' && d as int == c as int - 32) || ('a' <= d <= 'z' && c as int == d as int - 32)
  }

  /** Names fold alike exactly if they differ in nothing but the case of letters. */
  lemma FoldIgnoresJustCase(a: string, b: string)
    ensures Fold(a) == Fold(b) <==> |a| == |b| && forall i :: 0 <= i < |a| ==> SameLetter(a[i], b[i])
  {
    forall i | 0 <= i < |a| && |a| == |b| ensures Fold(a)[i] == Fold(b)[i] <==> SameLetter(a[i], b[i]) {
      assert Lower(a[i]) == Lower(b[i]) <==> SameLetter(a[i], b[i]);
    }
    if Fold(a) == Fold(b) {
      assert |Fold(a)| == |a| && |Fold(b)| == |b|;
    }
  }

  predicate ValidDefault(d: (string, string), rules: Rules) {
    rules.nameOk(d.0) && rules.valueOk(d.1)
  }

  predicate AllValid(ds: seq<(string, string)>, rules: Rules) {
    forall i :: 0 <= i < |ds| ==> ValidDefault(ds[i], rules)
  }

  /** The last valid default for a folded name. */
  function LastFor(ds: seq<(string, string)>, name: string, rules: Rules): Option<string> {
    if ds == [] then None
    else
      var d := ds[|ds| - 1];
      if ValidDefault(d, rules) && Fold(d.0) == name then Some(d.1) else LastFor(ds[..|ds| - 1], name, rules)
  }

  /** The table that results: each name has its last valid default, else what the handler set. */
  ghost predicate Merged(before: Headers, ds: seq<(string, string)>, rules: Rules, after: Headers) {
    forall name: string ::
      Lookup(after, name) == match LastFor(ds, name, rules)
                          case Some(value) => Some([value])
                          case None => Lookup(before, name)
  }

  lemma MergedStep(before: Headers, ds: seq<(string, string)>, d: (string, string), rules: Rules, after: Headers)
    requires Merged(before, ds, rules, after)
    ensures Merged(before, ds + [d], rules, if ValidDefault(d, rules) then after[Fold(d.0) := [d.1]] else after)
  {
    var ds' := ds + [d];
    assert ds'[..|ds'| - 1] == ds;
    assert forall name: string ::
        LastFor(ds', name, rules)
        == (if ValidDefault(d, rules) && Fold(d.0) == name then Some(d.1) else LastFor(ds, name, rules));
  }

  /** The loop of the HTTP service: the first invalid default is an error. */
  method MergeStrictly(before: Headers, ds: seq<(string, string)>, rules: Rules) returns (after: Option<Headers>)
    ensures after.Some? <==> AllValid(ds, rules)
    ensures after.Some? ==> Merged(before, ds, rules, after.value)
  {
    var headers := before;
    for n := 0 to |ds|
      invariant AllValid(ds[..n], rules) && Merged(before, ds[..n], rules, headers)
    {
      assert ds[..n + 1] == ds[..n] + [ds[n]];
      if !rules.nameOk(ds[n].0) {
        assert !ValidDefault(ds[n], rules);
        return None;
      }
      if !rules.valueOk(ds[n].1) {
        assert !ValidDefault(ds[n], rules);
        return None;
      }
      MergedStep(before, ds[..n], ds[n], rules, headers);
      headers := headers[Fold(ds[n].0) := [ds[n].1]];
    }
    assert ds[..|ds|] == ds;
    after := Some(headers);
  }

  /** The loop of the HTTP/3 service: invalid defaults are passed over. */
  method MergeLeniently(before: Headers, ds: seq<(string, string)>, rules: Rules) returns (after: Headers)
    ensures Merged(before, ds, rules, after)
  {
    after := before;
    for n := 0 to |ds|
      invariant Merged(before, ds[..n], rules, after)
    {
      assert ds[..n + 1] == ds[..n] + [ds[n]];
      MergedStep(before, ds[..n], ds[n], rules, after);
      if !rules.nameOk(ds[n].0) {
        continue;
      }
      if !rules.valueOk(ds[n].1) {
        continue;
      }
      after := after[Fold(ds[n].0) := [ds[n].1]];
    }
    assert ds[..|ds|] == ds;
  }

  /** The result is determined, so the two loops agree wherever both give one. */
  lemma MergedIsUnique(before: Headers, ds: seq<(string, string)>, rules: Rules, a: Headers, b: Headers)
    requires Merged(before, ds, rules, a) && Merged(before, ds, rules, b)
    ensures a == b
  {
    forall name: string ensures Lookup(a, name) == Lookup(b, name) {}
    forall name: string | name in a ensures name in b && a[name] == b[name] {
      assert Lookup(a, name) == Lookup(b, name);
    }
    forall name: string | name in b ensures name in a {
      assert Lookup(a, name) == Lookup(b, name);
    }
  }

  function ValidOnes(ds: seq<(string, string)>, rules: Rules): seq<(string, string)> {
    if ds == [] then []
    else
      var init := ValidOnes(ds[..|ds| - 1], rules);
      if ValidDefault(ds[|ds| - 1], rules) then init + [ds[|ds| - 1]] else init
  }

  lemma {:induction false} LastAmongValid(ds: seq<(string, string)>, name: string, rules: Rules)
    ensures LastFor(ValidOnes(ds, rules), name, rules) == LastFor(ds, name, rules)
    ensures AllValid(ValidOnes(ds, rules), rules)
  {
    if ds != [] {
      var init := ValidOnes(ds[..|ds| - 1], rules);
      LastAmongValid(ds[..|ds| - 1], name, rules);
      assert (init + [ds[|ds| - 1]])[..|init|] == init;
    }
  }

  /** HTTP/3 gives what HTTP would give with exactly the invalid defaults left out. */
  lemma LenientIsStrictOnValidOnes(before: Headers, ds: seq<(string, string)>, rules: Rules, after: Headers)
    ensures AllValid(ValidOnes(ds, rules), rules)
    ensures Merged(before, ds, rules, after) <==> Merged(before, ValidOnes(ds, rules), rules, after)
  {
    forall name: string ensures LastFor(ValidOnes(ds, rules), name, rules) == LastFor(ds, name, rules) {
      LastAmongValid(ds, name, rules);
    }
    LastAmongValid(ds, "", rules);
  }

  // ---------- The services ----------

  function DefaultsOf(h: Host): seq<(string, string)> {
    match h.config.defaultHeaders
    case Some(ds) => ds
    case None => []
  }

  /** HTTP/1 and HTTP/2: the URI's authority, else the Host header (section 3.2.2 of RFC 9112). */
  function HostnameOf(req: Request): Option<string> {
    if req.authority.Some? then req.authority else req.hostHeader
  }

  predicate Redirects(h: Host, req: Request) {
    req.scheme.Some? && Fold(req.scheme.value) in {"http", "ws"}
    && h.config.allowUnsafe && h.config.tls && h.config.hsts
  }

  /** The host a request is routed to, if it is routed at all. */
  function RoutedHttp(hosts: map<string, Host>, req: Request): Option<Host> {
    match HostnameOf(req)
    case None => None
    case Some(name) => if name in hosts && !Redirects(hosts[name], req) then Some(hosts[name]) else None
  }

  function RoutedQuic(hosts: map<string, Host>, req: Request): Option<Host> {
    match req.authority
    case None => None
    case Some(name) => if name in hosts then Some(hosts[name]) else None
  }

  /** What a routed request must end in: the handler's response with the defaults merged in. */
  ghost predicate Delivers(h: Host, req: Request, w: World, rules: Rules, response: Response) {
    var routed := Route(h, req.path, w).0;
    && routed.Success? && response.status == routed.value.status && response.body == routed.value.body
    && Merged(routed.value.headers, DefaultsOf(h), rules, response.headers)
  }

  /**
   What becomes of a request for the host `name`: without such a host 502, with one either a redirect,
   or the response of its route with the defaults merged in.
   */
  ghost predicate ServedAs(hosts: map<string, Host>, name: string, req: Request, w: World, rules: Rules,
                           r: Result<Response, VetisError>, calls: seq<Call>)
  {
    if name !in hosts then calls == [] && r.Success? && r.value.status == 502
    else if Redirects(hosts[name], req) then
      calls == [] && (r.Failure? <==> !req.locationOk) && (r.Success? ==> r.value.status == 308)
    else
      var h := hosts[name];
      && calls == Route(h, req.path, w).1
      && (r.Success? <==> Route(h, req.path, w).0.Success? && AllValid(DefaultsOf(h), rules))
      && (r.Success? ==> Delivers(h, req, w, rules, r.value))
      && (Route(h, req.path, w).0.Failure? ==> r == Route(h, req.path, w).0)
  }

  /**
   What the HTTP service must do. It goes by the URI's authority, else by the Host header, and with
   neither answers 400. It fails exactly when routing fails, when a default header is invalid, or when
   a redirect target cannot be printed.
   */
  ghost predicate ServedHttp(hosts: map<string, Host>, req: Request, w: World, rules: Rules,
                             r: Result<Response, VetisError>, calls: seq<Call>)
  {
    match (req.authority, req.hostHeader)
    case (Some(name), _) => ServedAs(hosts, name, req, w, rules, r, calls)
    case (None, Some(name)) => ServedAs(hosts, name, req, w, rules, r, calls)
    case (None, None) => calls == [] && r.Success? && r.value.status == 400
  }

  /** What the HTTP/3 service must do: it looks at the authority only and absorbs routing errors. */
  ghost predicate ServedQuic(hosts: map<string, Host>, req: Request, w: World, rules: Rules,
                             r: Result<Response, VetisError>, calls: seq<Call>)
  {
    && r.Success?
    && match RoutedQuic(hosts, req)
       case None => calls == [] && r.value.status == 400
       case Some(h) =>
         && calls == Route(h, req.path, w).1
         && (Route(h, req.path, w).0.Success? ==> Delivers(h, req, w, rules, r.value))
         && (Route(h, req.path, w).0.Failure? ==> r.value == Response(500, map[], Text("Internal server error")))
  }

  /** The HTTP service, step by step. */
  method CallHttp(hosts: map<string, Host>, req: Request, w: World, rules: Rules)
    returns (r: Result<Response, VetisError>, calls: seq<Call>)
    ensures ServedHttp(hosts, req, w, rules, r, calls)
  {
    var hostname: string;
    match req.authority {
      case Some(a) => hostname := a;
      case None =>
        match req.hostHeader {
          case Some(a) => hostname := a;
          case None => return Success(Response(400, map[], Text("No hostname found in request"))), [];
        }
    }
    if hostname !in hosts {
      return Success(Response(502, map[], Text("Host not found"))), [];
    }
    var host := hosts[hostname];
    if req.scheme.Some? && (Fold(req.scheme.value) == "http" || Fold(req.scheme.value) == "ws") && host.config.allowUnsafe {
      if host.config.tls && host.config.hsts {
        if !req.locationOk {
          return Failure(HostFailed(Content(ServerError))), [];
        }
        return Success(Response(308, map[], Text("Unprotected connection denied."))), [];
      }
    }
    var routed := Route(host, req.path, w);
    calls := routed.1;
    if routed.0.Failure? {
      return routed.0, calls;
    }
    var response := routed.0.value;
    match host.config.defaultHeaders {
      case None =>
        assert Merged(response.headers, [], rules, response.headers);
      case Some(ds) =>
        var merged := MergeStrictly(response.headers, ds, rules);
        if merged.None? {
          return Failure(HostFailed(Content(ServerError))), calls;
        }
        response := response.(headers := merged.value);
    }
    r := Success(response);
  }

  /** The HTTP/3 service, step by step. */
  method CallQuic(hosts: map<string, Host>, req: Request, w: World, rules: Rules)
    returns (r: Result<Response, VetisError>, calls: seq<Call>)
    ensures ServedQuic(hosts, req, w, rules, r, calls)
  {
    if req.authority.None? {
      return Success(Response(400, map[], Text("No hostname found in request"))), [];
    }
    var hostname := req.authority.value;
    if hostname !in hosts {
      return Success(Response(400, map[], Text("Host not found"))), [];
    }
    var host := hosts[hostname];
    var routed := Route(host, req.path, w);
    calls := routed.1;
    if routed.0.Failure? {
      return Success(Response(500, map[], Text("Internal server error"))), calls;
    }
    var response := routed.0.value;
    match host.config.defaultHeaders {
      case None =>
        assert Merged(response.headers, [], rules, response.headers);
      case Some(ds) =>
        var headers := MergeLeniently(response.headers, ds, rules);
        response := response.(headers := headers);
    }
    r := Success(response);
  }

  lemma {:induction false} LastForIs(ds: seq<(string, string)>, i: nat, rules: Rules)
    requires i < |ds| && ValidDefault(ds[i], rules)
    requires forall j :: i < j < |ds| && ValidDefault(ds[j], rules) ==> Fold(ds[j].0) != Fold(ds[i].0)
    ensures LastFor(ds, Fold(ds[i].0), rules) == Some(ds[i].1)
  {
    if i < |ds| - 1 {
      LastForIs(ds[..|ds| - 1], i, rules);
    }
  }

  lemma {:induction false} LastForNone(ds: seq<(string, string)>, name: string, rules: Rules)
    requires forall j :: 0 <= j < |ds| && ValidDefault(ds[j], rules) ==> Fold(ds[j].0) != name
    ensures LastFor(ds, name, rules) == None
  {
    if ds != [] {
      LastForNone(ds[..|ds| - 1], name, rules);
    }
  }

  /** In what is delivered, a valid default is the one value of its name, unless a later one replaces it. */
  lemma DefaultIsDelivered(h: Host, ds: seq<(string, string)>, i: nat, req: Request, w: World, rules: Rules, r: Response)
    requires Delivers(h, req, w, rules, r) && h.config.defaultHeaders == Some(ds)
    requires i < |ds| && ValidDefault(ds[i], rules)
    requires forall j :: i < j < |ds| && ValidDefault(ds[j], rules) ==> Fold(ds[j].0) != Fold(ds[i].0)
    ensures Lookup(r.headers, Fold(ds[i].0)) == Some([ds[i].1])
  {
    LastForIs(ds, i, rules);
    assert Lookup(r.headers, Fold(ds[i].0)) == Some([LastFor(ds, Fold(ds[i].0), rules).value]);
  }

  /** A name for which the host has no valid default keeps what the handler set, or stays unset. */
  lemma OtherHeadersAreKept(h: Host, name: string, req: Request, w: World, rules: Rules, r: Response)
    requires Delivers(h, req, w, rules, r)
    requires match h.config.defaultHeaders
             case None => true
             case Some(ds) => forall j :: 0 <= j < |ds| && ValidDefault(ds[j], rules) ==> Fold(ds[j].0) != name
    ensures Lookup(r.headers, name) == Lookup(Route(h, req.path, w).0.value.headers, name)
  {
    LastForNone(DefaultsOf(h), name, rules);
    hide LastFor, Route;
  }

  /**
   A request that names a host there is, and that a handler could take, gets no handler exactly if it
   came over plain http or ws and the host, although it allows such connections, has TLS and HSTS.
   */
  lemma RedirectedExactly(hosts: map<string, Host>, name: string, req: Request, w: World, rules: Rules,
                          r: Result<Response, VetisError>, calls: seq<Call>)
    requires req.authority == Some(name) || (req.authority.None? && req.hostHeader == Some(name))
    requires name in hosts && Handled(hosts[name], req.path)
    requires ServedHttp(hosts, req, w, rules, r, calls)
    ensures calls == [] <==>
            && req.scheme.Some? && (Fold(req.scheme.value) == "http" || Fold(req.scheme.value) == "ws")
            && hosts[name].config.allowUnsafe && hosts[name].config.tls && hosts[name].config.hsts
    ensures calls == [] && r.Success? ==> r.value.status == 308
  {
    RouteOutcome(hosts[name], req.path, w);
  }

  lemma DeliversIsUnique(h: Host, req: Request, w: World, rules: Rules, a: Response, b: Response)
    requires Delivers(h, req, w, rules, a) && Delivers(h, req, w, rules, b)
    ensures a == b
  {
    MergedIsUnique(Route(h, req.path, w).0.value.headers, DefaultsOf(h), rules, a.headers, b.headers);
  }

  /**
   Where both services route a request to the same host, a handler runs in neither or in both,
   once. If HTTP answers, HTTP/3 gives the same response. HTTP fails where HTTP/3 does not exactly when
   routing fails, which HTTP/3 answers with 500, or when one of the host's defaults is invalid, and
   then HTTP/3 still delivers what the handler returned.
   */
  lemma ServicesAgree(hosts: map<string, Host>, req: Request, w: World, rules: Rules,
                      http: Result<Response, VetisError>, quic: Result<Response, VetisError>,
                      httpCalls: seq<Call>, quicCalls: seq<Call>)
    requires RoutedHttp(hosts, req).Some? && RoutedQuic(hosts, req) == RoutedHttp(hosts, req)
    requires ServedHttp(hosts, req, w, rules, http, httpCalls) && ServedQuic(hosts, req, w, rules, quic, quicCalls)
    ensures httpCalls == quicCalls && |httpCalls| == (if Handled(RoutedHttp(hosts, req).value, req.path) then 1 else 0)
    ensures http.Success? ==> http == quic
    ensures var h := RoutedHttp(hosts, req).value;
            var routed := Route(h, req.path, w).0;
            && (http.Failure? <==> routed.Failure? || !AllValid(DefaultsOf(h), rules))
            && (routed.Failure? ==> quic.value.status == 500)
            && (routed.Success? ==> Delivers(h, req, w, rules, quic.value))
  {
    var h := RoutedHttp(hosts, req).value;
    RouteOutcome(h, req.path, w);
    if http.Success? {
      DeliversIsUnique(h, req, w, rules, http.value, quic.value);
    }
  }

  /**
   The URI's authority overrides the Host header: with an authority, two requests that differ only
   in their Host header lead to the same calls, the same failures, the same status and, when
   routed, the same response.
   */
  lemma AuthorityWins(hosts: map<string, Host>, req: Request, other: Option<string>, w: World, rules: Rules,
                      a: Result<Response, VetisError>, b: Result<Response, VetisError>,
                      aCalls: seq<Call>, bCalls: seq<Call>)
    requires req.authority.Some?
    requires ServedHttp(hosts, req, w, rules, a, aCalls)
    requires ServedHttp(hosts, req.(hostHeader := other), w, rules, b, bCalls)
    ensures aCalls == bCalls && a.Success? == b.Success?
    ensures a.Success? ==> a.value.status == b.value.status
    ensures a.Success? && RoutedHttp(hosts, req).Some? ==> a == b
  {
    if a.Success? && RoutedHttp(hosts, req).Some? {
      DeliversIsUnique(RoutedHttp(hosts, req).value, req, w, rules, a.value, b.value);
    }
  }
}
