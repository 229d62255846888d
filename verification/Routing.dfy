/** A host's table of paths, the choice of a path for a request, and what becomes of its errors. */
module Routing {
  import opened Prelude
  import opened HostModel

  datatype Body = Reason(status: nat) | Text(text: string) | File(page: string)

  datatype Response = Response(status: nat, headers: map<string, seq<string>>, body: Body)

  /** One call of a handler: the path it belongs to and the rest of the request path. */
  datatype Call = Call(id: nat, target: string)

  /** What handlers answer, and which status pages can be opened. */
  datatype World = World(handle: Call -> Result<Response, VetisError>, opens: string -> bool)

  // ---------- The table ----------

  predicate OwnKeys(paths: map<string, Path>) {
    forall k :: k in paths ==> paths[k].uri == k
  }

  /** The table after adding `ps` in order. */
  function Added(ps: seq<Path>): map<string, Path> {
    if ps == [] then map[] else Added(ps[..|ps| - 1])[ps[|ps| - 1].uri := ps[|ps| - 1]]
  }

  lemma {:induction false} AddedOwnKeys(ps: seq<Path>)
    ensures OwnKeys(Added(ps))
  {
    if ps != [] {
      AddedOwnKeys(ps[..|ps| - 1]);
    }
  }

  class HostUnderConstruction {
    var config: HostConfig
    var paths: map<string, Path>
    var tls: Option<Tls>

    /** Each path is stored under its own URI. */
    predicate Valid()
      reads this
    {
      OwnKeys(paths)
    }

    /** What `Arc::new(host)` shares from then on. */
    function View(): Host
      reads this
    {
      Host(config, paths, tls)
    }

    /** `Host::new`: the paths of the configuration, one after the other. */
    constructor (config: HostConfig, tls: Option<Tls>, configured: seq<Path>)
      ensures Valid() && View() == Host(config, Added(configured), tls)
    {
      this.config, this.tls, this.paths := config, tls, map[];
      new;
      for n := 0 to |configured|
        invariant this.config == config && this.tls == tls && paths == Added(configured[..n])
      {
        assert configured[..n + 1][..n] == configured[..n];
        paths := paths[configured[n].uri := configured[n]];
      }
      assert configured[..|configured|] == configured;
      AddedOwnKeys(configured);
    }

    method AddPath(p: Path)
      requires Valid()
      modifies this`paths
      ensures Valid() && paths == old(paths)[p.uri := p]
    {
      paths := paths[p.uri := p];
    }
  }

  /** `q` is the last of `ps` with its URI. */
  predicate Latest(ps: seq<Path>, q: Path) {
    exists i :: 0 <= i < |ps| && ps[i] == q && forall j :: i < j < |ps| ==> ps[j].uri != q.uri
  }

  lemma {:induction false} AddedIsLatest(ps: seq<Path>, uri: string)
    ensures uri in Added(ps) <==> exists i :: 0 <= i < |ps| && ps[i].uri == uri
    ensures uri in Added(ps) ==> Latest(ps, Added(ps)[uri])
  {
    if ps != [] {
      var init := ps[..|ps| - 1];
      AddedIsLatest(init, uri);
      if uri == ps[|ps| - 1].uri {
        assert ps[|ps| - 1].uri == uri;
      } else if uri in Added(init) {
        var i :| 0 <= i < |init| && init[i] == Added(init)[uri] && forall j :: i < j < |init| ==> init[j].uri != init[i].uri;
        AddedOwnKeys(init);
        assert ps[i] == init[i];
        assert forall j :: i < j < |ps| ==> ps[j].uri != ps[i].uri by {
          forall j | i < j < |ps| ensures ps[j].uri != ps[i].uri {
            if j < |init| {
              assert init[j] == ps[j];
            }
          }
        }
      } else {
        assert forall i :: 0 <= i < |ps| - 1 ==> ps[i] == init[i];
      }
    }
  }

  // ---------- The choice of a path ----------

  /** The router's longest stored key that is a prefix of `p`, looked for from length `n` down. */
  function LongestKey(paths: map<string, Path>, p: string, n: nat): (k: Option<string>)
    requires n <= |p|
    ensures k.Some? ==> k.value in paths && k.value <= p && |k.value| <= n
    ensures forall u :: u in paths && u <= p && |u| <= n ==> k.Some? && |u| <= |k.value|
  {
    if p[..n] in paths then Some(p[..n])
    else if n == 0 then
      assert forall u :: u <= p && |u| <= 0 ==> u == p[..0];
      None
    else
      assert forall u :: u <= p && |u| == n ==> u == p[..n];
      LongestKey(paths, p, n - 1)
  }

  /** The two look-ups of `route`: the request path itself, then the longest prefix. */
  function Chosen(paths: map<string, Path>, p: string): Option<Path> {
    if p in paths then Some(paths[p])
    else match LongestKey(paths, p, |p|)
      case Some(k) => Some(paths[k])
      case None => None
  }

  /** `strip_prefix`, falling back to the whole path. */
  function Target(p: string, uri: string): string {
    if uri <= p then p[|uri|..] else p
  }

  /** `u` is the longest URI of `ps` that is a prefix of `p`. */
  predicate LongestIn(ps: seq<Path>, p: string, u: string) {
    && u <= p && (exists i :: 0 <= i < |ps| && ps[i].uri == u)
    && (forall i :: 0 <= i < |ps| && ps[i].uri <= p ==> |ps[i].uri| <= |u|)
  }

  predicate RightChoice(ps: seq<Path>, p: string, choice: Option<Path>) {
    match choice
    case Some(q) => LongestIn(ps, p, q.uri) && Latest(ps, q) && q.uri + Target(p, q.uri) == p
    case None => forall i :: 0 <= i < |ps| ==> !(ps[i].uri <= p)
  }

  lemma PrefixesOfOneString(a: string, b: string, p: string)
    requires a <= p && b <= p && |a| == |b|
    ensures a == b
  {
    assert a == p[..|a|] && b == p[..|b|];
  }

  lemma TargetFollows(p: string, uri: string)
    requires uri <= p
    ensures uri + Target(p, uri) == p
  {}

  lemma ChosenIsLongestKey(paths: map<string, Path>, p: string)
    requires OwnKeys(paths)
    ensures match Chosen(paths, p)
            case Some(q) =>
              && q.uri in paths && paths[q.uri] == q && q.uri <= p
              && forall u :: u in paths && u <= p ==> |u| <= |q.uri|
            case None => forall u :: u in paths ==> !(u <= p)
  {
    hide LongestKey;
  }

  /**
   For every sequence of additions the path chosen is the last one added under the longest
   registered URI that is a prefix of the request path. Its URI followed by the target is the
   request path, so the fallback is never taken; and nothing is chosen only if no URI is a prefix.
   */
  lemma ChoiceIsLongestPrefix(ps: seq<Path>, p: string)
    ensures RightChoice(ps, p, Chosen(Added(ps), p))
  {
    var paths := Added(ps);
    AddedOwnKeys(ps);
    ChosenIsLongestKey(paths, p);
    hide Chosen, OwnKeys, Added, Latest;
    forall i | 0 <= i < |ps| ensures ps[i].uri in paths {
      AddedIsLatest(ps, ps[i].uri);
    }
    match Chosen(paths, p) {
      case Some(q) =>
        AddedIsLatest(ps, q.uri);
        TargetFollows(p, q.uri);
        hide Target;
        assert LongestIn(ps, p, q.uri);
      case None => hide LongestIn;
    }
  }

  /** The longest prefix determines the choice: no other path could have been chosen. */
  lemma ChoiceIsUnique(ps: seq<Path>, p: string, q: Path)
    requires LongestIn(ps, p, q.uri) && Latest(ps, q)
    ensures Chosen(Added(ps), p) == Some(q)
  {
    ChoiceIsLongestPrefix(ps, p);
    var r := Chosen(Added(ps), p).value;
    PrefixesOfOneString(q.uri, r.uri, p);
  }

  // ---------- Status pages ----------

  /** A configured page that can be opened, else the standard reason; only a bad number fails. */
  function StatusPage(h: Host, status: nat, w: World): Result<Response, VetisError> {
    if !(100 <= status < 1000) then Failure(HostFailed(Content(ServerError)))
    else if status in h.config.statusPages && w.opens(h.config.statusPages[status])
    then Success(Response(status, map[], File(h.config.statusPages[status])))
    else Success(Response(status, map[], Reason(status)))
  }

  /** The status for an error that `route` turns into a page. */
  function StatusFor(e: VetisError): Option<nat> {
    match e
    case HostFailed(Proxy) => Some(502)
    case HostFailed(Auth) => Some(401)
    case HostFailed(Content(Forbidden)) => Some(403)
    case HostFailed(Content(NotFound)) => Some(404)
    case HostFailed(Content(InvalidMetadata)) => Some(500)
    case HostFailed(Content(InvalidRange)) => Some(416)
    case HostFailed(Content(ServerError)) => Some(500)
    case HostFailed(Handler) => None
    case OtherError => None
  }

  // ---------- `route` ----------

  predicate HasDotDot(p: string) {
    exists i :: 0 <= i < |p| - 1 && p[i] == '.' && p[i + 1] == '.'
  }

  function Route(h: Host, p: string, w: World): (Result<Response, VetisError>, seq<Call>) {
    if HasDotDot(p) then (StatusPage(h, 403, w), [])
    else match Chosen(h.paths, p)
      case None => (StatusPage(h, 404, w), [])
      case Some(path) =>
        var call := Call(path.id, Target(p, path.uri));
        var result := match w.handle(call)
          case Success(response) => Success(response)
          case Failure(error) =>
            (match StatusFor(error)
             case Some(status) => StatusPage(h, status, w)
             case None => Failure(error));
        (result, [call])
  }

  /** Just the paths with ".." somewhere in them are refused. */
  lemma DotDotExactly(p: string)
    ensures HasDotDot(p) <==> exists before: string, after: string :: p == before + ".." + after
  {
    if HasDotDot(p) {
      var i :| 0 <= i < |p| - 1 && p[i] == '.' && p[i + 1] == '.';
      assert p == p[..i] + ".." + p[i + 2..];
    }
    if before: string, after: string :| p == before + ".." + after {
      assert p[|before|] == '.' && p[|before| + 1] == '.';
    }
  }

  /** Whether a request is handed to a handler: no "..", and some registered URI is a prefix. */
  predicate Handled(h: Host, p: string) {
    !HasDotDot(p) && exists k :: k in h.paths && k <= p
  }

  /** The one call goes to the path of the longest key that is a prefix, with the rest as its target. */
  ghost predicate CalledRight(h: Host, p: string, calls: seq<Call>) {
    exists q: Path, target: string ::
      && calls == [Call(q.id, target)]
      && q.uri in h.paths && h.paths[q.uri] == q && q.uri + target == p
      && forall u :: u in h.paths && u <= p ==> |u| <= |q.uri|
  }

  lemma CallIsRight(h: Host, p: string, w: World)
    requires Handled(h, p) && OwnKeys(h.paths)
    ensures CalledRight(h, p, Route(h, p, w).1)
  {
    ChosenIsLongestKey(h.paths, p);
    hide Chosen, OwnKeys;
    var q := Chosen(h.paths, p).value;
    TargetFollows(p, q.uri);
    assert Route(h, p, w).1 == [Call(q.id, Target(p, q.uri))];
  }

  /** A page of this status: the configured file if it can be opened, else the standard reason. */
  predicate IsPage(h: Host, status: nat, w: World, r: Result<Response, VetisError>) {
    && r.Success? && r.value.status == status && r.value.headers == map[]
    && (status in h.config.statusPages && w.opens(h.config.statusPages[status]) ==>
          r.value.body == File(h.config.statusPages[status]))
    && (!(status in h.config.statusPages && w.opens(h.config.statusPages[status])) ==> r.value.body == Reason(status))
  }

  /** What becomes of each error of a handler. */
  predicate ErrorMapped(h: Host, w: World, error: VetisError, r: Result<Response, VetisError>) {
    match error
    case HostFailed(Proxy) => IsPage(h, 502, w, r)
    case HostFailed(Auth) => IsPage(h, 401, w, r)
    case HostFailed(Content(Forbidden)) => IsPage(h, 403, w, r)
    case HostFailed(Content(NotFound)) => IsPage(h, 404, w, r)
    case HostFailed(Content(InvalidRange)) => IsPage(h, 416, w, r)
    case HostFailed(Content(_)) => IsPage(h, 500, w, r)
    case _ => r == Failure(error)
  }

  /**
   A handler runs exactly once if the path has no ".." and some registered URI is a prefix of it,
   and never otherwise. If every path is stored under its own URI, the call is for the longest such
   URI and for what follows it. `route` fails exactly when that handler fails with an error outside
   the proxy, authentication and content families, and passes that error on; the others, and requests
   no handler gets, end in a status page.
   */
  lemma RouteOutcome(h: Host, p: string, w: World)
    ensures var (r, calls) := Route(h, p, w);
            && |calls| == (if Handled(h, p) then 1 else 0)
            && (Handled(h, p) && OwnKeys(h.paths) ==> CalledRight(h, p, calls))
            && (r.Failure? <==> |calls| == 1 && w.handle(calls[0]).Failure? && StatusFor(w.handle(calls[0]).error).None?)
            && (r.Failure? ==> r.error == w.handle(calls[0]).error)
            && (!Handled(h, p) ==> IsPage(h, if HasDotDot(p) then 403 else 404, w, r))
            && (|calls| == 1 && w.handle(calls[0]).Success? ==> r == w.handle(calls[0]))
            && (|calls| == 1 && w.handle(calls[0]).Failure? ==> ErrorMapped(h, w, w.handle(calls[0]).error, r))
            && (|calls| == 1 && w.handle(calls[0]).Failure? && r.Success? ==>
                  Some(r.value.status) == StatusFor(w.handle(calls[0]).error))
  {
    if !HasDotDot(p) {
      if p in h.paths {
        assert p <= p;
      }
      var k := LongestKey(h.paths, p, |p|);
      if Handled(h, p) && OwnKeys(h.paths) {
        CallIsRight(h, p, w);
      }
    }
  }

  /**
   A host made of any sequence of additions calls, for a request it handles, the last path added
   under the longest registered URI that is a prefix, and hands it what follows that URI.
   */
  lemma HandlerAfterAdditions(h: Host, ps: seq<Path>, p: string, w: World)
    requires h.paths == Added(ps) && !HasDotDot(p)
    ensures var calls := Route(h, p, w).1;
            && (calls == [] <==> forall i :: 0 <= i < |ps| ==> !(ps[i].uri <= p))
            && (calls != [] ==> exists q: Path, target: string ::
                  calls == [Call(q.id, target)] && LongestIn(ps, p, q.uri) && Latest(ps, q) && q.uri + target == p)
  {
    ChoiceIsLongestPrefix(ps, p);
    var choice := Chosen(Added(ps), p);
    hide Chosen, Added;
    match choice {
      case Some(q) =>
        assert Route(h, p, w).1 == [Call(q.id, Target(p, q.uri))];
        hide Target;
        var i :| 0 <= i < |ps| && ps[i].uri == q.uri;
      case None =>
    }
  }
}
