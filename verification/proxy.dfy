/** The dispatch logic of `routes/proxy.js`: pick a healthy backend (the
    affinity cookie first, the configured strategy otherwise), count the
    request, issue the affinity cookie, and fold the backend's answer or the
    proxy error back into the error counters and health flags.

    The module-level state of the source (`requestCount`, `serverStats`, the
    strategy objects and `config.servers`) is one immutable `Balancer`; each
    handler is a function from a balancer and its external inputs (the drawn
    index, the cookie, the clock, the backend's answer) to a new balancer
    and an outcome. */
module Proxy {
  import opened Strategy
  import opened Registry
  import RandomStrategy
  import RoundRobinStrategy
  import WeightedStrategy

  /** The strategy object `strategies[config.strategy]`, with its state; an
      unregistered name leaves it `undefined`. */
  datatype Selector =
    | UseRandom
    | UseRoundRobin(rr: RoundRobinStrategy.State)
    | UseWeighted(w: WeightedStrategy.State)
    | Unregistered(name: string)

  /** One entry of `serverStats`; `lastUsed` is an opaque clock reading. */
  datatype Stats = Stats(requests: nat, errors: nat, lastUsed: Option<int>)

  datatype Balancer = Balancer(
    servers: seq<Member>,          // config.servers
    strategy: string,              // config.strategy
    selector: Selector,            // currentStrategy
    affinity: bool,                // config.sessionAffinity.enabled
    requestCount: nat,
    stats: map<string, Stats>)     // serverStats

  const Fresh: Stats := Stats(0, 0, None)

  /** The strategy object a configured name denotes. */
  function SelectorFor(strategy: string): (sel: Selector)
    ensures sel.Unregistered? <==> Lookup(strategy).None?
    ensures Lookup(strategy) == Some(Random) ==> sel == UseRandom
    ensures Lookup(strategy) == Some(RoundRobin) ==> sel == UseRoundRobin(RoundRobinStrategy.Initial)
    ensures Lookup(strategy) == Some(Weighted) ==> sel == UseWeighted(WeightedStrategy.Initial)
  {
    match Lookup(strategy)
    case Some(Random) => UseRandom
    case Some(RoundRobin) => UseRoundRobin(RoundRobinStrategy.Initial)
    case Some(Weighted) => UseWeighted(WeightedStrategy.Initial)
    case _ => Unregistered(strategy)
  }

  /** The state after loading the module: no requests, zeroed stats for every
      configured id. */
  function Init(servers: seq<Member>, strategy: string, affinity: bool): (b: Balancer)
    ensures b.servers == servers && b.strategy == strategy && b.affinity == affinity
    ensures b.requestCount == 0
    ensures forall i :: 0 <= i < |servers| ==> servers[i].backend.id in b.stats
    ensures forall id :: id in b.stats ==> b.stats[id] == Fresh
    ensures Valid(servers) ==> Inv(b)
  {
    var ids := set i | 0 <= i < |servers| :: servers[i].backend.id;
    Balancer(servers, strategy, SelectorFor(strategy), affinity, 0, map id | id in ids :: Fresh)
  }

  /** What the model relies on between requests: distinct, well-formed ids,
      a stats record for every configured id, and a weighted cache built from
      configured servers. */
  ghost predicate Inv(b: Balancer)
  {
    Valid(b.servers) &&
    (forall i :: 0 <= i < |b.servers| ==> b.servers[i].backend.id in b.stats) &&
    (b.selector.UseWeighted? ==> WeightedStrategy.CacheWithin(b.selector.w, Descriptors(b.servers)))
  }

  /** The indices `Math.floor(Math.random() * length)` can yield for the
      list the selected strategy draws from. */
  predicate DrawFits(sel: Selector, hs: seq<Backend>, draw: nat)
  {
    match sel
    case UseRandom => ValidDraw(draw, |hs|)
    case UseWeighted(w) => ValidDraw(draw, |WeightedStrategy.Refresh(w, hs).list|)
    case _ => true
  }

  datatype Selection = Selection(selector: Selector, result: Result<Backend>)

  /** `currentStrategy.selectServer(healthyServers)` */
  function Strategize(sel: Selector, hs: seq<Backend>, draw: nat): (r: Selection)
    requires |hs| > 0 && DrawFits(sel, hs, draw)
    ensures sel.UseRandom? ==> r == Selection(sel, Ok(hs[draw]))
    ensures sel.UseRoundRobin? ==>
      r.selector.UseRoundRobin? && r.result.Ok? && r.result.value in hs
    ensures sel.UseWeighted? ==>
      r.selector == UseWeighted(WeightedStrategy.Refresh(sel.w, hs)) &&
      (r.result.Err? ==> r.result.error == NoEntryDrawn)
    ensures sel.Unregistered? ==> r == Selection(sel, Err(NoStrategy(sel.name)))
  {
    match sel
    case UseRandom => Selection(sel, RandomStrategy.Select(Some(hs), draw))
    case UseRoundRobin(rr) =>
      var step := RoundRobinStrategy.Select(rr, Some(hs));
      Selection(UseRoundRobin(step.state), step.result)
    case UseWeighted(w) =>
      var step := WeightedStrategy.Select(w, Some(hs), draw);
      Selection(UseWeighted(step.state), step.result)
    case Unregistered(name) => Selection(sel, Err(NoStrategy(name)))
  }

  /** `req.cookies[cookieName]` is truthy: present and not empty. */
  predicate CookieSet(cookie: Option<string>)
  {
    cookie.Some? && cookie.value != ""
  }

  /** The affinity override: the healthy server the cookie names, if any. */
  function Pinned(b: Balancer, cookie: Option<string>): (r: Option<Backend>)
    ensures r.Some? ==>
      b.affinity && CookieSet(cookie) && r.value in Healthy(b.servers) && r.value.id == cookie.value
    ensures (b.affinity && CookieSet(cookie) &&
      exists k :: 0 <= k < |Healthy(b.servers)| && Healthy(b.servers)[k].id == cookie.value) ==> r.Some?
  {
    var hs := Healthy(b.servers);
    if b.affinity && CookieSet(cookie) then
      var f := Find(hs, cookie.value);
      if f.Some? then Some(hs[f.value]) else None
    else None
  }

  /** `getNextServer(req)` */
  function GetNextServer(b: Balancer, cookie: Option<string>, draw: nat): (r: Selection)
    requires DrawFits(b.selector, Healthy(b.servers), draw)
    ensures |Healthy(b.servers)| == 0 ==> r == Selection(b.selector, Err(NoHealthyServers))
    ensures |Healthy(b.servers)| > 0 && Pinned(b, cookie).Some? ==>
      r == Selection(b.selector, Ok(Pinned(b, cookie).value))
    ensures |Healthy(b.servers)| > 0 && Pinned(b, cookie).None? ==>
      r == Strategize(b.selector, Healthy(b.servers), draw)
  {
    var hs := Healthy(b.servers);
    if |hs| == 0 then Selection(b.selector, Err(NoHealthyServers))
    else
      var pin := Pinned(b, cookie);
      if pin.Some? then Selection(b.selector, Ok(pin.value))
      else Strategize(b.selector, hs, draw)
  }

  /** `path` is the `req.path` the handler sees, after the router has
      stripped whatever its mount pattern matched. */
  datatype Request = Request(path: string, cookie: Option<string>)

  /** What the handler does with a request: hand it on (`next()`), answer
      503, or proxy it to a target, possibly setting the affinity cookie. */
  datatype Dispatch =
    | Skipped
    | Unavailable(error: Failure)
    | Forwarded(target: Backend, setCookie: Option<string>)

  datatype Routed = Routed(balancer: Balancer, dispatch: Dispatch)

  predicate Skips(path: string)
  {
    path == "/health" || path == "/metrics"
  }

  /** The handler after `getNextServer` has returned or thrown: `sel` is its
      outcome and the strategy state it left. A selection error is caught and
      answered with 503; so is a missing stats record, which is only
      discovered after `requestCount` has been incremented. `now` is the
      clock reading stored as `lastUsed`. */
  function Commit(b: Balancer, sel: Selection, cookie: Option<string>, now: int): (r: Routed)
    ensures r.balancer.servers == b.servers && r.balancer.strategy == b.strategy
    ensures r.balancer.affinity == b.affinity && r.balancer.stats.Keys == b.stats.Keys
    ensures r.balancer.selector == sel.selector
    ensures !r.dispatch.Skipped?
    ensures sel.result.Err? ==>
      r == Routed(b.(selector := sel.selector), Unavailable(sel.result.error))
    ensures sel.result.Ok? && sel.result.value.id !in b.stats ==>
      r == Routed(b.(selector := sel.selector, requestCount := b.requestCount + 1),
                  Unavailable(NoStatsFor(sel.result.value.id)))
    ensures r.dispatch.Forwarded? <==> sel.result.Ok? && sel.result.value.id in b.stats
    ensures r.dispatch.Forwarded? ==>
      var t := r.dispatch.target;
      sel.result == Ok(t) &&
      r.balancer.requestCount == b.requestCount + 1 &&
      r.balancer.stats[t.id] == b.stats[t.id].(requests := b.stats[t.id].requests + 1, lastUsed := Some(now)) &&
      (forall id :: id in b.stats && id != t.id ==> r.balancer.stats[id] == b.stats[id]) &&
      (r.dispatch.setCookie.Some? <==> b.affinity && !CookieSet(cookie)) &&
      (r.dispatch.setCookie.Some? ==> r.dispatch.setCookie.value == t.id)
  {
    var b1 := b.(selector := sel.selector);
    if sel.result.Err? then Routed(b1, Unavailable(sel.result.error))
    else
      var t := sel.result.value;
      var b2 := b1.(requestCount := b1.requestCount + 1);
      if t.id !in b2.stats then Routed(b2, Unavailable(NoStatsFor(t.id)))
      else
        var s := b2.stats[t.id];
        var b3 := b2.(stats := b2.stats[t.id := s.(requests := s.requests + 1, lastUsed := Some(now))]);
        Routed(b3, Forwarded(t, if b.affinity && !CookieSet(cookie) then Some(t.id) else None))
  }

  /** The `router.use('*', ...)` handler up to the proxy call: `/health` and
      `/metrics` are handed on untouched, everything else is dispatched. */
  function Route(b: Balancer, req: Request, draw: nat, now: int): (r: Routed)
    requires DrawFits(b.selector, Healthy(b.servers), draw)
    ensures Skips(req.path) <==> r.dispatch.Skipped?
    ensures Skips(req.path) ==> r.balancer == b
    ensures !Skips(req.path) ==> r == Commit(b, GetNextServer(b, req.cookie, draw), req.cookie, now)
  {
    if Skips(req.path) then Routed(b, Skipped)
    else Commit(b, GetNextServer(b, req.cookie, draw), req.cookie, now)
  }

  /** `onProxyRes`: a backend answer of 400 or above counts as an error of
      the target. The callback only exists for a target whose stats record
      the handler has just updated. */
  function OnProxyRes(b: Balancer, id: string, status: int): (r: Balancer)
    requires id in b.stats
    ensures r.stats.Keys == b.stats.Keys
    ensures r.stats[id].errors == (if status >= 400 then b.stats[id].errors + 1 else b.stats[id].errors)
    ensures r.stats[id].requests == b.stats[id].requests && r.stats[id].lastUsed == b.stats[id].lastUsed
    ensures forall other :: other in b.stats && other != id ==> r.stats[other] == b.stats[other]
    ensures r == b.(stats := r.stats)
  {
    if status >= 400 then
      b.(stats := b.stats[id := b.stats[id].(errors := b.stats[id].errors + 1)])
    else b
  }

  /** The error codes that demote a server. */
  predicate Demotes(code: string)
  {
    code == "ECONNREFUSED" || code == "ETIMEDOUT"
  }

  datatype Recovered = Recovered(balancer: Balancer, reply: Option<int>)

  /** `onError`: count the error, demote the target on a refused or timed-out
      connection, and answer 502 unless headers already went out. */
  function OnError(b: Balancer, target: Backend, code: string, headersSent: bool): (r: Recovered)
    requires target.id in b.stats
    ensures r.balancer.stats.Keys == b.stats.Keys
    ensures r.balancer.stats[target.id] == b.stats[target.id].(errors := b.stats[target.id].errors + 1)
    ensures forall other :: other in b.stats && other != target.id ==> r.balancer.stats[other] == b.stats[other]
    ensures r.reply.Some? <==> !headersSent
    ensures r.reply.Some? ==> r.reply.value == 502
    ensures |r.balancer.servers| == |b.servers| && Descriptors(r.balancer.servers) == Descriptors(b.servers)
    ensures forall i :: 0 <= i < |b.servers| ==>
      r.balancer.servers[i].healthy ==
        if Demotes(code) && b.servers[i].backend == target then false else b.servers[i].healthy
    ensures r.balancer == b.(stats := r.balancer.stats, servers := r.balancer.servers)
  {
    var s := b.stats[target.id];
    var b1 := b.(stats := b.stats[target.id := s.(errors := s.errors + 1)]);
    var b2 := if Demotes(code) then b1.(servers := Demote(b1.servers, target)) else b1;
    Recovered(b2, if headersSent then None else Some(502))
  }

  /** `targetServer.healthy = false` on the configured object the target is. */
  function Demote(reg: seq<Member>, target: Backend): (r: seq<Member>)
    ensures |r| == |reg| && Descriptors(r) == Descriptors(reg)
    ensures forall i :: 0 <= i < |reg| ==>
      r[i].healthy == (if reg[i].backend == target then false else reg[i].healthy)
  {
    seq(|reg|, i requires 0 <= i < |reg| =>
      if reg[i].backend == target then reg[i].(healthy := false) else reg[i])
  }

  /** How the proxied exchange ends. `Failed` is an error before the
      backend answered, so no headers went out. `Broken` is an error after
      the backend's status line was relayed: `onProxyRes` has already seen
      that status, and `res.headersSent` is then true. */
  datatype Reply =
    | Responded(status: int)
    | Failed(code: string)
    | Broken(status: int, code: string)

  /** What the client ends up with: handed on, a complete status, or a
      status whose body was cut off. */
  datatype Answer = Next | Status(code: int) | Truncated(code: int)

  datatype Handled = Handled(balancer: Balancer, answer: Answer)

  /** The errors one reply adds to its target, counted per callback:
      `onProxyRes` counts a status of 400 or above, `onError` counts one. */
  function ErrorsOf(reply: Reply): nat
  {
    match reply
    case Responded(status) => if status >= 400 then 1 else 0
    case Failed(_) => 1
    case Broken(status, _) => (if status >= 400 then 1 else 0) + 1
  }

  /** One request end to end: route it, then apply the backend's reply. A
      reply broken after the headers passes through `onProxyRes` first and
      `onError` second, in the order the callbacks fire. */
  function Handle(b: Balancer, req: Request, draw: nat, now: int, reply: Reply): (r: Handled)
    requires DrawFits(b.selector, Healthy(b.servers), draw)
    ensures r.answer == Next <==> Skips(req.path)
    ensures r.answer == Status(503) <==>
      Route(b, req, draw, now).dispatch.Unavailable? ||
      (Route(b, req, draw, now).dispatch.Forwarded? && reply == Responded(503))
    ensures r.answer == Status(502) <==>
      Route(b, req, draw, now).dispatch.Forwarded? && (reply.Failed? || reply == Responded(502))
    ensures r.answer.Truncated? <==> Route(b, req, draw, now).dispatch.Forwarded? && reply.Broken?
    ensures r.answer.Truncated? ==> r.answer.code == reply.status
    ensures r.balancer.requestCount == Route(b, req, draw, now).balancer.requestCount
    ensures r.balancer.stats.Keys == b.stats.Keys
    ensures Route(b, req, draw, now).dispatch.Forwarded? ==>
      var t := Route(b, req, draw, now).dispatch.target;
      var before := Route(b, req, draw, now).balancer.stats[t.id];
      r.balancer.stats[t.id] == before.(errors := before.errors + ErrorsOf(reply))
    ensures !Route(b, req, draw, now).dispatch.Forwarded? ==> r.balancer == Route(b, req, draw, now).balancer
  {
    var routed := Route(b, req, draw, now);
    match routed.dispatch
    case Skipped => Handled(routed.balancer, Next)
    case Unavailable(_) => Handled(routed.balancer, Status(503))
    case Forwarded(t, _) =>
      match reply
      case Responded(status) => Handled(OnProxyRes(routed.balancer, t.id, status), Status(status))
      case Failed(code) =>
        var rec := OnError(routed.balancer, t, code, false);
        Handled(rec.balancer, Status(rec.reply.value))
      case Broken(status, code) =>
        var rec := OnError(OnProxyRes(routed.balancer, t.id, status), t, code, true);
        Handled(rec.balancer, Truncated(status))
  }

  /** A backend that answers 400 or above and then breaks the connection is
      charged two errors: one by `onProxyRes`, one by `onError`. */
  lemma BrokenErrorCountsTwice(b: Balancer, req: Request, draw: nat, now: int, status: int, code: string)
    requires DrawFits(b.selector, Healthy(b.servers), draw)
    requires Route(b, req, draw, now).dispatch.Forwarded? && status >= 400
    ensures var routed := Route(b, req, draw, now);
      var t := routed.dispatch.target;
      Handle(b, req, draw, now, Broken(status, code)).balancer.stats[t.id].errors ==
        routed.balancer.stats[t.id].errors + 2
  {
  }

  datatype Snapshot = Snapshot(
    totalRequests: nat,
    serverStats: map<string, Stats>,
    strategy: string,
    healthyServers: nat,
    totalServers: nat)

  /** `router.getMetrics()` */
  function GetMetrics(b: Balancer): (m: Snapshot)
    ensures m.totalRequests == b.requestCount && m.serverStats == b.stats && m.strategy == b.strategy
    ensures m.healthyServers == Count(b.servers, true)
    ensures m.healthyServers + Count(b.servers, false) == m.totalServers == |b.servers|
  {
    CountPartition(b.servers);
    Snapshot(b.requestCount, b.stats, b.strategy, |Healthy(b.servers)|, |b.servers|)
  }

  // ---------------------------------------------------------------------------
  // Properties of the dispatch.

  /** The strategies only ever return servers from the healthy list. */
  lemma {:induction false} StrategizeInHealthy(b: Balancer, draw: nat)
    requires Inv(b)
    requires |Healthy(b.servers)| > 0 && DrawFits(b.selector, Healthy(b.servers), draw)
    ensures Strategize(b.selector, Healthy(b.servers), draw).result.Ok? ==>
      Strategize(b.selector, Healthy(b.servers), draw).result.value in Healthy(b.servers)
  {
    if b.selector.UseWeighted? {
      var ds, hs := Descriptors(b.servers), Healthy(b.servers);
      HealthyWithin(b.servers);
      WeightedStrategy.SelectionInInput(b.selector.w, ds, hs, draw);
    }
  }

  /** A request is only ever forwarded to a healthy configured server. */
  lemma ForwardsToHealthy(b: Balancer, req: Request, draw: nat, now: int)
    requires Inv(b) && DrawFits(b.selector, Healthy(b.servers), draw)
    ensures Route(b, req, draw, now).dispatch.Forwarded? ==>
      var t := Route(b, req, draw, now).dispatch.target;
      t in Healthy(b.servers) &&
      exists i :: 0 <= i < |b.servers| && b.servers[i].healthy && b.servers[i].backend == t
  {
    var r := Route(b, req, draw, now);
    if r.dispatch.Forwarded? {
      if Pinned(b, req.cookie).None? {
        StrategizeInHealthy(b, draw);
      }
      HealthyMembers(b.servers, r.dispatch.target);
    }
  }

  /** With a registered strategy and no negative weights, some server is
      chosen whenever one is healthy. */
  lemma {:induction false} SelectionSucceeds(b: Balancer, cookie: Option<string>, draw: nat)
    requires Inv(b) && DrawFits(b.selector, Healthy(b.servers), draw)
    requires |Healthy(b.servers)| > 0 && !b.selector.Unregistered?
    requires forall i :: 0 <= i < |b.servers| ==> b.servers[i].backend.weight >= 0
    ensures GetNextServer(b, cookie, draw).result.Ok?
    ensures GetNextServer(b, cookie, draw).result.value in Healthy(b.servers)
  {
    if Pinned(b, cookie).None? {
      if b.selector.UseWeighted? {
        WeightedDrawSucceeds(b, draw);
      }
      StrategizeInHealthy(b, draw);
    }
  }

  /** The weighted draw over a non-empty healthy list always lands on an entry. */
  lemma {:induction false} WeightedDrawSucceeds(b: Balancer, draw: nat)
    requires Inv(b) && b.selector.UseWeighted? && DrawFits(b.selector, Healthy(b.servers), draw)
    requires |Healthy(b.servers)| > 0
    requires forall i :: 0 <= i < |b.servers| ==> b.servers[i].backend.weight >= 0
    ensures Strategize(b.selector, Healthy(b.servers), draw).result.Ok?
  {
    var hs, ds := Healthy(b.servers), Descriptors(b.servers);
    HealthyWithin(b.servers);
    forall x | x in ds
      ensures x.weight >= 0
    {
      var i :| 0 <= i < |ds| && ds[i] == x;
    }
    WeightedStrategy.SelectionSucceeds(b.selector.w, ds, hs, draw);
  }

  /** Under the weighted strategy, the list a request draws from holds each
      healthy server exactly as often as its effective weight says, whether
      the cache was kept or rebuilt. */
  lemma {:induction false} WeightedShare(b: Balancer, i: nat)
    requires Inv(b) && b.selector.UseWeighted?
    requires i < |Healthy(b.servers)|
    ensures var hs := Healthy(b.servers);
      WeightedStrategy.CountId(WeightedStrategy.Refresh(b.selector.w, hs).list, hs[i].id) ==
        WeightedStrategy.Copies(hs[i])
  {
    HealthyWithin(b.servers);
    HealthyUnique(b.servers);
    WeightedStrategy.KeptMultiplicity(b.selector.w, Descriptors(b.servers), Healthy(b.servers), i);
  }

  /** For any configuration and strategy, a request that finds no healthy
      server is answered 503 and changes nothing, not even the request count. */
  lemma NoHealthyUnavailable(b: Balancer, req: Request, draw: nat, now: int)
    requires DrawFits(b.selector, Healthy(b.servers), draw)
    requires !Skips(req.path) && Count(b.servers, true) == 0
    ensures Route(b, req, draw, now) == Routed(b, Unavailable(NoHealthyServers))
  {
    CountPartition(b.servers);
  }

  /** Under the invariant, with a registered strategy and no negative
      weights, a request is answered 503 exactly when no server is healthy,
      and then nothing changes. */
  lemma {:induction false} UnavailableIffNoneHealthy(b: Balancer, req: Request, draw: nat, now: int)
    requires Inv(b) && DrawFits(b.selector, Healthy(b.servers), draw)
    requires !Skips(req.path) && !b.selector.Unregistered?
    requires forall i :: 0 <= i < |b.servers| ==> b.servers[i].backend.weight >= 0
    ensures Route(b, req, draw, now).dispatch.Unavailable? <==> Count(b.servers, true) == 0
    ensures Count(b.servers, true) == 0 ==> Route(b, req, draw, now) == Routed(b, Unavailable(NoHealthyServers))
  {
    CountPartition(b.servers);
    if |Healthy(b.servers)| > 0 {
      SelectionSucceeds(b, req.cookie, draw);
      var t := GetNextServer(b, req.cookie, draw).result.value;
      var ds := Descriptors(b.servers);
      HealthyWithin(b.servers);
      var i :| 0 <= i < |ds| && ds[i] == t;
      assert t.id in b.stats;
    }
  }

  /** A cookie naming a healthy server wins over the strategy: the request
      goes there, the strategy state is untouched and no cookie is set. */
  lemma AffinityWins(b: Balancer, req: Request, draw: nat, now: int, i: nat)
    requires Inv(b) && DrawFits(b.selector, Healthy(b.servers), draw)
    requires !Skips(req.path) && b.affinity
    requires i < |b.servers| && b.servers[i].healthy && req.cookie == Some(b.servers[i].backend.id)
    ensures Route(b, req, draw, now).dispatch == Forwarded(b.servers[i].backend, None)
    ensures Route(b, req, draw, now).balancer.selector == b.selector
  {
    var hs, ds := Healthy(b.servers), Descriptors(b.servers);
    var target := b.servers[i].backend;
    HealthyMembers(b.servers, target);
    var k :| 0 <= k < |hs| && hs[k] == target;
    var pin := Pinned(b, req.cookie);
    HealthyWithin(b.servers);
    assert pin.value in ds && target in ds by {
      assert ds[i] == target;
    }
    SameIdSameServer(ds, pin.value, target);
    assert ds[i].id == target.id;
  }

  /** A cookie that names no healthy server is ignored: the strategy decides,
      and the stale cookie is not replaced. */
  lemma StaleCookieIgnored(b: Balancer, req: Request, draw: nat, now: int)
    requires DrawFits(b.selector, Healthy(b.servers), draw)
    requires !Skips(req.path) && b.affinity && CookieSet(req.cookie)
    requires forall i :: 0 <= i < |b.servers| && b.servers[i].healthy ==> b.servers[i].backend.id != req.cookie.value
    ensures |Healthy(b.servers)| > 0 ==>
      GetNextServer(b, req.cookie, draw) == Strategize(b.selector, Healthy(b.servers), draw)
    ensures Route(b, req, draw, now).dispatch.Forwarded? ==>
      Route(b, req, draw, now).dispatch.setCookie.None?
  {
    var pin := Pinned(b, req.cookie);
    if pin.Some? {
      HealthyMembers(b.servers, pin.value);
    }
  }

  /** Routing keeps the invariant. */
  lemma RouteKeepsInv(b: Balancer, req: Request, draw: nat, now: int)
    requires Inv(b) && DrawFits(b.selector, Healthy(b.servers), draw)
    ensures Inv(Route(b, req, draw, now).balancer)
  {
    var r := Route(b, req, draw, now);
    if b.selector.UseWeighted? && !Skips(req.path) && |Healthy(b.servers)| > 0 && Pinned(b, req.cookie).None? {
      HealthyWithin(b.servers);
      WeightedStrategy.RefreshWithin(b.selector.w, Descriptors(b.servers), Healthy(b.servers));
    }
  }

  /** A backend reply keeps the invariant. */
  lemma ProxyResKeepsInv(b: Balancer, id: string, status: int)
    requires Inv(b) && id in b.stats
    ensures Inv(OnProxyRes(b, id, status))
  {
  }

  /** A proxy error keeps the invariant: demotion changes only health flags. */
  lemma OnErrorKeepsInv(b: Balancer, target: Backend, code: string, headersSent: bool)
    requires Inv(b) && target.id in b.stats
    ensures Inv(OnError(b, target, code, headersSent).balancer)
  {
  }

  /** After a refused or timed-out connection, the next request is not
      forwarded to the demoted server, whatever its cookie or draw. */
  lemma {:induction false} DemotedNotRouted(b: Balancer, i: nat, code: string, headersSent: bool,
                         req: Request, draw: nat, now: int)
    requires Inv(b) && i < |b.servers| && Demotes(code)
    requires b.servers[i].backend.id in b.stats
    requires DrawFits(OnError(b, b.servers[i].backend, code, headersSent).balancer.selector,
      Healthy(OnError(b, b.servers[i].backend, code, headersSent).balancer.servers), draw)
    ensures Route(OnError(b, b.servers[i].backend, code, headersSent).balancer, req, draw, now).dispatch.Forwarded? ==>
      Route(OnError(b, b.servers[i].backend, code, headersSent).balancer, req, draw, now).dispatch.target !=
        b.servers[i].backend
  {
    var target := b.servers[i].backend;
    var b' := OnError(b, target, code, headersSent).balancer;
    OnErrorKeepsInv(b, target, code, headersSent);
    ForwardsToHealthy(b', req, draw, now);
  }
}
