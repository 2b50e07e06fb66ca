/** `routes/health.js`: probe every configured server, write each verdict
    back into the registry, report the servers whose health changed, and
    summarise the verdicts.

    The HTTP probe itself (axios with a timeout and `validateStatus`) is an
    input: a `Probe` per configured server, in config order. One tick of the
    periodic checker is one call of `PerformHealthChecks`. */
module Health {
  import opened Strategy
  import opened Registry
  import Proxy

  /** What `GET http://host:port/healthcheck` produced: a status code, or no
      response at all (refused, reset, timed out). */
  datatype Probe = Answered(status: int) | NoAnswer

  /** `validateStatus: status === 200`: every other status, and no response,
      lands in the `catch` branch. */
  function Classify(p: Probe): (healthy: bool)
    ensures healthy <==> p.Answered? && p.status == 200
  {
    match p
    case Answered(status) => status == 200
    case NoAnswer => false
  }

  /** The `{ id, status }` part of a probe result; `healthy` stands for
      `status === 'healthy'`. */
  datatype HealthResult = HealthResult(id: string, healthy: bool)

  /** `checkServerHealth(server)` */
  function CheckServerHealth(b: Backend, p: Probe): (r: HealthResult)
    ensures r.id == b.id
    ensures r.healthy <==> p == Answered(200)
  {
    HealthResult(b.id, Classify(p))
  }

  /** `config.servers.map(checkServerHealth)`: one result per configured
      server, in config order, whatever its current health. */
  function CheckAll(reg: seq<Member>, probes: seq<Probe>): (results: seq<HealthResult>)
    requires |probes| == |reg|
    ensures |results| == |reg|
    ensures forall i :: 0 <= i < |reg| ==>
      results[i].id == reg[i].backend.id && (results[i].healthy <==> probes[i] == Answered(200))
  {
    seq(|reg|, i requires 0 <= i < |reg| => CheckServerHealth(reg[i].backend, probes[i]))
  }

  /** Every server is probed whatever its current health: the results depend
      only on the descriptors and the probes. */
  lemma ProbesIgnoreHealth(reg1: seq<Member>, reg2: seq<Member>, probes: seq<Probe>)
    requires |probes| == |reg1| && Descriptors(reg1) == Descriptors(reg2)
    ensures CheckAll(reg1, probes) == CheckAll(reg2, probes)
  {
    assert |reg1| == |Descriptors(reg1)| == |reg2|;
    forall i | 0 <= i < |reg1|
      ensures CheckAll(reg1, probes)[i] == CheckAll(reg2, probes)[i]
    {
      assert reg1[i].backend == Descriptors(reg1)[i] == reg2[i].backend;
    }
  }

  /** A logged health change. */
  datatype Transition = Transition(id: string, was: bool, now: bool)

  datatype Applied = Applied(servers: seq<Member>, transitions: seq<Transition>)

  /** One iteration of `healthResults.forEach`: find the first server with
      the result's id, overwrite its flag, and log a change if there was one. */
  function ApplyOne(reg: seq<Member>, r: HealthResult): (a: Applied)
    ensures Descriptors(a.servers) == Descriptors(reg)
    ensures Find(Descriptors(reg), r.id).None? ==> a == Applied(reg, [])
    ensures Find(Descriptors(reg), r.id).Some? ==>
      var i := Find(Descriptors(reg), r.id).value;
      a.servers[i].healthy == r.healthy &&
      (forall j :: 0 <= j < |reg| && j != i ==> a.servers[j] == reg[j]) &&
      (|a.transitions| == 1 <==> reg[i].healthy != r.healthy)
    ensures forall t :: t in a.transitions ==> t.id == r.id && t.was != t.now && t.now == r.healthy
    ensures |a.transitions| <= 1
  {
    var f := Find(Descriptors(reg), r.id);
    if f.None? then Applied(reg, [])
    else
      var i := f.value;
      var was := reg[i].healthy;
      Applied(SetHealth(reg, i, r.healthy),
        if was != r.healthy then [Transition(reg[i].backend.id, was, r.healthy)] else [])
  }

  /** The whole `forEach`, in result order. */
  function ApplyAll(reg: seq<Member>, results: seq<HealthResult>): (a: Applied)
    ensures Descriptors(a.servers) == Descriptors(reg)
    ensures |a.transitions| <= |results|
    ensures forall t :: t in a.transitions ==> t.was != t.now
    decreases |results|
  {
    if |results| == 0 then Applied(reg, [])
    else
      var first := ApplyOne(reg, results[0]);
      var rest := ApplyAll(first.servers, results[1..]);
      Applied(rest.servers, first.transitions + rest.transitions)
  }

  // ---------------------------------------------------------------------------
  // Reference definitions: what one tick should do to each server.

  /** Each server's flag set to its own probe's verdict. */
  function Updated(reg: seq<Member>, probes: seq<Probe>): (u: seq<Member>)
    requires |probes| == |reg|
    ensures |u| == |reg| && Descriptors(u) == Descriptors(reg)
    ensures forall i :: 0 <= i < |reg| ==> u[i].healthy == Classify(probes[i])
  {
    seq(|reg|, i requires 0 <= i < |reg| => reg[i].(healthy := Classify(probes[i])))
  }

  /** The servers from position `k` on whose verdict differs from their flag, in config order. */
  function TransitionsFrom(reg: seq<Member>, probes: seq<Probe>, k: nat): seq<Transition>
    requires |probes| == |reg| && k <= |reg|
    decreases |reg| - k
  {
    if k == |reg| then []
    else
      var now := Classify(probes[k]);
      (if reg[k].healthy != now then [Transition(reg[k].backend.id, reg[k].healthy, now)] else []) +
      TransitionsFrom(reg, probes, k + 1)
  }

  /** The registry after the first `k` results of a tick have been applied. */
  function Partial(reg: seq<Member>, probes: seq<Probe>, k: nat): (p: seq<Member>)
    requires |probes| == |reg| && k <= |reg|
    ensures |p| == |reg| && Descriptors(p) == Descriptors(reg)
  {
    seq(|reg|, i requires 0 <= i < |reg| =>
      if i < k then reg[i].(healthy := Classify(probes[i])) else reg[i])
  }

  /** Applying the `k`-th result to the partially updated registry extends
      the update by one server. */
  lemma ApplyNext(reg: seq<Member>, probes: seq<Probe>, k: nat)
    requires UniqueIds(Descriptors(reg))
    requires |probes| == |reg| && k < |reg|
    ensures ApplyOne(Partial(reg, probes, k), CheckAll(reg, probes)[k]) ==
      Applied(Partial(reg, probes, k + 1),
        if reg[k].healthy != Classify(probes[k])
        then [Transition(reg[k].backend.id, reg[k].healthy, Classify(probes[k]))] else [])
  {
    var p := Partial(reg, probes, k);
    var ds := Descriptors(reg);
    assert Descriptors(p) == ds;
    assert ds[k].id == CheckAll(reg, probes)[k].id;
    FindUnique(ds, k);
    assert SetHealth(p, k, Classify(probes[k])) == Partial(reg, probes, k + 1);
  }

  lemma {:induction false} ApplyFrom(reg: seq<Member>, probes: seq<Probe>, k: nat)
    requires UniqueIds(Descriptors(reg))
    requires |probes| == |reg| && k <= |reg|
    ensures ApplyAll(Partial(reg, probes, k), CheckAll(reg, probes)[k..]) ==
      Applied(Updated(reg, probes), TransitionsFrom(reg, probes, k))
    decreases |reg| - k
  {
    var rs := CheckAll(reg, probes);
    if k == |reg| {
      assert Partial(reg, probes, k) == Updated(reg, probes);
    } else {
      ApplyNext(reg, probes, k);
      assert rs[k..][0] == rs[k];
      assert rs[k..][1..] == rs[k + 1..];
      ApplyFrom(reg, probes, k + 1);
    }
  }

  /** With distinct ids, the `forEach` sets every server to its own probe's
      verdict and logs exactly the servers whose flag changed, in config order. */
  lemma ApplyMatchesReference(reg: seq<Member>, probes: seq<Probe>)
    requires UniqueIds(Descriptors(reg))
    requires |probes| == |reg|
    ensures ApplyAll(reg, CheckAll(reg, probes)) == Applied(Updated(reg, probes), TransitionsFrom(reg, probes, 0))
  {
    assert Partial(reg, probes, 0) == reg;
    assert CheckAll(reg, probes)[0..] == CheckAll(reg, probes);
    ApplyFrom(reg, probes, 0);
  }

  /** Server `i`'s verdict differs from its flag, and `t` is the change logged for it. */
  predicate LoggedAt(reg: seq<Member>, probes: seq<Probe>, i: int, t: Transition)
    requires |probes| == |reg|
  {
    0 <= i < |reg| && reg[i].healthy != Classify(probes[i]) &&
    t == Transition(reg[i].backend.id, reg[i].healthy, Classify(probes[i]))
  }

  /** A change is logged for a server exactly when its verdict differs from its flag. */
  lemma {:induction false} TransitionsFromIff(reg: seq<Member>, probes: seq<Probe>, k: nat, t: Transition)
    requires |probes| == |reg| && k <= |reg|
    ensures t in TransitionsFrom(reg, probes, k) <==> exists i :: k <= i && LoggedAt(reg, probes, i, t)
    decreases |reg| - k
  {
    if k < |reg| {
      var now := Classify(probes[k]);
      var head := if reg[k].healthy != now then [Transition(reg[k].backend.id, reg[k].healthy, now)] else [];
      var tail := TransitionsFrom(reg, probes, k + 1);
      TransitionsFromIff(reg, probes, k + 1, t);
      assert TransitionsFrom(reg, probes, k) == head + tail;
      if t in head {
        assert LoggedAt(reg, probes, k, t);
      }
      if exists i :: k <= i && LoggedAt(reg, probes, i, t) {
        var i :| k <= i && LoggedAt(reg, probes, i, t);
        if i == k {
          assert t in head;
        } else {
          assert t in tail;
        }
      }
    }
  }

  // ---------------------------------------------------------------------------
  // One tick and its summary.

  /** `healthResults.filter(r => r.status === 'healthy').length` */
  function CountHealthy(results: seq<HealthResult>, flag: bool): nat
    decreases |results|
  {
    if |results| == 0 then 0
    else CountHealthy(results[..|results| - 1], flag) + (if results[|results| - 1].healthy == flag then 1 else 0)
  }

  lemma {:induction false} CountHealthySplit(results: seq<HealthResult>)
    ensures CountHealthy(results, true) + CountHealthy(results, false) == |results|
    decreases |results|
  {
    if |results| > 0 {
      CountHealthySplit(results[..|results| - 1]);
    }
  }

  /** The verdict count equals the number of healthy servers afterwards. */
  lemma {:induction false} CountMatchesRegistry(reg: seq<Member>, probes: seq<Probe>)
    requires |probes| == |reg|
    ensures CountHealthy(CheckAll(reg, probes), true) == Count(Updated(reg, probes), true)
    decreases |reg|
  {
    if |reg| > 0 {
      var n := |reg| - 1;
      CountMatchesRegistry(reg[..n], probes[..n]);
      assert CheckAll(reg, probes)[..n] == CheckAll(reg[..n], probes[..n]);
      assert Updated(reg, probes)[..n] == Updated(reg[..n], probes[..n]);
    }
  }

  datatype Tick = Tick(servers: seq<Member>, results: seq<HealthResult>,
                       transitions: seq<Transition>, healthyCount: nat)

  /** `performHealthChecks()` */
  function PerformHealthChecks(reg: seq<Member>, probes: seq<Probe>): (t: Tick)
    requires |probes| == |reg|
    ensures t.results == CheckAll(reg, probes)
    ensures Descriptors(t.servers) == Descriptors(reg)
    ensures t.healthyCount <= |reg|
    ensures forall tr :: tr in t.transitions ==> tr.was != tr.now
  {
    var results := CheckAll(reg, probes);
    var applied := ApplyAll(reg, results);
    CountHealthySplit(results);
    Tick(applied.servers, results, applied.transitions, CountHealthy(results, true))
  }

  /** With distinct ids a tick sets every flag from its probe, logs exactly
      the changed servers, and reports as healthy count the number of
      servers now healthy. */
  lemma TickUpdates(reg: seq<Member>, probes: seq<Probe>)
    requires UniqueIds(Descriptors(reg)) && |probes| == |reg|
    ensures PerformHealthChecks(reg, probes).servers == Updated(reg, probes)
    ensures PerformHealthChecks(reg, probes).transitions == TransitionsFrom(reg, probes, 0)
    ensures PerformHealthChecks(reg, probes).healthyCount == Count(Updated(reg, probes), true)
  {
    ApplyMatchesReference(reg, probes);
    CountMatchesRegistry(reg, probes);
  }

  /** A second tick with the same probe outcomes changes nothing and logs nothing. */
  lemma SecondTickQuiet(reg: seq<Member>, probes: seq<Probe>)
    requires UniqueIds(Descriptors(reg)) && |probes| == |reg|
    ensures var first := PerformHealthChecks(reg, probes);
      PerformHealthChecks(first.servers, probes).servers == first.servers &&
      PerformHealthChecks(first.servers, probes).transitions == []
  {
    var u := Updated(reg, probes);
    TickUpdates(reg, probes);
    TickUpdates(u, probes);
    assert Updated(u, probes) == u;
    var ts := TransitionsFrom(u, probes, 0);
    if |ts| > 0 {
      TransitionsFromIff(u, probes, 0, ts[0]);
    }
  }

  /** A server whose probe answered 200 is in the healthy list after the
      tick, and one whose probe did not is out of it. */
  lemma TickDecidesRouting(reg: seq<Member>, probes: seq<Probe>, i: nat)
    requires UniqueIds(Descriptors(reg)) && |probes| == |reg| && i < |reg|
    ensures reg[i].backend in Healthy(PerformHealthChecks(reg, probes).servers) <==> probes[i] == Answered(200)
  {
    var u := Updated(reg, probes);
    TickUpdates(reg, probes);
    HealthyMembers(u, reg[i].backend);
    assert Descriptors(u)[i] == reg[i].backend;
    if reg[i].backend in Healthy(u) {
      var j :| 0 <= j < |u| && u[j].healthy && u[j].backend == reg[i].backend;
      assert Descriptors(u)[j] == Descriptors(reg)[j];
      assert j == i;
    }
  }

  /** A tick keeps the balancer's invariant: only health flags change. */
  lemma TickKeepsInv(b: Proxy.Balancer, probes: seq<Probe>)
    requires Proxy.Inv(b) && |probes| == |b.servers|
    ensures Proxy.Inv(b.(servers := PerformHealthChecks(b.servers, probes).servers))
  {
    var s := PerformHealthChecks(b.servers, probes).servers;
    assert |s| == |Descriptors(s)| == |b.servers|;
    forall i | 0 <= i < |s|
      ensures s[i].backend.id in b.stats
    {
      assert s[i].backend == Descriptors(s)[i] == Descriptors(b.servers)[i] == b.servers[i].backend;
    }
  }

  datatype Summary = Summary(totalServers: nat, healthyServers: nat, unhealthyServers: nat,
                             servers: seq<HealthResult>)

  /** `GET /health`: run a tick and summarise its results. */
  function HealthRoute(reg: seq<Member>, probes: seq<Probe>): (r: (Tick, Summary))
    requires |probes| == |reg|
    ensures r.0 == PerformHealthChecks(reg, probes)
    ensures r.1.totalServers == |reg| && r.1.servers == r.0.results
    ensures r.1.healthyServers == r.0.healthyCount
    ensures r.1.healthyServers + r.1.unhealthyServers == r.1.totalServers
  {
    var tick := PerformHealthChecks(reg, probes);
    CountHealthySplit(tick.results);
    (tick, Summary(|reg|, CountHealthy(tick.results, true), CountHealthy(tick.results, false), tick.results))
  }
}
