/** The shared server list `config.servers`: each backend with its mutable
    `healthy` flag. The proxy filters it, the health checker and the proxy's
    error handler rewrite the flags, and the metrics routes count them. */
module Registry {
  import opened Strategy
  import WeightedStrategy

  datatype Member = Member(backend: Backend, healthy: bool)

  /** The descriptors the strategies see, in config order. */
  function Descriptors(reg: seq<Member>): (ds: seq<Backend>)
    ensures |ds| == |reg|
    ensures forall i :: 0 <= i < |reg| ==> ds[i] == reg[i].backend
  {
    seq(|reg|, i requires 0 <= i < |reg| => reg[i].backend)
  }

  /** Distinct, well-formed ids: what the configuration is expected to hold. */
  predicate Valid(reg: seq<Member>)
  {
    UniqueIds(Descriptors(reg)) && WellFormedIds(Descriptors(reg))
  }

  /** The positions `config.servers.filter(server => server.healthy)` keeps,
      in config order. */
  function HealthyIndices(reg: seq<Member>): (idx: seq<nat>)
    ensures forall k :: 0 <= k < |idx| ==> idx[k] < |reg| && reg[idx[k]].healthy
    ensures forall k, l :: 0 <= k < l < |idx| ==> idx[k] < idx[l]
    ensures forall i :: 0 <= i < |reg| && reg[i].healthy ==> i in idx
    decreases |reg|
  {
    if |reg| == 0 then []
    else
      var n := |reg| - 1;
      HealthyIndices(reg[..n]) + (if reg[n].healthy then [n] else [])
  }

  /** `config.servers.filter(server => server.healthy)` */
  function Healthy(reg: seq<Member>): (hs: seq<Backend>)
    ensures |hs| == |HealthyIndices(reg)|
    ensures forall k :: 0 <= k < |hs| ==> hs[k] == reg[HealthyIndices(reg)[k]].backend
  {
    var idx := HealthyIndices(reg);
    seq(|idx|, k requires 0 <= k < |idx| => reg[idx[k]].backend)
  }

  /** A descriptor is in the healthy list exactly when some healthy member carries it. */
  lemma HealthyMembers(reg: seq<Member>, b: Backend)
    ensures b in Healthy(reg) <==> exists i :: 0 <= i < |reg| && reg[i].healthy && reg[i].backend == b
  {
    var hs, idx := Healthy(reg), HealthyIndices(reg);
    if b in hs {
      var k :| 0 <= k < |hs| && hs[k] == b;
      assert reg[idx[k]].healthy && reg[idx[k]].backend == b;
    }
    if exists i :: 0 <= i < |reg| && reg[i].healthy && reg[i].backend == b {
      var i :| 0 <= i < |reg| && reg[i].healthy && reg[i].backend == b;
      var k :| 0 <= k < |idx| && idx[k] == i;
      assert hs[k] == b;
    }
  }

  /** Every healthy descriptor is one of the configured descriptors. */
  lemma HealthyWithin(reg: seq<Member>)
    ensures forall b :: b in Healthy(reg) ==> b in Descriptors(reg)
  {
    forall b | b in Healthy(reg)
      ensures b in Descriptors(reg)
    {
      HealthyMembers(reg, b);
      var i :| 0 <= i < |reg| && reg[i].healthy && reg[i].backend == b;
      assert Descriptors(reg)[i] == b;
    }
  }

  /** The healthy list of a registry with distinct ids has distinct ids. */
  lemma HealthyUnique(reg: seq<Member>)
    requires Valid(reg)
    ensures UniqueIds(Healthy(reg)) && WellFormedIds(Healthy(reg))
  {
    HealthyWithin(reg);
    var hs, idx := Healthy(reg), HealthyIndices(reg);
    forall k, l | 0 <= k < l < |hs|
      ensures hs[k].id != hs[l].id
    {
      assert Descriptors(reg)[idx[k]] == hs[k] && Descriptors(reg)[idx[l]] == hs[l];
    }
  }

  /** How many members have the given health flag. */
  function Count(reg: seq<Member>, flag: bool): nat
    decreases |reg|
  {
    if |reg| == 0 then 0
    else Count(reg[..|reg| - 1], flag) + (if reg[|reg| - 1].healthy == flag then 1 else 0)
  }

  /** Healthy and unhealthy members partition the list, and the filter keeps
      exactly the healthy ones. */
  lemma {:induction false} CountPartition(reg: seq<Member>)
    ensures Count(reg, true) + Count(reg, false) == |reg|
    ensures |Healthy(reg)| == Count(reg, true)
    decreases |reg|
  {
    if |reg| > 0 {
      CountPartition(reg[..|reg| - 1]);
    }
  }

  /** The first position whose descriptor has the given id, as `Array.find`
      and `Array.findIndex` look it up. */
  function Find(servers: seq<Backend>, id: string): (r: Option<nat>)
    ensures r.Some? ==>
      r.value < |servers| && servers[r.value].id == id &&
      forall j :: 0 <= j < r.value ==> servers[j].id != id
    ensures r.None? <==> forall j :: 0 <= j < |servers| ==> servers[j].id != id
    decreases |servers|
  {
    if |servers| == 0 then None
    else if servers[0].id == id then Some(0)
    else
      var r := Find(servers[1..], id);
      if r.Some? then Some(r.value + 1) else None
  }

  /** In a list of distinct ids, `Find` returns the one position holding the id. */
  lemma FindUnique(servers: seq<Backend>, i: nat)
    requires UniqueIds(servers) && i < |servers|
    ensures Find(servers, servers[i].id) == Some(i)
  {
  }

  /** Set the health flag of position `i`; nothing else changes. */
  function SetHealth(reg: seq<Member>, i: nat, flag: bool): (r: seq<Member>)
    requires i < |reg|
    ensures |r| == |reg| && Descriptors(r) == Descriptors(reg)
    ensures r[i].healthy == flag
    ensures forall j :: 0 <= j < |reg| && j != i ==> r[j] == reg[j]
  {
    reg[i := reg[i].(healthy := flag)]
  }

  // ---------------------------------------------------------------------------
  // The shipped configuration (config.js), as a fixture.

  const Config: seq<Member> := [
    Member(Backend("server1", "localhost", 3000, 2), true),
    Member(Backend("server2", "localhost", 3001, 1), true),
    Member(Backend("server3", "localhost", 3002, 3), true)
  ]

  /** The shipped servers have distinct, well-formed ids and pass validation. */
  lemma {:induction false} ConfigFixture()
    ensures Valid(Config)
    ensures ValidateServers(Some(Descriptors(Config))) == Pass
  {
    var ds := Descriptors(Config);
    assert ds == [Config[0].backend, Config[1].backend, Config[2].backend];
    assert WellFormedId("server1") && WellFormedId("server2") && WellFormedId("server3");
    assert ValidateFrom(ds, 0) == Pass by {
      assert forall j :: 0 <= j < |ds| ==> Complete(ds[j]);
    }
  }

  /** All shipped servers start healthy, so the healthy list starts as the whole list. */
  lemma ConfigAllHealthy()
    ensures Healthy(Config) == Descriptors(Config)
  {
    assert HealthyIndices(Config) == [0, 1, 2] by {
      assert Config[..1][..0] == [];
      assert Config[..2][..1] == Config[..1];
      assert HealthyIndices(Config[..1]) == [0];
      assert HealthyIndices(Config[..2]) == [0, 1];
    }
  }

  /** The shipped weights 2, 1 and 3 expand to six entries: two draws in six
      pick `server1`, one `server2` and three `server3`. */
  lemma ConfigWeights()
    ensures |WeightedStrategy.Build(Descriptors(Config))| == 6
    ensures WeightedStrategy.CountId(WeightedStrategy.Build(Descriptors(Config)), "server1") == 2
    ensures WeightedStrategy.CountId(WeightedStrategy.Build(Descriptors(Config)), "server2") == 1
    ensures WeightedStrategy.CountId(WeightedStrategy.Build(Descriptors(Config)), "server3") == 3
  {
    var ds := Descriptors(Config);
    assert ds == [Config[0].backend, Config[1].backend, Config[2].backend];
    assert UniqueIds(ds);
    WeightedStrategy.DrawsPerServer(ds, 0);
    WeightedStrategy.DrawsPerServer(ds, 1);
    WeightedStrategy.DrawsPerServer(ds, 2);
    assert WeightedStrategy.TotalCopies(ds) == 6 by {
      assert ds[..1][..0] == [];
      assert ds[..2][..1] == ds[..1];
      assert WeightedStrategy.TotalCopies(ds[..1]) == 2;
      assert WeightedStrategy.TotalCopies(ds[..2]) == 3;
    }
  }
}
