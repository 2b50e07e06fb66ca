/** The base strategy class and the server descriptors every strategy reads.

    JavaScript's "falsy" field values are modelled by the empty string for
    `id` and `host` and by 0 for `port` and `weight`. Where the source tests
    truthiness an absent field behaves the same; where it prints a field, an
    absent one would print `undefined`, which this model does not represent. */
module Strategy {

  datatype Option<T> = None | Some(value: T)

  /** Everything the balancer throws, by the condition that throws it. */
  datatype Failure =
    | NotImplemented                 // base `selectServer`
    | NotAnArray                     // `validateServers` on a non-array
    | NoServersAvailable             // `validateServers` on []
    | MissingId(index: nat)          // first server with a falsy id
    | MissingHost(id: string)        // ... with a falsy host
    | MissingPort(id: string)        // ... with a falsy port
    | NoServersFor(selection: string) // a concrete strategy given no servers
    | NoEntryDrawn                   // the weighted draw read an undefined entry
    | NoHealthyServers               // the proxy found no healthy server
    | NoStatsFor(id: string)         // the proxy has no stats record for the target
    | NoStrategy(name: string)       // the configured strategy name is not registered

  datatype Result<T> = Ok(value: T) | Err(error: Failure)

  /** A configured backend, as far as selection is concerned. */
  datatype Backend = Backend(id: string, host: string, port: int, weight: int)

  /** The strategy classes: the base class and its three subclasses. */
  datatype Kind = Base | Random | RoundRobin | Weighted

  /** `getName()`: the name each constructor stores. */
  function Name(k: Kind): string
  {
    match k
    case Base => "base"
    case Random => "random"
    case RoundRobin => "roundrobin"
    case Weighted => "weighted"
  }

  /** The proxy's `strategies[config.strategy]` table: only the three
      subclasses are registered, under their names. */
  function Lookup(configured: string): Option<Kind>
  {
    if configured == "random" then Some(Random)
    else if configured == "roundrobin" then Some(RoundRobin)
    else if configured == "weighted" then Some(Weighted)
    else None
  }

  /** Every registered strategy is found under the name it reports, the base
      class is found under no name, and a name that is found is the found
      strategy's own name. */
  lemma LookupByName(k: Kind, configured: string)
    ensures Lookup(Name(k)) == (if k == Base then None else Some(k))
    ensures Lookup(configured).Some? ==> Name(Lookup(configured).value) == configured
  {
  }

  /** The base class's `selectServer`: it must be overridden, so it fails
      whatever it is given. */
  function SelectBase(servers: Option<seq<Backend>>): (r: Result<Backend>)
    ensures r.Err? && r.error == NotImplemented
  {
    Err(NotImplemented)
  }

  /** The three fields `validateServers` requires, checked for truthiness. */
  predicate Complete(b: Backend)
  {
    b.id != "" && b.host != "" && b.port != 0
  }

  /** The error for an incomplete server: id is checked before host, host before port. */
  function FieldError(index: nat, b: Backend): (e: Failure)
    requires !Complete(b)
    ensures e == MissingId(index) <==> b.id == ""
    ensures e == MissingHost(b.id) <==> b.id != "" && b.host == ""
    ensures e == MissingPort(b.id) <==> b.id != "" && b.host != "" && b.port == 0
  {
    if b.id == "" then MissingId(index)
    else if b.host == "" then MissingHost(b.id)
    else MissingPort(b.id)
  }

  /** Index `i` holds the first server that lacks a required field. */
  predicate FirstIncomplete(servers: seq<Backend>, i: int)
  {
    0 <= i < |servers| && !Complete(servers[i]) &&
    forall j :: 0 <= j < i ==> Complete(servers[j])
  }

  datatype Outcome = Pass | Fail(error: Failure)

  /** The per-server scan of `validateServers`, from index `from` on. */
  function ValidateFrom(servers: seq<Backend>, from: nat): (r: Outcome)
    requires from <= |servers|
    requires forall j :: 0 <= j < from ==> Complete(servers[j])
    ensures r.Pass? <==> forall j :: from <= j < |servers| ==> Complete(servers[j])
    ensures r.Fail? ==> exists i :: FirstIncomplete(servers, i) && r.error == FieldError(i, servers[i])
    decreases |servers| - from
  {
    if from == |servers| then Pass
    else if !Complete(servers[from]) then Fail(FieldError(from, servers[from]))
    else ValidateFrom(servers, from + 1)
  }

  /** `validateServers(servers)`; `None` stands for any value that is not an array. */
  function ValidateServers(servers: Option<seq<Backend>>): (r: Outcome)
    ensures servers.None? ==> r == Fail(NotAnArray)
    ensures servers == Some([]) ==> r == Fail(NoServersAvailable)
    ensures r.Pass? <==>
      servers.Some? && |servers.value| > 0 &&
      forall j :: 0 <= j < |servers.value| ==> Complete(servers.value[j])
    ensures r.Fail? && servers.Some? && |servers.value| > 0 ==>
      exists i :: FirstIncomplete(servers.value, i) && r.error == FieldError(i, servers.value[i])
  {
    if servers.None? then Fail(NotAnArray)
    else if |servers.value| == 0 then Fail(NoServersAvailable)
    else ValidateFrom(servers.value, 0)
  }

  /** `Math.floor(Math.random() * len)` can only produce these values. */
  predicate ValidDraw(draw: nat, len: nat)
  {
    if len == 0 then draw == 0 else draw < len
  }

  // ---------------------------------------------------------------------------
  // Identity assumptions shared by the registry and the strategies.

  function Ids(servers: seq<Backend>): (ids: seq<string>)
    ensures |ids| == |servers|
    ensures forall i :: 0 <= i < |servers| ==> ids[i] == servers[i].id
  {
    seq(|servers|, i requires 0 <= i < |servers| => servers[i].id)
  }

  predicate UniqueIds(servers: seq<Backend>)
  {
    forall i, j :: 0 <= i < j < |servers| ==> servers[i].id != servers[j].id
  }

  /** An id that survives the strategies' `join`-based change detectors:
      non-empty and free of the separators `,`, `:` and `|`. */
  predicate WellFormedId(id: string)
  {
    id != "" && ',' !in id && ':' !in id && '|' !in id
  }

  predicate WellFormedIds(servers: seq<Backend>)
  {
    forall b :: b in servers ==> WellFormedId(b.id)
  }

  /** Within a list of distinct ids, an id names one server. */
  lemma SameIdSameServer(universe: seq<Backend>, a: Backend, b: Backend)
    requires UniqueIds(universe)
    requires a in universe && b in universe && a.id == b.id
    ensures a == b
  {
    var i :| 0 <= i < |universe| && universe[i] == a;
    var j :| 0 <= j < |universe| && universe[j] == b;
    assert i == j;
  }
}
