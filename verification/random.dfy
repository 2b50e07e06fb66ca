/** `RandomStrategy`: picks the server at a uniformly drawn index of the
    list it is given. The draw `Math.floor(Math.random() * servers.length)`
    is an input here; the strategy keeps no state besides its name. */
module RandomStrategy {
  import opened Strategy

  /** `getName()` of a `RandomStrategy`. */
  function GetName(): (name: string)
    ensures name == Name(Random) && name != Name(Base)
    ensures Lookup(name) == Some(Random)
  {
    "random"
  }

  /** `selectServer(servers)`; `None` stands for `null` or `undefined`. */
  function Select(servers: Option<seq<Backend>>, draw: nat): (r: Result<Backend>)
    requires servers.Some? ==> ValidDraw(draw, |servers.value|)
    ensures servers.None? || servers == Some([]) ==> r == Err(NoServersFor("random"))
    ensures servers.Some? && |servers.value| > 0 ==>
      r.Ok? && draw < |servers.value| && r.value == servers.value[draw] && r.value in servers.value
  {
    if servers.None? || |servers.value| == 0 then Err(NoServersFor("random"))
    else Ok(servers.value[draw])
  }

  /** Every server of a non-empty list is returned by exactly the draws
      equal to its positions, so each position is chosen with probability
      `1 / servers.length`. */
  lemma EachPositionReachable(servers: seq<Backend>, i: nat)
    requires i < |servers|
    ensures Select(Some(servers), i) == Ok(servers[i])
    ensures forall draw: nat :: draw < |servers| ==>
      (Select(Some(servers), draw) == Ok(servers[i]) <==> servers[draw] == servers[i])
  {
  }

  /** With distinct ids, a server is returned by exactly one draw. */
  lemma UniqueDrawPerServer(servers: seq<Backend>, i: nat, draw: nat)
    requires UniqueIds(servers)
    requires i < |servers| && draw < |servers|
    ensures Select(Some(servers), draw) == Ok(servers[i]) <==> draw == i
  {
  }
}
