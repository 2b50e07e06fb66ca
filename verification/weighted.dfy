/** `WeightedStrategy` (file weightedRoundRobinStrategy.js): despite the file
    name it is a weighted random draw. Each server is repeated in an expanded
    list once per unit of weight; a drawn index into that list picks the
    server. The list is cached under a key built from the sorted
    `id:weight` strings and rebuilt only when that key changes. */
module WeightedStrategy {
  import opened Text
  import opened Strategy

  /** `server.weight || 1`: a missing or zero weight counts as 1. */
  function EffectiveWeight(b: Backend): (w: int)
    ensures w != 0
    ensures b.weight != 0 ==> w == b.weight
    ensures b.weight == 0 ==> w == 1
  {
    if b.weight == 0 then 1 else b.weight
  }

  /** How often `for (let i = 0; i < weight; i++)` pushes the server: a
      negative weight pushes it no times. */
  function Copies(b: Backend): nat
  {
    if EffectiveWeight(b) > 0 then EffectiveWeight(b) else 0
  }

  function TotalCopies(servers: seq<Backend>): nat
    decreases |servers|
  {
    if |servers| == 0 then 0
    else TotalCopies(servers[..|servers| - 1]) + Copies(servers[|servers| - 1])
  }

  /** Where server `i`'s block starts in the expanded list. */
  function Offset(servers: seq<Backend>, i: nat): nat
    requires i <= |servers|
  {
    TotalCopies(servers[..i])
  }

  function Repeat(b: Backend, k: nat): (r: seq<Backend>)
    ensures |r| == k
    ensures forall j :: 0 <= j < k ==> r[j] == b
  {
    seq(k, _ => b)
  }

  /** `buildWeightedList(servers)` */
  function Build(servers: seq<Backend>): (list: seq<Backend>)
    ensures |list| == TotalCopies(servers)
    ensures forall e :: e in list ==> e in servers
    decreases |servers|
  {
    if |servers| == 0 then []
    else
      var last := servers[|servers| - 1];
      Build(servers[..|servers| - 1]) + Repeat(last, Copies(last))
  }

  lemma {:induction false} BuildAppend(a: seq<Backend>, b: seq<Backend>)
    ensures Build(a + b) == Build(a) + Build(b)
    ensures TotalCopies(a + b) == TotalCopies(a) + TotalCopies(b)
    decreases |b|
  {
    if |b| == 0 {
      assert a + b == a;
    } else {
      var b' := b[..|b| - 1];
      assert (a + b)[..|a + b| - 1] == a + b';
      assert (a + b)[|a + b| - 1] == b[|b| - 1];
      BuildAppend(a, b');
    }
  }

  lemma BuildSingle(b: Backend)
    ensures Build([b]) == Repeat(b, Copies(b))
  {
    assert [b][..0] == [];
  }

  /** Server `i` fills the `Copies(servers[i])` entries starting at its
      offset, and the blocks follow the input order. */
  lemma {:induction false} BlockLayout(servers: seq<Backend>, i: nat)
    requires i < |servers|
    ensures Offset(servers, i + 1) == Offset(servers, i) + Copies(servers[i])
    ensures Offset(servers, i + 1) <= |Build(servers)|
    ensures forall k :: Offset(servers, i) <= k < Offset(servers, i + 1) ==> Build(servers)[k] == servers[i]
  {
    var pre, post := servers[..i], servers[i + 1..];
    assert servers == pre + [servers[i]] + post;
    assert servers[..i + 1] == pre + [servers[i]];
    BuildAppend(pre + [servers[i]], post);
    BuildAppend(pre, [servers[i]]);
    BuildSingle(servers[i]);
  }

  /** The blocks exhaust the list. */
  lemma BlocksCoverList(servers: seq<Backend>)
    ensures Offset(servers, |servers|) == |Build(servers)|
  {
    assert servers[..|servers|] == servers;
  }

  /** How many entries of `list` carry `id`. */
  function CountId(list: seq<Backend>, id: string): nat
    decreases |list|
  {
    if |list| == 0 then 0
    else (if list[0].id == id then 1 else 0) + CountId(list[1..], id)
  }

  lemma {:induction false} CountAppend(a: seq<Backend>, b: seq<Backend>, id: string)
    ensures CountId(a + b, id) == CountId(a, id) + CountId(b, id)
    decreases |a|
  {
    if |a| == 0 {
      assert a + b == b;
    } else {
      assert (a + b)[1..] == a[1..] + b;
      CountAppend(a[1..], b, id);
    }
  }

  lemma {:induction false} CountAbsent(list: seq<Backend>, id: string)
    requires forall e :: e in list ==> e.id != id
    ensures CountId(list, id) == 0
    decreases |list|
  {
    if |list| > 0 {
      assert list[0] in list;
      CountAbsent(list[1..], id);
    }
  }

  lemma {:induction false} CountRepeat(b: Backend, k: nat)
    ensures CountId(Repeat(b, k), b.id) == k
    decreases k
  {
    if k > 0 {
      assert Repeat(b, k)[1..] == Repeat(b, k - 1);
      CountRepeat(b, k - 1);
    }
  }

  /** The expanded list around one server: the servers before it, its
      block, the servers after it. */
  lemma BuildAround(pre: seq<Backend>, x: Backend, post: seq<Backend>)
    ensures Build(pre + [x] + post) == Build(pre) + Repeat(x, Copies(x)) + Build(post)
  {
    BuildAppend(pre + [x], post);
    BuildAppend(pre, [x]);
    BuildSingle(x);
  }

  /** Servers without the id contribute no entry carrying it. */
  lemma BuildAbsent(servers: seq<Backend>, id: string)
    requires forall b :: b in servers ==> b.id != id
    ensures CountId(Build(servers), id) == 0
  {
    CountAbsent(Build(servers), id);
  }

  /** Only the block of the one server holding the id counts. */
  lemma CountAround(pre: seq<Backend>, x: Backend, post: seq<Backend>)
    requires forall b :: b in pre ==> b.id != x.id
    requires forall b :: b in post ==> b.id != x.id
    ensures CountId(Build(pre + [x] + post), x.id) == Copies(x)
  {
    var block := Repeat(x, Copies(x));
    BuildAround(pre, x, post);
    BuildAbsent(pre, x.id);
    BuildAbsent(post, x.id);
    CountRepeat(x, Copies(x));
    CountAppend(Build(pre) + block, Build(post), x.id);
    CountAppend(Build(pre), block, x.id);
  }

  /** With distinct ids, exactly `Copies(servers[i])` indices of the
      expanded list select server `i`: the basis of its weight/total share. */
  lemma {:induction false} DrawsPerServer(servers: seq<Backend>, i: nat)
    requires UniqueIds(servers)
    requires i < |servers|
    ensures CountId(Build(servers), servers[i].id) == Copies(servers[i])
  {
    var pre, x, post := servers[..i], servers[i], servers[i + 1..];
    assert servers == pre + [x] + post;
    forall b | b in pre
      ensures b.id != x.id
    {
      var j :| 0 <= j < |pre| && pre[j] == b;
      assert servers[j] == b;
    }
    forall b | b in post
      ensures b.id != x.id
    {
      var j :| 0 <= j < |post| && post[j] == b;
      assert servers[i + 1 + j] == b;
    }
    CountAround(pre, x, post);
  }

  /** With no negative weights every server gets at least one entry. */
  lemma {:induction false} ExpandedAtLeastServers(servers: seq<Backend>)
    requires forall b :: b in servers ==> b.weight >= 0
    ensures |Build(servers)| >= |servers|
    decreases |servers|
  {
    if |servers| > 0 {
      assert servers[|servers| - 1] in servers;
      ExpandedAtLeastServers(servers[..|servers| - 1]);
    }
  }

  // ---------------------------------------------------------------------------
  // The cache key.

  /** `${s.id}:${s.weight || 1}` */
  function Entry(b: Backend): string
  {
    b.id + ":" + IntToString(EffectiveWeight(b))
  }

  function Entries(servers: seq<Backend>): (entries: seq<string>)
    ensures |entries| == |servers|
    ensures forall i :: 0 <= i < |servers| ==> entries[i] == Entry(servers[i])
  {
    seq(|servers|, i requires 0 <= i < |servers| => Entry(servers[i]))
  }

  /** `servers.map(entry).sort().join('|')` */
  function CacheKey(servers: seq<Backend>): string
  {
    Join(Sort(Entries(servers)), '|')
  }

  lemma EntriesSeparable(servers: seq<Backend>)
    requires WellFormedIds(servers)
    ensures Separable(Entries(servers), '|')
  {
    forall p | p in Entries(servers)
      ensures p != "" && '|' !in p
    {
      var i :| 0 <= i < |servers| && Entries(servers)[i] == p;
      assert servers[i] in servers;
      var w := IntToString(EffectiveWeight(servers[i]));
      assert p == servers[i].id + ":" + w;
      assert '|' !in w;
    }
  }

  /** The part of an entry before the first `:` is the server's id. */
  lemma EntryNamesServer(a: Backend, b: Backend)
    requires ':' !in a.id && ':' !in b.id
    requires Entry(a) == Entry(b)
    ensures a.id == b.id
  {
    var wa, wb := IntToString(EffectiveWeight(a)), IntToString(EffectiveWeight(b));
    assert Entry(a) == a.id + [':'] + wa;
    assert Entry(b) == b.id + [':'] + wb;
    SplitAtFirst(a.id, wa, ':');
    SplitAtFirst(b.id, wb, ':');
    assert Split(Entry(a), ':')[0] == a.id;
    assert Split(Entry(b), ':')[0] == b.id;
  }

  /** For well-formed ids the key is equal exactly when the multisets of
      `id:weight` entries are equal. */
  lemma {:induction false} CacheKeyIff(a: seq<Backend>, b: seq<Backend>)
    requires WellFormedIds(a) && WellFormedIds(b)
    ensures CacheKey(a) == CacheKey(b) <==> multiset(Entries(a)) == multiset(Entries(b))
  {
    EntriesSeparable(a);
    EntriesSeparable(b);
    SortedJoinIff(Entries(a), Entries(b), '|');
  }

  /** A reordering of the same servers leaves the key unchanged. */
  lemma {:induction false} ReorderKeepsCacheKey(a: seq<Backend>, b: seq<Backend>)
    requires multiset(a) == multiset(b)
    ensures CacheKey(a) == CacheKey(b)
  {
    assert multiset(Entries(a)) == multiset(Entries(b)) by {
      MultisetMap(a, b);
    }
    SortByMultiset(Entries(a), Entries(b));
  }

  lemma EntriesAppend(u: seq<Backend>, v: seq<Backend>)
    ensures Entries(u + v) == Entries(u) + Entries(v)
  {
  }

  /** Taking one occurrence of `a[0]` out of `b`. */
  lemma RemoveFirst(a: seq<Backend>, b: seq<Backend>, j: nat)
    requires multiset(a) == multiset(b) && |a| > 0
    requires j < |b| && b[j] == a[0]
    ensures multiset(a[1..]) == multiset(b[..j] + b[j + 1..])
  {
    assert b == b[..j] + [b[j]] + b[j + 1..];
    assert a == [a[0]] + a[1..];
    assert multiset(a[1..]) == multiset(a) - multiset{a[0]};
    assert multiset(b[..j] + b[j + 1..]) == multiset(b) - multiset{a[0]};
  }

  lemma EntriesCons(a: seq<Backend>)
    requires |a| > 0
    ensures Entries(a) == [Entry(a[0])] + Entries(a[1..])
  {
    assert a == [a[0]] + a[1..];
    EntriesAppend([a[0]], a[1..]);
  }

  lemma EntriesAround(b: seq<Backend>, j: nat)
    requires j < |b|
    ensures Entries(b) == Entries(b[..j]) + [Entry(b[j])] + Entries(b[j + 1..])
    ensures Entries(b[..j] + b[j + 1..]) == Entries(b[..j]) + Entries(b[j + 1..])
  {
    assert b == b[..j] + [b[j]] + b[j + 1..];
    EntriesAppend(b[..j] + [b[j]], b[j + 1..]);
    EntriesAppend(b[..j], [b[j]]);
    EntriesAppend(b[..j], b[j + 1..]);
  }

  lemma MultisetInsert(x: string, rest: seq<string>, pre: seq<string>, post: seq<string>)
    requires multiset(rest) == multiset(pre + post)
    ensures multiset([x] + rest) == multiset(pre + [x] + post)
  {
    calc {
      multiset([x] + rest);
      multiset{x} + multiset(pre) + multiset(post);
      multiset(pre + [x] + post);
    }
  }

  /** Removing one occurrence of `a[0]` from `b` and putting it back in front
      leaves the entry multiset as it was. */
  lemma InsertBoth(a: seq<Backend>, b: seq<Backend>, j: nat)
    requires |a| > 0 && j < |b| && b[j] == a[0]
    requires multiset(Entries(a[1..])) == multiset(Entries(b[..j] + b[j + 1..]))
    ensures multiset(Entries(a)) == multiset(Entries(b))
  {
    EntriesCons(a);
    EntriesAround(b, j);
    MultisetInsert(Entry(a[0]), Entries(a[1..]), Entries(b[..j]), Entries(b[j + 1..]));
  }

  lemma {:induction false} MultisetMap(a: seq<Backend>, b: seq<Backend>)
    requires multiset(a) == multiset(b)
    ensures multiset(Entries(a)) == multiset(Entries(b))
    decreases |a|
  {
    if |a| > 0 {
      assert a[0] in multiset(b);
      var j :| 0 <= j < |b| && b[j] == a[0];
      RemoveFirst(a, b, j);
      MultisetMap(a[1..], b[..j] + b[j + 1..]);
      InsertBoth(a, b, j);
    } else {
      assert |b| == |multiset(b)| == 0;
    }
  }

  // ---------------------------------------------------------------------------
  // Strategy state and selection.

  /** `weightedList` and `lastServerList` (`None` for the initial `null`). */
  datatype State = State(list: seq<Backend>, key: Option<string>)

  const Initial: State := State([], None)

  /** Lines 53-57 of `weightedRoundRobinStrategy.js`: rebuild the list when
      the key differs from the cached one, then remember the key. */
  function Refresh(st: State, servers: seq<Backend>): (r: State)
    ensures r.key == Some(CacheKey(servers))
    ensures st.key == Some(CacheKey(servers)) ==> r == st
    ensures st.key != Some(CacheKey(servers)) ==> r.list == Build(servers)
  {
    var key := CacheKey(servers);
    if st.key != Some(key) then State(Build(servers), Some(key)) else st
  }

  /** A second refresh with the same servers changes nothing. */
  lemma RefreshIdempotent(st: State, servers: seq<Backend>)
    ensures Refresh(Refresh(st, servers), servers) == Refresh(st, servers)
  {
  }

  datatype Step = Step(state: State, result: Result<Backend>)

  /** `selectServer(servers)` with the drawn index passed in; `None` stands
      for `null` or `undefined`. An empty expanded list (every weight
      negative) makes the source read an undefined entry and throw. */
  function Select(st: State, servers: Option<seq<Backend>>, draw: nat): (r: Step)
    requires servers.Some? ==> ValidDraw(draw, |Refresh(st, servers.value).list|)
    ensures servers.None? || servers == Some([]) ==>
      r == Step(st, Err(NoServersFor("weighted")))
    ensures servers.Some? && |servers.value| > 0 ==> r.state == Refresh(st, servers.value)
    ensures servers.Some? && |servers.value| > 0 ==>
      (r.result.Ok? <==> |r.state.list| > 0) &&
      (r.result.Err? ==> r.result.error == NoEntryDrawn)
    ensures r.result.Ok? ==> draw < |r.state.list| && r.result.value == r.state.list[draw]
  {
    if servers.None? || |servers.value| == 0 then Step(st, Err(NoServersFor("weighted")))
    else
      var st' := Refresh(st, servers.value);
      if draw < |st'.list| then Step(st', Ok(st'.list[draw]))
      else Step(st', Err(NoEntryDrawn))
  }

  /** After a rebuild the drawn entry is the server whose block holds the draw. */
  lemma {:induction false} RebuiltSelection(st: State, servers: seq<Backend>, draw: nat, i: nat)
    requires |servers| > 0
    requires st.key != Some(CacheKey(servers))
    requires ValidDraw(draw, |Refresh(st, servers).list|)
    requires i < |servers| && Offset(servers, i) <= draw < Offset(servers, i + 1)
    ensures Select(st, Some(servers), draw).result == Ok(servers[i])
  {
    BlockLayout(servers, i);
  }

  /** The cached list was built from some servers of `universe`, under the
      key those servers produce. */
  ghost predicate CacheWithin(st: State, universe: seq<Backend>)
  {
    st.key.None? ||
    exists built: seq<Backend> ::
      (forall b :: b in built ==> b in universe) &&
      st.list == Build(built) && st.key.value == CacheKey(built)
  }

  lemma InitialWithin(universe: seq<Backend>)
    ensures CacheWithin(Initial, universe)
  {
  }

  /** Refreshing with servers from the universe keeps the cache within it. */
  lemma RefreshWithin(st: State, universe: seq<Backend>, servers: seq<Backend>)
    requires CacheWithin(st, universe)
    requires forall b :: b in servers ==> b in universe
    ensures CacheWithin(Refresh(st, servers), universe)
  {
    var r := Refresh(st, servers);
    if st.key != Some(CacheKey(servers)) {
      assert r.list == Build(servers) && r.key.value == CacheKey(servers);
    }
  }

  /** When the cache is kept, the list was built from servers whose entries
      are those of the current servers. */
  lemma {:induction false} CachedEntriesMatch(st: State, universe: seq<Backend>, servers: seq<Backend>)
    returns (built: seq<Backend>)
    requires CacheWithin(st, universe) && WellFormedIds(universe)
    requires forall b :: b in servers ==> b in universe
    requires st.key == Some(CacheKey(servers))
    ensures forall b :: b in built ==> b in universe
    ensures st.list == Build(built)
    ensures multiset(Entries(built)) == multiset(Entries(servers))
  {
    built :| (forall b :: b in built ==> b in universe) &&
      st.list == Build(built) && st.key.value == CacheKey(built);
    CacheKeyIff(built, servers);
  }

  /** Whatever the cache holds, the drawn server is one of the servers given,
      provided all come from one universe of distinct, well-formed ids. */
  lemma {:induction false} SelectionInInput(st: State, universe: seq<Backend>, servers: seq<Backend>, draw: nat)
    requires CacheWithin(st, universe)
    requires UniqueIds(universe) && WellFormedIds(universe)
    requires forall b :: b in servers ==> b in universe
    requires ValidDraw(draw, |Refresh(st, servers).list|)
    ensures Select(st, Some(servers), draw).result.Ok? ==>
      Select(st, Some(servers), draw).result.value in servers
  {
    var r := Select(st, Some(servers), draw);
    if r.result.Ok? && st.key == Some(CacheKey(servers)) {
      var built := CachedEntriesMatch(st, universe, servers);
      var e := r.result.value;
      assert e in st.list;
      assert Entry(e) in multiset(Entries(servers)) by {
        var k :| 0 <= k < |built| && built[k] == e;
        assert Entries(built)[k] == Entry(e);
        assert Entry(e) in multiset(Entries(built));
      }
      var j :| 0 <= j < |servers| && Entries(servers)[j] == Entry(e);
      assert servers[j] in universe;
      EntryNamesServer(e, servers[j]);
      SameIdSameServer(universe, e, servers[j]);
    }
  }

  /** An element at two positions occurs at least twice in the multiset. */
  lemma {:induction false} TwiceInMultiset(s: seq<string>, a: nat, b: nat)
    requires a < b < |s| && s[a] == s[b]
    ensures multiset(s)[s[b]] >= 2
  {
    assert s == s[..b] + [s[b]] + s[b + 1..];
    assert s[..b][a] == s[b];
    assert s[b] in multiset(s[..b]);
  }

  /** An element occurring twice in the multiset sits at two positions. */
  lemma {:induction false} TwoPositions(s: seq<string>, e: string) returns (p: nat, q: nat)
    requires multiset(s)[e] >= 2
    ensures p < q < |s| && s[p] == e && s[q] == e
  {
    assert e in multiset(s);
    var k :| 0 <= k < |s| && s[k] == e;
    assert s == s[..k] + [e] + s[k + 1..];
    assert multiset(s)[e] == multiset(s[..k])[e] + 1 + multiset(s[k + 1..])[e];
    if e in multiset(s[..k]) {
      var j :| 0 <= j < k && s[..k][j] == e;
      p, q := j, k;
    } else {
      assert e in multiset(s[k + 1..]);
      var j :| 0 <= j < |s| - k - 1 && s[k + 1..][j] == e;
      p, q := k, k + 1 + j;
    }
  }

  /** The servers a kept cache was built from have distinct ids when the
      current servers do: a repeated server would repeat its entry. */
  lemma {:induction false} BuiltUnique(built: seq<Backend>, universe: seq<Backend>, servers: seq<Backend>)
    requires UniqueIds(universe) && WellFormedIds(universe) && UniqueIds(servers)
    requires forall b :: b in built ==> b in universe
    requires forall b :: b in servers ==> b in universe
    requires multiset(Entries(built)) == multiset(Entries(servers))
    ensures UniqueIds(built)
  {
    forall a, b | 0 <= a < b < |built|
      ensures built[a].id != built[b].id
    {
      if built[a].id == built[b].id {
        SameIdSameServer(universe, built[a], built[b]);
        TwiceInMultiset(Entries(built), a, b);
        var p, q := TwoPositions(Entries(servers), Entry(built[b]));
        assert servers[p] in universe && servers[q] in universe;
        EntryNamesServer(servers[p], servers[q]);
        assert false;
      }
    }
  }

  /** A current server's entry in a kept cache comes from the same server. */
  lemma {:induction false} BuiltHolds(built: seq<Backend>, universe: seq<Backend>, servers: seq<Backend>, i: nat)
    returns (k: nat)
    requires UniqueIds(universe) && WellFormedIds(universe)
    requires forall b :: b in built ==> b in universe
    requires forall b :: b in servers ==> b in universe
    requires multiset(Entries(built)) == multiset(Entries(servers))
    requires i < |servers|
    ensures k < |built| && built[k] == servers[i]
  {
    assert Entries(servers)[i] == Entry(servers[i]);
    assert Entry(servers[i]) in multiset(Entries(built));
    k :| 0 <= k < |built| && Entries(built)[k] == Entry(servers[i]);
    assert built[k] in universe && servers[i] in universe;
    EntryNamesServer(built[k], servers[i]);
    SameIdSameServer(universe, built[k], servers[i]);
  }

  /** The weighted share holds for the list the draw actually indexes, kept
      or rebuilt: server `i` fills exactly `Copies(servers[i])` entries. */
  lemma {:induction false} KeptMultiplicity(st: State, universe: seq<Backend>, servers: seq<Backend>, i: nat)
    requires CacheWithin(st, universe) && UniqueIds(universe) && WellFormedIds(universe)
    requires forall b :: b in servers ==> b in universe
    requires UniqueIds(servers) && i < |servers|
    ensures CountId(Refresh(st, servers).list, servers[i].id) == Copies(servers[i])
  {
    if st.key == Some(CacheKey(servers)) {
      var built := CachedEntriesMatch(st, universe, servers);
      BuiltUnique(built, universe, servers);
      var k := BuiltHolds(built, universe, servers, i);
      DrawsPerServer(built, k);
    } else {
      DrawsPerServer(servers, i);
    }
  }

  /** With no negative weights and some server given, the draw succeeds. */
  lemma SelectionSucceeds(st: State, universe: seq<Backend>, servers: seq<Backend>, draw: nat)
    requires CacheWithin(st, universe) && WellFormedIds(universe)
    requires forall b :: b in universe ==> b.weight >= 0
    requires forall b :: b in servers ==> b in universe
    requires |servers| > 0
    requires ValidDraw(draw, |Refresh(st, servers).list|)
    ensures Select(st, Some(servers), draw).result.Ok?
  {
    if st.key == Some(CacheKey(servers)) {
      var built := CachedEntriesMatch(st, universe, servers);
      assert |built| == |Entries(built)| == |multiset(Entries(built))| == |multiset(Entries(servers))| == |servers|;
      ExpandedAtLeastServers(built);
    } else {
      ExpandedAtLeastServers(servers);
    }
  }

  // ---------------------------------------------------------------------------
  // `getWeightStats(servers)` without the rounded percentages.

  datatype WeightEntry = WeightEntry(id: string, weight: int)
  datatype WeightStats = WeightStats(totalWeight: int, servers: seq<WeightEntry>)

  /** `servers.reduce((sum, s) => sum + (s.weight || 1), 0)` */
  function TotalWeight(servers: seq<Backend>): (total: int)
    ensures (forall b :: b in servers ==> b.weight >= 0) ==> total >= |servers|
    decreases |servers|
  {
    if |servers| == 0 then 0
    else TotalWeight(servers[..|servers| - 1]) + EffectiveWeight(servers[|servers| - 1])
  }

  function GetWeightStats(servers: seq<Backend>): (r: WeightStats)
    ensures |r.servers| == |servers|
    ensures forall i :: 0 <= i < |servers| ==>
      r.servers[i] == WeightEntry(servers[i].id, EffectiveWeight(servers[i]))
  {
    WeightStats(TotalWeight(servers),
      seq(|servers|, i requires 0 <= i < |servers| => WeightEntry(servers[i].id, EffectiveWeight(servers[i]))))
  }

  /** With no negative weights the reported total is the length of the
      expanded list, so each server's share is its weight over that length. */
  lemma {:induction false} TotalWeightIsListLength(servers: seq<Backend>)
    requires forall b :: b in servers ==> b.weight >= 0
    ensures GetWeightStats(servers).totalWeight == |Build(servers)|
    decreases |servers|
  {
    if |servers| > 0 {
      assert servers[|servers| - 1] in servers;
      TotalWeightIsListLength(servers[..|servers| - 1]);
    }
  }
}
