/** `RoundRobinStrategy`: a cursor over the healthy list, reset whenever the
    set of server ids changes.

    The change detector compares `ids.sort().join(',')` strings. Sorting the
    stored ids happens in place, so after a call without a reset the stored
    ids are the sorted ones; the model keeps that. */
module RoundRobinStrategy {
  import opened Text
  import opened Strategy

  /** The cursor starts at -1 so that its first increment gives 0. */
  type Cursor = i: int | -1 <= i witness -1

  datatype State = State(index: Cursor, ids: seq<string>)

  /** The state the constructor and `reset()` establish. */
  const Initial: State := State(-1, [])

  /** The string the change detector compares. */
  function Key(ids: seq<string>): string
  {
    Join(Sort(ids), ',')
  }

  /** The cursor advance `(currentIndex + 1) % servers.length`; the dividend
      is never negative, so JavaScript's remainder and Dafny's agree. */
  function Advance(index: Cursor, n: nat): (next: nat)
    requires n > 0
    ensures next < n
    ensures index + 1 < n ==> next == index + 1
    ensures index + 1 == n ==> next == 0
    ensures index + 1 > n ==> next == (index + 1) % n
  {
    (index + 1) % n
  }

  datatype Step = Step(state: State, result: Result<Backend>)

  /** `selectServer(servers)`; `None` stands for `null` or `undefined`. */
  function Select(st: State, servers: Option<seq<Backend>>): (r: Step)
    ensures servers.None? || servers == Some([]) ==>
      r == Step(st, Err(NoServersFor("round-robin")))
    ensures servers.Some? && |servers.value| > 0 ==>
      0 <= r.state.index < |servers.value| &&
      r.result == Ok(servers.value[r.state.index]) &&
      r.result.value in servers.value
    ensures servers.Some? && |servers.value| > 0 && Key(Ids(servers.value)) != Key(st.ids) ==>
      r.state == State(0, Ids(servers.value))
    ensures servers.Some? && |servers.value| > 0 && Key(Ids(servers.value)) == Key(st.ids) ==>
      r.state == State(Advance(st.index, |servers.value|), Sort(st.ids))
  {
    if servers.None? || |servers.value| == 0 then Step(st, Err(NoServersFor("round-robin")))
    else
      var s := servers.value;
      var stored := Sort(st.ids);
      var base := if Key(Ids(s)) != Join(stored, ',') then State(-1, Ids(s)) else st.(ids := stored);
      var index := Advance(base.index, |s|);
      Step(base.(index := index), Ok(s[index]))
  }

  /** `reset()`: whatever the state, back to the constructor's. */
  function Reset(st: State): (r: State)
    ensures r.index == -1 && r.ids == []
    ensures GetCurrentPosition(r) == Position(-1, 0)
  {
    Initial
  }

  datatype Position = Position(index: int, totalServers: nat)

  /** `getCurrentPosition()` */
  function GetCurrentPosition(st: State): (p: Position)
    ensures p.index == st.index && p.totalServers == |st.ids|
  {
    Position(st.index, |st.ids|)
  }

  /** Ids satisfying `WellFormedId` are exactly what the comma join cannot confuse. */
  lemma WellFormedIdsSeparable(ids: seq<string>)
    requires forall id :: id in ids ==> WellFormedId(id)
    ensures Separable(ids, ',')
  {
  }

  lemma IdsOfWellFormed(servers: seq<Backend>)
    requires WellFormedIds(servers)
    ensures forall id :: id in Ids(servers) ==> WellFormedId(id)
  {
    forall id | id in Ids(servers)
      ensures WellFormedId(id)
    {
      var i :| 0 <= i < |servers| && Ids(servers)[i] == id;
      assert servers[i] in servers;
    }
  }

  /** A reordering of the same ids never resets the cursor: the detector only
      sees the multiset of ids. */
  lemma ReorderKeepsKey(a: seq<Backend>, b: seq<Backend>)
    requires multiset(Ids(a)) == multiset(Ids(b))
    ensures Key(Ids(a)) == Key(Ids(b))
  {
    SortByMultiset(Ids(a), Ids(b));
  }

  /** For well-formed ids the detector fires exactly when the multiset of
      ids differs from the stored one. */
  lemma KeyDetectsChange(servers: seq<Backend>, stored: seq<string>)
    requires WellFormedIds(servers)
    requires forall id :: id in stored ==> WellFormedId(id)
    ensures Key(Ids(servers)) != Key(stored) <==> multiset(Ids(servers)) != multiset(stored)
  {
    IdsOfWellFormed(servers);
    SortedJoinIff(Ids(servers), stored, ',');
  }

  /** After any successful call, a call with the same servers does not reset:
      the stored ids then have the key of the servers just seen. */
  lemma {:induction false} SelectStabilises(st: State, s: seq<Backend>)
    requires |s| > 0
    ensures Key(Select(st, Some(s)).state.ids) == Key(Ids(s))
  {
    if Key(Ids(s)) == Key(st.ids) {
      SortIdempotent(st.ids);
    }
  }

  /** `reset()` restores the constructor's state, and the next call returns
      the first server whatever the detector decides. */
  lemma ResetThenSelect(st: State, s: seq<Backend>)
    requires |s| > 0
    ensures Reset(st) == Initial
    ensures Select(Reset(st), Some(s)).state.index == 0
    ensures Select(Reset(st), Some(s)).result == Ok(s[0])
    ensures WellFormedIds(s) ==> Select(Reset(st), Some(s)).state == State(0, Ids(s))
  {
    if WellFormedIds(s) {
      KeyDetectsChange(s, []);
      assert s[0].id in Ids(s);
      assert multiset(Ids(s)) != multiset([]);
    }
  }

  /** `getCurrentPosition()` after a call on well-formed ids reports the
      returned position and the number of servers given. */
  lemma {:induction false} PositionAfterSelect(st: State, s: seq<Backend>)
    requires |s| > 0
    requires WellFormedIds(s)
    requires forall id :: id in st.ids ==> WellFormedId(id)
    ensures GetCurrentPosition(Select(st, Some(s)).state).totalServers == |s|
    ensures 0 <= GetCurrentPosition(Select(st, Some(s)).state).index < |s|
  {
    KeyDetectsChange(s, st.ids);
    if Key(Ids(s)) == Key(st.ids) {
      assert |multiset(Ids(s))| == |multiset(st.ids)|;
      assert |multiset(Sort(st.ids))| == |multiset(st.ids)|;
    }
  }

  // ---------------------------------------------------------------------------
  // Cycles over a stable set.

  /** The positions returned by `k` consecutive calls with the same servers. */
  function Run(st: State, s: seq<Backend>, k: nat): (positions: seq<int>)
    requires |s| > 0
    ensures |positions| == k
    decreases k
  {
    if k == 0 then []
    else
      var r := Select(st, Some(s));
      [r.state.index] + Run(r.state, s, k - 1)
  }

  /** `x mod n` for `0 <= x < 2n`, without division. */
  function Wrap(x: int, n: int): int
  {
    if x < n then x else x - n
  }

  /** The position `j` calls after cursor `c`, for `j < n`. */
  function Rotated(c: int, j: int, n: int): int
  {
    Wrap(c + 1 + j, n)
  }

  lemma AdvanceSmall(index: Cursor, n: nat)
    requires n > 0 && index < n
    ensures Advance(index, n) == Wrap(index + 1, n)
  {
    if index + 1 < n {
      assert (index + 1) % n == index + 1;
    } else {
      assert index + 1 == n;
      assert n % n == 0;
    }
  }

  /** One call over a stable set moves the cursor one step and keeps it stable. */
  lemma {:induction false} StableStep(st: State, s: seq<Backend>)
    requires |s| > 0 && st.index < |s|
    requires Key(st.ids) == Key(Ids(s))
    ensures Select(st, Some(s)).state.index == Wrap(st.index + 1, |s|)
    ensures Key(Select(st, Some(s)).state.ids) == Key(Ids(s))
  {
    AdvanceSmall(st.index, |s|);
    SelectStabilises(st, s);
  }

  /** The calls after the first are the run from the state it leaves. */
  lemma RunTail(st: State, s: seq<Backend>, k: nat)
    requires |s| > 0 && 0 < k
    ensures Run(st, s, k)[0] == Select(st, Some(s)).state.index
    ensures forall j :: 0 < j < k ==> Run(st, s, k)[j] == Run(Select(st, Some(s)).state, s, k - 1)[j - 1]
  {
  }

  /** Rotating from the next cursor is rotating one step further. */
  lemma RotatedShift(c: int, j: int, n: int)
    requires -1 <= c < n && 0 < j < n
    ensures Rotated(Wrap(c + 1, n), j - 1, n) == Rotated(c, j, n)
  {
  }

  /** Over a stable set, the j-th call returns position `index + 1 + j`, wrapped. */
  lemma {:induction false} RunRotates(st: State, s: seq<Backend>, k: nat)
    requires |s| > 0 && st.index < |s| && k <= |s|
    requires Key(st.ids) == Key(Ids(s))
    ensures forall j :: 0 <= j < k ==> Run(st, s, k)[j] == Rotated(st.index, j, |s|)
    decreases k
  {
    if k > 0 {
      var next := Select(st, Some(s)).state;
      var n := |s|;
      StableStep(st, s);
      RunTail(st, s, k);
      var run, rest := Run(st, s, k), Run(next, s, k - 1);
      if k > 1 {
        RunRotates(next, s, k - 1);
      }
      forall j | 0 < j < k
        ensures run[j] == Rotated(st.index, j, n)
      {
        assert run[j] == rest[j - 1];
        RotatedShift(st.index, j, n);
      }
    }
  }

  /** Wrapping `c + 1 + j` for `j` in `[0, n)` hits every position once. */
  lemma WrapIsBijective(c: int, n: int)
    requires -1 <= c < n
    ensures forall p :: 0 <= p < n ==> 0 <= Unrotate(c, p, n) < n && Rotated(c, Unrotate(c, p, n), n) == p
    ensures forall i, j :: 0 <= i < j < n ==> Rotated(c, i, n) != Rotated(c, j, n)
  {
  }

  /** How many calls after cursor `c` position `p` comes up. */
  function Unrotate(c: int, p: int, n: int): int
  {
    if p >= c + 1 then p - c - 1 else p + n - c - 1
  }

  /** With a stable set of `n` servers, `n` consecutive calls return every
      position exactly once, starting just after the stored cursor. */
  lemma {:induction false} VisitsEachOnce(st: State, s: seq<Backend>)
    requires |s| > 0 && st.index < |s|
    requires Key(st.ids) == Key(Ids(s))
    ensures Run(st, s, |s|)[0] == Advance(st.index, |s|)
    ensures forall p :: 0 <= p < |s| ==> p in Run(st, s, |s|)
    ensures forall i, j :: 0 <= i < j < |s| ==> Run(st, s, |s|)[i] != Run(st, s, |s|)[j]
  {
    var n := |s|;
    var run := Run(st, s, n);
    RunRotates(st, s, n);
    AdvanceSmall(st.index, n);
    WrapIsBijective(st.index, n);
    forall p | 0 <= p < n
      ensures p in run
    {
      var j := Unrotate(st.index, p, n);
      assert run[j] == p;
    }
  }

  /** After one call, the next `n` calls with the same servers form a full cycle. */
  lemma {:induction false} CycleAfterSelect(st: State, s: seq<Backend>)
    requires |s| > 0
    ensures forall p :: 0 <= p < |s| ==> p in Run(Select(st, Some(s)).state, s, |s|)
    ensures forall i, j :: 0 <= i < j < |s| ==>
      Run(Select(st, Some(s)).state, s, |s|)[i] != Run(Select(st, Some(s)).state, s, |s|)[j]
  {
    SelectStabilises(st, s);
    VisitsEachOnce(Select(st, Some(s)).state, s);
  }
}
