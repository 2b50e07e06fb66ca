/** The JavaScript string built-ins the balancer leans on, restated over
    `string` (= `seq<char>`): `Array.prototype.join`, the default
    `Array.prototype.sort` order on strings, and `Number.prototype.toString`
    on integers. `Split` on a one-character separator is not a built-in the
    balancer calls; it is here only as the inverse of `Join` that the proofs
    use.

    The selection strategies detect membership changes by comparing joined,
    sorted strings; the lemmas here say when that comparison is as good as
    comparing the underlying collections. */
module Text {

  /** `parts.join(sep)` */
  function Join(parts: seq<string>, sep: char): string
  {
    if |parts| == 0 then ""
    else if |parts| == 1 then parts[0]
    else parts[0] + [sep] + Join(parts[1..], sep)
  }

  /** `s.split(sep)`: the pieces between separators; never empty. */
  function Split(s: string, sep: char): (parts: seq<string>)
    ensures |parts| >= 1
    decreases |s|
  {
    if |s| == 0 then [""]
    else
      var rest := Split(s[1..], sep);
      if s[0] == sep then [""] + rest
      else [[s[0]] + rest[0]] + rest[1..]
  }

  /** Every part is non-empty and free of the separator, so joining loses nothing. */
  predicate Separable(parts: seq<string>, sep: char)
  {
    forall p :: p in parts ==> p != "" && sep !in p
  }

  lemma {:induction false} SplitSepFree(x: string, sep: char)
    requires sep !in x
    ensures Split(x, sep) == [x]
    decreases |x|
  {
    if |x| > 0 {
      SplitSepFree(x[1..], sep);
      assert [x[0]] + x[1..] == x;
    }
  }

  lemma {:induction false} SplitAtFirst(x: string, rest: string, sep: char)
    requires sep !in x
    ensures Split(x + [sep] + rest, sep) == [x] + Split(rest, sep)
    decreases |x|
  {
    if |x| == 0 {
      assert x + [sep] + rest == [sep] + rest;
      assert ([sep] + rest)[1..] == rest;
    } else {
      SplitAtFirst(x[1..], rest, sep);
      assert (x + [sep] + rest)[1..] == x[1..] + [sep] + rest;
      assert [x[0]] + x[1..] == x;
    }
  }

  /** Splitting undoes joining when no part holds the separator. */
  lemma {:induction false} SplitJoin(parts: seq<string>, sep: char)
    requires |parts| >= 1
    requires forall p :: p in parts ==> sep !in p
    ensures Split(Join(parts, sep), sep) == parts
    decreases |parts|
  {
    if |parts| == 1 {
      SplitSepFree(parts[0], sep);
    } else {
      SplitAtFirst(parts[0], Join(parts[1..], sep), sep);
      SplitJoin(parts[1..], sep);
      assert [parts[0]] + parts[1..] == parts;
    }
  }

  lemma {:induction false} JoinCoversParts(parts: seq<string>, sep: char)
    requires Separable(parts, sep)
    ensures |Join(parts, sep)| >= |parts|
    decreases |parts|
  {
    if |parts| == 1 {
      assert parts[0] in parts;
    } else if |parts| > 1 {
      assert parts[0] in parts;
      assert forall p :: p in parts[1..] ==> p in parts;
      JoinCoversParts(parts[1..], sep);
    }
  }

  /** Two separable lists join to the same string only if they are equal. */
  lemma JoinInjective(xs: seq<string>, ys: seq<string>, sep: char)
    requires Separable(xs, sep) && Separable(ys, sep)
    requires Join(xs, sep) == Join(ys, sep)
    ensures xs == ys
  {
    JoinCoversParts(xs, sep);
    JoinCoversParts(ys, sep);
    if |xs| == 0 || |ys| == 0 {
      assert |Join(xs, sep)| == 0;
    } else {
      SplitJoin(xs, sep);
      SplitJoin(ys, sep);
    }
  }

  // ---------------------------------------------------------------------------
  // The default sort order: lexicographic on characters.

  predicate LexLe(a: string, b: string)
    decreases |a|
  {
    |a| == 0 || (|b| > 0 && (a[0] < b[0] || (a[0] == b[0] && LexLe(a[1..], b[1..]))))
  }

  lemma {:induction false} LexLeRefl(a: string)
    ensures LexLe(a, a)
    decreases |a|
  {
    if |a| > 0 {
      LexLeRefl(a[1..]);
    }
  }

  lemma {:induction false} LexLeTotal(a: string, b: string)
    ensures LexLe(a, b) || LexLe(b, a)
    decreases |a|
  {
    if |a| > 0 && |b| > 0 && a[0] == b[0] {
      LexLeTotal(a[1..], b[1..]);
    }
  }

  lemma {:induction false} LexLeAntisym(a: string, b: string)
    requires LexLe(a, b) && LexLe(b, a)
    ensures a == b
    decreases |a|
  {
    if |a| > 0 && |b| > 0 {
      LexLeAntisym(a[1..], b[1..]);
      assert a == [a[0]] + a[1..];
      assert b == [b[0]] + b[1..];
    }
  }

  lemma {:induction false} LexLeTrans(a: string, b: string, c: string)
    requires LexLe(a, b) && LexLe(b, c)
    ensures LexLe(a, c)
    decreases |a|
  {
    if |a| > 0 && a[0] == b[0] && b[0] == c[0] {
      LexLeTrans(a[1..], b[1..], c[1..]);
    }
  }

  predicate Sorted(s: seq<string>)
  {
    forall i, j :: 0 <= i < j < |s| ==> LexLe(s[i], s[j])
  }

  function Insert(x: string, s: seq<string>): seq<string>
    decreases |s|
  {
    if |s| == 0 then [x]
    else if LexLe(x, s[0]) then [x] + s
    else [s[0]] + Insert(x, s[1..])
  }

  lemma {:induction false} InsertMultiset(x: string, s: seq<string>)
    ensures multiset(Insert(x, s)) == multiset(s) + multiset{x}
    decreases |s|
  {
    if |s| > 0 {
      assert s == [s[0]] + s[1..];
      InsertMultiset(x, s[1..]);
    }
  }

  /** A sorted list stays sorted when a lower bound of all of it goes in front. */
  lemma SortedCons(h: string, tail: seq<string>)
    requires Sorted(tail)
    requires forall j :: 0 <= j < |tail| ==> LexLe(h, tail[j])
    ensures Sorted([h] + tail)
  {
    var r := [h] + tail;
    forall i, j | 0 <= i < j < |r|
      ensures LexLe(r[i], r[j])
    {
      if i > 0 {
        assert r[i] == tail[i - 1] && r[j] == tail[j - 1];
      }
    }
  }

  /** A lower bound of a list and of `x` bounds the list with `x` inserted. */
  lemma InsertBounded(h: string, x: string, s: seq<string>)
    requires LexLe(h, x)
    requires forall j :: 0 <= j < |s| ==> LexLe(h, s[j])
    ensures forall j :: 0 <= j < |Insert(x, s)| ==> LexLe(h, Insert(x, s)[j])
  {
    var r := Insert(x, s);
    InsertMultiset(x, s);
    forall j | 0 <= j < |r|
      ensures LexLe(h, r[j])
    {
      assert r[j] in multiset(r);
      if r[j] != x {
        assert r[j] in multiset(s);
        var k :| 0 <= k < |s| && s[k] == r[j];
      }
    }
  }

  lemma {:induction false} InsertSorted(x: string, s: seq<string>)
    requires Sorted(s)
    ensures Sorted(Insert(x, s))
    ensures multiset(Insert(x, s)) == multiset(s) + multiset{x}
    decreases |s|
  {
    InsertMultiset(x, s);
    if |s| == 0 {
    } else if LexLe(x, s[0]) {
      forall j | 0 <= j < |s|
        ensures LexLe(x, s[j])
      {
        if j > 0 {
          LexLeTrans(x, s[0], s[j]);
        }
      }
      SortedCons(x, s);
    } else {
      var tail := s[1..];
      InsertSorted(x, tail);
      LexLeTotal(x, s[0]);
      assert forall j :: 0 <= j < |tail| ==> LexLe(s[0], tail[j]) by {
        forall j | 0 <= j < |tail|
          ensures LexLe(s[0], tail[j])
        {
          assert tail[j] == s[j + 1];
        }
      }
      InsertBounded(s[0], x, tail);
      SortedCons(s[0], Insert(x, tail));
    }
  }

  /** `ids.sort()` on strings: insertion sort under the lexicographic order. */
  function Sort(s: seq<string>): (r: seq<string>)
    ensures Sorted(r)
    ensures multiset(r) == multiset(s)
    decreases |s|
  {
    if |s| == 0 then []
    else
      var rest := Sort(s[1..]);
      InsertSorted(s[0], rest);
      assert s == [s[0]] + s[1..];
      Insert(s[0], rest)
  }

  /** A sorted arrangement of a multiset is unique. */
  lemma {:induction false} SortedUnique(a: seq<string>, b: seq<string>)
    requires Sorted(a) && Sorted(b)
    requires multiset(a) == multiset(b)
    ensures a == b
    decreases |a|
  {
    assert |a| == |multiset(a)| == |multiset(b)| == |b|;
    if |a| > 0 {
      assert a[0] in multiset(b);
      var j :| 0 <= j < |b| && b[j] == a[0];
      assert b[0] in multiset(a);
      var i :| 0 <= i < |a| && a[i] == b[0];
      LexLeRefl(a[0]);
      LexLeRefl(b[0]);
      assert LexLe(b[0], a[0]);
      assert LexLe(a[0], b[0]);
      LexLeAntisym(a[0], b[0]);
      assert a == [a[0]] + a[1..];
      assert b == [b[0]] + b[1..];
      assert multiset(a) == multiset{a[0]} + multiset(a[1..]);
      assert multiset(b) == multiset{b[0]} + multiset(b[1..]);
      assert multiset(a[1..]) == multiset(a) - multiset{a[0]};
      assert multiset(b[1..]) == multiset(b) - multiset{b[0]};
      SortedUnique(a[1..], b[1..]);
    }
  }

  /** Sorting depends only on the multiset of its input. */
  lemma {:induction false} SortByMultiset(a: seq<string>, b: seq<string>)
    requires multiset(a) == multiset(b)
    ensures Sort(a) == Sort(b)
  {
    SortedUnique(Sort(a), Sort(b));
  }

  /** Sorting a sorted list changes nothing. */
  lemma SortIdempotent(s: seq<string>)
    ensures Sort(Sort(s)) == Sort(s)
  {
    SortedUnique(Sort(Sort(s)), Sort(s));
  }

  lemma SortKeepsSeparable(s: seq<string>, sep: char)
    requires Separable(s, sep)
    ensures Separable(Sort(s), sep)
  {
    forall p | p in Sort(s)
      ensures p != "" && sep !in p
    {
      assert p in multiset(Sort(s));
      assert p in multiset(s);
      assert p in s;
    }
  }

  /** The joined, sorted form of two separable lists agrees exactly when the
      lists hold the same strings with the same multiplicities. */
  lemma SortedJoinIff(a: seq<string>, b: seq<string>, sep: char)
    requires Separable(a, sep) && Separable(b, sep)
    ensures Join(Sort(a), sep) == Join(Sort(b), sep) <==> multiset(a) == multiset(b)
  {
    if Join(Sort(a), sep) == Join(Sort(b), sep) {
      SortKeepsSeparable(a, sep);
      SortKeepsSeparable(b, sep);
      JoinInjective(Sort(a), Sort(b), sep);
    }
    if multiset(a) == multiset(b) {
      SortByMultiset(a, b);
    }
  }

  // ---------------------------------------------------------------------------
  // Number-to-string for integers.

  function DigitChar(d: nat): (c: char)
    requires d < 10
    ensures '0' <= c <= '9'
  {
    (48 + d) as char
  }

  function NatToString(n: nat): (s: string)
    ensures s != ""
    ensures forall c :: c in s ==> '0' <= c <= '9'
    decreases n
  {
    if n < 10 then [DigitChar(n)]
    else NatToString(n / 10) + [DigitChar(n % 10)]
  }

  /** `String(i)` for an integer: optional minus sign, then decimal digits. */
  function IntToString(i: int): (s: string)
    ensures s != ""
    ensures forall c :: c in s ==> c == '-' || '0' <= c <= '9'
  {
    if i < 0 then "-" + NatToString(-i) else NatToString(i)
  }

  /** The number a string of decimal digits denotes. */
  function DigitsValue(s: string): nat
    requires forall c :: c in s ==> '0' <= c <= '9'
    decreases |s|
  {
    if |s| == 0 then 0
    else
      var init, last := s[..|s| - 1], s[|s| - 1];
      assert last in s;
      assert forall c :: c in init ==> c in s;
      DigitsValue(init) * 10 + ((last as int) - 48)
  }

  /** Reading the decimal digits back gives the number written. */
  lemma {:induction false} NatToStringRoundTrip(n: nat)
    ensures DigitsValue(NatToString(n)) == n
    decreases n
  {
    if n >= 10 {
      NatToStringRoundTrip(n / 10);
      var s := NatToString(n);
      assert s[..|s| - 1] == NatToString(n / 10);
    }
  }

  /** Distinct numbers are written differently. */
  lemma NatToStringInjective(m: nat, n: nat)
    requires NatToString(m) == NatToString(n)
    ensures m == n
  {
    NatToStringRoundTrip(m);
    NatToStringRoundTrip(n);
  }
}
