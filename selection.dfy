/**
 * Contract selection over one chain snapshot: keep the farthest expiry,
 * split calls from puts and by moneyness, and order contracts by their
 * distance |spot - strike| with a stable sort, as Python's `sorted(...,
 * key=...)` does. The at-the-money contract is the head of that order; a
 * "tier" is an index into it.
 */
module Selection {
  import opened Types

  /** The elements of `s` that satisfy `keep`, in their original order. */
  function Filter<T(!new)>(s: seq<T>, keep: T -> bool): (r: seq<T>)
    ensures |r| <= |s|
    ensures forall x :: x in r <==> x in s && keep(x)
  {
    if s == [] then []
    else
      assert s == [s[0]] + s[1..];
      (if keep(s[0]) then [s[0]] else []) + Filter(s[1..], keep)
  }

  /** The latest expiry in a non-empty chain (`max` of the expiries). */
  function MaxExpiry(chain: seq<Contract>): (e: Day)
    requires chain != []
    ensures exists i :: 0 <= i < |chain| && chain[i].expiry == e
    ensures forall c :: c in chain ==> c.expiry <= e
  {
    if |chain| == 1 then chain[0].expiry
    else
      var rest := MaxExpiry(chain[1..]);
      assert forall c :: c in chain ==> c == chain[0] || c in chain[1..];
      if chain[0].expiry >= rest then chain[0].expiry
      else
        var i :| 0 <= i < |chain[1..]| && chain[1..][i].expiry == rest;
        assert chain[i + 1].expiry == rest;
        rest
  }

  /** Contracts expiring on day `e`. */
  function ExpiresOn(e: Day): Contract -> bool {
    (c: Contract) => c.expiry == e
  }

  /** Each element is kept as often as the list holds it, or not at all. */
  lemma {:induction false} FilterCount<T(!new)>(s: seq<T>, keep: T -> bool)
    ensures forall x :: multiset(Filter(s, keep))[x] == if keep(x) then multiset(s)[x] else 0
  {
    if s != [] {
      FilterCount(s[1..], keep);
      assert s == [s[0]] + s[1..];
    }
  }

  /** The contracts of the chain that have its farthest expiry, each as
      often as the chain lists it. */
  function FrontMonth(chain: seq<Contract>): (r: seq<Contract>)
    requires chain != []
    ensures r != []
    ensures forall c, d :: c in r && d in chain ==> d.expiry <= c.expiry
    ensures forall c :: c in r <==> c in chain && c.expiry == MaxExpiry(chain)
    ensures forall c :: multiset(r)[c] == if c.expiry == MaxExpiry(chain) then multiset(chain)[c] else 0
  {
    var far := MaxExpiry(chain);
    var r := Filter(chain, ExpiresOn(far));
    FilterCount(chain, ExpiresOn(far));
    var i :| 0 <= i < |chain| && chain[i].expiry == far;
    assert chain[i] in r;
    r
  }

  /** The contracts of one right (`x.Right == 0` for calls, `== 1` for puts). */
  function OfRight(cs: seq<Contract>, right: Right): (r: seq<Contract>)
    ensures forall c :: c in r <==> c in cs && c.right == right
    ensures forall c :: multiset(r)[c] == if c.right == right then multiset(cs)[c] else 0
  {
    FilterCount(cs, (c: Contract) => c.right == right);
    Filter(cs, (c: Contract) => c.right == right)
  }

  /** The strike lies above the spot: an out-of-the-money call. */
  predicate StrikeAboveSpot(c: Contract) {
    c.underlyingLastPrice - c.strike < 0.0
  }

  /** The strike lies below the spot: an in-the-money call, an out-of-the-money put. */
  predicate StrikeBelowSpot(c: Contract) {
    c.underlyingLastPrice - c.strike > 0.0
  }

  /** `[x for x in calls if x.UnderlyingLastPrice - x.Strike < 0]`. */
  function OtmCalls(calls: seq<Contract>): (r: seq<Contract>)
    ensures forall c :: c in r <==> c in calls && c.strike > c.underlyingLastPrice
    ensures forall c :: multiset(r)[c] == if c.strike > c.underlyingLastPrice then multiset(calls)[c] else 0
  {
    FilterCount(calls, StrikeAboveSpot);
    Filter(calls, StrikeAboveSpot)
  }

  /** `[x for x in calls if x.UnderlyingLastPrice - x.Strike > 0]`. */
  function ItmCalls(calls: seq<Contract>): (r: seq<Contract>)
    ensures forall c :: c in r <==> c in calls && c.strike < c.underlyingLastPrice
    ensures forall c :: multiset(r)[c] == if c.strike < c.underlyingLastPrice then multiset(calls)[c] else 0
  {
    FilterCount(calls, StrikeBelowSpot);
    Filter(calls, StrikeBelowSpot)
  }

  /** `[x for x in puts if x.UnderlyingLastPrice - x.Strike > 0]`. */
  function OtmPuts(puts: seq<Contract>): (r: seq<Contract>)
    ensures forall c :: c in r <==> c in puts && c.strike < c.underlyingLastPrice
    ensures forall c :: multiset(r)[c] == if c.strike < c.underlyingLastPrice then multiset(puts)[c] else 0
  {
    FilterCount(puts, StrikeBelowSpot);
    Filter(puts, StrikeBelowSpot)
  }

  /** The sort key of the source: |UnderlyingLastPrice - Strike|. */
  function Distance(c: Contract): real {
    var d := c.underlyingLastPrice - c.strike;
    if d < 0.0 then -d else d
  }

  /** Contracts at exactly distance `d` from the spot. */
  function AtDistance(d: real): Contract -> bool {
    (c: Contract) => Distance(c) == d
  }

  ghost predicate SortedByDistance(s: seq<Contract>) {
    forall i, j :: 0 <= i < j < |s| ==> Distance(s[i]) <= Distance(s[j])
  }

  /** Puts `c` before the first element no nearer than it, so that it
      precedes every element of equal distance. */
  function Insert(c: Contract, s: seq<Contract>): (r: seq<Contract>)
    ensures |r| == |s| + 1
    ensures multiset(r) == multiset(s) + multiset{c}
  {
    if s == [] then [c]
    else if Distance(c) <= Distance(s[0]) then [c] + s
    else
      assert s == [s[0]] + s[1..];
      [s[0]] + Insert(c, s[1..])
  }

  lemma {:induction false} InsertSorted(c: Contract, s: seq<Contract>)
    requires SortedByDistance(s)
    ensures SortedByDistance(Insert(c, s))
  {
    if s != [] && Distance(c) > Distance(s[0]) {
      var rest := Insert(c, s[1..]);
      InsertSorted(c, s[1..]);
      InsertBelow(c, s[1..], Distance(s[0]));
      assert Insert(c, s) == [s[0]] + rest;
    }
  }

  /** Every element of Insert(c, s) is c or an element of s. */
  lemma {:induction false} InsertBelow(c: Contract, s: seq<Contract>, d: real)
    requires d <= Distance(c)
    requires forall x :: x in s ==> d <= Distance(x)
    ensures forall x :: x in Insert(c, s) ==> d <= Distance(x)
  {
    if s != [] && Distance(c) > Distance(s[0]) {
      InsertBelow(c, s[1..], d);
    }
  }

  /** Python's stable `sorted(cs, key = Distance)`, as an insertion sort. */
  function SortByDistance(s: seq<Contract>): (r: seq<Contract>)
    ensures |r| == |s|
    ensures multiset(r) == multiset(s)
    ensures SortedByDistance(r)
  {
    if s == [] then []
    else
      assert s == [s[0]] + s[1..];
      InsertSorted(s[0], SortByDistance(s[1..]));
      Insert(s[0], SortByDistance(s[1..]))
  }

  /** `sorted(cs, key = ...)[0]`: the at-the-money contract. */
  function Atm(cs: seq<Contract>): (r: Contract)
    requires cs != []
    ensures r in cs
    ensures forall c :: c in cs ==> Distance(r) <= Distance(c)
  {
    var s := SortByDistance(cs);
    assert s[0] in multiset(cs);
    assert forall c :: c in cs ==> c in multiset(s);
    s[0]
  }

  /** Contracts strictly nearer the spot than `d`. */
  function Nearer(d: real): Contract -> bool {
    (c: Contract) => Distance(c) < d
  }

  /** Contracts no farther from the spot than `d`. */
  function NoFarther(d: real): Contract -> bool {
    (c: Contract) => Distance(c) <= d
  }

  /** `sorted(cs, key = ...)[k]`, or None when the list holds fewer than
      k + 1 contracts (the source's `len(...) < tier + 1` guard). The pick
      is the k-th nearest contract: at most k contracts lie strictly
      nearer, and more than k lie no farther. */
  function TierPick(cs: seq<Contract>, k: nat): (r: Option<Contract>)
    ensures r.Some? <==> k < |cs|
    ensures r.Some? ==> r.value in cs && Distance(Atm(cs)) <= Distance(r.value)
    ensures r.Some? ==>
      |Filter(cs, Nearer(Distance(r.value)))| <= k < |Filter(cs, NoFarther(Distance(r.value)))|
  {
    if |cs| < k + 1 then None
    else
      var s := SortByDistance(cs);
      assert s[k] in multiset(cs);
      OrderStatistic(s, k);
      FilterPermutation(s, cs, Nearer(Distance(s[k])));
      FilterPermutation(s, cs, NoFarther(Distance(s[k])));
      Some(s[k])
  }

  /** Filtering lists with the same elements keeps the same number. */
  lemma FilterPermutation<T(!new)>(a: seq<T>, b: seq<T>, keep: T -> bool)
    requires multiset(a) == multiset(b)
    ensures |Filter(a, keep)| == |Filter(b, keep)|
  {
    var fa, fb := Filter(a, keep), Filter(b, keep);
    FilterCount(a, keep);
    FilterCount(b, keep);
    forall x
      ensures multiset(fa)[x] == multiset(fb)[x]
    {
    }
    assert multiset(fa) == multiset(fb);
    assert |fa| == |multiset(fa)| == |multiset(fb)| == |fb|;
  }

  /** Filtering distributes over concatenation: the filters keep order. */
  lemma {:induction false} FilterAppend<T(!new)>(a: seq<T>, b: seq<T>, keep: T -> bool)
    ensures Filter(a + b, keep) == Filter(a, keep) + Filter(b, keep)
  {
    if a == [] {
      assert a + b == b;
    } else {
      assert (a + b)[0] == a[0] && (a + b)[1..] == a[1..] + b;
      FilterAppend(a[1..], b, keep);
    }
  }

  /** A filter every element passes keeps all of them; one no element
      passes keeps none. */
  lemma FilterAllOrNone<T(!new)>(s: seq<T>, keep: T -> bool)
    ensures (forall x :: x in s ==> keep(x)) ==> |Filter(s, keep)| == |s|
    ensures (forall x :: x in s ==> !keep(x)) ==> |Filter(s, keep)| == 0
  {
    var f := Filter(s, keep);
    if forall x :: x in s ==> keep(x) {
      FilterCount(s, keep);
      forall x
        ensures multiset(f)[x] == multiset(s)[x]
      {
      }
      assert multiset(f) == multiset(s);
      assert |f| == |multiset(f)| == |multiset(s)| == |s|;
    }
    if forall x :: x in s ==> !keep(x) {
      if f != [] {
        assert f[0] in f;
      }
    }
  }

  /** In a list sorted by distance, position k holds the k-th nearest
      contract. */
  lemma OrderStatistic(s: seq<Contract>, k: nat)
    requires SortedByDistance(s) && k < |s|
    ensures |Filter(s, Nearer(Distance(s[k])))| <= k < |Filter(s, NoFarther(Distance(s[k])))|
  {
    FewerNearer(s, k);
    MoreNoFarther(s, k);
  }

  lemma FewerNearer(s: seq<Contract>, k: nat)
    requires SortedByDistance(s) && k < |s|
    ensures |Filter(s, Nearer(Distance(s[k])))| <= k
  {
    var p := Nearer(Distance(s[k]));
    var tail := s[k..];
    assert s == s[..k] + tail;
    FilterAppend(s[..k], tail, p);
    forall x | x in tail
      ensures !p(x)
    {
      var i :| 0 <= i < |tail| && tail[i] == x;
      assert x == s[k + i];
    }
    FilterAllOrNone(tail, p);
  }

  lemma MoreNoFarther(s: seq<Contract>, k: nat)
    requires SortedByDistance(s) && k < |s|
    ensures k < |Filter(s, NoFarther(Distance(s[k])))|
  {
    var p := NoFarther(Distance(s[k]));
    var head := s[..k + 1];
    assert s == head + s[k + 1..];
    FilterAppend(head, s[k + 1..], p);
    forall x | x in head
      ensures p(x)
    {
      var i :| 0 <= i < k + 1 && head[i] == x;
      assert x == s[i];
    }
    FilterAllOrNone(head, p);
  }

  /** The selections keep the chain's order: on a chain in two parts,
      what they keep from the first part comes first. */
  lemma SelectionsKeepOrder(a: seq<Contract>, b: seq<Contract>)
    requires a + b != []
    ensures var far := MaxExpiry(a + b);
      FrontMonth(a + b) == Filter(a, ExpiresOn(far)) + Filter(b, ExpiresOn(far))
    ensures OfRight(a + b, Call) == OfRight(a, Call) + OfRight(b, Call)
    ensures OfRight(a + b, Put) == OfRight(a, Put) + OfRight(b, Put)
    ensures OtmCalls(a + b) == OtmCalls(a) + OtmCalls(b)
    ensures ItmCalls(a + b) == ItmCalls(a) + ItmCalls(b)
    ensures OtmPuts(a + b) == OtmPuts(a) + OtmPuts(b)
  {
    FilterAppend(a, b, ExpiresOn(MaxExpiry(a + b)));
    FilterAppend(a, b, (c: Contract) => c.right == Call);
    FilterAppend(a, b, (c: Contract) => c.right == Put);
    FilterAppend(a, b, StrikeAboveSpot);
    FilterAppend(a, b, StrikeBelowSpot);
  }

  /** Reference definition of the at-the-money pick: a left-to-right scan
      that keeps the first contract of least distance. */
  function NearestIndex(cs: seq<Contract>): (i: nat)
    requires cs != []
    ensures i < |cs|
    ensures forall j :: 0 <= j < |cs| ==> Distance(cs[i]) <= Distance(cs[j])
    ensures forall j :: 0 <= j < i ==> Distance(cs[j]) > Distance(cs[i])
  {
    if |cs| == 1 then 0
    else
      var k := NearestIndex(cs[1..]) + 1;
      assert forall j :: 1 <= j < |cs| ==> cs[j] == cs[1..][j - 1];
      if Distance(cs[0]) <= Distance(cs[k]) then 0 else k
  }

  /** The head of the stable sort is the first contract of least distance:
      ties go to the contract that comes first in the chain. */
  lemma {:induction false} AtmIsFirstNearest(cs: seq<Contract>)
    requires cs != []
    ensures Atm(cs) == cs[NearestIndex(cs)]
  {
    if |cs| > 1 {
      AtmIsFirstNearest(cs[1..]);
      var t := SortByDistance(cs[1..]);
      assert t[0] == Atm(cs[1..]);
      assert SortByDistance(cs) == Insert(cs[0], t);
      assert cs[1..][NearestIndex(cs[1..])] == cs[NearestIndex(cs[1..]) + 1];
    }
  }

  /** Filtering a list with a known head. */
  lemma FilterCons<T(!new)>(x: T, s: seq<T>, keep: T -> bool)
    ensures Filter([x] + s, keep) == (if keep(x) then [x] else []) + Filter(s, keep)
  {
    assert ([x] + s)[1..] == s;
  }

  lemma {:induction false} InsertStable(c: Contract, t: seq<Contract>, d: real)
    ensures Filter(Insert(c, t), AtDistance(d))
         == (if Distance(c) == d then [c] else []) + Filter(t, AtDistance(d))
  {
    var p := AtDistance(d);
    if t == [] {
    } else if Distance(c) <= Distance(t[0]) {
      FilterCons(c, t, p);
    } else {
      var rest := Insert(c, t[1..]);
      assert Insert(c, t) == [t[0]] + rest;
      InsertStable(c, t[1..], d);
      FilterCons(t[0], rest, p);
      FilterCons(t[0], t[1..], p);
      assert [t[0]] + t[1..] == t;
      var head := if p(t[0]) then [t[0]] else [];
      var mid := if Distance(c) == d then [c] else [];
      SwapPrefixes(head, mid, Filter(t[1..], p));
    }
  }

  /** Two prefixes of which one is empty commute. */
  lemma SwapPrefixes<T>(x: seq<T>, y: seq<T>, s: seq<T>)
    requires x == [] || y == []
    ensures x + (y + s) == y + (x + s)
  {
    if x == [] {
      assert x + (y + s) == y + s == y + (x + s);
    } else {
      assert x + (y + s) == x + s == y + (x + s);
    }
  }

  /** The sort is stable: for every distance, the contracts at that
      distance keep their relative order. */
  lemma {:induction false} SortStable(s: seq<Contract>, d: real)
    ensures Filter(SortByDistance(s), AtDistance(d)) == Filter(s, AtDistance(d))
  {
    if s != [] {
      SortStable(s[1..], d);
      InsertStable(s[0], SortByDistance(s[1..]), d);
    }
  }

  /** Sorting a list that is already in distance order changes nothing,
      so selecting again from a sorted list picks the same contracts. */
  lemma {:induction false} SortIdempotent(s: seq<Contract>)
    ensures SortByDistance(SortByDistance(s)) == SortByDistance(s)
  {
    SortedIsFixpoint(SortByDistance(s));
  }

  lemma {:induction false} SortedIsFixpoint(s: seq<Contract>)
    requires SortedByDistance(s)
    ensures SortByDistance(s) == s
  {
    if s != [] {
      SortedIsFixpoint(s[1..]);
      assert s == [s[0]] + s[1..];
    }
  }
}
