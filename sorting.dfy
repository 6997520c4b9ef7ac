/** Re-ordering a list of offers in place: the comparators the dashboard hands
    to `Array.prototype.sort` (by price, by the leading hour count of the
    duration, by airline name) and an in-place sort that is proved to leave the
    array ordered and a permutation of what it held. */
module Sorting {
  import opened Wrappers
  import opened JsText
  import opened Offers

  datatype SortKey = ByPrice | ByDuration | ByAirline

  /** The sort menu's `data-sort` values; anything else selects no comparator. */
  function ParseSortKey(s: string): (k: Option<SortKey>)
    ensures k == Some(ByPrice) <==> s == "price"
    ensures k == Some(ByDuration) <==> s == "duration"
    ensures k == Some(ByAirline) <==> s == "airline"
  {
    if s == "price" then Some(ByPrice)
    else if s == "duration" then Some(ByDuration)
    else if s == "airline" then Some(ByAirline)
    else None
  }

  /** `compare(x, y) <= 0` for the comparator the key selects. */
  predicate Le(k: SortKey, x: Offer, y: Offer)
  {
    match k
    case ByPrice => x.price <= y.price
    case ByDuration => DurationHours(x) <= DurationHours(y)
    case ByAirline => LexLe(x.airline, y.airline)
  }

  predicate Sorted(s: seq<Offer>, k: SortKey)
  {
    forall p, q :: 0 <= p < q < |s| ==> Le(k, s[p], s[q])
  }

  /** A list holds exactly the offers of `spec`, cheapest first: what every
      generator returns after `flights.sort((a, b) => a.price - b.price)`. */
  ghost predicate ArrangedByPrice(s: seq<Offer>, spec: seq<Offer>)
  {
    multiset(s) == multiset(spec) && Sorted(s, ByPrice)
  }

  /** No two offers of `s` agree on the field `f` reads. */
  predicate DistinctBy(s: seq<Offer>, f: Offer -> string)
  {
    forall p, q :: 0 <= p < q < |s| ==> f(s[p]) != f(s[q])
  }

  function FlightNumberOf(o: Offer): string { o.flightNumber }

  function DepartTimeOf(o: Offer): string { o.departTime }

  // ---------------------------------------------------------------------------
  // The comparators are total preorders.

  lemma LeTotal(k: SortKey, x: Offer, y: Offer)
    ensures Le(k, x, y) || Le(k, y, x)
  {
    if k == ByAirline {
      LexLeTotal(x.airline, y.airline);
    }
  }

  lemma LeTransitive(k: SortKey, x: Offer, y: Offer, z: Offer)
    requires Le(k, x, y) && Le(k, y, z)
    ensures Le(k, x, z)
  {
    if k == ByAirline {
      LexLeTransitive(x.airline, y.airline, z.airline);
    }
  }

  // ---------------------------------------------------------------------------
  // The in-place sort.

  /** The first `n` elements of `s` are in order. */
  ghost predicate SortedPrefix(s: seq<Offer>, n: int, k: SortKey)
  {
    forall p, q :: 0 <= p < q < n && q < |s| ==> Le(k, s[p], s[q])
  }

  /** Sorts `a` in place by insertion. */
  method SortOffers(a: array<Offer>, k: SortKey)
    modifies a
    ensures Sorted(a[..], k)
    ensures multiset(a[..]) == multiset(old(a[..]))
  {
    var i := 0;
    while i < a.Length
      invariant i <= a.Length
      invariant SortedPrefix(a[..], i, k)
      invariant multiset(a[..]) == multiset(old(a[..]))
    {
      Insert(a, i, k);
      i := i + 1;
    }
  }

  /** Moves `a[i]` down by adjacent swaps until the first `i + 1` elements
      are in order; the offers after `i` stay where they are. */
  method Insert(a: array<Offer>, i: int, k: SortKey)
    requires 0 <= i < a.Length
    requires SortedPrefix(a[..], i, k)
    modifies a
    ensures SortedPrefix(a[..], i + 1, k)
    ensures multiset(a[..]) == multiset(old(a[..]))
    ensures multiset(a[..i + 1]) == multiset(old(a[..i + 1]))
    ensures a[i + 1..] == old(a[i + 1..])
  {
    var j := i;
    StartInserting(a[..], i, k);
    while j > 0 && !Le(k, a[j - 1], a[j])
      invariant Inserting(a[..], i, j, k)
      invariant multiset(a[..]) == multiset(old(a[..]))
      invariant a[i + 1..] == old(a[i + 1..])
    {
      ghost var before := a[..];
      a[j - 1], a[j] := a[j], a[j - 1];
      SwapStep(before, a[..], i, j, k);
      j := j - 1;
    }
    InsertClosed(a[..], i, j, k);
    SuffixKeptPrefixPermuted(old(a[..]), a[..], i + 1);
  }

  /** While offer `i` moves down, it sits at `j`: the other offers up to `i`
      are in order, and it is no greater than any offer after it. */
  ghost predicate Inserting(s: seq<Offer>, i: int, j: int, k: SortKey)
  {
    && 0 <= j <= i < |s|
    && (forall p, q :: 0 <= p < q <= i && p != j && q != j ==> Le(k, s[p], s[q]))
    && (forall q :: j < q <= i ==> Le(k, s[j], s[q]))
  }

  /** Before the first exchange the offer sits at `i`. */
  lemma StartInserting(s: seq<Offer>, i: int, k: SortKey)
    requires 0 <= i < |s| && SortedPrefix(s, i, k)
    ensures Inserting(s, i, i, k)
  {
  }

  /** One exchange moves the offer one place down, keeps the contents and
      leaves everything after `i` alone. */
  lemma SwapStep(s: seq<Offer>, t: seq<Offer>, i: int, j: int, k: SortKey)
    requires Inserting(s, i, j, k) && j > 0 && !Le(k, s[j - 1], s[j])
    requires |t| == |s| && t[j - 1] == s[j] && t[j] == s[j - 1]
    requires forall p :: 0 <= p < |s| && p != j - 1 && p != j ==> t[p] == s[p]
    ensures Inserting(t, i, j - 1, k)
    ensures multiset(t) == multiset(s)
    ensures t[i + 1..] == s[i + 1..]
  {
    LeTotal(k, s[j - 1], s[j]);
    forall p, q | 0 <= p < q <= i && p != j - 1 && q != j - 1
      ensures Le(k, t[p], t[q])
    {
      if q == j {
        assert t[p] == s[p] && t[q] == s[j - 1];
      } else if p == j {
        assert t[p] == s[j - 1] && t[q] == s[q];
      } else {
        assert t[p] == s[p] && t[q] == s[q];
      }
    }
    forall q | j - 1 < q <= i
      ensures Le(k, t[j - 1], t[q])
    {
      if q > j {
        assert t[q] == s[q];
      }
    }
    SwapKeepsMultiset(s, t, j);
    assert t[i + 1..] == s[i + 1..];
  }

  /** Exchanging two neighbours keeps the contents. */
  lemma SwapKeepsMultiset(s: seq<Offer>, t: seq<Offer>, j: int)
    requires 0 < j < |s| == |t|
    requires t[j - 1] == s[j] && t[j] == s[j - 1]
    requires forall p :: 0 <= p < |s| && p != j - 1 && p != j ==> t[p] == s[p]
    ensures multiset(t) == multiset(s)
  {
    assert t == s[j - 1 := s[j]][j := s[j - 1]];
  }

  /** Where the insertion loop stops, the first `i + 1` offers are in order. */
  lemma InsertClosed(s: seq<Offer>, i: int, j: int, k: SortKey)
    requires Inserting(s, i, j, k)
    requires j > 0 ==> Le(k, s[j - 1], s[j])
    ensures SortedPrefix(s, i + 1, k)
  {
    if j > 0 {
      forall p | 0 <= p < j - 1
        ensures Le(k, s[p], s[j])
      {
        LeTransitive(k, s[p], s[j - 1], s[j]);
      }
    }
  }

  /** When the contents and the tail agree, so do the heads. */
  lemma SuffixKeptPrefixPermuted(s: seq<Offer>, t: seq<Offer>, n: int)
    requires 0 <= n <= |s| == |t|
    requires multiset(t) == multiset(s) && t[n..] == s[n..]
    ensures multiset(t[..n]) == multiset(s[..n])
  {
    assert s == s[..n] + s[n..];
    assert t == t[..n] + t[n..];
    var rest := multiset(s[n..]);
    assert multiset(s) == multiset(s[..n]) + rest;
    assert multiset(t) == multiset(t[..n]) + rest;
    forall x
      ensures multiset(t[..n])[x] == multiset(s[..n])[x]
    {
      assert (multiset(s[..n]) + rest)[x] == multiset(s[..n])[x] + rest[x];
      assert (multiset(t[..n]) + rest)[x] == multiset(t[..n])[x] + rest[x];
    }
  }

  // ---------------------------------------------------------------------------
  // What a permutation keeps.

  lemma {:induction false} DistinctCountOnce(s: seq<Offer>, f: Offer -> string, x: Offer)
    requires DistinctBy(s, f)
    ensures multiset(s)[x] <= 1
  {
    if s != [] {
      assert s == [s[0]] + s[1..];
      assert DistinctBy(s[1..], f);
      DistinctCountOnce(s[1..], f, x);
      if s[0] == x {
        forall q | 0 <= q < |s[1..]| ensures s[1..][q] != x {
          assert s[1..][q] == s[q + 1];
        }
        assert x !in multiset(s[1..]);
      }
    }
  }

  /** Re-ordering a list never makes two offers agree on a field in which they
      all differed. */
  lemma PermutationKeepsDistinct(s: seq<Offer>, t: seq<Offer>, f: Offer -> string)
    requires multiset(s) == multiset(t)
    requires DistinctBy(s, f)
    ensures DistinctBy(t, f)
  {
    forall p, q | 0 <= p < q < |t|
      ensures f(t[p]) != f(t[q])
    {
      if f(t[p]) == f(t[q]) {
        assert t[p] in multiset(s) && t[q] in multiset(s);
        var i :| 0 <= i < |s| && s[i] == t[p];
        var j :| 0 <= j < |s| && s[j] == t[q];
        assert i == j;
        var x := t[p];
        assert t == t[..q] + [t[q]] + t[q + 1..];
        assert x in multiset(t[..q]);
        assert multiset(t)[x] >= 2;
        DistinctCountOnce(s, f, x);
        assert false;
      }
    }
  }
}
