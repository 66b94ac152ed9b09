/**
 * The `filtered` chain of the component: a case-insensitive search over name,
 * address and category, the "Clean only" and "Free only" filters, the distance
 * annotation, and a stable sort on `distance ?? 9999`.
 */
module View {
  import opened Wrappers
  import opened Seqs
  import opened Text
  import opened Spots

  /** A spot spread into a new object with an added `distance` (`null` when unknown). */
  datatype Annotated = Annotated(spot: Spot, distance: Option<real>)

  /** The sort key an unknown distance gets. */
  const UnknownDistance: real := 9999.0

  /** `a.distance ?? 9999`. */
  function SortKey(a: Annotated): real
  {
    match a.distance
    case Some(d) => d
    case None => UnknownDistance
  }

  /** The text the search looks in: name, address and category, space separated, lower-cased. */
  function Haystack(p: Spot): string
  {
    ToLower(p.name + " " + p.address + " " + p.category)
  }

  predicate MatchesQuery(p: Spot, query: string)
  {
    Includes(Haystack(p), ToLower(query))
  }

  function Matching(query: string): Spot -> bool
  {
    (p: Spot) => MatchesQuery(p, query)
  }

  function CleanOk(filterClean: bool): Spot -> bool
  {
    (p: Spot) => if filterClean then p.clean == "Yes" else true
  }

  function FreeOk(filterFree: bool): Spot -> bool
  {
    (p: Spot) => if filterFree then p.free == "Yes" else true
  }

  function SearchFilter(spots: seq<Spot>, query: string): seq<Spot>
  {
    Filter(spots, Matching(query))
  }

  function CleanFilter(spots: seq<Spot>, filterClean: bool): seq<Spot>
  {
    Filter(spots, CleanOk(filterClean))
  }

  function FreeFilter(spots: seq<Spot>, filterFree: bool): seq<Spot>
  {
    Filter(spots, FreeOk(filterFree))
  }

  /** The three `.filter` steps, in the order the code applies them. */
  function Filtered(spots: seq<Spot>, query: string, filterClean: bool, filterFree: bool): seq<Spot>
  {
    FreeFilter(CleanFilter(SearchFilter(spots, query), filterClean), filterFree)
  }

  /** The `.map` step; `dist` stands for `calcDistance` on the two positions. */
  function Annotate(spots: seq<Spot>, userLoc: Option<Position>, dist: (Position, Position) -> real): (r: seq<Annotated>)
    ensures |r| == |spots|
    ensures forall i :: 0 <= i < |r| ==> r[i].spot == spots[i]
    ensures forall i :: 0 <= i < |r| ==> (r[i].distance == None <==> userLoc == None)
    ensures userLoc.Some? ==> forall i :: 0 <= i < |r| ==> r[i].distance == Some(dist(userLoc.value, spots[i].pos))
  {
    seq(|spots|, i requires 0 <= i < |spots| =>
      Annotated(spots[i], if userLoc.Some? then Some(dist(userLoc.value, spots[i].pos)) else None))
  }

  /** The spots behind an annotated list, with the `distance` field dropped. */
  function SpotsOf(view: seq<Annotated>): seq<Spot>
  {
    seq(|view|, i requires 0 <= i < |view| => view[i].spot)
  }

  predicate SortedByKey(s: seq<Annotated>)
  {
    forall i, j :: 0 <= i < j < |s| ==> SortKey(s[i]) <= SortKey(s[j])
  }

  function KeyIs(k: real): Annotated -> bool
  {
    (a: Annotated) => SortKey(a) == k
  }

  /** The elements with sort key `k`, in order. */
  function WithKey(s: seq<Annotated>, k: real): seq<Annotated>
  {
    Filter(s, KeyIs(k))
  }

  /** Puts `x` in front of the first element whose key is not smaller than its own. */
  function Insert(x: Annotated, t: seq<Annotated>): (r: seq<Annotated>)
    ensures multiset(r) == multiset(t) + multiset{x}
  {
    if t == [] || SortKey(x) <= SortKey(t[0]) then [x] + t
    else
      assert t == [t[0]] + t[1..];
      [t[0]] + Insert(x, t[1..])
  }

  /** Inserting into a sorted list gives a sorted list. */
  lemma {:induction false} InsertSorted(x: Annotated, t: seq<Annotated>)
    requires SortedByKey(t)
    ensures SortedByKey(Insert(x, t))
  {
    if t == [] || SortKey(x) <= SortKey(t[0]) {
      var r := [x] + t;
      forall i, j | 0 <= i < j < |r| ensures SortKey(r[i]) <= SortKey(r[j]) {
        assert r[j] == t[j - 1];
        if i > 0 {
          assert r[i] == t[i - 1];
        }
      }
    } else {
      var rest := Insert(x, t[1..]);
      InsertSorted(x, t[1..]);
      var r := [t[0]] + rest;
      forall j | 0 <= j < |rest| ensures SortKey(t[0]) <= SortKey(rest[j]) {
        assert rest[j] in multiset(rest);
        if rest[j] != x {
          assert rest[j] in multiset(t[1..]);
          assert rest[j] in t[1..];
          var m :| 0 <= m < |t[1..]| && t[1..][m] == rest[j];
          assert t[m + 1] == rest[j];
        }
      }
      forall i, j | 0 <= i < j < |r| ensures SortKey(r[i]) <= SortKey(r[j]) {
        assert r[j] == rest[j - 1];
        if i > 0 {
          assert r[i] == rest[i - 1];
        }
      }
    }
  }

  /** The `.sort` step: an insertion sort, stable like `Array.prototype.sort`. */
  function SortByDistance(s: seq<Annotated>): (r: seq<Annotated>)
    ensures multiset(r) == multiset(s)
    ensures SortedByKey(r)
  {
    if s == [] then []
    else
      assert s == [s[0]] + s[1..];
      var sorted := SortByDistance(s[1..]);
      InsertSorted(s[0], sorted);
      Insert(s[0], sorted)
  }

  /** The whole `filtered` expression. */
  function Compute(spots: seq<Spot>, query: string, filterClean: bool, filterFree: bool,
                   userLoc: Option<Position>, dist: (Position, Position) -> real): seq<Annotated>
  {
    SortByDistance(Annotate(Filtered(spots, query, filterClean, filterFree), userLoc, dist))
  }

  // ---- search --------------------------------------------------------------

  /** The search keeps a spot exactly when its lower-cased text contains the lower-cased query. */
  lemma SearchFilterSpec(spots: seq<Spot>, query: string)
    ensures forall p :: p in SearchFilter(spots, query) <==> p in spots && Contains(Haystack(p), ToLower(query))
  {
    FilterMembers(spots, Matching(query));
    forall p
      ensures MatchesQuery(p, query) <==> Contains(Haystack(p), ToLower(query))
    {
      IncludesIffOccurs(Haystack(p), ToLower(query));
    }
  }

  /** An empty query keeps every spot. */
  lemma EmptyQueryKeepsAll(spots: seq<Spot>)
    ensures SearchFilter(spots, "") == spots
  {
    assert ToLower("") == "";
    forall i | 0 <= i < |spots| ensures Matching("")(spots[i]) {
      IncludesEmpty(Haystack(spots[i]));
    }
    FilterKeepsAll(spots, Matching(""));
  }

  /** Queries that lower-case alike ("TOILET", "toilet") select the same spots. */
  lemma SearchIgnoresQueryCase(spots: seq<Spot>, q1: string, q2: string)
    requires ToLower(q1) == ToLower(q2)
    ensures SearchFilter(spots, q1) == SearchFilter(spots, q2)
  {
    FilterExt(spots, Matching(q1), Matching(q2));
  }

  // ---- clean and free filters ----------------------------------------------

  /** "Clean only" keeps exactly the spots whose `clean` is "Yes"; switched off it removes nothing. */
  lemma CleanFilterSpec(spots: seq<Spot>, filterClean: bool)
    ensures filterClean ==> forall i :: 0 <= i < |CleanFilter(spots, filterClean)| ==> CleanFilter(spots, filterClean)[i].clean == "Yes"
    ensures filterClean ==> forall i :: 0 <= i < |spots| && spots[i].clean == "Yes" ==> spots[i] in CleanFilter(spots, filterClean)
    ensures !filterClean ==> CleanFilter(spots, filterClean) == spots
  {
    if !filterClean {
      FilterKeepsAll(spots, CleanOk(false));
    } else {
      var r := CleanFilter(spots, true);
      FilterMembers(spots, CleanOk(true));
      forall i | 0 <= i < |r| ensures r[i].clean == "Yes" {
        assert r[i] in r;
      }
    }
  }

  /** "Free only" keeps exactly the spots whose `free` is "Yes"; switched off it removes nothing. */
  lemma FreeFilterSpec(spots: seq<Spot>, filterFree: bool)
    ensures filterFree ==> forall i :: 0 <= i < |FreeFilter(spots, filterFree)| ==> FreeFilter(spots, filterFree)[i].free == "Yes"
    ensures filterFree ==> forall i :: 0 <= i < |spots| && spots[i].free == "Yes" ==> spots[i] in FreeFilter(spots, filterFree)
    ensures !filterFree ==> FreeFilter(spots, filterFree) == spots
  {
    if !filterFree {
      FilterKeepsAll(spots, FreeOk(false));
    } else {
      var r := FreeFilter(spots, true);
      FilterMembers(spots, FreeOk(true));
      forall i | 0 <= i < |r| ensures r[i].free == "Yes" {
        assert r[i] in r;
      }
    }
  }

  /** The clean and free filters commute. */
  lemma CleanFreeCommute(spots: seq<Spot>, filterClean: bool, filterFree: bool)
    ensures FreeFilter(CleanFilter(spots, filterClean), filterFree) == CleanFilter(FreeFilter(spots, filterFree), filterClean)
  {
    FilterCommutes(spots, CleanOk(filterClean), FreeOk(filterFree));
  }

  function Passes(query: string, filterClean: bool, filterFree: bool): Spot -> bool
  {
    (p: Spot) => MatchesQuery(p, query) && CleanOk(filterClean)(p) && FreeOk(filterFree)(p)
  }

  function MatchesAndClean(query: string, filterClean: bool): Spot -> bool
  {
    (p: Spot) => MatchesQuery(p, query) && CleanOk(filterClean)(p)
  }

  /** The three filters in a row are one filter by the conjunction of their tests. */
  lemma FilteredIsOneFilter(spots: seq<Spot>, query: string, filterClean: bool, filterFree: bool)
    ensures Filtered(spots, query, filterClean, filterFree) == Filter(spots, Passes(query, filterClean, filterFree))
  {
    var mc := MatchesAndClean(query, filterClean);
    FilterFusion(spots, Matching(query), CleanOk(filterClean), mc);
    FilterFusion(spots, mc, FreeOk(filterFree), Passes(query, filterClean, filterFree));
  }

  /**
   * The filtered list is a subsequence of the collection, and holds exactly
   * the spots that pass all three tests.
   */
  lemma FilteredSpec(spots: seq<Spot>, query: string, filterClean: bool, filterFree: bool)
    ensures IsSubseq(Filtered(spots, query, filterClean, filterFree), spots)
    ensures forall p :: p in Filtered(spots, query, filterClean, filterFree) <==>
      && p in spots
      && MatchesQuery(p, query)
      && (filterClean ==> p.clean == "Yes")
      && (filterFree ==> p.free == "Yes")
  {
    var f := Passes(query, filterClean, filterFree);
    FilteredIsOneFilter(spots, query, filterClean, filterFree);
    FilterIsSubseq(spots, f);
    FilterMembers(spots, f);
  }

  /** The filtered list keeps every copy of each spot that passes and none of the others. */
  lemma FilteredCount(spots: seq<Spot>, query: string, filterClean: bool, filterFree: bool)
    ensures forall p ::
      multiset(Filtered(spots, query, filterClean, filterFree))[p] ==
      if MatchesQuery(p, query) && (filterClean ==> p.clean == "Yes") && (filterFree ==> p.free == "Yes")
      then multiset(spots)[p] else 0
  {
    var f := Passes(query, filterClean, filterFree);
    FilteredIsOneFilter(spots, query, filterClean, filterFree);
    FilterCount(spots, f);
    forall p
      ensures f(p) == (MatchesQuery(p, query) && (filterClean ==> p.clean == "Yes") && (filterFree ==> p.free == "Yes"))
    {
      PassesIff(query, filterClean, filterFree, p);
    }
  }

  /** The combined test, unfolded. */
  lemma PassesIff(query: string, filterClean: bool, filterFree: bool, p: Spot)
    ensures Passes(query, filterClean, filterFree)(p) <==>
      MatchesQuery(p, query) && (filterClean ==> p.clean == "Yes") && (filterFree ==> p.free == "Yes")
  {
    assert CleanOk(filterClean)(p) == (filterClean ==> p.clean == "Yes");
    assert FreeOk(filterFree)(p) == (filterFree ==> p.free == "Yes");
  }

  // ---- annotation ----------------------------------------------------------

  /** The annotation adds `distance` and changes nothing else. */
  lemma AnnotateKeepsSpots(spots: seq<Spot>, userLoc: Option<Position>, dist: (Position, Position) -> real)
    ensures SpotsOf(Annotate(spots, userLoc, dist)) == spots
  {
  }

  // ---- sort ----------------------------------------------------------------

  /** The elements of key `k` of a list with a new head, unfolded one step. */
  lemma WithKeyCons(a: Annotated, t: seq<Annotated>, k: real)
    ensures WithKey([a] + t, k) == (if SortKey(a) == k then [a] else []) + WithKey(t, k)
  {
    FilterCons(a, t, KeyIs(k));
  }

  /** Inserting `x` adds it to the elements of its own key, in front of them. */
  lemma {:induction false} InsertWithKey(x: Annotated, t: seq<Annotated>, k: real)
    ensures WithKey(Insert(x, t), k) == (if SortKey(x) == k then [x] else []) + WithKey(t, k)
  {
    if t == [] || SortKey(x) <= SortKey(t[0]) {
      WithKeyCons(x, t, k);
    } else {
      InsertWithKey(x, t[1..], k);
      InsertPastHead(x, t, k);
    }
  }

  /** The step of InsertWithKey where `x` goes past the head of `t`. */
  lemma InsertPastHead(x: Annotated, t: seq<Annotated>, k: real)
    requires t != [] && SortKey(t[0]) < SortKey(x)
    requires WithKey(Insert(x, t[1..]), k) == (if SortKey(x) == k then [x] else []) + WithKey(t[1..], k)
    ensures WithKey(Insert(x, t), k) == (if SortKey(x) == k then [x] else []) + WithKey(t, k)
  {
    var rest := Insert(x, t[1..]);
    var px: seq<Annotated> := if SortKey(x) == k then [x] else [];
    var p0: seq<Annotated> := if SortKey(t[0]) == k then [t[0]] else [];
    assert Insert(x, t) == [t[0]] + rest;
    WithKeyCons(t[0], rest, k);
    WithKeyCons(t[0], t[1..], k);
    assert [t[0]] + t[1..] == t;
    // the keys of `t[0]` and `x` differ, so at most one of the two prefixes is non-empty
    SwapPrefixes(p0, px, WithKey(t[1..], k));
  }

  lemma SwapPrefixes<T>(p: seq<T>, q: seq<T>, w: seq<T>)
    requires p == [] || q == []
    ensures p + (q + w) == q + (p + w)
  {
  }

  /** The sort is stable: the elements of each key keep their relative order. */
  lemma {:induction false} SortStable(s: seq<Annotated>, k: real)
    ensures WithKey(SortByDistance(s), k) == WithKey(s, k)
  {
    if s != [] {
      SortStable(s[1..], k);
      InsertWithKey(s[0], SortByDistance(s[1..]), k);
      FilterCons(s[0], s[1..], KeyIs(k));
      assert [s[0]] + s[1..] == s;
    }
  }

  /**
   * A list sorted by key is determined by what it holds under each key: any
   * stable sort of `s` (the engine's `Array.prototype.sort` included) returns
   * `SortByDistance(s)`.
   */
  lemma {:induction false} SortedUnique(r1: seq<Annotated>, r2: seq<Annotated>)
    requires SortedByKey(r1) && SortedByKey(r2)
    requires forall k :: WithKey(r1, k) == WithKey(r2, k)
    ensures r1 == r2
    decreases |r1| + |r2|
  {
    if r1 == [] || r2 == [] {
      NonEmptyHasOwnKey(r1);
      NonEmptyHasOwnKey(r2);
    } else {
      var k1, k2 := SortKey(r1[0]), SortKey(r2[0]);
      HeadWithKey(r1);
      HeadWithKey(r2);
      KeyBelowMembers(r2, k1);
      KeyBelowMembers(r1, k2);
      assert k1 == k2;
      assert r1[0] == WithKey(r1, k1)[0] == WithKey(r2, k1)[0] == r2[0];
      forall k
        ensures WithKey(r1[1..], k) == WithKey(r2[1..], k)
      {
        FilterCons(r1[0], r1[1..], KeyIs(k));
        FilterCons(r2[0], r2[1..], KeyIs(k));
        assert [r1[0]] + r1[1..] == r1;
        assert [r2[0]] + r2[1..] == r2;
        var p := if SortKey(r1[0]) == k then [r1[0]] else [];
        assert WithKey(r1, k) == WithKey(r2, k);
        assert WithKey(r1, k) == p + WithKey(r1[1..], k);
        assert WithKey(r2, k) == p + WithKey(r2[1..], k);
        assert WithKey(r1[1..], k) == (p + WithKey(r1[1..], k))[|p|..];
        assert WithKey(r2[1..], k) == (p + WithKey(r2[1..], k))[|p|..];
      }
      SortedUnique(r1[1..], r2[1..]);
      assert r1 == [r1[0]] + r1[1..];
      assert r2 == [r2[0]] + r2[1..];
    }
  }

  /** A non-empty list holds some element under the key of its head. */
  lemma NonEmptyHasOwnKey(s: seq<Annotated>)
    ensures s != [] ==> WithKey(s, SortKey(s[0])) != []
  {
    if s != [] {
      HeadWithKey(s);
    }
  }

  /** The first element of a non-empty list heads the list of its own key. */
  lemma HeadWithKey(s: seq<Annotated>)
    requires s != []
    ensures WithKey(s, SortKey(s[0])) != [] && WithKey(s, SortKey(s[0]))[0] == s[0]
  {
    FilterCons(s[0], s[1..], KeyIs(SortKey(s[0])));
    assert [s[0]] + s[1..] == s;
  }

  /** In a sorted list, every key that occurs is at least the key of the head. */
  lemma KeyBelowMembers(s: seq<Annotated>, k: real)
    requires SortedByKey(s) && s != [] && WithKey(s, k) != []
    ensures SortKey(s[0]) <= k
  {
    var w := WithKey(s, k);
    FilterMembers(s, KeyIs(k));
    assert w[0] in w;
    assert w[0] in s && KeyIs(k)(w[0]);
    var j :| 0 <= j < |s| && s[j] == w[0];
  }

  /** Every stable sort of `s` is `SortByDistance(s)`. */
  lemma StableSortIsSortByDistance(s: seq<Annotated>, r: seq<Annotated>)
    requires SortedByKey(r)
    requires forall k :: WithKey(r, k) == WithKey(s, k)
    ensures r == SortByDistance(s)
  {
    forall k ensures WithKey(r, k) == WithKey(SortByDistance(s), k) {
      SortStable(s, k);
    }
    SortedUnique(r, SortByDistance(s));
  }

  /** When every key is the same the sort leaves the list as it is. */
  lemma {:induction false} SortConstantKey(s: seq<Annotated>, c: real)
    requires forall i :: 0 <= i < |s| ==> SortKey(s[i]) == c
    ensures SortByDistance(s) == s
  {
    if s != [] {
      SortConstantKey(s[1..], c);
      assert s == [s[0]] + s[1..];
    }
  }

  // ---- the whole chain -----------------------------------------------------

  /**
   * The view is the annotated filtered list, reordered: a permutation of it,
   * sorted by non-decreasing `distance ?? 9999`, with ties in filter order.
   */
  lemma ComputeSpec(spots: seq<Spot>, query: string, filterClean: bool, filterFree: bool,
                    userLoc: Option<Position>, dist: (Position, Position) -> real)
    ensures var a := Annotate(Filtered(spots, query, filterClean, filterFree), userLoc, dist);
      var v := Compute(spots, query, filterClean, filterFree, userLoc, dist);
      && multiset(v) == multiset(a)
      && SortedByKey(v)
      && forall k :: WithKey(v, k) == WithKey(a, k)
  {
    var a := Annotate(Filtered(spots, query, filterClean, filterFree), userLoc, dist);
    forall k ensures WithKey(SortByDistance(a), k) == WithKey(a, k) {
      SortStable(a, k);
    }
  }

  /**
   * With the location unknown, every distance is `null`, every key is 9999,
   * and the view lists the filtered spots in their filter order.
   */
  lemma ComputeWithoutLocation(spots: seq<Spot>, query: string, filterClean: bool, filterFree: bool,
                               dist: (Position, Position) -> real)
    ensures var v := Compute(spots, query, filterClean, filterFree, None, dist);
      && SpotsOf(v) == Filtered(spots, query, filterClean, filterFree)
      && forall i :: 0 <= i < |v| ==> v[i].distance == None
  {
    var a := Annotate(Filtered(spots, query, filterClean, filterFree), None, dist);
    SortConstantKey(a, UnknownDistance);
  }

  // ---- concrete cases -------------------------------------------------------

  function SampleSpot(id: int, name: string, address: string, category: string): Spot
  {
    Spot(id, name, category, address, Position(0.0, 0.0), "gold", "Yes", "Yes", true)
  }

  /** The lower-cased query "TOILET". */
  lemma LowerToilet()
    ensures ToLower("TOILET") == "toilet"
  {
    var r := ToLower("TOILET");
    assert r[0] == 't' && r[1] == 'o' && r[2] == 'i' && r[3] == 'l' && r[4] == 'e' && r[5] == 't';
  }

  /** The public toilet's text contains "toilet" at position 11. */
  lemma ToiletMatches()
    ensures MatchesQuery(SampleSpot(1, "A", "X", "Public Toilet"), "TOILET")
  {
    LowerToilet();
    var raw := "A" + " " + "X" + " " + "Public Toilet";
    assert raw == "A X Public Toilet";
    var h := Haystack(SampleSpot(1, "A", "X", "Public Toilet"));
    assert h == ToLower(raw);
    assert |h| == 17;
    assert h[11] == 't' && h[12] == 'o' && h[13] == 'i' && h[14] == 'l' && h[15] == 'e' && h[16] == 't';
    assert h[11..17] == "toilet";
    assert OccursAt(h, "toilet", 11);
    IncludesIffOccurs(h, "toilet");
  }

  /** The hotel's text "b y hotel" has no 'i', so it cannot contain "toilet". */
  lemma HotelDoesNotMatch()
    ensures !MatchesQuery(SampleSpot(2, "B", "Y", "Hotel"), "TOILET")
  {
    LowerToilet();
    var raw := "B" + " " + "Y" + " " + "Hotel";
    assert raw == "B Y Hotel";
    var h := Haystack(SampleSpot(2, "B", "Y", "Hotel"));
    assert h == ToLower(raw);
    assert |h| == 9;
    assert forall j :: 0 <= j < 9 ==> h[j] != 'i';
    IncludesIffOccurs(h, "toilet");
    MissingCharNotContained(h, "toilet", 2);
  }

  /** Searching "TOILET" finds the public toilet and not the hotel. */
  lemma SearchToiletExample()
    ensures var toilet := SampleSpot(1, "A", "X", "Public Toilet");
      var hotel := SampleSpot(2, "B", "Y", "Hotel");
      SearchFilter([toilet, hotel], "TOILET") == [toilet]
  {
    var toilet := SampleSpot(1, "A", "X", "Public Toilet");
    var hotel := SampleSpot(2, "B", "Y", "Hotel");
    ToiletMatches();
    HotelDoesNotMatch();
    FilterCons(toilet, [hotel], Matching("TOILET"));
    FilterCons(hotel, [], Matching("TOILET"));
    assert [toilet] + [hotel] == [toilet, hotel];
  }

  /**
   * A nearer spot goes before a farther one, and a spot at distance 0 (whose
   * key stays 0 rather than falling back to 9999) before one whose distance
   * is unknown.
   */
  lemma SortExample()
    ensures var p := SampleSpot(1, "A", "X", "Cafe");
      var far := Annotated(p, Some(10.0));
      var near := Annotated(p.(id := 2), Some(5.0));
      SortByDistance([far, near]) == [near, far]
    ensures var p := SampleSpot(1, "A", "X", "Cafe");
      var unknown := Annotated(p.(id := 3), None);
      var here := Annotated(p.(id := 4), Some(0.0));
      SortByDistance([unknown, here]) == [here, unknown]
  {
    var p := SampleSpot(1, "A", "X", "Cafe");
    SortPair(Annotated(p, Some(10.0)), Annotated(p.(id := 2), Some(5.0)));
    SortPair(Annotated(p.(id := 3), None), Annotated(p.(id := 4), Some(0.0)));
  }

  /** Two elements out of key order are swapped. */
  lemma SortPair(a: Annotated, b: Annotated)
    requires SortKey(b) < SortKey(a)
    ensures SortByDistance([a, b]) == [b, a]
  {
    assert [a, b][1..] == [b];
    assert [b][1..] == [];
    assert SortByDistance([b]) == [b];
    assert Insert(a, [b]) == [b] + Insert(a, []);
  }
}
