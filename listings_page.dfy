/** The listings page's filtering and sorting effect
    (app/listings/page.tsx): a copy of the collection is narrowed by each
    active criterion in turn and then sorted by the chosen key. */
module ListingsPage {
  import opened SeqUtil
  import opened Types
  import opened ListingFilters

  // ---------------------------------------------------------------------------
  // Criteria

  /** One filter pass. A price bound is the `Number(...)` of its text, None
      when that is NaN. */
  datatype Criterion =
    | CategoryIs(category: string)
    | PriceAtLeast(bound: Option<real>)
    | PriceAtMost(bound: Option<real>)
    | LocationHas(query: string)
    | TextHas(query: string)

  /** Whether a listing passes one criterion. A NaN bound fails every
      comparison, so it keeps nothing. */
  predicate Holds(c: Criterion, l: Listing)
  {
    match c
    case CategoryIs(cat) => l.category == cat
    case PriceAtLeast(b) => b.Some? && l.price as real >= b.value
    case PriceAtMost(b) => b.Some? && l.price as real <= b.value
    case LocationHas(q) => Includes(Lower(l.location), Lower(q))
    case TextHas(q) => Includes(Lower(l.title), Lower(q)) || Includes(Lower(l.description), Lower(q))
  }

  function Test(c: Criterion): Listing -> bool
  {
    l => Holds(c, l)
  }

  predicate AllHold(cs: seq<Criterion>, l: Listing)
  {
    forall i :: 0 <= i < |cs| ==> Holds(cs[i], l)
  }

  function AllTest(cs: seq<Criterion>): Listing -> bool
  {
    l => AllHold(cs, l)
  }

  /** The criteria a filter record switches on, in the order the effect
      applies them; a field is on when its text is non-empty. */
  function ActiveCriteria(f: Filters): seq<Criterion>
  {
    (if f.category != "" then [CategoryIs(f.category)] else [])
    + (if f.minPrice != "" then [PriceAtLeast(ParseNumber(f.minPrice))] else [])
    + (if f.maxPrice != "" then [PriceAtMost(ParseNumber(f.maxPrice))] else [])
    + (if f.location != "" then [LocationHas(f.location)] else [])
    + (if f.search != "" then [TextHas(f.search)] else [])
  }

  /** A listing satisfies a filter record: every active criterion holds. */
  predicate Matches(f: Filters, l: Listing)
  {
    AllHold(ActiveCriteria(f), l)
  }

  /** The listings of `s` that satisfy `f`, in collection order. */
  function Select(s: seq<Listing>, f: Filters): seq<Listing>
  {
    Filter(s, AllTest(ActiveCriteria(f)))
  }

  /** The criteria combine by AND, each only when its field is non-empty;
      price bounds are inclusive and a bound that is not a number keeps
      nothing. */
  lemma MatchesIff(f: Filters, l: Listing)
    ensures Matches(f, l) <==>
      && (f.category != "" ==> l.category == f.category)
      && (f.minPrice != "" ==> ParseNumber(f.minPrice).Some? && l.price as real >= ParseNumber(f.minPrice).value)
      && (f.maxPrice != "" ==> ParseNumber(f.maxPrice).Some? && l.price as real <= ParseNumber(f.maxPrice).value)
      && (f.location != "" ==> Includes(Lower(l.location), Lower(f.location)))
      && (f.search != "" ==>
            Includes(Lower(l.title), Lower(f.search)) || Includes(Lower(l.description), Lower(f.search)))
  {
    var c0 := if f.category != "" then [CategoryIs(f.category)] else [];
    var c1 := if f.minPrice != "" then [PriceAtLeast(ParseNumber(f.minPrice))] else [];
    var c2 := if f.maxPrice != "" then [PriceAtMost(ParseNumber(f.maxPrice))] else [];
    var c3 := if f.location != "" then [LocationHas(f.location)] else [];
    var c4 := if f.search != "" then [TextHas(f.search)] else [];
    assert ActiveCriteria(f) == c0 + c1 + c2 + c3 + c4;
    AllHoldAppend(c0, c1, l);
    AllHoldAppend(c0 + c1, c2, l);
    AllHoldAppend(c0 + c1 + c2, c3, l);
    AllHoldAppend(c0 + c1 + c2 + c3, c4, l);
    AllHoldAtMostOne(c0, l);
    AllHoldAtMostOne(c1, l);
    AllHoldAtMostOne(c2, l);
    AllHoldAtMostOne(c3, l);
    AllHoldAtMostOne(c4, l);
  }

  lemma AllHoldAtMostOne(cs: seq<Criterion>, l: Listing)
    requires |cs| <= 1
    ensures cs == [] ==> AllHold(cs, l)
    ensures |cs| == 1 ==> (AllHold(cs, l) <==> Holds(cs[0], l))
  {
  }

  lemma AllHoldAppend(a: seq<Criterion>, b: seq<Criterion>, l: Listing)
    ensures AllHold(a + b, l) <==> AllHold(a, l) && AllHold(b, l)
  {
    if AllHold(a, l) && AllHold(b, l) {
      forall i | 0 <= i < |a + b| ensures Holds((a + b)[i], l) {
        if i < |a| { assert (a + b)[i] == a[i]; } else { assert (a + b)[i] == b[i - |a|]; }
      }
    }
    if AllHold(a + b, l) {
      forall i | 0 <= i < |a| ensures Holds(a[i], l) { assert (a + b)[i] == a[i]; }
      forall i | 0 <= i < |b| ensures Holds(b[i], l) { assert (a + b)[i + |a|] == b[i]; }
    }
  }

  /** With every field empty, everything matches. */
  lemma EmptyFiltersMatchAll(l: Listing)
    ensures Matches(ClearFilters(), l)
  {
  }

  /** The sidebar's "all" choice is compared literally: it keeps only
      listings whose category is the text "all". */
  lemma AllCategoryIsLiteral(s: seq<Listing>, f: Filters, l: Listing)
    requires f.category == "all"
    requires l in Select(s, f)
    ensures l.category == "all"
  {
    FilterSound(s, AllTest(ActiveCriteria(f)), l);
    MatchesIff(f, l);
  }

  /** A non-empty price bound that is not a number makes every comparison
      false, so the selection is empty whatever the collection holds. */
  lemma NonNumericBoundKeepsNothing(s: seq<Listing>, f: Filters)
    requires (f.minPrice != "" && ParseNumber(f.minPrice).None?) || (f.maxPrice != "" && ParseNumber(f.maxPrice).None?)
    ensures Select(s, f) == []
  {
    forall i | 0 <= i < |s| ensures !AllTest(ActiveCriteria(f))(s[i]) {
      MatchesIff(f, s[i]);
    }
    FilterNonePass(s, AllTest(ActiveCriteria(f)));
  }

  /** A fractional bound is compared by value: over whole prices, a minimum
      of "99.5" keeps exactly the listings priced 100 or more. */
  lemma FractionalMinimum(l: Listing)
    ensures Matches(Filters("", "99.5", "", "", ""), l) <==> l.price >= 100
  {
    FractionExamples();
    MatchesIff(Filters("", "99.5", "", "", ""), l);
  }

  /** An exact (same-case) substring of the location always passes the
      location criterion. */
  lemma {:induction false} LocationSubstringPasses(l: Listing, q: string)
    requires Includes(l.location, q)
    ensures Holds(LocationHas(q), l)
  {
    LowerPreservesIncludes(l.location, q);
  }

  /** The location and search criteria ignore the case of the query. */
  lemma QueryCaseIgnored(l: Listing, q: string)
    ensures Holds(LocationHas(Lower(q)), l) == Holds(LocationHas(q), l)
    ensures Holds(TextHas(Lower(q)), l) == Holds(TextHas(q), l)
  {
    LowerIdempotent(q);
  }

  lemma {:induction false} LowerPreservesIncludes(hay: string, needle: string)
    requires Includes(hay, needle)
    ensures Includes(Lower(hay), Lower(needle))
  {
    IncludesAt(hay, needle);
    var k :| OccursAt(hay, needle, k);
    assert Lower(hay)[k..k + |needle|] == Lower(needle);
    assert OccursAt(Lower(hay), Lower(needle), k);
    IncludesAt(Lower(hay), Lower(needle));
  }

  /** Narrowing by the criteria so far and then by one more is narrowing by
      all of them at once. */
  lemma KeepStep(s: seq<Listing>, cs: seq<Criterion>, c: Criterion)
    ensures Filter(Filter(s, AllTest(cs)), Test(c)) == Filter(s, AllTest(cs + [c]))
  {
    forall l ensures AllTest(cs + [c])(l) == (AllTest(cs)(l) && Test(c)(l)) {
      AllHoldAppend(cs, [c], l);
      AllHoldAtMostOne([c], l);
      assert AllTest(cs + [c])(l) == AllHold(cs + [c], l);
      assert AllTest(cs)(l) == AllHold(cs, l);
      assert Test(c)(l) == Holds(c, l);
    }
    FilterFilter(s, AllTest(cs), Test(c), AllTest(cs + [c]));
  }

  lemma NoCriteriaKeepsAll(s: seq<Listing>)
    ensures Filter(s, AllTest([])) == s
  {
    FilterAllPass(s, AllTest([]));
  }

  // ---------------------------------------------------------------------------
  // Sorting

  datatype SortKey = Newest | Oldest | PriceAsc | PriceDesc | MostViewed

  /** The switch on `sortBy`; any other text selects no case. */
  function SortKeyOf(sortBy: string): Option<SortKey>
  {
    if sortBy == "newest" then Some(Newest)
    else if sortBy == "oldest" then Some(Oldest)
    else if sortBy == "price-asc" then Some(PriceAsc)
    else if sortBy == "price-desc" then Some(PriceDesc)
    else if sortBy == "most-viewed" then Some(MostViewed)
    else None
  }

  /** Each comparator `(a, b) => ...` is `Rank(a) - Rank(b)`: newest first
      is ascending negated time, price-desc ascending negated price, and so on. */
  function Rank(k: SortKey, l: Listing): int
  {
    match k
    case Newest => -l.createdAt
    case Oldest => l.createdAt
    case PriceAsc => l.price
    case PriceDesc => -l.price
    case MostViewed => -l.views
  }

  predicate SortedBy(s: seq<Listing>, k: SortKey)
  {
    forall i, j :: 0 <= i < j < |s| ==> Rank(k, s[i]) <= Rank(k, s[j])
  }

  function RankIs(k: SortKey, v: int): Listing -> bool
  {
    l => Rank(k, l) == v
  }

  /** The listings of `s` that tie at rank `v`, in their order in `s`. A sort
      is stable when it leaves every such run as it was. */
  function Ties(s: seq<Listing>, k: SortKey, v: int): seq<Listing>
  {
    Filter(s, RankIs(k, v))
  }

  /** Puts `x` after every element whose rank is not above its own. */
  function Insert(s: seq<Listing>, x: Listing, k: SortKey): (r: seq<Listing>)
    ensures |r| == |s| + 1
    ensures r[0] == x || (s != [] && r[0] == s[0])
  {
    if s == [] then [x]
    else if Rank(k, s[0]) > Rank(k, x) then [x] + s
    else [s[0]] + Insert(s[1..], x, k)
  }

  /** Stable insertion sort: each element in turn, inserted into the sorted
      prefix after its equals. */
  function InsertionSort(s: seq<Listing>, k: SortKey): seq<Listing>
  {
    if s == [] then [] else Insert(InsertionSort(s[..|s| - 1], k), s[|s| - 1], k)
  }

  lemma {:induction false} InsertPermutes(s: seq<Listing>, x: Listing, k: SortKey)
    ensures multiset(Insert(s, x, k)) == multiset(s) + multiset{x}
  {
    if s != [] && Rank(k, s[0]) <= Rank(k, x) {
      InsertPermutes(s[1..], x, k);
      assert s == [s[0]] + s[1..];
    }
  }

  /** Ordered neighbours make an ordered sequence. */
  lemma {:induction false} AdjacentSorted(s: seq<Listing>, k: SortKey)
    requires forall i :: 0 < i < |s| ==> Rank(k, s[i - 1]) <= Rank(k, s[i])
    ensures SortedBy(s, k)
  {
    forall i, j | 0 <= i < j < |s| ensures Rank(k, s[i]) <= Rank(k, s[j]) {
      AdjacentStep(s, k, i, j);
    }
  }

  lemma {:induction false} AdjacentStep(s: seq<Listing>, k: SortKey, i: int, j: int)
    requires forall i :: 0 < i < |s| ==> Rank(k, s[i - 1]) <= Rank(k, s[i])
    requires 0 <= i <= j < |s|
    ensures Rank(k, s[i]) <= Rank(k, s[j])
    decreases j - i
  {
    if i < j {
      AdjacentStep(s, k, i, j - 1);
    }
  }

  lemma {:induction false} InsertSorted(s: seq<Listing>, x: Listing, k: SortKey)
    requires SortedBy(s, k)
    ensures SortedBy(Insert(s, x, k), k)
  {
    var r := Insert(s, x, k);
    if s == [] {
    } else if Rank(k, s[0]) > Rank(k, x) {
      forall i | 0 < i < |r| ensures Rank(k, r[i - 1]) <= Rank(k, r[i]) {
        if i > 1 { assert r[i - 1] == s[i - 2] && r[i] == s[i - 1]; }
      }
      AdjacentSorted(r, k);
    } else {
      var t := Insert(s[1..], x, k);
      InsertSorted(s[1..], x, k);
      assert r == [s[0]] + t;
      forall i | 0 < i < |r| ensures Rank(k, r[i - 1]) <= Rank(k, r[i]) {
        if i == 1 {
          assert r[1] == t[0];
          if t[0] != x { assert t[0] == s[1]; }
        } else {
          assert r[i - 1] == t[i - 2] && r[i] == t[i - 1];
        }
      }
      AdjacentSorted(r, k);
    }
  }

  lemma {:induction false} InsertTies(s: seq<Listing>, x: Listing, k: SortKey, v: int)
    requires SortedBy(s, k)
    ensures Ties(Insert(s, x, k), k, v) == Ties(s, k, v) + (if Rank(k, x) == v then [x] else [])
  {
    if s == [] {
      TiesOfCons([x], k, v);
    } else if Rank(k, s[0]) > Rank(k, x) {
      var r := [x] + s;
      TiesOfCons(r, k, v);
      assert r[1..] == s;
      if Rank(k, x) == v {
        FilterNonePass(s, RankIs(k, v));
      }
    } else {
      var r := [s[0]] + Insert(s[1..], x, k);
      assert s[1..] == s[1..];
      InsertTies(s[1..], x, k, v);
      TiesOfCons(r, k, v);
      assert r[1..] == Insert(s[1..], x, k);
      TiesOfCons(s, k, v);
    }
  }

  lemma {:induction false} InsertionSortCorrect(s: seq<Listing>, k: SortKey)
    ensures SortedBy(InsertionSort(s, k), k)
    ensures multiset(InsertionSort(s, k)) == multiset(s)
    ensures forall v :: Ties(InsertionSort(s, k), k, v) == Ties(s, k, v)
  {
    if s != [] {
      var init, x := s[..|s| - 1], s[|s| - 1];
      assert s == init + [x];
      InsertionSortCorrect(init, k);
      InsertSorted(InsertionSort(init, k), x, k);
      InsertPermutes(InsertionSort(init, k), x, k);
      forall v ensures Ties(InsertionSort(s, k), k, v) == Ties(s, k, v) {
        InsertTies(InsertionSort(init, k), x, k, v);
        FilterConcat(init, [x], RankIs(k, v));
      }
    }
  }

  /** The tie runs of a sequence, read front to back. */
  lemma TiesOfCons(s: seq<Listing>, k: SortKey, v: int)
    requires s != []
    ensures Ties(s, k, v) == (if Rank(k, s[0]) == v then [s[0]] else []) + Ties(s[1..], k, v)
  {
  }

  /** Sortedness and unchanged tie runs determine a sequence: two sorted
      sequences with the same tie runs are equal. So every stable sort
      produces the order the insertion sort produces. */
  lemma {:induction false} StableSortUnique(r1: seq<Listing>, r2: seq<Listing>, k: SortKey)
    requires SortedBy(r1, k) && SortedBy(r2, k)
    requires forall v :: Ties(r1, k, v) == Ties(r2, k, v)
    ensures r1 == r2
    decreases |r1| + |r2|
  {
    if r1 == [] || r2 == [] {
      if r1 != [] {
        TiesOfCons(r1, k, Rank(k, r1[0]));
        assert false;
      } else if r2 != [] {
        TiesOfCons(r2, k, Rank(k, r2[0]));
        assert false;
      }
    } else {
      var m1, m2 := Rank(k, r1[0]), Rank(k, r2[0]);
      TiesOfCons(r1, k, m1);
      TiesOfCons(r2, k, m2);
      // r2 holds an element of rank m1, and r1 one of rank m2
      var t1 := Ties(r2, k, m1);
      assert t1 != [] && t1[0] in t1;
      FilterSound(r2, RankIs(k, m1), t1[0]);
      var t2 := Ties(r1, k, m2);
      assert t2 != [] && t2[0] in t2;
      FilterSound(r1, RankIs(k, m2), t2[0]);
      assert m2 <= m1 && m1 <= m2;
      TiesOfCons(r2, k, m1);
      assert r1[0] == r2[0];
      forall v ensures Ties(r1[1..], k, v) == Ties(r2[1..], k, v) {
        TiesOfCons(r1, k, v);
        TiesOfCons(r2, k, v);
        var head := if Rank(k, r1[0]) == v then [r1[0]] else [];
        assert Ties(r1, k, v)[|head|..] == Ties(r1[1..], k, v);
        assert Ties(r2, k, v)[|head|..] == Ties(r2[1..], k, v);
      }
      StableSortUnique(r1[1..], r2[1..], k);
      assert r1 == [r1[0]] + r1[1..] && r2 == [r2[0]] + r2[1..];
    }
  }

  /** `result.sort(comparator)` for a stable sort, on a local copy: inserts
      each listing in turn into the sorted prefix. */
  method StableSort(s: seq<Listing>, k: SortKey) returns (r: seq<Listing>)
    ensures SortedBy(r, k)
    ensures multiset(r) == multiset(s)
    ensures forall v :: Ties(r, k, v) == Ties(s, k, v)
  {
    r := [];
    var i := 0;
    while i < |s|
      invariant 0 <= i <= |s|
      invariant r == InsertionSort(s[..i], k)
    {
      assert s[..i + 1][..i] == s[..i];
      r := Insert(r, s[i], k);
      i := i + 1;
    }
    assert s[..|s|] == s;
    InsertionSortCorrect(s, k);
  }

  /** What each sort key's order means for the listing fields it compares. */
  lemma SortedMeaning(r: seq<Listing>, sortBy: string)
    requires SortKeyOf(sortBy).Some? && SortedBy(r, SortKeyOf(sortBy).value)
    ensures sortBy == "newest" ==> forall i, j :: 0 <= i < j < |r| ==> r[i].createdAt >= r[j].createdAt
    ensures sortBy == "oldest" ==> forall i, j :: 0 <= i < j < |r| ==> r[i].createdAt <= r[j].createdAt
    ensures sortBy == "price-asc" ==> forall i, j :: 0 <= i < j < |r| ==> r[i].price <= r[j].price
    ensures sortBy == "price-desc" ==> forall i, j :: 0 <= i < j < |r| ==> r[i].price >= r[j].price
    ensures sortBy == "most-viewed" ==> forall i, j :: 0 <= i < j < |r| ==> r[i].views >= r[j].views
  {
    var k := SortKeyOf(sortBy).value;
    forall i, j | 0 <= i < j < |r| ensures Rank(k, r[i]) <= Rank(k, r[j]) {
    }
  }

  /** The selection keeps exactly the matching listings, each with its
      multiplicity in the collection. */
  lemma SelectCounts(s: seq<Listing>, f: Filters, l: Listing)
    ensures multiset(Select(s, f))[l] == if Matches(f, l) then multiset(s)[l] else 0
  {
    FilterCount(s, AllTest(ActiveCriteria(f)), l);
  }

  /** With no active filter the selection is the whole collection. */
  lemma SelectInactive(s: seq<Listing>, f: Filters)
    requires !HasActiveFilters(f)
    ensures Select(s, f) == s
  {
    assert ActiveCriteria(f) == [];
    NoCriteriaKeepsAll(s);
  }

  // ---------------------------------------------------------------------------
  // The effect

  /** The filter passes of the effect, one `result.filter(...)` per
      non-empty field, applied to a copy of the collection. */
  method ApplyFilters(listings: seq<Listing>, filters: Filters) returns (result: seq<Listing>)
    ensures result == Select(listings, filters)
  {
    result := listings;
    ghost var cs: seq<Criterion> := [];
    NoCriteriaKeepsAll(listings);

    if filters.category != "" {
      KeepStep(listings, cs, CategoryIs(filters.category));
      result := Filter(result, Test(CategoryIs(filters.category)));
      cs := cs + [CategoryIs(filters.category)];
    }
    ghost var c0 := cs;
    assert result == Filter(listings, AllTest(cs));
    if filters.minPrice != "" {
      KeepStep(listings, cs, PriceAtLeast(ParseNumber(filters.minPrice)));
      result := Filter(result, Test(PriceAtLeast(ParseNumber(filters.minPrice))));
      cs := cs + [PriceAtLeast(ParseNumber(filters.minPrice))];
    }
    ghost var c1 := cs;
    assert result == Filter(listings, AllTest(cs));
    if filters.maxPrice != "" {
      KeepStep(listings, cs, PriceAtMost(ParseNumber(filters.maxPrice)));
      result := Filter(result, Test(PriceAtMost(ParseNumber(filters.maxPrice))));
      cs := cs + [PriceAtMost(ParseNumber(filters.maxPrice))];
    }
    ghost var c2 := cs;
    assert result == Filter(listings, AllTest(cs));
    if filters.location != "" {
      KeepStep(listings, cs, LocationHas(filters.location));
      result := Filter(result, Test(LocationHas(filters.location)));
      cs := cs + [LocationHas(filters.location)];
    }
    ghost var c3 := cs;
    assert result == Filter(listings, AllTest(cs));
    if filters.search != "" {
      KeepStep(listings, cs, TextHas(filters.search));
      result := Filter(result, Test(TextHas(filters.search)));
      cs := cs + [TextHas(filters.search)];
    }
    assert c0 == (if filters.category != "" then [CategoryIs(filters.category)] else []);
    assert c1 == c0 + (if filters.minPrice != "" then [PriceAtLeast(ParseNumber(filters.minPrice))] else []);
    assert c2 == c1 + (if filters.maxPrice != "" then [PriceAtMost(ParseNumber(filters.maxPrice))] else []);
    assert c3 == c2 + (if filters.location != "" then [LocationHas(filters.location)] else []);
    assert cs == c3 + (if filters.search != "" then [TextHas(filters.search)] else []);
    assert cs == ActiveCriteria(filters);
  }

  /** The filtering and sorting effect. It works on a copy, so the page's
      `listings` state is never changed. The result holds exactly the
      matching listings with their multiplicities, ordered by the key when
      `sortBy` names one (ties keep collection order), in collection order
      otherwise. */
  method FilterAndSort(listings: seq<Listing>, filters: Filters, sortBy: string)
    returns (result: seq<Listing>)
    ensures forall l :: multiset(result)[l] == if Matches(filters, l) then multiset(listings)[l] else 0
    ensures forall l :: l in result ==> Matches(filters, l)
    ensures !HasActiveFilters(filters) ==> multiset(result) == multiset(listings)
    ensures SortKeyOf(sortBy).None? ==> result == Select(listings, filters)
    ensures SortKeyOf(sortBy).Some? ==> SortedBy(result, SortKeyOf(sortBy).value)
    ensures SortKeyOf(sortBy).Some? ==>
      forall v :: Ties(result, SortKeyOf(sortBy).value, v) == Ties(Select(listings, filters), SortKeyOf(sortBy).value, v)
  {
    var selected := ApplyFilters(listings, filters);
    result := selected;
    var key := SortKeyOf(sortBy);
    if key.Some? {
      result := StableSort(selected, key.value);
    }
    assert multiset(result) == multiset(selected);
    forall l ensures multiset(result)[l] == if Matches(filters, l) then multiset(listings)[l] else 0 {
      SelectCounts(listings, filters, l);
    }
    forall l | l in result ensures Matches(filters, l) {
      assert multiset(result)[l] > 0;
    }
    if !HasActiveFilters(filters) {
      SelectInactive(listings, filters);
    }
  }

  /** The page's initial criteria: the `category` query parameter, if any. */
  function InitialFilters(categoryParam: Option<string>): (f: Filters)
    ensures f.minPrice == "" && f.maxPrice == "" && f.location == "" && f.search == ""
    ensures categoryParam.None? ==> !HasActiveFilters(f)
    ensures categoryParam.Some? ==> f.category == categoryParam.value
  {
    Filters(if categoryParam.Some? then categoryParam.value else "", "", "", "", "")
  }

  // ---------------------------------------------------------------------------
  // A worked case

  function PricedAt(id: string, price: int): Listing
  {
    Listing(id, "", "", price, "", None, "", [], "", "", "", 0, 0, None, NoExtension)
  }

  /** A minimum price of "200" over prices 100, 500 and 1000 keeps the two
      listings priced 500 and 1000, in their original order. */
  lemma MinPriceExample()
    ensures Select([PricedAt("a", 100), PricedAt("b", 500), PricedAt("c", 1000)],
                   Filters("", "200", "", "", ""))
         == [PricedAt("b", 500), PricedAt("c", 1000)]
  {
    var f := Filters("", "200", "", "", "");
    assert AllDigits("200");
    assert "200"[..2] == "20" && "20"[..1] == "2" && "2"[..0] == "";
    assert DigitsValue("200") == 200;
    assert ParseNumber("200") == Some(200.0);
    var cs := [PriceAtLeast(Some(200.0))];
    assert ActiveCriteria(f) == cs;
    var s := [PricedAt("a", 100), PricedAt("b", 500), PricedAt("c", 1000)];
    var p := AllTest(cs);
    forall l ensures p(l) == (l.price >= 200) {
      AllHoldAtMostOne(cs, l);
    }
    assert s[1..] == [PricedAt("b", 500), PricedAt("c", 1000)];
    assert s[1..][1..] == [PricedAt("c", 1000)];
    assert Filter(s[1..][1..], p) == [PricedAt("c", 1000)];
    assert Filter(s[1..], p) == [PricedAt("b", 500), PricedAt("c", 1000)];
    assert Filter(s, p) == Filter(s[1..], p);
  }
}
