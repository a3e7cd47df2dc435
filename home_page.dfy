/** The home page (app/page.tsx): the seeding effect that fills an empty
    store with the sample collection, and the three views derived from the
    page's listings (featured, recent, gaming). The sample collection of
    lib/data is not part of this model; it is a parameter. */
module HomePage {
  import opened SeqUtil
  import opened Types
  import opened Storage

  const FeaturedCount := 3
  const RecentCount := 6
  const GamingCount := 3

  /** `s.slice(0, n)` for n >= 0: the first n elements, or all of them. */
  function Take<T>(s: seq<T>, n: nat): (r: seq<T>)
    ensures |r| == Min(n, |s|)
    ensures forall i :: 0 <= i < |r| ==> r[i] == s[i]
  {
    if n <= |s| then s[..n] else s
  }

  /** `l.isFeatured` is truthy only when present and true. */
  function Featured(): Listing -> bool { (l: Listing) => l.isFeatured == Some(true) }

  function InCategory(c: string): Listing -> bool { (l: Listing) => l.category == c }

  function FeaturedListings(listings: seq<Listing>): seq<Listing>
  {
    Take(Filter(listings, Featured()), FeaturedCount)
  }

  function RecentListings(listings: seq<Listing>): seq<Listing>
  {
    Take(listings, RecentCount)
  }

  function GamingListings(listings: seq<Listing>): seq<Listing>
  {
    Take(Filter(listings, InCategory("gaming")), GamingCount)
  }

  /** The gaming section is rendered when its list is non-empty. */
  predicate ShowGaming(listings: seq<Listing>)
  {
    |GamingListings(listings)| > 0
  }

  /** Featured is the first at most three featured listings, in collection
      order: a prefix of the featured ones, of length min(3, their count). */
  lemma FeaturedIsFirstFeatured(listings: seq<Listing>)
    ensures var f := Filter(listings, Featured());
      && |FeaturedListings(listings)| == Min(FeaturedCount, |f|)
      && FeaturedListings(listings) == f[..|FeaturedListings(listings)|]
      && forall l :: l in FeaturedListings(listings) ==> l in listings && l.isFeatured == Some(true)
  {
    var f := Filter(listings, Featured());
    forall l | l in FeaturedListings(listings) ensures l in listings && l.isFeatured == Some(true) {
      FilterSound(listings, Featured(), l);
    }
  }

  /** Recent is the first min(6, n) listings. */
  lemma RecentIsPrefix(listings: seq<Listing>)
    ensures |RecentListings(listings)| == Min(RecentCount, |listings|)
    ensures RecentListings(listings) == listings[..|RecentListings(listings)|]
  {
  }

  /** Gaming is the first at most three listings of category "gaming", in
      collection order, and the section shows exactly when some stored
      listing is in that category. */
  lemma GamingIsFirstGaming(listings: seq<Listing>)
    ensures var g := Filter(listings, InCategory("gaming"));
      && |GamingListings(listings)| == Min(GamingCount, |g|)
      && GamingListings(listings) == g[..|GamingListings(listings)|]
      && forall l :: l in GamingListings(listings) ==> l in listings && l.category == "gaming"
    ensures ShowGaming(listings) <==> exists i :: 0 <= i < |listings| && listings[i].category == "gaming"
  {
    var g := Filter(listings, InCategory("gaming"));
    forall l | l in GamingListings(listings) ensures l in listings && l.category == "gaming" {
      FilterSound(listings, InCategory("gaming"), l);
    }
    FilterEmptyIff(listings, InCategory("gaming"));
  }

  /** The page's state. */
  class Home {
    var listings: seq<Listing>

    constructor ()
      ensures listings == []
    {
      listings := [];
    }

    /** The seeding effect: an empty store receives the sample collection,
        which the page shows; otherwise the page shows the stored collection
        and the store is not written. */
    method Seed(store: Store, sample: seq<Listing>)
      requires store.Valid()
      modifies this, store
      ensures store.Valid()
      ensures old(store.StoredListings()) == [] ==>
        && listings == sample
        && (store.inBrowser ==> store.entries == old(store.entries)[ListingsKey := ListingsEntry(sample)])
        && (!store.inBrowser ==> store.entries == old(store.entries))
      ensures old(store.StoredListings()) != [] ==>
        listings == old(store.StoredListings()) && store.entries == old(store.entries)
      ensures store.inBrowser ==> store.StoredListings() == listings
    {
      var stored := store.GetListings();
      if |stored| == 0 {
        store.SetListings(sample);
        listings := sample;
      } else {
        listings := stored;
      }
    }
  }

  /** After seeding an empty store in a browser, a second visit finds the
      sample and writes nothing. */
  method SeedTwice(store: Store, sample: seq<Listing>)
    requires store.Valid() && store.inBrowser && store.StoredListings() == [] && sample != []
    modifies store
  {
    var home := new Home();
    home.Seed(store, sample);
    var entries := store.entries;
    var again := new Home();
    again.Seed(store, sample);
    assert again.listings == sample && store.entries == entries;
  }
}
