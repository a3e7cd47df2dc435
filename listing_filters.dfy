/** The sidebar's filter record and its operations
    (components/listing-filters.tsx). Every field is the text of an input;
    "" means the criterion is off. */
module ListingFilters {

  datatype Filters = Filters(
    category: string,
    minPrice: string,
    maxPrice: string,
    location: string,
    search: string)

  /** The five keys `handleFilterChange` is called with. */
  datatype FilterKey = CategoryKey | MinPriceKey | MaxPriceKey | LocationKey | SearchKey

  function Get(f: Filters, k: FilterKey): string
  {
    match k
    case CategoryKey => f.category
    case MinPriceKey => f.minPrice
    case MaxPriceKey => f.maxPrice
    case LocationKey => f.location
    case SearchKey => f.search
  }

  /** `{ ...filters, [key]: value }`: only the named field changes. */
  function HandleFilterChange(f: Filters, k: FilterKey, value: string): (r: Filters)
    ensures Get(r, k) == value
    ensures forall k' :: k' != k ==> Get(r, k') == Get(f, k')
  {
    match k
    case CategoryKey => f.(category := value)
    case MinPriceKey => f.(minPrice := value)
    case MaxPriceKey => f.(maxPrice := value)
    case LocationKey => f.(location := value)
    case SearchKey => f.(search := value)
  }

  /** The record `clearFilters` hands back: every field empty. */
  function ClearFilters(): (r: Filters)
    ensures forall k :: Get(r, k) == ""
  {
    Filters("", "", "", "", "")
  }

  /** `hasActiveFilters`: the disjunction of the five fields' truthiness. */
  predicate HasActiveFilters(f: Filters)
  {
    f.category != "" || f.minPrice != "" || f.maxPrice != "" || f.location != "" || f.search != ""
  }

  /** A filter record is active exactly when some field is non-empty. */
  lemma HasActiveFiltersIff(f: Filters)
    ensures HasActiveFilters(f) <==> exists k :: Get(f, k) != ""
  {
    if HasActiveFilters(f) {
      if f.category != "" { assert Get(f, CategoryKey) != ""; }
      else if f.minPrice != "" { assert Get(f, MinPriceKey) != ""; }
      else if f.maxPrice != "" { assert Get(f, MaxPriceKey) != ""; }
      else if f.location != "" { assert Get(f, LocationKey) != ""; }
      else { assert Get(f, SearchKey) != ""; }
    }
  }

  /** Right after clearing, no filter is active, and every record that has
      no active filter is the cleared record. */
  lemma ClearedIsInactive(f: Filters)
    ensures !HasActiveFilters(ClearFilters())
    ensures !HasActiveFilters(f) <==> f == ClearFilters()
  {
  }

  /** Setting a field to the value it already holds changes nothing. */
  lemma ChangeToSameValue(f: Filters, k: FilterKey)
    ensures HandleFilterChange(f, k, Get(f, k)) == f
  {
  }
}
