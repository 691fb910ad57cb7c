/** The filter state of the events list, kept in local storage under
    'event-filters'. */
module UseEventFilters {
  import opened Js

  const StorageKey: string := "event-filters"

  datatype Filters = Filters(
    search: string,
    organizer: string,
    category: string,
    location: string,
    sort: string,
    futureOnly: bool,
    page: int)

  /** `defaultFilters` */
  const Default: Filters := Filters("", "", "", "", "soonest", true, 1)

  /** A `Partial<Filters>`: the fields the update names. */
  datatype FiltersUpdate = FiltersUpdate(
    search: Option<string>,
    organizer: Option<string>,
    category: Option<string>,
    location: Option<string>,
    sort: Option<string>,
    futureOnly: Option<bool>,
    page: Option<int>)

  /** Every field set, as `onChange(local)` passes a whole `Filters`. */
  function Whole(f: Filters): (u: FiltersUpdate)
    ensures u.search.Some? && u.organizer.Some? && u.category.Some? && u.location.Some?
            && u.sort.Some? && u.futureOnly.Some? && u.page.Some?
  {
    FiltersUpdate(Some(f.search), Some(f.organizer), Some(f.category), Some(f.location),
                  Some(f.sort), Some(f.futureOnly), Some(f.page))
  }

  /** `{ ...prev, ...updates, page: 1 }` */
  function Merge(prev: Filters, u: FiltersUpdate): (r: Filters)
    // the fields the update names are taken from it, the others kept
    ensures u.search.Some? ==> r.search == u.search.value
    ensures u.search.None? ==> r.search == prev.search
    ensures u.organizer.Some? ==> r.organizer == u.organizer.value
    ensures u.organizer.None? ==> r.organizer == prev.organizer
    ensures u.category.Some? ==> r.category == u.category.value
    ensures u.category.None? ==> r.category == prev.category
    ensures u.location.Some? ==> r.location == u.location.value
    ensures u.location.None? ==> r.location == prev.location
    ensures u.sort.Some? ==> r.sort == u.sort.value
    ensures u.sort.None? ==> r.sort == prev.sort
    ensures u.futureOnly.Some? ==> r.futureOnly == u.futureOnly.value
    ensures u.futureOnly.None? ==> r.futureOnly == prev.futureOnly
    // whatever page the update carries, the list goes back to page 1
    ensures r.page == 1
  {
    Filters(OrElse(u.search, prev.search), OrElse(u.organizer, prev.organizer),
            OrElse(u.category, prev.category), OrElse(u.location, prev.location),
            OrElse(u.sort, prev.sort), OrElse(u.futureOnly, prev.futureOnly), 1)
  }

  /** Applying the same update twice is applying it once. */
  lemma MergeIdempotent(prev: Filters, u: FiltersUpdate)
    ensures Merge(Merge(prev, u), u) == Merge(prev, u)
  {
  }

  /** Applying a whole filter set yields that set on page 1, whatever came before. */
  lemma MergeWhole(prev: Filters, f: Filters)
    ensures Merge(prev, Whole(f)) == f.(page := 1)
  {
  }

  /** `{ ...prev, page }` */
  function WithPage(prev: Filters, page: int): (r: Filters)
    ensures r.page == page && r.(page := prev.page) == prev
  {
    prev.(page := page)
  }

  /** The initial state: what is saved under 'event-filters', else the defaults. */
  function Initial(storage: map<string, Filters>): (r: Filters)
    ensures StorageKey in storage ==> r == storage[StorageKey]
    ensures StorageKey !in storage ==> r == Default
  {
    if StorageKey in storage then storage[StorageKey] else Default
  }

  /** The hook's state and the storage slot it mirrors. */
  class EventFiltersStore {
    var filters: Filters
    var storage: map<string, Filters>

    /** Mounting reads the slot, and the effect writes the state back. */
    constructor (initialStorage: map<string, Filters>)
      ensures filters == Initial(initialStorage)
      ensures storage == initialStorage[StorageKey := filters]
    {
      filters := Initial(initialStorage);
      storage := initialStorage[StorageKey := Initial(initialStorage)];
    }

    /** The slot always holds the current filters. */
    predicate Persisted()
      reads this
    {
      StorageKey in storage && storage[StorageKey] == filters
    }

    /** `update(updates)`, followed by the write-back effect. */
    method Update(u: FiltersUpdate)
      modifies this
      ensures filters == Merge(old(filters), u)
      ensures storage == old(storage)[StorageKey := filters]
      ensures Persisted()
    {
      filters := Merge(filters, u);
      storage := storage[StorageKey := filters];
    }

    /** `reset()`: back to exactly the defaults. */
    method Reset()
      modifies this
      ensures filters == Default
      ensures storage == old(storage)[StorageKey := filters]
      ensures Persisted()
    {
      filters := Default;
      storage := storage[StorageKey := filters];
    }

    /** `goToPage(page)`: only the page changes. */
    method GoToPage(page: int)
      modifies this
      ensures filters == WithPage(old(filters), page)
      ensures storage == old(storage)[StorageKey := filters]
      ensures Persisted()
    {
      filters := WithPage(filters, page);
      storage := storage[StorageKey := filters];
    }
  }

  /** A page reload after any change starts from the state it left. */
  lemma ReloadRestores(storage: map<string, Filters>, f: Filters)
    ensures Initial(storage[StorageKey := f]) == f
  {
  }
}
