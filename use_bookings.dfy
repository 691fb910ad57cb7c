/** The filter state and the fetched page of the bookings list. */
module UseBookings {
  import opened Js

  datatype BookingFilters = BookingFilters(search: string, eventId: string, status: string, page: int, perPage: int)

  /** The initial filters, which `resetFilters` also restores. */
  const Initial: BookingFilters := BookingFilters("", "", "", 1, 20)

  /** A `Partial<BookingFilters>` */
  datatype FiltersUpdate = FiltersUpdate(
    search: Option<string>, eventId: Option<string>, status: Option<string>,
    page: Option<int>, perPage: Option<int>)

  /** `{ ...prev, ...newFilters, page: 1 }` */
  function Merge(prev: BookingFilters, u: FiltersUpdate): (r: BookingFilters)
    ensures r.search == (if u.search.Some? then u.search.value else prev.search)
    ensures r.eventId == (if u.eventId.Some? then u.eventId.value else prev.eventId)
    ensures r.status == (if u.status.Some? then u.status.value else prev.status)
    ensures r.perPage == (if u.perPage.Some? then u.perPage.value else prev.perPage)
    ensures r.page == 1
  {
    BookingFilters(OrElse(u.search, prev.search), OrElse(u.eventId, prev.eventId),
                   OrElse(u.status, prev.status), 1, OrElse(u.perPage, prev.perPage))
  }

  /** Applying the same update twice is applying it once. */
  lemma MergeIdempotent(prev: BookingFilters, u: FiltersUpdate)
    ensures Merge(Merge(prev, u), u) == Merge(prev, u)
  {
  }

  /** The response of the bookings request. */
  datatype BookingsResponse<B> = BookingsResponse(bookings: seq<B>, total: int)

  /** `data?.bookings ?? []` and `data?.total ?? 0` */
  function Bookings<B>(data: Option<BookingsResponse<B>>): (r: seq<B>)
    ensures data.None? ==> r == []
    ensures data.Some? ==> r == data.value.bookings
  {
    match data
    case None => []
    case Some(d) => d.bookings
  }

  function Total<B>(data: Option<BookingsResponse<B>>): (r: int)
    ensures data.None? ==> r == 0
    ensures data.Some? ==> r == data.value.total
  {
    match data
    case None => 0
    case Some(d) => d.total
  }

  class BookingsState {
    var filters: BookingFilters

    constructor ()
      ensures filters == Initial
    {
      filters := Initial;
    }

    /** `updateFilters(newFilters)` */
    method UpdateFilters(u: FiltersUpdate)
      modifies this
      ensures filters == Merge(old(filters), u)
    {
      filters := Merge(filters, u);
    }

    /** `resetFilters()` */
    method ResetFilters()
      modifies this
      ensures filters == Initial
    {
      filters := BookingFilters("", "", "", 1, 20);
    }

    /** `goToPage(page)`: only the page changes. */
    method GoToPage(page: int)
      modifies this
      ensures filters == old(filters).(page := page)
    {
      filters := filters.(page := page);
    }
  }
}
