/** The bookings page: the join that assembles one booking for the edit
    modal, the page and page size read from the URL, and the status-change
    and search handlers. */
module BookingsPage {
  import opened Js
  import opened Models
  import opened Text
  import Pagination

  datatype BookingTicket = BookingTicket(id: int, status: string, ticketTypeId: int)

  datatype Booking = Booking(id: int, userId: int, status: string, tickets: seq<BookingTicket>)

  datatype EventRef = EventRef(id: int, name: string)

  datatype TicketTypeRef = TicketTypeRef(id: int, name: string, eventId: int)

  datatype UserRef = UserRef(id: int, firstName: string, lastName: string)

  /** The body of a bookings response: one page of bookings with the total,
      and the events, ticket types and users they refer to. */
  datatype BookingsResponse = BookingsResponse(
    items: seq<Booking>,
    total: int,
    events: seq<EventRef>,
    ticketTypes: seq<TicketTypeRef>,
    users: seq<UserRef>)

  /** A ticket together with its ticket type and that type's event. */
  datatype JoinedTicket = JoinedTicket(ticket: BookingTicket, ticketType: TicketTypeRef, event: EventRef)

  /** What the edit modal shows: the booking's fields, its joined tickets and its user. */
  datatype BookingData = BookingData(id: int, userId: int, status: string, tickets: seq<JoinedTicket>, user: UserRef)

  function BookingId(b: Booking): int { b.id }
  function UserId(u: UserRef): int { u.id }
  function TicketTypeId(t: TicketTypeRef): int { t.id }
  function EventId(e: EventRef): int { e.id }

  /** The ticket type a ticket names: the first one with its id. */
  function TypeOf(data: BookingsResponse, t: BookingTicket): Option<TicketTypeRef>
  {
    Find(data.ticketTypes, t.ticketTypeId, TicketTypeId)
  }

  /** One step of the `tickets.map`: the ticket with its type and event, or
      nothing when either is missing. */
  function JoinTicket(data: BookingsResponse, t: BookingTicket): (r: Option<JoinedTicket>)
    ensures r.Some? <==>
              TypeOf(data, t).Some? && Find(data.events, TypeOf(data, t).value.eventId, EventId).Some?
    ensures r.Some? ==> r.value.ticket == t && r.value.ticketType.id == t.ticketTypeId
                        && r.value.event.id == r.value.ticketType.eventId
    ensures r.Some? ==> r.value.ticketType == TypeOf(data, t).value
                        && r.value.event == Find(data.events, r.value.ticketType.eventId, EventId).value
  {
    match TypeOf(data, t)
    case None => None
    case Some(tt) =>
      match Find(data.events, tt.eventId, EventId)
      case None => None
      case Some(e) => Some(JoinedTicket(t, tt, e))
  }

  /** The plain tickets of a list of joined tickets. */
  function TicketsOf(js: seq<JoinedTicket>): (r: seq<BookingTicket>)
    ensures |r| == |js|
    ensures forall i :: 0 <= i < |js| ==> r[i] == js[i].ticket
  {
    if js == [] then [] else [js[0].ticket] + TicketsOf(js[1..])
  }

  /** The joined tickets of a booking: the tickets whose type and event are
      both present, in their original order, each with its type and event. */
  function JoinTickets(data: BookingsResponse, ts: seq<BookingTicket>): (r: seq<JoinedTicket>)
    ensures IsSubsequence(TicketsOf(r), ts)
    ensures forall j :: 0 <= j < |r| ==> JoinTicket(data, r[j].ticket) == Some(r[j])
    ensures forall i :: 0 <= i < |ts| && JoinTicket(data, ts[i]).Some? ==> JoinTicket(data, ts[i]).value in r
  {
    if ts == [] then []
    else
      var rest := JoinTickets(data, ts[1..]);
      assert ts == [ts[0]] + ts[1..];
      assert forall i :: 1 <= i < |ts| ==> ts[i] == ts[1..][i - 1];
      match JoinTicket(data, ts[0])
      case None =>
        SubsequenceConsSkip(TicketsOf(rest), ts[0], ts[1..]);
        rest
      case Some(j) =>
        assert TicketsOf([j] + rest) == [ts[0]] + TicketsOf(rest);
        assert ([ts[0]] + TicketsOf(rest))[1..] == TicketsOf(rest);
        [j] + rest
  }

  /** A ticket is dropped exactly when its type or its event is missing. */
  lemma DroppedTickets(data: BookingsResponse, ts: seq<BookingTicket>, t: BookingTicket)
    requires t in ts
    ensures t in TicketsOf(JoinTickets(data, ts)) <==> JoinTicket(data, t).Some?
  {
    var r := JoinTickets(data, ts);
    if t in TicketsOf(r) {
      var j :| 0 <= j < |r| && TicketsOf(r)[j] == t;
      assert JoinTicket(data, r[j].ticket) == Some(r[j]);
    }
  }

  /** `tickets.map(...)`, the list with a hole wherever a ticket is dropped. */
  function MappedTickets(data: BookingsResponse, ts: seq<BookingTicket>): (r: seq<Option<JoinedTicket>>)
    ensures |r| == |ts| && forall i :: 0 <= i < |ts| ==> r[i] == JoinTicket(data, ts[i])
  {
    seq(|ts|, i requires 0 <= i < |ts| => JoinTicket(data, ts[i]))
  }

  /** The recursive join is the source's map followed by the filter on undefined. */
  lemma {:induction false} JoinTicketsIsMapFilter(data: BookingsResponse, ts: seq<BookingTicket>)
    ensures JoinTickets(data, ts) == Somes(MappedTickets(data, ts))
  {
    if ts != [] {
      JoinTicketsIsMapFilter(data, ts[1..]);
      assert MappedTickets(data, ts)[1..] == MappedTickets(data, ts[1..]);
    }
  }

  /** `makeBookingDataForModal(bookingsData, bookingId)` */
  function MakeBookingData(data: BookingsResponse, bookingId: int): (r: Option<BookingData>)
    ensures Find(data.items, bookingId, BookingId).None? ==> r.None?
    ensures r.Some? <==>
              Find(data.items, bookingId, BookingId).Some?
              && Find(data.users, Find(data.items, bookingId, BookingId).value.userId, UserId).Some?
    ensures r.Some? ==>
              var b := Find(data.items, bookingId, BookingId).value;
              r.value.id == bookingId && r.value.userId == b.userId && r.value.status == b.status
              && r.value.user == Find(data.users, b.userId, UserId).value && r.value.user.id == b.userId
              && r.value.tickets == JoinTickets(data, b.tickets)
  {
    match Find(data.items, bookingId, BookingId)
    case None => None
    case Some(b) =>
      match Find(data.users, b.userId, UserId)
      case None => None
      case Some(u) => Some(BookingData(b.id, b.userId, b.status, JoinTickets(data, b.tickets), u))
  }

  // ----- URL search parameters -----

  /** The query string as an ordered list of key/value pairs. */
  type Params = seq<(string, string)>

  /** `params.get(key)`: the first value under `key`. */
  function Get(ps: Params, key: string): (r: Option<string>)
    ensures r.None? <==> forall i :: 0 <= i < |ps| ==> ps[i].0 != key
    ensures r.Some? ==> (key, r.value) in ps
    ensures r.Some? ==> KeyIndex(ps, key).Some? && r.value == ps[KeyIndex(ps, key).value].1
  {
    if ps == [] then None
    else if ps[0].0 == key then Some(ps[0].1)
    else
      assert forall i :: 1 <= i < |ps| ==> ps[i] == ps[1..][i - 1];
      Get(ps[1..], key)
  }

  /** The position of the first pair under `key`. */
  function KeyIndex(ps: Params, key: string): (r: Option<nat>)
    ensures r.Some? ==> r.value < |ps| && ps[r.value].0 == key
                        && forall k :: 0 <= k < r.value ==> ps[k].0 != key
    ensures r.None? <==> forall k :: 0 <= k < |ps| ==> ps[k].0 != key
  {
    if ps == [] then None
    else if ps[0].0 == key then Some(0)
    else match KeyIndex(ps[1..], key)
      case None => None
      case Some(i) => Some(i + 1)
  }

  /** The pairs not under `key`, in order. */
  function Without(ps: Params, key: string): (r: Params)
    ensures forall i :: 0 <= i < |r| ==> r[i].0 != key
    ensures IsSubsequence(r, ps)
  {
    if ps == [] then []
    else
      var rest := Without(ps[1..], key);
      assert ps == [ps[0]] + ps[1..];
      if ps[0].0 == key then
        SubsequenceConsSkip(rest, ps[0], ps[1..]);
        rest
      else [ps[0]] + rest
  }

  /** `params.set(key, value)`: the first pair under `key` takes the value and
      the later ones go; with none, the pair is appended. */
  function Set(ps: Params, key: string, value: string): (r: Params)
    ensures (key, value) in r
  {
    match KeyIndex(ps, key)
    case None => ps + [(key, value)]
    case Some(i) => ps[..i] + [(key, value)] + Without(ps[i + 1..], key)
  }

  lemma {:induction false} WithoutAppend(a: Params, b: Params, key: string)
    ensures Without(a + b, key) == Without(a, key) + Without(b, key)
  {
    if a == [] {
      assert a + b == b;
    } else {
      assert (a + b)[1..] == a[1..] + b;
      WithoutAppend(a[1..], b, key);
    }
  }

  lemma {:induction false} WithoutAbsent(ps: Params, key: string)
    requires forall i :: 0 <= i < |ps| ==> ps[i].0 != key
    ensures Without(ps, key) == ps
  {
    if ps != [] {
      WithoutAbsent(ps[1..], key);
    }
  }

  lemma {:induction false} GetSkipsAbsent(a: Params, b: Params, key: string)
    requires forall i :: 0 <= i < |a| ==> a[i].0 != key
    ensures Get(a + b, key) == Get(b, key)
  {
    if a == [] {
      assert a + b == b;
    } else {
      assert (a + b)[1..] == a[1..] + b;
      GetSkipsAbsent(a[1..], b, key);
    }
  }

  /** Removing one key does not change what another key reads. */
  lemma {:induction false} GetWithout(ps: Params, key: string, other: string)
    requires other != key
    ensures Get(Without(ps, key), other) == Get(ps, other)
  {
    if ps != [] {
      GetWithout(ps[1..], key, other);
    }
  }

  /** After `set`, the key reads the new value. */
  lemma GetSet(ps: Params, key: string, value: string)
    ensures Get(Set(ps, key, value), key) == Some(value)
  {
    match KeyIndex(ps, key)
    case None =>
      GetSkipsAbsent(ps, [(key, value)], key);
    case Some(i) =>
      assert ps[..i] + [(key, value)] + Without(ps[i + 1..], key)
          == ps[..i] + ([(key, value)] + Without(ps[i + 1..], key));
      GetSkipsAbsent(ps[..i], [(key, value)] + Without(ps[i + 1..], key), key);
  }

  /** `set` leaves every other pair where it was: removing the key from the
      result gives what removing it from the original gives. */
  lemma SetKeepsOthers(ps: Params, key: string, value: string)
    ensures Without(Set(ps, key, value), key) == Without(ps, key)
  {
    match KeyIndex(ps, key)
    case None =>
      WithoutAppend(ps, [(key, value)], key);
    case Some(i) =>
      var rest := Without(ps[i + 1..], key);
      assert ps == ps[..i] + [ps[i]] + ps[i + 1..];
      WithoutAppend(ps[..i] + [ps[i]], ps[i + 1..], key);
      WithoutAppend(ps[..i], [ps[i]], key);
      WithoutAppend(ps[..i] + [(key, value)], rest, key);
      WithoutAppend(ps[..i], [(key, value)], key);
      WithoutAbsent(rest, key);
  }

  /** `set` changes no other key's value. */
  lemma SetKeepsOtherValues(ps: Params, key: string, value: string, other: string)
    requires other != key
    ensures Get(Set(ps, key, value), other) == Get(ps, other)
  {
    SetKeepsOthers(ps, key, value);
    GetWithout(Set(ps, key, value), key, other);
    GetWithout(ps, key, other);
  }

  // ----- filters from the URL -----

  /** The filters the page derives from its URL: page and page size are
      `Number(...)` of the parameters, 1 and 20 when absent. */
  datatype BookingFilters = BookingFilters(search: string, eventId: string, status: string, page: Number, perPage: Number)

  function NumberParam(ps: Params, key: string, default: int): (n: Number)
    ensures Get(ps, key).None? ==> n == Finite(default)
    ensures Get(ps, key).Some? ==> n == ParseNumber(Get(ps, key).value)
  {
    match Get(ps, key)
    case None => Finite(default)
    case Some(s) => ParseNumber(s)
  }

  function FiltersOf(ps: Params): (f: BookingFilters)
    ensures f.search == "" && f.eventId == "" && f.status == ""
    ensures Get(ps, "page").None? ==> f.page == Finite(1)
    ensures Get(ps, "page").Some? ==> f.page == ParseNumber(Get(ps, "page").value)
    ensures Get(ps, "perPage").None? ==> f.perPage == Finite(20)
    ensures Get(ps, "perPage").Some? ==> f.perPage == ParseNumber(Get(ps, "perPage").value)
  {
    BookingFilters("", "", "", NumberParam(ps, "page", 1), NumberParam(ps, "perPage", 20))
  }

  /** `goToPage(page)`: the URL with its page parameter set to `String(page)`. */
  function WithPage(ps: Params, page: int): (r: Params)
    ensures Get(r, "page") == Some(IntToString(page))
    ensures Without(r, "page") == Without(ps, "page")
  {
    GetSet(ps, "page", IntToString(page));
    SetKeepsOthers(ps, "page", IntToString(page));
    Set(ps, "page", IntToString(page))
  }

  /** Going to a page and reading the filters back gives that page and the
      same page size, and no other parameter moves. */
  lemma GoToPageRoundTrip(ps: Params, page: int)
    ensures FiltersOf(WithPage(ps, page)).page == Finite(page)
    ensures FiltersOf(WithPage(ps, page)).perPage == FiltersOf(ps).perPage
    ensures Without(WithPage(ps, page), "page") == Without(ps, "page")
  {
    GetSet(ps, "page", IntToString(page));
    ParseNumberToString(page);
    SetKeepsOtherValues(ps, "page", IntToString(page), "perPage");
    SetKeepsOthers(ps, "page", IntToString(page));
  }

  /** `bookings.total > filters.perPage && !isMobile`; a NaN page size compares false. */
  predicate ShowPagination(total: int, perPage: Number, isMobile: bool)
  {
    perPage.Finite? && total > perPage.value && !isMobile
  }

  /** Whenever the page shows the pagination with a positive page size,
      the component draws its buttons. */
  lemma ShownPaginationRenders(total: int, perPage: int, page: int)
    requires perPage > 0 && ShowPagination(total, Finite(perPage), false)
    ensures Pagination.Buttons(total, perPage, page).Some?
  {
    Pagination.RendersOnlyForSeveralPages(total, perPage, page);
  }

  // ----- handlers -----

  const StatusUpdated: string := "Статус брони обновлен"
  const StatusUpdateFailed: string := "Ошибка при обновлении статуса"
  const BookingNotFound: string := "Бронирование не найдено"

  datatype Toast = ToastSuccess(text: string) | ToastError(text: string)

  class BookingsPageState {
    var params: Params
    var updatingId: Option<int>
    var searchId: string
    var searchedBooking: Option<BookingData>

    constructor (initialParams: Params)
      ensures params == initialParams && updatingId == None && searchId == "" && searchedBooking == None
    {
      params := initialParams;
      updatingId := None;
      searchId := "";
      searchedBooking := None;
    }

    function Filters(): BookingFilters
      reads this
    {
      FiltersOf(params)
    }

    /** `goToPage(page)`; what the filters read afterwards is `GoToPageRoundTrip`. */
    method GoToPage(page: int)
      modifies this
      ensures params == WithPage(old(params), page)
      ensures updatingId == old(updatingId) && searchId == old(searchId) && searchedBooking == old(searchedBooking)
    {
      params := WithPage(params, page);
    }

    method SetSearchId(text: string)
      modifies this
      ensures searchId == text
      ensures params == old(params) && updatingId == old(updatingId) && searchedBooking == old(searchedBooking)
    {
      searchId := text;
    }

    /** `handleStatusChange(bookingId, status)` once the PATCH request has
        completed with `response`. The searched booking is rebuilt from the
        response; an error reply shows its message or the default text; a
        failure without any reply makes the handler throw before any toast.
        Either way `updatingId` ends cleared. */
    method HandleStatusChange(bookingId: int, response: ApiResult<BookingsResponse>) returns (toast: Option<Toast>)
      modifies this
      ensures updatingId == None
      ensures response.Ok? ==>
                searchedBooking == MakeBookingData(response.data, bookingId) && toast == Some(ToastSuccess(StatusUpdated))
      ensures response.Err? ==> searchedBooking == old(searchedBooking)
      ensures response.Err? && response.status.None? ==> toast == None
      ensures response.Err? && response.status.Some? ==>
                toast == Some(ToastError(OrElse(response.message, StatusUpdateFailed)))
      ensures params == old(params) && searchId == old(searchId)
    {
      updatingId := Some(bookingId);
      match response {
        case Ok(data) =>
          searchedBooking := MakeBookingData(data, bookingId);
          toast := Some(ToastSuccess(StatusUpdated));
        case Err(status, message) =>
          if status.Some? {
            toast := Some(ToastError(OrElse(message, StatusUpdateFailed)));
          } else {
            toast := None;
          }
      }
      updatingId := None;
    }

    /** `handleSearch()` with the lookup's outcome `response`. Returns the id
        that was requested, if any: none for an empty field or a number not
        above zero; a field that is not a number is sent as NaN, which no
        booking id equals. */
    method HandleSearch(response: ApiResult<BookingsResponse>) returns (requested: Option<Number>, toast: Option<Toast>)
      modifies this
      ensures searchId == "" ==> requested == None && toast == None && searchedBooking == None
      ensures (searchId != "" && ParseNumber(searchId).Finite? && ParseNumber(searchId).value <= 0) ==>
                requested == None && toast == None && searchedBooking == None
      ensures requested.Some? <==>
                searchId != "" && !(ParseNumber(searchId).Finite? && ParseNumber(searchId).value <= 0)
      ensures requested.Some? ==> requested.value == ParseNumber(searchId)
      ensures requested.Some? && response.Ok? ==>
                toast == None
                && searchedBooking == (if requested.value.Finite?
                                       then MakeBookingData(response.data, requested.value.value) else None)
      ensures requested.Some? && response.Err? ==> toast == Some(ToastError(BookingNotFound)) && searchedBooking == None
      ensures params == old(params) && updatingId == old(updatingId) && searchId == old(searchId)
    {
      searchedBooking := None;
      requested, toast := None, None;
      if searchId == "" {
        return;
      }
      var bookingId := ParseNumber(searchId);
      if bookingId.Finite? && bookingId.value <= 0 {
        return;
      }
      requested := Some(bookingId);
      match response {
        case Ok(data) =>
          if bookingId.Finite? {
            searchedBooking := MakeBookingData(data, bookingId.value);
          }
        case Err(_, _) =>
          toast := Some(ToastError(BookingNotFound));
      }
    }
  }
}
