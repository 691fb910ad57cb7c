/** The records the dashboard receives from the API (the fields the modelled
    components read), and the outcome of an API call. */
module Models {
  import opened Js

  datatype Role = ROOT | ADMIN | MANAGER

  /** The admin record attached to a user who is staff. */
  datatype Admin = Admin(userId: int, role: Role)

  datatype User = User(
    id: int,
    firstName: string,
    lastName: string,
    telegramId: Option<string>,
    vkId: Option<string>,
    admin: Option<Admin>,
    isBanned: bool)

  /** A ticket; its status is the string the server sent ('AVAILABLE',
      'RESERVED', 'SOLD', 'USED', or anything else). */
  datatype Ticket = Ticket(id: int, status: string)

  datatype TicketType = TicketType(id: int, eventId: int, name: string, price: real, tickets: seq<Ticket>)

  /** An event with its organizer and category names resolved; dates are
      millisecond timestamps. */
  datatype Event = Event(
    id: int,
    name: string,
    organizerName: string,
    categoryName: string,
    location: string,
    startDate: int,
    endDate: int,
    posterUrl: Option<string>,
    ticketTypes: seq<TicketType>)

  /** The outcome of an API request: a successful response body, or an error
      with the HTTP status (absent when no response arrived) and the
      `message` field of the error body, if any. */
  datatype ApiResult<+T> = Ok(data: T) | Err(status: Option<int>, message: Option<string>)
}
