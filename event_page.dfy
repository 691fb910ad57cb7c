/** The ticket counters of an event's page. */
module EventPage {
  import opened Models

  const AvailableStatus: string := "AVAILABLE"

  /** `tickets.filter(t => t.status === "AVAILABLE")` */
  function AvailableOf(tickets: seq<Ticket>): (r: seq<Ticket>)
    ensures |r| <= |tickets|
    ensures forall i :: 0 <= i < |r| ==> r[i].status == AvailableStatus
    ensures multiset(r) <= multiset(tickets)
  {
    if tickets == [] then []
    else
      assert tickets == [tickets[0]] + tickets[1..];
      if tickets[0].status == AvailableStatus then [tickets[0]] + AvailableOf(tickets[1..])
      else AvailableOf(tickets[1..])
  }

  /** How many tickets are in any other status. */
  function NotAvailableCount(tickets: seq<Ticket>): nat
  {
    if tickets == [] then 0
    else (if tickets[0].status != AvailableStatus then 1 else 0) + NotAvailableCount(tickets[1..])
  }

  /** Every ticket is either available or counted as not available. */
  lemma {:induction false} AvailableSplit(tickets: seq<Ticket>)
    ensures |AvailableOf(tickets)| + NotAvailableCount(tickets) == |tickets|
  {
    if tickets != [] {
      AvailableSplit(tickets[1..]);
    }
  }

  /** Per ticket type: `total` and `available`. */
  function TypeTotal(t: TicketType): nat
  {
    |t.tickets|
  }

  function TypeAvailable(t: TicketType): (n: nat)
    ensures n <= TypeTotal(t)
  {
    |AvailableOf(t.tickets)|
  }

  /** `ticketTypes.reduce((sum, type) => sum + type.tickets.length, acc)` */
  function FoldTotal(types: seq<TicketType>, acc: int): int
  {
    if types == [] then acc else FoldTotal(types[1..], acc + |types[0].tickets|)
  }

  /** `ticketTypes.reduce((sum, type) => sum + <available in type>, acc)` */
  function FoldAvailable(types: seq<TicketType>, acc: int): int
  {
    if types == [] then acc else FoldAvailable(types[1..], acc + |AvailableOf(types[0].tickets)|)
  }

  /** `totalTickets`: the tickets of every type. */
  function TotalTickets(types: seq<TicketType>): (n: int)
    ensures n == SumTotals(types)
  {
    FoldTotalIsSum(types, 0);
    FoldTotal(types, 0)
  }

  /** `availableTickets`: the AVAILABLE tickets of every type. */
  function AvailableTickets(types: seq<TicketType>): (n: int)
    ensures n == SumAvailable(types)
  {
    FoldAvailableIsSum(types, 0);
    FoldAvailable(types, 0)
  }

  /** `soldTickets = totalTickets - availableTickets`: the tickets in any
      status other than AVAILABLE. */
  function SoldTickets(types: seq<TicketType>): (n: int)
    ensures 0 <= n == SumNotAvailable(types)
  {
    SumsSplit(types);
    TotalTickets(types) - AvailableTickets(types)
  }

  /** The sums over ticket types, written independently of the folds. */
  function SumTotals(types: seq<TicketType>): nat
  {
    if types == [] then 0 else TypeTotal(types[0]) + SumTotals(types[1..])
  }

  function SumAvailable(types: seq<TicketType>): nat
  {
    if types == [] then 0 else TypeAvailable(types[0]) + SumAvailable(types[1..])
  }

  function SumNotAvailable(types: seq<TicketType>): nat
  {
    if types == [] then 0 else NotAvailableCount(types[0].tickets) + SumNotAvailable(types[1..])
  }

  lemma {:induction false} FoldTotalIsSum(types: seq<TicketType>, acc: int)
    ensures FoldTotal(types, acc) == acc + SumTotals(types)
  {
    if types != [] {
      FoldTotalIsSum(types[1..], acc + |types[0].tickets|);
    }
  }

  lemma {:induction false} FoldAvailableIsSum(types: seq<TicketType>, acc: int)
    ensures FoldAvailable(types, acc) == acc + SumAvailable(types)
  {
    if types != [] {
      FoldAvailableIsSum(types[1..], acc + |AvailableOf(types[0].tickets)|);
    }
  }

  lemma {:induction false} SumsSplit(types: seq<TicketType>)
    ensures SumAvailable(types) + SumNotAvailable(types) == SumTotals(types)
  {
    if types != [] {
      AvailableSplit(types[0].tickets);
      SumsSplit(types[1..]);
    }
  }

  /** The headline counters: the total is the sum of the per-type totals, the
      available count the sum of the per-type available counts, and the sold
      count is never negative and counts every ticket in a status other than
      AVAILABLE. */
  lemma Counters(types: seq<TicketType>)
    ensures TotalTickets(types) == SumTotals(types)
    ensures AvailableTickets(types) == SumAvailable(types)
    ensures 0 <= SoldTickets(types) == SumNotAvailable(types)
    ensures AvailableTickets(types) <= TotalTickets(types)
  {
    FoldTotalIsSum(types, 0);
    FoldAvailableIsSum(types, 0);
    SumsSplit(types);
  }
}
