/** The status badge of an event card. */
module EventCard {
  import opened Models

  const Past: string := "ПРОШЛО"
  const Today: string := "СЕГОДНЯ"
  const Soon: string := "СКОРО"

  /** `getEventStatus(event)` at time `now`; `dayOf` maps a timestamp to its
      calendar day (the `toDateString` comparison). */
  function GetEventStatus(e: Event, now: int, dayOf: int -> int): (s: string)
    ensures s == Past || s == Today || s == Soon
    // an event that has ended is past, whatever else holds
    ensures s == Past <==> e.endDate < now
    ensures s == Today <==>
              e.endDate >= now && (dayOf(e.startDate) == dayOf(now) || (e.startDate < now && e.endDate > now))
    ensures s == Soon <==>
              e.endDate >= now && dayOf(e.startDate) != dayOf(now) && !(e.startDate < now && e.endDate > now)
  {
    if e.endDate < now then Past
    else if dayOf(e.startDate) == dayOf(now) || (e.startDate < now && e.endDate > now) then Today
    else Soon
  }

  /** The boundary: an event ending at this very instant that began on an
      earlier day is neither past nor in progress, so it shows as coming soon. */
  lemma EndingNowShowsSoon(e: Event, now: int, dayOf: int -> int)
    requires e.endDate == now && e.startDate < now && dayOf(e.startDate) != dayOf(now)
    ensures GetEventStatus(e, now, dayOf) == Soon
  {
  }

  /** An event in progress is shown as today's, whichever day it began. */
  lemma InProgressShowsToday(e: Event, now: int, dayOf: int -> int)
    requires e.startDate < now < e.endDate
    ensures GetEventStatus(e, now, dayOf) == Today
  {
  }
}
