/** The compact event card of an organizer's page. */
module ShortEventCard {
  import opened Js
  import opened Models
  import EventCard

  /** This card's own copy of `getEventStatus`. */
  function GetEventStatus(e: Event, now: int, dayOf: int -> int): (s: string)
    ensures s == "ПРОШЛО" <==> e.endDate < now
    ensures s == "СЕГОДНЯ" <==>
              e.endDate >= now && (dayOf(e.startDate) == dayOf(now) || (e.startDate < now && e.endDate > now))
    ensures s == "СКОРО" <==>
              e.endDate >= now && dayOf(e.startDate) != dayOf(now) && !(e.startDate < now && e.endDate > now)
  {
    if e.endDate < now then "ПРОШЛО"
    else if dayOf(e.startDate) == dayOf(now) || (e.startDate < now && e.endDate > now) then "СЕГОДНЯ"
    else "СКОРО"
  }

  /** The two copies agree on every event and every instant. */
  lemma SameAsEventCard(e: Event, now: int, dayOf: int -> int)
    ensures GetEventStatus(e, now, dayOf) == EventCard.GetEventStatus(e, now, dayOf)
  {
  }

  /** `hasPoster = !!event.posterUrl` */
  function HasPoster(e: Event): (b: bool)
    ensures b <==> e.posterUrl.Some? && e.posterUrl.value != ""
  {
    Present(e.posterUrl)
  }
}
