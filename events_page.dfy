/** The events list: the filter chain, the ordering, and the page shown. */
module EventsPage {
  import opened Js
  import opened Models
  import opened Text
  import opened UseEventFilters

  const PerPage: int := 6

  /** The five filters of the chain, in order. */
  predicate NameMatches(e: Event, f: Filters)
  {
    Contains(ToLower(e.name), ToLower(f.search))
  }

  predicate OrganizerMatches(e: Event, f: Filters)
  {
    f.organizer != "" ==> e.organizerName == f.organizer
  }

  predicate CategoryMatches(e: Event, f: Filters)
  {
    f.category != "" ==> e.categoryName == f.category
  }

  predicate LocationMatches(e: Event, f: Filters)
  {
    f.location != "" ==> e.location == f.location
  }

  /** With `futureOnly`, events that have already ended are hidden. */
  predicate NotEnded(e: Event, f: Filters, now: int)
  {
    f.futureOnly ==> e.endDate >= now
  }

  predicate Keep(e: Event, f: Filters, now: int)
  {
    NameMatches(e, f) && OrganizerMatches(e, f) && CategoryMatches(e, f)
    && LocationMatches(e, f) && NotEnded(e, f, now)
  }

  /** The filter chain: the events passing all five filters, in their order. */
  function Select(events: seq<Event>, f: Filters, now: int): (r: seq<Event>)
    ensures IsSubsequence(r, events)
    ensures forall i :: 0 <= i < |r| ==> Keep(r[i], f, now)
    ensures forall e :: e in events && Keep(e, f, now) ==> e in r
  {
    if events == [] then []
    else
      var rest := Select(events[1..], f, now);
      assert events == [events[0]] + events[1..];
      if Keep(events[0], f, now) then [events[0]] + rest
      else
        SubsequenceConsSkip(rest, events[0], events[1..]);
        rest
  }

  /** The sort comparator: negative when a goes first. "az" and "za" compare
      names, "latest" puts later starts first, and "soonest" and any other
      value put earlier starts first. */
  function Cmp(sort: string, a: Event, b: Event): int
  {
    match sort
    case "az" => Compare(a.name, b.name)
    case "za" => Compare(b.name, a.name)
    case "latest" => b.startDate - a.startDate
    case _ => a.startDate - b.startDate
  }

  /** "za" is "az" reversed, and "latest" is "soonest" reversed. */
  lemma {:induction false} CmpAntisymmetric(sort: string, a: Event, b: Event)
    ensures Cmp(sort, a, b) == -Cmp(sort, b, a)
    ensures Cmp("za", a, b) == -Cmp("az", a, b) && Cmp("latest", a, b) == -Cmp("soonest", a, b)
  {
    CompareAntisymmetric(a.name, b.name);
  }

  lemma CmpTransitive(sort: string, a: Event, b: Event, c: Event)
    requires Cmp(sort, a, b) <= 0 && Cmp(sort, b, c) <= 0
    ensures Cmp(sort, a, c) <= 0
  {
    if sort == "az" {
      CompareTransitive(a.name, b.name, c.name);
    } else if sort == "za" {
      CompareTransitive(c.name, b.name, a.name);
    }
  }

  predicate SortedBy(sort: string, s: seq<Event>)
  {
    forall i, j :: 0 <= i < j < |s| ==> Cmp(sort, s[i], s[j]) <= 0
  }

  /** Putting y in front of a sorted list keeps it sorted when y goes before all of it. */
  lemma ConsSorted(sort: string, y: Event, t: seq<Event>)
    requires SortedBy(sort, t)
    requires forall j :: 0 <= j < |t| ==> Cmp(sort, y, t[j]) <= 0
    ensures SortedBy(sort, [y] + t)
  {
    var r := [y] + t;
    forall i, j | 0 <= i < j < |r|
      ensures Cmp(sort, r[i], r[j]) <= 0
    {
      assert r[j] == t[j - 1];
      if i > 0 { assert r[i] == t[i - 1]; }
    }
  }

  /** An element that goes before the head of a sorted list goes before all of it. */
  lemma BeforeHead(sort: string, x: Event, s: seq<Event>)
    requires SortedBy(sort, s) && s != [] && Cmp(sort, x, s[0]) <= 0
    ensures forall j :: 0 <= j < |s| ==> Cmp(sort, x, s[j]) <= 0
  {
    forall j | 0 < j < |s|
      ensures Cmp(sort, x, s[j]) <= 0
    {
      CmpTransitive(sort, x, s[0], s[j]);
    }
  }

  /** The head of a sorted list goes before x inserted into its tail. */
  lemma HeadBeforeInserted(sort: string, x: Event, s: seq<Event>, tail: seq<Event>)
    requires SortedBy(sort, s) && s != [] && Cmp(sort, x, s[0]) > 0
    requires multiset(tail) == multiset(s[1..]) + multiset{x}
    ensures forall j :: 0 <= j < |tail| ==> Cmp(sort, s[0], tail[j]) <= 0
  {
    CmpAntisymmetric(sort, x, s[0]);
    forall j | 0 <= j < |tail|
      ensures Cmp(sort, s[0], tail[j]) <= 0
    {
      assert tail[j] in multiset(tail);
      if tail[j] != x {
        assert tail[j] in multiset(s[1..]);
        var k :| 0 <= k < |s[1..]| && s[1..][k] == tail[j];
        assert s[k + 1] == tail[j];
      }
    }
  }

  /** Inserting x in front of the first element it does not follow. */
  function Insert(sort: string, x: Event, s: seq<Event>): (r: seq<Event>)
    requires SortedBy(sort, s)
    ensures SortedBy(sort, r)
    ensures multiset(r) == multiset(s) + multiset{x}
  {
    if s == [] then [x]
    else if Cmp(sort, x, s[0]) <= 0 then
      BeforeHead(sort, x, s);
      ConsSorted(sort, x, s);
      [x] + s
    else
      var tail := Insert(sort, x, s[1..]);
      HeadBeforeInserted(sort, x, s, tail);
      ConsSorted(sort, s[0], tail);
      assert s == [s[0]] + s[1..];
      [s[0]] + tail
  }

  /** `.sort(comparator)`: an insertion sort, which like the engine's sort keeps
      equal events in their original order. */
  function Sort(sort: string, s: seq<Event>): (r: seq<Event>)
    ensures SortedBy(sort, r)
    ensures multiset(r) == multiset(s)
  {
    if s == [] then []
    else
      assert s == [s[0]] + s[1..];
      Insert(sort, s[0], Sort(sort, s[1..]))
  }

  /** `filtered`: nothing before the events have loaded. */
  function Filtered(events: Option<seq<Event>>, f: Filters, now: int): (r: seq<Event>)
    ensures events.None? ==> r == []
    ensures SortedBy(f.sort, r)
    ensures forall i :: 0 <= i < |r| ==> Keep(r[i], f, now)
    ensures events.Some? ==> forall e :: e in events.value && Keep(e, f, now) ==> e in r
    ensures events.Some? ==> multiset(r) <= multiset(events.value)
    ensures events.Some? ==> multiset(r) == multiset(Select(events.value, f, now))
  {
    match events
    case None => []
    case Some(es) =>
      var sel := Select(es, f, now);
      var r := Sort(f.sort, sel);
      forall i | 0 <= i < |r|
        ensures Keep(r[i], f, now)
      {
        assert r[i] in multiset(sel);
      }
      forall e | e in es && Keep(e, f, now)
        ensures e in r
      {
        assert e in multiset(sel);
      }
      SubsequenceMultiset(sel, es);
      r
  }

  /** A subsequence takes no element more often than the sequence has it. */
  lemma {:induction false} SubsequenceMultiset(a: seq<Event>, b: seq<Event>)
    requires IsSubsequence(a, b)
    ensures multiset(a) <= multiset(b)
    decreases |b|
  {
    if a == [] {
    } else {
      assert b == [b[0]] + b[1..];
      if a[0] == b[0] {
        assert a == [a[0]] + a[1..];
        SubsequenceMultiset(a[1..], b[1..]);
      } else {
        SubsequenceMultiset(a, b[1..]);
      }
    }
  }

  /** `paged`: `filtered.slice((page - 1) * 6, page * 6)`. */
  function Paged(filtered: seq<Event>, page: int): (r: seq<Event>)
    ensures |r| <= PerPage
    ensures page >= 1 && (page - 1) * PerPage <= |filtered| ==>
              r == filtered[(page - 1) * PerPage .. if page * PerPage <= |filtered| then page * PerPage else |filtered|]
    ensures page >= 1 && (page - 1) * PerPage >= |filtered| ==> r == []
  {
    Slice(filtered, (page - 1) * PerPage, page * PerPage)
  }

  /** `totalPages`: `Math.ceil(filtered.length / 6)`. */
  function TotalPages(count: nat): (r: nat)
    ensures r * PerPage >= count && (r - 1) * PerPage < count
    ensures r == 0 <==> count == 0
    ensures r > 1 <==> count > PerPage
  {
    CeilDiv(count, PerPage)
  }

  /** Each listed event is on exactly the page its position says, and that
      page has a button. */
  lemma PageOfIndex(filtered: seq<Event>, k: nat)
    requires k < |filtered|
    ensures 1 <= k / PerPage + 1 <= TotalPages(|filtered|)
    ensures k % PerPage < |Paged(filtered, k / PerPage + 1)|
    ensures Paged(filtered, k / PerPage + 1)[k % PerPage] == filtered[k]
  {
    var p := k / PerPage + 1;
    assert (p - 1) * PerPage <= k < p * PerPage;
  }
}
