/** The filter panel of the events list: the choices offered in its selects
    and the edits it holds until they are applied. */
module EventFilters {
  import opened Models
  import opened Text
  import opened UseEventFilters

  /** Strictly increasing by code units, hence without repetitions. */
  predicate StrictlySorted(s: seq<string>)
  {
    forall i, j :: 0 <= i < j < |s| ==> Compare(s[i], s[j]) < 0
  }

  /** Adds x to a strictly sorted list unless it is already there. */
  function InsertUnique(x: string, s: seq<string>): (r: seq<string>)
    requires StrictlySorted(s)
    ensures StrictlySorted(r)
    ensures forall y :: y in r <==> y == x || y in s
  {
    if s == [] then [x]
    else
      var c := Compare(x, s[0]);
      CompareZero(x, s[0]);
      if c == 0 then s
      else if c < 0 then
        forall j | 0 < j < |s|
          ensures Compare(x, s[j]) < 0
        {
          StrictCompareTransitive(x, s[0], s[j]);
        }
        Prepend(x, s);
        [x] + s
      else
        var tail := InsertUnique(x, s[1..]);
        CompareAntisymmetric(x, s[0]);
        forall j | 0 <= j < |tail|
          ensures Compare(s[0], tail[j]) < 0
        {
          assert tail[j] in tail;
          if tail[j] != x {
            var k :| 0 <= k < |s[1..]| && s[1..][k] == tail[j];
            assert s[k + 1] == tail[j];
          }
        }
        Prepend(s[0], tail);
        assert s == [s[0]] + s[1..];
        [s[0]] + tail
  }

  lemma Prepend(y: string, t: seq<string>)
    requires StrictlySorted(t)
    requires forall j :: 0 <= j < |t| ==> Compare(y, t[j]) < 0
    ensures StrictlySorted([y] + t)
  {
    var r := [y] + t;
    forall i, j | 0 <= i < j < |r|
      ensures Compare(r[i], r[j]) < 0
    {
      assert r[j] == t[j - 1];
      if i > 0 { assert r[i] == t[i - 1]; }
    }
  }

  /** `Array.from(new Set(values)).sort()` */
  function Options(values: seq<string>): (r: seq<string>)
    ensures StrictlySorted(r)
    ensures forall y :: y in r <==> y in values
  {
    if values == [] then []
    else
      assert forall y :: y in values <==> y == values[0] || y in values[1..];
      InsertUnique(values[0], Options(values[1..]))
  }

  /** The values offered appear once each. */
  lemma OptionsOnce(values: seq<string>, i: nat, j: nat)
    requires i < j < |Options(values)|
    ensures Options(values)[i] != Options(values)[j]
  {
    CompareZero(Options(values)[i], Options(values)[j]);
  }

  function OrganizerNames(events: seq<Event>): (r: seq<string>)
    ensures |r| == |events| && forall i :: 0 <= i < |events| ==> r[i] == events[i].organizerName
  {
    seq(|events|, i requires 0 <= i < |events| => events[i].organizerName)
  }

  function CategoryNames(events: seq<Event>): (r: seq<string>)
    ensures |r| == |events| && forall i :: 0 <= i < |events| ==> r[i] == events[i].categoryName
  {
    seq(|events|, i requires 0 <= i < |events| => events[i].categoryName)
  }

  function Locations(events: seq<Event>): (r: seq<string>)
    ensures |r| == |events| && forall i :: 0 <= i < |events| ==> r[i] == events[i].location
  {
    seq(|events|, i requires 0 <= i < |events| => events[i].location)
  }

  /** The organizer select offers exactly the organizers of the loaded
      events, sorted, each once; likewise categories and locations. */
  lemma OrganizerOptions(events: seq<Event>, name: string)
    ensures name in Options(OrganizerNames(events)) <==> exists e :: e in events && e.organizerName == name
  {
    var names := OrganizerNames(events);
    if name in names {
      var i :| 0 <= i < |names| && names[i] == name;
      assert events[i] in events;
    }
  }

  lemma CategoryOptions(events: seq<Event>, name: string)
    ensures name in Options(CategoryNames(events)) <==> exists e :: e in events && e.categoryName == name
  {
    var names := CategoryNames(events);
    if name in names {
      var i :| 0 <= i < |names| && names[i] == name;
      assert events[i] in events;
    }
  }

  lemma LocationOptions(events: seq<Event>, location: string)
    ensures location in Options(Locations(events)) <==> exists e :: e in events && e.location == location
  {
    var names := Locations(events);
    if location in names {
      var i :| 0 <= i < |names| && names[i] == location;
      assert events[i] in events;
    }
  }

  /** The panel's local copy of the filters. */
  class FilterPanel {
    var local: Filters

    /** The copy starts as the applied filters. */
    constructor (applied: Filters)
      ensures local == applied
    {
      local := applied;
    }

    /** An edit in one of the controls (`setLocal({ ...local, field: value })`):
        the applied filters are not touched, and the page is kept. */
    method Edit(u: FiltersUpdate)
      modifies this
      ensures local.search == (if u.search.Some? then u.search.value else old(local).search)
      ensures local.organizer == (if u.organizer.Some? then u.organizer.value else old(local).organizer)
      ensures local.category == (if u.category.Some? then u.category.value else old(local).category)
      ensures local.location == (if u.location.Some? then u.location.value else old(local).location)
      ensures local.sort == (if u.sort.Some? then u.sort.value else old(local).sort)
      ensures local.futureOnly == (if u.futureOnly.Some? then u.futureOnly.value else old(local).futureOnly)
      ensures local.page == old(local).page
    {
      local := Merge(local, u).(page := local.page);
    }

    /** The effect on `filters`: a new applied state replaces the local copy. */
    method Sync(applied: Filters)
      modifies this
      ensures local == applied
    {
      local := applied;
    }

    /** `handleApply`: the local copy goes to `onChange` as it is. */
    method Apply() returns (passed: Filters)
      ensures passed == local
    {
      passed := local;
    }
  }

  /** Applying the panel and then the hook's update gives exactly the panel's
      choices, on page 1. */
  lemma ApplyThenUpdate(prev: Filters, local: Filters)
    ensures Merge(prev, Whole(local)) == local.(page := 1)
  {
    MergeWhole(prev, local);
  }
}
