/** The action log page: a list that loads page by page, by infinite scroll
    or by jumping to a page, filtered by five text fields. */
module LogsPage {
  import opened Js
  import opened Models
  import opened Text

  datatype ActionLog = ActionLog(id: int, actorId: int, action: string, targetType: string, targetId: int)

  /** The five filter fields, in the order the query lists them. */
  datatype LogFilters = LogFilters(actorId: string, action: string, targetType: string, from: string, to: string)

  const NoFilters: LogFilters := LogFilters("", "", "", "", "")

  datatype FilterField = ActorId | Action | TargetType | From | To

  /** `Object.entries(filters)` */
  function Entries(f: LogFilters): (r: seq<(string, string)>)
    ensures |r| == 5
  {
    [("actorId", f.actorId), ("action", f.action), ("targetType", f.targetType), ("from", f.from), ("to", f.to)]
  }

  /** The entries whose value is non-empty, in order. */
  function NonEmpty(entries: seq<(string, string)>): (r: seq<(string, string)>)
    ensures IsSubsequence(r, entries)
    ensures forall i :: 0 <= i < |r| ==> r[i].1 != ""
    ensures forall e :: e in entries && e.1 != "" ==> e in r
  {
    if entries == [] then []
    else
      var rest := NonEmpty(entries[1..]);
      assert entries == [entries[0]] + entries[1..];
      if entries[0].1 != "" then [entries[0]] + rest
      else
        SubsequenceConsSkip(rest, entries[0], entries[1..]);
        rest
  }

  lemma {:induction false} NonEmptySnoc(entries: seq<(string, string)>, e: (string, string))
    ensures NonEmpty(entries + [e]) == NonEmpty(entries) + (if e.1 != "" then [e] else [])
  {
    if entries == [] {
      assert entries + [e] == [e];
      assert [e][1..] == [];
    } else {
      assert (entries + [e])[1..] == entries[1..] + [e];
      NonEmptySnoc(entries[1..], e);
    }
  }

  /** The query string's parameters: the non-empty filters, then `page`, then `pageSize`. */
  function Query(f: LogFilters, page: int, pageSize: int): seq<(string, string)>
  {
    NonEmpty(Entries(f)) + [("page", IntToString(page)), ("pageSize", IntToString(pageSize))]
  }

  /** The query lists the non-empty filters, in the order actorId, action,
      targetType, from, to, and then the page and the page size. */
  lemma QueryContents(f: LogFilters, page: int, pageSize: int)
    ensures var r := Query(f, page, pageSize);
            |r| >= 2 && r[|r| - 2] == ("page", IntToString(page)) && r[|r| - 1] == ("pageSize", IntToString(pageSize))
            && IsSubsequence(r[..|r| - 2], Entries(f))
            && (forall i :: 0 <= i < |r| - 2 ==> r[i].1 != "")
            && (forall e :: e in Entries(f) && e.1 != "" ==> e in r[..|r| - 2])
  {
    var q := NonEmpty(Entries(f));
    assert Query(f, page, pageSize)[..|q|] == q;
  }

  /** The `URLSearchParams` loop of `fetchLogs`. */
  method BuildQuery(f: LogFilters, page: int, pageSize: int) returns (params: seq<(string, string)>)
    ensures params == Query(f, page, pageSize)
  {
    var entries := Entries(f);
    params := [];
    var i := 0;
    while i < |entries|
      invariant 0 <= i <= |entries|
      invariant params == NonEmpty(entries[..i])
    {
      var (key, value) := entries[i];
      NonEmptySnoc(entries[..i], entries[i]);
      assert entries[..i + 1] == entries[..i] + [entries[i]];
      if value != "" {
        params := params + [(key, value)];
      }
      i := i + 1;
    }
    assert entries[..i] == entries;
    params := params + [("page", IntToString(page))];
    params := params + [("pageSize", IntToString(pageSize))];
  }

  /** A request that has been sent: its query, the page it loads, and
      whether the batch replaces the list or extends it. */
  datatype LogsRequest = LogsRequest(query: seq<(string, string)>, page: int, replace: bool)

  datatype LogsBatch = LogsBatch(logs: seq<ActionLog>, total: int)

  class LogsState {
    var logs: seq<ActionLog>
    var total: int
    var page: int
    var pageSize: int
    var loading: bool
    var hasMore: bool
    var manualPage: string
    var filters: LogFilters
    /** The filters of the render whose `handleIntersect` the scroll observer
        holds. The effect that attaches the observer depends on `[logs, loading]`
        only, so it is re-attached, with that render's filters, when a load
        starts or ends, and not when a filter is typed. */
    var observerFilters: LogFilters

    /** The page's initial state, before the mount effect's first load. */
    constructor ()
      ensures logs == [] && total == 0 && page == 1 && pageSize == 20
      ensures !loading && hasMore && manualPage == "" && filters == NoFilters
      ensures observerFilters == NoFilters
    {
      logs := [];
      total := 0;
      page := 1;
      pageSize := 20;
      loading := false;
      hasMore := true;
      manualPage := "";
      filters := NoFilters;
      observerFilters := NoFilters;
    }

    /** The first half of `fetchLogs(pageToLoad, replace)` as seen by a
        handler whose render saw the filters `seen`: nothing while a load is
        in flight, otherwise the request is sent and `loading` is set. */
    method BeginFetchWith(seen: LogFilters, pageToLoad: int, replace: bool) returns (sent: Option<LogsRequest>)
      modifies this
      ensures old(loading) ==> sent == None && loading
      ensures !old(loading) ==>
                sent == Some(LogsRequest(Query(seen, pageToLoad, pageSize), pageToLoad, replace)) && loading
      ensures logs == old(logs) && total == old(total) && page == old(page) && pageSize == old(pageSize)
      ensures hasMore == old(hasMore) && manualPage == old(manualPage) && filters == old(filters)
      // `loading` turning true re-attaches the observer with the current filters
      ensures observerFilters == if old(loading) then old(observerFilters) else filters
    {
      if loading {
        return None;
      }
      loading := true;
      observerFilters := filters;
      var query := BuildQuery(seen, pageToLoad, pageSize);
      sent := Some(LogsRequest(query, pageToLoad, replace));
    }

    /** `fetchLogs(pageToLoad, replace)` with the current filters. */
    method BeginFetch(pageToLoad: int, replace: bool) returns (sent: Option<LogsRequest>)
      modifies this
      ensures old(loading) ==> sent == None && loading
      ensures !old(loading) ==>
                sent == Some(LogsRequest(Query(filters, pageToLoad, pageSize), pageToLoad, replace)) && loading
      ensures logs == old(logs) && total == old(total) && page == old(page) && pageSize == old(pageSize)
      ensures hasMore == old(hasMore) && manualPage == old(manualPage) && filters == old(filters)
      ensures observerFilters == if old(loading) then old(observerFilters) else filters
    {
      sent := BeginFetchWith(filters, pageToLoad, replace);
    }

    /** The second half of `fetchLogs`: the request `req` has completed with `response`. */
    method CompleteFetch(req: LogsRequest, response: ApiResult<LogsBatch>)
      modifies this
      ensures !loading
      ensures response.Ok? ==>
                logs == (if req.replace then response.data.logs else old(logs) + response.data.logs)
                && total == response.data.total && page == req.page
                && (hasMore <==> |response.data.logs| == pageSize)
      // a failed load changes nothing but `loading`
      ensures response.Err? ==>
                logs == old(logs) && total == old(total) && page == old(page) && hasMore == old(hasMore)
      ensures pageSize == old(pageSize) && manualPage == old(manualPage) && filters == old(filters)
      // a new `logs` array or `loading` turning false re-attaches the observer
      ensures observerFilters == if old(loading) || response.Ok? then filters else old(observerFilters)
    {
      match response {
        case Ok(batch) =>
          if req.replace {
            logs := batch.logs;
          } else {
            logs := logs + batch.logs;
          }
          total := batch.total;
          page := req.page;
          hasMore := |batch.logs| == pageSize;
        case Err(_, _) =>
      }
      if loading || response.Ok? {
        observerFilters := filters;
      }
      loading := false;
    }

    /** `handleInputChange`: one filter field takes the typed value. */
    method SetFilter(field: FilterField, value: string)
      modifies this
      ensures filters == match field
                case ActorId => old(filters).(actorId := value)
                case Action => old(filters).(action := value)
                case TargetType => old(filters).(targetType := value)
                case From => old(filters).(from := value)
                case To => old(filters).(to := value)
      ensures logs == old(logs) && total == old(total) && page == old(page) && pageSize == old(pageSize)
      ensures loading == old(loading) && hasMore == old(hasMore) && manualPage == old(manualPage)
      // typing re-renders the page but does not re-attach the observer
      ensures observerFilters == old(observerFilters)
    {
      match field
      case ActorId => filters := filters.(actorId := value);
      case Action => filters := filters.(action := value);
      case TargetType => filters := filters.(targetType := value);
      case From => filters := filters.(from := value);
      case To => filters := filters.(to := value);
    }

    method SetManualPage(text: string)
      modifies this
      ensures manualPage == text
      ensures logs == old(logs) && total == old(total) && page == old(page) && pageSize == old(pageSize)
      ensures loading == old(loading) && hasMore == old(hasMore) && filters == old(filters)
      ensures observerFilters == old(observerFilters)
    {
      manualPage := text;
    }

    /** `handleApply`: reload from page 1 with the filters as typed. */
    method HandleApply() returns (sent: Option<LogsRequest>)
      modifies this
      ensures !old(loading) ==> sent == Some(LogsRequest(Query(filters, 1, pageSize), 1, true))
      ensures old(loading) ==> sent == None
      ensures logs == old(logs) && page == old(page) && pageSize == old(pageSize) && filters == old(filters)
      ensures sent.Some? ==> loading
      ensures sent.None? ==> loading == old(loading)
      ensures total == old(total) && hasMore == old(hasMore) && manualPage == old(manualPage)
      ensures observerFilters == if sent.Some? then filters else old(observerFilters)
    {
      sent := BeginFetch(1, true);
    }

    /** `handleIntersect`, as held by the scroll observer: scrolling to the
        end loads the next page, appended, when there is more and nothing is
        loading. Its `fetchLogs` builds the query from the filters of the
        render that attached the observer, not from filters typed since. */
    method HandleIntersect(isIntersecting: bool) returns (sent: Option<LogsRequest>)
      modifies this
      ensures sent.Some? <==> isIntersecting && old(hasMore) && !old(loading)
      ensures sent.Some? ==>
                sent.value == LogsRequest(Query(old(observerFilters), old(page) + 1, pageSize), old(page) + 1, false)
      ensures logs == old(logs) && page == old(page) && pageSize == old(pageSize) && filters == old(filters)
      ensures sent.Some? ==> loading
      ensures sent.None? ==> loading == old(loading)
      ensures total == old(total) && hasMore == old(hasMore) && manualPage == old(manualPage)
      ensures observerFilters == if sent.Some? then filters else old(observerFilters)
    {
      sent := None;
      if isIntersecting && hasMore && !loading {
        sent := BeginFetchWith(observerFilters, page + 1, false);
      }
    }

    /** `handlePageJump`: a typed page number between 1 and the last page
        loads that page in place of the list. */
    method HandlePageJump() returns (sent: Option<LogsRequest>)
      requires pageSize > 0
      modifies this
      ensures logs == old(logs) && page == old(page) && pageSize == old(pageSize) && filters == old(filters)
      ensures sent.Some? <==>
                ParseInt(manualPage).Finite? && 1 <= ParseInt(manualPage).value <= CeilDiv(total, pageSize)
                && !old(loading)
      ensures sent.Some? ==>
                sent.value == LogsRequest(Query(filters, ParseInt(manualPage).value, pageSize),
                                          ParseInt(manualPage).value, true)
      ensures sent.Some? ==> loading
      ensures sent.None? ==> loading == old(loading)
      ensures total == old(total) && hasMore == old(hasMore) && manualPage == old(manualPage)
      ensures observerFilters == if sent.Some? then filters else old(observerFilters)
    {
      sent := None;
      var num := ParseInt(manualPage);
      if num.Finite? && num.value > 0 && num.value <= CeilDiv(total, pageSize) {
        sent := BeginFetch(num.value, true);
      }
    }

    /** `handleReset` as written: the filters are cleared, but the reload
        runs in the same handler and so still builds its query from the
        filters that handler's render saw, which are the old ones. */
    method HandleResetAsWritten() returns (sent: Option<LogsRequest>)
      modifies this
      ensures filters == NoFilters
      ensures !old(loading) ==> sent == Some(LogsRequest(Query(old(filters), 1, pageSize), 1, true))
      ensures old(loading) ==> sent == None
      ensures loading
      ensures logs == old(logs) && total == old(total) && page == old(page) && pageSize == old(pageSize)
      ensures hasMore == old(hasMore) && manualPage == old(manualPage)
      ensures observerFilters == if old(loading) then old(observerFilters) else NoFilters
    {
      var seen := filters;
      filters := NoFilters;
      sent := BeginFetchWith(seen, 1, true);
    }

    /** `handleReset` as intended: clear all five filters and reload page 1,
        replacing the list, with no filter in the query. */
    method HandleReset() returns (sent: Option<LogsRequest>)
      modifies this
      ensures filters == NoFilters
      ensures !old(loading) ==> sent == Some(LogsRequest(Query(NoFilters, 1, pageSize), 1, true))
      ensures old(loading) ==> sent == None
      ensures loading
      ensures logs == old(logs) && total == old(total) && page == old(page) && pageSize == old(pageSize)
      ensures hasMore == old(hasMore) && manualPage == old(manualPage)
      ensures observerFilters == if old(loading) then old(observerFilters) else NoFilters
    {
      filters := NoFilters;
      sent := BeginFetchWith(NoFilters, 1, true);
    }
  }

  /** A full page of 20 log entries. */
  function FullPage(): (r: seq<ActionLog>)
    ensures |r| == 20
  {
    seq(20, i => ActionLog(i, 0, "", "", 0))
  }

  /** The stale scroll: after the first page has loaded unfiltered, the actor
      id "7" is typed and the list is scrolled to its end. The next page is
      requested without `actorId` (the observer still holds the unfiltered
      render), while Apply from the same state would send it. */
  method StaleScrollIgnoresTypedFilter() returns (scrolled: Option<LogsRequest>, applied: Option<LogsRequest>)
    ensures scrolled.Some? && ("actorId", "7") !in scrolled.value.query
    ensures scrolled.value.query == Query(NoFilters, 2, 20)
    ensures applied.Some? && ("actorId", "7") in applied.value.query
  {
    var a := new LogsState();
    var first := a.BeginFetch(1, true);
    a.CompleteFetch(first.value, Ok(LogsBatch(FullPage(), 100)));
    a.SetFilter(ActorId, "7");
    var b := new LogsState();
    var firstB := b.BeginFetch(1, true);
    b.CompleteFetch(firstB.value, Ok(LogsBatch(FullPage(), 100)));
    b.SetFilter(ActorId, "7");
    scrolled := a.HandleIntersect(true);
    applied := b.HandleApply();
    ResetQueryHasNoFilters(20);
    assert IntToString(2) == "2";
    QueryContents(LogFilters("7", "", "", "", ""), 1, 20);
    assert ("actorId", "7") in Entries(LogFilters("7", "", "", "", ""));
  }

  /** After a reset the intended query carries only the paging parameters. */
  lemma ResetQueryHasNoFilters(pageSize: int)
    ensures Query(NoFilters, 1, pageSize) == [("page", "1"), ("pageSize", IntToString(pageSize))]
  {
  }

  /** The stale reset: with "5" typed as the actor id, the reload that
      follows the reset still asks for actor 5. */
  lemma StaleResetKeepsActorFilter()
    ensures ("actorId", "5") in Query(LogFilters("5", "", "", "", ""), 1, 20)
    ensures Query(LogFilters("5", "", "", "", ""), 1, 20) != Query(NoFilters, 1, 20)
  {
    var q := Query(LogFilters("5", "", "", "", ""), 1, 20);
    QueryContents(LogFilters("5", "", "", "", ""), 1, 20);
    assert ("actorId", "5") in Entries(LogFilters("5", "", "", "", ""));
    assert ("actorId", "5") in q[..|q| - 2];
  }
}
