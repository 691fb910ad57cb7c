# Crowdpass admin panel: a verified model of its decision logic

This project models, in Dafny, the logic inside the Crowdpass admin dashboard
(a React single-page app). It covers:

- the session store, which keeps one bearer token in the `admin_token`
  storage slot;
- the HTTP client's interceptors;
- the route guard and the role gate;
- the permission rules on user cards and the user-administration dialogs;
- ticket validation;
- the filter, sort and pagination transforms of the events, categories,
  bookings, users and action-log pages;
- the derived ticket counts, and the join that assembles a booking for its
  edit dialog;
- the event status badges;
- the form rules and defaults of the event, subcategory and ticket-type forms;
- the one-slot modal store.

Each source file in that list is one Dafny module in a file of the same name.
The shared modules are:

- `Js` (`js.dfy`): the JavaScript semantics the code relies on. This covers
  `null`/`undefined`, truthiness, `??`, `Math.ceil` of a quotient, `slice`,
  `find` and `filter(Boolean)`.
- `Text` (`text.dfy`): string operations. This covers lower-casing, `trim`,
  `includes`, `toString`, `parseInt`, `Number(...)`, `padStart`, `join`,
  `length`, and the UTF-16 code-unit order of `sort()`. A Dafny string is a
  sequence of Unicode scalar values, while a JavaScript string is a sequence
  of UTF-16 code units. `Text.Utf16` gives those code units, and
  `Text.JsLength` and `Text.Compare` count and order the string as
  JavaScript does. The other string operations used here give the same
  result over characters as over code units.
- `Models` (`models.dfy`): the API records and the outcome of an API call.

The form of each module follows the source:

- Pure expressions become functions, and the properties of those functions
  are proved as lemmas.
- React state that handlers update becomes a class. Each method may modify
  its object, and its `ensures` state the new value of every field, so the
  fields a handler leaves alone are stated as equal to their old values.
- The `forEach` loop that builds the action-log query is a method
  (`BuildQuery`) with a loop invariant.

The model stands in for what it does not include as follows:

- An API call is answered by an `ApiResult` parameter: `Ok(data)`, or
  `Err(status, message)`, where an absent status means no response arrived.
- A handler's visible effects (requests, toasts, callbacks, navigation) are
  returned as values.
- Browser storage is a `map<string, ...>` field.
- The clock is a `now` parameter, and the calendar day of a timestamp is a
  `dayOf` function parameter.

## Model

| member | source | states |
|---|---|---|
| AuthContext.IsAuthenticated | src/context/AuthContext.tsx:30 | the session is authenticated exactly when the token is a non-empty string; an empty token is not authenticated |
| AuthContext.RoleOf | src/context/AuthContext.tsx:63 | the role is present iff there is a user with an admin record, and is then that record's role |
| AuthContext.HasRole | src/context/AuthContext.tsx:65-67 | true iff the current role is present and in the list; never true without a user or with an empty list |
| AuthContext.AuthProvider.constructor | src/context/AuthContext.tsx:25-28 | the initial token is the value stored under "admin_token", or none; there is no user |
| AuthContext.AuthProvider.Login | src/context/AuthContext.tsx:52-55 | storage gains "admin_token" = the token, the token is adopted, the user is kept; authenticated iff the token is non-empty |
| AuthContext.AuthProvider.Logout | src/context/AuthContext.tsx:57-61 | the storage key is removed, token and user are cleared, nothing else in storage changes |
| AuthContext.AuthProvider.RefreshUser | src/context/AuthContext.tsx:39-50 | no request without a truthy token; success stores the profile; 401 logs out; any other error changes nothing |
| AuthContext.LogoutTwice | src/context/AuthContext.tsx:57-61 | a second logout leaves the state of the first: logout is idempotent |
| ApiClient.InterceptedHeaders | src/hooks/useApiClient.ts:13-24 | a truthy `x-no-auth` is removed and no credentials are added; otherwise a truthy token sets `Authorization: Bearer <token>`; without one the headers are unchanged; no other header is touched |
| ApiClient.OptedOut | src/hooks/useApiClient.ts:14 | a truthy `x-no-auth` header; `InterceptedHeaders` states what follows from it |
| ApiClient.RequestConfig.constructor | src/hooks/useApiClient.ts:13 | the config holds the request's headers |
| ApiClient.InterceptRequest | src/hooks/useApiClient.ts:13-24 | the in-place edit of `config.headers` leaves exactly `InterceptedHeaders` of the old headers |
| ApiClient.InterceptResponse | src/hooks/useApiClient.ts:26-35 | every response or error is passed on unchanged (no retry); a 401 logs out and navigates to "/login"; anything else leaves the session alone and does not navigate |
| AccessRoute.Decide | src/router/AccessRoute.tsx:13-37 | `requireAuth` defaults to true; a missing login redirects to `redirectTo` or "/login"; an unwanted login redirects to `redirectTo` or "/dashboard"; a failed role check redirects to "/dashboard"; the children render iff all checks pass |
| AccessRoute.EmptyRolesRedirect | src/router/AccessRoute.tsx:29-34 | an empty `requiredRoles` list always redirects |
| RoleAccess.IsAllowed | src/components/RoleAccess.tsx:14 | allowed iff the user's admin role is in `allow`; never without a user or admin record, never for an empty list |
| RoleAccess.Render | src/components/RoleAccess.tsx:11-16 | exactly one of children and fallback is rendered; the fallback defaults to nothing |
| UserCard.BanEnabled | src/components/users/UserCard.tsx:18-19 | ban controls are enabled iff the features are present and `ap.ban` is set |
| UserCard.CanModify | src/components/users/UserCard.tsx:23-24 | no current admin modifies nobody; ROOT modifies anyone; ADMIN modifies anyone who is not ROOT; MANAGER modifies nobody |
| UserCard.RoleOfAdmin | src/components/users/UserCard.tsx:24 | `user.admin?.role`: present iff there is an admin record |
| UserCard.CanBan | src/components/users/UserCard.tsx:25-29 | ban is allowed iff there is a current admin, the target is someone else, and a ROOT admin targets only non-admins or ROOT admins |
| UserCard.IdButtonDisabled | src/components/users/UserCard.tsx:89 | disabled iff exactly one of the VK and Telegram ids is set |
| UserCard.RightsButtonOf | src/components/users/UserCard.tsx:62-80 | no rights button without `canModify`; demote for admins, promote for others; demote is disabled on one's own card |
| UserCard.BanButtonOf | src/components/users/UserCard.tsx:93-102 | ban controls only when enabled: unban for banned users, ban otherwise, disabled iff not `canBan` |
| UserCard.FullName | src/components/users/UserCard.tsx:21 | what is left of `firstName + " " + lastName` when only white space is cut from both ends; it never starts or ends with white space |
| UserCard.FullNameOfTrimmedNames | src/components/users/UserCard.tsx:21 | two non-empty names with no white space at their edges are shown exactly as `firstName + " " + lastName` |
| UserCard.DisplayName | src/components/users/UserCard.tsx:42 | the full name, or "Без имени" when it is empty; never empty |
| UserCard.BlankNameShowsUnnamed | src/components/users/UserCard.tsx:21-42 | with both names empty the separating space is trimmed and "Без имени" is shown |
| IdEditModal.TelegramResetDisabled | src/components/users/IdEditModal.tsx:84 | disabled unless both platform ids are present |
| IdEditModal.VkResetDisabled | src/components/users/IdEditModal.tsx:113 | disabled unless both ids are present, so the two buttons are always in the same state |
| IdEditModal.IdEditState.constructor | src/components/users/IdEditModal.tsx:55-61 | the fields are synced from the user shown, with missing ids as null |
| IdEditModal.IdEditState.SyncFromUser | src/components/users/IdEditModal.tsx:55-61 | a present user resets the three fields from that user, and missing ids become null; no user changes nothing |
| IdEditModal.IdEditState.HandleReset | src/components/users/IdEditModal.tsx:34-53 | nothing happens without a truthy user id; otherwise the reset is requested, then a success toasts and calls `onUpdated` and then `onClose`, while a failure toasts the server message or "Произошла ошибка" and calls neither |
| PromoteModal.PlanSubmit | src/components/users/PromoteModal.tsx:33-44 | no user sends nothing; MANAGER without an organizer is refused; otherwise the payload carries the role, and an organizer id exactly for MANAGER |
| PromoteModal.PromoteState.constructor | src/components/users/PromoteModal.tsx:18-20 | the role starts as ADMIN with no organizer and no organizer list |
| PromoteModal.PromoteState.SetRole | src/components/users/PromoteModal.tsx:22-31 | the role is replaced; organizers are fetched exactly when the role changes to MANAGER from another role |
| PromoteModal.PromoteState.OrganizersLoaded | src/components/users/PromoteModal.tsx:24-29 | a loaded list is stored and the first organizer's id, if any, is selected; a failure toasts and changes nothing |
| PromoteModal.PromoteState.SelectOrganizer | src/components/users/PromoteModal.tsx:19 | the chosen organizer id is stored; nothing else changes |
| PromoteModal.PromoteState.HandleSubmit | src/components/users/PromoteModal.tsx:33-51 | follows `PlanSubmit`; a success toasts and calls `onUpdated` and then `onClose`, a failure only toasts |
| TicketValidation.IsTicketCode | src/pages/TicketValidationPage.tsx:48 | the code matches `^\d+-\d+$`: one hyphen, and digits on both sides of it, at least one on each side |
| TicketValidation.TicketCodeExamples | src/pages/TicketValidationPage.tsx:48 | "17-123" is accepted; "17-", "-123", "1-2-3" and " 17-123" are refused |
| TicketValidation.PlanValidate | src/pages/TicketValidationPage.tsx:38-51 | nothing without secret or code; a secret wins over the code; a code is used only when it has the format |
| TicketValidation.ErrorText | src/pages/TicketValidationPage.tsx:45-59 | the server message when it is truthy, otherwise the fallback |
| TicketValidation.ValidationPage.constructor | src/pages/TicketValidationPage.tsx:26-28 | the code field is empty, and there is no result and no error |
| TicketValidation.ValidationPage.SetTicketCode | src/pages/TicketValidationPage.tsx:26 | only the typed code changes |
| TicketValidation.ValidationPage.Validate | src/pages/TicketValidationPage.tsx:34-62 | result and error are cleared first; missing data and a bad format set their errors without a request; otherwise the chosen request is sent and its outcome stored |
| TicketValidation.ValidationPage.MakeTicketUsed | src/pages/TicketValidationPage.tsx:64-88 | nothing without a result; otherwise the secret is resent with `makeUsed`; only a USED reply clears result and error |
| TicketValidation.DisplayStatus | src/pages/TicketValidationPage.tsx:13-21 | the four statuses map to their lower-case labels; any other value passes through |
| TicketValidation.DisplayStatusIsLowerLabel | src/pages/TicketValidationPage.tsx:13-21 | this page's label is the lower-cased shared label of `getDisplayTicketStatus` |
| Utils.Kept | src/utils/utils.ts:4 | `filter(Boolean)`: only non-empty strings survive, never more than given |
| Utils.KeptAppend | src/utils/utils.ts:4 | the filter works argument by argument and keeps their order |
| Utils.CnSmall | src/utils/utils.ts:4 | `cn()` is "" and `cn(s)` is s for a non-empty s |
| Utils.CnDropsFalsy | src/utils/utils.ts:4 | an undefined, null, false or empty argument anywhere does not change the result |
| Utils.KeptDropsFalsy | src/utils/utils.ts:4 | a falsy argument anywhere is dropped from the kept list |
| Utils.CnAppend | src/utils/utils.ts:4 | the classes of two non-empty argument lists are joined by one space, in order |
| Utils.Cn | src/utils/utils.ts:3-5 | `filter(Boolean).join(" ")`; `CnSmall`, `CnDropsFalsy` and `CnAppend` state its results |
| Utils.DisplayTicketStatus | src/utils/utils.ts:7-14 | the four statuses map to their labels; any other value is returned unchanged |
| Utils.DisplayTicketStatusInjective | src/utils/utils.ts:8-12 | distinct known statuses get distinct labels |
| CategoriesPage.MatchedSubs | src/pages/CategoriesPage.tsx:59-63 | an order-preserving subsequence of the subcategories holding exactly those that match |
| CategoriesPage.ShowCategory | src/pages/CategoriesPage.tsx:54-74 | kept iff the name contains the query, the id string equals it, or some subcategory matches; a search with matching subcategories shows exactly them, force-opened; otherwise the full list, not forced |
| CategoriesPage.Query | src/pages/CategoriesPage.tsx:50 | `search.trim().toLowerCase()`: see `Text.Trim` and `Text.ToLower`; `BlankSearchListsAll` covers a blank query |
| CategoriesPage.MatchesQuery | src/pages/CategoriesPage.tsx:55-62 | the lower-cased name includes the query or the id's text equals it; `ShowCategory` and `MatchedSubs` are stated in its terms |
| CategoriesPage.Filtered | src/pages/CategoriesPage.tsx:49-77 | the list shown; `FilteredFollowsKept` proves it follows the kept categories in order, `BlankSearchListsAll` the blank case |
| CategoriesPage.ShowAll | src/pages/CategoriesPage.tsx:53-75 | the map gives one entry per category, in order |
| CategoriesPage.KeptCategories | src/pages/CategoriesPage.tsx:53-76 | an order-preserving subsequence of the categories holding exactly those kept |
| CategoriesPage.FilteredFollowsKept | src/pages/CategoriesPage.tsx:53-76 | the filtered list runs in step with the kept categories: same length, same categories, same order |
| CategoriesPage.BlankSearchListsAll | src/pages/CategoriesPage.tsx:50-70 | a blank search lists every category unchanged and not force-opened |
| CategoriesPage.AllKept | src/pages/CategoriesPage.tsx:53-76 | when every category matches, all are kept in order |
| UseEventFilters.Whole | src/hooks/useEventFilters.ts:33 | a full filter value as an update sets every field |
| UseEventFilters.Merge | src/hooks/useEventFilters.ts:33-35 | each field given in the update overrides, the others stay, and the page is 1 even if the update names one |
| UseEventFilters.MergeIdempotent | src/hooks/useEventFilters.ts:33-35 | applying the same update twice equals applying it once |
| UseEventFilters.MergeWhole | src/hooks/useEventFilters.ts:33-35 | updating with a full value gives that value on page 1 |
| UseEventFilters.WithPage | src/hooks/useEventFilters.ts:39 | `goToPage` changes the page and nothing else |
| UseEventFilters.Initial | src/hooks/useEventFilters.ts:24-27 | the saved value under "event-filters" if there is one, otherwise the defaults |
| UseEventFilters.EventFiltersStore.constructor | src/hooks/useEventFilters.ts:24-31 | starts from `Initial` and writes it back |
| UseEventFilters.EventFiltersStore.Update | src/hooks/useEventFilters.ts:29-35 | the filters become the merge, and storage holds them under "event-filters" |
| UseEventFilters.EventFiltersStore.Reset | src/hooks/useEventFilters.ts:13-37 | the filters become exactly the defaults ("", "", "", "", "soonest", future only, page 1), and they are saved |
| UseEventFilters.EventFiltersStore.GoToPage | src/hooks/useEventFilters.ts:39 | only the page changes, and the result is saved |
| UseEventFilters.ReloadRestores | src/hooks/useEventFilters.ts:24-31 | what was saved is what the next load starts from |
| UseBookings.Merge | src/hooks/useBookings.ts:51-52 | fields in the update override, the others stay, and the page is 1 |
| UseBookings.MergeIdempotent | src/hooks/useBookings.ts:51-52 | the same update twice equals once |
| UseBookings.Bookings | src/hooks/useBookings.ts:45 | without data the bookings are [] |
| UseBookings.Total | src/hooks/useBookings.ts:46 | without data the total is 0 |
| UseBookings.BookingsState.constructor | src/hooks/useBookings.ts:22-28 | empty strings, page 1, 20 per page |
| UseBookings.BookingsState.UpdateFilters | src/hooks/useBookings.ts:51-52 | the filters become the merge |
| UseBookings.BookingsState.ResetFilters | src/hooks/useBookings.ts:53-54 | the filters are exactly the initial ones again |
| UseBookings.BookingsState.GoToPage | src/hooks/useBookings.ts:55 | only the page changes |
| EventsPage.Select | src/pages/Events/EventsPage.tsx:31-47 | an order-preserving subsequence of the events holding exactly those that pass the name, organizer, category, location and end-date filters |
| EventsPage.Keep | src/pages/Events/EventsPage.tsx:31-47 | the five chained filters; `Select` proves the result holds exactly the events it keeps |
| EventsPage.NameMatches | src/pages/Events/EventsPage.tsx:32-34 | the lower-cased name includes the lower-cased search (`Text.ContainsOccurs` characterises `includes`) |
| EventsPage.OrganizerMatches | src/pages/Events/EventsPage.tsx:35-37 | an empty organizer filter keeps all, otherwise equal organizer name; used by `Select` |
| EventsPage.CategoryMatches | src/pages/Events/EventsPage.tsx:38-40 | an empty category filter keeps all, otherwise equal category name; used by `Select` |
| EventsPage.LocationMatches | src/pages/Events/EventsPage.tsx:41-43 | an empty location filter keeps all, otherwise equal location; used by `Select` |
| EventsPage.NotEnded | src/pages/Events/EventsPage.tsx:44-47 | without `futureOnly` all pass, otherwise events not ended by `now`; used by `Select` |
| EventsPage.CmpAntisymmetric | src/pages/Events/EventsPage.tsx:48-59 | swapping two events negates the comparison, for every sort; "za" is the reverse of "az" |
| EventsPage.Cmp | src/pages/Events/EventsPage.tsx:48-59 | the comparator; `CmpAntisymmetric` and `CmpTransitive` prove it is a consistent order, and `Sort` sorts by it |
| EventsPage.CmpTransitive | src/pages/Events/EventsPage.tsx:48-59 | the comparison of each sort is transitive, so sorting by it is well defined |
| EventsPage.ConsSorted | src/pages/Events/EventsPage.tsx:48-59 | an event that sorts before the head of a sorted list keeps it sorted |
| EventsPage.BeforeHead | src/pages/Events/EventsPage.tsx:48-59 | an event not after the head is not after any element of a sorted list |
| EventsPage.HeadBeforeInserted | src/pages/Events/EventsPage.tsx:48-59 | the head of a sorted list still comes first after inserting an event that sorts after it |
| EventsPage.Insert | src/pages/Events/EventsPage.tsx:48-59 | inserting into a sorted list keeps it sorted and adds exactly that event |
| EventsPage.Sort | src/pages/Events/EventsPage.tsx:48-59 | the result is sorted by the chosen comparison ("soonest" and unknown values ascending by start, "latest" descending, "az"/"za" by name) and is a permutation of the input |
| EventsPage.Filtered | src/pages/Events/EventsPage.tsx:28-61 | no events gives []; otherwise sorted, every member kept by the filters, every kept event present, no event added, and a permutation of the filtered events (`Select`), so duplicates are kept |
| EventsPage.SubsequenceMultiset | src/pages/Events/EventsPage.tsx:31-47 | filtering never adds or duplicates an event |
| EventsPage.Paged | src/pages/Events/EventsPage.tsx:63-66 | at most 6 events: positions (page-1)*6 to page*6 of the filtered list |
| EventsPage.TotalPages | src/pages/Events/EventsPage.tsx:67 | the smallest page count holding all events at 6 per page; 0 iff there is no event; above 1 iff more than 6 |
| EventsPage.PageOfIndex | src/pages/Events/EventsPage.tsx:63-67 | every filtered event sits on exactly the page its position gives, and that page exists |
| EventFilters.InsertUnique | src/components/events/EventFilters.tsx:22-32 | inserting into a strictly sorted list keeps it strictly sorted and adds only that value |
| EventFilters.Prepend | src/components/events/EventFilters.tsx:22-32 | a value below the head of a strictly sorted list can be put in front |
| EventFilters.Options | src/components/events/EventFilters.tsx:22-32 | `Array.from(new Set(...)).sort()`: strictly sorted, holding exactly the values given |
| EventFilters.OptionsOnce | src/components/events/EventFilters.tsx:22-32 | every value appears exactly once among the options |
| EventFilters.OrganizerNames | src/components/events/EventFilters.tsx:23 | one organizer name per event, in order |
| EventFilters.CategoryNames | src/components/events/EventFilters.tsx:27 | one category name per event, in order |
| EventFilters.Locations | src/components/events/EventFilters.tsx:31 | one location per event, in order |
| EventFilters.OrganizerOptions | src/components/events/EventFilters.tsx:22-24 | the organizer options are sorted and distinct, and are exactly the events' organizer names |
| EventFilters.CategoryOptions | src/components/events/EventFilters.tsx:26-28 | the category options are sorted and distinct, and are exactly the events' category names |
| EventFilters.LocationOptions | src/components/events/EventFilters.tsx:30-32 | the location options are sorted and distinct, and are exactly the events' locations |
| EventFilters.FilterPanel.constructor | src/components/events/EventFilters.tsx:13 | the local copy starts as the applied filters |
| EventFilters.FilterPanel.Edit | src/components/events/EventFilters.tsx:13 | edits change the local copy only |
| EventFilters.FilterPanel.Sync | src/components/events/EventFilters.tsx:15-17 | a change of applied filters overwrites the local copy |
| EventFilters.FilterPanel.Apply | src/components/events/EventFilters.tsx:19 | Apply passes the local copy on unchanged |
| EventFilters.ApplyThenUpdate | src/components/events/EventFilters.tsx:19 | applying and then merging in the parent gives the local filters on page 1 |
| EventCard.GetEventStatus | src/components/EventCard.tsx:7-18 | "ПРОШЛО" iff the end is before now; otherwise "СЕГОДНЯ" iff it starts on today's date or is strictly in progress; otherwise "СКОРО"; exactly one applies |
| EventCard.EndingNowShowsSoon | src/components/EventCard.tsx:11-17 | an event ending exactly now that started on an earlier day is "СКОРО" |
| EventCard.InProgressShowsToday | src/components/EventCard.tsx:12-16 | an event strictly in progress is "СЕГОДНЯ" |
| ShortEventCard.GetEventStatus | src/components/organizers/ShortEventCard.tsx:7-18 | the same three-way classification, past first |
| ShortEventCard.SameAsEventCard | src/components/organizers/ShortEventCard.tsx:7-18 | the copy agrees with the event card's on every event and instant |
| ShortEventCard.HasPoster | src/components/organizers/ShortEventCard.tsx:22 | exactly the truthiness of `posterUrl` |
| EventPage.AvailableOf | src/pages/Events/EventPage.tsx:31 | only AVAILABLE tickets, all drawn from the type's own tickets (a sub-multiset), never more than it has |
| EventPage.AvailableSplit | src/pages/Events/EventPage.tsx:31-34 | each ticket is either AVAILABLE or not: the two counts add up to the total |
| EventPage.TypeAvailable | src/pages/Events/EventPage.tsx:116-117 | per type, available never exceeds the total |
| EventPage.FoldTotalIsSum | src/pages/Events/EventPage.tsx:29 | the `reduce` total equals the sum of ticket counts over the types |
| EventPage.FoldAvailableIsSum | src/pages/Events/EventPage.tsx:30-33 | the `reduce` available count equals the sum over types of AVAILABLE tickets |
| EventPage.SumsSplit | src/pages/Events/EventPage.tsx:29-34 | the total is available plus not-available across all types |
| EventPage.TotalTickets | src/pages/Events/EventPage.tsx:29 | the sum over types of their ticket counts |
| EventPage.AvailableTickets | src/pages/Events/EventPage.tsx:30-33 | the sum over types of their AVAILABLE tickets |
| EventPage.SoldTickets | src/pages/Events/EventPage.tsx:34 | never negative, and exactly the number of tickets in a status other than AVAILABLE |
| EventPage.Counters | src/pages/Events/EventPage.tsx:29-34 | total = sum of per-type totals; available = count of AVAILABLE; sold = total - available, never negative, and counts every other status |
| BookingsPage.JoinTicket | src/pages/BookingsPage.tsx:100-111 | present iff the ticket's type and that type's event are both found; then it carries the first type with the ticket's `ticketTypeId` and the first event with that type's `eventId` |
| BookingsPage.TicketsOf | src/pages/BookingsPage.tsx:107-111 | the underlying tickets, position by position |
| BookingsPage.JoinTickets | src/pages/BookingsPage.tsx:100-116 | an order-preserving subsequence of the tickets; each kept ticket carries its own join; every joinable ticket is kept |
| BookingsPage.DroppedTickets | src/pages/BookingsPage.tsx:100-116 | a ticket is dropped exactly when its type or its event is missing |
| BookingsPage.MappedTickets | src/pages/BookingsPage.tsx:100 | the `map` gives one entry per ticket, in order |
| BookingsPage.JoinTicketsIsMapFilter | src/pages/BookingsPage.tsx:100-116 | the join is the source's map followed by dropping the undefined entries |
| BookingsPage.MakeBookingData | src/pages/BookingsPage.tsx:90-119 | null without a booking of that id or without its user; otherwise the first such booking's fields, its user (whose id is the booking's `userId`) and its joined tickets |
| BookingsPage.Get | src/pages/BookingsPage.tsx:39-40 | `params.get`: absent iff no pair has the key, otherwise the value of the first pair under that key (at `KeyIndex`) |
| BookingsPage.KeyIndex | src/pages/BookingsPage.tsx:45 | the first position of a key, if any |
| BookingsPage.Set | src/pages/BookingsPage.tsx:45 | `next.set`: the new pair is in the result; `GetSet` and `SetKeepsOthers` prove the key reads the value and the other pairs stay in order |
| BookingsPage.Without | src/pages/BookingsPage.tsx:45 | the pairs under other keys, in order |
| BookingsPage.WithoutAppend | src/pages/BookingsPage.tsx:45 | dropping a key from two joined lists drops it from each |
| BookingsPage.WithoutAbsent | src/pages/BookingsPage.tsx:45 | dropping a key the list does not hold leaves it unchanged |
| BookingsPage.GetSkipsAbsent | src/pages/BookingsPage.tsx:39-40 | pairs under other keys in front do not change what `get` finds |
| BookingsPage.GetWithout | src/pages/BookingsPage.tsx:39-45 | dropping one key does not change what any other key reads |
| BookingsPage.GetSet | src/pages/BookingsPage.tsx:45 | after `set`, the key reads the new value |
| BookingsPage.SetKeepsOthers | src/pages/BookingsPage.tsx:44-46 | `set` keeps every other pair, in order |
| BookingsPage.SetKeepsOtherValues | src/pages/BookingsPage.tsx:44-46 | `set` changes no other key's value |
| BookingsPage.NumberParam | src/pages/BookingsPage.tsx:39-40 | the default when the parameter is absent, otherwise `Number` of its text |
| BookingsPage.WithPage | src/pages/BookingsPage.tsx:43-47 | `goToPage`: the page parameter reads `String(page)` and every other pair is as before |
| BookingsPage.FiltersOf | src/pages/BookingsPage.tsx:35-41 | search, event and status are empty; page is 1 when absent and otherwise `Number` of the first `page` value; page size likewise with 20 |
| BookingsPage.GoToPageRoundTrip | src/pages/BookingsPage.tsx:35-47 | after `goToPage(n)` the filters read page n, the page size is unchanged, and no other parameter moves |
| BookingsPage.ShowPagination | src/pages/BookingsPage.tsx:327 | `bookings.total > filters.perPage && !isMobile`, false for a NaN page size; `ShownPaginationRenders` proves that what it shows draws buttons |
| BookingsPage.ShownPaginationRenders | src/pages/BookingsPage.tsx:327-334 | when shown with a positive page size, the pagination draws its buttons |
| BookingsPage.BookingsPageState.constructor | src/pages/BookingsPage.tsx:24-29 | nothing updating, empty search field, no searched booking |
| BookingsPage.BookingsPageState.GoToPage | src/pages/BookingsPage.tsx:43-47 | the URL becomes the old one with its page set |
| BookingsPage.BookingsPageState.SetSearchId | src/pages/BookingsPage.tsx:28 | only the typed id changes |
| BookingsPage.BookingsPageState.HandleStatusChange | src/pages/BookingsPage.tsx:72-88 | success rebuilds the searched booking from the reply and toasts "Статус брони обновлен"; an error reply toasts its message or "Ошибка при обновлении статуса"; no reply means no toast; `updatingId` always ends cleared |
| BookingsPage.BookingsPageState.HandleSearch | src/pages/BookingsPage.tsx:121-140 | the searched booking is cleared first; nothing is requested for an empty field or a number not above 0; a reply sets the booking found (none for NaN); an error toasts "Бронирование не найдено" |
| Pagination.PageCount | src/components/Pagination.tsx:9 | the smallest page count that holds `total` items at `perPage` a page |
| Pagination.Buttons | src/components/Pagination.tsx:9-27 | nothing iff at most one page; otherwise one button per page, labelled 1.., each reporting its own number, and highlighted iff its number is the current page |
| Pagination.Highlighted | src/components/Pagination.tsx:19 | the number of highlighted buttons, never more than there are |
| Pagination.HighlightedRun | src/components/Pagination.tsx:15-24 | consecutive numbering highlights one button when the page is among them and none otherwise |
| Pagination.OneHighlighted | src/components/Pagination.tsx:19 | exactly one button is highlighted for a page in range, and none otherwise |
| Pagination.LabelsIncrease | src/components/Pagination.tsx:15-24 | the labels increase from left to right |
| Pagination.RendersOnlyForSeveralPages | src/components/Pagination.tsx:9-11 | the buttons are drawn iff there are more items than fit on one page |
| UsersPage.TotalPages | src/pages/UsersPage.tsx:22-46 | the smallest page count for the total at 10 a page, with the total 0 without data |
| UsersPage.ControlsForMoreThanOnePage | src/pages/UsersPage.tsx:111 | the controls show iff there are more than 10 users |
| UsersPage.Prev | src/pages/UsersPage.tsx:113 | `max(p-1, 1)`: never below 1 |
| UsersPage.Next | src/pages/UsersPage.tsx:119 | `min(p+1, totalPages)`: never above the last page |
| UsersPage.ButtonsKeepPageInRange | src/pages/UsersPage.tsx:113-119 | from an in-range page both buttons stay in range, moving by one unless disabled |
| UsersPage.ShowControls | src/pages/UsersPage.tsx:111 | `totalPages > 1`; `ControlsForMoreThanOnePage` proves it is "more than 10 users" |
| UsersPage.PrevDisabled | src/pages/UsersPage.tsx:113 | `page === 1`; `ButtonsKeepPageInRange` proves the back button moves by one when enabled |
| UsersPage.NextDisabled | src/pages/UsersPage.tsx:119 | `page === totalPages`; `ButtonsKeepPageInRange` proves the forward button moves by one when enabled |
| UsersPage.UsersPageState.constructor | src/pages/UsersPage.tsx:19-21 | empty search, page 1 |
| UsersPage.UsersPageState.SetSearch | src/pages/UsersPage.tsx:86-89 | typing sets the search and returns to page 1 |
| UsersPage.UsersPageState.GoBack | src/pages/UsersPage.tsx:113 | the page becomes `Prev` of the old one |
| UsersPage.UsersPageState.GoForward | src/pages/UsersPage.tsx:119 | the page becomes `Next` of the old one, never past the last |
| UsersPage.CardAdminAsWritten | src/pages/UsersPage.tsx:97-105 | the card's `currentAdmin` prop is never passed, so it is always absent |
| UsersPage.AsWrittenRootCannotModify | src/pages/UsersPage.tsx:97-105 | as wired, even ROOT sees no card it may modify or ban |
| UsersPage.CardAdmin | src/pages/UsersPage.tsx:97-105 | the intended prop: the signed-in user's own admin record |
| UsersPage.RootCanModifyEveryCard | src/components/users/UserCard.tsx:23-29 | with the intended wiring ROOT may modify every card and ban every other non-admin |
| LogsPage.Entries | src/pages/LogsPage.tsx:66 | `Object.entries(filters)`: one (key, value) pair for each of the five filter fields |
| LogsPage.NonEmpty | src/pages/LogsPage.tsx:66-68 | an order-preserving subsequence holding exactly the non-empty entries |
| LogsPage.NonEmptySnoc | src/pages/LogsPage.tsx:66-68 | the filter over one more entry adds it when non-empty |
| LogsPage.QueryContents | src/pages/LogsPage.tsx:65-70 | the query lists only the non-empty filters, in order, then page, then pageSize |
| LogsPage.BuildQuery | src/pages/LogsPage.tsx:65-70 | the `forEach` loop builds exactly that query |
| LogsPage.Query | src/pages/LogsPage.tsx:65-70 | the query as a list of pairs; `QueryContents` states its contents and `BuildQuery` is proved equal to it |
| LogsPage.LogsState.constructor | src/pages/LogsPage.tsx:23-38 | no logs, total 0, page 1, page size 20, not loading, more to load, empty filters, and the observer attached with empty filters |
| LogsPage.LogsState.BeginFetchWith | src/pages/LogsPage.tsx:58-70 | a no-op while loading; otherwise loading is set, the query of the filters the handler saw is sent, and the `[logs, loading]` effect re-attaches the scroll observer with the current filters; nothing else changes |
| LogsPage.LogsState.BeginFetch | src/pages/LogsPage.tsx:60-70 | the same with the current filters |
| LogsPage.LogsState.CompleteFetch | src/pages/LogsPage.tsx:72-89 | on success, replace mode sets the logs to the batch and append mode adds the batch after them; total and page are updated; more remains iff the batch is a full page; a failure changes only `loading`, which always ends false; a new list or the end of a load re-attaches the scroll observer with the current filters |
| LogsPage.LogsState.SetFilter | src/pages/LogsPage.tsx:101-104 | one filter field takes the typed value; the scroll observer keeps the filters it was attached with |
| LogsPage.LogsState.SetManualPage | src/pages/LogsPage.tsx:29 | only the typed page changes |
| LogsPage.LogsState.HandleApply | src/pages/LogsPage.tsx:111-113 | page 1 is reloaded in replace mode |
| LogsPage.LogsState.HandleIntersect | src/pages/LogsPage.tsx:45-118 | page+1 is loaded in append mode exactly when visible, more remains and nothing is loading; the query uses the filters of the render that attached the observer (`observerFilters`), not filters typed since |
| LogsPage.StaleScrollIgnoresTypedFilter | src/pages/LogsPage.tsx:45-118 | after an unfiltered first page and typing actor id "7", scrolling asks for page 2 without `actorId`, while Apply from the same state sends it |
| LogsPage.LogsState.HandlePageJump | src/pages/LogsPage.tsx:127-131 | a jump is sent exactly for `parseInt` n with 1 ≤ n ≤ ceil(total/pageSize) and nothing loading, in replace mode |
| LogsPage.LogsState.HandleResetAsWritten | src/pages/LogsPage.tsx:106-109 | the filters are cleared, but the reload's query is built from the old filters |
| LogsPage.LogsState.HandleReset | src/pages/LogsPage.tsx:106-109 | the filters are cleared and page 1 is reloaded in replace mode with no filter in the query |
| LogsPage.ResetQueryHasNoFilters | src/pages/LogsPage.tsx:106-109 | the reset's intended query is just page 1 and the page size |
| LogsPage.StaleResetKeepsActorFilter | src/pages/LogsPage.tsx:106-109 | with actor "5" typed, the reload after reset still filters by actor 5 |
| ModalContext.ModalStore.constructor | src/context/ModalContext.tsx:20 | starts closed: no type and no entity |
| ModalContext.ModalStore.OpenModal | src/context/ModalContext.tsx:22-24 | exactly the given type and entity, replacing what was open |
| ModalContext.ModalStore.CloseModal | src/context/ModalContext.tsx:26 | back to no type and no entity |
| ModalContext.CloseTwice | src/context/ModalContext.tsx:26 | closing is idempotent |
| ModalContext.OpenReplaces | src/context/ModalContext.tsx:22-24 | a second open replaces the first outright |
| ModalContext.UseModals | src/context/ModalContext.tsx:36-39 | throws "useModals must be used within ModalProvider" iff there is no provider, otherwise returns its context |
| EventForm.Errors | src/components/EventForm.tsx:12-21 | the fields rejected: name under 3, description under 10, location under 2 UTF-16 code units (`length`), an empty id, a date that does not parse |
| EventForm.EmptyFormRejected | src/components/EventForm.tsx:12-21 | the empty starting form is rejected on every text and id field |
| EventForm.EmptyFormRejectsDates | src/components/EventForm.tsx:16-17 | an unfilled date is checked as `new Date("undefined")`; since that is no date, the empty form is rejected on both dates |
| EventForm.EmojiNameLongEnough | src/components/EventForm.tsx:13 | lengths are JavaScript's: the name "🎉a" is 3 code units long and passes `min(3)` |
| EventForm.Pad | src/components/EventForm.tsx:89 | at least 2 digits, exactly 2 below 100, reading back as the number |
| EventForm.PadDigits | src/components/EventForm.tsx:89 | the padded text is decimal digits of the number, with one leading zero below 10 |
| EventForm.DatetimeLocalLayout | src/components/EventForm.tsx:88-91 | "YYYY-MM-DDTHH:mm": 16 characters with the parts and separators in place |
| EventForm.DatetimeLocalReadsBack | src/components/EventForm.tsx:88-91 | each part reads back as its number, the month one above `getMonth()` |
| EventForm.ToInputDatetimeLocal | src/components/EventForm.tsx:88-91 | the local date-time text; `DatetimeLocalLayout` proves its layout and `DatetimeLocalReadsBack` that each part reads back |
| EventForm.Layout | src/components/EventForm.tsx:90 | where the five parts and four separators sit |
| EventForm.ResetValues | src/components/EventForm.tsx:80-105 | no reset without initial values, categories and organizers; otherwise the values are the initial ones, with dates formatted, missing dates unset and missing ids "" |
| EventForm.ResetWithoutIdsRejected | src/components/EventForm.tsx:101-103 | a missing initial id becomes "" and still fails validation |
| EventForm.FetchExactlyForValidCategory | src/components/EventForm.tsx:67-68 | subcategories are fetched exactly when the category passes validation |
| EventForm.ShouldFetchSubcategories | src/components/EventForm.tsx:68 | a truthy selected category; `FetchExactlyForValidCategory` ties it to the schema |
| SubcategoryModal.DefaultName | src/components/categories/SubcategoryModal.tsx:28-36 | the initial name when truthy, otherwise "" |
| SubcategoryModal.DefaultCategoryId | src/components/categories/SubcategoryModal.tsx:29-37 | the initial id if non-zero, else the first option's id if non-zero, else 0 |
| SubcategoryModal.Accepts | src/components/categories/SubcategoryModal.tsx:9 | `z.string().min(1)` on the name; `DefaultsAcceptedIffNamed` states when the defaults pass |
| SubcategoryModal.Defaults | src/components/categories/SubcategoryModal.tsx:28-29 | the form's default values: `DefaultName` and `DefaultCategoryId` |
| SubcategoryModal.AfterEffect | src/components/categories/SubcategoryModal.tsx:33-40 | the defaults are applied only while the dialog is open |
| SubcategoryModal.DefaultsAcceptedIffNamed | src/components/categories/SubcategoryModal.tsx:9-28 | the defaults pass the schema iff a non-empty initial name was given |
| SubcategoryModal.NewSubcategoryCategory | src/components/categories/SubcategoryModal.tsx:29 | without an initial id, the first listed category, or 0 |
| TicketTypeModal.Errors | src/components/events/TicketTypeModal.tsx:8-12 | the fields rejected: an empty name, a price that is NaN or negative, a quantity that is NaN, fractional or below 1 |
| TicketTypeModal.DefaultsRejected | src/components/events/TicketTypeModal.tsx:11-27 | the defaults fail on the name and the quantity 0, and on nothing else |
| TicketTypeModal.FractionalQuantityRejected | src/components/events/TicketTypeModal.tsx:11 | a quantity of 1.5 is refused |
| TicketTypeModal.AfterEffect | src/components/events/TicketTypeModal.tsx:30-34 | provided initial data replaces the form whole; otherwise it is kept |
| TicketTypeModal.EditStartsValid | src/components/events/TicketTypeModal.tsx:30-34 | editing a valid ticket type starts from an accepted form |
| Js.CeilDiv | src/pages/UsersPage.tsx:46 | `Math.ceil(a / b)`: the least r with a ≤ r·b |
| Js.CeilDivAboveOne | src/components/Pagination.tsx:9-11 | more than one page exactly when there are more items than fit on one page |
| Js.OrElse | src/pages/BookingsPage.tsx:39-40 | `a ?? b`; `NumberParam` and `FiltersOf` state the defaults it gives |
| Js.Present | src/components/users/UserCard.tsx:89 | truthiness of an optional string; the contracts of `IdButtonDisabled`, `InterceptedHeaders` and `EventForm.Errors` are stated in its terms |
| Js.PresentId | src/components/users/IdEditModal.tsx:35 | truthiness of an optional numeric id; the contracts of `HandleReset`, `PlanSubmit` and `DefaultCategoryId` are stated in its terms |
| Js.ClampIndex | src/pages/Events/EventsPage.tsx:63-66 | how `slice` clamps an index: in-range indices stay, larger ones become the length, a negative one counts back from the end and stops at 0 |
| Js.Slice | src/pages/Events/EventsPage.tsx:63-66 | `slice` with in-range bounds is the sub-sequence, and empty when end ≤ start; a negative start takes the last elements (all of them past the length), a negative end stops that many before the end, and bounds that clamp to end ≤ start give [] |
| Js.FindIndex | src/pages/BookingsPage.tsx:94 | the first element with the id, or none iff no element has it |
| Js.Find | src/pages/BookingsPage.tsx:94-97 | `find` returns the element at `FindIndex` |
| Js.Somes | src/pages/CategoriesPage.tsx:76 | `filter(Boolean)` over objects and nulls keeps every object and adds none |
| Text.Trim | src/pages/CategoriesPage.tsx:50 | a slice of the input with only white space cut from the ends (ECMAScript's WhiteSpace and LineTerminator characters), and none left at either end |
| Text.ToLower | src/pages/CategoriesPage.tsx:50-61 | the same length, each character lower-cased on its own |
| Text.NatToString | src/components/EventForm.tsx:89 | decimal digits, at least one, no leading zero from 10 on |
| Text.IntToString | src/pages/LogsPage.tsx:69-70 | non-empty, starting with '-' exactly for a negative number |
| Text.ParseNumber | src/pages/BookingsPage.tsx:39-40 | `Number` of a blank text is 0 |
| Text.ParseInt | src/pages/LogsPage.tsx:128 | a number only when the text holds a digit |
| Text.ParseIntToString | src/pages/LogsPage.tsx:128 | `parseInt` reads back any integer's decimal form |
| Text.ParseNumberToString | src/pages/BookingsPage.tsx:39-46 | `Number` reads back any integer's decimal form |
| Text.NatToStringRoundTrip | src/components/EventForm.tsx:89 | `toString` of a natural number reads back as that number |
| Text.IntToStringInjective | src/pages/LogsPage.tsx:69-70 | distinct integers are written differently |
| Text.PadStart | src/components/EventForm.tsx:89 | `padStart` fills on the left up to the width and keeps the text at the end |
| Text.JoinAppend | src/utils/utils.ts:4 | joining two non-empty lists puts one separator between them |
| Text.Join | src/utils/utils.ts:4 | `join(sep)`: `JoinAppend` proves one separator between parts |
| Text.Contains | src/pages/CategoriesPage.tsx:56 | `includes`; `ContainsOccurs` characterises it |
| Text.ContainsOccurs | src/pages/CategoriesPage.tsx:56 | `s.includes(sub)` holds exactly when sub occurs at some position of s |
| Text.IsSpace | src/pages/CategoriesPage.tsx:50 | ECMAScript's WhiteSpace and LineTerminator characters, which `trim` removes; `Trim` is stated in its terms |
| Text.Units | src/components/events/EventFilters.tsx:22-24 | one code unit below U+10000, otherwise a high surrogate followed by a low surrogate |
| Text.JsLength | src/components/EventForm.tsx:13-15 | `length`: the number of UTF-16 code units, between the number of characters and twice that, and equal to it when every character is below U+10000 |
| Text.Compare | src/components/events/EventFilters.tsx:22-24 | a three-way result (-1, 0 or 1) |
| Text.CompareIsCodeUnitOrder | src/components/events/EventFilters.tsx:22-24 | the comparison is exactly the lexicographic order of the UTF-16 code units, the default order of `sort()` |
| Text.Utf16Examples | src/components/EventForm.tsx:13 | "🎉a" has length 3, and a character above U+FFFF sorts below U+FF61 |
| Text.CompareAntisymmetric | src/pages/Events/EventsPage.tsx:51-53 | swapping the arguments negates the comparison |
| Text.CompareZero | src/pages/Events/EventsPage.tsx:51-53 | the comparison is 0 exactly for equal strings |
| Text.CompareTransitive | src/pages/Events/EventsPage.tsx:51-53 | the comparison is transitive |

## Left out

- Refresh-token rotation: the code holds one token and logs out on a 401, with no refresh or retry. Nothing of that kind is modelled because the code has none.
- HTTP transport and caching (axios, react-query, `refetch`, `staleTime`, invalidation): replies are the `ApiResult` parameters. The refetch after a status change and the mount-time loads are not modelled.
- Concurrency between handlers: each handler is modelled as one step over the state it sees. The scroll observer is the exception: it holds the `handleIntersect` of the render that last attached it, and `LogsState.observerFilters` records that render's filters. `LogsState.BeginFetch` and `CompleteFetch` are separate steps so that the "no-op while loading" guard can be stated. Interleavings of two loads are not modelled.
- Browser APIs: `window.location` (the 401 redirect is returned as a value), IntersectionObserver (its `isIntersecting` is a parameter), the mobile check, `confirm`/`beforeunload` and `document.body.style`.
- The QR scanner, the VK ID and Telegram login widgets, their callback pages, and `generateState` (it uses `Math.random`): these are foreign calls.
- JSON serialisation of stored event filters: storage holds filter values directly. A present but empty saved string falls back to the defaults in the source, and this is not modelled.
- Dates and time zones: instants are integer milliseconds, and `toDateString` equality is an abstract `dayOf` parameter. `DateParts` stands for the local calendar getters of a `Date`. Date parsing is not modelled.
- `Text.ParseNumber`: models `Number(text)` only for a blank text and for optionally signed digits. Decimals, exponents, hex and "Infinity" are NaN here.
- `Text.ParseInt`: models base-10 `parseInt` on an optional sign and a digit run. Hex prefixes are not modelled.
- Text.Compare: the events page's `localeCompare` sort is modelled by the UTF-16 code-unit order of `sort()`. Locale collation is not modelled.
- `Array.prototype.sort` stability and the exact order of events that compare equal are not stated, only sortedness and permutation.
- Text.ToLower: `toLowerCase` is modelled on ASCII and Cyrillic letters only. Other scripts and special casings are not modelled.
- Partial updates in `useEventFilters` and `useBookings` take a field as either given or absent. A field explicitly set to `undefined` is not modelled.
- The CategoriesPage modal handlers (open, edit and delete dialogs, and their selection state). They are dialog plumbing around the `filtered` transform.
- LogsPage `handlePageSizeChange`: the page size stays 20, the value the page starts with.
- LogsPage `fetchActions` and the list of available actions are not modelled.
- The stale value of `loading` seen by handlers created before a load began is not modelled.
- `Pagination` with a page size of 0 or below: callers always pass a positive constant or a URL value that `BookingsPage` shows only when the total exceeds it. A page size of 0 would make `Array.from` throw, and this is not modelled.
- HTTP header names are matched exactly. Axios's case-insensitive header lookup is not modelled.
- `UserCard` reads `features` from the session, which the session store never provides, so ban controls are always off in practice. The model takes `features` as a parameter.
- Dead code: the `SEARCH_USE_FETCHED_DATA` branch of the bookings search (its constant is false), the unused per-row `eventsMap` and the commented-out `handleSave` of the ID dialog.
- The `published` and `sales` selects of the event filter panel are inert: they are edited, merged and saved with the other filters, but no filter of the events page reads them. The filter values of the model do not carry these two fields.
- Rendering, styling, charts, the route table, type-only files, configuration files, and the form library machinery (resolver, dirty tracking, `register`) are not modelled.

## Findings

| source | as written | input that shows it | evidently intended | confidence | as-written member | corrected member |
|---|---|---|---|---|---|---|
| src/pages/LogsPage.tsx:106-109 | `handleReset` clears the filters with `setFilters` and at once calls `fetchLogs(1, true)`, which reads the `filters` captured by that render, so the reload still uses the old filters | filters with actorId "5", then Reset: the request carries `actorId=5` while the inputs show empty filters | the reload after a reset asks for page 1 with no filter | high (not executed) | LogsPage.LogsState.HandleResetAsWritten, LogsPage.StaleResetKeepsActorFilter | LogsPage.LogsState.HandleReset, LogsPage.ResetQueryHasNoFilters |
| src/pages/UsersPage.tsx:100 | the page hands each card `currentAdminRole={currentRole ?? "ADMIN"}`, but `UserCard` reads a `currentAdmin` record (src/components/users/UserCard.tsx:9,23-29), so `canModify` and `canBan` are always false | a ROOT admin opens the users page: no card offers promote, demote or an enabled ban | each card receives the signed-in user's admin record | medium (not executed) | UsersPage.CardAdminAsWritten, UsersPage.AsWrittenRootCannotModify | UsersPage.CardAdmin, UsersPage.RootCanModifyEveryCard |
