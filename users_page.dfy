/** The users page: ten users per page, previous/next buttons clamped to the
    page range, and the search box that returns to page 1. */
module UsersPage {
  import opened Js
  import opened Models
  import opened AuthContext
  import UserCard

  const PageSize: int := 10

  /** `Math.ceil(total / pageSize)` with `total = data?.total ?? 0`. */
  function TotalPages(total: Option<int>): (n: int)
    ensures (n - 1) * PageSize < OrElse(total, 0) <= n * PageSize
    ensures total.None? ==> n == 0
    ensures OrElse(total, 0) >= 0 ==> n >= 0
  {
    CeilDiv(OrElse(total, 0), PageSize)
  }

  /** The previous/next controls are drawn only when there is more than one page. */
  predicate ShowControls(totalPages: int)
  {
    totalPages > 1
  }

  lemma ControlsForMoreThanOnePage(total: Option<int>)
    ensures ShowControls(TotalPages(total)) <==> OrElse(total, 0) > PageSize
  {
    CeilDivAboveOne(OrElse(total, 0), PageSize);
  }

  /** The "back" updater `Math.max(p - 1, 1)`. */
  function Prev(p: int): (r: int)
    ensures r >= 1
    ensures p > 1 ==> r == p - 1
    ensures p <= 1 ==> r == 1
  {
    if p - 1 > 1 then p - 1 else 1
  }

  /** The "forward" updater `Math.min(p + 1, totalPages)`. */
  function Next(p: int, totalPages: int): (r: int)
    ensures r <= totalPages
    ensures p < totalPages ==> r == p + 1
    ensures p >= totalPages ==> r == totalPages
  {
    if p + 1 < totalPages then p + 1 else totalPages
  }

  predicate PrevDisabled(page: int) { page == 1 }

  predicate NextDisabled(page: int, totalPages: int) { page == totalPages }

  /** Both buttons keep a page that is in range in range, and each moves by
      one page unless its button is disabled. */
  lemma ButtonsKeepPageInRange(p: int, totalPages: int)
    requires 1 <= p <= totalPages
    ensures 1 <= Prev(p) <= totalPages && 1 <= Next(p, totalPages) <= totalPages
    ensures !PrevDisabled(p) ==> Prev(p) == p - 1
    ensures PrevDisabled(p) ==> Prev(p) == p
    ensures !NextDisabled(p, totalPages) ==> Next(p, totalPages) == p + 1
    ensures NextDisabled(p, totalPages) ==> Next(p, totalPages) == p
  {
  }

  class UsersPageState {
    var search: string
    var page: int

    constructor ()
      ensures search == "" && page == 1
    {
      search := "";
      page := 1;
    }

    /** Typing in the search box: the text changes and the page returns to 1. */
    method SetSearch(text: string)
      modifies this
      ensures search == text && page == 1
    {
      search := text;
      page := 1;
    }

    method GoBack()
      modifies this
      ensures page == Prev(old(page)) && search == old(search)
      ensures page >= 1
    {
      page := Prev(page);
    }

    method GoForward(totalPages: int)
      modifies this
      ensures page == Next(old(page), totalPages) && search == old(search)
      ensures page <= totalPages
      ensures 1 <= old(page) && 1 <= totalPages ==> 1 <= page
    {
      page := Next(page, totalPages);
    }
  }

  // ----- the admin record handed to each user card -----

  /** What each `UserCard` receives as its `currentAdmin` as the page is
      written: the page passes the role under another prop name
      (`currentAdminRole`), so the prop the card reads is always undefined. */
  function CardAdminAsWritten(currentRole: Option<Role>): (a: Option<Admin>)
    ensures a.None?
  {
    None
  }

  /** As written, no signed-in admin, not even ROOT, can modify or ban
      anyone from the users page: every card shows neither control enabled. */
  lemma AsWrittenRootCannotModify(signedIn: Option<User>, target: User)
    requires RoleOf(signedIn) == Some(ROOT)
    ensures !UserCard.CanModify(target, CardAdminAsWritten(RoleOf(signedIn)))
    ensures !UserCard.CanBan(target, CardAdminAsWritten(RoleOf(signedIn)))
    ensures UserCard.RightsButtonOf(target, CardAdminAsWritten(RoleOf(signedIn))) == UserCard.NoRightsButton
  {
  }

  /** The evidently intended prop: the signed-in user's own admin record. */
  function CardAdmin(signedIn: Option<User>): (a: Option<Admin>)
    ensures a.Some? ==> RoleOf(signedIn) == Some(a.value.role)
    ensures signedIn.Some? && signedIn.value.admin.Some? ==> a.Some? && a.value.userId == signedIn.value.admin.value.userId
    ensures RoleOf(signedIn).None? ==> a.None?
  {
    match signedIn
    case None => None
    case Some(u) => u.admin
  }

  /** With the intended wiring a ROOT admin can modify every user, and can
      ban every user without an admin record other than themself. */
  lemma RootCanModifyEveryCard(signedIn: Option<User>, target: User)
    requires RoleOf(signedIn) == Some(ROOT)
    ensures UserCard.CanModify(target, CardAdmin(signedIn))
    ensures target.admin.None? && target.id != signedIn.value.admin.value.userId ==>
              UserCard.CanBan(target, CardAdmin(signedIn))
  {
  }
}
