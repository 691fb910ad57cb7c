/** The permission rules of a user's card in the user list: who may change
    whose admin rights, who may ban whom, and which buttons are shown or
    disabled. */
module UserCard {
  import opened Js
  import opened Models
  import opened Text

  /** The feature flags of the auth context; only `ap.ban` is read. */
  datatype Features = Features(apBan: bool)

  /** `banEnabled`: ban controls are on only when the flags say so, and off
      when there are no flags. */
  function BanEnabled(features: Option<Features>): (b: bool)
    ensures b <==> features.Some? && features.value.apBan
  {
    match features
    case None => false
    case Some(f) => f.apBan
  }

  /** `canModify`: may the signed-in admin grant or withdraw the target's admin rights? */
  function CanModify(target: User, current: Option<Admin>): (b: bool)
    ensures current.None? ==> !b
    ensures current.Some? && current.value.role == ROOT ==> b
    ensures current.Some? && current.value.role == MANAGER ==> !b
    ensures current.Some? && current.value.role == ADMIN ==>
              (b <==> target.admin.None? || target.admin.value.role != ROOT)
  {
    current.Some? &&
      (current.value.role == ROOT
       || (current.value.role == ADMIN && RoleOfAdmin(target.admin) != Some(ROOT)))
  }

  /** `user.admin?.role` */
  function RoleOfAdmin(admin: Option<Admin>): (r: Option<Role>)
    ensures r.Some? <==> admin.Some?
    ensures r.Some? ==> r.value == admin.value.role
  {
    match admin
    case None => None
    case Some(a) => Some(a.role)
  }

  /** `canBan`: some other admin may ban a user who is not staff; a staff
      member may be banned by a non-ROOT admin, and by a ROOT admin only if
      the member is ROOT as well. Nobody may ban themselves. */
  function CanBan(target: User, current: Option<Admin>): (b: bool)
    ensures b <==>
              current.Some? && target.id != current.value.userId
              && (target.admin.Some? && current.value.role == ROOT ==> target.admin.value.role == ROOT)
    ensures current.None? || target.id == current.value.userId ==> !b
  {
    current.Some?
    && (target.admin.None?
        || (target.admin.Some? && current.value.role != ROOT)
        || (target.admin.Some? && target.admin.value.role == ROOT && current.value.role == ROOT))
    && target.id != current.value.userId
  }

  /** The ID button is disabled iff exactly one of the two platform ids is set. */
  function IdButtonDisabled(user: User): (b: bool)
    ensures b <==> Present(user.vkId) != Present(user.telegramId)
  {
    (Present(user.vkId) && !Present(user.telegramId)) || (!Present(user.vkId) && Present(user.telegramId))
  }

  /** The rights button of the card. */
  datatype RightsButton = NoRightsButton | Demote(disabled: bool) | Promote

  function RightsButtonOf(target: User, current: Option<Admin>): (r: RightsButton)
    ensures r == NoRightsButton <==> !CanModify(target, current)
    ensures r.Demote? <==> target.admin.Some? && CanModify(target, current)
    ensures r.Promote? <==> target.admin.None? && CanModify(target, current)
    // demoting oneself is disabled
    ensures r.Demote? ==> (r.disabled <==> current.value.userId == target.id)
  {
    if !CanModify(target, current) then NoRightsButton
    else if target.admin.Some? then Demote(current.value.userId == target.id)
    else Promote
  }

  /** The ban control of the card: a ban button for users who are not
      banned, an unban button for those who are; disabled unless `canBan`. */
  datatype BanButton = NoBanButton | Ban(disabled: bool) | Unban(disabled: bool)

  function BanButtonOf(target: User, current: Option<Admin>, features: Option<Features>): (r: BanButton)
    ensures r == NoBanButton <==> !BanEnabled(features)
    ensures r.Ban? <==> BanEnabled(features) && !target.isBanned
    ensures r.Unban? <==> BanEnabled(features) && target.isBanned
    ensures r != NoBanButton ==> (r.disabled <==> !CanBan(target, current))
  {
    if !BanEnabled(features) then NoBanButton
    else if target.isBanned then Unban(!CanBan(target, current))
    else Ban(!CanBan(target, current))
  }

  const Unnamed: string := "Без имени"

  /** `fullName`: first and last name with one space, trimmed. */
  function FullName(user: User): (r: string)
    ensures r == [] || (!IsSpace(r[0]) && !IsSpace(r[|r| - 1]))
    // what is left of "first last" once only white space is cut from both ends
    ensures var full := user.firstName + " " + user.lastName;
            exists i, j :: 0 <= i <= j <= |full| && r == full[i..j]
              && (forall k :: 0 <= k < i ==> IsSpace(full[k]))
              && (forall k :: j <= k < |full| ==> IsSpace(full[k]))
  {
    Trim(user.firstName + " " + user.lastName)
  }

  /** Names with no white space at their edges are shown as they are, joined
      by one space. */
  lemma FullNameOfTrimmedNames(user: User)
    requires user.firstName != [] && !IsSpace(user.firstName[0]) && !IsSpace(user.firstName[|user.firstName| - 1])
    requires user.lastName != [] && !IsSpace(user.lastName[0]) && !IsSpace(user.lastName[|user.lastName| - 1])
    ensures FullName(user) == user.firstName + " " + user.lastName
  {
    var full := user.firstName + " " + user.lastName;
    assert full[0] == user.firstName[0];
    assert full[|full| - 1] == user.lastName[|user.lastName| - 1];
    assert LeadingSpaces(full) == 0;
    assert TrailingSpaces(full) == 0;
    assert full[0..|full|] == full;
  }

  /** The name shown on the card: the full name, or "Без имени" when it is empty. */
  function DisplayName(user: User): (r: string)
    ensures r != []
    ensures r == Unnamed || r == FullName(user)
    ensures FullName(user) != [] ==> r == FullName(user)
  {
    var n := FullName(user);
    if n == [] then Unnamed else n
  }

  /** A user with neither first nor last name is shown as "Без имени":
      the separating space alone is trimmed away. */
  lemma BlankNameShowsUnnamed(user: User)
    requires user.firstName == [] && user.lastName == []
    ensures DisplayName(user) == Unnamed
  {
    assert user.firstName + " " + user.lastName == " ";
    assert LeadingSpaces(" ") == 1;
  }
}
