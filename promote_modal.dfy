/** The dialog that makes a user an admin or a manager of one organizer. */
module PromoteModal {
  import opened Js
  import opened Models

  datatype Organizer = Organizer(id: int, name: string)

  /** The body of the make-admin request. */
  datatype Payload = Payload(role: Role, organizerId: Option<int>)

  /** What `handleSubmit` does before any request: nothing without a user,
      an error for a manager without an organizer, otherwise a request. */
  datatype SubmitPlan = NoUser | MissingOrganizer | Send(userId: int, payload: Payload)

  function PlanSubmit(user: Option<User>, role: Role, organizerId: Option<int>): (p: SubmitPlan)
    ensures user.None? ==> p == NoUser
    ensures user.Some? && role == MANAGER && !PresentId(organizerId) ==> p == MissingOrganizer
    ensures p.Send? <==> user.Some? && (role == MANAGER ==> PresentId(organizerId))
    ensures p.Send? ==> p.userId == user.value.id && p.payload.role == role
    // the organizer is sent for a manager only, and is then a truthy id
    ensures p.Send? ==> (p.payload.organizerId.Some? <==> role == MANAGER)
    ensures p.Send? && role == MANAGER ==> p.payload.organizerId == organizerId && PresentId(organizerId)
  {
    if user.None? then NoUser
    else if role == MANAGER && !PresentId(organizerId) then MissingOrganizer
    else Send(user.value.id, Payload(role, if role == MANAGER then organizerId else None))
  }

  datatype Effect =
    | MakeAdminRequest(userId: int, payload: Payload)
    | ToastSuccess(text: string)
    | ToastError(text: string)
    | Updated
    | Closed

  class PromoteState {
    var role: Role
    var organizerId: Option<int>
    var organizers: seq<Organizer>

    /** The dialog opens on ADMIN with no organizers loaded. */
    constructor ()
      ensures role == ADMIN && organizerId == None && organizers == []
    {
      role := ADMIN;
      organizerId := None;
      organizers := [];
    }

    /** Choosing a role. The effect on `role` loads the organizer list when
        the role becomes MANAGER; the result says whether it does. */
    method SetRole(r: Role) returns (fetchOrganizers: bool)
      modifies this
      ensures role == r && organizerId == old(organizerId) && organizers == old(organizers)
      ensures fetchOrganizers <==> r == MANAGER && old(role) != MANAGER
    {
      fetchOrganizers := r == MANAGER && role != MANAGER;
      role := r;
    }

    /** The organizer list has arrived (or failed to). On success the first
        organizer is preselected, and none is when the list is empty. */
    method OrganizersLoaded(response: ApiResult<seq<Organizer>>) returns (toast: Option<string>)
      modifies this
      ensures role == old(role)
      ensures response.Ok? ==>
                toast == None && organizers == response.data
                && organizerId == (if response.data == [] then None else Some(response.data[0].id))
      ensures response.Err? ==>
                toast == Some("Не удалось загрузить организаторов")
                && organizers == old(organizers) && organizerId == old(organizerId)
    {
      match response
      case Ok(list) =>
        organizers := list;
        organizerId := if list == [] then None else Some(list[0].id);
        toast := None;
      case Err(_, _) =>
        toast := Some("Не удалось загрузить организаторов");
    }

    /** Picking an organizer in the list. */
    method SelectOrganizer(id: int)
      modifies this
      ensures organizerId == Some(id) && role == old(role) && organizers == old(organizers)
    {
      organizerId := Some(id);
    }

    /** `handleSubmit` for `user` once the request (if one is sent) has
        completed with `response`; the dialog's state is not changed. */
    method HandleSubmit(user: Option<User>, response: ApiResult<()>) returns (effects: seq<Effect>)
      ensures PlanSubmit(user, role, organizerId) == NoUser ==> effects == []
      ensures PlanSubmit(user, role, organizerId) == MissingOrganizer ==>
                effects == [ToastError("Выберите организатора")]
      ensures PlanSubmit(user, role, organizerId).Send? ==>
                |effects| >= 2
                && effects[0] == MakeAdminRequest(PlanSubmit(user, role, organizerId).userId,
                                                  PlanSubmit(user, role, organizerId).payload)
      ensures PlanSubmit(user, role, organizerId).Send? && response.Ok? ==>
                effects[1..] == [ToastSuccess("Пользователь назначен администратором"), Updated, Closed]
      ensures PlanSubmit(user, role, organizerId).Send? && response.Err? ==>
                effects[1..] == [ToastError("Ошибка при назначении админа")]
      ensures Updated in effects ==> response.Ok?
    {
      if user.None? {
        return [];
      }
      if role == MANAGER && !(organizerId.Some? && organizerId.value != 0) {
        return [ToastError("Выберите организатора")];
      }
      var payload := Payload(role, if role == MANAGER then organizerId else None);
      effects := [MakeAdminRequest(user.value.id, payload)];
      if response.Ok? {
        effects := effects + [ToastSuccess("Пользователь назначен администратором"), Updated, Closed];
      } else {
        effects := effects + [ToastError("Ошибка при назначении админа")];
      }
    }
  }
}
