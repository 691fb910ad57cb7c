/** The dialog that shows a user's Telegram and VK ids and resets one of them. */
module IdEditModal {
  import opened Js
  import opened Models

  datatype Platform = Vk | Telegram

  /** The platform name sent to the server and shown in the toast. */
  function PlatformName(p: Platform): string
  {
    match p
    case Vk => "vk"
    case Telegram => "telegram"
  }

  /** What a reset does outside the dialog, in order. */
  datatype Effect =
    | ResetRequest(userId: int, platform: Platform)
    | ToastSuccess(text: string)
    | ToastError(text: string)
    | Updated
    | Closed

  const GenericError: string := "Произошла ошибка"

  /** The Telegram reset button is disabled unless both ids are present:
      removing the only linked platform is not offered. */
  function TelegramResetDisabled(telegramId: Option<string>, vkId: Option<string>): (b: bool)
    ensures b <==> !(Present(telegramId) && Present(vkId))
  {
    !Present(telegramId) || (Present(telegramId) && !Present(vkId))
  }

  /** The VK reset button, by the same rule seen from the other side. */
  function VkResetDisabled(telegramId: Option<string>, vkId: Option<string>): (b: bool)
    ensures b <==> !(Present(telegramId) && Present(vkId))
    ensures b == TelegramResetDisabled(telegramId, vkId)
  {
    !Present(vkId) || (Present(vkId) && !Present(telegramId))
  }

  class IdEditState {
    var userId: Option<int>
    var telegramId: Option<string>
    var vkId: Option<string>

    /** The initial state is taken from the user prop, with null for anything missing. */
    constructor (user: Option<User>)
      ensures user.None? ==> userId == None && telegramId == None && vkId == None
      ensures user.Some? ==> userId == Some(user.value.id)
                             && telegramId == user.value.telegramId && vkId == user.value.vkId
    {
      if user.Some? {
        userId := Some(user.value.id);
        telegramId := user.value.telegramId;
        vkId := user.value.vkId;
      } else {
        userId := None;
        telegramId := None;
        vkId := None;
      }
    }

    /** The user-sync effect: a new user prop overwrites the three fields; no
        user leaves them as they were. */
    method SyncFromUser(user: Option<User>)
      modifies this
      ensures user.Some? ==> userId == Some(user.value.id)
                             && telegramId == user.value.telegramId && vkId == user.value.vkId
      ensures user.None? ==> userId == old(userId) && telegramId == old(telegramId) && vkId == old(vkId)
    {
      if user.Some? {
        userId := Some(user.value.id);
        telegramId := user.value.telegramId;
        vkId := user.value.vkId;
      }
    }

    /** `handleReset(platform)` once the request has completed with `response`;
        the dialog's own state is not changed. */
    method HandleReset(platform: Platform, response: ApiResult<()>) returns (effects: seq<Effect>)
      // nothing happens without a (truthy) user id
      ensures !PresentId(userId) ==> effects == []
      ensures PresentId(userId) ==> |effects| >= 2 && effects[0] == ResetRequest(userId.value, platform)
      // success: toast, then onUpdated, then onClose
      ensures PresentId(userId) && response.Ok? ==>
                effects == [ResetRequest(userId.value, platform),
                            ToastSuccess("Сброшен ID для платформы " + PlatformName(platform)),
                            Updated, Closed]
      // failure: one error toast with the server's message if it sent one, and no callback
      ensures PresentId(userId) && response.Err? ==>
                |effects| == 2 && Updated !in effects && Closed !in effects
                && effects[1] == ToastError(if Present(response.message) then response.message.value else GenericError)
    {
      if !PresentId(userId) {
        return [];
      }
      effects := [ResetRequest(userId.value, platform)];
      match response
      case Ok(_) =>
        effects := effects + [ToastSuccess("Сброшен ID для платформы " + PlatformName(platform))];
        effects := effects + [Updated];
        effects := effects + [Closed];
      case Err(_, message) =>
        if Present(message) {
          effects := effects + [ToastError(message.value)];
        } else {
          effects := effects + [ToastError(GenericError)];
        }
    }
  }
}
