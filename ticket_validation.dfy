/** The ticket check page: validating a scanned secret or a typed ticket
    code, and confirming entry. */
module TicketValidation {
  import opened Js
  import opened Models
  import opened Text
  import Utils

  /** `/^\d+-\d+$/.test(code)`: one or more digits, a hyphen, one or more digits. */
  function IsTicketCode(code: string): (b: bool)
    ensures b <==> exists i :: 0 < i < |code| - 1 && code[i] == '-'
                                && AllDigits(code[..i]) && AllDigits(code[i + 1..])
  {
    var n := DigitPrefix(code);
    if 0 < n < |code| - 1 && code[n] == '-' && AllDigits(code[n + 1..]) then true
    else
      assert forall i :: 0 < i < |code| - 1 && code[i] == '-' && AllDigits(code[..i]) ==> i == n by {
        forall i | 0 < i < |code| - 1 && code[i] == '-' && AllDigits(code[..i])
          ensures i == n
        {
          DigitPrefixAt(code, i);
        }
      }
      false
  }

  /** The placeholder's example is a code; a missing half, a second hyphen
      or surrounding space is not. */
  lemma TicketCodeExamples()
    ensures IsTicketCode("17-123")
    ensures !IsTicketCode("17-") && !IsTicketCode("-123") && !IsTicketCode("1-2-3") && !IsTicketCode(" 17-123")
  {
    assert AllDigits("17-123"[..2]) && AllDigits("17-123"[3..]);
    assert !AllDigits("1-2-3"[2..]) by { assert "1-2-3"[2..][1] == '-'; }
  }

  /** Which request `validate(secret, code)` sends: the secret wins over the code. */
  datatype ValidatePlan = NoData | BadFormat | BySecret(secret: string) | ByCode(code: string)

  function PlanValidate(secret: Option<string>, code: Option<string>): (p: ValidatePlan)
    ensures p == NoData <==> !Present(secret) && !Present(code)
    ensures Present(secret) ==> p == BySecret(secret.value)
    ensures !Present(secret) && Present(code) ==>
              p == (if IsTicketCode(code.value) then ByCode(code.value) else BadFormat)
  {
    if Present(secret) then BySecret(secret.value)
    else if Present(code) then (if IsTicketCode(code.value) then ByCode(code.value) else BadFormat)
    else NoData
  }

  /** The validate response: the ticket's status and its secret (the other
      fields are only displayed). */
  datatype Validation = Validation(status: string, secret: string)

  /** A request to the validate endpoint. */
  datatype Request = SendSecret(secret: string) | SendCode(ticketCode: string) | MarkUsed(secret: string)

  datatype Toast = ToastSuccess(text: string) | ToastError(text: string)

  const NoDataError: string := "Не указаны данные билета"
  const FormatError: string := "Неверный формат кода"
  const CheckError: string := "Ошибка при проверке билета"
  const GenericError: string := "Произошла ошибка"

  /** The message shown for a failed request: the server's, when it sent a non-empty one. */
  function ErrorText(message: Option<string>, fallback: string): (r: string)
    ensures Present(message) ==> r == message.value
    ensures !Present(message) ==> r == fallback
  {
    if Present(message) then message.value else fallback
  }

  class ValidationPage {
    var ticketCode: string
    var result: Option<Validation>
    var error: Option<string>

    constructor ()
      ensures ticketCode == "" && result == None && error == None
    {
      ticketCode := "";
      result := None;
      error := None;
    }

    method SetTicketCode(code: string)
      modifies this
      ensures ticketCode == code && result == old(result) && error == old(error)
    {
      ticketCode := code;
    }

    /** `validate(secret, code)` once its request (if any) has completed with `response`. */
    method Validate(secret: Option<string>, code: Option<string>, response: ApiResult<Validation>)
      returns (sent: Option<Request>)
      modifies this
      ensures ticketCode == old(ticketCode)
      ensures PlanValidate(secret, code) == NoData ==>
                sent == None && result == None && error == Some(NoDataError)
      ensures PlanValidate(secret, code) == BadFormat ==>
                sent == None && result == None && error == Some(FormatError)
      ensures PlanValidate(secret, code).BySecret? ==> sent == Some(SendSecret(secret.value))
      ensures PlanValidate(secret, code).ByCode? ==> sent == Some(SendCode(code.value))
      // a request was sent: its outcome replaces the previous result and error
      ensures sent.Some? && response.Ok? ==> result == Some(response.data) && error == None
      ensures sent.Some? && response.Err? ==>
                result == None && error == Some(ErrorText(response.message, CheckError))
    {
      error := None;
      result := None;
      sent := None;
      if !Present(code) && !Present(secret) {
        error := Some(NoDataError);
      }
      if Present(secret) {
        sent := Some(SendSecret(secret.value));
      } else if Present(code) {
        if !IsTicketCode(code.value) {
          error := Some(FormatError);
          return;
        }
        sent := Some(SendCode(code.value));
      }
      if sent.Some? {
        match response
        case Ok(data) =>
          result := Some(data);
        case Err(_, message) =>
          error := Some(ErrorText(message, CheckError));
      }
    }

    /** `makeTicketUsed()` once its request (if any) has completed with `response`.
        Only a returned USED status counts as success; anything else keeps
        the result on screen. */
    method MakeTicketUsed(response: ApiResult<Validation>) returns (sent: Option<Request>, toast: Option<Toast>)
      modifies this
      ensures ticketCode == old(ticketCode)
      ensures old(result).None? ==> sent == None && toast == None && result == None && error == old(error)
      ensures old(result).Some? ==> sent == Some(MarkUsed(old(result).value.secret))
      ensures old(result).Some? && response.Ok? && response.data.status == "USED" ==>
                toast == Some(ToastSuccess("Проход подтверджён")) && result == None && error == None
      ensures old(result).Some? && response.Ok? && response.data.status != "USED" ==>
                toast == Some(ToastError(GenericError)) && result == old(result) && error == old(error)
      ensures old(result).Some? && response.Err? ==>
                toast == Some(ToastError(ErrorText(response.message, GenericError)))
                && result == old(result) && error == old(error)
    {
      sent, toast := None, None;
      if result.Some? {
        sent := Some(MarkUsed(result.value.secret));
        match response
        case Ok(data) =>
          if data.status == "USED" {
            toast := Some(ToastSuccess("Проход подтверджён"));
            result := None;
            error := None;
          } else {
            toast := Some(ToastError(GenericError));
          }
        case Err(_, message) =>
          toast := Some(ToastError(ErrorText(message, GenericError)));
      }
    }
  }

  /** `getDisplayStatus`: the status word shown on the page. */
  function DisplayStatus(status: string): (r: string)
    ensures status == "AVAILABLE" ==> r == "доступен"
    ensures status == "RESERVED" ==> r == "забронирован"
    ensures status == "SOLD" ==> r == "продан"
    ensures status == "USED" ==> r == "использован"
    ensures status !in {"AVAILABLE", "RESERVED", "SOLD", "USED"} ==> r == status
  {
    match status
    case "AVAILABLE" => "доступен"
    case "RESERVED" => "забронирован"
    case "SOLD" => "продан"
    case "USED" => "использован"
    case _ => status
  }

  /** The page's words are the shared labels in lower case. */
  lemma DisplayStatusIsLowerLabel(status: string)
    requires status in {"AVAILABLE", "RESERVED", "SOLD", "USED"}
    ensures DisplayStatus(status) == ToLower(Utils.DisplayTicketStatus(status))
  {
  }
}
