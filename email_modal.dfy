/** The "send an e-mail" modal of a post: a text and a sending flag, a
    submit that refuses blank text and races the send against a 15-second
    timeout, and a close that is ignored while a send is in flight. */
module EmailModal {
  import opened Js

  const EmptyTextAlert: string := "메일 내용을 입력해주세요."
  /** The message the timeout rejects with. */
  const TimeoutMessage: string := "요청 시간이 초과되었습니다."
  const TimeoutAlert: string := "메일 전송에 시간이 오래 걸리고 있습니다. 잠시 후 다시 시도해주세요."

  /** How the race between `onSend` and the timer ended: the send resolved
      first, or one of them rejected with an error message (the timer's is
      `TimeoutMessage`). */
  datatype SendOutcome = Delivered | Rejected(message: string)

  /** The `onSend(missingId, emailText)` call. */
  datatype SendRequest = SendRequest(missingId: Option<string>, text: string)

  /** What one submit did besides changing the modal's state. */
  datatype SubmitEffect = SubmitEffect(alert: Option<string>, request: Option<SendRequest>, closed: bool)

  /** What the open modal shows. */
  datatype View = View(text: string, inputsDisabled: bool, submitLabel: string)

  class Modal {
    const missingId: Option<string>
    var emailText: string
    var sending: bool

    constructor (missingId: Option<string>)
      ensures this.missingId == missingId && emailText == "" && !sending
    {
      this.missingId := missingId;
      emailText := "";
      sending := false;
    }

    /** The textarea's `onChange`. */
    method HandleTextChange(text: string)
      modifies this`emailText
      ensures emailText == text
    {
      emailText := text;
    }

    /** The synchronous part of `handleSubmit`: blank text (empty once
        trimmed) is refused with an alert and changes nothing; otherwise the
        send starts and `sending` is set. */
    method BeginSubmit() returns (alert: Option<string>, request: Option<SendRequest>)
      modifies this`sending
      ensures request.Some? <==> !IsBlank(emailText)
      ensures request.Some? ==> request.value == SendRequest(missingId, emailText) && alert.None? && sending
      ensures request.None? ==> alert == Some(EmptyTextAlert) && sending == old(sending)
    {
      if IsBlank(emailText) {
        alert, request := Some(EmptyTextAlert), None;
        return;
      }
      alert, request := None, Some(SendRequest(missingId, emailText));
      sending := true;
    }

    /** The part of `handleSubmit` after the race settles: a delivered mail
        clears the text and closes the modal; a timeout alerts and keeps the
        text; any other failure is silent and keeps the text. Sending is
        over in every case. */
    method FinishSubmit(outcome: SendOutcome) returns (alert: Option<string>, closed: bool)
      modifies this`emailText, this`sending
      ensures !sending
      ensures closed <==> outcome.Delivered?
      ensures outcome.Delivered? ==> emailText == "" && alert.None?
      ensures outcome.Rejected? ==> emailText == old(emailText)
      ensures outcome.Rejected? ==> (alert.Some? <==> outcome.message == TimeoutMessage)
      ensures alert.Some? ==> alert.value == TimeoutAlert
    {
      alert, closed := None, false;
      match outcome {
        case Delivered =>
          emailText := "";
          closed := true;
        case Rejected(message) =>
          if message == TimeoutMessage {
            alert := Some(TimeoutAlert);
          }
      }
      sending := false;
    }

    /** A whole submit: nothing is sent for blank text, and whatever was
        sent, `sending` is false afterwards. */
    method HandleSubmit(outcome: SendOutcome) returns (effect: SubmitEffect)
      modifies this`emailText, this`sending
      ensures effect.request.Some? <==> !IsBlank(old(emailText))
      ensures effect.request.Some? ==> effect.request.value == SendRequest(missingId, old(emailText))
      ensures effect.request.None? ==> effect == SubmitEffect(Some(EmptyTextAlert), None, false)
      ensures effect.request.None? ==> emailText == old(emailText) && sending == old(sending)
      ensures effect.request.Some? ==> !sending
      ensures effect.request.Some? ==> (effect.closed <==> outcome.Delivered?)
      ensures effect.request.Some? && outcome.Delivered? ==> emailText == "" && effect.alert.None?
      ensures effect.request.Some? && outcome.Rejected? ==> emailText == old(emailText)
      ensures effect.request.Some? && outcome.Rejected? ==>
        effect.alert == (if outcome.message == TimeoutMessage then Some(TimeoutAlert) else None)
    {
      var alert, request := BeginSubmit();
      if request.None? {
        return SubmitEffect(alert, None, false);
      }
      var finalAlert, closed := FinishSubmit(outcome);
      effect := SubmitEffect(finalAlert, request, closed);
    }

    /** `handleClose`: while sending nothing happens; otherwise the text is cleared and the modal closes. */
    method HandleClose() returns (closed: bool)
      modifies this`emailText
      ensures closed <==> !sending
      ensures closed ==> emailText == ""
      ensures !closed ==> emailText == old(emailText)
    {
      closed := false;
      if !sending {
        emailText := "";
        closed := true;
      }
    }

    /** The rendering: nothing while the modal is closed; the inputs are
        disabled and the submit button says so while sending. */
    function Render(isOpen: bool): (v: Option<View>)
      reads this
      ensures v.None? <==> !isOpen
      ensures v.Some? ==> v.value.text == emailText && v.value.inputsDisabled == sending
      ensures v.Some? ==> v.value.submitLabel == if sending then "전송 중..." else "보내기"
    {
      if !isOpen then None
      else Some(View(emailText, sending, if sending then "전송 중..." else "보내기"))
    }
  }
}
