/**
 * The two sign-up screens (the Kakao follow-up sign-up and the plain join
 * page) share one form: per-field validation, a server-side availability check
 * for the email, nickname and phone steps, and a final submit. They differ
 * only in the endpoint the submit calls and in where the temporary token
 * comes from.
 */
module Signup {
  import opened Util

  // ---------------------------------------------------------------------
  // validateField

  /** `[^\s@]+` matches all of `s`. */
  predicate Plain(s: string)
  {
    forall i :: 0 <= i < |s| ==> !IsSpace(s[i]) && s[i] != '@'
  }

  /**
   * `/^[^\s@]+@[^\s@]+\.[^\s@]+$/`: some '@' at `k` and some later '.' at `j`
   * cut the text into three non-empty runs free of white space and '@'.
   */
  predicate IsEmail(s: string)
  {
    exists k, j | 0 < k && k + 1 < j && j + 1 < |s| ::
      s[k] == '@' && s[j] == '.' && Plain(s[..k]) && Plain(s[k + 1..j]) && Plain(s[j + 1..])
  }

  /** An accepted email has no white space, exactly one '@', and a '.' somewhere after it with text on both sides. */
  lemma EmailShape(s: string)
    requires IsEmail(s)
    ensures forall i :: 0 <= i < |s| ==> !IsSpace(s[i])
    ensures exists k :: 0 < k < |s| && s[k] == '@' && forall i :: 0 <= i < |s| && i != k ==> s[i] != '@'
  {
    var k, j :| 0 < k && k + 1 < j && j + 1 < |s| &&
      s[k] == '@' && s[j] == '.' && Plain(s[..k]) && Plain(s[k + 1..j]) && Plain(s[j + 1..]);
    forall i | 0 <= i < |s| && i != k
      ensures !IsSpace(s[i]) && s[i] != '@'
    {
      if i < k {
        assert s[..k][i] == s[i];
      } else if i < j {
        assert s[k + 1..j][i - k - 1] == s[i];
      } else if i > j {
        assert s[j + 1..][i - j - 1] == s[i];
      }
    }
  }

  /** A text with two '@' signs is never an email. */
  lemma TwoAtsRejected(s: string, a: int, b: int)
    requires 0 <= a < b < |s| && s[a] == '@' && s[b] == '@'
    ensures !IsEmail(s)
  {
    if IsEmail(s) {
      EmailShape(s);
    }
  }

  /** `^\d{10,11}$` on the text with every '-' removed. */
  predicate IsPhone(value: string)
  {
    var digits := RemoveChar(value, '-');
    AllDigits(digits) && (|digits| == 10 || |digits| == 11)
  }

  /** Hyphens never matter to the phone rule, wherever they are. */
  lemma PhoneIgnoresHyphens(a: string, b: string)
    ensures RemoveChar(a + "-" + b, '-') == RemoveChar(a + b, '-')
    ensures IsPhone(a + "-" + b) == IsPhone(a + b)
  {
    assert RemoveChar("-", '-') == RemoveChar([], '-') == [];
    RemoveCharAppend(a + "-", b, '-');
    RemoveCharAppend(a, "-", '-');
    RemoveCharAppend(a, b, '-');
    assert RemoveChar(a + "-", '-') == RemoveChar(a, '-');
  }

  const EmailRequired := "이메일을 입력해주세요"
  const EmailInvalid := "올바른 이메일 형식이 아닙니다"
  const NameRequired := "이름을 입력해주세요"
  const NameTooShort := "이름은 2자 이상이어야 합니다"
  const NicknameRequired := "닉네임을 입력해주세요"
  const NicknameTooShort := "닉네임은 2자 이상이어야 합니다"
  const PhoneRequired := "휴대폰 번호를 입력해주세요"
  const PhoneInvalid := "올바른 휴대폰 번호 형식이 아닙니다"

  /** The message for a field's value, or `None` (`null`) when it is acceptable. */
  function ValidateField(field: string, value: string): (error: Option<string>)
    ensures field == "userEmail" ==>
      (value == "" ==> error == Some(EmailRequired)) &&
      (value != "" ==> (error.None? <==> IsEmail(value)) && (error.Some? ==> error == Some(EmailInvalid)))
    ensures field == "userName" ==>
      (value == "" ==> error == Some(NameRequired)) &&
      (|value| == 1 ==> error == Some(NameTooShort)) &&
      (|value| >= 2 ==> error.None?)
    ensures field == "userNickname" ==>
      (value == "" ==> error == Some(NicknameRequired)) &&
      (|value| == 1 ==> error == Some(NicknameTooShort)) &&
      (|value| >= 2 ==> error.None?)
    ensures field == "userPhone" ==>
      (value == "" ==> error == Some(PhoneRequired)) &&
      (value != "" ==> (error.None? <==> IsPhone(value)) && (error.Some? ==> error == Some(PhoneInvalid)))
    ensures field !in {"userEmail", "userName", "userNickname", "userPhone"} ==> error.None?
  {
    if field == "userEmail" then
      if value == "" then Some(EmailRequired)
      else if !IsEmail(value) then Some(EmailInvalid)
      else None
    else if field == "userName" then
      if value == "" then Some(NameRequired)
      else if |value| < 2 then Some(NameTooShort)
      else None
    else if field == "userNickname" then
      if value == "" then Some(NicknameRequired)
      else if |value| < 2 then Some(NicknameTooShort)
      else None
    else if field == "userPhone" then
      if value == "" then Some(PhoneRequired)
      else if !IsPhone(value) then Some(PhoneInvalid)
      else None
    else None
  }

  /** A phone number written with hyphens is judged on its digits alone. */
  lemma PhoneFieldWithHyphens(a: string, b: string)
    requires a + b != []
    ensures ValidateField("userPhone", a + "-" + b) == ValidateField("userPhone", a + b)
  {
    PhoneIgnoresHyphens(a, b);
  }

  /** A run of one to nine digits, or of twelve, is never a phone number, hyphens or not. */
  lemma PhoneLengthBounds(value: string)
    requires |RemoveChar(value, '-')| < 10 || |RemoveChar(value, '-')| > 11
    ensures value != "" ==> ValidateField("userPhone", value) == Some(PhoneInvalid)
  {
  }

  // ---------------------------------------------------------------------
  // validateCheckSteps

  /** An availability check resolves with its `isAvailable` value, or throws. */
  datatype CheckOutcome = Answered(isAvailable: string) | CheckThrew

  /** The fields whose step asks the server. */
  predicate IsCheckedField(focusId: string)
  {
    focusId == "userEmail" || focusId == "userNickname" || focusId == "userPhone"
  }

  function TakenMessage(focusId: string): string
  {
    if focusId == "userEmail" then "이미 사용 중인 이메일입니다. 다른 이메일을 입력해주세요."
    else if focusId == "userNickname" then "이미 사용 중인 닉네임입니다. 다른 닉네임을 입력해주세요."
    else "이미 사용 중인 휴대폰 번호입니다. 다른 번호를 입력해주세요."
  }

  function CheckFailedMessage(focusId: string): string
  {
    if focusId == "userEmail" then "이메일 중복 확인 중 오류가 발생했습니다. 다시 시도해주세요."
    else if focusId == "userNickname" then "닉네임 중복 확인 중 오류가 발생했습니다. 다시 시도해주세요."
    else "휴대폰 번호 중복 확인 중 오류가 발생했습니다. 다시 시도해주세요."
  }

  /** The error a step's check records on its own field, or `None` when the step may proceed. */
  function StepError(focusId: string, outcome: CheckOutcome): (error: Option<string>)
    ensures error.None? <==> !IsCheckedField(focusId) || outcome == Answered("AVAILABLE")
    ensures error.Some? && outcome.CheckThrew? ==> error.value == CheckFailedMessage(focusId)
    ensures error.Some? && outcome.Answered? ==> error.value == TakenMessage(focusId)
  {
    if !IsCheckedField(focusId) then None
    else match outcome
      case Answered(isAvailable) => if isAvailable != "AVAILABLE" then Some(TakenMessage(focusId)) else None
      case CheckThrew => Some(CheckFailedMessage(focusId))
  }

  /** The taken and failure messages of the three checked fields are six different texts. */
  lemma StepMessagesDistinct(f: string, g: string)
    requires IsCheckedField(f) && IsCheckedField(g)
    ensures TakenMessage(f) != CheckFailedMessage(g)
    ensures f != g ==> TakenMessage(f) != TakenMessage(g) && CheckFailedMessage(f) != CheckFailedMessage(g)
  {
  }

  // ---------------------------------------------------------------------
  // The form

  /** The submit call resolves with an HTTP status, or throws. */
  datatype SubmitOutcome = Status(code: int) | SubmitThrew

  const SubmitRejected := "회원가입에 실패했습니다. 다시 시도해주세요."
  const SubmitServerError := "서버 오류로 인해 회원가입에 실패했습니다. 나중에 다시 시도해주세요."

  /** The effect's test: a missing or empty temporary token sends the user to /invalid-path. */
  predicate TokenInvalid(tempToken: Option<string>)
  {
    tempToken.None? || tempToken.value == ""
  }

  /** The Kakao screen reads its token as `temp_token || ''`, so it always has a string. */
  function OAuthTempToken(raw: Option<string>): (t: Option<string>)
    ensures t.Some?
    ensures TokenInvalid(t) <==> TokenInvalid(raw)
  {
    if raw.Some? && raw.value != "" then raw else Some("")
  }

  /** The endpoint a form submits to. */
  datatype JoinEndpoint = KakaoJoin | PlainJoin

  class SignupForm {
    const endpoint: JoinEndpoint
    const tempToken: Option<string>
    var formData: map<string, string>
    var errors: map<string, string>
    var isCompleted: bool
    var submitCheckDialogOpen: bool
    var isSubmitting: bool
    /** The availability checks sent: (field, value), oldest first. */
    var checks: seq<(string, string)>
    var navigations: seq<string>
    /** The join requests sent: the form data and the token, oldest first. */
    var submissions: seq<(map<string, string>, Option<string>)>

    constructor(e: JoinEndpoint, token: Option<string>)
      ensures endpoint == e && tempToken == token
      ensures formData == map["userEmail" := "", "userName" := "", "userNickname" := "", "userPhone" := ""]
      ensures errors == map[] && !isCompleted && !submitCheckDialogOpen && !isSubmitting
      ensures checks == [] && navigations == [] && submissions == []
    {
      endpoint := e;
      tempToken := token;
      formData := map["userEmail" := "", "userName" := "", "userNickname" := "", "userPhone" := ""];
      errors := map[];
      isCompleted := false;
      submitCheckDialogOpen := false;
      isSubmitting := false;
      checks := [];
      navigations := [];
      submissions := [];
    }

    /** The token effect, run after every render it depends on. */
    method TokenGuard()
      modifies this
      ensures TokenInvalid(tempToken) ==> navigations == old(navigations) + ["/invalid-path"]
      ensures !TokenInvalid(tempToken) ==> navigations == old(navigations)
      ensures formData == old(formData) && errors == old(errors) && isCompleted == old(isCompleted)
      ensures checks == old(checks) && submissions == old(submissions)
      ensures isSubmitting == old(isSubmitting) && submitCheckDialogOpen == old(submitCheckDialogOpen)
    {
      if TokenInvalid(tempToken) {
        navigations := navigations + ["/invalid-path"];
      }
    }

    /** One step's availability check; only the email, nickname and phone steps call the server. */
    method ValidateCheckSteps(focusId: string, outcome: CheckOutcome) returns (ok: bool)
      modifies this
      ensures ok <==> StepError(focusId, outcome).None?
      ensures IsCheckedField(focusId) ==>
        checks == old(checks) + [(focusId, if focusId in old(formData) then old(formData)[focusId] else "")]
      ensures !IsCheckedField(focusId) ==> checks == old(checks)
      ensures StepError(focusId, outcome).Some? ==> errors == old(errors)[focusId := StepError(focusId, outcome).value]
      ensures StepError(focusId, outcome).None? ==> errors == old(errors)
      ensures formData == old(formData) && isCompleted == old(isCompleted) && isSubmitting == old(isSubmitting)
      ensures navigations == old(navigations) && submissions == old(submissions)
      ensures submitCheckDialogOpen == old(submitCheckDialogOpen)
    {
      if IsCheckedField(focusId) {
        checks := checks + [(focusId, if focusId in formData then formData[focusId] else "")];
      }
      var error := StepError(focusId, outcome);
      if error.Some? {
        errors := errors[focusId := error.value];
        return false;
      }
      return true;
    }

    /** The final submit: 201 completes and closes the dialog; anything else replaces the errors with one submit message. */
    method HandleSubmit(outcome: SubmitOutcome)
      modifies this
      ensures !isSubmitting
      ensures outcome == Status(201) ==> isCompleted && !submitCheckDialogOpen && errors == old(errors)
      ensures outcome.Status? && outcome.code != 201 ==>
        errors == map["submit" := SubmitRejected] && isCompleted == old(isCompleted) &&
        submitCheckDialogOpen == old(submitCheckDialogOpen)
      ensures outcome.SubmitThrew? ==>
        errors == map["submit" := SubmitServerError] && isCompleted == old(isCompleted) &&
        submitCheckDialogOpen == old(submitCheckDialogOpen)
      ensures submissions == old(submissions) + [(old(formData), tempToken)]
      ensures formData == old(formData) && checks == old(checks) && navigations == old(navigations)
    {
      isSubmitting := true;
      submissions := submissions + [(formData, tempToken)];
      match outcome {
        case Status(code) =>
          if code == 201 {
            isCompleted := true;
            submitCheckDialogOpen := false;
          } else {
            errors := map["submit" := SubmitRejected];
          }
        case SubmitThrew =>
          errors := map["submit" := SubmitServerError];
      }
      isSubmitting := false;
    }
  }
}
