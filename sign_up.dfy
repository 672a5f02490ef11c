/**
 * The sign-up form: three field validators that fill in the form's error
 * record as the user types, the ordered guard chain run on submit, the
 * registration request built from a form that passes it, and the rule
 * that enables the submit button. Lengths are counted in characters.
 */
module SignUp {
  import opened Nullable
  import opened JsString

  const NameTooShort := "Tên đăng nhập phải có ít nhất 3 ký tự"
  const EmailNeedsAt := "Email phải chứa ký tự @"
  const PasswordTooShort := "Mật khẩu phải có ít nhất 6 ký tự"
  const MissingFields := "Vui lòng điền đầy đủ thông tin"
  const EmailInvalid := "Email không hợp lệ"
  const PhoneInvalid := "Số điện thoại không hợp lệ"
  const Registered := "Đăng ký thành công!"
  const RegisterFailed := "Đăng ký thất bại"
  const ServerTimeout := "Kết nối tới server quá lâu. Vui lòng thử lại."
  const RegisterFailedRetry := "Đăng ký thất bại. Vui lòng thử lại sau."

  /** The per-field error texts shown under the inputs; "" means no error. */
  datatype Errors = Errors(name: string, email: string, password: string)

  /** The body of the registration request. */
  datatype Request = Request(name: string, fullname: string, email: string, password: string,
                             phone: string, address: string, gender: string, status: int, roles: int)

  /** What the register call gave back: an answer, a timed-out connection, or another failure. */
  datatype RegisterReply =
    | Answered(status: bool, message: string)
    | Aborted
    | Failed(serverMessage: string, errorMessage: string)

  // ------------------------------------------------------------ validators

  /** The email field's error: set when the text is non-empty and has no '@'. */
  function EmailError(text: string): (e: string)
    ensures e != "" <==> |text| > 0 && '@' !in text
    ensures e == "" || e == EmailNeedsAt
  {
    if |text| > 0 && '@' !in text then EmailNeedsAt else ""
  }

  /** The password field's error: set when the text has between one and five characters. */
  function PasswordError(text: string): (e: string)
    ensures e != "" <==> 0 < |text| < 6
    ensures e == "" || e == PasswordTooShort
  {
    if |text| > 0 && |text| < 6 then PasswordTooShort else ""
  }

  /** The name field's error: set when the text has one or two characters. */
  function NameError(text: string): (e: string)
    ensures e != "" <==> 0 < |text| < 3
    ensures e == "" || e == NameTooShort
  {
    if |text| > 0 && |text| < 3 then NameTooShort else ""
  }

  /** The submit button is enabled exactly when neither the email nor the password shows an error. */
  function SubmitEnabled(errors: Errors): (enabled: bool)
    ensures enabled <==> errors.email == "" && errors.password == ""
  {
    !(errors.email != "" || errors.password != "")
  }

  // ------------------------------------------------------------ submission

  /**
   * The guard chain of a submit, in its order: the message of the first
   * check that fails, or None when all pass. The checks look at the text
   * as typed, before any trimming.
   */
  function FirstFailure(name: string, email: string, password: string, phone: string, fullname: string)
    : (m: Option<string>)
    ensures m == Some(MissingFields) <==> name == "" || email == "" || password == "" || phone == "" || fullname == ""
    ensures m == Some(NameTooShort) <==>
              name != "" && email != "" && password != "" && phone != "" && fullname != "" && |name| < 3
    ensures m == Some(EmailInvalid) <==>
              name != "" && email != "" && password != "" && phone != "" && fullname != "" && |name| >= 3
              && '@' !in email
    ensures m == Some(PasswordTooShort) <==>
              name != "" && email != "" && password != "" && phone != "" && fullname != "" && |name| >= 3
              && '@' in email && |password| < 6
    ensures m == Some(PhoneInvalid) <==>
              name != "" && email != "" && password != "" && phone != "" && fullname != "" && |name| >= 3
              && '@' in email && |password| >= 6 && |phone| < 10
    ensures m == None <==>
              name != "" && email != "" && password != "" && phone != "" && fullname != "" && |name| >= 3
              && '@' in email && |password| >= 6 && |phone| >= 10
  {
    if name == "" || email == "" || password == "" || phone == "" || fullname == "" then Some(MissingFields)
    else if |name| < 3 then Some(NameTooShort)
    else if '@' !in email then Some(EmailInvalid)
    else if |password| < 6 then Some(PasswordTooShort)
    else if |phone| < 10 then Some(PhoneInvalid)
    else None
  }

  /** The request a passing form sends: trimmed text fields, the password as typed, and fixed defaults. */
  function RequestFor(name: string, email: string, password: string, phone: string, fullname: string)
    : (q: Request)
    ensures q.name == Trim(name) && q.fullname == Trim(fullname) && q.email == Trim(email) && q.phone == Trim(phone)
    ensures q.password == password
    ensures q.address == "" && q.gender == "nam" && q.status == 1 && q.roles == 1
  {
    Request(Trim(name), Trim(fullname), Trim(email), password, Trim(phone), "", "nam", 1, 1)
  }

  /** A form that passes the guard chain shows no field error under any of the three validated inputs. */
  lemma PassingFormHasNoFieldErrors(name: string, email: string, password: string, phone: string, fullname: string)
    requires FirstFailure(name, email, password, phone, fullname) == None
    ensures NameError(name) == "" && EmailError(email) == "" && PasswordError(password) == ""
    ensures SubmitEnabled(Errors(NameError(name), EmailError(email), PasswordError(password)))
  {
  }

  /** The button does not look at the name: a too-short name leaves it enabled. */
  lemma NameErrorDoesNotDisable(name: string, email: string, password: string)
    requires 0 < |name| < 3 && '@' in email && |password| >= 6
    ensures NameError(name) != ""
    ensures SubmitEnabled(Errors(NameError(name), EmailError(email), PasswordError(password)))
  {
  }

  /** An enabled button does not mean a passing form: empty fields show no error yet still fail the chain. */
  lemma EnabledButEmptyIsRejected()
    ensures SubmitEnabled(Errors(NameError(""), EmailError(""), PasswordError("")))
    ensures FirstFailure("", "", "", "", "") == Some(MissingFields)
  {
  }

  /** The name is measured before trimming, so a name that passes can be sent shorter than three characters. */
  lemma UntrimmedNamePasses()
    ensures FirstFailure("  a", "a@b", "secret", "0123456789", "A") == None
    ensures |RequestFor("  a", "a@b", "secret", "0123456789", "A").name| == 1
  {
    assert LeadingWhitespace("  a") == 2;
    assert "  a"[2..] == "a";
    assert TrailingWhitespace("a") == 0;
  }

  // ----------------------------------------------------------------- screen

  class SignUpScreen {
    var name: string
    var email: string
    var password: string
    var phone: string
    var fullname: string
    var isLoading: bool
    var errors: Errors
    var message: string
    var successMessage: Option<string>

    /** The error record always shows what the validators say about the texts as typed. */
    ghost predicate Valid()
      reads this
    {
      errors == Errors(NameError(name), EmailError(email), PasswordError(password))
    }

    constructor ()
      ensures Valid()
      ensures name == "" && email == "" && password == "" && phone == "" && fullname == ""
      ensures !isLoading && errors == Errors("", "", "") && message == "" && successMessage == None
    {
      name, email, password, phone, fullname := "", "", "", "", "";
      isLoading := false;
      errors := Errors("", "", "");
      message := "";
      successMessage := None;
    }

    /** Typing in the email field: stores the text and rewrites only the email error. */
    method ValidateEmail(text: string)
      requires Valid()
      modifies this`email, this`errors
      ensures Valid()
      ensures email == text
      ensures errors == old(errors).(email := EmailError(text))
    {
      email := text;
      if |text| > 0 && '@' !in text {
        errors := errors.(email := EmailNeedsAt);
      } else {
        errors := errors.(email := "");
      }
    }

    /** Typing in the password field: stores the text and rewrites only the password error. */
    method ValidatePassword(text: string)
      requires Valid()
      modifies this`password, this`errors
      ensures Valid()
      ensures password == text
      ensures errors == old(errors).(password := PasswordError(text))
    {
      password := text;
      if |text| > 0 && |text| < 6 {
        errors := errors.(password := PasswordTooShort);
      } else {
        errors := errors.(password := "");
      }
    }

    /** Typing in the name field: stores the text and rewrites only the name error. */
    method ValidateName(text: string)
      requires Valid()
      modifies this`name, this`errors
      ensures Valid()
      ensures name == text
      ensures errors == old(errors).(name := NameError(text))
    {
      name := text;
      if |text| > 0 && |text| < 3 {
        errors := errors.(name := NameTooShort);
      } else {
        errors := errors.(name := "");
      }
    }

    method SetPhone(text: string)
      requires Valid()
      modifies this`phone
      ensures Valid()
      ensures phone == text
    {
      phone := text;
    }

    method SetFullname(text: string)
      requires Valid()
      modifies this`fullname
      ensures Valid()
      ensures fullname == text
    {
      fullname := text;
    }

    /**
     * Submitting the form. The first failing guard sets its message and no
     * request is sent; otherwise the request is sent and `reply` decides the
     * outcome. Loading is off again at the end in every case.
     */
    method HandleSignUp(reply: RegisterReply) returns (sent: Option<Request>)
      requires Valid()
      modifies this`isLoading, this`message, this`successMessage
      ensures Valid()
      ensures !isLoading
      ensures sent.Some? ==> SubmitEnabled(errors)
      ensures var f := FirstFailure(name, email, password, phone, fullname);
              && (f.Some? ==> sent == None && message == f.value && successMessage == None)
              && (f.None? ==> sent == Some(RequestFor(name, email, password, phone, fullname)))
      ensures sent.Some? ==> match reply
        case Answered(true, _) => message == "" && successMessage == Some(Registered)
        case Answered(false, m) => message == (if m != "" then m else RegisterFailed) && successMessage == None
        case Aborted => message == ServerTimeout && successMessage == None
        case Failed(sm, em) =>
          message == (if sm != "" then sm else if em != "" then em else RegisterFailedRetry)
          && successMessage == None
    {
      isLoading := true;
      successMessage := None;
      message := "";
      sent := None;
      if name == "" || email == "" || password == "" || phone == "" || fullname == "" {
        message := MissingFields;
        isLoading := false;
        return;
      }
      if |name| < 3 {
        message := NameTooShort;
        isLoading := false;
        return;
      }
      if '@' !in email {
        message := EmailInvalid;
        isLoading := false;
        return;
      }
      if |password| < 6 {
        message := PasswordTooShort;
        isLoading := false;
        return;
      }
      if |phone| < 10 {
        message := PhoneInvalid;
        isLoading := false;
        return;
      }
      var request := Request(Trim(name), Trim(fullname), Trim(email), password, Trim(phone), "", "nam", 1, 1);
      sent := Some(request);
      match reply {
        case Answered(status, m) =>
          if status {
            successMessage := Some(Registered);
          } else {
            message := if m != "" then m else RegisterFailed;
          }
        case Aborted =>
          message := ServerTimeout;
        case Failed(sm, em) =>
          if sm != "" {
            message := sm;
          } else if em != "" {
            message := em;
          } else {
            message := RegisterFailedRetry;
          }
      }
      isLoading := false;
    }
  }
}
