/**
 * The change-password screen: the five strength requirements recomputed
 * on every keystroke of the new password, and the three guards a submit
 * must pass before the change is sent to the server. The character
 * classes are ASCII ranges, as in the regular expressions they model.
 */
module ChangePassword {

  /** The five requirement flags shown under the new-password field. */
  datatype Requirements = Requirements(length: bool, uppercase: bool, lowercase: bool, number: bool, special: bool)

  /** The flags before anything is typed. */
  const NoneMet := Requirements(false, false, false, false, false)

  /** The character classes of the requirement checks. */
  datatype CharClass = Upper | Lower | Digit | Special

  /** The characters of the class `[!@#$%^&*(),.?":{}|<>]`. */
  const Specials: set<char> :=
    {'!', '@', '#', '$', '%', '^', '&', '*', '(', ')', ',', '.', '?', '"', ':', '{', '}', '|', '<', '>'}

  predicate InClass(c: char, k: CharClass) {
    match k
    case Upper => 'A' <= c <= 'Z'
    case Lower => 'a' <= c <= 'z'
    case Digit => '0' <= c <= '9'
    case Special => c in Specials
  }

  /** `/[...]/.test(text)`: some character of `text` is in class `k`. */
  function Occurs(text: string, k: CharClass): (found: bool)
    ensures found <==> exists i :: 0 <= i < |text| && InClass(text[i], k)
  {
    if |text| == 0 then false
    else InClass(text[0], k) || Occurs(text[1..], k)
  }

  /** checkPassword: each flag holds exactly when its rule does. */
  function CheckPassword(text: string): (r: Requirements)
    ensures r.length <==> |text| >= 6
    ensures r.uppercase <==> exists i :: 0 <= i < |text| && 'A' <= text[i] <= 'Z'
    ensures r.lowercase <==> exists i :: 0 <= i < |text| && 'a' <= text[i] <= 'z'
    ensures r.number <==> exists i :: 0 <= i < |text| && '0' <= text[i] <= '9'
    ensures r.special <==> exists i :: 0 <= i < |text| && text[i] in Specials
  {
    Requirements(|text| >= 6, Occurs(text, Upper), Occurs(text, Lower), Occurs(text, Digit), Occurs(text, Special))
  }

  predicate AllMet(r: Requirements) {
    r.length && r.uppercase && r.lowercase && r.number && r.special
  }

  /** The initial flags are those of the empty password. */
  lemma EmptyPasswordMeetsNothing()
    ensures CheckPassword("") == NoneMet
  {
  }

  /**
   * The classes are ASCII ranges, so accented letters (and every other
   * character above U+007F) count for none of them: a password without an
   * ASCII character meets neither letter rule, nor the digit or special rule.
   */
  lemma AccentedLettersAreNotLetters(text: string)
    requires forall i :: 0 <= i < |text| ==> text[i] > '\U{7F}'
    ensures !CheckPassword(text).uppercase && !CheckPassword(text).lowercase
    ensures !CheckPassword(text).number && !CheckPassword(text).special
  {
  }

  /** The guards of a submit: an old password, all requirements met, and a new password that differs from the old. */
  function Admits(oldPassword: string, password: string, requirements: Requirements): (ok: bool)
    ensures ok ==> oldPassword != "" && oldPassword != password
    ensures ok ==> requirements.length && requirements.uppercase && requirements.lowercase
                   && requirements.number && requirements.special
    ensures !ok ==> oldPassword == "" || !AllMet(requirements) || oldPassword == password
  {
    if oldPassword == "" then false
    else if !AllMet(requirements) then false
    else oldPassword != password
  }

  /** With the flags computed from the new password, an admitted password has all five properties. */
  lemma AdmittedPasswordIsStrong(oldPassword: string, password: string)
    requires Admits(oldPassword, password, CheckPassword(password))
    ensures |password| >= 6
    ensures exists i :: 0 <= i < |password| && 'A' <= password[i] <= 'Z'
    ensures exists i :: 0 <= i < |password| && 'a' <= password[i] <= 'z'
    ensures exists i :: 0 <= i < |password| && '0' <= password[i] <= '9'
    ensures exists i :: 0 <= i < |password| && password[i] in Specials
    ensures password != oldPassword
  {
  }

  /** What the change-password call gave back: an answer with its status, or a failure. */
  datatype ChangeReply = Answered(status: bool) | Failed

  class ChangePasswordScreen {
    var oldPassword: string
    var password: string
    var loading: bool
    var showRequirements: bool
    var showSuccess: bool
    var showError: bool
    var requirements: Requirements

    /** The flags always describe the new password as typed. */
    ghost predicate Valid()
      reads this
    {
      requirements == CheckPassword(password)
    }

    constructor ()
      ensures Valid()
      ensures oldPassword == "" && password == "" && requirements == NoneMet
      ensures !loading && !showRequirements && !showSuccess && !showError
    {
      oldPassword, password := "", "";
      loading, showRequirements, showSuccess, showError := false, false, false, false;
      requirements := NoneMet;
    }

    method SetOldPassword(text: string)
      requires Valid()
      modifies this`oldPassword
      ensures Valid()
      ensures oldPassword == text
    {
      oldPassword := text;
    }

    /** Typing in the new-password field: stores it, shows the requirements and recomputes them. */
    method SetNewPassword(text: string)
      modifies this`password, this`showRequirements, this`requirements
      ensures Valid()
      ensures password == text && showRequirements && requirements == CheckPassword(text)
    {
      password := text;
      showRequirements := true;
      requirements := CheckPassword(text);
    }

    method Focus()
      requires Valid()
      modifies this`showRequirements
      ensures Valid()
      ensures showRequirements
    {
      showRequirements := true;
    }

    /**
     * Submitting: both messages are cleared, then the guards run in order
     * and a failing one shows the error without calling the server. Only
     * when all pass is the change sent (`called`), and `reply` decides
     * success. Loading is off again at the end in every case.
     */
    method HandleChangePassword(reply: ChangeReply) returns (called: bool)
      requires Valid()
      modifies this`loading, this`showSuccess, this`showError
      ensures Valid()
      ensures called == Admits(oldPassword, password, requirements)
      ensures called ==> |password| >= 6 && Occurs(password, Upper) && Occurs(password, Lower)
                         && Occurs(password, Digit) && Occurs(password, Special) && password != oldPassword
      ensures !loading
      ensures showSuccess <==> called && reply == Answered(true)
      ensures showError <==> !showSuccess
    {
      showError := false;
      showSuccess := false;
      called := false;
      if oldPassword == "" {
        showError := true;
        loading := false;
        return;
      }
      if !AllMet(requirements) {
        showError := true;
        loading := false;
        return;
      }
      if oldPassword == password {
        showError := true;
        loading := false;
        return;
      }
      loading := true;
      called := true;
      AdmittedPasswordIsStrong(oldPassword, password);
      match reply {
        case Answered(status) =>
          if status {
            showSuccess := true;
          } else {
            showError := true;
          }
        case Failed =>
          showError := true;
      }
      loading := false;
    }
  }

  /** A submit before any new password is typed is rejected without a server call, whatever the old password. */
  method SubmitBeforeTyping(oldPassword: string, reply: ChangeReply) returns (called: bool)
    ensures !called
  {
    var s := new ChangePasswordScreen();
    s.SetOldPassword(oldPassword);
    called := s.HandleChangePassword(reply);
  }
}
