/**
 * The registration page (frontend/src/routes/auth/register.tsx): the email
 * and password checks that must pass before `register` is called, and the
 * body it sends.
 */
module RegisterForm {
  import opened Wrappers
  import opened Validators

  const EmailRequired := "Email is required"
  const EmailInvalid := "Please enter a valid email"
  const PasswordRequired := "Password is required"
  const PasswordTooShort := "Password must be at least 8 characters"
  const MinPasswordLength := 8

  /** `validateForm`'s record: one entry for the email and one for the password, each only when it fails. */
  function FormErrors(email: string, password: string): (errors: map<string, string>)
    ensures "email" in errors <==> !MatchesEmailPattern(email)
    ensures "email" in errors ==> errors["email"] == (if email == "" then EmailRequired else EmailInvalid)
    ensures "password" in errors <==> |password| < MinPasswordLength
    ensures "password" in errors ==> errors["password"] == (if password == "" then PasswordRequired else PasswordTooShort)
    ensures errors.Keys <= {"email", "password"}
  {
    var withEmail: map<string, string> :=
      if email == "" then map["email" := EmailRequired]
      else if !MatchesEmailPattern(email) then map["email" := EmailInvalid]
      else map[];
    if password == "" then withEmail["password" := PasswordRequired]
    else if |password| < MinPasswordLength then withEmail["password" := PasswordTooShort]
    else withEmail
  }

  /** The form validates exactly when the email matches the pattern and the password has at least 8 characters. */
  lemma FormValidIff(email: string, password: string)
    ensures FormErrors(email, password) == map[] <==> MatchesEmailPattern(email) && |password| >= MinPasswordLength
  {
    var errors := FormErrors(email, password);
    if !MatchesEmailPattern(email) {
      assert "email" in errors;
    } else if |password| < MinPasswordLength {
      assert "password" in errors;
    }
  }

  /** The body given to `register`: email and password, and the full name only when one was typed. */
  function RegisterBody(email: string, password: string, fullName: string): (body: map<string, string>)
    ensures "email" in body && body["email"] == email
    ensures "password" in body && body["password"] == password
    ensures "full_name" in body <==> fullName != ""
    ensures "full_name" in body ==> body["full_name"] == fullName
    ensures body.Keys <= {"email", "password", "full_name"}
  {
    var userData := map["email" := email, "password" := password];
    if fullName != "" then userData["full_name" := fullName] else userData
  }

  /** The page's state. */
  class RegisterPage {
    var email: string
    var password: string
    var fullName: string
    var errors: map<string, string>

    constructor()
      ensures email == "" && password == "" && fullName == "" && errors == map[]
    {
      email, password, fullName := "", "", "";
      errors := map[];
    }

    /** `validateForm`: fills a fresh record step by step, stores it, and answers whether it is empty. */
    method ValidateForm() returns (ok: bool)
      modifies this`errors
      ensures errors == FormErrors(email, password)
      ensures ok <==> MatchesEmailPattern(email) && |password| >= MinPasswordLength
    {
      var newErrors: map<string, string> := map[];
      if email == "" {
        newErrors := newErrors["email" := EmailRequired];
      } else if !MatchesEmailPattern(email) {
        newErrors := newErrors["email" := EmailInvalid];
      }
      if password == "" {
        newErrors := newErrors["password" := PasswordRequired];
      } else if |password| < MinPasswordLength {
        newErrors := newErrors["password" := PasswordTooShort];
      }
      errors := newErrors;
      FormValidIff(email, password);
      ok := |newErrors| == 0;
    }

    /** `handleSubmit`: an invalid form never calls `register`; a valid one sends its body. */
    method HandleSubmit() returns (sent: Option<map<string, string>>)
      modifies this`errors
      ensures errors == FormErrors(email, password)
      ensures sent.Some? <==> MatchesEmailPattern(email) && |password| >= MinPasswordLength
      ensures sent.Some? ==> sent.value == RegisterBody(email, password, fullName)
    {
      var ok := ValidateForm();
      if !ok {
        return None;
      }
      var userData := map["email" := email, "password" := password];
      if fullName != "" {
        userData := userData["full_name" := fullName];
      }
      sent := Some(userData);
    }
  }
}
