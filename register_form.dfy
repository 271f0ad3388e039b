/** The registration form: when it may be submitted, when the two password
    fields are flagged as different, and what a submission asks of the
    authentication flow. */
module RegisterForm {
  import opened Collections
  import opened Text
  import opened Auth

  /** The five fields a student fills in. */
  datatype Form = Form(name: string, email: string, studentId: string, password: string, confirmPassword: string)

  /** The form may be submitted: no field is blank and the two passwords agree. */
  function IsFormValid(f: Form): (valid: bool)
    ensures valid ==> f.password == f.confirmPassword && f.password != []
    ensures valid ==> f.name != [] && f.email != [] && f.studentId != []
    ensures IsBlank(f.password) ==> !valid
  {
    && !IsBlank(f.name)
    && !IsBlank(f.email)
    && !IsBlank(f.studentId)
    && !IsBlank(f.password)
    && !IsBlank(f.confirmPassword)
    && f.password == f.confirmPassword
  }

  /** The mismatch warning is off while either password field is empty. */
  function PasswordsMatch(password: string, confirmPassword: string): (ok: bool)
    ensures !ok <==> password != [] && confirmPassword != [] && password != confirmPassword
  {
    password == [] || confirmPassword == [] || password == confirmPassword
  }

  /** A form that may be submitted never shows the mismatch warning. */
  lemma ValidFormShowsNoMismatch(f: Form)
    requires IsFormValid(f)
    ensures PasswordsMatch(f.password, f.confirmPassword)
  {
  }

  /** The converse fails: matching but blank passwords, or one empty field, show
      no warning and still may not be submitted. */
  lemma NoMismatchDoesNotMeanValid()
    ensures PasswordsMatch(" ", " ") && !IsFormValid(Form("Ama", "ama@vvu.edu.gh", "221", " ", " "))
    ensures PasswordsMatch("secret", "") && !IsFormValid(Form("Ama", "ama@vvu.edu.gh", "221", "secret", ""))
  {
    assert IsWhitespace(' ');
  }

  /** The arguments `register` receives, in its own order. */
  datatype RegisterRequest = RegisterRequest(name: string, email: string, password: string, studentId: string)

  /** Pressing "Create Account" or "done" on the keyboard: a request only for a
      form that may be submitted. */
  function Submit(f: Form): (r: Option<RegisterRequest>)
    ensures r.Some? <==> IsFormValid(f)
    ensures r.Some? ==> r.value == RegisterRequest(f.name, f.email, f.password, f.studentId)
  {
    if IsFormValid(f) then Some(RegisterRequest(f.name, f.email, f.password, f.studentId)) else None
  }

  /** The button is enabled for a form that may be submitted while no
      registration is in progress. */
  function ButtonEnabled(f: Form, registerState: AuthUiState): (enabled: bool)
    ensures enabled ==> Submit(f).Some?
    ensures enabled <==> IsFormValid(f) && !registerState.Loading?
  {
    IsFormValid(f) && !registerState.Loading?
  }
}
