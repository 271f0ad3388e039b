/** Sign-in, registration and password reset: the state each flow shows, and
    the translation of the authentication service's error messages into the
    messages a student reads. Every remote call runs to completion before the
    next statement; whether it succeeded is a parameter. */
module Auth {
  import opened Collections
  import opened Text
  import opened Remote

  /** The state of one authentication screen. */
  datatype AuthUiState =
    | Initial
    | Loading
    | Success
    | Error(message: string)

  const NoAccount: string := "No account found with this email"

  /** The sign-in error a student reads: an unknown account or a wrong password
      by name, otherwise the service's own message, or "Login failed" without
      one. The unknown-account test is made first. */
  function LoginErrorMessage(m: Option<string>): (shown: string)
    ensures m.Some? && Contains(m.value, "no user record") ==> shown == NoAccount
    ensures m.Some? && !Contains(m.value, "no user record") && Contains(m.value, "password is invalid") ==>
      shown == "Invalid password"
    ensures m.Some? && !Contains(m.value, "no user record") && !Contains(m.value, "password is invalid") ==>
      shown == m.value
    ensures m.None? ==> shown == "Login failed"
  {
    if m.Some? && Contains(m.value, "no user record") then NoAccount
    else if m.Some? && Contains(m.value, "password is invalid") then "Invalid password"
    else m.GetOr("Login failed")
  }

  /** The registration error a student reads: a taken address or a weak
      password by name, otherwise the service's own message, or
      "Registration failed" without one. The taken-address test is made first. */
  function RegisterErrorMessage(m: Option<string>): (shown: string)
    ensures m.Some? && Contains(m.value, "email address is already in use") ==>
      shown == "An account with this email already exists"
    ensures m.Some? && !Contains(m.value, "email address is already in use")
            && Contains(m.value, "password is invalid") ==>
      shown == "Password should be at least 6 characters"
    ensures m.Some? && !Contains(m.value, "email address is already in use")
            && !Contains(m.value, "password is invalid") ==>
      shown == m.value
    ensures m.None? ==> shown == "Registration failed"
  {
    if m.Some? && Contains(m.value, "email address is already in use") then
      "An account with this email already exists"
    else if m.Some? && Contains(m.value, "password is invalid") then
      "Password should be at least 6 characters"
    else m.GetOr("Registration failed")
  }

  /** The password-reset error a student reads: an unknown account by name,
      otherwise the service's own message, or "Failed to send reset email". */
  function ResetErrorMessage(m: Option<string>): (shown: string)
    ensures m.Some? && Contains(m.value, "no user record") ==> shown == NoAccount
    ensures m.Some? && !Contains(m.value, "no user record") ==> shown == m.value
    ensures m.None? ==> shown == "Failed to send reset email"
  {
    if m.Some? && Contains(m.value, "no user record") then NoAccount
    else m.GetOr("Failed to send reset email")
  }

  /** A message naming both an unknown account and a wrong password reads as an
      unknown account at sign-in. */
  lemma LoginUnknownAccountFirst()
    ensures LoginErrorMessage(Some("no user record; password is invalid")) == NoAccount
  {
  }

  /** At registration a wrong password is reported as a weak one. */
  lemma RegisterWrongPasswordIsWeak()
    ensures RegisterErrorMessage(Some("The password is invalid")) == "Password should be at least 6 characters"
  {
    var weak := "The password is invalid";
    assert OccursAt(weak, "password is invalid", 4);
    ContainsIff(weak, "password is invalid");
    ContainsIff(weak, "email address is already in use");
  }

  /** Messages are compared with their case: a capitalised one passes through. */
  lemma LoginTestIsCaseSensitive()
    ensures LoginErrorMessage(Some("No user record")) == "No user record"
  {
    var upper := "No user record";
    assert upper[..14][0] != "no user record"[0];
    ContainsIff(upper[1..], "no user record");
    ContainsIff(upper, "password is invalid");
  }

  /** Every message a student reads is one of the fixed texts or the service's
      own message. */
  lemma ShownMessagesAreKnown(m: Option<string>)
    ensures LoginErrorMessage(m) in {NoAccount, "Invalid password", "Login failed"} || Some(LoginErrorMessage(m)) == m
    ensures RegisterErrorMessage(m) in {"An account with this email already exists",
                                        "Password should be at least 6 characters", "Registration failed"}
            || Some(RegisterErrorMessage(m)) == m
    ensures ResetErrorMessage(m) in {NoAccount, "Failed to send reset email"} || Some(ResetErrorMessage(m)) == m
  {
  }

  /** `users/{uid}`: the profile a registration writes. */
  datatype ProfileDoc = ProfileDoc(id: string, name: string, email: string, studentId: string, createdAt: int)

  /** The profile collection of the remote store. */
  class ProfileStore {
    var profiles: map<string, ProfileDoc>

    constructor(profiles: map<string, ProfileDoc>)
      ensures this.profiles == profiles
    {
      this.profiles := profiles;
    }
  }

  /** What a password-reset request reports back to its caller. */
  datatype ResetReply = ResetSent | ResetFailed(message: string)

  /** The outcome of the password-reset request: it changes no state. */
  method ResetPassword(email: string, sendReset: Outcome) returns (reply: ResetReply)
    ensures sendReset.Ok? <==> reply == ResetSent
    ensures sendReset.Failed? ==> reply == ResetFailed(ResetErrorMessage(sendReset.message))
  {
    if sendReset.Failed? {
      return ResetFailed(ResetErrorMessage(sendReset.message));
    }
    return ResetSent;
  }

  class AuthViewModel {
    var loginState: AuthUiState
    var registerState: AuthUiState
    /** Every value each flow's state has taken, oldest first. */
    ghost var loginHistory: seq<AuthUiState>
    ghost var registerHistory: seq<AuthUiState>
    const db: ProfileStore

    constructor(db: ProfileStore)
      ensures this.db == db
      ensures loginState == Initial && registerState == Initial
      ensures loginHistory == [Initial] && registerHistory == [Initial]
    {
      this.db := db;
      loginState, registerState := Initial, Initial;
      loginHistory, registerHistory := [Initial], [Initial];
    }

    /** Signs in: the sign-in state passes through `Loading` and ends in
        `Success` when the service accepts the credentials, otherwise in `Error`
        with the translated message. The registration state is untouched. */
    method Login(email: string, password: string, signIn: Outcome)
      modifies this`loginState, this`loginHistory
      ensures loginState == Success <==> signIn.Ok?
      ensures signIn.Failed? ==> loginState == Error(LoginErrorMessage(signIn.message))
      ensures loginHistory == old(loginHistory) + [Loading, loginState]
    {
      SetLogin(Loading);
      if signIn.Failed? {
        SetLogin(Error(LoginErrorMessage(signIn.message)));
      } else {
        SetLogin(Success);
      }
    }

    /** Registers: the registration state passes through `Loading`; an account
        without an id ends in `Error("Registration failed")`; otherwise the
        profile is written and the state ends in `Success`, or in `Error` with
        the translated message when a call fails. The sign-in state is untouched. */
    method Register(name: string, email: string, password: string, studentId: string, createUser: Outcome,
                    uid: Option<string>, writeProfile: Outcome, now: int)
      modifies this`registerState, this`registerHistory, db`profiles
      ensures registerState == Success <==> createUser.Ok? && uid.Some? && writeProfile.Ok?
      ensures createUser.Failed? ==> registerState == Error(RegisterErrorMessage(createUser.message))
      ensures createUser.Ok? && uid.None? ==> registerState == Error("Registration failed")
      ensures createUser.Ok? && uid.Some? && writeProfile.Failed? ==>
        registerState == Error(RegisterErrorMessage(writeProfile.message))
      ensures registerState == Success ==>
        db.profiles == old(db.profiles)[uid.value := ProfileDoc(uid.value, name, email, studentId, now)]
      ensures registerState != Success ==> db.profiles == old(db.profiles)
      ensures registerHistory == old(registerHistory) + [Loading, registerState]
    {
      SetRegister(Loading);
      if createUser.Failed? {
        SetRegister(Error(RegisterErrorMessage(createUser.message)));
        return;
      }
      if uid.None? {
        SetRegister(Error("Registration failed"));
        return;
      }
      if writeProfile.Failed? {
        SetRegister(Error(RegisterErrorMessage(writeProfile.message)));
        return;
      }
      db.profiles := db.profiles[uid.value := ProfileDoc(uid.value, name, email, studentId, now)];
      SetRegister(Success);
    }

    method ResetLoginState()
      modifies this`loginState, this`loginHistory
      ensures loginState == Initial && loginHistory == old(loginHistory) + [Initial]
    {
      SetLogin(Initial);
    }

    method ResetRegisterState()
      modifies this`registerState, this`registerHistory
      ensures registerState == Initial && registerHistory == old(registerHistory) + [Initial]
    {
      SetRegister(Initial);
    }

    /** Publishes a new sign-in state. */
    method SetLogin(s: AuthUiState)
      modifies this`loginState, this`loginHistory
      ensures loginState == s && loginHistory == old(loginHistory) + [s]
    {
      loginState := s;
      loginHistory := loginHistory + [s];
    }

    /** Publishes a new registration state. */
    method SetRegister(s: AuthUiState)
      modifies this`registerState, this`registerHistory
      ensures registerState == s && registerHistory == old(registerHistory) + [s]
    {
      registerState := s;
      registerHistory := registerHistory + [s];
    }
  }
}
