/**
 * The sign-in screen (components/Auth.tsx): the landing, login and
 * registration modes, and the error each submit leaves behind. The store's
 * `login` and `register` are not part of this model; their outcome is given
 * as a function of what they are called with.
 */
module Auth {
  import opened Wrappers

  datatype AuthMode = Landing | Login | Register

  /** What `register` is called with. */
  datatype Registration = Registration(username: string, password: string, displayName: string, avatar: Option<string>)

  /** The filled-in registration form. */
  datatype RegisterForm = RegisterForm(displayName: string, username: string, password: string,
                                       confirmPassword: string, avatar: string)

  const FillAllFields: string := "Please fill in all fields"
  const PasswordsMismatch: string := "Passwords do not match"
  const UsernameTaken: string := "Username already taken"
  const InvalidLogin: string := "Invalid username or password"

  predicate Incomplete(f: RegisterForm) {
    f.displayName == "" || f.username == "" || f.password == ""
  }

  /**
   * The checks made before `register` is called, in order: every field filled,
   * then password and confirmation equal. The first failing check names the error.
   */
  function RegisterCheck(f: RegisterForm): (e: Option<string>)
    ensures e.None? <==> !Incomplete(f) && f.password == f.confirmPassword
    ensures e == Some(FillAllFields) <==> Incomplete(f)
    ensures e == Some(PasswordsMismatch) <==> !Incomplete(f) && f.password != f.confirmPassword
  {
    if Incomplete(f) then Some(FillAllFields)
    else if f.password != f.confirmPassword then Some(PasswordsMismatch)
    else None
  }

  /** The registration sent for a form; an empty avatar is sent as absent. */
  function RegistrationOf(f: RegisterForm): (r: Registration)
    ensures r.avatar.None? <==> f.avatar == ""
    ensures r.avatar.Some? ==> r.avatar.value == f.avatar
    ensures r.username == f.username && r.password == f.password && r.displayName == f.displayName
  {
    Registration(f.username, f.password, f.displayName, if f.avatar == "" then None else Some(f.avatar))
  }

  /** The error a registration submit leaves behind, given whether `register` accepts the request. */
  function RegisterError(f: RegisterForm, register: Registration -> bool): string {
    match RegisterCheck(f)
    case Some(e) => e
    case None => if register(RegistrationOf(f)) then "" else UsernameTaken
  }

  /**
   * The error after a registration submit: the missing-field error wins over the
   * mismatch, which wins over the store's refusal; the store's verdict decides
   * only a complete, matching form, and a success leaves no error.
   */
  lemma RegisterErrorOrder(f: RegisterForm, register: Registration -> bool)
    ensures Incomplete(f) ==> RegisterError(f, register) == FillAllFields
    ensures !Incomplete(f) && f.password != f.confirmPassword ==> RegisterError(f, register) == PasswordsMismatch
    ensures RegisterError(f, register) == "" <==> RegisterCheck(f).None? && register(RegistrationOf(f))
    ensures RegisterError(f, register) == UsernameTaken <==> RegisterCheck(f).None? && !register(RegistrationOf(f))
  {
  }

  class AuthScreen {
    var mode: AuthMode
    var loginUsername: string
    var loginPass: string
    var loginError: string
    var regDisplayName: string
    var regUsername: string
    var regPass: string
    var regConfirmPass: string
    var regAvatar: string
    var regError: string

    /** The screen opens on the landing mode with every field empty. */
    constructor ()
      ensures mode == Landing
      ensures loginUsername == "" && loginPass == "" && loginError == ""
      ensures Form() == RegisterForm("", "", "", "", "") && regError == ""
    {
      mode := Landing;
      loginUsername := "";
      loginPass := "";
      loginError := "";
      regDisplayName := "";
      regUsername := "";
      regPass := "";
      regConfirmPass := "";
      regAvatar := "";
      regError := "";
    }

    /** The registration fields as one form. */
    function Form(): RegisterForm
      reads this
    {
      RegisterForm(regDisplayName, regUsername, regPass, regConfirmPass, regAvatar)
    }

    /** The landing page's "Log in" button. */
    method ShowLogin()
      modifies this`mode
      ensures mode == Login
    {
      mode := Login;
    }

    /** The landing page's "Sign up free" button. */
    method ShowRegister()
      modifies this`mode
      ensures mode == Register
    {
      mode := Register;
    }

    /** The back button of either form. */
    method Cancel()
      modifies this`mode
      ensures mode == Landing
    {
      mode := Landing;
    }

    /**
     * `handleLogin`: clears the error, calls `login` with the entered
     * credentials and sets the error when it fails.
     */
    method HandleLogin(login: (string, string) -> bool)
      modifies this`loginError
      ensures loginError == if login(loginUsername, loginPass) then "" else InvalidLogin
    {
      loginError := "";
      var success := login(loginUsername, loginPass);
      if !success {
        loginError := InvalidLogin;
      }
    }

    /**
     * `handleRegister`: clears the error, runs the checks, and calls `register`
     * only for a complete form whose passwords match. `call` is the request
     * made, if any.
     */
    method HandleRegister(register: Registration -> bool) returns (call: Option<Registration>)
      modifies this`regError
      ensures call.None? <==> RegisterCheck(Form()).Some?
      ensures call.Some? ==> call.value == RegistrationOf(Form())
      ensures regError == RegisterError(Form(), register)
    {
      regError := "";
      if regDisplayName == "" || regUsername == "" || regPass == "" {
        regError := FillAllFields;
        return None;
      }
      if regPass != regConfirmPass {
        regError := PasswordsMismatch;
        return None;
      }
      var request := Registration(regUsername, regPass, regDisplayName, if regAvatar == "" then None else Some(regAvatar));
      var success := register(request);
      if !success {
        regError := UsernameTaken;
      }
      call := Some(request);
    }
  }

  /** `register` is never called with an empty display name, username or password. */
  lemma NoIncompleteRegistration(f: RegisterForm)
    requires RegisterCheck(f).None?
    ensures RegistrationOf(f).username != "" && RegistrationOf(f).password != "" && RegistrationOf(f).displayName != ""
  {
  }
}
