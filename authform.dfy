/**
  The sign-in / registration form: its fields, the errors `validateForm`
  collects, how typing clears an error, the submit guard and the
  empty-address branch of "forgot password". The auth context's error
  message is a field of the form; the sign-in and sign-up calls are the
  value `HandleSubmit` returns.
*/
module AuthForm {
  import opened Js
  import opened FormRules
  import Utf16Bytes

  datatype Mode = Login | Register

  /** The text inputs of the form, by their `name` attribute. */
  datatype Field = Email | Password | ConfirmPassword | FullName

  function Name(f: Field): string
  {
    match f
    case Email => "email"
    case Password => "password"
    case ConfirmPassword => "confirmPassword"
    case FullName => "fullName"
  }

  datatype FormData = FormData(email: string, password: string, confirmPassword: string,
                               fullName: string, rememberMe: bool)

  function Set(d: FormData, f: Field, value: string): FormData
  {
    match f
    case Email => d.(email := value)
    case Password => d.(password := value)
    case ConfirmPassword => d.(confirmPassword := value)
    case FullName => d.(fullName := value)
  }

  const EmailRequired := "Email is required"
  const EmailInvalid := "Please enter a valid email address"
  const PasswordRequired := "Password is required"
  const PasswordShort := "Password must be at least 6 characters"
  const FullNameRequired := "Full name is required"
  const ConfirmRequired := "Please confirm your password"
  const PasswordsDiffer := "Passwords do not match"
  const EmailFirst := "Please enter your email address first"

  /** The error map `validateForm` builds (lines 41-70), by what each entry means. */
  function Errors(mode: Mode, d: FormData): (errors: map<string, string>)
    ensures errors.Keys <= {"email", "password", "fullName", "confirmPassword"}
    ensures "email" !in errors <==> EmailPatternMatches(d.email)
    ensures d.email == "" ==> errors["email"] == EmailRequired
    ensures d.email != "" && "email" in errors ==> errors["email"] == EmailInvalid
    ensures "password" !in errors <==> Utf16Bytes.JsLength(d.password) >= 6
    ensures "password" in errors ==> errors["password"] == if d.password == "" then PasswordRequired else PasswordShort
    ensures mode == Login ==> errors.Keys <= {"email", "password"}
    ensures "fullName" in errors <==> mode == Register && d.fullName == ""
    ensures "confirmPassword" in errors <==> mode == Register && (d.confirmPassword == "" || d.confirmPassword != d.password)
    ensures "fullName" in errors ==> errors["fullName"] == FullNameRequired
    ensures "confirmPassword" in errors ==>
      errors["confirmPassword"] == if d.confirmPassword == "" then ConfirmRequired else PasswordsDiffer
  {
    EmailErrorKeys(d.email);
    var e := WithPasswordError(EmailError(d.email), d.password);
    PasswordErrorKeys(EmailError(d.email), d.password);
    if mode == Register then
      RegisterErrorKeys(e, d);
      WithRegisterErrors(e, d)
    else e
  }

  lemma EmailErrorKeys(email: string)
    ensures EmailError(email).Keys <= {"email"}
    ensures "email" !in EmailError(email) <==> EmailPatternMatches(email)
    ensures email == "" ==> EmailError(email)["email"] == EmailRequired
    ensures email != "" && "email" in EmailError(email) ==> EmailError(email)["email"] == EmailInvalid
  {
    if email == "" {
      BlankIsNoEmail(email);
    }
  }

  lemma PasswordErrorKeys(e: map<string, string>, password: string)
    requires e.Keys <= {"email"}
    ensures WithPasswordError(e, password).Keys - {"password"} == e.Keys
    ensures forall k | k in e :: WithPasswordError(e, password)[k] == e[k]
    ensures "password" !in WithPasswordError(e, password) <==> Utf16Bytes.JsLength(password) >= 6
    ensures "password" in WithPasswordError(e, password) ==>
      WithPasswordError(e, password)["password"] == if password == "" then PasswordRequired else PasswordShort
  {
  }

  lemma RegisterErrorKeys(e: map<string, string>, d: FormData)
    requires e.Keys <= {"email", "password"}
    ensures WithRegisterErrors(e, d).Keys - {"fullName", "confirmPassword"} == e.Keys
    ensures forall k | k in e :: WithRegisterErrors(e, d)[k] == e[k]
    ensures "fullName" in WithRegisterErrors(e, d) <==> d.fullName == ""
    ensures "fullName" in WithRegisterErrors(e, d) ==> WithRegisterErrors(e, d)["fullName"] == FullNameRequired
    ensures "confirmPassword" in WithRegisterErrors(e, d) <==> d.confirmPassword == "" || d.confirmPassword != d.password
    ensures "confirmPassword" in WithRegisterErrors(e, d) ==>
      WithRegisterErrors(e, d)["confirmPassword"] == if d.confirmPassword == "" then ConfirmRequired else PasswordsDiffer
  {
  }

  /** The e-mail check (lines 45-49): required, then the pattern. */
  function EmailError(email: string): map<string, string>
  {
    if email == "" then map["email" := EmailRequired]
    else if !LooksLikeEmail(email) then map["email" := EmailInvalid]
    else map[]
  }

  /** The password check (lines 52-56): required, then at least 6 code units. */
  function WithPasswordError(e: map<string, string>, password: string): map<string, string>
  {
    if password == "" then e["password" := PasswordRequired]
    else if Utf16Bytes.JsLength(password) < 6 then e["password" := PasswordShort]
    else e
  }

  /** The registration checks (lines 59-69). */
  function WithRegisterErrors(e: map<string, string>, d: FormData): map<string, string>
  {
    var e3 := if d.fullName == "" then e["fullName" := FullNameRequired] else e;
    if d.confirmPassword == "" then e3["confirmPassword" := ConfirmRequired]
    else if d.password != d.confirmPassword then e3["confirmPassword" := PasswordsDiffer]
    else e3
  }

  /** What a valid submission calls. */
  datatype AuthCall = SignIn(email: string, password: string)
                    | SignUp(email: string, password: string, fullName: string)

  class Form {
    const mode: Mode
    var formData: FormData
    var localErrors: map<string, string>
    /** The auth context's `authError` ('' when there is none). */
    var authError: string

    constructor (mode: Mode, authError: string)
      ensures this.mode == mode && this.authError == authError
      ensures formData == FormData("", "", "", "", false) && localErrors == map[]
    {
      this.mode := mode;
      this.authError := authError;
      formData := FormData("", "", "", "", false);
      localErrors := map[];
    }

    /** `handleInputChange` for a text input (lines 21-39). */
    method HandleInputChange(f: Field, value: string)
      modifies this
      ensures formData == Set(old(formData), f, value)
      ensures localErrors == ClearFieldError(old(localErrors), Name(f))
      ensures authError == ""
    {
      formData := Set(formData, f, value);
      if Name(f) in localErrors && localErrors[Name(f)] != "" {
        localErrors := localErrors[Name(f) := ""];
      }
      if authError != "" {
        authError := "";
      }
    }

    /** `handleInputChange` for the "remember me" checkbox: the checked state is stored. */
    method HandleRememberMe(checked: bool)
      modifies this
      ensures formData == old(formData).(rememberMe := checked)
      ensures localErrors == ClearFieldError(old(localErrors), "rememberMe")
      ensures authError == ""
    {
      formData := formData.(rememberMe := checked);
      if "rememberMe" in localErrors && localErrors["rememberMe"] != "" {
        localErrors := localErrors["rememberMe" := ""];
      }
      authError := "";
    }

    /** `validateForm`: the error map is rebuilt from nothing, one check at a
        time, and replaces the previous one. */
    method ValidateForm() returns (valid: bool)
      modifies this`localErrors
      ensures localErrors == Errors(mode, formData)
      ensures valid <==> localErrors == map[]
    {
      var newErrors: map<string, string> := map[];
      if formData.email == "" {
        newErrors := newErrors["email" := EmailRequired];
      } else if !LooksLikeEmail(formData.email) {
        newErrors := newErrors["email" := EmailInvalid];
      }
      assert newErrors == EmailError(formData.email);
      if formData.password == "" {
        newErrors := newErrors["password" := PasswordRequired];
      } else if Utf16Bytes.JsLength(formData.password) < 6 {
        newErrors := newErrors["password" := PasswordShort];
      }
      assert newErrors == WithPasswordError(EmailError(formData.email), formData.password);
      if mode == Register {
        ghost var common := newErrors;
        if formData.fullName == "" {
          newErrors := newErrors["fullName" := FullNameRequired];
        }
        if formData.confirmPassword == "" {
          newErrors := newErrors["confirmPassword" := ConfirmRequired];
        } else if formData.password != formData.confirmPassword {
          newErrors := newErrors["confirmPassword" := PasswordsDiffer];
        }
        assert newErrors == WithRegisterErrors(common, formData);
      }
      assert newErrors == Errors(mode, formData);
      localErrors := newErrors;
      valid := newErrors == map[];
    }

    /** `handleSubmit` up to the auth call: nothing is called unless the
        form validates; then the context error is cleared and login signs
        in while registration signs up. */
    method HandleSubmit() returns (call: Option<AuthCall>)
      modifies this`localErrors, this`authError
      ensures localErrors == Errors(mode, formData)
      ensures call.None? <==> localErrors != map[]
      ensures call.None? ==> authError == old(authError)
      ensures call.Some? ==> authError == ""
      ensures call.Some? ==>
        call.value == (if mode == Login then SignIn(formData.email, formData.password)
                       else SignUp(formData.email, formData.password, formData.fullName))
    {
      var valid := ValidateForm();
      if !valid {
        return None;
      }
      authError := "";
      if mode == Login {
        call := Some(SignIn(formData.email, formData.password));
      } else {
        call := Some(SignUp(formData.email, formData.password, formData.fullName));
      }
    }

    /** `handleForgotPassword` with an empty address: the error map becomes
        exactly one entry and nothing is requested. */
    method HandleForgotPassword() returns (stopped: bool)
      modifies this`localErrors
      ensures stopped <==> formData.email == ""
      ensures stopped ==> localErrors == map["email" := EmailFirst]
      ensures !stopped ==> localErrors == old(localErrors)
    {
      if formData.email == "" {
        localErrors := map["email" := EmailFirst];
        return true;
      }
      return false;
    }
  }

  /** Editing a field clears only its own error: every other shown error stays. */
  lemma EditKeepsOtherErrors(errors: map<string, string>, f: Field, g: Field)
    requires f != g && Name(g) in errors
    ensures ClearFieldError(errors, Name(f))[Name(g)] == errors[Name(g)]
  {
  }

  /** Registration asks strictly more of a form than login: every login
      error is also a registration error, with the same message. */
  lemma RegisterStricter(d: FormData)
    ensures forall k | k in Errors(Login, d) :: k in Errors(Register, d) && Errors(Register, d)[k] == Errors(Login, d)[k]
  {
  }
}
