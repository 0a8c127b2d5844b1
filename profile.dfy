/**
  The profile form of the account settings: name, e-mail and an optional
  password change. `validateForm` collects its errors; save re-checks the
  current password against the mock value and then clears the password
  fields; cancel restores the user's values.
*/
module ProfileSection {
  import opened Js
  import opened FormRules
  import Utf16Bytes

  /** The inputs of the form, by their `name` attribute. */
  datatype Field = Name | Email | CurrentPassword | NewPassword | ConfirmPassword

  function Key(f: Field): string
  {
    match f
    case Name => "name"
    case Email => "email"
    case CurrentPassword => "currentPassword"
    case NewPassword => "newPassword"
    case ConfirmPassword => "confirmPassword"
  }

  datatype ProfileForm = ProfileForm(name: string, email: string, currentPassword: string,
                                     newPassword: string, confirmPassword: string)

  function Set(d: ProfileForm, f: Field, value: string): ProfileForm
  {
    match f
    case Name => d.(name := value)
    case Email => d.(email := value)
    case CurrentPassword => d.(currentPassword := value)
    case NewPassword => d.(newPassword := value)
    case ConfirmPassword => d.(confirmPassword := value)
  }

  /** The value the mock back end accepts as the current password. */
  const MockPassword := "wellness123"

  const NameRequired := "Name is required"
  const EmailRequired := "Email is required"
  const EmailInvalid := "Please enter a valid email address"
  const CurrentRequired := "Current password is required to change password"
  const NewTooShort := "New password must be at least 8 characters"
  const PasswordsDiffer := "Passwords do not match"
  const CurrentIncorrect := "Current password is incorrect"

  /** The form as the user's data fills it (`user?.name || ''`; an absent
      value is ''), with empty password fields. */
  function InitialForm(userName: string, userEmail: string): ProfileForm
  {
    ProfileForm(userName, userEmail, "", "", "")
  }

  /** The error map `validateForm` builds (lines 33-57), by what each entry means. */
  function Errors(d: ProfileForm): (errors: map<string, string>)
    ensures errors.Keys <= {"name", "email", "currentPassword", "newPassword", "confirmPassword"}
    ensures "name" in errors <==> AllSpace(d.name)
    ensures "email" !in errors <==> EmailPatternMatches(d.email)
    ensures d.newPassword == "" ==> errors.Keys <= {"name", "email"}
    ensures d.newPassword != "" ==>
      ("currentPassword" in errors <==> d.currentPassword == "") &&
      ("newPassword" in errors <==> Utf16Bytes.JsLength(d.newPassword) < 8) &&
      ("confirmPassword" in errors <==> d.newPassword != d.confirmPassword)
    ensures "name" in errors ==> errors["name"] == NameRequired
    ensures "email" in errors ==> errors["email"] == if AllSpace(d.email) then EmailRequired else EmailInvalid
    ensures "currentPassword" in errors ==> errors["currentPassword"] == CurrentRequired
    ensures "newPassword" in errors ==> errors["newPassword"] == NewTooShort
    ensures "confirmPassword" in errors ==> errors["confirmPassword"] == PasswordsDiffer
  {
    TrimEmptyIffAllSpace(d.name);
    TrimEmptyIffAllSpace(d.email);
    assert AllSpace(d.email) ==> !EmailPatternMatches(d.email) by {
      if AllSpace(d.email) {
        BlankIsNoEmail(d.email);
      }
    }
    IdentityKeys(d);
    PasswordKeys(IdentityErrors(d), d);
    WithPasswordErrors(IdentityErrors(d), d)
  }

  lemma IdentityKeys(d: ProfileForm)
    ensures IdentityErrors(d).Keys <= {"name", "email"}
    ensures "name" in IdentityErrors(d) <==> Trim(d.name) == ""
    ensures "email" in IdentityErrors(d) <==> Trim(d.email) == "" || !LooksLikeEmail(d.email)
    ensures "name" in IdentityErrors(d) ==> IdentityErrors(d)["name"] == NameRequired
    ensures "email" in IdentityErrors(d) ==>
      IdentityErrors(d)["email"] == if Trim(d.email) == "" then EmailRequired else EmailInvalid
  {
  }

  lemma PasswordKeys(e: map<string, string>, d: ProfileForm)
    requires e.Keys <= {"name", "email"}
    ensures d.newPassword == "" ==> WithPasswordErrors(e, d) == e
    ensures d.newPassword != "" ==>
      WithPasswordErrors(e, d).Keys - {"currentPassword", "newPassword", "confirmPassword"} == e.Keys &&
      ("currentPassword" in WithPasswordErrors(e, d) <==> d.currentPassword == "") &&
      ("newPassword" in WithPasswordErrors(e, d) <==> Utf16Bytes.JsLength(d.newPassword) < 8) &&
      ("confirmPassword" in WithPasswordErrors(e, d) <==> d.newPassword != d.confirmPassword)
    ensures forall k | k in e :: WithPasswordErrors(e, d)[k] == e[k]
    ensures "currentPassword" in WithPasswordErrors(e, d) ==> WithPasswordErrors(e, d)["currentPassword"] == CurrentRequired
    ensures "newPassword" in WithPasswordErrors(e, d) ==> WithPasswordErrors(e, d)["newPassword"] == NewTooShort
    ensures "confirmPassword" in WithPasswordErrors(e, d) ==> WithPasswordErrors(e, d)["confirmPassword"] == PasswordsDiffer
  {
  }

  /** The name and e-mail checks (lines 36-44). */
  function IdentityErrors(d: ProfileForm): map<string, string>
  {
    var e := if Trim(d.name) == "" then map["name" := NameRequired] else map[];
    if Trim(d.email) == "" then e["email" := EmailRequired]
    else if !LooksLikeEmail(d.email) then e["email" := EmailInvalid]
    else e
  }

  /** The password-change checks (lines 46-56), each independent of the others. */
  function WithPasswordErrors(e: map<string, string>, d: ProfileForm): map<string, string>
  {
    if d.newPassword == "" then e
    else
      var e1 := if d.currentPassword == "" then e["currentPassword" := CurrentRequired] else e;
      var e2 := if Utf16Bytes.JsLength(d.newPassword) < 8 then e1["newPassword" := NewTooShort] else e1;
      if d.newPassword != d.confirmPassword then e2["confirmPassword" := PasswordsDiffer] else e2
  }

  /** The password-change block of `validateForm` (lines 46-56), statement by statement. */
  method AddPasswordErrors(e: map<string, string>, d: ProfileForm) returns (r: map<string, string>)
    ensures r == WithPasswordErrors(e, d)
  {
    r := e;
    if d.newPassword != "" {
      if d.currentPassword == "" {
        r := r["currentPassword" := CurrentRequired];
      }
      ghost var e1 := r;
      if Utf16Bytes.JsLength(d.newPassword) < 8 {
        r := r["newPassword" := NewTooShort];
      }
      ghost var e2 := r;
      if d.newPassword != d.confirmPassword {
        r := r["confirmPassword" := PasswordsDiffer];
      }
      assert e1 == (if d.currentPassword == "" then e["currentPassword" := CurrentRequired] else e);
      assert e2 == (if Utf16Bytes.JsLength(d.newPassword) < 8 then e1["newPassword" := NewTooShort] else e1);
    }
  }

  /** The form after a successful save: the password fields are cleared. */
  function ClearPasswords(d: ProfileForm): ProfileForm
  {
    d.(currentPassword := "", newPassword := "", confirmPassword := "")
  }

  /** A form that passed validation still passes once its passwords are cleared. */
  lemma SavedFormStaysValid(d: ProfileForm)
    requires Errors(d) == map[]
    ensures Errors(ClearPasswords(d)) == map[]
  {
    assert "name" !in Errors(d) && "email" !in Errors(d);
    var c := ClearPasswords(d);
    assert Errors(c).Keys <= {"name", "email"};
    assert "name" !in Errors(c) && "email" !in Errors(c);
  }

  /** Without a new password, the three password fields never matter. */
  lemma PasswordsIgnoredWithoutChange(d: ProfileForm, current: string, confirm: string)
    requires d.newPassword == ""
    ensures Errors(d.(currentPassword := current, confirmPassword := confirm)) == Errors(d)
  {
  }

  class Profile {
    const userName: string
    const userEmail: string
    var isEditing: bool
    var form: ProfileForm
    var errors: map<string, string>

    constructor (userName: string, userEmail: string)
      ensures this.userName == userName && this.userEmail == userEmail
      ensures form == InitialForm(userName, userEmail) && errors == map[] && !isEditing
    {
      this.userName := userName;
      this.userEmail := userEmail;
      form := InitialForm(userName, userEmail);
      errors := map[];
      isEditing := false;
    }

    /** `handleInputChange` (lines 18-31). */
    method HandleInputChange(f: Field, value: string)
      modifies this
      ensures form == Set(old(form), f, value)
      ensures errors == ClearFieldError(old(errors), Key(f))
      ensures isEditing == old(isEditing)
    {
      form := Set(form, f, value);
      if Key(f) in errors && errors[Key(f)] != "" {
        errors := errors[Key(f) := ""];
      }
    }

    /** `validateForm`: a fresh error map, built one check at a time. */
    method ValidateForm() returns (valid: bool)
      modifies this`errors
      ensures errors == Errors(form)
      ensures valid <==> errors == map[]
    {
      var newErrors: map<string, string> := map[];
      if Trim(form.name) == "" {
        newErrors := newErrors["name" := NameRequired];
      }
      if Trim(form.email) == "" {
        newErrors := newErrors["email" := EmailRequired];
      } else if !LooksLikeEmail(form.email) {
        newErrors := newErrors["email" := EmailInvalid];
      }
      assert newErrors == IdentityErrors(form);
      newErrors := AddPasswordErrors(newErrors, form);
      assert newErrors == Errors(form);
      errors := newErrors;
      valid := newErrors == map[];
    }

    /** `handleSave` (lines 62-90): an invalid form stops with its errors; a
        password change with the wrong current password stops with that one
        error; otherwise the form is handed to `onUpdateProfile`, editing
        ends and the password fields are cleared. */
    method HandleSave() returns (update: Option<ProfileForm>)
      modifies this
      ensures Errors(old(form)) != map[] ==>
        update.None? && errors == Errors(old(form)) && form == old(form) && isEditing == old(isEditing)
      ensures Errors(old(form)) == map[] && old(form).newPassword != "" && old(form).currentPassword != MockPassword ==>
        update.None? && errors == map["currentPassword" := CurrentIncorrect] && form == old(form) && isEditing == old(isEditing)
      ensures update.Some? <==>
        Errors(old(form)) == map[] && (old(form).newPassword == "" || old(form).currentPassword == MockPassword)
      ensures update.Some? ==>
        update.value == old(form) && !isEditing && form == ClearPasswords(old(form)) && errors == map[]
    {
      var valid := ValidateForm();
      if !valid {
        return None;
      }
      if form.newPassword != "" && form.currentPassword != MockPassword {
        errors := map["currentPassword" := CurrentIncorrect];
        return None;
      }
      update := Some(form);
      isEditing := false;
      form := ClearPasswords(form);
    }

    /** `handleCancel` (lines 92-102). */
    method HandleCancel()
      modifies this
      ensures form == InitialForm(userName, userEmail) && errors == map[] && !isEditing
    {
      form := InitialForm(userName, userEmail);
      errors := map[];
      isEditing := false;
    }
  }
}
