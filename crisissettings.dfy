/**
  The crisis-support settings of the account page: an emergency contact,
  the preferred helpline and four switches. The form starts from the
  stored settings with defaults, requires a phone number once a contact
  name is given, checks the number's shape, and cancel goes back to the
  stored values.
*/
module CrisisSettings {
  import opened Js
  import opened FormRules

  datatype Settings = Settings(emergencyContactName: string, emergencyContactPhone: string,
                               preferredHelpline: string, autoTriggerEnabled: bool,
                               immediateResponse: bool, shareWithContact: bool,
                               crisisKeywords: bool)

  /** The `settings` prop as it arrives: each entry may be missing (None
      stands for undefined and null). */
  datatype Stored = Stored(emergencyContactName: Option<string>, emergencyContactPhone: Option<string>,
                           preferredHelpline: Option<string>, autoTriggerEnabled: Option<bool>,
                           immediateResponse: Option<bool>, shareWithContact: Option<bool>,
                           crisisKeywords: Option<bool>)

  /** `value || fallback` on a string: a missing or empty string falls back. */
  function StrOr(value: Option<string>, fallback: string): (r: string)
    ensures r == fallback <==> value.None? || value.value == "" || value.value == fallback
    ensures r != fallback ==> value == Some(r)
  {
    if value.Some? && value.value != "" then value.value else fallback
  }

  /** `value ?? fallback`: only a missing value falls back; a stored false stays. */
  function BoolCoalesce(value: Option<bool>, fallback: bool): (r: bool)
    ensures value.Some? ==> r == value.value
    ensures value.None? ==> r == fallback
  {
    match value
    case Some(b) => b
    case None => fallback
  }

  /** The form's starting values (lines 9-17, and again on cancel, lines 117-125). */
  function Defaults(s: Stored): (d: Settings)
    ensures d.preferredHelpline != ""
    ensures d.emergencyContactName == "" <==> s.emergencyContactName.None? || s.emergencyContactName.value == ""
    ensures d.emergencyContactPhone == "" <==> s.emergencyContactPhone.None? || s.emergencyContactPhone.value == ""
    ensures d.autoTriggerEnabled <==> s.autoTriggerEnabled != Some(false)
    ensures d.immediateResponse <==> s.immediateResponse != Some(false)
    ensures d.shareWithContact <==> s.shareWithContact == Some(true)
    ensures d.crisisKeywords <==> s.crisisKeywords != Some(false)
  {
    Settings(StrOr(s.emergencyContactName, ""), StrOr(s.emergencyContactPhone, ""),
             StrOr(s.preferredHelpline, "national"),
             BoolCoalesce(s.autoTriggerEnabled, true), BoolCoalesce(s.immediateResponse, true),
             BoolCoalesce(s.shareWithContact, false), BoolCoalesce(s.crisisKeywords, true))
  }

  /** Settings handed to `onUpdateSettings` and passed back as the prop. */
  function AsStored(s: Settings): Stored
  {
    Stored(Some(s.emergencyContactName), Some(s.emergencyContactPhone), Some(s.preferredHelpline),
           Some(s.autoTriggerEnabled), Some(s.immediateResponse), Some(s.shareWithContact),
           Some(s.crisisKeywords))
  }

  /** Saved settings come back unchanged as the next form's starting values
      exactly when a helpline is chosen: an empty helpline reads back as
      'national', while empty contact fields and false switches survive. */
  lemma SavedSettingsReadBack(s: Settings)
    ensures Defaults(AsStored(s)) == s <==> s.preferredHelpline != ""
  {
    if s.preferredHelpline == "" {
      assert Defaults(AsStored(s)).preferredHelpline == "national";
    }
  }

  /** With nothing stored the form starts with an empty contact, the national
      line, and every switch but contact sharing on; that form is valid. */
  lemma EmptyDefaultsValid()
    ensures var d := Defaults(Stored(None, None, None, None, None, None, None));
      d == Settings("", "", "national", true, true, false, true) && Errors(d) == map[]
  {
  }

  const PhoneRequired := "Phone number is required when contact name is provided"
  const PhoneInvalid := "Please enter a valid phone number"

  /** The error map `validateForm` builds (lines 94-104): at most one entry, for
      the phone, when a contact name has no phone or the phone has the wrong
      shape. */
  function Errors(s: Settings): (errors: map<string, string>)
    ensures errors.Keys <= {"emergencyContactPhone"}
    ensures "emergencyContactPhone" in errors <==>
      (s.emergencyContactName != "" && s.emergencyContactPhone == "") ||
      (s.emergencyContactPhone != "" && !PhonePatternMatches(s.emergencyContactPhone))
    ensures "emergencyContactPhone" in errors ==>
      errors["emergencyContactPhone"] == if s.emergencyContactPhone == "" then PhoneRequired else PhoneInvalid
  {
    var e := if s.emergencyContactName != "" && s.emergencyContactPhone == ""
             then map["emergencyContactPhone" := PhoneRequired] else map[];
    if s.emergencyContactPhone != "" && !LooksLikePhone(s.emergencyContactPhone)
    then e["emergencyContactPhone" := PhoneInvalid] else e
  }

  /** The text inputs, by their `name` attribute. */
  datatype TextField = ContactName | ContactPhone

  function Key(f: TextField): string
  {
    match f
    case ContactName => "emergencyContactName"
    case ContactPhone => "emergencyContactPhone"
  }

  /** The four switches, by the key `handleCheckboxChange` receives. */
  datatype Switch = AutoTrigger | ImmediateResponse | ShareWithContact | CrisisKeywords

  function SetText(s: Settings, f: TextField, value: string): Settings
  {
    match f
    case ContactName => s.(emergencyContactName := value)
    case ContactPhone => s.(emergencyContactPhone := value)
  }

  function SetSwitch(s: Settings, k: Switch, value: bool): Settings
  {
    match k
    case AutoTrigger => s.(autoTriggerEnabled := value)
    case ImmediateResponse => s.(immediateResponse := value)
    case ShareWithContact => s.(shareWithContact := value)
    case CrisisKeywords => s.(crisisKeywords := value)
  }

  /** A switch never changes whether the form validates. */
  lemma SwitchKeepsErrors(s: Settings, k: Switch, value: bool)
    ensures Errors(SetSwitch(s, k, value)) == Errors(s)
  {
  }

  class Form {
    const stored: Stored
    var settings: Settings
    var isEditing: bool
    var errors: map<string, string>

    constructor (stored: Stored)
      ensures this.stored == stored && settings == Defaults(stored)
      ensures !isEditing && errors == map[]
    {
      this.stored := stored;
      settings := Defaults(stored);
      isEditing := false;
      errors := map[];
    }

    /** `handleInputChange` (lines 72-85). */
    method HandleInputChange(f: TextField, value: string)
      modifies this
      ensures settings == SetText(old(settings), f, value)
      ensures errors == ClearFieldError(old(errors), Key(f))
      ensures isEditing == old(isEditing)
    {
      settings := SetText(settings, f, value);
      if Key(f) in errors && errors[Key(f)] != "" {
        errors := errors[Key(f) := ""];
      }
    }

    /** `handleCheckboxChange` (lines 87-92): errors are left alone. */
    method HandleCheckboxChange(k: Switch, value: bool)
      modifies this`settings
      ensures settings == SetSwitch(old(settings), k, value)
    {
      settings := SetSwitch(settings, k, value);
    }

    /** The helpline select's change handler (line 238). */
    method SelectHelpline(value: string)
      modifies this`settings
      ensures settings == old(settings).(preferredHelpline := value)
    {
      settings := settings.(preferredHelpline := value);
    }

    /** `validateForm` */
    method ValidateForm() returns (valid: bool)
      modifies this`errors
      ensures errors == Errors(settings)
      ensures valid <==> errors == map[]
    {
      var newErrors: map<string, string> := map[];
      if settings.emergencyContactName != "" && settings.emergencyContactPhone == "" {
        newErrors := newErrors["emergencyContactPhone" := PhoneRequired];
      }
      if settings.emergencyContactPhone != "" && !LooksLikePhone(settings.emergencyContactPhone) {
        newErrors := newErrors["emergencyContactPhone" := PhoneInvalid];
      }
      errors := newErrors;
      valid := |newErrors| == 0;
    }

    /** `handleSave` (lines 109-114): valid settings go to `onUpdateSettings`
        and editing ends; invalid ones leave everything but the errors. */
    method HandleSave() returns (update: Option<Settings>)
      modifies this`errors, this`isEditing
      ensures errors == Errors(settings)
      ensures update.Some? <==> Errors(settings) == map[]
      ensures update.Some? ==> update.value == settings && !isEditing
      ensures update.None? ==> isEditing == old(isEditing)
    {
      var valid := ValidateForm();
      if !valid {
        return None;
      }
      isEditing := false;
      return Some(settings);
    }

    /** `handleCancel` (lines 116-128). */
    method HandleCancel()
      modifies this
      ensures settings == Defaults(stored) && errors == map[] && !isEditing
    {
      settings := Defaults(stored);
      errors := map[];
      isEditing := false;
    }
  }
}
