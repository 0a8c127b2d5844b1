# InnerLine journal encryption and client logic, in Dafny

InnerLine is a mental-wellness web application. Its users write journal
entries, record moods, run breathing exercises and export their data. This
project models two parts of it and proves their properties.

1. **The journal encryption layer.** Each user has an AES-GCM key.
   - The key is kept in the browser's localStorage under
     `encryption_key_<userId>`, encoded as Base64.
   - Journal content is serialised with `JSON.stringify` and turned into
     UTF-16 bytes.
   - It is then sealed under a fresh 12-byte IV. The stored text is the
     Base64 of IV ‖ cipher output.
   - The journal service writes rows in which only the content is
     encrypted. Mood, tags and timestamps stay plaintext so that the store
     can filter on them.
   - Reads decrypt the content again. A batch read gives a sentinel text to
     a row that fails to decrypt, and the other rows are unaffected.
2. **The sequential logic inside the React components**, such as:
   - the sign-in, profile and crisis-contact validators;
   - the mood-filter list;
   - the exercise and breathing state machines;
   - the keyword sentiment classifier (present in two copies);
   - word counting and crisis-phrase detection;
   - the streak and consistency buckets;
   - truncation and initials;
   - the CSV export with RFC 4180 quote doubling;
   - the export-size estimate.

A component whose state the source updates step by step is a `class`:
- its `useState` variables are fields;
- each handler is a method with a `modifies` clause;
- its `ensures` give the whole new state in terms of specification
  functions.

Pure helpers are functions. The properties the source promises are stated
as lemmas about those functions.

The environment is made explicit as parameters:
- The AES-GCM primitive is `CipherEngine.Aead`, a pair of functions. The
  predicate `CipherEngine.Authenticated` states what GCM guarantees: a
  sealed text opens to its plaintext, and only sealed texts open. The
  properties of the encryption layer are proved for every cipher that
  satisfies it.
- Whether `crypto.subtle` is available, whether localStorage's quota is
  exceeded, whether a store request fails, the clock, and ids assigned by
  the store are all parameters.
- The random IV and key bytes are arbitrary choices of the right length.
- localStorage is a `map<string, string>`.
- The Supabase table is a class holding a sequence of rows.

Shared JavaScript semantics live in module `Js`:
- truthiness, `||` and destructuring defaults;
- `trim`, ASCII `toLowerCase`/`toUpperCase`, `includes`, `join`;
- decimal `String(n)`.

String lengths count UTF-16 code units (`Utf16Bytes.JsLength`), as
JavaScript's `length` does.

Source paths below are relative to the repository root.

## Model

| member | source | states |
|---|---|---|
| Utf16Bytes.CharUnits | src/utils/encryption.js:11 | a character is one code unit inside the Basic Multilingual Plane and a high/low surrogate pair outside it |
| Utf16Bytes.Str2Ab | src/utils/encryption.js:7-14 | `str2ab` fills a buffer of exactly 2 × `length` bytes, each code unit written low byte first; the buffer equals `EncodeString(s)` |
| Utf16Bytes.EncodeString | src/utils/encryption.js:7-14 | the buffer holds two bytes per code unit (`2 × length`), so between two and four bytes per character |
| Utf16Bytes.DecodeString | src/utils/encryption.js:17-19 | a buffer of odd length is refused; a decoded string has at most one character per two bytes |
| Utf16Bytes.FromUnitsOfUnits | src/utils/encryption.js:18 | `String.fromCharCode` over a string's code units gives the string back |
| Utf16Bytes.BytesUnitsOfUnitBytes | src/utils/encryption.js:9 | reading a Uint16Array view of the written bytes gives back the written code units |
| Utf16Bytes.DecodeEncode | src/utils/encryption.js:7-19 | `ab2str(str2ab(s)) == s` for every string |
| Utf16Bytes.UnitsOfFromUnits | src/utils/encryption.js:18 | code units that `String.fromCharCode` accepts are exactly the code units of the string it builds |
| Utf16Bytes.UnitBytesOfBytesUnits | src/utils/encryption.js:9 | writing back the code units a Uint16Array view reads gives the same bytes |
| Utf16Bytes.EncodeDecode | src/utils/encryption.js:7-19 | `str2ab(ab2str(buf)) == buf` for every buffer `ab2str` accepts, so the codec is a bijection |
| Utf16Bytes.PairChar | src/utils/encryption.js:18 | a high and a low surrogate stand for one character outside the Basic Multilingual Plane, whose code units are that pair |
| Utf16Bytes.PairCharOfUnits | src/utils/encryption.js:11-18 | every character outside the Basic Multilingual Plane is the character of its own surrogate pair |
| Utf16Bytes.UnitsLength | src/utils/encryption.js:8 | a string has between `|s|` and `2·|s|` code units |
| Utf16Bytes.JsLength | src/utils/encryption.js:8 | `length` lies between the number of characters and twice that |
| Base64.EncodeLengthMod | src/utils/encryption.js:35 | `btoa` output is a whole number of 4-character groups |
| Base64.Encode | src/utils/encryption.js:35 | `btoa` writes four characters per started group of three bytes, each from the alphabet or `=` |
| Base64.Decode | src/utils/encryption.js:47 | `atob("")` is empty; a decoded text yields at most three bytes per four characters |
| Base64.UngroupGroup | src/utils/encryption.js:47 | one group of 1-3 bytes decodes back to those bytes |
| Base64.DecodeEncodeUnpadded | src/utils/encryption.js:107 | the unpadded text of any byte string decodes back to it |
| Base64.StripPaddingOfEncode | src/utils/encryption.js:94 | removing the '=' padding of an encoding gives the unpadded encoding |
| Base64.DecodeEncode | src/utils/encryption.js:107 | `atob(btoa(b))` gives back `b` for every byte string (RFC 4648 section 4) |
| Base64.EncodeInjective | src/utils/encryption.js:94 | different byte strings never have the same Base64 text |
| JsonText.ScanEscape | src/utils/encryption.js:125 | the escaped body of a string literal scans back to the string and the text after it |
| JsonText.ScanJoin | src/utils/encryption.js:125 | the elements of a stringified array of strings scan back to the list |
| JsonText.UnitEscapeReads | src/utils/encryption.js:125 | a `\uXXXX` escape reads back as the code unit it was written from |
| JsonText.ScanSurrogatePair | src/utils/encryption.js:125 | an escaped high surrogate followed by an escaped low surrogate scans as the one character the pair encodes |
| JsonText.ScanEscapedPair | src/utils/encryption.js:125 | a character outside the Basic Multilingual Plane, written as its escaped surrogate pair, scans back to that character |
| JsonText.ParseStringLiteral | src/utils/encryption.js:125 | a string literal whose body scans to `s` with nothing after it parses as `s` |
| JsonText.ParseEscapedPair | src/utils/encryption.js:125 | `JSON.parse` of a literal holding one escaped surrogate pair, such as "\ud83d\ude00", is the one character it encodes |
| JsonText.Stringify | src/utils/encryption.js:75 | `JSON.stringify` gives no text exactly for undefined; a string becomes a quoted literal and a list a bracketed array |
| JsonText.Parse | src/utils/encryption.js:125 | `JSON.parse` never yields undefined and rejects a text of white space only; an escaped surrogate pair is joined into one character |
| JsonText.ParseStringify | src/utils/encryption.js:124-125 | `JSON.parse(JSON.stringify(v)) == v` for null, strings and string arrays |
| CipherEngine.ImportExport | src/utils/encryption.js:45-65 | a key exported as Base64 imports back to the same raw bytes when its length is one AES accepts |
| CipherEngine.ExportKey | src/utils/encryption.js:34-35 | the exported key text has four characters per started three bytes of raw key |
| CipherEngine.ImportKey | src/utils/encryption.js:45-65 | a key imports exactly when its text decodes and the bytes are 16, 24 or 32 long; the key is those bytes; every failure is `BadKey` |
| CipherEngine.GenerateEncryptionKey | src/utils/encryption.js:22-42 | succeeds exactly when Web Crypto is available; the Base64 key imports back to 32 bytes; otherwise the error is rethrown |
| CipherEngine.SplitOfFrame | src/utils/encryption.js:110-111 | `slice(0,12)` and `slice(12)` of a frame built with a 12-byte IV give back that IV and that ciphertext |
| CipherEngine.FrameOfSplit | src/utils/encryption.js:110-111 | any byte string is the frame of its two slices: the split loses nothing |
| CipherEngine.SetAt | src/utils/encryption.js:90-91 | `Uint8Array.set` overwrites exactly the target range and keeps the rest |
| CipherEngine.BuildFrame | src/utils/encryption.js:89-91 | the combined array is the IV followed by the cipher output |
| CipherEngine.EncryptData | src/utils/encryption.js:68-99 | draws a 12-byte IV; succeeds exactly when the key imports and the data has a JSON text; the text is the Base64 frame of that IV |
| CipherEngine.EncryptWith | src/utils/encryption.js:68-99 | succeeds exactly when the key imports and the data is not undefined; a bad key fails first; the stored text decodes to a frame whose first 12 bytes are the IV |
| CipherEngine.OpenFrame | src/utils/encryption.js:102-121 | a bad key fails first, then text `atob` rejects; every other failure is an authentication failure |
| CipherEngine.DecryptWith | src/utils/encryption.js:102-130 | every failure of the frame step is rethrown unchanged; a success never yields undefined and comes from bytes that are whole UTF-16 text |
| CipherEngine.DecryptEncrypt | src/utils/encryption.js:102-130 | for an authenticated cipher, encryption under an importable key succeeds for every defined value (the engine's argument limit aside, see Left out), and `decryptData(encryptData(d, k), k) == JSON.parse(JSON.stringify(d)) == d` |
| CipherEngine.OpenOnlyGenuine | src/utils/encryption.js:114-121 | a frame that opens under a key is valid Base64, the key imports, and the ciphertext is the seal of its plaintext under the frame's IV |
| CipherEngine.FrameRevealsIv | src/utils/encryption.js:73 | two encryptions that produce the same stored text used the same IV |
| KeyStore.SlotInjective | src/utils/encryption.js:137 | different users never share a localStorage item name |
| KeyStore.Slot | src/utils/encryption.js:137 | a slot name is the prefix `encryption_key_` followed by as many characters as the user id has |
| KeyStore.Lookup | src/utils/encryption.js:146-148 | `getItem` gives a value exactly when the user's slot is present, and then that slot's value |
| KeyStore.InitOutcome | src/utils/encryption.js:156-172 | a present non-empty key is returned and nothing is written; otherwise the generation outcome is returned, and a stored generated key reads back from the slot |
| KeyStore.LookupPut | src/utils/encryption.js:137-148 | reading a slot after storing it gives the stored key; every other user's slot reads as before |
| KeyStore.InitTwice | src/utils/encryption.js:156-167 | once a key is stored, a second initialisation returns the same key and writes nothing, whatever generation would do |
| KeyStore.InitNotPersisted | src/utils/encryption.js:164 | when `setItem` fails, the ignored `false` leaves nothing stored, so the next call generates afresh |
| KeyStore.InitOthersUnchanged | src/utils/encryption.js:156-172 | initialisation never touches another user's slot |
| KeyStore.InitKeyNonEmpty | src/utils/encryption.js:161 | a returned key is never empty when generated keys are not |
| KeyStore.Storage.StoreEncryptionKey | src/utils/encryption.js:133-143 | true and the slot written when `setItem` succeeds; false and storage unchanged when it throws |
| KeyStore.Storage.GetEncryptionKey | src/utils/encryption.js:146-153 | the item stored under the user's slot, or null when there is none |
| KeyStore.Storage.InitializeEncryption | src/utils/encryption.js:156-172 | an existing non-empty key is returned with no write; otherwise a key is generated, stored with the result ignored, and returned; a generation failure is rethrown with storage unchanged |
| JournalService.NewRow | src/utils/journalService.js:21-27 | the inserted row has exactly user_id, encrypted_content, mood or null, tags or null, and created_at, and never a `content` field |
| JournalService.WithContent | src/utils/journalService.js:100-104 | the read row carries every stored field, the given content, and `encrypted_content` set to undefined |
| JournalService.RevealRows | src/utils/journalService.js:96-114 | a batch read gives one result per fetched row, in the same order |
| JournalService.RevealRow | src/utils/journalService.js:97-113 | a read row keeps every other field, has `encrypted_content` undefined and always a defined `content`: the plaintext or the sentinel |
| JournalService.RevealRowsIsolated | src/utils/journalService.js:105-112 | changing one row of a batch, for example to one that fails to decrypt, leaves every other row's result unchanged |
| JournalService.RevealFailure | src/utils/journalService.js:105-112 | a row whose decryption throws gets the sentinel text and keeps every other field |
| JournalService.ReadAfterSave | src/utils/journalService.js:96-104 | a row saved under a key reads back under that key with the saved content, mood or null, tags or null, user, id and no ciphertext |
| JournalService.ReadSavedRow | src/utils/journalService.js:96-104 | reading a saved row back keeps its mood or null, tags or null, user and id, and drops the ciphertext, whatever the content decrypts to |
| JournalService.WithEncryptedContent | src/utils/journalService.js:180-183 | the update payload drops `content`, adds `encrypted_content`, and passes every other field through unchanged |
| JournalService.SetThenDelete | src/utils/journalService.js:180-183 | setting `encrypted_content` and then deleting `content` gives the payload with the ciphertext in place of the plaintext |
| JournalService.PrepareUpdate | src/utils/journalService.js:177-183 | draws one IV and gives exactly `UpdatePayload` for it; falsy content leaves the updates untouched |
| JournalService.UpdatePayload | src/utils/journalService.js:177-183 | falsy content leaves the updates as they are; truthy content is replaced by its encryption or the call fails with the crypto error; a payload never carries truthy plaintext content |
| JournalService.BuildQuery | src/utils/journalService.js:58-86 | the query built clause by clause is `QueryOf` of the user and the options |
| JournalService.QueryOfShape | src/utils/journalService.js:58-86 | the first filter is `user_id` equal to the user; descending unless `ascending` is true; the limit as given |
| JournalService.QueryOfClauses | src/utils/journalService.js:64-78 | each later filter is present exactly when its option is given: date bounds, mood, tags |
| JournalService.QueryOfPlaintext | src/utils/journalService.js:58-86 | every filter is on a plaintext column |
| JournalService.Matching | src/utils/journalService.js:89 | the store returns only stored rows that pass every filter |
| JournalService.MatchesIgnoresCiphertext | src/utils/journalService.js:64-78 | the filters never read a non-plaintext column, so the ciphertext cannot affect which rows are selected |
| JournalService.Database.Insert | src/utils/journalService.js:30-34 | on success, the stored row with its assigned id is appended and returned; on failure, nothing changes; a row without `content` keeps a table without plaintext content so |
| JournalService.Database.Select | src/utils/journalService.js:89 | the matching rows, cut to the limit |
| JournalService.Database.SelectOne | src/utils/journalService.js:134-139 | the single row with that id and user, and an error unless there is exactly one |
| JournalService.Database.UpdateWhere | src/utils/journalService.js:186-192 | a store failure changes nothing; otherwise the result is the single row matching the id and the owner with the changes merged, or `NotSingleRow`; that row is updated and every other row is unchanged |
| JournalService.SaveJournalEntry | src/utils/journalService.js:6-45 | the key store ends as `InitOutcome` says; a key failure or an encryption failure returns that error with no request; otherwise exactly one insert request, which on success appends and returns `NewRow` of the ciphertext under the initialised key with the new id; a table without plaintext content stays without it |
| JournalService.GetJournalEntries | src/utils/journalService.js:48-121 | a missing key fails before any request; otherwise one request with the query `QueryOf(user, options)`, and the result is the revealed selected rows |
| JournalService.GetJournalEntry | src/utils/journalService.js:124-164 | a missing key fails before any request; a decryption error fails the whole call |
| JournalService.UpdateJournalEntry | src/utils/journalService.js:167-203 | a missing key fails with no request; an encryption failure returns it with no request; otherwise one request, whose result is the single owned row merged with `UpdatePayload`, or the store's error; a table without plaintext content stays without it, and then a returned row has none either |
| FormRules.LooksLikeEmail | src/pages/authentication-login-register/components/AuthForm.jsx:47 | the direct test holds exactly when some substring matches `\S+@\S+\.\S+` |
| FormRules.EmailTestAgrees | src/pages/authentication-login-register/components/AuthForm.jsx:47 | an '@' and a later '.' with non-space characters around and between them is exactly a pattern match |
| FormRules.BlankIsNoEmail | src/pages/account-settings-privacy/components/ProfileSection.jsx:42 | white space alone never matches the address pattern |
| FormRules.LooksLikePhone | src/pages/account-settings-privacy/components/CrisisSettings.jsx:101 | the direct test holds exactly when the whole text matches `^\+?[\d\s\-\(\)]+$` |
| FormRules.PhoneTestAgrees | src/pages/account-settings-privacy/components/CrisisSettings.jsx:101 | the pattern matches exactly when the text after an optional '+' is non-empty and made of phone characters |
| FormRules.ClearFieldError | src/pages/authentication-login-register/components/AuthForm.jsx:29-34 | only the edited input's error becomes ''; every other error and every key stays |
| AuthForm.Errors | src/pages/authentication-login-register/components/AuthForm.jsx:41-70 | e-mail: "Email is required" when empty, the invalid message when the pattern fails; password: required when empty, the 6-character message when shorter; in register mode "Full name is required" and "Please confirm your password" / "Passwords do not match"; login never has the register keys |
| AuthForm.EmailErrorKeys | src/pages/authentication-login-register/components/AuthForm.jsx:44-49 | the e-mail check sets only `email`, with the message its case calls for |
| AuthForm.PasswordErrorKeys | src/pages/authentication-login-register/components/AuthForm.jsx:51-56 | the password check adds only `password` and keeps the e-mail entry |
| AuthForm.RegisterErrorKeys | src/pages/authentication-login-register/components/AuthForm.jsx:58-69 | the register checks add only `fullName` and `confirmPassword` and keep the earlier entries |
| AuthForm.EditKeepsOtherErrors | src/pages/authentication-login-register/components/AuthForm.jsx:29-34 | editing one field never clears another field's error |
| AuthForm.RegisterStricter | src/pages/authentication-login-register/components/AuthForm.jsx:59-69 | every login error is also a registration error with the same message |
| AuthForm.Form.constructor | src/pages/authentication-login-register/components/AuthForm.jsx:11-18 | empty fields, remember-me off, no errors |
| AuthForm.Form.HandleInputChange | src/pages/authentication-login-register/components/AuthForm.jsx:21-39 | sets the named field, clears only its error, and clears the context error |
| AuthForm.Form.HandleRememberMe | src/pages/authentication-login-register/components/AuthForm.jsx:25 | the checkbox stores its checked state |
| AuthForm.Form.ValidateForm | src/pages/authentication-login-register/components/AuthForm.jsx:41-73 | replaces the error map with `Errors` and returns true exactly when the map is empty |
| AuthForm.Form.HandleSubmit | src/pages/authentication-login-register/components/AuthForm.jsx:75-103 | no sign-in or sign-up call unless the form validates; login signs in and registration signs up with the form's fields |
| AuthForm.Form.HandleForgotPassword | src/pages/authentication-login-register/components/AuthForm.jsx:105-109 | an empty e-mail sets the error map to exactly the one "enter your email first" entry |
| ProfileSection.Errors | src/pages/account-settings-privacy/components/ProfileSection.jsx:33-57 | "Name is required" for a blank name; "Email is required" for a blank address, else the invalid message when the pattern fails; with a new password, independently, the current-password, 8-character and "Passwords do not match" messages |
| ProfileSection.AddPasswordErrors | src/pages/account-settings-privacy/components/ProfileSection.jsx:46-56 | the password checks, run one after another on the error map, add exactly the password entries `Errors` describes |
| ProfileSection.SavedFormStaysValid | src/pages/account-settings-privacy/components/ProfileSection.jsx:79-84 | a form that validated still validates once save clears its passwords |
| ProfileSection.PasswordsIgnoredWithoutChange | src/pages/account-settings-privacy/components/ProfileSection.jsx:46 | without a new password, the current and confirmation fields never matter |
| ProfileSection.Profile.constructor | src/pages/account-settings-privacy/components/ProfileSection.jsx:7-15 | the user's name and e-mail, empty password fields, no errors, not editing |
| ProfileSection.Profile.HandleInputChange | src/pages/account-settings-privacy/components/ProfileSection.jsx:18-31 | sets the named field and clears only its error |
| ProfileSection.Profile.ValidateForm | src/pages/account-settings-privacy/components/ProfileSection.jsx:33-60 | the error map becomes `Errors(form)`; valid exactly when it is empty |
| ProfileSection.Profile.HandleSave | src/pages/account-settings-privacy/components/ProfileSection.jsx:62-90 | an invalid form or a wrong current password stops with its errors; otherwise the form is handed on, editing ends and the passwords are cleared |
| ProfileSection.Profile.HandleCancel | src/pages/account-settings-privacy/components/ProfileSection.jsx:92-102 | back to the user's name and e-mail with empty passwords, no errors, not editing |
| CrisisSettings.StrOr | src/pages/account-settings-privacy/components/CrisisSettings.jsx:10-12 | `value \|\| fallback`: a missing or empty string falls back, and nothing else does |
| CrisisSettings.BoolCoalesce | src/pages/account-settings-privacy/components/CrisisSettings.jsx:13-16 | `value ?? fallback`: a stored false is kept |
| CrisisSettings.Defaults | src/pages/account-settings-privacy/components/CrisisSettings.jsx:9-17 | a helpline is always chosen; the contact fields are empty exactly when missing or empty; a switch defaulting to on is off only when stored false, contact sharing on only when stored true |
| CrisisSettings.SavedSettingsReadBack | src/pages/account-settings-privacy/components/CrisisSettings.jsx:9-17 | saved settings come back as the form's defaults exactly when a helpline is chosen |
| CrisisSettings.EmptyDefaultsValid | src/pages/account-settings-privacy/components/CrisisSettings.jsx:9-17 | with nothing stored: '', '', 'national', true, true, false, true, and that form validates |
| CrisisSettings.Errors | src/pages/account-settings-privacy/components/CrisisSettings.jsx:94-104 | the phone is the only key ever flagged: required with a contact name, and otherwise it must match the phone pattern |
| CrisisSettings.SwitchKeepsErrors | src/pages/account-settings-privacy/components/CrisisSettings.jsx:87-92 | a switch never changes whether the form validates |
| CrisisSettings.Form.constructor | src/pages/account-settings-privacy/components/CrisisSettings.jsx:9-20 | the defaults of the stored settings, no errors, not editing |
| CrisisSettings.Form.HandleInputChange | src/pages/account-settings-privacy/components/CrisisSettings.jsx:72-85 | sets only the named field and clears only its error |
| CrisisSettings.Form.HandleCheckboxChange | src/pages/account-settings-privacy/components/CrisisSettings.jsx:87-92 | sets only the given switch |
| CrisisSettings.Form.SelectHelpline | src/pages/account-settings-privacy/components/CrisisSettings.jsx:238 | sets only the preferred helpline |
| CrisisSettings.Form.ValidateForm | src/pages/account-settings-privacy/components/CrisisSettings.jsx:94-107 | the error map becomes `Errors(settings)`; valid exactly when it is empty |
| CrisisSettings.Form.HandleSave | src/pages/account-settings-privacy/components/CrisisSettings.jsx:109-114 | the settings are handed on and editing ends exactly when they validate |
| CrisisSettings.Form.HandleCancel | src/pages/account-settings-privacy/components/CrisisSettings.jsx:116-128 | the same defaults as initialisation, no errors, not editing |
| MoodFilterPanel.Remove | src/pages/mood-history-analytics/components/MoodFilterPanel.jsx:56 | every occurrence of the mood goes; every other mood keeps its count |
| MoodFilterPanel.RemoveAbsent | src/pages/mood-history-analytics/components/MoodFilterPanel.jsx:56 | removing an absent mood changes nothing |
| MoodFilterPanel.RemoveAppend | src/pages/mood-history-analytics/components/MoodFilterPanel.jsx:56 | removal distributes over appending one element |
| MoodFilterPanel.Toggle | src/pages/mood-history-analytics/components/MoodFilterPanel.jsx:55-57 | an absent mood is appended at the end; a present one is removed everywhere; afterwards the mood is present exactly when it was absent |
| MoodFilterPanel.ToggleAbsentTwice | src/pages/mood-history-analytics/components/MoodFilterPanel.jsx:55-57 | toggling an unselected mood twice restores the list |
| MoodFilterPanel.TogglePresentTwice | src/pages/mood-history-analytics/components/MoodFilterPanel.jsx:55-57 | on a duplicate-free list, toggling a selected mood twice moves it to the end; the list is restored exactly when it was last |
| MoodFilterPanel.ToggleTwiceReorders | src/pages/mood-history-analytics/components/MoodFilterPanel.jsx:55-57 | ["happy","sad"] toggled twice on "happy" becomes ["sad","happy"] |
| MoodFilterPanel.MoodsOf | src/pages/mood-history-analytics/components/MoodFilterPanel.jsx:54 | a falsy `moods` reads as the empty list |
| MoodFilterPanel.OptionLabel | src/pages/mood-history-analytics/components/MoodFilterPanel.jsx:15-21 | the label of an option with that value, found exactly when one exists |
| MoodFilterPanel.HasActiveFilters | src/pages/mood-history-analytics/components/MoodFilterPanel.jsx:73-78 | the defaults are inactive; a selected mood or a search makes the filters active |
| MoodFilterPanel.InactiveIffDefaults | src/pages/mood-history-analytics/components/MoodFilterPanel.jsx:73-78 | nothing is active exactly when range and sort are the defaults, no mood is selected and the search is empty; the defaults are inactive |
| MoodFilterPanel.ToggleInActivates | src/pages/mood-history-analytics/components/MoodFilterPanel.jsx:53-57 | selecting a new mood makes the filters active |
| MoodFilterPanel.OtherKeysIgnored | src/pages/mood-history-analytics/components/MoodFilterPanel.jsx:73-78 | keys other than the four it reads never change `hasActiveFilters` |
| MoodFilterPanel.Panel.HandleFilterChange | src/pages/mood-history-analytics/components/MoodFilterPanel.jsx:47-51 | only the given key changes, and the new filters are reported |
| MoodFilterPanel.Panel.HandleMoodChipToggle | src/pages/mood-history-analytics/components/MoodFilterPanel.jsx:53-60 | the mood list becomes its toggle, and the new filters are reported |
| MoodFilterPanel.Panel.ClearAllFilters | src/pages/mood-history-analytics/components/MoodFilterPanel.jsx:62-71 | exactly the four defaults, inactive, and reported |
| ExerciseModal.NextStep | src/pages/daily-journaling-interface/components/ExerciseModal.jsx:62-70 | before the last step: the next step with the timer stopped; at the last step: only completion; the step stays in range |
| ExerciseModal.PrevStep | src/pages/daily-journaling-interface/components/ExerciseModal.jsx:72-78 | no change at step 0; otherwise one step back with the timer reset |
| ExerciseModal.StepDuration | src/pages/daily-journaling-interface/components/ExerciseModal.jsx:54-60 | 4, 7, 8, 4, 7, 8 and then 5 for the 4-7-8 exercise; 30 for every other exercise; never 0 |
| ExerciseModal.StartStep | src/pages/daily-journaling-interface/components/ExerciseModal.jsx:49-52 | the countdown runs from the step's duration |
| ExerciseModal.Tick | src/pages/daily-journaling-interface/components/ExerciseModal.jsx:27-47 | a running countdown loses one second; its last second stops the timer and advances exactly as `nextStep`; the step stays in range |
| ExerciseModal.CountdownEnds | src/pages/daily-journaling-interface/components/ExerciseModal.jsx:27-47 | a countdown with d seconds left runs for d-1 ticks and ends on the d-th |
| ExerciseModal.StepRunsToNext | src/pages/daily-journaling-interface/components/ExerciseModal.jsx:49-70 | a started step that runs its whole duration moves on as "next" does |
| ExerciseModal.TicksInRange | src/pages/daily-journaling-interface/components/ExerciseModal.jsx:34-38 | any number of ticks keeps the step within the instructions |
| ExerciseModal.PadStart | src/pages/daily-journaling-interface/components/ExerciseModal.jsx:88 | `padStart` keeps the text at the end and fills with the pad character up to the width |
| ExerciseModal.FormatTime | src/pages/daily-journaling-interface/components/ExerciseModal.jsx:85-89 | the text ends with a colon and two seconds digits; under ten minutes it is exactly four characters |
| ExerciseModal.FormatTimeReadsBack | src/pages/daily-journaling-interface/components/ExerciseModal.jsx:85-89 | minutes × 60 + the two-digit seconds reads back as the input |
| ExerciseModal.Modal.Open | src/pages/daily-journaling-interface/components/ExerciseModal.jsx:11-16 | opening gives step 0, inactive, 0 seconds, not completed |
| ExerciseModal.Modal.StartStepClicked | src/pages/daily-journaling-interface/components/ExerciseModal.jsx:49-52 | the state becomes `StartStep` of the old state |
| ExerciseModal.Modal.NextStepClicked | src/pages/daily-journaling-interface/components/ExerciseModal.jsx:62-70 | the state becomes `NextStep` of the old state |
| ExerciseModal.Modal.PrevStepClicked | src/pages/daily-journaling-interface/components/ExerciseModal.jsx:72-78 | the state becomes `PrevStep` of the old state |
| ExerciseModal.Modal.TimerTick | src/pages/daily-journaling-interface/components/ExerciseModal.jsx:27-47 | the state becomes `Tick` of the old state |
| JournalEditor.RunLength | src/pages/daily-journaling-interface/components/JournalEditor.jsx:19 | the leading run of non-space characters, ended by a space or by the end of the text |
| JournalEditor.Words | src/pages/daily-journaling-interface/components/JournalEditor.jsx:19 | the pieces are non-empty and space-free; there are none exactly for blank text |
| JournalEditor.WordCount | src/pages/daily-journaling-interface/components/JournalEditor.jsx:19-21 | 0 exactly for empty or white-space-only content |
| JournalEditor.CharacterCount | src/pages/daily-journaling-interface/components/JournalEditor.jsx:22 | `content.length` in code units: 0 exactly for empty content and never less than the characters |
| JournalEditor.RunOfWord | src/pages/daily-journaling-interface/components/JournalEditor.jsx:19 | a word followed by white space is exactly the first run |
| JournalEditor.WordsOfJoin | src/pages/daily-journaling-interface/components/JournalEditor.jsx:19-21 | words written out with single spaces split back into the same words |
| JournalEditor.TriggersCrisis | src/pages/daily-journaling-interface/components/JournalEditor.jsx:19-32 | a content change that triggers the crisis flow has a crisis phrase and more than 25 characters |
| JournalEditor.CrisisCheckIgnoresCase | src/pages/daily-journaling-interface/components/JournalEditor.jsx:25-32 | upper- and lower-case spellings trigger the crisis callback alike |
| JournalEditor.ShortContentNeverTriggers | src/pages/daily-journaling-interface/components/JournalEditor.jsx:30 | content of at most 25 characters, and so at most 50 code units, never triggers |
| JournalEditor.FormatLastSaved | src/pages/daily-journaling-interface/components/JournalEditor.jsx:55-70 | '' with no timestamp; "just now" under a minute; "1 minute ago"; "N minutes ago" under an hour; the clock time after that |
| JournalEditor.SaveDisabled | src/pages/daily-journaling-interface/components/JournalEditor.jsx:145 | Save is enabled only for non-empty content while no save runs |
| JournalEditor.ClearDisabled | src/pages/daily-journaling-interface/components/JournalEditor.jsx:133 | Clear is disabled for empty content and while saving |
| JournalEditor.ButtonRules | src/pages/daily-journaling-interface/components/JournalEditor.jsx:133-146 | Save is enabled exactly for non-blank content when not saving; then Clear is enabled too |
| Sentiment.Classify | src/pages/daily-journaling-interface/index.jsx:125-151 | the result is that of the first rule that fires in the table anxious, negative, positive, reflective, or neutral when none fires |
| Sentiment.RulesInOrder | src/pages/daily-journaling-interface/index.jsx:127-151 | the rule table spelled out group by group |
| Sentiment.ClassifyFollowsRules | src/pages/daily-journaling-interface/index.jsx:127-151 | the written if/else chain and the rule table agree on every input |
| Sentiment.MoodRules | src/pages/daily-journaling-interface/index.jsx:127-139 | 'struggling' always gives anxious; 'low' gives negative unless an anxious word occurs; 'great' gives positive unless an anxious or negative word occurs |
| Sentiment.ReflectiveOnlyFromWords | src/pages/daily-journaling-interface/index.jsx:142-151 | reflective needs a reflective word; 'good' and 'okay' decide nothing, and give neutral when no word occurs |
| Sentiment.UnhappyIsNegative | src/pages/daily-journaling-interface/index.jsx:132-138 | text containing 'unhappy' is negative, because negative is tested before positive |
| Sentiment.CaseInsensitive | src/pages/daily-journaling-interface/index.jsx:125 | changing the case of the entry never changes the sentiment |
| Sentiment.ActivityFor | src/pages/daily-journaling-interface/index.jsx:29-55 | the activity card of each sentiment |
| Sentiment.ActivityForInjective | src/pages/daily-journaling-interface/index.jsx:153-154 | different sentiments suggest different activities |
| Sentiment.WrittenEntrySubmits | src/pages/daily-journaling-interface/index.jsx:113 | an entry with a non-space character is always analysed |
| Sentiment.ReplyFor | src/pages/daily-journaling-interface/index.jsx:125-151 | each sentiment's reply makes its own offer; only an anxious entry is offered the breathing reset, and only a neutral one the visualization |
| JournalingPage.DetectSentiment | src/pages/daily-journaling-interface/index.jsx:125-151 | the if/else chain gives `Sentiment.Classify`, and a reply making that sentiment's offer |
| JournalingPage.Screen.constructor | src/pages/daily-journaling-interface/index.jsx:12-19 | empty entry, no mood, sentiment, reply or activity |
| JournalingPage.Screen.HandleSubmit | src/pages/daily-journaling-interface/index.jsx:112-170 | nothing happens for blank text with no mood; otherwise the classifier's sentiment, the reply making its offer, and its activity are shown |
| JournalingPage.Screen.HandleStartNewEntry | src/pages/daily-journaling-interface/index.jsx:172-179 | text, mood, sentiment, response, activity and details flag are reset |
| JournalPrompt.DetectSentiment | src/pages/dashboard/components/JournalPrompt.jsx:74-100 | the duplicated chain gives the same `Sentiment.Classify` as the journaling page, and a reply making the same offer |
| JournalPrompt.Screen.constructor | src/pages/dashboard/components/JournalPrompt.jsx:8-14 | empty entry, no mood, sentiment, reply or activity |
| JournalPrompt.Screen.HandleSubmit | src/pages/dashboard/components/JournalPrompt.jsx:61-118 | nothing happens for blank text with no mood; otherwise the classifier's sentiment, the reply making its offer, and `activities[sentiment]` |
| JournalPrompt.Screen.HandleStartNewEntry | src/pages/dashboard/components/JournalPrompt.jsx:121-128 | all six state fields are reset |
| ProgressIndicator.Panel.constructor | src/components/ui/ProgressIndicator.jsx:6-7 | hidden and not animating |
| ProgressIndicator.Panel.PathChanged | src/components/ui/ProgressIndicator.jsx:12-21 | visible exactly on the three tracked paths, and an animation is scheduled when visible |
| ProgressIndicator.Panel.AnimationTimeout | src/components/ui/ProgressIndicator.jsx:16 | a fired timeout starts the animation |
| ProgressIndicator.PropsOf | src/components/ui/ProgressIndicator.jsx:5 | missing props default to streak 0, entries 0, goal 7 |
| ProgressIndicator.DefaultPropsDisplay | src/components/ui/ProgressIndicator.jsx:5 | with no props: an empty bar, the opening streak message, level Beginning, "7 more entries" |
| ProgressIndicator.ProgressPercentage | src/components/ui/ProgressIndicator.jsx:23 | never above 100; NaN only for 0/0; full exactly when the entries reach a positive goal; below the cap, percentage × goal = entries × 100 |
| ProgressIndicator.RatioAtLeastOne | src/components/ui/ProgressIndicator.jsx:23 | the ratio × 100 reaches 100 exactly when the entries reach the goal |
| ProgressIndicator.WeeklyProgressMessage | src/components/ui/ProgressIndicator.jsx:43-48 | the achieved message when nothing remains, the "just 1" message for one, and "N more entries" otherwise |
| ProgressIndicator.FullBarMeansGoalAchieved | src/components/ui/ProgressIndicator.jsx:23-48 | the bar is full exactly when the message says the goal is reached |
| ProgressIndicator.Reached | src/components/ui/ProgressIndicator.jsx:26-32 | how many thresholds are reached, never more than there are |
| ProgressIndicator.ReachedMonotone | src/components/ui/ProgressIndicator.jsx:26-32 | a larger value reaches at least as many thresholds |
| ProgressIndicator.ReachedFour | src/components/ui/ProgressIndicator.jsx:26-32 | ascending thresholds are reached as a prefix, as the if-chain tests them |
| ProgressIndicator.GetStreakLevel | src/components/ui/ProgressIndicator.jsx:26-32 | the level's rank is the number of the thresholds 3, 7, 14, 30 reached |
| ProgressIndicator.StreakLevelMonotone | src/components/ui/ProgressIndicator.jsx:26-32 | a longer streak never has a lower level |
| ProgressIndicator.StreakBucket | src/components/ui/ProgressIndicator.jsx:34-41 | buckets 0, 1, under 7, under 14, under 30 and beyond |
| ProgressIndicator.MotivationalMessage | src/components/ui/ProgressIndicator.jsx:34-41 | the message of the streak's bucket |
| ProgressIndicator.MessageFollowsLevel | src/components/ui/ProgressIndicator.jsx:26-41 | from a week on, the message names the same stage as the level |
| MoodSummaryCards.Destructure | src/pages/mood-history-analytics/components/MoodSummaryCards.jsx:6-15 | each field is the given value, or its default when missing: 0 for the counts, streaks, goal progress, trend and score, 'neutral' for the mood, {} for the distribution |
| MoodSummaryCards.TrendOf | src/pages/mood-history-analytics/components/MoodSummaryCards.jsx:41-45 | the icon trends up exactly above 0.1 and down exactly below -0.1 |
| MoodSummaryCards.TrendLabelMatchesIcon | src/pages/mood-history-analytics/components/MoodSummaryCards.jsx:139-140 | the label agrees with the icon; a missing trend reads "Stable" |
| MoodSummaryCards.EmptySummary | src/pages/mood-history-analytics/components/MoodSummaryCards.jsx:6-15 | an empty summary shows the opening streak line, no badge and the placeholder |
| MoodSummaryCards.StreakMessage | src/pages/mood-history-analytics/components/MoodSummaryCards.jsx:25-32 | the same buckets and texts as the progress panel's message |
| MoodSummaryCards.GetConsistencyLevel | src/pages/mood-history-analytics/components/MoodSummaryCards.jsx:34-39 | the level's rank is the number of the thresholds 50, 70, 90 reached |
| MoodSummaryCards.ConsistencyMonotone | src/pages/mood-history-analytics/components/MoodSummaryCards.jsx:34-39 | a higher score never has a lower level |
| MoodSummaryCards.FormatTimeRange | src/pages/mood-history-analytics/components/MoodSummaryCards.jsx:47-55 | 'All Time' exactly for a range other than week, month, quarter and year |
| MoodSummaryCards.TimeRangeLabelsAgree | src/pages/mood-history-analytics/components/MoodSummaryCards.jsx:47-55 | the card names each range exactly as the filter panel's select does |
| MoodSummaryCards.Achievements | src/pages/mood-history-analytics/components/MoodSummaryCards.jsx:219-238 | Week Warrior iff streak ≥ 7; Prolific Writer iff entries ≥ 50; Goal Achiever iff progress ≥ 100; no badge twice |
| MoodSummaryCards.GoalCardMatchesBadge | src/pages/mood-history-analytics/components/MoodSummaryCards.jsx:87-88 | the goal card is green exactly when the Goal Achiever badge shows |
| MoodSummaryCards.WeekWarriorIsBuilding | src/pages/mood-history-analytics/components/MoodSummaryCards.jsx:221 | Week Warrior implies a streak level of at least Building |
| MoodTimelineEntry.MoodFor | src/pages/mood-history-analytics/components/MoodTimelineEntry.jsx:40 | a known mood's style; an unknown or missing mood falls back to neutral |
| MoodTimelineEntry.CaptionsDistinct | src/pages/mood-history-analytics/components/MoodTimelineEntry.jsx:7-38 | the five styles are told apart by their captions |
| MoodTimelineEntry.SentimentBadge | src/pages/mood-history-analytics/components/MoodTimelineEntry.jsx:90-103 | no badge for a missing or zero score; Positive above 0.3; Negative below -0.3; Neutral otherwise |
| MoodTimelineEntry.TruncateContent | src/pages/mood-history-analytics/components/MoodTimelineEntry.jsx:58-61 | whole up to the limit; beyond it, the first `maxLength` units and '...' |
| MoodTimelineEntry.TruncateIdempotent | src/pages/mood-history-analytics/components/MoodTimelineEntry.jsx:58-61 | truncating a preview again changes nothing |
| MoodTimelineEntry.PreviewBounds | src/pages/mood-history-analytics/components/MoodTimelineEntry.jsx:179 | a preview is at most the limit plus three; a preview within the limit is the whole content |
| MoodTimelineEntry.ShortTextShownWhole | src/pages/mood-history-analytics/components/MoodTimelineEntry.jsx:59 | a string whose `length` is within the limit is shown whole |
| MoodTimelineEntry.Chips | src/pages/mood-history-analytics/components/MoodTimelineEntry.jsx:116-130 | the first min(3, n) tags, and a "+(n-3) more" chip exactly when n > 3 |
| MoodTimelineEntry.ChipsAccountForAll | src/pages/mood-history-analytics/components/MoodTimelineEntry.jsx:118-130 | the shown chips plus the number the overflow chip names make up all tags |
| MyDataTab.Tab.constructor | src/pages/account-settings-privacy/components/MyDataTab.jsx:10-19 | journal, mood and profile on, insights off, JSON, not exporting |
| MyDataTab.Tab.SetOption | src/pages/account-settings-privacy/components/MyDataTab.jsx:22-27 | only the named option changes |
| MyDataTab.ExportDisabled | src/pages/account-settings-privacy/components/MyDataTab.jsx:314 | disabled while exporting; otherwise disabled exactly when no option is set |
| MyDataTab.ButtonFollowsOptions | src/pages/account-settings-privacy/components/MyDataTab.jsx:314 | the button starts enabled, and clearing every option disables it |
| MyDataTab.DoubleQuotes | src/pages/account-settings-privacy/components/MyDataTab.jsx:96 | a text without '"' is unchanged, and nothing gets shorter |
| MyDataTab.UnescapeDoubleQuotes | src/pages/account-settings-privacy/components/MyDataTab.jsx:96 | an RFC 4180 reader turns the doubled field body back into the text |
| MyDataTab.DoubleQuotesInjective | src/pages/account-settings-privacy/components/MyDataTab.jsx:96 | different texts give different field bodies |
| MyDataTab.JournalLine | src/pages/account-settings-privacy/components/MyDataTab.jsx:96 | a journal line exists exactly when `content` is a string; otherwise `replace` throws |
| MyDataTab.NotesField | src/pages/account-settings-privacy/components/MyDataTab.jsx:103 | missing notes give an empty field; string notes are quote-doubled |
| MyDataTab.MoodLine | src/pages/account-settings-privacy/components/MyDataTab.jsx:103 | a mood line exists unless the notes are a non-string value with no `replace` |
| MyDataTab.ContentFieldReadsBack | src/pages/account-settings-privacy/components/MyDataTab.jsx:96 | the quoted content field of a line reads back as the content |
| MyDataTab.NotesFieldReadsBack | src/pages/account-settings-privacy/components/MyDataTab.jsx:103 | the quoted notes field reads back as the notes, or as '' when there are none |
| MyDataTab.CsvText | src/pages/account-settings-privacy/components/MyDataTab.jsx:92-104 | the two headings, each followed by its lines in input order; fails exactly when some line throws |
| MyDataTab.AppendLines | src/pages/account-settings-privacy/components/MyDataTab.jsx:95-97 | the `forEach` appends every row's line in order, failing exactly when one throws |
| MyDataTab.BuildCsv | src/pages/account-settings-privacy/components/MyDataTab.jsx:92-104 | the CSV built step by step equals `CsvText` |
| MyDataTab.EmptyCsv | src/pages/account-settings-privacy/components/MyDataTab.jsx:92-104 | with no rows, the text is the two headings alone |
| MyDataTab.Rows | src/pages/account-settings-privacy/components/MyDataTab.jsx:45 | `data \|\| []` when the option is set, no rows otherwise |
| MyDataTab.FetchAll | src/pages/account-settings-privacy/components/MyDataTab.jsx:35-72 | the fetch succeeds exactly when every selected query does; it gives the selected rows and the profile, or null when the option is off |
| MyDataTab.ExportData | src/pages/account-settings-privacy/components/MyDataTab.jsx:29-128 | no user means nothing happens; a download happens exactly when every selected query succeeds (a missing profile, PGRST116, counts as success) and, for CSV, the CSV text can be built; the JSON holds each table only when its option is set and the fetched profile, or null when off or missing; the CSV is `CsvText` of the selected rows; a failed query fails |
| MyDataTab.StoredRowBreaksCsv | src/pages/account-settings-privacy/components/MyDataTab.jsx:96 | a CSV export of any row the journal service stores throws |
| MyDataTab.JournalLineFixed | src/pages/account-settings-privacy/components/MyDataTab.jsx:96 | agrees with the written line wherever that exists |
| MyDataTab.CsvTextFixed | src/pages/account-settings-privacy/components/MyDataTab.jsx:92-104 | the corrected CSV fails only on mood rows |
| MyDataTab.FixedLinesAgree | src/pages/account-settings-privacy/components/MyDataTab.jsx:95-97 | the corrected lines equal the written ones wherever those succeed |
| MyDataTab.CsvFixedAgrees | src/pages/account-settings-privacy/components/MyDataTab.jsx:92-104 | the corrected CSV equals the written one wherever that succeeds, and succeeds whenever the mood rows do |
| CrisisOverlay.NextCount | src/components/ui/CrisisOverlay.jsx:69-76 | below the limit the count goes up by one; at the limit it resets to 0 and the exercise stops |
| CrisisOverlay.Show | src/components/ui/CrisisOverlay.jsx:193-196 | in on even counts, out on odd ones; breath number `floor(count/2)+1` |
| CrisisOverlay.Displays | src/components/ui/CrisisOverlay.jsx:193-196 | one display per count, from the start count to the stopping count, each `Show` of its count |
| CrisisOverlay.CounterRun | src/components/ui/CrisisOverlay.jsx:69-76 | applying the updater tick by tick from a count visits every count up to the limit, once each and in order |
| CrisisOverlay.DisplaysFollowCounter | src/components/ui/CrisisOverlay.jsx:69-76 | the displays of a run are exactly `Show` of the counts the updater visits |
| CrisisOverlay.WrittenCounterRun | src/components/ui/CrisisOverlay.jsx:69-76 | as written, the interval started at 0 holds the counts 0 to 8 and shows their displays |
| CrisisOverlay.WrittenRunShowsFifthBreath | src/components/ui/CrisisOverlay.jsx:69-76 | as written, a run shows nine displays, the last being breath 5 (of 4) |
| CrisisOverlay.FixedRunShowsFourBreaths | src/components/ui/CrisisOverlay.jsx:193-196 | with limit 7 a run shows breaths 1-4, each in and then out |
| CrisisOverlay.FixedCountsWithinFour | src/components/ui/CrisisOverlay.jsx:196 | with limit 7 every count shows a breath between 1 and 4 |
| CrisisOverlay.Overlay.constructor | src/components/ui/CrisisOverlay.jsx:6-8 | 'immediate', count 0, not breathing |
| CrisisOverlay.Overlay.Activated | src/components/ui/CrisisOverlay.jsx:10-23 | activation resets step, count and breathing; running intervals are not cleared |
| CrisisOverlay.Overlay.StartBreathing | src/components/ui/CrisisOverlay.jsx:64-78 | breathing on, count 0, one more interval running |
| CrisisOverlay.Overlay.Tick | src/components/ui/CrisisOverlay.jsx:68-77 | the count follows `NextCount` with limit 8 and stays in 0..8; the stopping tick clears its interval |
| CrisisOverlay.CallTarget | src/components/ui/CrisisOverlay.jsx:80-87 | 911 and 988 go to `tel:`; a number containing 741741 goes to the SMS link; anything else goes nowhere |
| CrisisOverlay.ButtonCaption | src/components/ui/CrisisOverlay.jsx:170 | 'Text' exactly when the number contains 'Text', 'Call' otherwise |
| CrisisOverlay.ContactsRouteAsLabelled | src/components/ui/CrisisOverlay.jsx:25-44 | every listed contact leads somewhere, and its button says 'Text' exactly when it opens the SMS link |
| UserMenu.Split | src/components/ui/UserMenu.jsx:63 | `split(' ')`: at least one piece, none containing a space, and joining them with ' ' gives the text back |
| UserMenu.SplitJoin | src/components/ui/UserMenu.jsx:63 | splitting a join of space-free pieces gives the pieces back |
| UserMenu.FirstChars | src/components/ui/UserMenu.jsx:64 | one first letter per non-empty word, each from some word |
| UserMenu.Initials | src/components/ui/UserMenu.jsx:59-67 | 'U' for a missing or empty name, otherwise at most two characters |
| UserMenu.TwoWordInitials | src/components/ui/UserMenu.jsx:61-66 | "First Last" gives the two upper-cased first letters |
| UserMenu.BlankOnlyForSpaces | src/components/ui/UserMenu.jsx:61-66 | the initials are empty exactly for a name made only of spaces |
| UserMenu.Menu.constructor | src/components/ui/UserMenu.jsx:7 | closed |
| UserMenu.Menu.Toggle | src/components/ui/UserMenu.jsx:24-26 | flips open and closed |
| UserMenu.Menu.MouseDown | src/components/ui/UserMenu.jsx:12-16 | a press outside closes the menu; one inside changes nothing |
| UserMenu.Menu.MenuItemClick | src/components/ui/UserMenu.jsx:28-35 | every item closes the menu; 'logout' logs out, 'settings' navigates, anything else does nothing more |
| ExportDataPanel.Panel.constructor | src/pages/mood-history-analytics/components/ExportDataPanel.jsx:8-16 | the initial configuration |
| ExportDataPanel.Panel.ConfigChange | src/pages/mood-history-analytics/components/ExportDataPanel.jsx:33-38 | only the given key changes |
| ExportDataPanel.EstimatedKb | src/pages/mood-history-analytics/components/ExportDataPanel.jsx:44-49 | the estimate is 50 KB, plus 200 with content and 100 with insights, tripled for PDF |
| ExportDataPanel.EstimateCases | src/pages/mood-history-analytics/components/ExportDataPanel.jsx:44-49 | the estimate is one of seven sizes; it passes 1000 KB exactly for a PDF with both content and insights; it is at most 350 KB for other formats |
| ExportDataPanel.SizeText | src/pages/mood-history-analytics/components/ExportDataPanel.jsx:51 | '<n> KB' up to 1000, megabytes beyond |
| ExportDataPanel.InitialEstimate | src/pages/mood-history-analytics/components/ExportDataPanel.jsx:8-16 | the initial configuration estimates "250 KB" |
| ExportDataPanel.FindFormat | src/pages/mood-history-analytics/components/ExportDataPanel.jsx:55 | `find`: the first option with the value, and none exactly when no option has it |
| ExportDataPanel.FormatDescription | src/pages/mood-history-analytics/components/ExportDataPanel.jsx:54-57 | '' exactly for a format other than the four offered |
| ExportDataPanel.FormatsFound | src/pages/mood-history-analytics/components/ExportDataPanel.jsx:18-23 | the four formats are found and have descriptions, and nothing else is found |
| ExportDataPanel.RangeLabelsAgree | src/pages/mood-history-analytics/components/ExportDataPanel.jsx:165 | each date range the panel offers is labelled as the summary cards label it |
| ExportDataPanel.DataTypeCount | src/pages/mood-history-analytics/components/ExportDataPanel.jsx:172 | one less than the number of keys whose value is exactly true; -1 exactly when none is |
| ExportDataPanel.CountFollowsCheckboxes | src/pages/mood-history-analytics/components/ExportDataPanel.jsx:172 | the initial count is 3, and switching one more box on adds one |

## Left out

**Encryption layer**
- AES-GCM itself, key generation inside Web Crypto, and `getRandomValues`. The cipher is a parameter with its correctness property. The random bytes are arbitrary values of the right length.
- Error messages and `console.error` output. Each failure is a `Failure` value.
- JsonText.ParseStringify: covers only the content values a journal entry holds (null, a string, an array of strings), not numbers or objects.
- CipherEngine.EncryptWith, CipherEngine.DecryptWith, CipherEngine.DecryptEncrypt and Utf16Bytes.DecodeString: the JavaScript engine's limit on the number of call arguments is not modelled. `btoa(String.fromCharCode(...encryptedArray))` (src/utils/encryption.js:94) and `String.fromCharCode.apply(null, new Uint16Array(buf))` (src/utils/encryption.js:18) pass one argument per byte or code unit, so a long enough entry throws a RangeError inside encryptData or decryptData. The model has no such bound: encryption, decryption and their round trip are promised for content of any length, which holds in the source only below the engine's limit.
- Strings holding a lone surrogate cannot be represented, because Dafny strings are Unicode scalar values.
- JsonText.Parse: a `\u` escape naming a lone surrogate (a low surrogate, or a high one not followed by an escaped low one) is refused, while `JSON.parse` accepts it into a string that no Dafny string can hold.
- Race conditions between two concurrent `initializeEncryption` calls. The source has no locking to model.

**Journal service**
- deleteJournalEntry and deleteAllJournalEntries in `src/utils/journalService.js`. They are store deletes that touch neither keys nor content.
- JournalService.Database.Select: does not model the `created_at` ordering. Rows come back in stored order, and the requested direction is only recorded in the query.
- A negative `limit` is not modelled.

**Components**
- The wording of the AI replies. Each reply is identified by the offer it makes (`Sentiment.Offer`); the journaling page and the dashboard prompt word the same offers differently.
- Rendering, colours, icons, navigation effects other than the returned route, `alert`, and the simulated delays.
- Timers:
  - The exercise and breathing intervals are modelled as one tick at a time.
  - The 300 ms animation timeout of the progress panel is a counter.
  - Interval cleanup on unmount is not modelled.
- Floating point: ProgressIndicator.ProgressPercentage uses exact rationals with no rounding.
- ExportDataPanel.SizeText: the megabyte label (`toFixed(1)`) is not rendered.
- Locale-dependent dates and times: JournalEditor.FormatLastSaved returns a marker for the clock time.
- Case mapping is ASCII only (`Js.Lower`, `Js.Upper`). Non-ASCII letters keep their case.
- UserMenu.Initials:
  - it takes whole characters, while `charAt(0)` of a word that starts outside the Basic Multilingual Plane gives half a surrogate pair;
  - its contract does not restate the letters, which TwoWordInitials and BlankOnlyForSpaces pin down.
- MoodFilterPanel.Panel.HandleMoodChipToggle: requires `moods` to be a list or falsy. A non-empty string in that field (no `includes`-compatible list) is not modelled.
- MoodTimelineEntry.MoodFor: a mood named like an inherited object property (for example "constructor") is treated as unknown.
- CrisisOverlay.Overlay.StartBreathing: requires that no exercise runs, because its button is only rendered then.
- CrisisOverlay.Overlay.Activated: an interval that is running when the overlay is re-activated is not cleared, as in the source. The `intervals` counter shows this.
- AuthForm.Form.HandleForgotPassword: only the empty-address branch is modelled. The reset request calls a hook from inside a handler and reaches an auth service that is not part of this model.
- Sign-in and sign-up are returned as a call value. What the auth context does with them is not part of this model.
- MyDataTab.ExportData:
  - does not produce the text of `JSON.stringify(exportData, null, 2)`, nor the download link's DOM steps;
  - account deletion (`handleDeleteAccount`) is not modelled.
- MyDataTab.CsvText:
  - fields other than content and notes are written unquoted, so a comma in an id, mood or tag list shifts the columns;
  - lines end with LF, not the CRLF of RFC 4180;
  - both are modelled as written.
- MoodFilterPanel.TogglePresentTwice: toggling a selected mood twice restores the list only when that mood is last, because the toggle re-appends it at the end. The general "twice restores" statement does not hold, and ToggleTwiceReorders is the counterexample. This is a property of the source, not a defect.

## Findings

| source | as written | input that shows it | evidently intended | confidence | as-written member | corrected member |
|---|---|---|---|---|---|---|
| src/components/ui/CrisisOverlay.jsx:69-76 | the interval resets the count only once it has reached 8, so counts 0..8 are shown | start the exercise and let eight ticks pass: count 8 shows "Breath 5 of 4 — Breathe In" | four breaths, each in and out: counts 0..7, resetting after 7 | not executed | CrisisOverlay.WrittenRunShowsFifthBreath | CrisisOverlay.FixedRunShowsFourBreaths |
| src/pages/account-settings-privacy/components/MyDataTab.jsx:96 | the CSV line calls `entry.content.replace(...)`, but the journal service stores `encrypted_content` and no `content` column | a CSV export of any journal row written by `saveJournalEntry`: `content` is undefined and `replace` throws, so the export fails with an alert | a row without plaintext content exports an empty content field, as missing notes do | not executed | MyDataTab.StoredRowBreaksCsv | MyDataTab.CsvTextFixed |
