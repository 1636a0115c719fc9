# Solifound client logic, modelled in Dafny

Solifound is a React web application backed by Supabase. It is the site of a foundation's employment
programme. Candidates register, sign in and keep a profile: personal data, a CV in PDF, their education
and their work experience. An administrator sees every user, can download a candidate's CV, and can
delete an account.

Almost all of the application is markup and store calls. This project models the part that decides
things on the client:

- the field validators;
- the form containers, their submit gates and their error maps;
- the in-memory list patches the profile page applies after each store write;
- the list/dialog selection controllers;
- the personal-information panel with its CV checks;
- the administrator's user table and the administrator authorization check.

Conventions:

- Form data and error maps are `map<string, string>`. A missing key reads as `''`, which is falsy.
- Every store call, the session lookup, `window.confirm`, `atob`, the clock and date parsing are
  parameters. Store replies are `Outcome` (`Success`/`Failure`) or `Remote<T>` (`Returned(row)`/`StoreError`).
- A date is an `Option<int>` day number produced by a `parse` parameter. `''` and invalid dates are
  `None`, and a comparison with `None` is false, as JavaScript comparisons with `NaN` are.
- The two regular expressions are modelled by their meaning:
  - `EmailShape` holds when some substring is a whitespace-free run, `@`, a run, `.`, a run. The
    pattern is not anchored.
  - `PhoneShape` holds for nine to fifteen ASCII digits. It is applied to the value after every
    JavaScript whitespace character has been removed.
- Components whose state changes step by step are classes, one method per handler. Handlers that await
  are split at the await when something observable happens in between. Example: a dialog's
  `BeginSubmit` raises `isSubmitting`, and `FinishSubmit` receives the outcome of `onSave`.

Modules:

| module | file |
|---|---|
| `Wrappers`, `Text`, `Types` | shared values |
| `FormRules` | the date and trimming rules the two dialogs share |
| `ListPatch` | prepend, replace by key, filter by key |
| `Validation` | `src/utils/validation.ts` |
| `EducationModal`, `WorkExperienceModal` | the two dialogs |
| `Login`, `Registro` | the two entry pages |
| `Selection` | the controller that `Formacion` and `ExpLaboral` share |
| `InformacionPersonal` | the personal-information panel |
| `Profile` | the profile page |
| `ProfileWiring` | the page, a list controller and a dialog composed |
| `UsersTab`, `AdminPanel` | the administration pages |

Behaviours the model makes explicit:

- The two dialogs:
  - the "current job" box blanks `fecha_fin` and unticking does not bring it back;
  - ticking the box does not remove an end-date error that is already shown.
- Registration:
  - a telephone of blanks only is reported as invalid, not as missing;
  - the terms checkbox does not clear the terms error.
- The personal-information panel: "Cancelar" leaves edit mode but keeps the edited values.
- The profile page's handlers catch every error, so the dialogs' own save-failure messages can never
  appear on the profile page.

Where the written description of the system and the code disagree, the model follows the code. The
description says that selecting the already-selected user in the administrator's table collapses the
details without refetching. In `src/components/admin/UsersTab.tsx:65-71,181` the row handler has no
toggle: it selects the row again and refetches both detail lists. `UsersTab.UsersTable.HandleUserSelect`
models this.

## Model

| member | source | states |
|---|---|---|
| Wrappers.OrEmpty | src/components/InformacionPersonal.tsx:36-40 | `x \|\| ''` is empty exactly when the value is absent or empty, and otherwise is the value |
| Text.Trim | src/components/EducationModal.tsx:54-60 | the trimmed text is no longer than the input and neither starts nor ends with JavaScript whitespace |
| Text.TrimEmptyIff | src/components/EducationModal.tsx:54-60 | trimming yields `''` exactly when every character is whitespace |
| Text.RemoveWhitespace | src/utils/validation.ts:40 | `replace(/\s+/g, '')` leaves no whitespace and never lengthens the text |
| Text.RemoveWhitespaceMembers | src/utils/validation.ts:40 | a character survives exactly when it occurs in the input and is not whitespace |
| Text.RemoveWhitespaceConcat | src/utils/validation.ts:40 | removal distributes over concatenation |
| Text.RemoveWhitespaceOfBlank | src/utils/validation.ts:38-42 | a value of blanks only becomes `''` |
| Text.Utf16Length | src/utils/validation.ts:14 | `.length` counts UTF-16 code units: between one and two per character |
| Text.Utf16LengthOfBmp | src/utils/validation.ts:14 | for characters of the Basic Multilingual Plane `.length` is the character count |
| Types.TipoDocumentoName | src/types/index.ts:28 | the document types are three-letter names |
| Types.ParseTipoDocumento | src/types/index.ts:28 | a recognised select value names exactly that document type |
| Types.ParseSituacionLaboral | src/types/index.ts:30 | a recognised select value names exactly that employment status |
| FormRules.Lookup | src/types/index.ts:15-17 | a form field is present exactly when its key is in the map, with the map's value |
| FormRules.Field | src/utils/validation.ts:6 | a field reads as `''` exactly when it is missing or empty, that is, falsy |
| FormRules.ClearFieldError | src/pages/Registro.tsx:36-42 | only the named key can disappear, and only when its message is non-empty; every other error is kept with its message |
| FormRules.DateOf | src/components/EducationModal.tsx:64 | an empty date string is an invalid date |
| FormRules.RequiredTrimmed | src/components/EducationModal.tsx:54-60 | the required-field error is set exactly when the value is all whitespace, with the given message |
| FormRules.StartDateRule | src/components/EducationModal.tsx:62-66 | an empty start date gives "obligatoria", otherwise a date after today gives "futura", never both; an invalid date gives none |
| FormRules.EndDateRule | src/components/EducationModal.tsx:68-70 | an end-date error exactly when both dates are given and the end date is strictly before the start date |
| FormRules.MergeKeepsLeft | src/utils/validation.ts:21-55 | a key the right-hand map lacks keeps its left-hand entry in the merged error map |
| FormRules.MergeTakesRight | src/utils/validation.ts:21-55 | a key the left-hand map lacks takes its right-hand entry in the merged error map |
| Validation.EmailRule | src/utils/validation.ts:6-10 | an email error exactly when the email is empty or has no `\S+@\S+\.\S+` substring; "obligatorio" for empty, "no es válido" otherwise |
| Validation.PasswordRule | src/utils/validation.ts:12-16 | a password error exactly when the UTF-16 length is below 6; "obligatoria" for empty, "al menos 6" otherwise |
| Validation.RequiredRaw | src/utils/validation.ts:24-30 | an error exactly when the raw value is empty, with no trimming |
| Validation.TelefonoRule | src/utils/validation.ts:38-42 | an error exactly when the value without whitespace is not 9 to 15 digits; "obligatorio" only for the empty value |
| Validation.ConfirmRule | src/utils/validation.ts:50-52 | a confirmation error exactly when the two stored values differ |
| Validation.ValidateLoginForm | src/utils/validation.ts:3-19 | keys within {email, password}; each key present exactly when its rule fails, with its message |
| Validation.LoginValidIff | src/utils/validation.ts:3-19 | the login map is empty exactly when the email is non-empty and well formed and the password has at least 6 units |
| Validation.LoginShortPasswordScenario | src/utils/validation.ts:12-16 | `a@b.com` with `12345` sets only the password key, with "al menos 6" |
| Validation.ValidateRegistrationForm | src/utils/validation.ts:21-55 | keys within the six registration fields |
| Validation.RegistrationNombre | src/utils/validation.ts:24-26 | the `nombre` error is set exactly when the raw value is empty |
| Validation.RegistrationApellido | src/utils/validation.ts:28-30 | the `apellido` error is set exactly when the raw value is empty |
| Validation.RegistrationEmail | src/utils/validation.ts:32-36 | the registration email entry is the login form's, key and message |
| Validation.RegistrationTelefono | src/utils/validation.ts:38-42 | the `telefono` error is set exactly when the whitespace-free value is not 9 to 15 digits |
| Validation.RegistrationPassword | src/utils/validation.ts:44-48 | the registration password entry is the login form's, key and message |
| Validation.RegistrationConfirm | src/utils/validation.ts:50-52 | the confirmation error depends only on the two values differing, not on the password's length |
| Validation.RegistrationValidIff | src/utils/validation.ts:21-55 | the registration map is empty exactly when all six rules pass; the rules accumulate |
| Validation.BlankTelefonoIsInvalid | src/utils/validation.ts:38-42 | a telephone of blanks only is reported as "no es válido", not as missing |
| Validation.SpacedTelefonoAccepted | src/utils/validation.ts:40 | three digit groups joined by spaces, 9 to 15 digits in all, are accepted |
| Validation.OnlyConfirmationFails | src/utils/validation.ts:50-52 | when every other rule passes and the passwords differ, the map is exactly the confirmation error |
| Validation.MismatchedConfirmationScenario | src/utils/validation.ts:21-55 | a valid registration with `secret1`/`secret2` gives exactly `{confirmPassword: "Las contraseñas no coinciden"}` |
| Validation.EmailShapeIffLocal | src/utils/validation.ts:8 | the unanchored pattern matches exactly when some `@` and a later `.` have non-blank neighbours and only non-blanks between |
| Validation.EmailShapeInContext | src/utils/validation.ts:8 | surrounding text never stops a match, because the pattern is unanchored |
| Validation.EmailShapeRejectsInnerBlank | src/utils/validation.ts:8 | `a @b.com` does not match: the user part must touch the `@` |
| Validation.EmailShapeExample | src/utils/validation.ts:8 | `a@b.com` matches |
| EducationModal.WithField | src/components/EducationModal.tsx:103-106 | the named field takes the value and the others stay |
| EducationModal.FormFromInitial | src/components/EducationModal.tsx:30-48 | the form copies the record, absent `fecha_fin`/`descripcion` becoming `''`; no record gives the empty form |
| EducationModal.ValidateEducationForm | src/components/EducationModal.tsx:50-73 | keys within {titulo, institucion, fecha_inicio, fecha_fin} |
| EducationModal.TituloRule | src/components/EducationModal.tsx:54-56 | the title error is set exactly when the title is all whitespace |
| EducationModal.InstitucionRule | src/components/EducationModal.tsx:58-60 | the institution error is set exactly when the institution is all whitespace |
| EducationModal.StartRule | src/components/EducationModal.tsx:62-66 | the start-date entry is required-or-future, never both |
| EducationModal.EndRule | src/components/EducationModal.tsx:68-70 | the end-date error is set exactly when a given end date precedes the start date |
| EducationModal.EducationValidIff | src/components/EducationModal.tsx:50-73 | the map is empty exactly when all four rules pass |
| EducationModal.SameDayAccepted | src/components/EducationModal.tsx:68-70 | equal start and end dates are accepted |
| EducationModal.UnreadableStartHidesEndRule | src/components/EducationModal.tsx:62-70 | an unparseable start date raises no end-date error, and no start-date error unless empty |
| EducationModal.MissingRequiredRejected | src/components/EducationModal.tsx:50-73 | blank title and institution with no start date give exactly those three errors |
| EducationModal.EducationDialog.constructor | src/components/EducationModal.tsx:20-28 | an empty form, no errors, not submitting |
| EducationModal.EducationDialog.LoadInitialData | src/components/EducationModal.tsx:30-48 | the form becomes the record's projection; errors and the flag are untouched |
| EducationModal.EducationDialog.HandleChange | src/components/EducationModal.tsx:103-113 | only the named field changes, and only its error is removed |
| EducationModal.EducationDialog.BeginSubmit | src/components/EducationModal.tsx:75-86 | an invalid form makes the error map exactly the validator's result and saves nothing; a valid one raises the flag and saves the form as it stands |
| EducationModal.EducationDialog.FinishSubmit | src/components/EducationModal.tsx:86-100 | success resets the form and calls `onClose`; failure sets exactly `{submit}`; the flag is down either way |
| EducationModal.EducationDialog.HandleClose | src/components/EducationModal.tsx:115-125 | the form and the error map are emptied |
| WorkExperienceModal.ApplyChange | src/components/WorkExperienceModal.tsx:114-123 | a text change sets only its field; ticking "current job" also blanks `fecha_fin`; unticking only clears the flag |
| WorkExperienceModal.FormFromInitial | src/components/WorkExperienceModal.tsx:32-52 | the form copies the record, absent `fecha_fin`/`descripcion` becoming `''` |
| WorkExperienceModal.WorkEndRule | src/components/WorkExperienceModal.tsx:72-76 | no end-date check at all for a current job |
| WorkExperienceModal.ValidateWorkForm | src/components/WorkExperienceModal.tsx:54-79 | keys within {empresa, puesto, fecha_inicio, fecha_fin} |
| WorkExperienceModal.EmpresaRule | src/components/WorkExperienceModal.tsx:58-60 | the company error is set exactly when the company is all whitespace |
| WorkExperienceModal.PuestoRule | src/components/WorkExperienceModal.tsx:62-64 | the position error is set exactly when the position is all whitespace |
| WorkExperienceModal.StartRule | src/components/WorkExperienceModal.tsx:66-70 | the start-date rule is the education one: required, then not in the future |
| WorkExperienceModal.EndRule | src/components/WorkExperienceModal.tsx:72-76 | the end-date error is set exactly when the job is not current and a given end date precedes the start |
| WorkExperienceModal.CurrentJobHasNoEndError | src/components/WorkExperienceModal.tsx:72-76 | a current job never gets an end-date error, even with a stale end date |
| WorkExperienceModal.WorkValidIff | src/components/WorkExperienceModal.tsx:54-79 | the map is empty exactly when all four rules pass |
| WorkExperienceModal.DataToSave | src/components/WorkExperienceModal.tsx:92-95 | the saved end date is absent exactly for a current job, otherwise the form's; all else copied |
| WorkExperienceModal.ReloadSavesSameRecord | src/components/WorkExperienceModal.tsx:32-52 | opening a stored record and saving it unchanged gives back the same record, with an absent end date of a past job saved as `''` |
| WorkExperienceModal.UntickDoesNotRestore | src/components/WorkExperienceModal.tsx:118-123 | ticking then unticking "current job" leaves `fecha_fin` empty |
| WorkExperienceModal.TickKeepsEndDateError | src/components/WorkExperienceModal.tsx:125-131 | ticking the box removes only its own error, so an end-date error stays |
| WorkExperienceModal.WorkDialog.constructor | src/components/WorkExperienceModal.tsx:21-30 | an empty form, no errors, not submitting |
| WorkExperienceModal.WorkDialog.LoadInitialData | src/components/WorkExperienceModal.tsx:32-52 | the form becomes the record's projection |
| WorkExperienceModal.WorkDialog.HandleChange | src/components/WorkExperienceModal.tsx:114-132 | the change is applied and only the changed field's error is removed |
| WorkExperienceModal.WorkDialog.BeginSubmit | src/components/WorkExperienceModal.tsx:81-96 | an invalid form sets exactly the validator's errors; a valid one raises the flag and saves the rewritten record |
| WorkExperienceModal.WorkDialog.FinishSubmit | src/components/WorkExperienceModal.tsx:96-111 | success resets and closes; failure sets exactly `{submit}`; the flag is down either way |
| WorkExperienceModal.WorkDialog.HandleClose | src/components/WorkExperienceModal.tsx:134-145 | the form and the error map are emptied |
| Login.LoginPage.constructor | src/pages/Login.tsx:11-18 | empty fields, no errors, not submitting, not signed in |
| Login.LoginPage.HandleChange | src/pages/Login.tsx:20-32 | only the named field changes, and only its existing error is removed |
| Login.LoginPage.HandleSubmit | src/pages/Login.tsx:34-44 | an invalid form sets exactly the validator's errors with the flag unchanged; a valid one raises the flag and leaves the errors |
| Login.LoginPage.SimulatedReply | src/pages/Login.tsx:47-55 | the timer lowers the flag and reports success |
| Login.SubmitThenReply | src/pages/Login.tsx:34-56 | every valid form ends signed in: no credential is checked |
| Registro.Submit | src/pages/Registro.tsx:45-97 | the whole `handleSubmit` decision from the page state and the two remote answers; its meaning is stated by RejectedFormStops, TermsGate, InsertedRowIsConsented and RemoteOutcome |
| Registro.RejectedFormStops | src/pages/Registro.tsx:48-53 | with validation errors the map becomes exactly those errors and nothing else happens |
| Registro.TermsGate | src/pages/Registro.tsx:55-58 | valid fields without accepted terms give exactly `{terms}` and no remote step |
| Registro.InsertedRowIsConsented | src/pages/Registro.tsx:64-85 | a profile row is inserted exactly when the form is valid, the terms are accepted and sign-up succeeded; it carries `gdpr_accepted = 'SI'`, the new user id and the four fields |
| Registro.RemoteOutcome | src/pages/Registro.tsx:87-96 | success sets `registrationSuccess`; a sign-up or insert failure sets exactly `{submit}`; the flag ends down |
| Registro.RegistroPage.constructor | src/pages/Registro.tsx:17-29 | empty fields, no errors, terms not accepted |
| Registro.RegistroPage.HandleChange | src/pages/Registro.tsx:31-43 | only the named field changes, and only its existing error is removed |
| Registro.RegistroPage.SetTermsAccepted | src/pages/Registro.tsx:195-198 | only the terms flag changes; the terms error stays |
| Registro.RegistroPage.CheckGates | src/pages/Registro.tsx:48-58 | the gates pass exactly for a valid form with accepted terms, otherwise the errors are the gate's |
| Registro.RegistroPage.HandleSubmit | src/pages/Registro.tsx:45-97 | the new state and the inserted row are those of the submit decision |
| ListPatch.ListOrEmpty | src/pages/Profile.tsx:79 | `data \|\| []`: a missing list reads as empty |
| ListPatch.Prepend | src/pages/Profile.tsx:115 | `[data, ...prev]`, the patch after an insert (also line 171); its meaning is stated by PrependKeepsOrder and PrependUnique |
| ListPatch.PrependKeepsOrder | src/pages/Profile.tsx:115 | the created row comes first, the old list follows unchanged, the length grows by one |
| ListPatch.PrependUnique | src/pages/Profile.tsx:115 | prepending a row with a fresh id keeps ids unique |
| ListPatch.ReplaceWhere | src/pages/Profile.tsx:135 | same length; every entry with the id becomes the returned row and all others stay in place |
| ListPatch.ReplaceUnique | src/pages/Profile.tsx:135 | with unique ids, updating replaces exactly that one position |
| ListPatch.FilterOut | src/pages/Profile.tsx:153 | no surviving entry has the id, and every entry without it survives |
| ListPatch.FilterOutConcat | src/pages/Profile.tsx:153 | filtering distributes over concatenation, so relative order is kept |
| ListPatch.FilterOutLength | src/pages/Profile.tsx:153 | exactly the entries carrying the id are removed |
| ListPatch.FilterOutIdempotent | src/pages/Profile.tsx:153 | deleting twice is deleting once |
| ListPatch.FilterOutUnique | src/pages/Profile.tsx:153 | with unique ids, deleting removes that one position and keeps the rest in order |
| Selection.ChooseSave | src/components/Formacion.tsx:33-38 | an update with the selected record's id exactly when something is selected, otherwise an add, never both, with the given data |
| Selection.DeleteRequest | src/components/Formacion.tsx:27-31 | a delete is requested exactly when confirmed |
| Selection.Controller.constructor | src/components/Formacion.tsx:19-20 | closed, nothing selected |
| Selection.Controller.HandleEdit | src/components/Formacion.tsx:22-25 | selects the record and opens the dialog |
| Selection.Controller.OpenAdd | src/components/Formacion.tsx:47-50 | clears the selection and opens the dialog |
| Selection.Controller.HandleDelete | src/components/ExpLaboral.tsx:27-31 | the parent's delete runs only when confirmed |
| Selection.Controller.HandleSave | src/components/ExpLaboral.tsx:33-41 | dispatches on the selection; a settled call closes and clears; a rejected one changes nothing |
| Selection.Controller.Close | src/components/ExpLaboral.tsx:98-101 | closes and clears the selection |
| InformacionPersonal.WithField | src/components/InformacionPersonal.tsx:44-47 | only the named field changes |
| InformacionPersonal.InitForm | src/components/InformacionPersonal.tsx:34-42 | each of the five fields is the profile's value (for the two selects, the option string of the stored value), or `''` when absent |
| InformacionPersonal.MergePersonalInfo | src/pages/Profile.tsx:305-307 | with a profile, exactly the five supplied fields are overridden and every other field is kept; with none, none |
| InformacionPersonal.SaveThenReload | src/components/InformacionPersonal.tsx:34-42 | after the parent merges a saved form, the panel reloads exactly that form |
| InformacionPersonal.ShowIncompleteBanner | src/components/InformacionPersonal.tsx:210 | the banner condition: outside edit mode and some of the five fields falsy; its meaning is stated by BannerIffBlankField and CompleteSaveHidesBanner |
| InformacionPersonal.BannerIffBlankField | src/components/InformacionPersonal.tsx:210 | outside edit mode the banner shows exactly when the editor would open with a blank field |
| InformacionPersonal.CompleteSaveHidesBanner | src/components/InformacionPersonal.tsx:210 | saving five filled fields hides the banner |
| InformacionPersonal.DocumentLine | src/components/InformacionPersonal.tsx:332-335 | `tipo: numero` exactly when both are present, otherwise "No especificado" |
| InformacionPersonal.CheckCvFile | src/components/InformacionPersonal.tsx:74-82 | non-PDF first, then more than 5·1024·1024 bytes, otherwise accepted |
| InformacionPersonal.SizeBoundIsInclusive | src/components/InformacionPersonal.tsx:79-82 | exactly 5 MiB is accepted; one byte more, and 6 MiB, are rejected |
| InformacionPersonal.UploadedColumns | src/components/InformacionPersonal.tsx:93-100 | the upload writes the content, the file name and the timestamp |
| InformacionPersonal.UploadReport | src/components/InformacionPersonal.tsx:102-107 | the parent hears of the new CV exactly when the write succeeded |
| InformacionPersonal.RemoveCv | src/components/InformacionPersonal.tsx:118-138 | with a user, all three CV columns are cleared; removal is reported exactly after a successful write |
| InformacionPersonal.PersonalInfoEditor.constructor | src/components/InformacionPersonal.tsx:24-32 | empty fields, not editing, not uploading |
| InformacionPersonal.PersonalInfoEditor.SyncFromProfile | src/components/InformacionPersonal.tsx:34-42 | the form becomes the profile's projection |
| InformacionPersonal.PersonalInfoEditor.HandleChange | src/components/InformacionPersonal.tsx:44-47 | only the named field changes |
| InformacionPersonal.PersonalInfoEditor.StartEditing | src/components/InformacionPersonal.tsx:202 | enters edit mode |
| InformacionPersonal.PersonalInfoEditor.CancelEditing | src/components/InformacionPersonal.tsx:288 | leaves edit mode and keeps the edited values |
| InformacionPersonal.PersonalInfoEditor.HandleSubmit | src/components/InformacionPersonal.tsx:49-68 | on success the parent receives exactly the five fields and editing ends; on error editing stays as it was |
| InformacionPersonal.PersonalInfoEditor.StartCvUpload | src/components/InformacionPersonal.tsx:70-84 | a rejected file leaves `isUploading` as it was; only an accepted one raises it |
| InformacionPersonal.PersonalInfoEditor.FinishCvUpload | src/components/InformacionPersonal.tsx:85-115 | the file is read only for a signed-in user; the flag is lowered in any case |
| Profile.CvProjection | src/pages/Profile.tsx:233-238 | the CV is set from the profile exactly when both CV columns are truthy, otherwise left as it was |
| Profile.UploadThenLoad | src/pages/Profile.tsx:233-238 | a fresh page reads back the CV that the upload reported |
| Profile.RemoveThenLoad | src/pages/Profile.tsx:233-238 | after a removal a fresh page shows no CV |
| Profile.FlattenAchievements | src/pages/Profile.tsx:54-59 | one achievement per row, in order, with the joined achievement's id, name and description and the row's date |
| Profile.FlattenConcat | src/pages/Profile.tsx:54-59 | flattening distributes over concatenation |
| Profile.ProfilePage.constructor | src/pages/Profile.tsx:19-25 | loading, nothing loaded, personal tab |
| Profile.ProfilePage.CheckUser | src/pages/Profile.tsx:215-246 | no user goes to the login; a loaded profile is stored and its CV projected; a failed query changes nothing; loading ends |
| Profile.ProfilePage.FetchEducation | src/pages/Profile.tsx:67-83 | a user's successful query replaces the list, `data \|\| []`; otherwise unchanged |
| Profile.ProfilePage.FetchWorkExperience | src/pages/Profile.tsx:85-101 | a user's successful query replaces the list; otherwise unchanged |
| Profile.ProfilePage.FetchAchievements | src/pages/Profile.tsx:34-65 | a user's successful query replaces the list by its flattening |
| Profile.ProfilePage.AddEducation | src/pages/Profile.tsx:103-119 | prepends the stored row after a user's successful insert; otherwise unchanged; always resolves |
| Profile.ProfilePage.UpdateEducation | src/pages/Profile.tsx:121-139 | replaces by id after a successful update; otherwise unchanged; always resolves |
| Profile.ProfilePage.DeleteEducation | src/pages/Profile.tsx:141-157 | filters the id out after a successful delete; otherwise unchanged; always resolves |
| Profile.ProfilePage.AddWorkExperience | src/pages/Profile.tsx:159-175 | prepends the stored row after a successful insert; always resolves |
| Profile.ProfilePage.UpdateWorkExperience | src/pages/Profile.tsx:177-195 | replaces by id after a successful update; always resolves |
| Profile.ProfilePage.DeleteWorkExperience | src/pages/Profile.tsx:197-213 | filters the id out after a successful delete; always resolves |
| Profile.ProfilePage.UpdateProfile | src/pages/Profile.tsx:305-307 | the profile becomes the merge; nothing else changes |
| Profile.ProfilePage.UpdateCV | src/pages/Profile.tsx:308 | the CV becomes the reported one |
| Profile.ProfilePage.SelectTab | src/pages/Profile.tsx:264-292 | only the active tab changes |
| ProfileWiring.SaveEducation | src/components/EducationModal.tsx:95-97 | through the profile page a valid form always closes the dialog and clears the selection; the `submit` error never appears |
| ProfileWiring.SaveWorkExperience | src/components/WorkExperienceModal.tsx:106-108 | the same for the work-experience dialog |
| UsersTab.Cascade | src/components/admin/UsersTab.tsx:79-98 | four deletions keyed by the user: education, work experience, profile, then identity |
| UsersTab.WithoutUser | src/components/admin/UsersTab.tsx:102 | no remaining user has the id, and every other user remains |
| UsersTab.WithoutUserConcat | src/components/admin/UsersTab.tsx:102 | for any table, the patch distributes over concatenation, so removing the user keeps the others in their relative order |
| UsersTab.WithoutUserKeepsOrder | src/components/admin/UsersTab.tsx:102 | with one profile row per identity, the table closes up around the user's row and the others are unchanged |
| UsersTab.Uint8 | src/components/admin/UsersTab.tsx:132 | a `Uint8Array` element is in 0..255 and equals a value already in range |
| UsersTab.CharCodes | src/components/admin/UsersTab.tsx:126-131 | an array of the same length whose element i is the i-th character code |
| UsersTab.ToUint8Array | src/components/admin/UsersTab.tsx:132 | same length, element-wise reduced to a byte |
| UsersTab.HasCv | src/components/admin/UsersTab.tsx:120 | the presence check before a download: both `cv_data` and `cv_filename` truthy; DownloadUserCv states what follows from it |
| UsersTab.DownloadUserCv | src/components/admin/UsersTab.tsx:112-148 | a failed query or decode alerts an error; a missing `cv_data` or `cv_filename` reports "no CV"; otherwise the bytes are the decoded text's character codes under the stored name |
| UsersTab.UsersTable.constructor | src/components/admin/UsersTab.tsx:12-15 | empty table, nothing selected |
| UsersTab.UsersTable.FetchUsers | src/components/admin/UsersTab.tsx:21-33 | a successful query replaces the list, `data \|\| []` |
| UsersTab.UsersTable.HandleUserSelect | src/components/admin/UsersTab.tsx:65-71 | the row is selected before its details are fetched; each successful detail query fills its own list |
| UsersTab.UsersTable.HandleDeleteUser | src/components/admin/UsersTab.tsx:73-110 | nothing without confirmation; the whole cascade otherwise; only the identity deletion decides; success drops the user, clears the selection and empties both lists; failure changes nothing and alerts |
| AdminPanel.Authorized | src/pages/AdminPanel.tsx:28-60 | authorized exactly for a signed-in user whose profile email equals `sistemas@fundacionsanezequiel.org` |
| AdminPanel.OnlyTheExactAddress | src/pages/AdminPanel.tsx:48-56 | any other address, a different letter case, a missing email or a query error is refused |
| AdminPanel.ScreenOf | src/pages/AdminPanel.tsx:62-98 | the spinner while loading, then access denied unless authorized, then the panel on the active tab |
| AdminPanel.AdminPage.constructor | src/pages/AdminPanel.tsx:20-22 | loading, not authorized, users tab |
| AdminPanel.AdminPage.CheckAuthorization | src/pages/AdminPanel.tsx:28-60 | loading ends on every path; no user goes to the login; the panel shows exactly for the administrator |
| AdminPanel.AdminPage.SelectTab | src/pages/AdminPanel.tsx:100-142 | only the active tab changes, to one of the four tabs |
| AdminPanel.AdminPage.BackToProfile | src/pages/AdminPanel.tsx:80-81 | the access-denied button goes to the profile |

## Left out

- Supabase: every auth and table call is a parameter of the handler that awaits it, and the store itself is not modelled. What a handler sends is modelled for the registration insert and the CV columns only. The other payloads (the `user_id` added to inserts, the personal-data update) are not.
- The `.order(...)` clauses of the queries: the order of a fetched list is whatever the store returns.
- The JSX rendering, the styling, the navigation bar and the other administration tabs (offers, courses, programmes). The display conditions are modelled: the banner, the document line, the admin screens.
- `alert` and `console.error`: only the administrator's delete reports whether it alerted.
- `navigate`: recorded as `navigatedTo` on the profile and administration pages. The timed redirects of Login and Registro are not modelled.
- Timers: Login's simulated reply is `SimulatedReply`, called whenever the timer fires.
- Concurrency. The detail-fetch race in the users table, and the upload flag falling in `finally` before the file reader's callback runs, are not modelled as interleavings. Each handler runs to completion in the model.
- `FileReader`, `atob`, `Blob`, the object URL and the download link. `atob` is the `decode` parameter; the rest is browser I/O.
- The clock and `new Date(...)`: `today` and `parse` are parameters.
- Strings: Dafny characters are Unicode scalar values, not UTF-16 code units.
  - `.length` is computed by `Text.Utf16Length`.
  - The regular-expression `\s` class is listed explicitly in `Text.IsWhitespace`.
  - Case folding and normalisation do not occur in the modelled code.
- InformacionPersonal.MergePersonalInfo: a select left on "Seleccionar..." stores `''` in JavaScript but `None` here, because the profile types those two fields as optional enumerations. Both are falsy, so every condition that reads them behaves the same.
- InformacionPersonal.UploadReport: one clock reading stands for the two `new Date()` calls, so the reported `lastUpdated` equals the stored timestamp. In the source they can differ by the time between the calls.
- InformacionPersonal.PersonalInfoEditor.FinishCvUpload: the transient `isUploading = true` while `getUser` is awaited is the state between `StartCvUpload` and this method.
- Selection.Controller.HandleSave: the rejection branch is modelled. `ProfileWiring` shows it is never taken through the profile page.
- Registration and login validators over a `FormData` map: keys other than the named fields are ignored, as in the source.
