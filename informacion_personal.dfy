/** The personal-information panel of the profile (src/components/InformacionPersonal.tsx):
    the five-field editor, its save, the CV upload checks and removal, and the two display
    conditions. */
module InformacionPersonal {
  import opened Wrappers
  import opened Types

  /** `personalFormData`: the two selects hold their option strings, `''` for none. */
  datatype PersonalForm = PersonalForm(
    nacionalidad: string,
    residencia: string,
    tipo_documento: string,
    numero_documento: string,
    situacion_laboral: string)

  const EmptyPersonalForm := PersonalForm("", "", "", "", "")

  datatype PersonalField = Nacionalidad | Residencia | TipoDocumentoField | NumeroDocumento | SituacionLaboralField

  function GetField(form: PersonalForm, f: PersonalField): string {
    match f
    case Nacionalidad => form.nacionalidad
    case Residencia => form.residencia
    case TipoDocumentoField => form.tipo_documento
    case NumeroDocumento => form.numero_documento
    case SituacionLaboralField => form.situacion_laboral
  }

  /** `{ ...prev, [name]: value }`. */
  function WithField(form: PersonalForm, f: PersonalField, value: string): (r: PersonalForm)
    ensures GetField(r, f) == value
    ensures forall g :: g != f ==> GetField(r, g) == GetField(form, g)
  {
    match f
    case Nacionalidad => form.(nacionalidad := value)
    case Residencia => form.(residencia := value)
    case TipoDocumentoField => form.(tipo_documento := value)
    case NumeroDocumento => form.(numero_documento := value)
    case SituacionLaboralField => form.(situacion_laboral := value)
  }

  /** A select's text for an optional enumerated value: the option string, or `''`. */
  function TipoText(t: Option<TipoDocumento>): (s: string)
    ensures s == "" <==> t.None?
    ensures t.Some? ==> s == TipoDocumentoName(t.value)
  {
    match t
    case None => ""
    case Some(v) => TipoDocumentoName(v)
  }

  function SituacionText(s: Option<SituacionLaboral>): (r: string)
    ensures r == "" <==> s.None?
    ensures s.Some? ==> r == SituacionLaboralName(s.value)
  {
    match s
    case None => ""
    case Some(v) => SituacionLaboralName(v)
  }

  /** The effect on `userProfile`: each field is the profile's value or `''`. */
  function InitForm(p: UserProfile): (form: PersonalForm)
    ensures form.nacionalidad == OrEmpty(p.nacionalidad) && form.residencia == OrEmpty(p.residencia)
    ensures form.numero_documento == OrEmpty(p.numero_documento)
    ensures form.tipo_documento == "" <==> p.tipo_documento.None?
    ensures p.tipo_documento.Some? ==> form.tipo_documento == TipoDocumentoName(p.tipo_documento.value)
    ensures form.situacion_laboral == "" <==> p.situacion_laboral.None?
    ensures p.situacion_laboral.Some? ==>
      form.situacion_laboral == SituacionLaboralName(p.situacion_laboral.value)
  {
    PersonalForm(OrEmpty(p.nacionalidad), OrEmpty(p.residencia), TipoText(p.tipo_documento),
      OrEmpty(p.numero_documento), SituacionText(p.situacion_laboral))
  }

  /** Only the options the two selects offer. */
  predicate OfferedSelections(form: PersonalForm) {
    && form.tipo_documento in {"", "DNI", "NIE", "NIF"}
    && form.situacion_laboral in {"", "Trabajo", "Desempleado"}
  }

  lemma TipoRoundTrip(s: string)
    requires s in {"", "DNI", "NIE", "NIF"}
    ensures TipoText(ParseTipoDocumento(s)) == s
  {
  }

  lemma SituacionRoundTrip(s: string)
    requires s in {"", "Trabajo", "Desempleado"}
    ensures SituacionText(ParseSituacionLaboral(s)) == s
  {
  }

  /** The parent's `onUpdateProfile`, `prev ? { ...prev, ...form } : null`: exactly the five
      supplied fields are overridden (a select's `''` read as no value) and every other field
      is kept. */
  function MergePersonalInfo(prev: Option<UserProfile>, form: PersonalForm): (r: Option<UserProfile>)
    ensures r.Some? <==> prev.Some?
    ensures r.Some? ==>
      && r.value.nacionalidad == Some(form.nacionalidad)
      && r.value.residencia == Some(form.residencia)
      && r.value.tipo_documento == ParseTipoDocumento(form.tipo_documento)
      && r.value.numero_documento == Some(form.numero_documento)
      && r.value.situacion_laboral == ParseSituacionLaboral(form.situacion_laboral)
    ensures r.Some? ==> r.value == prev.value.(
      nacionalidad := r.value.nacionalidad, residencia := r.value.residencia,
      tipo_documento := r.value.tipo_documento, numero_documento := r.value.numero_documento,
      situacion_laboral := r.value.situacion_laboral)
  {
    match prev
    case None => None
    case Some(p) =>
      Some(p.(nacionalidad := Some(form.nacionalidad), residencia := Some(form.residencia),
        tipo_documento := ParseTipoDocumento(form.tipo_documento),
        numero_documento := Some(form.numero_documento),
        situacion_laboral := ParseSituacionLaboral(form.situacion_laboral)))
  }

  /** Saving and re-reading agree: once the parent has merged a saved form, the panel's effect
      loads back exactly that form. */
  lemma SaveThenReload(p: UserProfile, form: PersonalForm)
    requires OfferedSelections(form)
    ensures InitForm(MergePersonalInfo(Some(p), form).value) == form
  {
    TipoRoundTrip(form.tipo_documento);
    SituacionRoundTrip(form.situacion_laboral);
  }

  /** The "incomplete data" banner: shown outside edit mode while any of the five fields is
      missing. */
  predicate ShowIncompleteBanner(isEditing: bool, p: UserProfile) {
    && !isEditing
    && (|| !Truthy(p.nacionalidad) || !Truthy(p.residencia) || p.tipo_documento.None?
        || !Truthy(p.numero_documento) || p.situacion_laboral.None?)
  }

  /** Outside edit mode the banner shows exactly when the editor would open with a blank field. */
  lemma BannerIffBlankField(p: UserProfile)
    ensures ShowIncompleteBanner(false, p) <==> exists f :: GetField(InitForm(p), f) == ""
  {
    var form := InitForm(p);
    if ShowIncompleteBanner(false, p) {
      if !Truthy(p.nacionalidad) { assert GetField(form, Nacionalidad) == ""; }
      else if !Truthy(p.residencia) { assert GetField(form, Residencia) == ""; }
      else if p.tipo_documento.None? { assert GetField(form, TipoDocumentoField) == ""; }
      else if !Truthy(p.numero_documento) { assert GetField(form, NumeroDocumento) == ""; }
      else { assert GetField(form, SituacionLaboralField) == ""; }
    }
  }

  /** Saving a form with all five fields filled makes the banner go away. */
  lemma CompleteSaveHidesBanner(p: UserProfile, form: PersonalForm)
    requires OfferedSelections(form)
    requires forall f :: GetField(form, f) != ""
    ensures !ShowIncompleteBanner(false, MergePersonalInfo(Some(p), form).value)
  {
    SaveThenReload(p, form);
    BannerIffBlankField(MergePersonalInfo(Some(p), form).value);
  }

  const NotSpecified := "No especificado"

  /** The document line: `tipo: numero` when both are present, otherwise "No especificado". */
  function DocumentLine(p: UserProfile): (s: string)
    ensures s != NotSpecified <==> p.tipo_documento.Some? && Truthy(p.numero_documento)
    ensures s != NotSpecified ==>
      s == TipoDocumentoName(p.tipo_documento.value) + ": " + p.numero_documento.value
  {
    if p.tipo_documento.Some? && Truthy(p.numero_documento) then
      var s := TipoDocumentoName(p.tipo_documento.value) + ": " + p.numero_documento.value;
      assert s[3] == ':' && NotSpecified[3] == 'e';
      s
    else NotSpecified
  }

  // ---- The CV ----

  /** The chosen file, as far as the checks look at it. */
  datatype FileInfo = FileInfo(name: string, fileType: string, size: int)

  const MaxCvBytes := 5 * 1024 * 1024

  datatype CvCheck = NotPdf | TooLarge | Accepted

  /** The two checks of `handleCVUpload`, in order: the type, then the size. */
  function CheckCvFile(f: FileInfo): (c: CvCheck)
    ensures c == NotPdf <==> f.fileType != "application/pdf"
    ensures c == TooLarge <==> f.fileType == "application/pdf" && f.size > MaxCvBytes
    ensures c == Accepted <==> f.fileType == "application/pdf" && f.size <= MaxCvBytes
  {
    if f.fileType != "application/pdf" then NotPdf
    else if f.size > MaxCvBytes then TooLarge
    else Accepted
  }

  /** The bound is inclusive: a PDF of exactly 5 MiB is accepted, one more byte is not. */
  lemma SizeBoundIsInclusive(name: string)
    ensures CheckCvFile(FileInfo(name, "application/pdf", 5242880)) == Accepted
    ensures CheckCvFile(FileInfo(name, "application/pdf", 5242881)) == TooLarge
    ensures CheckCvFile(FileInfo(name, "application/pdf", 6 * 1024 * 1024)) == TooLarge
  {
  }

  /** The three CV columns of `loggedusers`. */
  datatype CvColumns = CvColumns(cv_data: Option<string>, cv_filename: Option<string>, cv_updated_at: Option<string>)

  /** What the load handler writes for a read file, `now` being the clock's ISO text. */
  function UploadedColumns(f: FileInfo, content: string, now: string): (c: CvColumns)
    ensures c.cv_data == Some(content) && c.cv_filename == Some(f.name) && c.cv_updated_at == Some(now)
  {
    CvColumns(Some(content), Some(f.name), Some(now))
  }

  /** The load handler's report to the parent: the new CV after a successful write, nothing
      after a failed one (the error escapes the handler). */
  function UploadReport(f: FileInfo, stored: Outcome, now: string): (r: Option<CVFile>)
    ensures r.Some? <==> stored == Success
    ensures r.Some? ==> r.value == CVFile(f.name, now)
  {
    if stored == Success then Some(CVFile(f.name, now)) else None
  }

  /** `handleRemoveCV`: the update it sends, if a user is signed in, and whether it then reports
      the removal (`onUpdateCV(null)`). */
  datatype CvRemoval = CvRemoval(update: Option<CvColumns>, reportsRemoval: bool)

  function RemoveCv(user: Option<string>, stored: Outcome): (r: CvRemoval)
    ensures r.update.Some? <==> user.Some?
    ensures r.update.Some? ==>
      r.update.value.cv_data == None && r.update.value.cv_filename == None && r.update.value.cv_updated_at == None
    ensures r.reportsRemoval <==> user.Some? && stored == Success
  {
    if user.None? then CvRemoval(None, false)
    else CvRemoval(Some(CvColumns(None, None, None)), stored == Success)
  }

  /** The panel's own state. */
  class PersonalInfoEditor {
    var personalFormData: PersonalForm
    var isEditingPersonal: bool
    var isUploading: bool

    constructor()
      ensures personalFormData == EmptyPersonalForm && !isEditingPersonal && !isUploading
    {
      personalFormData := EmptyPersonalForm;
      isEditingPersonal := false;
      isUploading := false;
    }

    /** The effect run whenever the profile changes. */
    method SyncFromProfile(p: UserProfile)
      modifies this
      ensures personalFormData == InitForm(p)
      ensures isEditingPersonal == old(isEditingPersonal) && isUploading == old(isUploading)
    {
      personalFormData := InitForm(p);
    }

    /** `handlePersonalInfoChange`: only the named field changes. */
    method HandleChange(f: PersonalField, value: string)
      modifies this
      ensures personalFormData == WithField(old(personalFormData), f, value)
      ensures isEditingPersonal == old(isEditingPersonal) && isUploading == old(isUploading)
    {
      personalFormData := WithField(personalFormData, f, value);
    }

    /** The "Editar" button. */
    method StartEditing()
      modifies this
      ensures isEditingPersonal
      ensures personalFormData == old(personalFormData) && isUploading == old(isUploading)
    {
      isEditingPersonal := true;
    }

    /** The "Cancelar" button: leaves edit mode but keeps what was typed. */
    method CancelEditing()
      modifies this
      ensures !isEditingPersonal
      ensures personalFormData == old(personalFormData) && isUploading == old(isUploading)
    {
      isEditingPersonal := false;
    }

    /** `handlePersonalInfoSubmit`: with a signed-in user and a successful update, the five
        fields go to the parent as they stand and edit mode ends; otherwise nothing changes. */
    method HandleSubmit(user: Option<string>, stored: Outcome) returns (reported: Option<PersonalForm>)
      modifies this
      ensures user.Some? && stored == Success ==> reported == Some(old(personalFormData)) && !isEditingPersonal
      ensures !(user.Some? && stored == Success) ==> reported == None && isEditingPersonal == old(isEditingPersonal)
      ensures personalFormData == old(personalFormData) && isUploading == old(isUploading)
    {
      if user.None? || stored == Failure {
        return None;
      }
      reported := Some(personalFormData);
      isEditingPersonal := false;
    }

    /** `handleCVUpload` up to its first await: a rejected file leaves the flag as it was; an
        accepted one raises it. */
    method StartCvUpload(file: Option<FileInfo>) returns (check: Option<CvCheck>)
      modifies this
      ensures file.None? ==> check == None
      ensures file.Some? ==> check == Some(CheckCvFile(file.value))
      ensures isUploading == (old(isUploading) || check == Some(Accepted))
      ensures personalFormData == old(personalFormData) && isEditingPersonal == old(isEditingPersonal)
    {
      if file.None? {
        return None;
      }
      check := Some(CheckCvFile(file.value));
      if check == Some(Accepted) {
        isUploading := true;
      }
    }

    /** The rest of an accepted upload: the file is read only for a signed-in user, and the
        `finally` lowers the flag at once, before the read completes. */
    method FinishCvUpload(user: Option<string>) returns (readStarted: bool)
      requires isUploading
      modifies this
      ensures readStarted <==> user.Some?
      ensures !isUploading
      ensures personalFormData == old(personalFormData) && isEditingPersonal == old(isEditingPersonal)
    {
      readStarted := user.Some?;
      isUploading := false;
    }
  }
}
