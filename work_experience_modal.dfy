/** The work-experience dialog (src/components/WorkExperienceModal.tsx): five text fields and
    the "current job" box, its validator, the record it saves, and its handlers. */
module WorkExperienceModal {
  import opened Wrappers
  import opened Text
  import opened Types
  import opened FormRules

  /** The dialog's `formData`. */
  datatype WorkForm = WorkForm(
    empresa: string,
    puesto: string,
    fecha_inicio: string,
    fecha_fin: string,
    descripcion: string,
    is_current_job: bool)

  const EmptyForm := WorkForm("", "", "", "", "", false)

  /** The text inputs of the dialog, by their `name` attribute. */
  datatype WorkTextField = Empresa | Puesto | FechaInicio | FechaFin | Descripcion

  function TextFieldName(f: WorkTextField): (s: string)
    ensures s != "submit" && s != "is_current_job"
  {
    match f
    case Empresa => "empresa"
    case Puesto => "puesto"
    case FechaInicio => "fecha_inicio"
    case FechaFin => "fecha_fin"
    case Descripcion => "descripcion"
  }

  function GetText(form: WorkForm, f: WorkTextField): string {
    match f
    case Empresa => form.empresa
    case Puesto => form.puesto
    case FechaInicio => form.fecha_inicio
    case FechaFin => form.fecha_fin
    case Descripcion => form.descripcion
  }

  /** One change event: a text input's new value, or the box's new `checked` state. */
  datatype WorkChange = TextChange(field: WorkTextField, value: string) | CurrentJobChange(checked: bool)

  function ChangedName(c: WorkChange): string {
    match c
    case TextChange(f, _) => TextFieldName(f)
    case CurrentJobChange(_) => "is_current_job"
  }

  /** The new form after one change: the input takes its value; ticking the box also blanks the
      end date, while unticking it brings nothing back. */
  function ApplyChange(form: WorkForm, c: WorkChange): (r: WorkForm)
    ensures c.CurrentJobChange? ==> r.is_current_job == c.checked
    ensures c.CurrentJobChange? && c.checked ==> r == form.(is_current_job := true, fecha_fin := "")
    ensures c.CurrentJobChange? && !c.checked ==> r == form.(is_current_job := false)
    ensures c.TextChange? ==> r.is_current_job == form.is_current_job && GetText(r, c.field) == c.value
    ensures c.TextChange? ==> forall g :: g != c.field ==> GetText(r, g) == GetText(form, g)
  {
    match c
    case CurrentJobChange(checked) =>
      if checked then form.(is_current_job := true, fecha_fin := "") else form.(is_current_job := false)
    case TextChange(f, value) =>
      match f
      case Empresa => form.(empresa := value)
      case Puesto => form.(puesto := value)
      case FechaInicio => form.(fecha_inicio := value)
      case FechaFin => form.(fecha_fin := value)
      case Descripcion => form.(descripcion := value)
  }

  /** The load effect: the record being edited, missing optional fields as `''`, or the empty
      form when adding. */
  function FormFromInitial(initial: Option<WorkExperience>): (form: WorkForm)
    ensures initial.None? ==> form == EmptyForm
    ensures initial.Some? ==>
      && form.empresa == initial.value.empresa
      && form.puesto == initial.value.puesto
      && form.fecha_inicio == initial.value.fecha_inicio
      && (form.fecha_fin == "" <==> !Truthy(initial.value.fecha_fin))
      && (Truthy(initial.value.fecha_fin) ==> form.fecha_fin == initial.value.fecha_fin.value)
      && (form.descripcion == "" <==> !Truthy(initial.value.descripcion))
      && (Truthy(initial.value.descripcion) ==> form.descripcion == initial.value.descripcion.value)
      && form.is_current_job == initial.value.is_current_job
  {
    match initial
    case None => EmptyForm
    case Some(w) =>
      WorkForm(w.empresa, w.puesto, w.fecha_inicio, OrEmpty(w.fecha_fin), OrEmpty(w.descripcion), w.is_current_job)
  }

  const EmpresaRequired := "La empresa es obligatoria"
  const PuestoRequired := "El puesto es obligatorio"
  const SaveFailed := "Error al guardar la experiencia laboral. Por favor, inténtalo de nuevo."

  /** The end-date rule, skipped altogether for a current job. */
  function WorkEndRule(form: WorkForm, parse: string -> Option<int>): (e: FormErrors)
    ensures e.Keys <= {"fecha_fin"}
    ensures "fecha_fin" in e <==>
      && !form.is_current_job && form.fecha_fin != "" && form.fecha_inicio != ""
      && Before(parse(form.fecha_fin), parse(form.fecha_inicio))
    ensures "fecha_fin" in e ==> e["fecha_fin"] == EndDateBeforeStart
  {
    if form.is_current_job then map[] else EndDateRule(form.fecha_fin, form.fecha_inicio, parse)
  }

  const WorkKeys: set<string> := {"empresa", "puesto", "fecha_inicio", "fecha_fin"}

  /** `validateForm`: four rules on four keys, all evaluated; each key is described by a
      lemma below. */
  function ValidateWorkForm(form: WorkForm, today: int, parse: string -> Option<int>): (errors: FormErrors)
    ensures errors.Keys <= WorkKeys
  {
    var first := RequiredTrimmed("empresa", form.empresa, EmpresaRequired);
    var second := RequiredTrimmed("puesto", form.puesto, PuestoRequired);
    var start := StartDateRule(form.fecha_inicio, today, parse);
    var end := WorkEndRule(form, parse);
    assert first.Keys <= WorkKeys && second.Keys <= WorkKeys;
    assert start.Keys <= WorkKeys && end.Keys <= WorkKeys;
    first + second + start + end
  }

  lemma EmpresaRule(form: WorkForm, today: int, parse: string -> Option<int>)
    ensures "empresa" in ValidateWorkForm(form, today, parse) <==> AllWhitespace(form.empresa)
    ensures "empresa" in ValidateWorkForm(form, today, parse) ==>
      ValidateWorkForm(form, today, parse)["empresa"] == EmpresaRequired
  {
    var m := RequiredTrimmed("empresa", form.empresa, EmpresaRequired);
    var p := RequiredTrimmed("puesto", form.puesto, PuestoRequired);
    var s := StartDateRule(form.fecha_inicio, today, parse);
    var f := WorkEndRule(form, parse);
    MergeKeepsLeft(m, p, "empresa");
    MergeKeepsLeft(m + p, s, "empresa");
    MergeKeepsLeft(m + p + s, f, "empresa");
  }

  lemma PuestoRule(form: WorkForm, today: int, parse: string -> Option<int>)
    ensures "puesto" in ValidateWorkForm(form, today, parse) <==> AllWhitespace(form.puesto)
    ensures "puesto" in ValidateWorkForm(form, today, parse) ==>
      ValidateWorkForm(form, today, parse)["puesto"] == PuestoRequired
  {
    var m := RequiredTrimmed("empresa", form.empresa, EmpresaRequired);
    var p := RequiredTrimmed("puesto", form.puesto, PuestoRequired);
    var s := StartDateRule(form.fecha_inicio, today, parse);
    var f := WorkEndRule(form, parse);
    MergeTakesRight(m, p, "puesto");
    MergeKeepsLeft(m + p, s, "puesto");
    MergeKeepsLeft(m + p + s, f, "puesto");
  }

  /** The start-date rule is the education dialog's: required, then not in the future. */
  lemma StartRule(form: WorkForm, today: int, parse: string -> Option<int>)
    ensures "fecha_inicio" in ValidateWorkForm(form, today, parse) <==>
      form.fecha_inicio == "" || After(parse(form.fecha_inicio), today)
    ensures "fecha_inicio" in ValidateWorkForm(form, today, parse) ==>
      ValidateWorkForm(form, today, parse)["fecha_inicio"] ==
        if form.fecha_inicio == "" then StartDateRequired else StartDateInFuture
  {
    var m := RequiredTrimmed("empresa", form.empresa, EmpresaRequired);
    var p := RequiredTrimmed("puesto", form.puesto, PuestoRequired);
    var s := StartDateRule(form.fecha_inicio, today, parse);
    var f := WorkEndRule(form, parse);
    MergeTakesRight(m + p, s, "fecha_inicio");
    MergeKeepsLeft(m + p + s, f, "fecha_inicio");
  }

  lemma EndRule(form: WorkForm, today: int, parse: string -> Option<int>)
    ensures "fecha_fin" in ValidateWorkForm(form, today, parse) <==>
      && !form.is_current_job && form.fecha_fin != "" && form.fecha_inicio != ""
      && Before(parse(form.fecha_fin), parse(form.fecha_inicio))
    ensures "fecha_fin" in ValidateWorkForm(form, today, parse) ==>
      ValidateWorkForm(form, today, parse)["fecha_fin"] == EndDateBeforeStart
  {
    var m := RequiredTrimmed("empresa", form.empresa, EmpresaRequired);
    var p := RequiredTrimmed("puesto", form.puesto, PuestoRequired);
    var s := StartDateRule(form.fecha_inicio, today, parse);
    var f := WorkEndRule(form, parse);
    assert "fecha_fin" !in m + p + s by {
      assert "fecha_fin" !in m && "fecha_fin" !in p && "fecha_fin" !in s;
    }
    assert ValidateWorkForm(form, today, parse) == m + p + s + f;
    MergeTakesRight(m + p + s, f, "fecha_fin");
  }

  /** A current job never gets an end-date error, whatever stale end date the form holds. */
  lemma CurrentJobHasNoEndError(form: WorkForm, today: int, parse: string -> Option<int>)
    requires form.is_current_job
    ensures "fecha_fin" !in ValidateWorkForm(form, today, parse)
  {
    EndRule(form, today, parse);
  }

  lemma WorkValidIff(form: WorkForm, today: int, parse: string -> Option<int>)
    ensures ValidateWorkForm(form, today, parse) == map[] <==>
      && !AllWhitespace(form.empresa) && !AllWhitespace(form.puesto)
      && form.fecha_inicio != "" && !After(parse(form.fecha_inicio), today)
      && (form.is_current_job || form.fecha_fin == "" || !Before(parse(form.fecha_fin), parse(form.fecha_inicio)))
  {
    var e := ValidateWorkForm(form, today, parse);
    EmpresaRule(form, today, parse);
    PuestoRule(form, today, parse);
    StartRule(form, today, parse);
    EndRule(form, today, parse);
    if e != map[] {
      var k :| k in e;
    }
  }

  /** What `onSave` receives: the form with `fecha_fin` absent for a current job. */
  datatype WorkRecord = WorkRecord(
    empresa: string,
    puesto: string,
    fecha_inicio: string,
    fecha_fin: Option<string>,
    descripcion: string,
    is_current_job: bool)

  /** `dataToSave`. */
  function DataToSave(form: WorkForm): (r: WorkRecord)
    ensures r.fecha_fin == None <==> form.is_current_job
    ensures !form.is_current_job ==> r.fecha_fin == Some(form.fecha_fin)
    ensures r.empresa == form.empresa && r.puesto == form.puesto && r.fecha_inicio == form.fecha_inicio
    ensures r.descripcion == form.descripcion && r.is_current_job == form.is_current_job
  {
    WorkRecord(form.empresa, form.puesto, form.fecha_inicio,
      if form.is_current_job then None else Some(form.fecha_fin),
      form.descripcion, form.is_current_job)
  }

  /** Loading a saved record and saving it again gives back its fields, an absent or empty
      end date being read back as `''` unless the job is current. */
  lemma ReloadSavesSameRecord(w: WorkExperience)
    requires w.fecha_fin != Some("") && w.descripcion != Some("")
    requires w.is_current_job ==> w.fecha_fin == None
    ensures var r := DataToSave(FormFromInitial(Some(w)));
      && r.empresa == w.empresa && r.puesto == w.puesto && r.fecha_inicio == w.fecha_inicio
      && r.is_current_job == w.is_current_job
      && (w.fecha_fin.Some? ==> r.fecha_fin == w.fecha_fin)
      && (w.fecha_fin.None? && !w.is_current_job ==> r.fecha_fin == Some(""))
      && (w.is_current_job ==> r.fecha_fin == None)
      && r.descripcion == OrEmpty(w.descripcion)
  {
  }

  /** Ticking the box and then unticking it leaves the end date blank. */
  lemma UntickDoesNotRestore(form: WorkForm)
    ensures ApplyChange(ApplyChange(form, CurrentJobChange(true)), CurrentJobChange(false)).fecha_fin == ""
  {
  }

  /** Ticking the box blanks the end date but drops only the box's own error: an end-date
      error already shown stays until the next submit. */
  lemma TickKeepsEndDateError(errors: FormErrors)
    requires "fecha_fin" in errors
    ensures "fecha_fin" in ClearFieldError(errors, ChangedName(CurrentJobChange(true)))
    ensures ClearFieldError(errors, ChangedName(CurrentJobChange(true)))["fecha_fin"] == errors["fecha_fin"]
  {
  }

  /** The dialog's state. */
  class WorkDialog {
    var formData: WorkForm
    var errors: FormErrors
    var isSubmitting: bool

    constructor()
      ensures formData == EmptyForm && errors == map[] && !isSubmitting
    {
      formData := EmptyForm;
      errors := map[];
      isSubmitting := false;
    }

    method LoadInitialData(initial: Option<WorkExperience>)
      modifies this
      ensures formData == FormFromInitial(initial)
      ensures errors == old(errors) && isSubmitting == old(isSubmitting)
    {
      formData := FormFromInitial(initial);
    }

    /** `handleChange`: the change is applied and only the changed input's error is dropped;
        blanking the end date by ticking the box leaves an end-date error in place. */
    method HandleChange(c: WorkChange)
      modifies this
      ensures formData == ApplyChange(old(formData), c)
      ensures errors == ClearFieldError(old(errors), ChangedName(c))
      ensures isSubmitting == old(isSubmitting)
    {
      formData := ApplyChange(formData, c);
      errors := ClearFieldError(errors, ChangedName(c));
    }

    /** The synchronous half of `handleSubmit`: the gate, then `dataToSave` handed to `onSave`. */
    method BeginSubmit(today: int, parse: string -> Option<int>) returns (save: Option<WorkRecord>)
      modifies this
      ensures formData == old(formData)
      ensures ValidateWorkForm(old(formData), today, parse) != map[] ==>
        && save == None && errors == ValidateWorkForm(old(formData), today, parse)
        && isSubmitting == old(isSubmitting)
      ensures ValidateWorkForm(old(formData), today, parse) == map[] ==>
        save == Some(DataToSave(old(formData))) && errors == old(errors) && isSubmitting
    {
      var validationErrors := ValidateWorkForm(formData, today, parse);
      if validationErrors != map[] {
        errors := validationErrors;
        return None;
      }
      isSubmitting := true;
      save := Some(DataToSave(formData));
    }

    /** The rest of `handleSubmit` once `onSave` has settled. */
    method FinishSubmit(saved: Outcome) returns (closeCalled: bool)
      modifies this
      ensures !isSubmitting
      ensures saved == Success ==> formData == EmptyForm && errors == old(errors) && closeCalled
      ensures saved == Failure ==>
        formData == old(formData) && errors == map["submit" := SaveFailed] && !closeCalled
    {
      if saved == Success {
        formData := EmptyForm;
        closeCalled := true;
      } else {
        errors := map["submit" := SaveFailed];
        closeCalled := false;
      }
      isSubmitting := false;
    }

    /** `handleClose`: empties the form and the error map, then calls `onClose`. */
    method HandleClose()
      modifies this
      ensures formData == EmptyForm && errors == map[]
      ensures isSubmitting == old(isSubmitting)
    {
      formData := EmptyForm;
      errors := map[];
    }
  }
}
