/** The education dialog (src/components/EducationModal.tsx): a five-field form, its
    validator, and the handlers that load, edit, submit and close it. */
module EducationModal {
  import opened Wrappers
  import opened Text
  import opened Types
  import opened FormRules

  /** The dialog's `formData`: every field is text, dates included. */
  datatype EducationForm = EducationForm(
    titulo: string,
    institucion: string,
    fecha_inicio: string,
    fecha_fin: string,
    descripcion: string)

  const EmptyForm := EducationForm("", "", "", "", "")

  /** The `name` attributes of the dialog's inputs. */
  datatype EducationField = Titulo | Institucion | FechaInicio | FechaFin | Descripcion

  function FieldName(f: EducationField): (s: string)
    ensures s != "submit"
  {
    match f
    case Titulo => "titulo"
    case Institucion => "institucion"
    case FechaInicio => "fecha_inicio"
    case FechaFin => "fecha_fin"
    case Descripcion => "descripcion"
  }

  function Get(form: EducationForm, f: EducationField): string {
    match f
    case Titulo => form.titulo
    case Institucion => form.institucion
    case FechaInicio => form.fecha_inicio
    case FechaFin => form.fecha_fin
    case Descripcion => form.descripcion
  }

  /** `{ ...prev, [name]: value }`: the named field takes the value, the others stay. */
  function WithField(form: EducationForm, f: EducationField, value: string): (r: EducationForm)
    ensures Get(r, f) == value
    ensures forall g :: g != f ==> Get(r, g) == Get(form, g)
  {
    match f
    case Titulo => form.(titulo := value)
    case Institucion => form.(institucion := value)
    case FechaInicio => form.(fecha_inicio := value)
    case FechaFin => form.(fecha_fin := value)
    case Descripcion => form.(descripcion := value)
  }

  /** The load effect: the record being edited, its missing optional fields as `''`,
      or the empty form when adding. */
  function FormFromInitial(initial: Option<Education>): (form: EducationForm)
    ensures initial.None? ==> form == EmptyForm
    ensures initial.Some? ==>
      && form.titulo == initial.value.titulo
      && form.institucion == initial.value.institucion
      && form.fecha_inicio == initial.value.fecha_inicio
      && (form.fecha_fin == "" <==> !Truthy(initial.value.fecha_fin))
      && (Truthy(initial.value.fecha_fin) ==> form.fecha_fin == initial.value.fecha_fin.value)
      && (form.descripcion == "" <==> !Truthy(initial.value.descripcion))
      && (Truthy(initial.value.descripcion) ==> form.descripcion == initial.value.descripcion.value)
  {
    match initial
    case None => EmptyForm
    case Some(e) =>
      EducationForm(e.titulo, e.institucion, e.fecha_inicio, OrEmpty(e.fecha_fin), OrEmpty(e.descripcion))
  }

  const TituloRequired := "El título es obligatorio"
  const InstitucionRequired := "La institución es obligatoria"
  const SaveFailed := "Error al guardar la formación. Por favor, inténtalo de nuevo."

  /** `validateForm`: the four rules, each on its own key, all evaluated. What each key
      holds is stated rule by rule in the lemmas below. */
  const EducationKeys: set<string> := {"titulo", "institucion", "fecha_inicio", "fecha_fin"}

  function ValidateEducationForm(form: EducationForm, today: int, parse: string -> Option<int>): (errors: FormErrors)
    ensures errors.Keys <= EducationKeys
  {
    var first := RequiredTrimmed("titulo", form.titulo, TituloRequired);
    var second := RequiredTrimmed("institucion", form.institucion, InstitucionRequired);
    var start := StartDateRule(form.fecha_inicio, today, parse);
    var end := EndDateRule(form.fecha_fin, form.fecha_inicio, parse);
    assert first.Keys <= EducationKeys && second.Keys <= EducationKeys;
    assert start.Keys <= EducationKeys && end.Keys <= EducationKeys;
    first + second + start + end
  }

  /** A title of blanks only is as missing as an empty one. */
  lemma TituloRule(form: EducationForm, today: int, parse: string -> Option<int>)
    ensures "titulo" in ValidateEducationForm(form, today, parse) <==> AllWhitespace(form.titulo)
    ensures "titulo" in ValidateEducationForm(form, today, parse) ==>
      ValidateEducationForm(form, today, parse)["titulo"] == TituloRequired
  {
    var t := RequiredTrimmed("titulo", form.titulo, TituloRequired);
    var i := RequiredTrimmed("institucion", form.institucion, InstitucionRequired);
    var s := StartDateRule(form.fecha_inicio, today, parse);
    var f := EndDateRule(form.fecha_fin, form.fecha_inicio, parse);
    MergeKeepsLeft(t, i, "titulo");
    MergeKeepsLeft(t + i, s, "titulo");
    MergeKeepsLeft(t + i + s, f, "titulo");
  }

  lemma InstitucionRule(form: EducationForm, today: int, parse: string -> Option<int>)
    ensures "institucion" in ValidateEducationForm(form, today, parse) <==> AllWhitespace(form.institucion)
    ensures "institucion" in ValidateEducationForm(form, today, parse) ==>
      ValidateEducationForm(form, today, parse)["institucion"] == InstitucionRequired
  {
    var t := RequiredTrimmed("titulo", form.titulo, TituloRequired);
    var i := RequiredTrimmed("institucion", form.institucion, InstitucionRequired);
    var s := StartDateRule(form.fecha_inicio, today, parse);
    var f := EndDateRule(form.fecha_fin, form.fecha_inicio, parse);
    MergeTakesRight(t, i, "institucion");
    MergeKeepsLeft(t + i, s, "institucion");
    MergeKeepsLeft(t + i + s, f, "institucion");
  }

  /** The start date is required, then must not be after today; the two messages exclude
      each other. */
  lemma StartRule(form: EducationForm, today: int, parse: string -> Option<int>)
    ensures "fecha_inicio" in ValidateEducationForm(form, today, parse) <==>
      form.fecha_inicio == "" || After(parse(form.fecha_inicio), today)
    ensures "fecha_inicio" in ValidateEducationForm(form, today, parse) ==>
      ValidateEducationForm(form, today, parse)["fecha_inicio"] ==
        if form.fecha_inicio == "" then StartDateRequired else StartDateInFuture
  {
    var t := RequiredTrimmed("titulo", form.titulo, TituloRequired);
    var i := RequiredTrimmed("institucion", form.institucion, InstitucionRequired);
    var s := StartDateRule(form.fecha_inicio, today, parse);
    var f := EndDateRule(form.fecha_fin, form.fecha_inicio, parse);
    MergeTakesRight(t + i, s, "fecha_inicio");
    MergeKeepsLeft(t + i + s, f, "fecha_inicio");
  }

  /** A given end date must not fall strictly before the start date. */
  lemma EndRule(form: EducationForm, today: int, parse: string -> Option<int>)
    ensures "fecha_fin" in ValidateEducationForm(form, today, parse) <==>
      form.fecha_fin != "" && form.fecha_inicio != "" && Before(parse(form.fecha_fin), parse(form.fecha_inicio))
    ensures "fecha_fin" in ValidateEducationForm(form, today, parse) ==>
      ValidateEducationForm(form, today, parse)["fecha_fin"] == EndDateBeforeStart
  {
    var t := RequiredTrimmed("titulo", form.titulo, TituloRequired);
    var i := RequiredTrimmed("institucion", form.institucion, InstitucionRequired);
    var s := StartDateRule(form.fecha_inicio, today, parse);
    var f := EndDateRule(form.fecha_fin, form.fecha_inicio, parse);
    assert "fecha_fin" !in t + i + s by {
      assert "fecha_fin" !in t && "fecha_fin" !in i && "fecha_fin" !in s;
    }
    assert ValidateEducationForm(form, today, parse) == t + i + s + f;
    MergeTakesRight(t + i + s, f, "fecha_fin");
  }

  /** The dialog accepts its form exactly when all four rules pass. */
  lemma EducationValidIff(form: EducationForm, today: int, parse: string -> Option<int>)
    ensures ValidateEducationForm(form, today, parse) == map[] <==>
      && !AllWhitespace(form.titulo) && !AllWhitespace(form.institucion)
      && form.fecha_inicio != "" && !After(parse(form.fecha_inicio), today)
      && !(form.fecha_fin != "" && Before(parse(form.fecha_fin), parse(form.fecha_inicio)))
  {
    var e := ValidateEducationForm(form, today, parse);
    TituloRule(form, today, parse);
    InstitucionRule(form, today, parse);
    StartRule(form, today, parse);
    EndRule(form, today, parse);
    if e != map[] {
      var k :| k in e;
    }
  }

  /** An end date equal to the start date is accepted. */
  lemma SameDayAccepted(form: EducationForm, today: int, parse: string -> Option<int>)
    requires form.fecha_fin != "" && form.fecha_inicio != ""
    requires parse(form.fecha_fin) == parse(form.fecha_inicio)
    ensures "fecha_fin" !in ValidateEducationForm(form, today, parse)
  {
    EndRule(form, today, parse);
  }

  /** A start date the browser cannot read suppresses the end-date rule (a `NaN` comparison). */
  lemma UnreadableStartHidesEndRule(form: EducationForm, today: int, parse: string -> Option<int>)
    requires parse(form.fecha_inicio) == None
    ensures "fecha_fin" !in ValidateEducationForm(form, today, parse)
    ensures form.fecha_inicio != "" ==> "fecha_inicio" !in ValidateEducationForm(form, today, parse)
  {
    EndRule(form, today, parse);
    StartRule(form, today, parse);
  }

  /** A form whose title, institution and start date are all missing, the freshly reset one
      among them, is rejected on exactly those three fields, whatever its end date says. */
  lemma MissingRequiredRejected(form: EducationForm, today: int, parse: string -> Option<int>)
    requires AllWhitespace(form.titulo) && AllWhitespace(form.institucion) && form.fecha_inicio == ""
    ensures ValidateEducationForm(form, today, parse) == map[
      "titulo" := TituloRequired, "institucion" := InstitucionRequired,
      "fecha_inicio" := StartDateRequired]
  {
    var e := ValidateEducationForm(form, today, parse);
    TituloRule(form, today, parse);
    InstitucionRule(form, today, parse);
    StartRule(form, today, parse);
    EndRule(form, today, parse);
    assert e.Keys == {"titulo", "institucion", "fecha_inicio"};
  }

  /** The dialog's state: the form, the error map and the in-flight flag. */
  class EducationDialog {
    var formData: EducationForm
    var errors: FormErrors
    var isSubmitting: bool

    constructor()
      ensures formData == EmptyForm && errors == map[] && !isSubmitting
    {
      formData := EmptyForm;
      errors := map[];
      isSubmitting := false;
    }

    /** The effect run when `initialData` changes; errors and the flag are left alone. */
    method LoadInitialData(initial: Option<Education>)
      modifies this
      ensures formData == FormFromInitial(initial)
      ensures errors == old(errors) && isSubmitting == old(isSubmitting)
    {
      formData := FormFromInitial(initial);
    }

    /** `handleChange`: the edited field takes the value and loses its error, if it had one;
        every other field and every other error stays. */
    method HandleChange(f: EducationField, value: string)
      modifies this
      ensures formData == WithField(old(formData), f, value)
      ensures errors == ClearFieldError(old(errors), FieldName(f))
      ensures isSubmitting == old(isSubmitting)
    {
      formData := WithField(formData, f, value);
      errors := ClearFieldError(errors, FieldName(f));
    }

    /** The synchronous half of `handleSubmit`. A rejected form replaces the error map by the
        validator's result and nothing is saved; an accepted one raises the flag and is handed,
        as it stands, to `onSave`. */
    method BeginSubmit(today: int, parse: string -> Option<int>) returns (save: Option<EducationForm>)
      modifies this
      ensures formData == old(formData)
      ensures ValidateEducationForm(old(formData), today, parse) != map[] ==>
        && save == None && errors == ValidateEducationForm(old(formData), today, parse)
        && isSubmitting == old(isSubmitting)
      ensures ValidateEducationForm(old(formData), today, parse) == map[] ==>
        save == Some(old(formData)) && errors == old(errors) && isSubmitting
    {
      var validationErrors := ValidateEducationForm(formData, today, parse);
      if validationErrors != map[] {
        errors := validationErrors;
        return None;
      }
      isSubmitting := true;
      save := Some(formData);
    }

    /** The rest of `handleSubmit`, once `onSave` has settled: on success the form is reset and
        `onClose` is called; on failure the error map is the single `submit` message. The flag
        is down either way. */
    method FinishSubmit(saved: Outcome) returns (closeCalled: bool)
      modifies this
      ensures !isSubmitting
      ensures saved == Success ==> formData == EmptyForm && errors == old(errors) && closeCalled
      ensures saved == Failure ==>
        formData == old(formData) && errors == map["submit" := SaveFailed] && !closeCalled
    {
      if saved == Success {
        formData := EmptyForm;
        closeCalled := true;
      } else {
        errors := map["submit" := SaveFailed];
        closeCalled := false;
      }
      isSubmitting := false;
    }

    /** `handleClose`: empties the form and the error map, then calls `onClose`. */
    method HandleClose()
      modifies this
      ensures formData == EmptyForm && errors == map[]
      ensures isSubmitting == old(isSubmitting)
    {
      formData := EmptyForm;
      errors := map[];
    }
  }
}
