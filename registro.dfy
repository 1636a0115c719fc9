/** The registration page (src/pages/Registro.tsx): the six-field form, the terms checkbox,
    and the submit sequence of validation gate, terms gate, sign-up and profile insert. */
module Registro {
  import opened Wrappers
  import opened FormRules
  import opened Validation

  const InitialForm: FormData := map[
    "nombre" := "", "apellido" := "", "email" := "", "telefono" := "",
    "password" := "", "confirmPassword" := ""]

  const TermsRequired := "Debes aceptar los términos y condiciones"
  const RegistrationFailed := "Error al registrar usuario. Por favor, inténtalo de nuevo."

  /** What the identity service answers to `signUp`: the new identity (whose `user` may be
      missing), or an error. */
  datatype SignUpReply = SignedUp(userId: Option<string>) | SignUpError

  /** The row inserted into `loggedusers`. */
  datatype ProfileRow = ProfileRow(
    nombre: string,
    apellido: string,
    email: string,
    telefono: string,
    gdpr_accepted: string,
    user_id: Option<string>)

  /** The page state `handleSubmit` leaves, and the row it asked the store to insert, if any. */
  datatype SubmitResult = SubmitResult(
    errors: FormErrors,
    isSubmitting: bool,
    registrationSuccess: bool,
    inserted: Option<ProfileRow>)

  /** `handleSubmit` from the page state it starts in, given the two remote answers; `insert`
      is consulted only when a row was sent. */
  function Submit(formData: FormData, termsAccepted: bool, errors: FormErrors, isSubmitting: bool,
                  registrationSuccess: bool, signUp: SignUpReply, insert: Outcome): SubmitResult
  {
    var validationErrors := ValidateRegistrationForm(formData);
    if validationErrors != map[] then
      SubmitResult(validationErrors, isSubmitting, registrationSuccess, None)
    else if !termsAccepted then
      SubmitResult(map["terms" := TermsRequired], isSubmitting, registrationSuccess, None)
    else
      match signUp
      case SignUpError =>
        SubmitResult(map["submit" := RegistrationFailed], false, registrationSuccess, None)
      case SignedUp(userId) =>
        var row := ProfileRow(Field(formData, "nombre"), Field(formData, "apellido"),
          Field(formData, "email"), Field(formData, "telefono"),
          if termsAccepted then "SI" else "NO", userId);
        if insert == Failure then
          SubmitResult(map["submit" := RegistrationFailed], false, registrationSuccess, Some(row))
        else
          SubmitResult(errors, false, true, Some(row))
  }

  /** A rejected form shows exactly the validator's result; the terms are not looked at and
      nothing is sent. */
  lemma RejectedFormStops(formData: FormData, termsAccepted: bool, errors: FormErrors, isSubmitting: bool,
                          registrationSuccess: bool, signUp: SignUpReply, insert: Outcome)
    requires ValidateRegistrationForm(formData) != map[]
    ensures Submit(formData, termsAccepted, errors, isSubmitting, registrationSuccess, signUp, insert)
      == SubmitResult(ValidateRegistrationForm(formData), isSubmitting, registrationSuccess, None)
  {
    var v := ValidateRegistrationForm(formData);
    var k :| k in v;
  }

  /** Valid fields with the terms unticked: the single `terms` error, the flag untouched. */
  lemma TermsGate(formData: FormData, errors: FormErrors, isSubmitting: bool,
                  registrationSuccess: bool, signUp: SignUpReply, insert: Outcome)
    requires ValidateRegistrationForm(formData) == map[]
    ensures Submit(formData, false, errors, isSubmitting, registrationSuccess, signUp, insert)
      == SubmitResult(map["terms" := TermsRequired], isSubmitting, registrationSuccess, None)
  {
  }

  /** A profile row is sent only after a sign-up without error, only for an accepted form with
      the terms ticked, and then it always records the consent as `'SI'` and copies the four
      personal fields together with the new identity. */
  lemma InsertedRowIsConsented(formData: FormData, termsAccepted: bool, errors: FormErrors, isSubmitting: bool,
                               registrationSuccess: bool, signUp: SignUpReply, insert: Outcome)
    ensures var r := Submit(formData, termsAccepted, errors, isSubmitting, registrationSuccess, signUp, insert);
      r.inserted.Some? <==>
        ValidateRegistrationForm(formData) == map[] && termsAccepted && signUp.SignedUp?
    ensures var r := Submit(formData, termsAccepted, errors, isSubmitting, registrationSuccess, signUp, insert);
      r.inserted.Some? ==>
        && r.inserted.value.gdpr_accepted == "SI"
        && r.inserted.value.user_id == signUp.userId
        && r.inserted.value.nombre == Field(formData, "nombre")
        && r.inserted.value.apellido == Field(formData, "apellido")
        && r.inserted.value.email == Field(formData, "email")
        && r.inserted.value.telefono == Field(formData, "telefono")
  {
    var v := ValidateRegistrationForm(formData);
    if v != map[] {
      RejectedFormStops(formData, termsAccepted, errors, isSubmitting, registrationSuccess, signUp, insert);
    }
  }

  /** Once both gates are passed the flag ends down, and the outcome is either success with the
      errors left alone or the single `submit` error without success. */
  lemma RemoteOutcome(formData: FormData, errors: FormErrors, isSubmitting: bool,
                      registrationSuccess: bool, signUp: SignUpReply, insert: Outcome)
    requires ValidateRegistrationForm(formData) == map[]
    ensures var r := Submit(formData, true, errors, isSubmitting, registrationSuccess, signUp, insert);
      && !r.isSubmitting
      && (signUp.SignedUp? && insert == Success ==> r.registrationSuccess && r.errors == errors)
      && (signUp.SignUpError? || insert == Failure ==>
            r.registrationSuccess == registrationSuccess && r.errors == map["submit" := RegistrationFailed])
  {
  }

  class RegistroPage {
    var formData: FormData
    var errors: FormErrors
    var isSubmitting: bool
    var registrationSuccess: bool
    var termsAccepted: bool

    constructor()
      ensures formData == InitialForm && errors == map[]
      ensures !isSubmitting && !registrationSuccess && !termsAccepted
    {
      formData := InitialForm;
      errors := map[];
      isSubmitting := false;
      registrationSuccess := false;
      termsAccepted := false;
    }

    /** `handleChange`: only the named field changes, and only its error is dropped. */
    method HandleChange(name: string, value: string)
      modifies this
      ensures formData == old(formData)[name := value]
      ensures errors == ClearFieldError(old(errors), name)
      ensures isSubmitting == old(isSubmitting) && registrationSuccess == old(registrationSuccess)
      ensures termsAccepted == old(termsAccepted)
    {
      formData := formData[name := value];
      errors := ClearFieldError(errors, name);
    }

    /** The checkbox: sets the flag and nothing else (a shown `terms` error stays). */
    method SetTermsAccepted(checked: bool)
      modifies this
      ensures termsAccepted == checked
      ensures formData == old(formData) && errors == old(errors)
      ensures isSubmitting == old(isSubmitting) && registrationSuccess == old(registrationSuccess)
    {
      termsAccepted := checked;
    }

    /** The two gates of `handleSubmit`: a rejected form shows the validator's result, an
        accepted one with the terms unticked shows the single `terms` error. */
    method CheckGates() returns (passed: bool)
      modifies this
      ensures passed <==> ValidateRegistrationForm(old(formData)) == map[] && old(termsAccepted)
      ensures !passed ==> errors == Submit(old(formData), old(termsAccepted), old(errors), old(isSubmitting),
                                           old(registrationSuccess), SignUpError, Failure).errors
      ensures passed ==> errors == old(errors)
      ensures formData == old(formData) && termsAccepted == old(termsAccepted)
      ensures isSubmitting == old(isSubmitting) && registrationSuccess == old(registrationSuccess)
    {
      var validationErrors := ValidateRegistrationForm(formData);
      if validationErrors != map[] {
        errors := validationErrors;
        return false;
      }
      if !termsAccepted {
        errors := map["terms" := TermsRequired];
        return false;
      }
      return true;
    }

    /** `handleSubmit`, the two awaited calls answered by `signUp` and `insert`. */
    method HandleSubmit(signUp: SignUpReply, insert: Outcome) returns (inserted: Option<ProfileRow>)
      modifies this
      ensures var r := Submit(old(formData), old(termsAccepted), old(errors), old(isSubmitting),
                              old(registrationSuccess), signUp, insert);
        && errors == r.errors && isSubmitting == r.isSubmitting
        && registrationSuccess == r.registrationSuccess && inserted == r.inserted
      ensures formData == old(formData) && termsAccepted == old(termsAccepted)
    {
      var passed := CheckGates();
      if !passed {
        return None;
      }
      isSubmitting := true;
      if signUp.SignUpError? {
        isSubmitting := false;
        errors := map["submit" := RegistrationFailed];
        return None;
      }
      var row := ProfileRow(Field(formData, "nombre"), Field(formData, "apellido"),
        Field(formData, "email"), Field(formData, "telefono"),
        if termsAccepted then "SI" else "NO", signUp.userId);
      inserted := Some(row);
      if insert == Failure {
        isSubmitting := false;
        errors := map["submit" := RegistrationFailed];
        return;
      }
      isSubmitting := false;
      registrationSuccess := true;
    }
  }
}
