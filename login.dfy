/** The login page (src/pages/Login.tsx): a two-field form gated by the login validator.
    The page performs no credential check; a timer stands in for the server. */
module Login {
  import opened FormRules
  import opened Validation

  const InitialForm: FormData := map["email" := "", "password" := ""]

  class LoginPage {
    var formData: FormData
    var errors: FormErrors
    var isSubmitting: bool
    var loginSuccess: bool

    constructor()
      ensures formData == InitialForm && errors == map[] && !isSubmitting && !loginSuccess
    {
      formData := InitialForm;
      errors := map[];
      isSubmitting := false;
      loginSuccess := false;
    }

    /** `handleChange`: only the named field changes, and only its error is dropped. */
    method HandleChange(name: string, value: string)
      modifies this
      ensures formData == old(formData)[name := value]
      ensures errors == ClearFieldError(old(errors), name)
      ensures isSubmitting == old(isSubmitting) && loginSuccess == old(loginSuccess)
    {
      formData := formData[name := value];
      errors := ClearFieldError(errors, name);
    }

    /** `handleSubmit`: a rejected form shows the validator's result and nothing else moves;
        an accepted one raises the flag and leaves the error map as it was. */
    method HandleSubmit()
      modifies this
      ensures formData == old(formData) && loginSuccess == old(loginSuccess)
      ensures ValidateLoginForm(old(formData)) != map[] ==>
        errors == ValidateLoginForm(old(formData)) && isSubmitting == old(isSubmitting)
      ensures ValidateLoginForm(old(formData)) == map[] ==> errors == old(errors) && isSubmitting
    {
      var validationErrors := ValidateLoginForm(formData);
      if |validationErrors| > 0 {
        errors := validationErrors;
        return;
      }
      isSubmitting := true;
    }

    /** The simulated reply, one second after an accepted submit: success, unconditionally. */
    method SimulatedReply()
      modifies this
      ensures !isSubmitting && loginSuccess
      ensures formData == old(formData) && errors == old(errors)
    {
      isSubmitting := false;
      loginSuccess := true;
    }
  }

  /** Whatever the credentials, a form the validator accepts ends in success: submitting and
      letting the timer fire sets `loginSuccess`. */
  method SubmitThenReply(page: LoginPage)
    requires ValidateLoginForm(page.formData) == map[]
    modifies page
    ensures page.loginSuccess && !page.isSubmitting
    ensures page.formData == old(page.formData) && page.errors == old(page.errors)
  {
    page.HandleSubmit();
    page.SimulatedReply();
  }
}
