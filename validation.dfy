/** The login and registration validators (src/utils/validation.ts): each maps the form's
    fields to an error map, every rule evaluated, a missing key meaning "valid". */
module Validation {
  import opened Wrappers
  import opened Text
  import opened FormRules

  const EmailRequired := "El correo electrónico es obligatorio"
  const EmailInvalid := "El correo electrónico no es válido"
  const PasswordRequired := "La contraseña es obligatoria"
  const PasswordTooShort := "La contraseña debe tener al menos 6 caracteres"
  const NombreRequired := "El nombre es obligatorio"
  const ApellidoRequired := "El apellido es obligatorio"
  const TelefonoRequired := "El teléfono es obligatorio"
  const TelefonoInvalid := "El teléfono no es válido"
  const PasswordsDiffer := "Las contraseñas no coinciden"

  /** One or more characters outside `\s`: what `\S+` matches. */
  predicate NonSpaceRun(t: string) {
    |t| > 0 && NoWhitespace(t)
  }

  /** `s[i..j]` is a match of `\S+@\S+\.\S+` with its `@` at `a` and its `.` at `d`. */
  predicate EmailMatchAt(s: string, i: int, a: int, d: int, j: int) {
    && 0 <= i < a < d < j <= |s|
    && s[a] == '@' && s[d] == '.'
    && NonSpaceRun(s[i..a]) && NonSpaceRun(s[a + 1..d]) && NonSpaceRun(s[d + 1..j])
  }

  /** `/\S+@\S+\.\S+/.test(s)`: the pattern is not anchored, so some substring matching it suffices. */
  predicate EmailShape(s: string) {
    exists i, a, d, j | 0 <= i < a < d < j <= |s| :: EmailMatchAt(s, i, a, d, j)
  }

  /** `/^\d{9,15}$/`: nine to fifteen ASCII digits and nothing else. */
  predicate PhoneShape(t: string) {
    9 <= |t| <= 15 && AllAsciiDigits(t)
  }

  function EmailRule(email: string): (e: FormErrors)
    ensures e.Keys <= {"email"}
    ensures "email" in e <==> email == "" || !EmailShape(email)
    ensures "email" in e ==> e["email"] == if email == "" then EmailRequired else EmailInvalid
  {
    if email == "" then map["email" := EmailRequired]
    else if !EmailShape(email) then map["email" := EmailInvalid]
    else map[]
  }

  function PasswordRule(password: string): (e: FormErrors)
    ensures e.Keys <= {"password"}
    ensures "password" in e <==> Utf16Length(password) < 6
    ensures "password" in e ==> e["password"] == if password == "" then PasswordRequired else PasswordTooShort
  {
    if password == "" then map["password" := PasswordRequired]
    else if Utf16Length(password) < 6 then map["password" := PasswordTooShort]
    else map[]
  }

  function RequiredRaw(key: string, value: string, msg: string): (e: FormErrors)
    ensures e.Keys <= {key}
    ensures key in e <==> value == ""
    ensures key in e ==> e[key] == msg
  {
    if value == "" then map[key := msg] else map[]
  }

  function TelefonoRule(telefono: string): (e: FormErrors)
    ensures e.Keys <= {"telefono"}
    ensures "telefono" in e <==> !PhoneShape(RemoveWhitespace(telefono))
    ensures "telefono" in e ==> e["telefono"] == if telefono == "" then TelefonoRequired else TelefonoInvalid
  {
    if telefono == "" then map["telefono" := TelefonoRequired]
    else if !PhoneShape(RemoveWhitespace(telefono)) then map["telefono" := TelefonoInvalid]
    else map[]
  }

  /** `data.password !== data.confirmPassword`; a missing key is `undefined`, which differs from `''`. */
  function ConfirmRule(data: FormData): (e: FormErrors)
    ensures e.Keys <= {"confirmPassword"}
    ensures "confirmPassword" in e <==> Lookup(data, "password") != Lookup(data, "confirmPassword")
    ensures "confirmPassword" in e ==> e["confirmPassword"] == PasswordsDiffer
  {
    if Lookup(data, "password") != Lookup(data, "confirmPassword")
    then map["confirmPassword" := PasswordsDiffer]
    else map[]
  }

  /** `validateLoginForm`. */
  function ValidateLoginForm(data: FormData): (errors: FormErrors)
    ensures errors.Keys <= {"email", "password"}
    ensures "email" in errors <==> Field(data, "email") == "" || !EmailShape(Field(data, "email"))
    ensures "email" in errors ==>
      errors["email"] == if Field(data, "email") == "" then EmailRequired else EmailInvalid
    ensures "password" in errors <==> Utf16Length(Field(data, "password")) < 6
    ensures "password" in errors ==>
      errors["password"] == if Field(data, "password") == "" then PasswordRequired else PasswordTooShort
  {
    EmailRule(Field(data, "email")) + PasswordRule(Field(data, "password"))
  }

  /** `validateRegistrationForm`: the login rules for email and password plus the rules for
      nombre, apellido, telefono and the confirmation, all evaluated and accumulated.
      What each key holds is stated rule by rule in the lemmas below. */
  function ValidateRegistrationForm(data: FormData): (errors: FormErrors)
    ensures errors.Keys <= RegistrationKeys
  {
    RequiredRaw("nombre", Field(data, "nombre"), NombreRequired)
    + RequiredRaw("apellido", Field(data, "apellido"), ApellidoRequired)
    + EmailRule(Field(data, "email"))
    + TelefonoRule(Field(data, "telefono"))
    + PasswordRule(Field(data, "password"))
    + ConfirmRule(data)
  }

  const RegistrationKeys: set<string> := {"nombre", "apellido", "email", "telefono", "password", "confirmPassword"}

  lemma RegistrationNombre(data: FormData)
    ensures "nombre" in ValidateRegistrationForm(data) <==> Field(data, "nombre") == ""
    ensures "nombre" in ValidateRegistrationForm(data) ==>
      ValidateRegistrationForm(data)["nombre"] == NombreRequired
  {
    var n := RequiredRaw("nombre", Field(data, "nombre"), NombreRequired);
    var a := RequiredRaw("apellido", Field(data, "apellido"), ApellidoRequired);
    var e := EmailRule(Field(data, "email"));
    var t := TelefonoRule(Field(data, "telefono"));
    var p := PasswordRule(Field(data, "password"));
    var c := ConfirmRule(data);
    MergeKeepsLeft(n, a, "nombre");
    MergeKeepsLeft(n + a, e, "nombre");
    MergeKeepsLeft(n + a + e, t, "nombre");
    MergeKeepsLeft(n + a + e + t, p, "nombre");
    MergeKeepsLeft(n + a + e + t + p, c, "nombre");
  }

  lemma RegistrationApellido(data: FormData)
    ensures "apellido" in ValidateRegistrationForm(data) <==> Field(data, "apellido") == ""
    ensures "apellido" in ValidateRegistrationForm(data) ==>
      ValidateRegistrationForm(data)["apellido"] == ApellidoRequired
  {
    var n := RequiredRaw("nombre", Field(data, "nombre"), NombreRequired);
    var a := RequiredRaw("apellido", Field(data, "apellido"), ApellidoRequired);
    var e := EmailRule(Field(data, "email"));
    var t := TelefonoRule(Field(data, "telefono"));
    var p := PasswordRule(Field(data, "password"));
    var c := ConfirmRule(data);
    MergeTakesRight(n, a, "apellido");
    MergeKeepsLeft(n + a, e, "apellido");
    MergeKeepsLeft(n + a + e, t, "apellido");
    MergeKeepsLeft(n + a + e + t, p, "apellido");
    MergeKeepsLeft(n + a + e + t + p, c, "apellido");
  }

  /** The email rule of registration is the login one. */
  lemma RegistrationEmail(data: FormData)
    ensures "email" in ValidateRegistrationForm(data) <==> "email" in ValidateLoginForm(data)
    ensures "email" in ValidateRegistrationForm(data) ==>
      ValidateRegistrationForm(data)["email"] == ValidateLoginForm(data)["email"]
  {
    var n := RequiredRaw("nombre", Field(data, "nombre"), NombreRequired);
    var a := RequiredRaw("apellido", Field(data, "apellido"), ApellidoRequired);
    var e := EmailRule(Field(data, "email"));
    var t := TelefonoRule(Field(data, "telefono"));
    var p := PasswordRule(Field(data, "password"));
    var c := ConfirmRule(data);
    MergeTakesRight(n + a, e, "email");
    MergeKeepsLeft(n + a + e, t, "email");
    MergeKeepsLeft(n + a + e + t, p, "email");
    MergeKeepsLeft(n + a + e + t + p, c, "email");
  }

  lemma RegistrationTelefono(data: FormData)
    ensures "telefono" in ValidateRegistrationForm(data) <==>
      !PhoneShape(RemoveWhitespace(Field(data, "telefono")))
    ensures "telefono" in ValidateRegistrationForm(data) ==>
      ValidateRegistrationForm(data)["telefono"] ==
        if Field(data, "telefono") == "" then TelefonoRequired else TelefonoInvalid
  {
    var n := RequiredRaw("nombre", Field(data, "nombre"), NombreRequired);
    var a := RequiredRaw("apellido", Field(data, "apellido"), ApellidoRequired);
    var e := EmailRule(Field(data, "email"));
    var t := TelefonoRule(Field(data, "telefono"));
    var p := PasswordRule(Field(data, "password"));
    var c := ConfirmRule(data);
    MergeTakesRight(n + a + e, t, "telefono");
    MergeKeepsLeft(n + a + e + t, p, "telefono");
    MergeKeepsLeft(n + a + e + t + p, c, "telefono");
  }

  /** The password rule of registration is the login one. */
  lemma RegistrationPassword(data: FormData)
    ensures "password" in ValidateRegistrationForm(data) <==> "password" in ValidateLoginForm(data)
    ensures "password" in ValidateRegistrationForm(data) ==>
      ValidateRegistrationForm(data)["password"] == ValidateLoginForm(data)["password"]
  {
    var n := RequiredRaw("nombre", Field(data, "nombre"), NombreRequired);
    var a := RequiredRaw("apellido", Field(data, "apellido"), ApellidoRequired);
    var e := EmailRule(Field(data, "email"));
    var t := TelefonoRule(Field(data, "telefono"));
    var p := PasswordRule(Field(data, "password"));
    var c := ConfirmRule(data);
    MergeTakesRight(n + a + e + t, p, "password");
    MergeKeepsLeft(n + a + e + t + p, c, "password");
  }

  /** The confirmation is checked whatever the password rule said. */
  lemma RegistrationConfirm(data: FormData)
    ensures "confirmPassword" in ValidateRegistrationForm(data) <==>
      Lookup(data, "password") != Lookup(data, "confirmPassword")
    ensures "confirmPassword" in ValidateRegistrationForm(data) ==>
      ValidateRegistrationForm(data)["confirmPassword"] == PasswordsDiffer
  {
    var n := RequiredRaw("nombre", Field(data, "nombre"), NombreRequired);
    var a := RequiredRaw("apellido", Field(data, "apellido"), ApellidoRequired);
    var e := EmailRule(Field(data, "email"));
    var t := TelefonoRule(Field(data, "telefono"));
    var p := PasswordRule(Field(data, "password"));
    var c := ConfirmRule(data);
    MergeTakesRight(n + a + e + t + p, c, "confirmPassword");
  }

  // ---- The email pattern ----

  /** The local form of a match: an `@` with a non-space before it, a `.` at least two places
      later with a non-space after it, and only non-spaces between the two. */
  predicate EmailLocalAt(s: string, a: int, d: int) {
    && 1 <= a && a + 1 < d && d + 1 < |s|
    && s[a] == '@' && s[d] == '.' && !IsWhitespace(s[a - 1]) && !IsWhitespace(s[d + 1])
    && NoWhitespace(s[a + 1..d])
  }

  lemma EmailMatchIsLocal(s: string, i: int, a: int, d: int, j: int)
    requires EmailMatchAt(s, i, a, d, j)
    ensures EmailLocalAt(s, a, d)
  {
    assert s[i..a][a - 1 - i] == s[a - 1];
    assert s[d + 1..j][0] == s[d + 1];
  }

  lemma EmailLocalIsMatch(s: string, a: int, d: int)
    requires EmailLocalAt(s, a, d)
    ensures EmailMatchAt(s, a - 1, a, d, d + 2)
  {
  }

  /** A match anywhere reduces to a local condition around its `@` and its `.`: the runs
      before the `@` and after the `.` may be cut down to one character. */
  lemma EmailShapeIffLocal(s: string)
    ensures EmailShape(s) <==> exists a, d :: EmailLocalAt(s, a, d)
  {
    if EmailShape(s) {
      var i, a, d, j :| 0 <= i < a < d < j <= |s| && EmailMatchAt(s, i, a, d, j);
      EmailMatchIsLocal(s, i, a, d, j);
    }
    if exists a, d :: EmailLocalAt(s, a, d) {
      var a, d :| EmailLocalAt(s, a, d);
      EmailLocalIsMatch(s, a, d);
    }
  }

  lemma SliceInContext(p: string, s: string, q: string, lo: int, hi: int)
    requires 0 <= lo <= hi <= |s|
    ensures (p + s + q)[|p| + lo..|p| + hi] == s[lo..hi]
  {
  }

  /** Shifting a match by the text put in front of it. */
  lemma EmailMatchInContext(p: string, s: string, q: string, i: int, a: int, d: int, j: int)
    requires EmailMatchAt(s, i, a, d, j)
    ensures EmailMatchAt(p + s + q, |p| + i, |p| + a, |p| + d, |p| + j)
  {
    SliceInContext(p, s, q, i, a);
    SliceInContext(p, s, q, a + 1, d);
    SliceInContext(p, s, q, d + 1, j);
  }

  lemma EmailMatchGivesShape(s: string, i: int, a: int, d: int, j: int)
    requires EmailMatchAt(s, i, a, d, j)
    ensures EmailShape(s)
  {
  }

  /** The pattern is unanchored: text around a matching address does not hide the match. */
  lemma EmailShapeInContext(p: string, s: string, q: string)
    requires EmailShape(s)
    ensures EmailShape(p + s + q)
  {
    var i, a, d, j :| EmailMatchAt(s, i, a, d, j);
    EmailMatchInContext(p, s, q, i, a, d, j);
    EmailMatchGivesShape(p + s + q, |p| + i, |p| + a, |p| + d, |p| + j);
  }

  /** A blank inside the address breaks it: `a @b.com` has no match. */
  lemma EmailShapeRejectsInnerBlank()
    ensures !EmailShape("a @b.com")
  {
    var s := "a @b.com";
    EmailShapeIffLocal(s);

  }

  lemma EmailShapeExample()
    ensures EmailShape("a@b.com")
  {
    assert EmailMatchAt("a@b.com", 0, 1, 3, 7);
  }

  // ---- Properties of the two validators ----

  /** The login map is empty exactly when both fields pass. */
  lemma LoginValidIff(data: FormData)
    ensures ValidateLoginForm(data) == map[] <==>
      Field(data, "email") != "" && EmailShape(Field(data, "email"))
      && Utf16Length(Field(data, "password")) >= 6
  {
    var e := ValidateLoginForm(data);
    if e != map[] {
      var k :| k in e;
    }
  }

  /** Registration passes exactly when every one of its six rules passes. */
  lemma RegistrationValidIff(data: FormData)
    ensures ValidateRegistrationForm(data) == map[] <==>
      && Field(data, "nombre") != "" && Field(data, "apellido") != ""
      && "email" !in ValidateLoginForm(data) && "password" !in ValidateLoginForm(data)
      && PhoneShape(RemoveWhitespace(Field(data, "telefono")))
      && Lookup(data, "password") == Lookup(data, "confirmPassword")
  {
    var e := ValidateRegistrationForm(data);
    RegistrationNombre(data);
    RegistrationApellido(data);
    RegistrationEmail(data);
    RegistrationTelefono(data);
    RegistrationPassword(data);
    RegistrationConfirm(data);
    if e != map[] {
      var k :| k in e;
      assert k in RegistrationKeys;
    }
  }

  /** Email `a@b.com` with password `12345`: the password alone is reported, as too short. */
  lemma LoginShortPasswordScenario()
    ensures ValidateLoginForm(map["email" := "a@b.com", "password" := "12345"])
      == map["password" := PasswordTooShort]
  {
    var data := map["email" := "a@b.com", "password" := "12345"];
    EmailShapeExample();
    assert Field(data, "email") == "a@b.com";
    assert Field(data, "password") == "12345";
    assert Utf16Length("12345") == 5;
    var e := ValidateLoginForm(data);
    assert e.Keys == {"password"};
  }

  /** A telephone of blanks only is reported as invalid, not as missing. */
  lemma BlankTelefonoIsInvalid(data: FormData)
    requires Field(data, "telefono") != "" && AllWhitespace(Field(data, "telefono"))
    ensures "telefono" in ValidateRegistrationForm(data)
    ensures ValidateRegistrationForm(data)["telefono"] == TelefonoInvalid
  {
    RemoveWhitespaceOfBlank(Field(data, "telefono"));
    RegistrationTelefono(data);
  }

  /** Digits are never blanks. */
  lemma DigitsHaveNoWhitespace(t: string)
    requires AllAsciiDigits(t)
    ensures NoWhitespace(t)
  {
  }

  /** Three groups of digits separated by single blanks lose the blanks. */
  lemma GroupedDigits(a: string, b: string, c: string)
    requires AllAsciiDigits(a) && AllAsciiDigits(b) && AllAsciiDigits(c)
    ensures RemoveWhitespace(a + " " + b + " " + c) == a + b + c
  {
    var bc := b + " " + c;
    calc {
      RemoveWhitespace(a + " " + b + " " + c);
      { assert a + " " + b + " " + c == a + " " + bc; }
      RemoveWhitespace(a + " " + bc);
      { DigitsHaveNoWhitespace(a); RemoveWhitespaceAroundBlank(a, bc); }
      a + RemoveWhitespace(bc);
      { DigitsHaveNoWhitespace(b); RemoveWhitespaceAroundBlank(b, c); }
      a + (b + RemoveWhitespace(c));
      { DigitsHaveNoWhitespace(c); RemoveWhitespaceKeeps(c); }
      a + (b + c);
    }
  }

  /** Spaces inside a telephone number do not count towards its digits: `600 123 456` passes. */
  lemma SpacedTelefonoAccepted(data: FormData, a: string, b: string, c: string)
    requires Field(data, "telefono") == a + " " + b + " " + c
    requires AllAsciiDigits(a) && AllAsciiDigits(b) && AllAsciiDigits(c)
    requires 9 <= |a| + |b| + |c| <= 15
    ensures "telefono" !in ValidateRegistrationForm(data)
  {
    GroupedDigits(a, b, c);
    assert AllAsciiDigits(a + b + c) by {
      forall k | 0 <= k < |a + b + c| ensures IsAsciiDigit((a + b + c)[k]) {
        if k < |a| { } else if k < |a| + |b| { } else { }
      }
    }
    RegistrationTelefono(data);
  }

  /** All other rules passing and the two passwords differing, the confirmation alone is reported. */
  lemma OnlyConfirmationFails(data: FormData)
    requires Field(data, "nombre") != "" && Field(data, "apellido") != ""
    requires "email" !in ValidateLoginForm(data) && "password" !in ValidateLoginForm(data)
    requires PhoneShape(RemoveWhitespace(Field(data, "telefono")))
    requires Lookup(data, "password") != Lookup(data, "confirmPassword")
    ensures ValidateRegistrationForm(data) == map["confirmPassword" := PasswordsDiffer]
  {
    var e := ValidateRegistrationForm(data);
    RegistrationNombre(data);
    RegistrationApellido(data);
    RegistrationEmail(data);
    RegistrationTelefono(data);
    RegistrationPassword(data);
    RegistrationConfirm(data);
    assert e.Keys == {"confirmPassword"};
  }

  /** `a@b.com` with `secret1` passes both login rules. */
  lemma SampleCredentialsAccepted(data: FormData)
    requires Field(data, "email") == "a@b.com" && Field(data, "password") == "secret1"
    ensures "email" !in ValidateLoginForm(data) && "password" !in ValidateLoginForm(data)
  {
    EmailShapeExample();
    assert Utf16Length("secret1") == 7;
  }

  /** Nine unspaced digits pass the telephone rule. */
  lemma PlainTelefonoAccepted(data: FormData)
    requires Field(data, "telefono") == "600123456"
    ensures PhoneShape(RemoveWhitespace(Field(data, "telefono")))
  {
    var tel := Field(data, "telefono");
    assert AllAsciiDigits(tel);
    DigitsHaveNoWhitespace(tel);
    RemoveWhitespaceKeeps(tel);
  }

  /** Password `secret1` confirmed as `secret2`, everything else valid: only the confirmation fails. */
  lemma MismatchedConfirmationScenario(data: FormData)
    requires Field(data, "nombre") == "Ana" && Field(data, "apellido") == "Ruiz"
    requires Field(data, "email") == "a@b.com" && Field(data, "telefono") == "600123456"
    requires Lookup(data, "password") == Some("secret1")
    requires Lookup(data, "confirmPassword") == Some("secret2")
    ensures ValidateRegistrationForm(data) == map["confirmPassword" := PasswordsDiffer]
  {
    SampleCredentialsAccepted(data);
    PlainTelefonoAccepted(data);
    OnlyConfirmationFails(data);
  }
}
