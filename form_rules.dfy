/** What every form of the portal shares: form data and error maps keyed by field name,
    the optimistic clearing of one field's error, and the date comparisons of the two modals. */
module FormRules {
  import opened Wrappers
  import opened Text

  /** `FormData` and `FormErrors`: field name to value, field name to message.
      A key missing from an error map means the field is valid. */
  type FormData = map<string, string>
  type FormErrors = map<string, string>

  /** `data[key]`, with a missing key read as `undefined`. */
  function Lookup(data: FormData, key: string): (r: Option<string>)
    ensures r.Some? <==> key in data
    ensures r.Some? ==> r.value == data[key]
  {
    if key in data then Some(data[key]) else None
  }

  /** The string a rule tests for truthiness: a missing key and `''` are both falsy. */
  function Field(data: FormData, key: string): (s: string)
    ensures s == "" <==> !Truthy(Lookup(data, key))
  {
    if key in data then data[key] else ""
  }

  /** `if (errors[name]) { delete errors[name] }`: a change to one field drops that field's
      error, when it has a (truthy) one, and no other. */
  function ClearFieldError(errors: FormErrors, name: string): (r: FormErrors)
    ensures forall k :: k != name ==> (k in r <==> k in errors)
    ensures forall k :: k in r ==> k in errors && r[k] == errors[k]
    ensures name in r <==> name in errors && errors[name] == ""
  {
    if name in errors && errors[name] != "" then errors - {name} else errors
  }

  /** `new Date(s)` for a date input's value: `''` is always an invalid date; any other text
      is read by `parse`, which stands for the browser's date parser. */
  function DateOf(parse: string -> Option<int>, s: string): (d: Option<int>)
    ensures s == "" ==> d == None
  {
    if s == "" then None else parse(s)
  }

  /** `a < b` on two dates: false when either is an invalid date (a `NaN` comparison). */
  predicate Before(a: Option<int>, b: Option<int>) {
    a.Some? && b.Some? && a.value < b.value
  }

  /** `a > today`: false when `a` is an invalid date. */
  predicate After(a: Option<int>, today: int) {
    a.Some? && a.value > today
  }

  /** `if (!value.trim()) errors[key] = msg`. */
  function RequiredTrimmed(key: string, value: string, msg: string): (e: FormErrors)
    ensures e.Keys <= {key}
    ensures key in e <==> AllWhitespace(value)
    ensures key in e ==> e[key] == msg
  {
    TrimEmptyIff(value);
    if Trim(value) == "" then map[key := msg] else map[]
  }

  const StartDateRequired := "La fecha de inicio es obligatoria"
  const StartDateInFuture := "La fecha de inicio no puede ser futura"
  const EndDateBeforeStart := "La fecha de fin no puede ser anterior a la fecha de inicio"

  /** The start-date rule of both modals: required, then not after today. */
  function StartDateRule(fechaInicio: string, today: int, parse: string -> Option<int>): (e: FormErrors)
    ensures e.Keys <= {"fecha_inicio"}
    ensures "fecha_inicio" in e <==> fechaInicio == "" || After(parse(fechaInicio), today)
    ensures "fecha_inicio" in e ==>
      e["fecha_inicio"] == if fechaInicio == "" then StartDateRequired else StartDateInFuture
  {
    if fechaInicio == "" then map["fecha_inicio" := StartDateRequired]
    else if After(DateOf(parse, fechaInicio), today) then map["fecha_inicio" := StartDateInFuture]
    else map[]
  }

  /** The end-date rule of both modals: a given end date must not precede the start date. */
  function EndDateRule(fechaFin: string, fechaInicio: string, parse: string -> Option<int>): (e: FormErrors)
    ensures e.Keys <= {"fecha_fin"}
    ensures "fecha_fin" in e <==>
      fechaFin != "" && fechaInicio != "" && Before(parse(fechaFin), parse(fechaInicio))
    ensures "fecha_fin" in e ==> e["fecha_fin"] == EndDateBeforeStart
  {
    if fechaFin != "" && Before(DateOf(parse, fechaFin), DateOf(parse, fechaInicio))
    then map["fecha_fin" := EndDateBeforeStart]
    else map[]
  }

  /** Reading a key of a merge `m1 + m2` (JavaScript's `{...m1, ...m2}`) that `m2` lacks. */
  lemma MergeKeepsLeft(m1: FormErrors, m2: FormErrors, k: string)
    requires k !in m2
    ensures k in m1 + m2 <==> k in m1
    ensures k in m1 ==> (m1 + m2)[k] == m1[k]
  {
  }

  /** Reading a key of a merge `m1 + m2` that `m1` lacks. */
  lemma MergeTakesRight(m1: FormErrors, m2: FormErrors, k: string)
    requires k !in m1
    ensures k in m1 + m2 <==> k in m2
    ensures k in m2 ==> (m1 + m2)[k] == m2[k]
  {
  }
}
