/** The records the portal mirrors from the remote store (src/types/index.ts). */
module Types {
  import opened Wrappers

  /** `tipo_documento`: the identity document kinds the profile accepts. */
  datatype TipoDocumento = DNI | NIE | NIF

  /** `situacion_laboral`: employed or unemployed. */
  datatype SituacionLaboral = Trabajo | Desempleado

  function TipoDocumentoName(t: TipoDocumento): (s: string)
    ensures |s| == 3 && s[0] in "DN"
  {
    match t
    case DNI => "DNI"
    case NIE => "NIE"
    case NIF => "NIF"
  }

  function SituacionLaboralName(s: SituacionLaboral): string {
    match s
    case Trabajo => "Trabajo"
    case Desempleado => "Desempleado"
  }

  /** The value a `<select>` holding one of the option strings denotes; `''` ("Seleccionar...") is none. */
  function ParseTipoDocumento(s: string): (r: Option<TipoDocumento>)
    ensures r.Some? ==> TipoDocumentoName(r.value) == s
  {
    if s == "DNI" then Some(DNI) else if s == "NIE" then Some(NIE) else if s == "NIF" then Some(NIF) else None
  }

  function ParseSituacionLaboral(s: string): (r: Option<SituacionLaboral>)
    ensures r.Some? ==> SituacionLaboralName(r.value) == s
  {
    if s == "Trabajo" then Some(Trabajo) else if s == "Desempleado" then Some(Desempleado) else None
  }

  /** A row of `loggedusers`. `user_id` is the owning identity (the column UsersTab filters on). */
  datatype UserProfile = UserProfile(
    id: string,
    user_id: Option<string>,
    nombre: string,
    apellido: string,
    email: string,
    telefono: string,
    created_at: string,
    nacionalidad: Option<string>,
    residencia: Option<string>,
    tipo_documento: Option<TipoDocumento>,
    numero_documento: Option<string>,
    situacion_laboral: Option<SituacionLaboral>,
    cv_filename: Option<string>,
    cv_updated_at: Option<string>)

  /** An achievement granted to a user (read-only here). */
  datatype Achievement = Achievement(id: string, name: string, description: string, earned_at: string)

  datatype Education = Education(
    id: string,
    titulo: string,
    institucion: string,
    fecha_inicio: string,
    fecha_fin: Option<string>,
    descripcion: Option<string>)

  datatype WorkExperience = WorkExperience(
    id: string,
    empresa: string,
    puesto: string,
    fecha_inicio: string,
    fecha_fin: Option<string>,
    descripcion: Option<string>,
    is_current_job: bool)

  /** What the profile page shows about an uploaded CV. */
  datatype CVFile = CVFile(filename: string, lastUpdated: string)

  function EducationId(e: Education): string { e.id }

  function WorkExperienceId(w: WorkExperience): string { w.id }
}
