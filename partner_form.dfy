/** The partner registration form: its validation schema and the request
    body it builds on submit. */
module PartnerForm {
  import opened Common
  import opened Model

  datatype FormValues = FormValues(
    name: string, address: string, latitude: Option<real>, longitude: Option<real>,
    contactInfo: string, description: string, pixKey: string, pixKeyType: string)

  const PixKeyTypes: seq<string> := ["CPF", "CNPJ", "EMAIL", "TELEFONE", "ALEATORIA"]

  /** The validation messages the schema reports, in field order. */
  function FormIssues(v: FormValues): (issues: seq<string>)
    ensures issues == [] <==>
      |v.name| >= 3 && |v.address| >= 5 && |v.contactInfo| >= 8 && |v.description| >= 20
      && |v.pixKey| >= 5 && v.pixKeyType in PixKeyTypes
  {
    (if |v.name| < 3 then ["O nome deve ter pelo menos 3 caracteres"] else [])
    + (if |v.address| < 5 then ["Endereço muito curto"] else [])
    + (if |v.contactInfo| < 8 then ["Informações de contato muito curtas"] else [])
    + (if |v.description| < 20 then ["A descrição deve ter pelo menos 20 caracteres"] else [])
    + (if |v.pixKey| < 5 then ["Chave PIX inválida"] else [])
    + (if v.pixKeyType !in PixKeyTypes then ["Invalid enum value. Expected 'CPF' | 'CNPJ' | 'EMAIL' | 'TELEFONE' | 'ALEATORIA', received '"
      + v.pixKeyType + "'"] else [])
  }

  predicate FormValid(v: FormValues) { FormIssues(v) == [] }

  /** The values the form starts with. */
  const DefaultValues := FormValues("", "", None, None, "", "", "", "CPF")

  /** The initial values do not pass validation: every text field is short,
      while the key type CPF is accepted. */
  lemma DefaultValuesInvalid()
    ensures !FormValid(DefaultValues)
    ensures |FormIssues(DefaultValues)| == 5
  {
    assert DefaultValues.pixKeyType == PixKeyTypes[0];
  }

  /** Coordinates are optional: whether they are given does not change the
      verdict. */
  lemma CoordinatesOptional(v: FormValues, lat: Option<real>, lng: Option<real>)
    ensures FormValid(v) <==> FormValid(v.(latitude := lat, longitude := lng))
  {
  }

  const DefaultLatitude: real := -23.5505
  const DefaultLongitude: real := -46.6333

  /** `data.latitude || -23.5505`: a missing or zero coordinate is replaced. */
  function CoordinateOr(c: Option<real>, fallback: real): (r: real)
    ensures c.Some? && c.value != 0.0 ==> r == c.value
    ensures c.None? || c.value == 0.0 ==> r == fallback
  {
    if c.Some? && c.value != 0.0 then c.value else fallback
  }

  /** The body `onSubmit` posts to the registration route. */
  function RequestBody(userId: Id, v: FormValues): (b: RegistrationBody)
    ensures b.userId == userId && b.name == v.name && b.address == v.address
    ensures b.contactInfo == v.contactInfo && b.description == v.description
    ensures b.pixKey == v.pixKey && b.pixKeyType == v.pixKeyType
    ensures b.latitude == CoordinateOr(v.latitude, DefaultLatitude)
    ensures b.longitude == CoordinateOr(v.longitude, DefaultLongitude)
  {
    RegistrationBody(userId, v.name, v.address,
      CoordinateOr(v.latitude, DefaultLatitude), CoordinateOr(v.longitude, DefaultLongitude),
      v.contactInfo, v.description, v.pixKey, v.pixKeyType)
  }

  /** A submitted form never sends a zero coordinate. */
  lemma BodyCoordinatesNonZero(userId: Id, v: FormValues)
    ensures RequestBody(userId, v).latitude != 0.0 && RequestBody(userId, v).longitude != 0.0
  {
  }
}
