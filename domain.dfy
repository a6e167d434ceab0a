/** The domain layer: the value objects CUIT and CodigoSenasa, the expiry date, and the
    frozen entity records (establishment, honey drum, and the record pairing them). */
module Domain {
  import opened Wrappers

  predicate IsAsciiDigit(c: char) {
    '0' <= c <= '9'
  }

  /** `str.isdigit()`, restricted to ASCII digits: false on the empty string. */
  predicate IsDigitString(s: string) {
    |s| > 0 && forall i :: 0 <= i < |s| ==> IsAsciiDigit(s[i])
  }

  const CuitLength: nat := 11
  const CodigoMinLength: nat := 3

  /** A CUIT (tax identifier): exactly eleven digits. */
  type Cuit = s: string | |s| == CuitLength && forall i :: 0 <= i < |s| ==> IsAsciiDigit(s[i])
    witness "00000000000"

  /** A SENASA code: at least three characters, of any kind. */
  type CodigoSenasa = s: string | |s| >= CodigoMinLength witness "000"

  /** `CUIT(value)`: the assertion in the constructor either lets the string through
      unchanged or raises. */
  function NewCuit(value: string): (r: Result<Cuit, string>)
    ensures r.Success? <==> |value| == 11 && forall i :: 0 <= i < |value| ==> '0' <= value[i] <= '9'
    ensures r.Success? ==> r.value == value
    ensures r.Failure? ==> r.error == "CUIT inválido"
  {
    if IsDigitString(value) && |value| == CuitLength then Success(value)
    else Failure("CUIT inválido")
  }

  /** Ten- and twelve-digit strings are not CUITs. */
  lemma CuitRejectsWrongLength(value: string)
    requires |value| == 10 || |value| == 12
    ensures NewCuit(value).Failure?
  {
  }

  /** One non-digit anywhere, or the empty string, is rejected. */
  lemma CuitRejectsNonDigit(value: string, i: nat)
    requires i < |value| && !IsAsciiDigit(value[i])
    ensures NewCuit(value).Failure?
    ensures NewCuit("").Failure?
  {
  }

  /** `CodigoSenasa(value)`: only the length is checked. */
  function NewCodigoSenasa(value: string): (r: Result<CodigoSenasa, string>)
    ensures r.Success? <==> |value| >= 3
    ensures r.Success? ==> r.value == value
    ensures r.Failure? ==> r.error == "Código SENASA inválido"
  {
    if |value| >= CodigoMinLength then Success(value) else Failure("Código SENASA inválido")
  }

  /** No character is excluded from a SENASA code: any three characters are accepted. */
  lemma CodigoAcceptsAnyCharacters(a: char, b: char, c: char)
    ensures NewCodigoSenasa([a, b, c]) == Success([a, b, c])
    ensures NewCodigoSenasa([a, b]).Failure?
  {
  }

  /** A calendar date (`datetime.date`); its calendar check belongs to the standard
      library and is not modelled. */
  datatype Date = Date(year: int, month: int, day: int)

  /** A subclass of `date`; it carries the same three components. */
  datatype FechaVencimiento = FechaVencimiento(year: int, month: int, day: int)

  function FechaFromDate(d: Date): (f: FechaVencimiento)
    ensures f.year == d.year && f.month == d.month && f.day == d.day
  {
    FechaVencimiento(d.year, d.month, d.day)
  }

  /** The expiry date seen as the `date` it is a subclass of. */
  function FechaAsDate(f: FechaVencimiento): Date {
    Date(f.year, f.month, f.day)
  }

  /** `from_date` loses nothing: viewing the result as a date gives back the input. */
  lemma FechaFromDateRoundTrip(d: Date)
    ensures FechaAsDate(FechaFromDate(d)) == d
    ensures FechaFromDate(FechaAsDate(FechaFromDate(d))) == FechaFromDate(d)
  {
  }

  /** A registered establishment (apiary or extraction room). */
  datatype Establecimiento = Establecimiento(
    codigoSenasa: CodigoSenasa,
    nombre: string,
    direccion: string,
    localidad: string,
    provincia: string,
    cuit: Cuit,
    fechaVencimiento: FechaVencimiento)

  /** A drum of honey; `peso` is a Python float that is only ever copied, so a real
      stands for it. */
  datatype Tambor = Tambor(
    nroSenasa: CodigoSenasa,
    establecimientoCodigo: CodigoSenasa,
    fechaExtraccion: Date,
    peso: real,
    tipoMiel: string,
    origen: string,
    productor: string)

  datatype SenasaRecord = SenasaRecord(tambor: Tambor, establecimiento: Option<Establecimiento>)

  /** `SenasaRecord(tambor=t)`: the establishment defaults to None. */
  function NewSenasaRecord(tambor: Tambor): (r: SenasaRecord)
    ensures r.tambor == tambor && r.establecimiento == None
  {
    SenasaRecord(tambor, None)
  }
}
