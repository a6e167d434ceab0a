/** The flat, frozen projection of a record that the export writes out. Datatypes are
    immutable values, which is what `@dataclass(frozen=True)` promises. */
module RecordDto {
  import opened Domain

  datatype SenasaRecordDto = SenasaRecordDto(
    nroSenasa: string,
    establecimientoCodigo: string,
    peso: real,
    tipoMiel: string,
    origen: string,
    productor: string)

  /** `SenasaRecordDTO.from_domain`: a CodigoSenasa is a `str`, so `str()` of it is the
      code itself; the other four fields are copied from the drum. */
  function FromDomain(rec: SenasaRecord): (d: SenasaRecordDto)
    ensures d.nroSenasa == rec.tambor.nroSenasa
    ensures d.establecimientoCodigo == rec.tambor.establecimientoCodigo
    ensures d.peso == rec.tambor.peso && d.tipoMiel == rec.tambor.tipoMiel
    ensures d.origen == rec.tambor.origen && d.productor == rec.tambor.productor
  {
    var t := rec.tambor;
    SenasaRecordDto(t.nroSenasa, t.establecimientoCodigo, t.peso, t.tipoMiel, t.origen, t.productor)
  }

  /** Two records have equal projections exactly when their drums agree on everything
      but the extraction date; the establishment never matters. */
  lemma FromDomainForgets(r1: SenasaRecord, r2: SenasaRecord)
    ensures FromDomain(r1) == FromDomain(r2) <==>
      r1.tambor.(fechaExtraccion := r2.tambor.fechaExtraccion) == r2.tambor
  {
  }
}
