/** The record repositories and the scraping stubs. The in-memory repository keeps a
    Python list that `save` appends to; `get_by_nro` and `list` only read it. */
module Repositories {
  import opened Wrappers
  import opened Sequences
  import opened Domain

  const DefaultListLimit: int := 100
  const DefaultListOffset: int := 0

  /** Whether a record's drum carries the given SENASA number. */
  predicate HasNro(r: SenasaRecord, nro: string) {
    r.tambor.nroSenasa == nro
  }

  /** The lowest-index record with the given number, or None. */
  function FirstByNro(data: seq<SenasaRecord>, nro: string): (r: Option<SenasaRecord>)
    ensures r.None? <==> forall i :: 0 <= i < |data| ==> !HasNro(data[i], nro)
    ensures r.Some? ==>
      exists i :: 0 <= i < |data| && data[i] == r.value && HasNro(data[i], nro) &&
                  (forall j :: 0 <= j < i ==> !HasNro(data[j], nro))
  {
    match FirstMatch(data, (x: SenasaRecord) => HasNro(x, nro))
    case None => None
    case Some(i) => Some(data[i])
  }

  /** Once a record is appended, a lookup by its number finds something. */
  lemma {:induction false} FindableAfterAppend(data: seq<SenasaRecord>, rec: SenasaRecord)
    ensures FirstByNro(data + [rec], rec.tambor.nroSenasa).Some?
  {
    var s := data + [rec];
    assert HasNro(s[|s| - 1], rec.tambor.nroSenasa);
  }

  /** Appending never changes what an earlier match returns: with two records under one
      number, the lookup keeps returning the first. */
  lemma {:induction false} AppendKeepsFirstMatch(data: seq<SenasaRecord>, rec: SenasaRecord, nro: string)
    requires FirstByNro(data, nro).Some?
    ensures FirstByNro(data + [rec], nro) == FirstByNro(data, nro)
  {
    var p := (x: SenasaRecord) => HasNro(x, nro);
    var s := data + [rec];
    var i :| 0 <= i < |data| && data[i] == FirstByNro(data, nro).value && HasNro(data[i], nro) &&
             (forall j :: 0 <= j < i ==> !HasNro(data[j], nro));
    var k := FirstMatch(s, p);
    assert p(s[i]);
    assert k.Some?;
    assert forall j :: 0 <= j < i ==> !p(s[j]);
    assert k.value == i;
  }

  /** The in-memory table behind DuckDBSenasaRepository (the same class appears twice in
      the source, once per package; both keep the same list). */
  class DuckDBSenasaRepository {
    var data: seq<SenasaRecord>

    constructor ()
      ensures data == []
    {
      data := [];
    }

    /** `self._data.append(record)` */
    method Save(record: SenasaRecord)
      modifies this
      ensures data == old(data) + [record]
      ensures |data| == |old(data)| + 1 && data[..|old(data)|] == old(data)
    {
      data := data + [record];
    }

    /** The first stored record whose drum number is `nro`, or None. */
    function GetByNro(nro: CodigoSenasa): (r: Option<SenasaRecord>)
      reads this
      ensures r.None? <==> forall i :: 0 <= i < |data| ==> data[i].tambor.nroSenasa != nro
      ensures r.Some? ==>
        exists i :: 0 <= i < |data| && data[i] == r.value && data[i].tambor.nroSenasa == nro &&
                    (forall j :: 0 <= j < i ==> data[j].tambor.nroSenasa != nro)
    {
      FirstByNro(data, nro)
    }

    /** `self._data[offset : offset + limit]` */
    function List(limit: int := DefaultListLimit, offset: int := DefaultListOffset): (r: seq<SenasaRecord>)
      reads this
      ensures offset >= 0 && limit >= 0 ==>
        |r| == Max(0, Min(limit, |data| - offset)) &&
        forall k :: 0 <= k < |r| ==> r[k] == data[offset + k]
    {
      PySliceWindowAt(data, offset, limit);
      PySlice(data, offset, offset + limit)
    }
  }

  lemma PySliceWindowAt(s: seq<SenasaRecord>, offset: int, limit: int)
    ensures offset >= 0 && limit >= 0 ==>
      var r := PySlice(s, offset, offset + limit);
      |r| == Max(0, Min(limit, |s| - offset)) && forall k :: 0 <= k < |r| ==> r[k] == s[offset + k]
  {
    if offset >= 0 && limit >= 0 {
      PySliceWindow(s, offset, limit);
    }
  }

  /** Saving a record and then looking it up by its drum number always finds a record
      with that number. */
  method SaveThenFind(repo: DuckDBSenasaRepository, rec: SenasaRecord) returns (found: Option<SenasaRecord>)
    modifies repo
    ensures repo.data == old(repo.data) + [rec]
    ensures found.Some? && found.value.tambor.nroSenasa == rec.tambor.nroSenasa
  {
    repo.Save(rec);
    FindableAfterAppend(old(repo.data), rec);
    found := repo.GetByNro(rec.tambor.nroSenasa);
  }

  /** A placeholder repository: every operation is a stub. */
  class PostgreSQLSenasaRepository {
    constructor () {}

    /** `def save(...): ...` stores nothing. */
    method Save(record: SenasaRecord) {}

    function GetByNro(nro: CodigoSenasa): (r: Option<SenasaRecord>)
      ensures r == None
    {
      None
    }

    function List(limit: int := DefaultListLimit, offset: int := DefaultListOffset): (r: seq<SenasaRecord>)
      ensures r == []
    {
      []
    }
  }

  /** Scraping placeholders: neither adapter fetches anything yet. */
  class SenasaWebScrapingAdapter {
    constructor () {}

    function FetchLatest(incremental: bool := false): (r: seq<SenasaRecord>)
      ensures r == []
    {
      []
    }
  }

  class SenasaAPIAdapter {
    constructor () {}

    function FetchLatest(incremental: bool := false): (r: seq<SenasaRecord>)
      ensures r == []
    {
      []
    }
  }
}
