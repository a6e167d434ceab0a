/** The data-pipeline use cases: synchronisation (fetch, validate, save, count), export
    (list, project, hand to storage) and single-record validation. The scraper, the
    validator and the storage are collaborators given as functions; the repository is the
    in-memory one. */
module UseCases {
  import opened Wrappers
  import opened Sequences
  import opened Domain
  import opened RecordDto
  import opened Repositories

  datatype SyncRequest = SyncRequest(incremental: bool)
  datatype ExportRequest = ExportRequest(format: string)

  const DefaultExportFormat := "parquet"
  const ExportLimit: int := 10000
  const ExportOffset: int := 0

  /** The records the validator accepts, in fetch order. */
  function Accepted(records: seq<SenasaRecord>, validate: SenasaRecord -> bool): (r: seq<SenasaRecord>)
    ensures |r| <= |records|
    ensures forall x :: x in r <==> x in records && validate(x)
  {
    if records == [] then []
    else
      var init := records[..|records| - 1];
      var last := records[|records| - 1];
      assert records == init + [last];
      Accepted(init, validate) + (if validate(last) then [last] else [])
  }

  /** With every record accepted nothing is dropped; with none accepted nothing is kept. */
  lemma {:induction false} AcceptedExtremes(records: seq<SenasaRecord>, validate: SenasaRecord -> bool)
    ensures (forall i :: 0 <= i < |records| ==> validate(records[i])) ==> Accepted(records, validate) == records
    ensures (forall i :: 0 <= i < |records| ==> !validate(records[i])) ==> Accepted(records, validate) == []
  {
    if records != [] {
      var init := records[..|records| - 1];
      AcceptedExtremes(init, validate);
      assert records == init + [records[|records| - 1]];
    }
  }

  /** `SyncSenasaDataUseCase.execute`: every fetched record the validator accepts is saved,
      in fetch order, and counted; the request's flag reaches the scraper unchanged. */
  method SyncSenasaData(
    fetchLatest: bool -> seq<SenasaRecord>,
    validate: SenasaRecord -> bool,
    repo: DuckDBSenasaRepository,
    req: SyncRequest)
    returns (count: nat)
    modifies repo
    ensures repo.data == old(repo.data) + Accepted(fetchLatest(req.incremental), validate)
    ensures count == |Accepted(fetchLatest(req.incremental), validate)|
    ensures count <= |fetchLatest(req.incremental)|
  {
    var fetched := fetchLatest(req.incremental);
    count := 0;
    ghost var accepted := [];
    var i := 0;
    while i < |fetched|
      invariant 0 <= i <= |fetched|
      invariant accepted == Accepted(fetched[..i], validate)
      invariant repo.data == old(repo.data) + accepted && count == |accepted|
    {
      var rec := fetched[i];
      assert fetched[..i + 1][..i] == fetched[..i];
      if validate(rec) {
        repo.Save(rec);
        count := count + 1;
        accepted := accepted + [rec];
      }
      i := i + 1;
    }
    assert fetched[..i] == fetched;
  }

  /** A value of a notification payload. */
  datatype PayloadValue = BoolValue(b: bool) | IntValue(n: int)

  /** What the synchronisation asks of its collaborators, in order. */
  datatype Call =
    | Notify(event: string, payload: map<string, PayloadValue>)
    | FetchLatest(incremental: bool)

  /** `SyncSenasaDataUseCase.execute` with an optional notifier: "sync_started" goes out
      before the fetch and "sync_finished" with the count after it; without a notifier no
      event is sent. */
  method SyncSenasaDataNotified(
    fetchLatest: bool -> seq<SenasaRecord>,
    validate: SenasaRecord -> bool,
    repo: DuckDBSenasaRepository,
    hasNotifier: bool,
    req: SyncRequest)
    returns (count: nat, calls: seq<Call>)
    modifies repo
    ensures repo.data == old(repo.data) + Accepted(fetchLatest(req.incremental), validate)
    ensures count == |Accepted(fetchLatest(req.incremental), validate)|
    ensures calls ==
      (if hasNotifier then [Notify("sync_started", map["incremental" := BoolValue(req.incremental)])] else []) +
      [FetchLatest(req.incremental)] +
      (if hasNotifier then [Notify("sync_finished", map["processed" := IntValue(count)])] else [])
  {
    calls := [];
    if hasNotifier {
      calls := calls + [Notify("sync_started", map["incremental" := BoolValue(req.incremental)])];
    }
    calls := calls + [FetchLatest(req.incremental)];
    count := SyncSenasaData(fetchLatest, validate, repo, req);
    if hasNotifier {
      calls := calls + [Notify("sync_finished", map["processed" := IntValue(count)])];
    }
  }

  /** The unit test's scenario: one fetched record, always valid, gives a count of one and
      the record can be found by its number "ABC123" afterwards. */
  method SyncOneRecordScenario() returns (processed: nat, found: Option<SenasaRecord>)
    ensures processed == 1
    ensures found.Some? && found.value.tambor.nroSenasa == "ABC123"
  {
    var t := Tambor("ABC123", "EST001", Date(2025, 1, 1), 300.0, "flores", "AR", "Juan");
    var e := Establecimiento("EST001", "Est 1", "Dir", "Loc", "Prov", "20301234567",
      FechaFromDate(Date(2025, 1, 1)));
    var rec := SenasaRecord(t, Some(e));
    var repo := new DuckDBSenasaRepository();
    processed := SyncSenasaData(_ => [rec], _ => true, repo, SyncRequest(false));
    assert [rec][..0] == [];
    assert Accepted([rec], _ => true) == [rec];
    FindableAfterAppend([], rec);
    assert repo.data == [] + [rec];
    found := repo.GetByNro("ABC123");
  }

  /** The export rows: `from_domain` of each listed record, in order. */
  function ExportRows(listed: seq<SenasaRecord>): (rows: seq<SenasaRecordDto>)
    ensures |rows| == |listed|
    ensures forall i :: 0 <= i < |rows| ==> rows[i] == FromDomain(listed[i])
  {
    if listed == [] then [] else [FromDomain(listed[0])] + ExportRows(listed[1..])
  }

  /** `ExportSenasaDataUseCase.execute`: the first 10000 records (limit 10000, offset 0)
      are projected in order and handed to storage with the request's format and the path
      unchanged; storage's answer is returned as is. */
  function ExportSenasaData(
    repo: DuckDBSenasaRepository,
    storageExport: (seq<SenasaRecordDto>, string, string) -> string,
    req: ExportRequest,
    path: string)
    : (r: string)
    reads repo
    ensures var rows := ExportRows(repo.List(ExportLimit, ExportOffset));
      |rows| == Min(ExportLimit, |repo.data|) &&
      (forall i :: 0 <= i < |rows| ==> rows[i] == FromDomain(repo.data[i])) &&
      r == storageExport(rows, req.format, path)
  {
    storageExport(ExportRows(repo.List(ExportLimit, ExportOffset)), req.format, path)
  }

  /** `ValidateSenasaRecordUseCase.execute`: the validator's verdict, unchanged. */
  function ValidateSenasaRecord(validate: SenasaRecord -> bool, record: SenasaRecord): (r: bool)
    ensures r == validate(record)
  {
    validate(record)
  }
}
