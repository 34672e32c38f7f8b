/**
 * The two request handlers behind the export routes: creating a job from a
 * CreateExportRequest, and reading a job's status. Each is a method on the job
 * store, specified by the pure functions beside it.
 */
module ExportHandlers {
  import opened Wrappers
  import opened Http
  import opened ExportMessages
  import opened JobStores

  datatype CreateExportResponse = CreateExportResponse(id: string, jobCreated: bool)

  /** The record the handler persists: the request's URI and destination, a new id, state Running and no result. */
  function JobRecordFor(request: CreateExportRequest, id: string): (record: ExportJobRecord)
    ensures record.id == id && WellFormedRecord(record)
    ensures record.requestUri == request.requestUri
    ensures record.destinationType == request.destinationType
    ensures record.destinationConnectionString == request.destinationConnectionString
    ensures record.status == Running && record.result.None?
  {
    ExportJobRecord(id, request.requestUri, request.destinationType, request.destinationConnectionString, Running, None)
  }

  /**
   * The create handler. `jobId` is the fresh identifier the handler generates.
   * The job is reported created exactly when the store acknowledges Created; no
   * destination check happens here.
   */
  method CreateExport(store: JobStore, request: CreateExportRequest, jobId: string) returns (response: CreateExportResponse)
    requires store.Valid()
    modifies store
    ensures store.Valid()
    ensures response.id == jobId
    ensures response.jobCreated <==> UpsertAck(old(store.jobs), store.failWith, jobId) == Created
    ensures store.jobs == AfterUpsert(old(store.jobs), store.failWith, JobRecordFor(request, jobId))
  {
    var record := JobRecordFor(request, jobId);
    var ack := store.Upsert(record);
    response := CreateExportResponse(record.id, ack == Created);
  }

  /** What the create path does to the store and answers, from the raw arguments. */
  function ExportAsyncResult(jobs: map<string, ExportJobRecord>, failWith: Option<HttpStatus>, requestUri: Option<Uri>,
                             destinationType: Option<string>, destinationConnectionString: Option<string>,
                             jobId: string): (r: Result<CreateExportResponse, ArgumentError>)
    requires ValidFault(failWith)
    ensures r.Failure? <==> FromUriAndDestination(requestUri, destinationType, destinationConnectionString).Failure?
    ensures r.Failure? ==> r.error == FromUriAndDestination(requestUri, destinationType, destinationConnectionString).error
    ensures r.Success? ==> r.value.id == jobId
    ensures r.Success? ==> (r.value.jobCreated <==> failWith.None? && jobId !in jobs)
  {
    match FromUriAndDestination(requestUri, destinationType, destinationConnectionString)
    case Failure(e) => Failure(e)
    case Success(_) => Success(CreateExportResponse(jobId, UpsertAck(jobs, failWith, jobId) == Created))
  }

  /**
   * The create entry point: build the three-argument command (which may refuse its
   * arguments, leaving the store alone), then run the create handler on it.
   */
  method ExportAsync(store: JobStore, requestUri: Option<Uri>, destinationType: Option<string>,
                     destinationConnectionString: Option<string>, jobId: string) returns (r: Result<CreateExportResponse, ArgumentError>)
    requires store.Valid()
    modifies store
    ensures store.Valid()
    ensures r == ExportAsyncResult(old(store.jobs), store.failWith, requestUri, destinationType, destinationConnectionString, jobId)
    ensures store.jobs ==
      if r.Failure? then old(store.jobs)
      else AfterUpsert(old(store.jobs), store.failWith,
                       JobRecordFor(FromUriAndDestination(requestUri, destinationType, destinationConnectionString).value, jobId))
  {
    var request := FromUriAndDestination(requestUri, destinationType, destinationConnectionString);
    match request {
      case Failure(e) =>
        r := Failure(e);
      case Success(command) =>
        var response := CreateExport(store, command, jobId);
        r := Success(response);
    }
  }

  /** What the status handler reports: whether the job exists, OK for a completed job (Accepted otherwise), and its result. */
  datatype GetExportStatusResponse = GetExportStatusResponse(jobExists: bool, statusCode: HttpStatus, jobResult: Option<JobResult>)

  /** The status response for a looked-up record. */
  function StatusResponseFor(record: Option<ExportJobRecord>): (r: GetExportStatusResponse)
    ensures r.jobExists <==> record.Some?
    ensures r.statusCode == OK <==> record.Some? && record.value.status == Completed
    ensures r.statusCode == OK ==> r.jobResult == record.value.result
    ensures r.jobExists && r.statusCode != OK ==> r.statusCode == Accepted && r.jobResult.None?
  {
    match record
    case None => GetExportStatusResponse(false, NotFound, None)
    case Some(job) =>
      if job.status == Completed then GetExportStatusResponse(true, OK, job.result)
      else GetExportStatusResponse(true, Accepted, None)
  }

  /** The status handler: a read of the store, which it leaves unchanged. */
  method GetExportStatus(store: JobStore, id: string) returns (response: GetExportStatusResponse)
    requires store.Valid()
    ensures response == StatusResponseFor(Find(store.jobs, id))
  {
    var record := store.Lookup(id);
    response := StatusResponseFor(record);
  }

  // ----- The handler's unit tests: the same command, two store acknowledgements -----

  const TestRequestUrl := "https://localhost/$export/"

  /** The store acknowledges Created: the job is created, whatever the destination type says. */
  method SavingJobSucceeds(jobId: string) returns (response: Result<CreateExportResponse, ArgumentError>)
    ensures response == Success(CreateExportResponse(jobId, true))
  {
    var store := new JobStore(map[], None);
    response := ExportAsync(store, Some(TestRequestUrl), Some("destinationType"), Some("destinationConnection"), jobId);
  }

  /** The store acknowledges BadRequest: the job is reported not created. */
  method SavingJobFails(jobId: string) returns (response: Result<CreateExportResponse, ArgumentError>)
    ensures response == Success(CreateExportResponse(jobId, false))
  {
    var store := new JobStore(map[], Some(BadRequest));
    response := ExportAsync(store, Some(TestRequestUrl), Some("destinationType"), Some("destinationConnection"), jobId);
  }
}
