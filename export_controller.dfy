/**
 * The export controller's decisions. The three scoped routes are pure guards that
 * always end in a thrown failure; Export and GetExportStatusById call the handlers
 * and build their OperationResult step by step. Each of those two methods is proved
 * against the pure function that says what it answers.
 */
module ExportController {
  import opened Wrappers
  import opened Http
  import opened Configs
  import opened ExportMessages
  import opened Failures
  import opened JobStores
  import opened ExportHandlers

  /** The answer the controller hands back: status, Content-Location, the export-result content type, and a body. */
  datatype OperationResult = OperationResult(
    status: HttpStatus,
    contentLocation: Option<string>,
    exportContentType: bool,
    body: Option<JobResult>)

  /** `new OperationResult(body)`: a fresh result, status OK until the action sets it. */
  function NewOperationResult(body: Option<JobResult>): (r: OperationResult)
    ensures r.body == body && r.contentLocation.None? && !r.exportContentType
  {
    OperationResult(OK, None, false, body)
  }

  /** The route segments of the status-poll location. */
  const OperationsSegment := "_operations"
  const ExportSegment := "export"
  const StatusPrefix := OperationsSegment + "/" + ExportSegment + "/"

  /** The Content-Location at which job `id` is polled. */
  function ContentLocation(id: string): (location: string)
    ensures !IsNullOrWhiteSpace(Some(location))
  {
    assert !IsWhiteSpaceChar(StatusPrefix[0]);
    assert (StatusPrefix + id)[0] == StatusPrefix[0];
    StatusPrefix + id
  }

  /** The job id a status-poll location names, if it is one. */
  function JobIdOfLocation(location: string): (id: Option<string>)
    ensures id.Some? ==> ContentLocation(id.value) == location
  {
    if |StatusPrefix| <= |location| && location[..|StatusPrefix|] == StatusPrefix then
      Some(location[|StatusPrefix|..])
    else None
  }

  /** A location produced for a job leads back to that job. */
  lemma LocationRoundTrip(id: string)
    ensures JobIdOfLocation(ContentLocation(id)) == Some(id)
  {
    assert ContentLocation(id)[..|StatusPrefix|] == StatusPrefix;
    assert ContentLocation(id)[|StatusPrefix|..] == id;
  }

  /** Distinct jobs are polled at distinct locations. */
  lemma ContentLocationInjective(a: string, b: string)
    requires ContentLocation(a) == ContentLocation(b)
    ensures a == b
  {
    LocationRoundTrip(a);
    LocationRoundTrip(b);
  }

  /** Neither scoped export has a body yet: a disabled export is not valid, an enabled one is not implemented. */
  function CheckIfExportIsEnabledAndRespond(config: ExportConfiguration): (f: Failure)
    ensures config.enabled <==> f == OperationNotImplemented
    ensures !config.enabled <==> f == RequestNotValid(UnsupportedOperation)
  {
    if !config.enabled then RequestNotValid(UnsupportedOperation)
    else OperationNotImplemented
  }

  /** The two answers of CheckIfExportIsEnabledAndRespond are different kinds and go out with different statuses. */
  lemma EnabledAndDisabledAnswersDiffer(enabled: ExportConfiguration, disabled: ExportConfiguration)
    requires enabled.enabled && !disabled.enabled
    ensures CheckIfExportIsEnabledAndRespond(enabled) != CheckIfExportIsEnabledAndRespond(disabled)
    ensures StatusOf(CheckIfExportIsEnabledAndRespond(enabled)) == NotImplemented
    ensures StatusOf(CheckIfExportIsEnabledAndRespond(disabled)) == BadRequest
  {
  }

  const PatientType := "Patient"
  const GroupType := "Group"

  /** Export by resource type: only the exact type name "Patient" gets past the type check. */
  function ExportResourceType(config: ExportConfiguration, resourceType: string): (f: Failure)
    ensures resourceType != PatientType ==> f == RequestNotValid(UnsupportedResourceType(resourceType))
    ensures f == OperationNotImplemented <==> resourceType == PatientType && config.enabled
    ensures f.RequestNotValid? <==> resourceType != PatientType || !config.enabled
  {
    if resourceType != PatientType then RequestNotValid(UnsupportedResourceType(resourceType))
    else CheckIfExportIsEnabledAndRespond(config)
  }

  /** string.IsNullOrEmpty. */
  predicate IsNullOrEmpty(s: Option<string>)
    ensures IsNullOrEmpty(s) <==> s.None? || |s.value| == 0
    ensures IsNullOrEmpty(s) ==> IsNullOrWhiteSpace(s)
    ensures s == Some(" ") ==> !IsNullOrEmpty(s) && IsNullOrWhiteSpace(s)
  {
    s.None? || s.value == ""
  }

  /** Export of one resource: only type "Group" with a given, non-empty id gets past the guard. */
  function ExportResourceTypeById(config: ExportConfiguration, resourceType: string, id: Option<string>): (f: Failure)
    ensures resourceType != GroupType || IsNullOrEmpty(id) ==> f == RequestNotValid(UnsupportedResourceType(resourceType))
    ensures f == OperationNotImplemented <==> resourceType == GroupType && !IsNullOrEmpty(id) && config.enabled
    ensures f.RequestNotValid? <==> resourceType != GroupType || IsNullOrEmpty(id) || !config.enabled
  {
    if resourceType != GroupType || IsNullOrEmpty(id) then RequestNotValid(UnsupportedResourceType(resourceType))
    else CheckIfExportIsEnabledAndRespond(config)
  }

  /** The answer to a created job: Accepted, with the job's poll location. */
  function AcceptedAt(id: string): (r: OperationResult)
    ensures r.status == Accepted && r.contentLocation == Some(ContentLocation(id))
    ensures JobIdOfLocation(r.contentLocation.value) == Some(id)
    ensures r.body.None? && !r.exportContentType
  {
    LocationRoundTrip(id);
    OperationResult(Accepted, Some(ContentLocation(id)), false, None)
  }

  /**
   * What Export answers. A disabled export is refused before the store is touched;
   * a job the store did not take is JobNotCreated; a created one is Accepted with its location.
   */
  function ExportResult(config: ExportConfiguration, jobs: map<string, ExportJobRecord>, failWith: Option<HttpStatus>,
                        requestUri: Uri, destinationType: Option<string>, destinationConnectionString: Option<string>,
                        jobId: string): (r: Result<OperationResult, Failure>)
    requires ValidFault(failWith)
    ensures !config.enabled ==> r == Failure(RequestNotValid(UnsupportedOperation))
    ensures r.Success? <==>
      config.enabled && FromUriAndDestination(Some(requestUri), destinationType, destinationConnectionString).Success?
      && failWith.None? && jobId !in jobs
    ensures r.Success? ==> r.value == AcceptedAt(jobId)
    ensures config.enabled && FromUriAndDestination(Some(requestUri), destinationType, destinationConnectionString).Failure? ==>
      r == Failure(InvalidArgument(FromUriAndDestination(Some(requestUri), destinationType, destinationConnectionString).error))
    ensures r == Failure(JobNotCreated) <==>
      config.enabled && FromUriAndDestination(Some(requestUri), destinationType, destinationConnectionString).Success?
      && !(failWith.None? && jobId !in jobs)
  {
    if !config.enabled then Failure(RequestNotValid(UnsupportedOperation))
    else match ExportAsyncResult(jobs, failWith, Some(requestUri), destinationType, destinationConnectionString, jobId)
      case Failure(e) => Failure(InvalidArgument(e))
      case Success(response) =>
        if !response.jobCreated then Failure(JobNotCreated)
        else Success(AcceptedAt(response.id))
  }

  /** The records after Export: one new record, under `jobId`, exactly when Export succeeds. */
  function JobsAfterExport(config: ExportConfiguration, jobs: map<string, ExportJobRecord>, failWith: Option<HttpStatus>,
                           requestUri: Uri, destinationType: Option<string>, destinationConnectionString: Option<string>,
                           jobId: string): (m: map<string, ExportJobRecord>)
    requires ValidFault(failWith)
    ensures !ExportResult(config, jobs, failWith, requestUri, destinationType, destinationConnectionString, jobId).Success? ==> m == jobs
    ensures ExportResult(config, jobs, failWith, requestUri, destinationType, destinationConnectionString, jobId).Success? ==>
      && m.Keys == jobs.Keys + {jobId} && jobId !in jobs
      && m[jobId] == ExportJobRecord(jobId, requestUri, destinationType, destinationConnectionString, Running, None)
    ensures forall id :: id in jobs ==> id in m && m[id] == jobs[id]
  {
    if ExportResult(config, jobs, failWith, requestUri, destinationType, destinationConnectionString, jobId).Success? then
      jobs[jobId := JobRecordFor(CreateExportRequest(requestUri, destinationType, destinationConnectionString), jobId)]
    else jobs
  }

  /** The `$export` action; `requestUri` is the request's own URI and `jobId` the id the handler will generate. */
  method Export(store: JobStore, config: ExportConfiguration, requestUri: Uri, destinationType: Option<string>,
                destinationConnectionString: Option<string>, jobId: string) returns (r: Result<OperationResult, Failure>)
    requires store.Valid()
    modifies store
    ensures store.Valid()
    ensures r == ExportResult(config, old(store.jobs), store.failWith, requestUri, destinationType, destinationConnectionString, jobId)
    ensures store.jobs == JobsAfterExport(config, old(store.jobs), store.failWith, requestUri, destinationType, destinationConnectionString, jobId)
  {
    if !config.enabled {
      r := Failure(RequestNotValid(UnsupportedOperation));
      return;
    }
    var created := ExportAsync(store, Some(requestUri), destinationType, destinationConnectionString, jobId);
    match created {
      case Failure(e) =>
        r := Failure(InvalidArgument(e));
      case Success(response) =>
        if !response.jobCreated {
          r := Failure(JobNotCreated);
          return;
        }
        var operationResult := NewOperationResult(None);
        operationResult := operationResult.(status := Accepted);
        operationResult := operationResult.(contentLocation := Some(ContentLocation(response.id)));
        r := Success(operationResult);
    }
  }

  /** The status of a job as polled: JobNotFound, 200 with the result and the export content type, or a bare 202. */
  function StatusResult(id: string, response: GetExportStatusResponse): (r: Result<OperationResult, Failure>)
    ensures r.Failure? <==> !response.jobExists
    ensures r.Failure? ==> r.error == JobNotFound(id)
    ensures r.Success? ==> r.value.contentLocation.None?
    ensures r.Success? && response.statusCode == OK ==>
      r.value == OperationResult(OK, None, true, response.jobResult)
    ensures r.Success? && response.statusCode != OK ==>
      r.value == OperationResult(Accepted, None, false, None)
  {
    if !response.jobExists then Failure(JobNotFound(id))
    else if response.statusCode == OK then Success(OperationResult(OK, None, true, response.jobResult))
    else Success(OperationResult(Accepted, None, false, None))
  }

  /** The status-poll action. It reads the store and changes nothing. */
  method GetExportStatusById(store: JobStore, id: string) returns (r: Result<OperationResult, Failure>)
    requires store.Valid()
    ensures r.Failure? <==> id !in store.jobs
    ensures r.Failure? ==> r.error == JobNotFound(id)
    ensures id in store.jobs && store.jobs[id].status == Completed ==>
      r == Success(OperationResult(OK, None, true, store.jobs[id].result))
    ensures id in store.jobs && store.jobs[id].status != Completed ==>
      r == Success(OperationResult(Accepted, None, false, None))
  {
    var getExportResult := GetExportStatus(store, id);
    if !getExportResult.jobExists {
      r := Failure(JobNotFound(id));
      return;
    }
    var operationResult: OperationResult;
    if getExportResult.statusCode == OK {
      operationResult := NewOperationResult(getExportResult.jobResult);
      operationResult := operationResult.(status := OK);
      operationResult := operationResult.(exportContentType := true);
    } else {
      operationResult := NewOperationResult(None);
      operationResult := operationResult.(status := Accepted);
    }
    r := Success(operationResult);
  }

  /** GetExportStatusById answers what StatusResult says of the store's record. */
  lemma GetExportStatusByIdMatchesStatusResult(jobs: map<string, ExportJobRecord>, id: string)
    ensures var r := StatusResult(id, StatusResponseFor(Find(jobs, id)));
      && (r.Failure? <==> id !in jobs)
      && (id in jobs && jobs[id].status == Completed ==> r == Success(OperationResult(OK, None, true, jobs[id].result)))
      && (id in jobs && jobs[id].status != Completed ==> r == Success(OperationResult(Accepted, None, false, None)))
  {
  }
}
