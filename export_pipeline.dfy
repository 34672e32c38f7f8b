/**
 * The export routes as one pipeline of two stages: the gate of ExportGate runs on
 * the three export routes (never on the status poll), and a request it lets through
 * goes to the controller action its route names. `Respond` is the reference
 * definition over the store's records; `Handle` runs the pipeline against a JobStore
 * and is proved to agree with it. The end-to-end scenarios are lemmas about `Respond`.
 */
module ExportPipeline {
  import opened Wrappers
  import opened Http
  import opened Configs
  import opened ExportMessages
  import opened Failures
  import opened ExportGate
  import opened JobStores
  import opened ExportController

  datatype Route =
    | ExportRoute                                                       // $export
    | ExportResourceTypeRoute(resourceType: string)                     // <type>/$export
    | ExportResourceTypeByIdRoute(resourceType: string, id: Option<string>)  // <type>/<id>/$export
    | ExportStatusRoute(jobId: string)                                   // _operations/export/<id>

  /** The parts of an HTTP request the export routes look at. */
  datatype HttpRequest = HttpRequest(
    route: Route,
    uri: Uri,
    accept: seq<string>,
    prefer: seq<string>,
    destinationType: Option<string>,
    destinationConnectionString: Option<string>)

  /** The answer together with the store's records after the request. */
  datatype Reply = Reply(response: OperationResult, jobs: map<string, ExportJobRecord>)

  /** The gate is attached to the three export actions and not to the status poll. */
  predicate GateApplies(route: Route)
    ensures GateApplies(route) <==>
      route.ExportRoute? || route.ExportResourceTypeRoute? || route.ExportResourceTypeByIdRoute?
  {
    !route.ExportStatusRoute?
  }

  /** What the gate says of a request. */
  function GateOf(config: ExportConfiguration, request: HttpRequest): Result<Validated, Failure> {
    Admit(request.accept, request.prefer, request.destinationType, request.destinationConnectionString, config)
  }

  /** The answer the exception filter turns a thrown failure into: its status and nothing else. */
  function ErrorResponse(f: Failure): (r: OperationResult)
    ensures r.status == StatusOf(f)
    ensures r.contentLocation.None? && r.body.None? && !r.exportContentType
  {
    OperationResult(StatusOf(f), None, false, None)
  }

  /** The answer to an action's outcome: a failure never reads as success nor carries a location or body. */
  function ToResponse(r: Result<OperationResult, Failure>): (response: OperationResult)
    ensures r.Failure? ==>
      response.status.Code() >= 400 && response.contentLocation.None? && response.body.None? && !response.exportContentType
    ensures response.status.Code() < 400 ==> r.Success? && response == r.value
  {
    match r
    case Success(result) => result
    case Failure(f) => ErrorResponse(f)
  }

  /**
   * The pipeline. `jobs` and `failWith` are the store's state, `newJobId` the id a
   * create would give its job.
   */
  function Respond(config: ExportConfiguration, jobs: map<string, ExportJobRecord>, failWith: Option<HttpStatus>,
                   request: HttpRequest, newJobId: string): (reply: Reply)
    requires ValidFault(failWith)
    // the gate cannot be bypassed, and a refused request changes nothing
    ensures GateApplies(request.route) && GateOf(config, request).Failure? ==>
      reply.response.status == BadRequest && reply.jobs == jobs
    // with the toggle off, every export route answers 400 and nothing is created
    ensures !config.enabled ==> reply.jobs == jobs
    ensures !config.enabled && GateApplies(request.route) ==> reply.response.status == BadRequest
    // the records change only by one new Running job, created by $export and answered with its location
    ensures reply.jobs != jobs ==>
      && request.route == ExportRoute && newJobId !in jobs
      && reply.jobs.Keys == jobs.Keys + {newJobId}
      && reply.jobs[newJobId] == ExportJobRecord(newJobId, request.uri, request.destinationType,
                                                 request.destinationConnectionString, Running, None)
      && reply.response == AcceptedAt(newJobId)
    // no request changes or drops a record that was already there
    ensures forall id :: id in jobs ==> id in reply.jobs && reply.jobs[id] == jobs[id]
    ensures request.route == ExportRoute && reply.response.status == Accepted ==> reply.jobs != jobs
    // and conversely: an admitted $export on an enabled server with a working store and a fresh id
    // is answered with its location and adds exactly its Running job
    ensures && request.route == ExportRoute && GateOf(config, request).Success? && config.enabled
            && !IsNullOrWhiteSpace(request.destinationType) && !IsNullOrWhiteSpace(request.destinationConnectionString)
            && failWith.None? && newJobId !in jobs
            ==>
            && reply.response == AcceptedAt(newJobId)
            && reply.jobs == jobs[newJobId := ExportJobRecord(newJobId, request.uri, request.destinationType,
                                                              request.destinationConnectionString, Running, None)]
    // the scoped routes never get further than an error
    ensures request.route.ExportResourceTypeRoute? || request.route.ExportResourceTypeByIdRoute? ==>
      reply.jobs == jobs && reply.response.status in {BadRequest, NotImplemented}
    // polling reads only
    ensures request.route.ExportStatusRoute? ==>
      reply.jobs == jobs && reply.response.status in {OK, Accepted, NotFound}
    ensures reply.response.status in {OK, Accepted, BadRequest, NotFound, NotImplemented, InternalServerError}
  {
    if GateApplies(request.route) && GateOf(config, request).Failure? then
      Reply(ErrorResponse(GateOf(config, request).error), jobs)
    else match request.route
      case ExportRoute =>
        Reply(ToResponse(ExportResult(config, jobs, failWith, request.uri, request.destinationType,
                                      request.destinationConnectionString, newJobId)),
              JobsAfterExport(config, jobs, failWith, request.uri, request.destinationType,
                              request.destinationConnectionString, newJobId))
      case ExportResourceTypeRoute(resourceType) =>
        Reply(ErrorResponse(ExportResourceType(config, resourceType)), jobs)
      case ExportResourceTypeByIdRoute(resourceType, id) =>
        Reply(ErrorResponse(ExportResourceTypeById(config, resourceType, id)), jobs)
      case ExportStatusRoute(id) =>
        Reply(ToResponse(StatusResult(id, ExportHandlers.StatusResponseFor(Find(jobs, id)))), jobs)
  }

  /** One request through the gate and the controller, against a store. */
  method Handle(store: JobStore, config: ExportConfiguration, request: HttpRequest, newJobId: string)
    returns (response: OperationResult)
    requires store.Valid()
    modifies store
    ensures store.Valid()
    ensures Reply(response, store.jobs) == Respond(config, old(store.jobs), store.failWith, request, newJobId)
  {
    if GateApplies(request.route) {
      var admitted := Admit(request.accept, request.prefer, request.destinationType,
                            request.destinationConnectionString, config);
      if admitted.Failure? {
        response := ErrorResponse(admitted.error);
        return;
      }
    }
    match request.route {
      case ExportRoute =>
        var r := Export(store, config, request.uri, request.destinationType,
                        request.destinationConnectionString, newJobId);
        response := ToResponse(r);
      case ExportResourceTypeRoute(resourceType) =>
        response := ErrorResponse(ExportResourceType(config, resourceType));
      case ExportResourceTypeByIdRoute(resourceType, id) =>
        response := ErrorResponse(ExportResourceTypeById(config, resourceType, id));
      case ExportStatusRoute(id) =>
        var r := GetExportStatusById(store, id);
        GetExportStatusByIdMatchesStatusResult(store.jobs, id);
        response := ToResponse(r);
    }
  }

  // ----- The end-to-end scenarios, against any server configured as the test server is -----

  const E2EDestinationType := "AzureBlockBlob"

  /** What the end-to-end tests rely on: export enabled, with AzureBlockBlob supported. */
  predicate TestServer(config: ExportConfiguration) {
    config.enabled && E2EDestinationType in config.supportedDestinations
  }

  /** A request built as the tests' request generator builds it, on a given route and with given parts. */
  function TestRequest(route: Route, accept: seq<string>, prefer: seq<string>,
                       destinationType: Option<string>, destinationConnectionString: Option<string>): HttpRequest {
    HttpRequest(route, "$export", accept, prefer, destinationType, destinationConnectionString)
  }

  /** The generator's defaults: both correct headers and a supported destination. */
  function DefaultRequest(route: Route): HttpRequest {
    TestRequest(route, [FhirJsonContentType], [RespondAsync], Some(E2EDestinationType), Some("connectionSting"))
  }

  /** A bare GET of a status location: no Accept, Prefer or destination. */
  function PollRequest(location: string, id: string): HttpRequest {
    HttpRequest(ExportStatusRoute(id), location, [], [], None, None)
  }

  /** Patient/$export and Group/id/$export answer 501 with correct headers. */
  lemma ScopedExportsNotImplemented(config: ExportConfiguration, jobs: map<string, ExportJobRecord>,
                                    failWith: Option<HttpStatus>, newJobId: string)
    requires TestServer(config) && ValidFault(failWith)
    ensures Respond(config, jobs, failWith, DefaultRequest(ExportResourceTypeRoute("Patient")), newJobId).response.status == NotImplemented
    ensures Respond(config, jobs, failWith, DefaultRequest(ExportResourceTypeByIdRoute("Group", Some("id"))), newJobId).response.status == NotImplemented
  {
  }

  /** A correct $export answers 202 with a non-empty Content-Location and creates one Running job. */
  lemma ExportAccepted(config: ExportConfiguration, jobs: map<string, ExportJobRecord>, newJobId: string)
    requires TestServer(config) && newJobId !in jobs
    ensures var reply := Respond(config, jobs, None, DefaultRequest(ExportRoute), newJobId);
      && reply.response.status == Accepted
      && reply.response.contentLocation.Some? && !IsNullOrWhiteSpace(reply.response.contentLocation)
      && newJobId in reply.jobs && reply.jobs[newJobId].status == Running
  {
  }

  /** A missing connection parameter, a missing type parameter and an unsupported type each answer 400. */
  lemma BadDestinationParametersRejected(config: ExportConfiguration, jobs: map<string, ExportJobRecord>,
                                         failWith: Option<HttpStatus>, newJobId: string)
    requires TestServer(config) && ValidFault(failWith)
    requires "unsupportedDestionationType" !in config.supportedDestinations
    ensures Respond(config, jobs, failWith,
                    TestRequest(ExportRoute, [FhirJsonContentType], [RespondAsync], Some(E2EDestinationType), None),
                    newJobId).response.status == BadRequest
    ensures Respond(config, jobs, failWith,
                    TestRequest(ExportRoute, [FhirJsonContentType], [RespondAsync], None, Some("destinationConnection")),
                    newJobId).response.status == BadRequest
    ensures Respond(config, jobs, failWith,
                    TestRequest(ExportRoute, [FhirJsonContentType], [RespondAsync], Some("unsupportedDestionationType"),
                                Some("destinationConnection")),
                    newJobId).response.status == BadRequest
  {
  }

  /** Polling the location a fresh create returned answers 202: the job exists and is still running. */
  lemma CreateThenPollAccepted(config: ExportConfiguration, jobs: map<string, ExportJobRecord>, newJobId: string, laterJobId: string)
    requires TestServer(config) && newJobId !in jobs
    ensures var created := Respond(config, jobs, None, DefaultRequest(ExportRoute), newJobId);
      && created.response.contentLocation.Some?
      && var location := created.response.contentLocation.value;
      && JobIdOfLocation(location).Some?
      && Respond(config, created.jobs, None, PollRequest(location, JobIdOfLocation(location).value), laterJobId).response.status == Accepted
  {
    var created := Respond(config, jobs, None, DefaultRequest(ExportRoute), newJobId);
    ExportAccepted(config, jobs, newJobId);
    assert created.jobs != jobs;
    assert created.response == AcceptedAt(newJobId);
    var location := created.response.contentLocation.value;
    assert JobIdOfLocation(location) == Some(newJobId);
    var record := created.jobs[newJobId];
    assert Find(created.jobs, newJobId) == Some(record) && record.status == Running;
    assert ExportHandlers.StatusResponseFor(Some(record)).statusCode == Accepted;
  }

  /** Polling an id no job was created under answers 404, whatever the store's state otherwise. */
  lemma UnknownJobNotFound(config: ExportConfiguration, jobs: map<string, ExportJobRecord>, failWith: Option<HttpStatus>,
                           id: string, newJobId: string)
    requires ValidFault(failWith) && id !in jobs
    ensures Respond(config, jobs, failWith, PollRequest(ContentLocation(id), id), newJobId).response.status == NotFound
  {
  }

  /** With a correct Prefer, these Accept values (and no Accept at all) answer 400. */
  lemma InvalidAcceptBadRequest(config: ExportConfiguration, jobs: map<string, ExportJobRecord>, failWith: Option<HttpStatus>,
                                accept: seq<string>, newJobId: string)
    requires ValidFault(failWith)
    requires accept in [["application/json"], ["applicaiton/xml"], ["*/*"], [""], []]
    ensures Respond(config, jobs, failWith,
                    TestRequest(ExportRoute, accept, [RespondAsync], Some(E2EDestinationType), Some("connectionSting")),
                    newJobId) == Reply(ErrorResponse(RequestNotValid(InvalidAcceptHeader)), jobs)
  {
  }

  /** With a correct Accept, these Prefer values (and no Prefer at all) answer 400. */
  lemma InvalidPreferBadRequest(config: ExportConfiguration, jobs: map<string, ExportJobRecord>, failWith: Option<HttpStatus>,
                                prefer: seq<string>, newJobId: string)
    requires ValidFault(failWith)
    requires prefer in [["respond-async, wait=10"], ["respond-status"], ["*"], [""], []]
    ensures Respond(config, jobs, failWith,
                    TestRequest(ExportRoute, [FhirJsonContentType], prefer, Some(E2EDestinationType), Some("connectionSting")),
                    newJobId) == Reply(ErrorResponse(RequestNotValid(InvalidPreferHeader)), jobs)
  {
  }

  /** Polls ignore the headers: the same id answers the same whatever Accept and Prefer say. */
  lemma PollIgnoresHeaders(config: ExportConfiguration, jobs: map<string, ExportJobRecord>, failWith: Option<HttpStatus>,
                           a: HttpRequest, b: HttpRequest, newJobId: string)
    requires ValidFault(failWith)
    requires a.route.ExportStatusRoute? && a.route == b.route
    ensures Respond(config, jobs, failWith, a, newJobId) == Respond(config, jobs, failWith, b, newJobId)
  {
  }
}
