# Bulk export: request gate and job lifecycle

A Dafny model of how the FHIR server admits a bulk-export request and answers
its status polls. It is built as one pipeline of two stages:

1. **The gate** (`ExportGate.Admit`). This is a pure check of the Accept and Prefer
   headers, the two destination query parameters and the export configuration. It
   runs before each of the three export actions and never before the status poll.
2. **The controller decisions** (`ExportController`). `Export` checks the feature toggle,
   then has the create handler build a `CreateExportRequest` and upsert a job record.
   It answers 202 with the job's Content-Location. The two scoped actions
   (`ExportResourceType` for "Patient", `ExportResourceTypeById` for "Group" with an id)
   always end in an error. `GetExportStatusById` answers 404, 202 or 200.

The job store (`JobStores.JobStore`) is a class. It holds a map from job id to
`ExportJobRecord`. `Upsert` returns an HTTP-status acknowledgement and `Lookup`
reads a record. Its `failWith` field gives the acknowledgement of a store that
cannot persist, which is the role the mocked data store plays in the handler's
unit tests. The handler and controller methods are proved against pure functions:
`ExportAsyncResult`, `StatusResponseFor`, `ExportResult`, `JobsAfterExport` and
`StatusResult`. The whole pipeline is the pure `ExportPipeline.Respond`. The
imperative `ExportPipeline.Handle` is proved to agree with it. The end-to-end
scenarios are lemmas about `Respond`.

Exceptions the source throws are modelled as `Failure` values:
- `RequestNotValid` gives 400.
- `OperationNotImplemented` gives 501.
- `JobNotFound` gives 404.
- `JobNotCreated` gives 500.
- A refused constructor argument (`InvalidArgument`) gives 500.

A C# `null` is `None`. A header is the sequence of its values, so an absent header is `[]`.

Modelling decisions:
- The gate's own implementation is not part of this model. Its behaviour is taken
  from its unit tests and the end-to-end tests. Accept must be exactly
  `[application/fhir+json]` and Prefer exactly `[respond-async]` (section 4.1 of
  RFC 7240). Both destination parameters must be given and non-empty, and the type
  must be a member of `supportedDestinations`. The first failing check names the reason.
- The gate does not look at `enabled`. The controller checks the toggle itself
  (ExportController.cs lines 83 and 170). So as modelled, a disabled server still
  answers 400 on every export route and creates nothing (an ensures of `Respond`).
- The configuration is one record `{enabled, supportedDestinations}`.
  OperationsConfiguration.cs has a single `SupportsBulkExport` flag. The controller and
  the tests instead use an `Export` sub-object (ExportController.cs:65, 71). The model
  follows the controller.
- The gate asks only for a non-empty connection string. The create command refuses a
  whitespace-only one (CreateExportRequest.cs:27). So in the model, a whitespace-only
  but non-empty connection string passes the gate and then ends as `InvalidArgument` (500).
- `CreateExportRequest`'s properties have private setters (CreateExportRequest.cs:39-46).
  This is captured by making the command a datatype value: it cannot change once built.
- A job's status poll location is `_operations/export/<id>`, relative to the server's
  base address, built by `ContentLocation`. `JobIdOfLocation` parses it back.
- The job id that a create would generate (a fresh GUID in the source) is a
  parameter (`jobId`, `newJobId`).

## Model

| member | source | states |
|---|---|---|
| ExportMessages.AllWhiteSpace | src/Microsoft.Health.Fhir.Core/Messages/Export/CreateExportRequest.cs:26-27 | a string counts as blank exactly when every character is a .NET whitespace character |
| ExportMessages.CheckNotNullOrWhiteSpace | src/Microsoft.Health.Fhir.Core/Messages/Export/CreateExportRequest.cs:26-27 | the guard passes exactly the non-null, non-blank strings; null is ArgumentNull, blank is ArgumentEmptyOrWhiteSpace, both naming the parameter |
| ExportMessages.IsNullOrWhiteSpace | src/Microsoft.Health.Fhir.Core/Messages/Export/CreateExportRequest.cs:26-27 | holds exactly for null or a string of whitespace characters only, the empty string included |
| ExportMessages.FromUri | src/Microsoft.Health.Fhir.Core/Messages/Export/CreateExportRequest.cs:16-21 | fails exactly on a null URI; otherwise stores the URI and leaves both destination fields unset |
| ExportMessages.FromUriAndDestination | src/Microsoft.Health.Fhir.Core/Messages/Export/CreateExportRequest.cs:23-32 | succeeds exactly when the URI is given and neither string is null, empty or whitespace; guards report in order URI, type, connection string, each refusal being exactly the guard's ArgumentNull (null) or ArgumentEmptyOrWhiteSpace (blank) error; success stores the three arguments unchanged |
| ExportMessages.ConstructorsAreWellFormed | src/Microsoft.Health.Fhir.Core/Messages/Export/CreateExportRequest.cs:16-46 | every constructed command has both destination fields or neither, each non-blank |
| Failures.StatusOf | test/Microsoft.Health.Fhir.Tests.E2E/Rest/ExportTests.cs:33-134 | RequestNotValid is exactly the 400s, OperationNotImplemented the 501s, JobNotFound the 404s, server faults the 500s; client faults are exactly the 4xx answers; no failure answers 2xx |
| ExportGate.Admit | src/Microsoft.Health.Fhir.Api.UnitTests/Features/Filters/ValidateExportHeadersFilterAttributeTests.cs:33-147 | admits exactly when Accept and Prefer are the single canonical values, both destination parameters are present and non-empty and the type is supported, then carries them on; every refusal is RequestNotValid, with Accept checked first and Prefer second |
| ExportGate.FixtureConfig | src/Microsoft.Health.Fhir.Api.UnitTests/Features/Filters/ValidateExportHeadersFilterAttributeTests.cs:168-175 | the fixture configuration is enabled and supports its destination type |
| ExportGate.InvalidAcceptRejected | src/Microsoft.Health.Fhir.Api.UnitTests/Features/Filters/ValidateExportHeadersFilterAttributeTests.cs:33-47 | Accept values application/fhir+xml, application/xml, text/xml, application/json and */* are refused whatever else the request holds |
| ExportGate.MissingAcceptRejected | src/Microsoft.Health.Fhir.Api.UnitTests/Features/Filters/ValidateExportHeadersFilterAttributeTests.cs:49-58 | a request without Accept is refused as an invalid Accept |
| ExportGate.InvalidPreferRejected | src/Microsoft.Health.Fhir.Api.UnitTests/Features/Filters/ValidateExportHeadersFilterAttributeTests.cs:60-72 | Prefer values `respond-async, wait = 10`, `return-content` and `*` are refused as RequestNotValid whatever the Accept header, the test's absent one included; with the correct Accept the reason is the Prefer header |
| ExportGate.MissingPreferRejected | src/Microsoft.Health.Fhir.Api.UnitTests/Features/Filters/ValidateExportHeadersFilterAttributeTests.cs:74-83 | a request without Prefer is refused |
| ExportGate.FixtureRequestAdmitted | src/Microsoft.Health.Fhir.Api.UnitTests/Features/Filters/ValidateExportHeadersFilterAttributeTests.cs:85-95 | the fixture's request with both correct headers and its default parameters is admitted |
| ExportGate.CorrectRequestAdmitted | src/Microsoft.Health.Fhir.Api.UnitTests/Features/Filters/ValidateExportHeadersFilterAttributeTests.cs:157-162 | correct headers, a supported non-empty type and a non-empty connection string are admitted under any configuration |
| ExportGate.MissingDestinationTypeRejected | src/Microsoft.Health.Fhir.Api.UnitTests/Features/Filters/ValidateExportHeadersFilterAttributeTests.cs:97-112 | a missing destination type is refused even with correct headers |
| ExportGate.MissingConnectionStringRejected | src/Microsoft.Health.Fhir.Api.UnitTests/Features/Filters/ValidateExportHeadersFilterAttributeTests.cs:114-129 | a missing connection string is refused even with correct headers and a type |
| ExportGate.UnsupportedDestinationRejected | src/Microsoft.Health.Fhir.Api.UnitTests/Features/Filters/ValidateExportHeadersFilterAttributeTests.cs:131-147 | "Azure" is refused as unsupported under the fixture configuration although headers and parameters are right |
| ExportGate.UnlistedDestinationRejected | src/Microsoft.Health.Fhir.Api.UnitTests/Features/Filters/ValidateExportHeadersFilterAttributeTests.cs:131-147 | any type outside the allow-list is refused, whatever the headers |
| JobStores.UpsertAck | src/Microsoft.Health.Fhir.Core.UnitTests/Features/Export/CreateExportRequestHandlerTests.cs:41-53 | the store acknowledges Created exactly when it is working and the id is new; a failing store answers its own code |
| JobStores.AfterUpsert | src/Microsoft.Health.Fhir.Core.UnitTests/Features/Export/CreateExportRequestHandlerTests.cs:41-53 | a Created acknowledgement adds exactly the written record under its new id; any other leaves the records as they were; no record is lost |
| JobStores.Find | src/Microsoft.Health.Fhir.Api/Controllers/ExportController.cs:139-143 | a look-up finds exactly the ids that are stored, with their records |
| JobStores.AfterUpsertWellFormed | src/Microsoft.Health.Fhir.Core.UnitTests/Features/Export/CreateExportRequestHandlerTests.cs:41-44 | upserting a well-formed record keeps every record filed under its own id |
| JobStores.JobStore.Upsert | src/Microsoft.Health.Fhir.Core.UnitTests/Features/Export/CreateExportRequestHandlerTests.cs:41-53 | returns the acknowledgement and leaves exactly the records AfterUpsert gives |
| JobStores.JobStore.Lookup | src/Microsoft.Health.Fhir.Api/Controllers/ExportController.cs:139-143 | returns the stored record for the id, which carries that id, or None |
| ExportHandlers.JobRecordFor | src/Microsoft.Health.Fhir.Core.UnitTests/Features/Export/CreateExportRequestHandlerTests.cs:41-44 | the persisted record carries the command's URI, destination type and connection string, the new id, state Running and no result |
| ExportHandlers.CreateExport | src/Microsoft.Health.Fhir.Core.UnitTests/Features/Export/CreateExportRequestHandlerTests.cs:38-58 | reports JobCreated exactly when the store acknowledges Created, with the new id, and persists the record only then; it takes no configuration, so it does no destination check |
| ExportHandlers.ExportAsyncResult | src/Microsoft.Health.Fhir.Core.UnitTests/Features/Export/CreateExportRequestHandlerTests.cs:44-57 | a refused command argument is reported as such; otherwise the job is created exactly when the store is working and the id is new |
| ExportHandlers.ExportAsync | src/Microsoft.Health.Fhir.Api/Controllers/ExportController.cs:88 | answers what ExportAsyncResult says and changes the store only through the handler's upsert |
| ExportHandlers.StatusResponseFor | src/Microsoft.Health.Fhir.Api/Controllers/ExportController.cs:139-149 | the job exists exactly when a record was found; status OK exactly for a completed job, with its result; Accepted with no result otherwise |
| ExportHandlers.GetExportStatus | src/Microsoft.Health.Fhir.Api/Controllers/ExportController.cs:139 | answers StatusResponseFor of the stored record and changes nothing |
| ExportHandlers.SavingJobSucceeds | src/Microsoft.Health.Fhir.Core.UnitTests/Features/Export/CreateExportRequestHandlerTests.cs:38-47 | with a store acknowledging Created, the arbitrary type "destinationType" still gives a created job |
| ExportHandlers.SavingJobFails | src/Microsoft.Health.Fhir.Core.UnitTests/Features/Export/CreateExportRequestHandlerTests.cs:49-58 | the same inputs against a store acknowledging BadRequest give JobCreated = false |
| ExportController.ContentLocation | src/Microsoft.Health.Fhir.Api/Controllers/ExportController.cs:99 | the location for any id, even an empty one, is neither empty nor whitespace only |
| ExportController.NewOperationResult | src/Microsoft.Health.Fhir.Api/Controllers/ExportController.cs:95 | a fresh OperationResult carries the given body and no location or content-type header, which the actions then set step by step |
| ExportController.JobIdOfLocation | test/Microsoft.Health.Fhir.Tests.E2E/Rest/ExportTests.cs:111-118 | any id read from a location is the id that location was built from |
| ExportController.LocationRoundTrip | test/Microsoft.Health.Fhir.Tests.E2E/Rest/ExportTests.cs:111-119 | the location given for a job is parsed back to that job's id |
| ExportController.ContentLocationInjective | src/Microsoft.Health.Fhir.Api/Controllers/ExportController.cs:99 | distinct jobs get distinct locations |
| ExportController.CheckIfExportIsEnabledAndRespond | src/Microsoft.Health.Fhir.Api/Controllers/ExportController.cs:168-176 | never a result: OperationNotImplemented exactly when enabled, RequestNotValid(UnsupportedOperation) exactly when disabled |
| ExportController.EnabledAndDisabledAnswersDiffer | src/Microsoft.Health.Fhir.Api/Controllers/ExportController.cs:168-176 | the enabled and disabled answers differ, as 501 and 400 |
| ExportController.ExportResourceType | src/Microsoft.Health.Fhir.Api/Controllers/ExportController.cs:106-117 | any type other than exactly "Patient" is RequestNotValid naming it; OperationNotImplemented exactly for "Patient" with export enabled |
| ExportController.IsNullOrEmpty | src/Microsoft.Health.Fhir.Api/Controllers/ExportController.cs:126 | holds exactly for null or the empty string; it implies IsNullOrWhiteSpace, and a blank non-empty id such as " " does not satisfy it |
| ExportController.ExportResourceTypeById | src/Microsoft.Health.Fhir.Api/Controllers/ExportController.cs:121-132 | a type other than exactly "Group", or a null or empty id, is RequestNotValid; OperationNotImplemented exactly for "Group", a non-empty id and export enabled |
| ExportController.AcceptedAt | src/Microsoft.Health.Fhir.Api/Controllers/ExportController.cs:95-101 | a created job is answered 202 with no body and a Content-Location that leads back to the job |
| ExportController.ExportResult | src/Microsoft.Health.Fhir.Api/Controllers/ExportController.cs:79-102 | disabled is RequestNotValid; success exactly when enabled, the command is accepted and the store takes the job, answered with AcceptedAt; a command the constructor refuses is InvalidArgument with the constructor's error; JobNotCreated exactly when the store refuses an accepted command |
| ExportController.JobsAfterExport | src/Microsoft.Health.Fhir.Api/Controllers/ExportController.cs:83-93 | records change only when Export succeeds, by one new Running record under the new id carrying the request's parameters; every existing record keeps its value |
| ExportController.Export | src/Microsoft.Health.Fhir.Api/Controllers/ExportController.cs:75-102 | answers ExportResult and leaves the records JobsAfterExport gives |
| ExportController.StatusResult | src/Microsoft.Health.Fhir.Api/Controllers/ExportController.cs:141-161 | JobNotFound exactly when the job does not exist; 200 with the job result and the export content type for status OK; otherwise 202 with no body; never a location |
| ExportController.GetExportStatusById | src/Microsoft.Health.Fhir.Api/Controllers/ExportController.cs:135-162 | JobNotFound exactly for an unknown id; 200 with result for a completed job; bare 202 for a running or failed one |
| ExportController.GetExportStatusByIdMatchesStatusResult | src/Microsoft.Health.Fhir.Api/Controllers/ExportController.cs:139-161 | StatusResult over the store's record gives the same three cases |
| ExportPipeline.Respond | src/Microsoft.Health.Fhir.Api/Controllers/ExportController.cs:75-162 | the gate guards the three export routes and not the poll; a refused request is 400 with no change; disabled means 400 on every export route and no change; records change only by $export adding one Running job that carries the request's URI and destination, answered with its location, and conversely an admitted $export on an enabled server with non-blank parameters, a working store and a fresh id is answered 202 at its location and adds exactly that job; no existing record is changed or dropped; scoped routes end in 400 or 501; polls read only and give 200, 202 or 404 |
| ExportPipeline.GateApplies | src/Microsoft.Health.Fhir.Api/Controllers/ExportController.cs:75-137 | the gate is attached exactly to $export, <type>/$export and <type>/<id>/$export (lines 77, 106, 121) and not to the status poll (lines 135-137) |
| ExportPipeline.ErrorResponse | test/Microsoft.Health.Fhir.Tests.E2E/Rest/ExportTests.cs:33-162 | a thrown failure is answered with its StatusOf code and no location, content type or body |
| ExportPipeline.ToResponse | src/Microsoft.Health.Fhir.Api/Controllers/ExportController.cs:75-162 | a failed action is answered with an error status (400 or above) and no location, content type or body; any answer below 400 is the action's own successful result, unchanged |
| ExportPipeline.Handle | src/Microsoft.Health.Fhir.Api/Controllers/ExportController.cs:75-162 | answers and updates the store exactly as Respond says |
| ExportPipeline.ScopedExportsNotImplemented | test/Microsoft.Health.Fhir.Tests.E2E/Rest/ExportTests.cs:33-43 | Patient/$export and Group/id/$export answer 501 with correct headers on an enabled server |
| ExportPipeline.ExportAccepted | test/Microsoft.Health.Fhir.Tests.E2E/Rest/ExportTests.cs:45-56 | a correct $export answers 202 with a Content-Location that is neither null nor whitespace only and creates a Running job |
| ExportPipeline.BadDestinationParametersRejected | test/Microsoft.Health.Fhir.Tests.E2E/Rest/ExportTests.cs:58-99 | a missing connection parameter, a missing type parameter or an unsupported type each answer 400 |
| ExportPipeline.CreateThenPollAccepted | test/Microsoft.Health.Fhir.Tests.E2E/Rest/ExportTests.cs:101-120 | polling the location a fresh create returned, with no headers, answers 202 |
| ExportPipeline.UnknownJobNotFound | test/Microsoft.Health.Fhir.Tests.E2E/Rest/ExportTests.cs:122-134 | polling an id never created answers 404 |
| ExportPipeline.InvalidAcceptBadRequest | test/Microsoft.Health.Fhir.Tests.E2E/Rest/ExportTests.cs:136-148 | Accept application/json, applicaiton/xml, */*, empty or absent answers 400 and changes nothing |
| ExportPipeline.InvalidPreferBadRequest | test/Microsoft.Health.Fhir.Tests.E2E/Rest/ExportTests.cs:150-162 | Prefer `respond-async, wait=10`, respond-status, *, empty or absent answers 400 and changes nothing |
| ExportPipeline.PollIgnoresHeaders | src/Microsoft.Health.Fhir.Api/Controllers/ExportController.cs:135-137 | the status poll has no gate: its answer does not depend on Accept, Prefer or query parameters |

## Left out

- Authorization, audit logging and the exception-filter plumbing are left out. Only their observable result, the status each failure is answered with, is modelled (`Failures.StatusOf`). The 500 for JobNotCreated and for a refused constructor argument is the server-fault answer; no test shows it.
- MediatR dispatch, dependency injection and `IOptions` are replaced by direct calls and an explicit configuration value.
- `async`/`Task` are left out. Create and status reads are ordinary methods on the store.
- URL construction by the URL resolver is left out. The location is the relative path `_operations/export/<id>`, not an absolute URL.
- The export engine is left out, so no Running→Completed/Failed transition is modelled. Records in other states can only be given to the store's constructor.
- Concurrency and the store's atomicity are left out. Each request is one atomic step on the store.
- Diagnostic message texts are left out. Only the reason of each refusal is kept.
- Job-id generation (a GUID) is a parameter. The model does not show that generated ids are fresh. A reused id gives Conflict and so JobNotCreated.
- The content type that marks a completed job's body is left out as a string. It is the flag `exportContentType`.
- ServiceUnavailableException.cs carries only a message and has no logic.
- The HL7 `ResourceType` enum is replaced by the literals "Patient" and "Group".
- Query-string encoding and the end-to-end parameter names are left out. The model has the parsed values only.
- The end-to-end server's configuration file is not part of this model. The end-to-end lemmas assume a server that is enabled and supports AzureBlockBlob (`TestServer`).
