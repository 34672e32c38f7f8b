/**
 * The export job records and the data store that keeps them. The store is the
 * collaborator the handlers write to and read from; its acknowledgement of a write
 * is an HTTP status code.
 */
module JobStores {
  import opened Wrappers
  import opened Http
  import opened ExportMessages

  /** Job states; transitions out of Running belong to the export engine, which is not modelled. */
  datatype JobStatus = Running | Completed | Failed

  /** The payload a completed job reports. */
  type JobResult = string

  datatype ExportJobRecord = ExportJobRecord(
    id: string,
    requestUri: Uri,
    destinationType: Option<string>,
    destinationConnectionString: Option<string>,
    status: JobStatus,
    result: Option<JobResult>)

  /** A record whose result is set only once it has completed. */
  predicate WellFormedRecord(record: ExportJobRecord) {
    record.result.Some? ==> record.status == Completed
  }

  /** Every record is filed under its own id and is well formed. */
  ghost predicate WellFormedJobs(jobs: map<string, ExportJobRecord>) {
    forall id :: id in jobs ==> jobs[id].id == id && WellFormedRecord(jobs[id])
  }

  /** A store fault never claims to have created anything. */
  predicate ValidFault(failWith: Option<HttpStatus>) { failWith != Some(Created) }

  /**
   * The acknowledgement of an upsert: the injected fault if the store is failing,
   * Conflict when the id is taken, Created otherwise.
   */
  function UpsertAck(jobs: map<string, ExportJobRecord>, failWith: Option<HttpStatus>, id: string): (ack: HttpStatus)
    requires ValidFault(failWith)
    ensures ack == Created <==> failWith.None? && id !in jobs
    ensures failWith.Some? ==> ack == failWith.value
  {
    if failWith.Some? then failWith.value
    else if id in jobs then Conflict
    else Created
  }

  /** The records after an upsert: the record is added when, and only when, the store acknowledges Created. */
  function AfterUpsert(jobs: map<string, ExportJobRecord>, failWith: Option<HttpStatus>, record: ExportJobRecord): (m: map<string, ExportJobRecord>)
    requires ValidFault(failWith)
    ensures UpsertAck(jobs, failWith, record.id) == Created ==>
      m.Keys == jobs.Keys + {record.id} && m[record.id] == record && record.id !in jobs
    ensures UpsertAck(jobs, failWith, record.id) != Created ==> m == jobs
    ensures forall id :: id in jobs ==> id in m && m[id] == jobs[id]
  {
    if UpsertAck(jobs, failWith, record.id) == Created then jobs[record.id := record] else jobs
  }

  /** A look-up by id. */
  function Find(jobs: map<string, ExportJobRecord>, id: string): (r: Option<ExportJobRecord>)
    ensures r.Some? <==> id in jobs
    ensures r.Some? ==> r.value == jobs[id]
  {
    if id in jobs then Some(jobs[id]) else None
  }

  /** Adding a well-formed record under its id keeps the store well formed. */
  lemma AfterUpsertWellFormed(jobs: map<string, ExportJobRecord>, failWith: Option<HttpStatus>, record: ExportJobRecord)
    requires ValidFault(failWith) && WellFormedJobs(jobs) && WellFormedRecord(record)
    ensures WellFormedJobs(AfterUpsert(jobs, failWith, record))
  {
  }

  class JobStore {
    /** The persisted records, keyed by job id. */
    var jobs: map<string, ExportJobRecord>
    /** The acknowledgement a failing store gives every write; `None` for a store that works. */
    const failWith: Option<HttpStatus>

    ghost predicate Valid()
      reads this
    {
      WellFormedJobs(jobs) && ValidFault(failWith)
    }

    /** A store holding `existing`, for instance records the export engine has already moved on. */
    constructor (existing: map<string, ExportJobRecord>, failWith: Option<HttpStatus>)
      requires WellFormedJobs(existing) && ValidFault(failWith)
      ensures Valid()
      ensures jobs == existing && this.failWith == failWith
    {
      jobs := existing;
      this.failWith := failWith;
    }

    /** UpsertExportJobAsync: writes the record or nothing, and says which. */
    method Upsert(record: ExportJobRecord) returns (ack: HttpStatus)
      requires Valid() && WellFormedRecord(record)
      modifies this
      ensures Valid()
      ensures ack == UpsertAck(old(jobs), failWith, record.id)
      ensures jobs == AfterUpsert(old(jobs), failWith, record)
    {
      AfterUpsertWellFormed(jobs, failWith, record);
      if failWith.Some? {
        ack := failWith.value;
      } else if record.id in jobs {
        ack := Conflict;
      } else {
        jobs := jobs[record.id := record];
        ack := Created;
      }
    }

    /** The record filed under `id`, if any. */
    method Lookup(id: string) returns (r: Option<ExportJobRecord>)
      requires Valid()
      ensures r == Find(jobs, id)
      ensures r.Some? ==> r.value.id == id && WellFormedRecord(r.value)
    {
      if id in jobs {
        r := Some(jobs[id]);
      } else {
        r := None;
      }
    }
  }
}
