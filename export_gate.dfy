/**
 * The header-and-destination gate that runs before every export route: a pure
 * predicate over the Accept and Prefer header values, the two destination query
 * parameters and the export configuration. A header is the sequence of its values,
 * so `[]` is an absent header.
 */
module ExportGate {
  import opened Wrappers
  import opened Configs
  import opened Failures

  /** The FHIR JSON media type (the Hl7 library's JSON content header). */
  const FhirJsonContentType := "application/fhir+json"

  /** The `respond-async` preference of section 4.1 of RFC 7240. */
  const RespondAsync := "respond-async"

  /** What an admitted request carries on to the handler. */
  datatype Validated = Validated(destinationType: string, destinationConnectionString: string)

  /** Present exactly once and equal to the canonical JSON media type. */
  predicate AcceptValid(accept: seq<string>) { accept == [FhirJsonContentType] }

  /** Present exactly once and equal to `respond-async`, with no further preferences. */
  predicate PreferValid(prefer: seq<string>) { prefer == [RespondAsync] }

  /** A query parameter that is given and not empty. */
  predicate Present(parameter: Option<string>) { parameter.Some? && parameter.value != "" }

  /**
   * The gate. The checks run in the order Accept, Prefer, destination type,
   * connection string, destination support; the first that fails names the reason.
   */
  function Admit(accept: seq<string>, prefer: seq<string>, destinationType: Option<string>,
                 destinationConnectionString: Option<string>, config: ExportConfiguration): (r: Result<Validated, Failure>)
    ensures r.Success? <==>
      && AcceptValid(accept) && PreferValid(prefer)
      && Present(destinationType) && Present(destinationConnectionString)
      && destinationType.value in config.supportedDestinations
    ensures r.Success? ==>
      r.value == Validated(destinationType.value, destinationConnectionString.value)
    ensures r.Failure? ==> r.error.RequestNotValid?
    ensures !AcceptValid(accept) ==> r == Failure(RequestNotValid(InvalidAcceptHeader))
    ensures AcceptValid(accept) && !PreferValid(prefer) ==> r == Failure(RequestNotValid(InvalidPreferHeader))
  {
    if !AcceptValid(accept) then Failure(RequestNotValid(InvalidAcceptHeader))
    else if !PreferValid(prefer) then Failure(RequestNotValid(InvalidPreferHeader))
    else if !Present(destinationType) then Failure(RequestNotValid(MissingDestinationType))
    else if !Present(destinationConnectionString) then Failure(RequestNotValid(MissingDestinationConnectionString))
    else if destinationType.value !in config.supportedDestinations then
      Failure(RequestNotValid(UnsupportedDestinationType(destinationType.value)))
    else Success(Validated(destinationType.value, destinationConnectionString.value))
  }

  // ----- The unit tests of the filter, stated for all inputs they leave open -----

  /** The supported destination of the test fixture. */
  const FixtureDestinationType := "AnySupportedDestinationType"

  /** The test fixture's configuration: enabled, with one supported destination. */
  function FixtureConfig(): (c: ExportConfiguration)
    ensures c.enabled && FixtureDestinationType in c.supportedDestinations
  {
    ExportConfiguration(true, {FixtureDestinationType})
  }

  /** XML media types, plain JSON and the wildcard are refused, whatever else the request holds. */
  lemma InvalidAcceptRejected(accept: string, prefer: seq<string>, destinationType: Option<string>,
                              destinationConnectionString: Option<string>, config: ExportConfiguration)
    requires accept in ["application/fhir+xml", "application/xml", "text/xml", "application/json", "*/*"]
    ensures Admit([accept], prefer, destinationType, destinationConnectionString, config)
            == Failure(RequestNotValid(InvalidAcceptHeader))
  {
  }

  /** A request without an Accept header is refused. */
  lemma MissingAcceptRejected(prefer: seq<string>, destinationType: Option<string>,
                              destinationConnectionString: Option<string>, config: ExportConfiguration)
    ensures Admit([], prefer, destinationType, destinationConnectionString, config)
            == Failure(RequestNotValid(InvalidAcceptHeader))
  {
  }

  /**
   * A wait preference, another handling preference or the wildcard are refused
   * whatever the Accept header (the test sends none), and as an invalid Prefer when Accept is right.
   */
  lemma InvalidPreferRejected(accept: seq<string>, prefer: string, destinationType: Option<string>,
                              destinationConnectionString: Option<string>, config: ExportConfiguration)
    requires prefer in ["respond-async, wait = 10", "return-content", "*"]
    ensures Admit(accept, [prefer], destinationType, destinationConnectionString, config).Failure?
    ensures Admit(accept, [prefer], destinationType, destinationConnectionString, config).error.RequestNotValid?
    ensures Admit([FhirJsonContentType], [prefer], destinationType, destinationConnectionString, config)
            == Failure(RequestNotValid(InvalidPreferHeader))
  {
  }

  /** A request without a Prefer header is refused. */
  lemma MissingPreferRejected(accept: seq<string>, destinationType: Option<string>,
                              destinationConnectionString: Option<string>, config: ExportConfiguration)
    ensures Admit(accept, [], destinationType, destinationConnectionString, config).Failure?
  {
  }

  /** The fixture's request with both correct headers goes through. */
  lemma FixtureRequestAdmitted()
    ensures Admit([FhirJsonContentType], [RespondAsync], Some(FixtureDestinationType), Some("connectionString"), FixtureConfig())
            == Success(Validated(FixtureDestinationType, "connectionString"))
  {
  }

  /** Correct headers, a supported destination type and a connection string are enough, whatever the toggle says. */
  lemma CorrectRequestAdmitted(destinationType: string, destinationConnectionString: string, config: ExportConfiguration)
    requires destinationType in config.supportedDestinations && destinationType != ""
    requires destinationConnectionString != ""
    ensures Admit([FhirJsonContentType], [RespondAsync], Some(destinationType), Some(destinationConnectionString), config)
            == Success(Validated(destinationType, destinationConnectionString))
  {
  }

  /** A missing destination type is refused even with correct headers. */
  lemma MissingDestinationTypeRejected(destinationConnectionString: Option<string>, config: ExportConfiguration)
    ensures Admit([FhirJsonContentType], [RespondAsync], None, destinationConnectionString, config)
            == Failure(RequestNotValid(MissingDestinationType))
  {
  }

  /** A missing connection string is refused even with correct headers and a supported type. */
  lemma MissingConnectionStringRejected(destinationType: Option<string>, config: ExportConfiguration)
    requires Present(destinationType)
    ensures Admit([FhirJsonContentType], [RespondAsync], destinationType, None, config)
            == Failure(RequestNotValid(MissingDestinationConnectionString))
  {
  }

  /** "Azure" is not the fixture's destination, so it is refused although everything else is right. */
  lemma UnsupportedDestinationRejected()
    ensures Admit([FhirJsonContentType], [RespondAsync], Some("Azure"), Some("destination"), FixtureConfig())
            == Failure(RequestNotValid(UnsupportedDestinationType("Azure")))
  {
  }

  /** Destination types are matched exactly: a type that differs from every supported one is refused. */
  lemma UnlistedDestinationRejected(accept: seq<string>, prefer: seq<string>, destinationType: string,
                                    destinationConnectionString: Option<string>, config: ExportConfiguration)
    requires destinationType !in config.supportedDestinations
    ensures Admit(accept, prefer, Some(destinationType), destinationConnectionString, config).Failure?
  {
  }
}
