/**
 * The create-export command. Its two public constructors check their arguments
 * the way the EnsureThat guards do: a null argument is an ArgumentNull failure, an
 * empty or whitespace-only string an ArgumentEmptyOrWhiteSpace failure. Datatype
 * values are immutable, which is what the private setters of the command give.
 */
module ExportMessages {
  import opened Wrappers

  type Uri = string

  /** The guard failures, naming the parameter that was refused. */
  datatype ArgumentError =
    | ArgumentNull(paramName: string)
    | ArgumentEmptyOrWhiteSpace(paramName: string)

  /** A constructed command; the destination fields are `None` when the one-argument constructor made it. */
  datatype CreateExportRequest = CreateExportRequest(
    requestUri: Uri,
    destinationType: Option<string>,
    destinationConnectionString: Option<string>)

  /** The characters .NET's char.IsWhiteSpace accepts (Unicode Zs, Zl, Zp and the C0/C1 controls it lists). */
  predicate IsWhiteSpaceChar(c: char) {
    || c == ' ' || c == '\t' || c == '\n' || c == '\U{B}' || c == '\U{C}' || c == '\r'
    || c == '\U{85}' || c == '\U{A0}' || c == '\U{1680}'
    || ('\U{2000}' <= c <= '\U{200A}')
    || c == '\U{2028}' || c == '\U{2029}' || c == '\U{202F}' || c == '\U{205F}' || c == '\U{3000}'
  }

  /** True when every character of `s` is whitespace (so also for the empty string). */
  function AllWhiteSpace(s: string): (r: bool)
    ensures r <==> forall i :: 0 <= i < |s| ==> IsWhiteSpaceChar(s[i])
  {
    if s == [] then true
    else IsWhiteSpaceChar(s[0]) && AllWhiteSpace(s[1..])
  }

  /** string.IsNullOrWhiteSpace. */
  predicate IsNullOrWhiteSpace(s: Option<string>)
    ensures IsNullOrWhiteSpace(s) <==> s.None? || forall i :: 0 <= i < |s.value| ==> IsWhiteSpaceChar(s.value[i])
    ensures s == Some("") ==> IsNullOrWhiteSpace(s)
  {
    s.None? || AllWhiteSpace(s.value)
  }

  /** The one-argument constructor: only the URI, no destination. */
  function FromUri(requestUri: Option<Uri>): (r: Result<CreateExportRequest, ArgumentError>)
    ensures r.Failure? <==> requestUri.None?
    ensures r.Failure? ==> r.error == ArgumentNull("requestUri")
    ensures r.Success? ==> r.value.requestUri == requestUri.value
    ensures r.Success? ==> r.value.destinationType.None? && r.value.destinationConnectionString.None?
  {
    if requestUri.None? then Failure(ArgumentNull("requestUri"))
    else Success(CreateExportRequest(requestUri.value, None, None))
  }

  /** The guard EnsureArg.IsNotNullOrWhiteSpace applies to one string argument. */
  function CheckNotNullOrWhiteSpace(s: Option<string>, paramName: string): (r: Option<ArgumentError>)
    ensures r.None? <==> !IsNullOrWhiteSpace(s)
    ensures s.None? ==> r == Some(ArgumentNull(paramName))
    ensures s.Some? && AllWhiteSpace(s.value) ==> r == Some(ArgumentEmptyOrWhiteSpace(paramName))
  {
    if s.None? then Some(ArgumentNull(paramName))
    else if AllWhiteSpace(s.value) then Some(ArgumentEmptyOrWhiteSpace(paramName))
    else None
  }

  /**
   * The three-argument constructor. The guards run in order: URI, destination type,
   * connection string; the first that fails is the one reported.
   */
  function FromUriAndDestination(requestUri: Option<Uri>, destinationType: Option<string>,
                                 destinationConnectionString: Option<string>): (r: Result<CreateExportRequest, ArgumentError>)
    ensures r.Success? <==>
      requestUri.Some? && !IsNullOrWhiteSpace(destinationType) && !IsNullOrWhiteSpace(destinationConnectionString)
    ensures requestUri.None? ==> r == Failure(ArgumentNull("requestUri"))
    ensures requestUri.Some? && IsNullOrWhiteSpace(destinationType) ==>
      r == Failure(CheckNotNullOrWhiteSpace(destinationType, "destinationType").value)
    ensures requestUri.Some? && !IsNullOrWhiteSpace(destinationType) && IsNullOrWhiteSpace(destinationConnectionString) ==>
      r == Failure(CheckNotNullOrWhiteSpace(destinationConnectionString, "destinationConnectionString").value)
    ensures r.Success? ==>
      r.value == CreateExportRequest(requestUri.value, destinationType, destinationConnectionString)
  {
    if requestUri.None? then Failure(ArgumentNull("requestUri"))
    else match CheckNotNullOrWhiteSpace(destinationType, "destinationType")
      case Some(e) => Failure(e)
      case None =>
        match CheckNotNullOrWhiteSpace(destinationConnectionString, "destinationConnectionString")
        case Some(e) => Failure(e)
        case None => Success(CreateExportRequest(requestUri.value, destinationType, destinationConnectionString))
  }

  /** A request made by either constructor has both destination fields or neither, and each is not blank. */
  ghost predicate WellFormed(request: CreateExportRequest) {
    && request.destinationType.Some? == request.destinationConnectionString.Some?
    && (request.destinationType.Some? ==> !IsNullOrWhiteSpace(request.destinationType))
    && (request.destinationConnectionString.Some? ==> !IsNullOrWhiteSpace(request.destinationConnectionString))
  }

  /** Every successful construction is well formed. */
  lemma ConstructorsAreWellFormed(uri: Option<Uri>, destinationType: Option<string>, destinationConnectionString: Option<string>)
    ensures FromUri(uri).Success? ==> WellFormed(FromUri(uri).value)
    ensures FromUriAndDestination(uri, destinationType, destinationConnectionString).Success? ==>
      WellFormed(FromUriAndDestination(uri, destinationType, destinationConnectionString).value)
  {
  }
}
