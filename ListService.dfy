/**
 * The fetch-service contract: the classified errors a service throws, the
 * display string each one carries, and the outcome of one fetch.
 */
module ListService {
  import opened Wrappers
  import opened Entity

  /**
   * An error from outside the model (an `NSError`, a `URLError`, a
   * cancellation): only its domain, code and localized description are seen.
   */
  datatype ForeignError = ForeignError(domain: string, code: int, localizedDescription: string)

  /** The four classified service errors; two wrap an underlying error. */
  datatype ListServiceError =
    | InvalidURL
    | NetworkError(cause: ForeignError)
    | DecodingError(cause: ForeignError)
    | NoData

  /** Whatever a fetch can throw: a classified service error or any other error. */
  datatype FetchError =
    | ServiceError(error: ListServiceError)
    | OtherError(foreign: ForeignError)

  /** What one awaited fetch resolves to, exactly once. */
  datatype FetchOutcome =
    | Ok(items: seq<ListItemEntity>)
    | Err(error: FetchError)

  const InvalidURLText: string := "Invalid URL configuration"
  const NetworkErrorPrefix: string := "Network error: "
  const DecodingErrorPrefix: string := "Failed to decode data: "
  const NoDataText: string := "No data received from server"

  /**
   * `ListServiceError.errorDescription`: an optional string in Swift, but
   * every case returns one.
   */
  function ErrorDescription(e: ListServiceError): (r: Option<string>)
    ensures r.Some?
    ensures e.InvalidURL? ==> r == Some(InvalidURLText)
    ensures e.NoData? ==> r == Some(NoDataText)
    ensures e.NetworkError? ==>
              && |NetworkErrorPrefix| <= |r.value|
              && r.value[..|NetworkErrorPrefix|] == NetworkErrorPrefix
              && r.value[|NetworkErrorPrefix|..] == e.cause.localizedDescription
    ensures e.DecodingError? ==>
              && |DecodingErrorPrefix| <= |r.value|
              && r.value[..|DecodingErrorPrefix|] == DecodingErrorPrefix
              && r.value[|DecodingErrorPrefix|..] == e.cause.localizedDescription
  {
    match e
    case InvalidURL => Some(InvalidURLText)
    case NetworkError(cause) => Some(NetworkErrorPrefix + cause.localizedDescription)
    case DecodingError(cause) => Some(DecodingErrorPrefix + cause.localizedDescription)
    case NoData => Some(NoDataText)
  }

  /**
   * `error.localizedDescription` of a thrown error: for a `LocalizedError`
   * it is its `errorDescription`, which is never absent here.
   */
  function LocalizedDescription(e: FetchError): (r: string)
    ensures e.ServiceError? ==> Some(r) == ErrorDescription(e.error)
    ensures e.OtherError? ==> r == e.foreign.localizedDescription
  {
    match e
    case ServiceError(err) => ErrorDescription(err).value
    case OtherError(f) => f.localizedDescription
  }

  /**
   * The display string tells the error kinds apart, and for the two
   * wrapping kinds it carries the underlying description intact, so the
   * message in `Error(message)` identifies what went wrong.
   */
  lemma DescriptionIdentifiesError(e1: ListServiceError, e2: ListServiceError)
    requires ErrorDescription(e1) == ErrorDescription(e2)
    ensures e1.InvalidURL? == e2.InvalidURL? && e1.NoData? == e2.NoData?
    ensures e1.NetworkError? == e2.NetworkError? && e1.DecodingError? == e2.DecodingError?
    ensures (e1.NetworkError? || e1.DecodingError?) ==>
              e1.cause.localizedDescription == e2.cause.localizedDescription
  {
    var d1, d2 := ErrorDescription(e1).value, ErrorDescription(e2).value;
    // The first two characters separate the four texts.
    assert d1[0] == d2[0] && d1[1] == d2[1];
    match e1
    case InvalidURL =>
      assert d1[0] == 'I';
    case NetworkError(_) =>
      assert d1[0] == 'N' && d1[1] == 'e';
    case DecodingError(_) =>
      assert d1[0] == 'F';
    case NoData =>
      assert d1[0] == 'N' && d1[1] == 'o';
  }
}
