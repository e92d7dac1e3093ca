/**
 * The transport response of an asset upload and its classification into an
 * `AssetTransportError` (UserImageAssetUpdateStrategy.swift, lines 22-37).
 */
module AssetErrors {
  import opened Wrappers

  /** The session-level error a response may carry (an `NSError`: domain and code). */
  datatype SessionError = SessionError(domain: string, code: int)

  /** `ZMTransportResponseStatus`: how the transport session judged the response. */
  datatype ResponseResult = Success | TemporaryError | PermanentError | TryAgainLater | Expired

  /** A value of the JSON payload dictionary: only strings are inspected here. */
  datatype PayloadValue = Text(text: string) | NonText

  /**
   * The parts of a `ZMTransportResponse` this code looks at. `payload` is `None`
   * when the body is not a JSON dictionary.
   */
  datatype TransportResponse = TransportResponse(
    result: ResponseResult,
    httpStatus: int,
    payload: Option<map<string, PayloadValue>>,
    transportSessionError: Option<SessionError>)

  /** The string stored under `key` in the payload dictionary, if there is one. */
  function PayloadString(response: TransportResponse, key: string): (r: Option<string>)
    ensures r.Some? <==> response.payload.Some? && key in response.payload.value
                         && response.payload.value[key].Text?
    ensures r.Some? ==> response.payload.value[key] == Text(r.value)
  {
    match response.payload
    case None => None
    case Some(dict) =>
      if key in dict && dict[key].Text? then Some(dict[key].text) else None
  }

  /** `payloadLabel()`: the backend's error label. */
  function PayloadLabel(response: TransportResponse): Option<string> {
    PayloadString(response, "label")
  }

  datatype AssetTransportError = InvalidLength | AssetTooLarge | Other(sessionError: Option<SessionError>)

  /** `AssetTransportError.init(response:)`: a switch on (status code, label). */
  function Classify(response: TransportResponse): (e: AssetTransportError)
    ensures e == InvalidLength <==>
              response.httpStatus == 400 && PayloadLabel(response) == Some("invalid-length")
    ensures e == AssetTooLarge <==>
              response.httpStatus == 413 && PayloadLabel(response) == Some("client-error")
    ensures e.Other? ==> e.sessionError == response.transportSessionError
  {
    match (response.httpStatus, PayloadLabel(response))
    case (400, Some("invalid-length")) => InvalidLength
    case (413, Some("client-error")) => AssetTooLarge
    case _ => Other(response.transportSessionError)
  }

  /** A 400 whose label is anything but "invalid-length" falls through to `other`. */
  lemma Other400(response: TransportResponse)
    requires response.httpStatus == 400 && PayloadLabel(response) != Some("invalid-length")
    ensures Classify(response) == Other(response.transportSessionError)
  {
  }
}
