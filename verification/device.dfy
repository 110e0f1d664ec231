/**
 * Device control (backEnd.py): `send_device_request` and the two control
 * routes.  The HTTP transport is not modelled; what the `requests` call did
 * is an injected `Transport` outcome, and a route receives the transport as
 * a function from URL to outcome, so that "no request was made" is visible
 * in the result.
 */
module DeviceControl {
  import opened Wrappers
  import opened Decimal

  const DeviceIp := "172.20.10.3"

  /** What `requests.get(url, timeout=5)` did. */
  datatype Transport =
    | Responded(status: int, httpErrorText: string) // a response arrived; `raise_for_status` decides
    | TimedOut                                      // `requests.exceptions.Timeout`
    | ConnectionFailed(detail: string)              // `requests.exceptions.ConnectionError`
    | RequestFailed(responseStatus: Option<int>, detail: string) // any other `RequestException`
    | Unexpected(detail: string)                    // any other exception

  /** The tri-state result `(success, status_code, error_message)`. */
  datatype DeviceReply = DeviceReply(success: bool, statusCode: Option<int>, errorMessage: Option<string>)

  /** `raise_for_status` raises for a client (4xx) or server (5xx) error status. */
  predicate IsHttpError(code: int) {
    400 <= code < 600
  }

  /** The words a failure message opens with, before the URL: they name the kind of failure. */
  function FailureLead(t: Transport): string {
    match t
    case TimedOut => "Request timed out for "
    case ConnectionFailed(_) => "Connection refused or failed for "
    case Unexpected(_) => "An unexpected error occurred sending request to "
    case _ => "Failed to send request to "
  }

  /**
   * `send_device_request(url)`: success exactly for a response with a
   * non-error status; every failure carries a message that opens with the
   * kind of failure followed by the URL.
   */
  function SendDeviceRequest(url: string, t: Transport): (r: DeviceReply)
    ensures r.success <==> t.Responded? && !IsHttpError(t.status)
    ensures r.success ==> r.statusCode == Some(t.status) && r.errorMessage.None?
    ensures !r.success ==> r.errorMessage.Some?
    ensures !r.success ==>
      var lead := FailureLead(t);
      |r.errorMessage.value| >= |lead| + |url| && r.errorMessage.value[..|lead| + |url|] == lead + url
    ensures !r.success ==> (r.statusCode.Some? <==> (t.Responded? || (t.RequestFailed? && t.responseStatus.Some?)))
    ensures !r.success && t.Responded? ==> r.statusCode == Some(t.status)
    ensures !r.success && t.RequestFailed? ==> r.statusCode == t.responseStatus
  {
    match t
    case Responded(code, text) =>
      if IsHttpError(code) then
        DeviceReply(false, Some(code), Some("Failed to send request to " + url + ": " + text))
      else
        DeviceReply(true, Some(code), None)
    case TimedOut =>
      DeviceReply(false, None, Some("Request timed out for " + url))
    case ConnectionFailed(detail) =>
      DeviceReply(false, None, Some("Connection refused or failed for " + url + ". Is device online? " + detail))
    case RequestFailed(code, detail) =>
      DeviceReply(false, code, Some("Failed to send request to " + url + ": " + detail))
    case Unexpected(detail) =>
      DeviceReply(false, None, Some("An unexpected error occurred sending request to " + url + ": " + detail))
  }

  /** A route's JSON body `{status, message}`, its HTTP status, and the device URL it requested, if any. */
  datatype RouteReply = RouteReply(httpStatus: int, status: string, message: string, deviceRequest: Option<string>)

  /** Python's `status_code or 500`. */
  function FailureStatus(code: Option<int>): (s: int)
    ensures s != 0
    ensures code.Some? && code.value != 0 ==> s == code.value
    ensures code.None? || code.value == 0 ==> s == 500
  {
    if code.Some? && code.value != 0 then code.value else 500
  }

  const LedUrlPrefix := "http://" + DeviceIp + "/led/"
  const ServoUrlPrefix := "http://" + DeviceIp + "/servo?angle="

  /** The device URL of an LED state, or `None` for a state the route refuses. */
  function LedUrl(state: string): (url: Option<string>)
    ensures url.Some? <==> state == "on" || state == "off"
    ensures url.Some? ==> url.value == LedUrlPrefix + state
  {
    if state == "on" then Some("http://" + DeviceIp + "/led/on")
    else if state == "off" then Some("http://" + DeviceIp + "/led/off")
    else None
  }

  /** `POST /control/led/<state>`. */
  function ControlLedRoute(state: string, device: string -> Transport): (r: RouteReply)
    ensures state != "on" && state != "off" ==>
      r == RouteReply(400, "error", "Invalid LED state", None)
    ensures state == "on" || state == "off" ==>
      && r.deviceRequest == Some(LedUrlPrefix + state)
      && (SendDeviceRequest(LedUrlPrefix + state, device(LedUrlPrefix + state)).success
          <==> r.httpStatus == 200 && r.status == "success")
    ensures state == "on" || state == "off" ==>
      var reply := SendDeviceRequest(LedUrlPrefix + state, device(LedUrlPrefix + state));
      !reply.success ==>
        && r.httpStatus == FailureStatus(reply.statusCode) && r.status == "error"
        && r.message == "Failed to control LED: " + reply.errorMessage.value
  {
    match LedUrl(state)
    case None => RouteReply(400, "error", "Invalid LED state", None)
    case Some(url) =>
      var reply := SendDeviceRequest(url, device(url));
      if reply.success then
        RouteReply(200, "success", "LED command '" + state + "' sent.", Some(url))
      else
        RouteReply(FailureStatus(reply.statusCode), "error",
                   "Failed to control LED: " + reply.errorMessage.value, Some(url))
  }

  /** The device URL of a servo angle, or `None` when the angle is missing or outside 0..180. */
  function ServoUrl(angle: Option<int>): (url: Option<string>)
    ensures url.Some? <==> angle.Some? && 0 <= angle.value <= 180
  {
    if angle.None? || !(0 <= angle.value <= 180) then None
    else Some(ServoUrlPrefix + NatToString(angle.value))
  }

  /** `POST /control/servo?angle=<int>`; `angle` is `request.args.get('angle', type=int)`. */
  function ControlServoRoute(angle: Option<int>, device: string -> Transport): (r: RouteReply)
    ensures angle.None? || angle.value < 0 || angle.value > 180 ==>
      r == RouteReply(400, "error", "Invalid or missing angle parameter (0-180 required)", None)
    ensures angle.Some? && 0 <= angle.value <= 180 ==>
      && r.deviceRequest == ServoUrl(angle)
      && (SendDeviceRequest(ServoUrl(angle).value, device(ServoUrl(angle).value)).success
          <==> r.httpStatus == 200 && r.status == "success")
    ensures angle.Some? && 0 <= angle.value <= 180 ==>
      var reply := SendDeviceRequest(ServoUrl(angle).value, device(ServoUrl(angle).value));
      !reply.success ==>
        && r.httpStatus == FailureStatus(reply.statusCode) && r.status == "error"
        && r.message == "Failed to control servo: " + reply.errorMessage.value
  {
    match ServoUrl(angle)
    case None => RouteReply(400, "error", "Invalid or missing angle parameter (0-180 required)", None)
    case Some(url) =>
      var reply := SendDeviceRequest(url, device(url));
      if reply.success then
        RouteReply(200, "success", "Servo command sent (angle=" + NatToString(angle.value) + ").", Some(url))
      else
        RouteReply(FailureStatus(reply.statusCode), "error",
                   "Failed to control servo: " + reply.errorMessage.value, Some(url))
  }

  /**
   * The HTTP status a route answers after a failed device request, in terms
   * of what the device did: the device's own error status when it responded
   * with one, the status carried by any other request exception when there is
   * a non-zero one, and 500 after a timeout, a failed connection or an
   * unexpected error.  It is never the success status 200 when the device responded.
   */
  lemma RouteFailureStatus(url: string, t: Transport)
    requires !SendDeviceRequest(url, t).success
    ensures var status := FailureStatus(SendDeviceRequest(url, t).statusCode);
      && (t.Responded? ==> status == t.status && IsHttpError(status))
      && (t.TimedOut? || t.ConnectionFailed? || t.Unexpected? ==> status == 500)
      && (t.RequestFailed? && t.responseStatus.Some? && t.responseStatus.value != 0 ==> status == t.responseStatus.value)
      && (t.RequestFailed? && (t.responseStatus.None? || t.responseStatus.value == 0) ==> status == 500)
  {
    var r := SendDeviceRequest(url, t);
    if t.Responded? {
      assert r.statusCode == Some(t.status) && t.status != 0;
    }
  }

  /** The angle in a servo URL reads back as the requested angle. */
  lemma ServoUrlCarriesAngle(angle: int)
    requires 0 <= angle <= 180
    ensures var url := ServoUrl(Some(angle)).value;
      && url[..|ServoUrlPrefix|] == ServoUrlPrefix
      && ParseNat(url[|ServoUrlPrefix|..]) == Some(angle)
  {
    var url := ServoUrl(Some(angle)).value;
    assert url[|ServoUrlPrefix|..] == NatToString(angle);
    NatToStringRoundTrip(angle);
  }

  /** Different valid angles are sent to different URLs. */
  lemma ServoUrlInjective(a: int, b: int)
    requires 0 <= a <= 180 && 0 <= b <= 180 && ServoUrl(Some(a)) == ServoUrl(Some(b))
    ensures a == b
  {
    ServoUrlCarriesAngle(a);
    ServoUrlCarriesAngle(b);
  }

  /** The two LED commands go to distinct device endpoints. */
  lemma LedUrlsDistinct()
    ensures LedUrl("on").value == "http://172.20.10.3/led/on"
    ensures LedUrl("off").value == "http://172.20.10.3/led/off"
    ensures LedUrl("on") != LedUrl("off")
  {
    assert LedUrl("on").value[|LedUrlPrefix|..] == "on";
  }

  /** `POST /control/led/up` is refused with 400 before any device request. */
  lemma InvalidLedStateScenario(device: string -> Transport)
    ensures ControlLedRoute("up", device) == RouteReply(400, "error", "Invalid LED state", None)
  {
  }

  /** Angles -1 and 181 are refused with 400 before any device request. */
  lemma OutOfRangeAngleScenario(device: string -> Transport)
    ensures ControlServoRoute(Some(-1), device).httpStatus == 400
    ensures ControlServoRoute(Some(181), device).httpStatus == 400
    ensures ControlServoRoute(Some(-1), device).deviceRequest.None?
    ensures ControlServoRoute(Some(181), device).deviceRequest.None?
  {
  }
}
