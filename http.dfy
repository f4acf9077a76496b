/**
 * The part of Go's net/http and fmt that the mocking transports build on:
 * requests, responses, the (response, error) pair a transport returns,
 * the reason-phrase table behind http.StatusText, the two header updates
 * Header.Set and Header.Add, and the decimal formatting done by
 * fmt.Sprintf("%d", n).
 */
module Http {
  import opened Wrappers

  /** The request URL; the router looks only at `host`. */
  datatype Url = Url(scheme: string, host: string, path: string)

  /** An http.Header: a key maps to its values in the order they were added. */
  type Header = map<string, seq<string>>

  /** An outgoing request (*http.Request); `requestMethod` is Go's Method. */
  datatype Request = Request(
    requestMethod: string,
    url: Url,
    proto: string,
    protoMajor: int,
    protoMinor: int,
    header: Header)

  /** An *http.Response; the body stream is modelled by its whole content. */
  datatype Response = Response(
    status: string,
    statusCode: int,
    proto: string,
    protoMajor: int,
    protoMinor: int,
    contentLength: int,
    header: Header,
    body: string,
    request: Option<Request>)

  /** A Go error value, identified by its Error() text. */
  datatype Error = Error(message: string)

  /** What RoundTrip returns: a possibly-nil response and a possibly-nil error. */
  datatype Result = Result(resp: Option<Response>, err: Option<Error>)

  /**
   * http.RoundTripper. Applying a transport to a request is its RoundTrip
   * call; a RoundTripperFunc is therefore a transport as it stands.
   */
  type Transport = Request -> Result

  /** The status codes mentioned by the library and its tests (section 15 of RFC 9110). */
  const KnownCodes: set<int> := {200, 400, 403, 404, 500, 502}

  /** http.StatusText: the reason phrase of a code, "" for a code it does not know. */
  function StatusText(code: int): (text: string)
    ensures text == "" <==> code !in KnownCodes
    ensures code == 200 ==> text == "OK"
    ensures code == 500 ==> text == "Internal Server Error"
  {
    match code
    case 200 => "OK"
    case 400 => "Bad Request"
    case 403 => "Forbidden"
    case 404 => "Not Found"
    case 500 => "Internal Server Error"
    case 502 => "Bad Gateway"
    case _ => ""
  }

  /** Header.Values: the values stored under `key`, none when it is absent. */
  function Values(h: Header, key: string): seq<string>
  {
    if key in h then h[key] else []
  }

  /** Header.Set: `key` holds exactly `value` afterwards; no other key changes. */
  function HeaderSet(h: Header, key: string, value: string): (out: Header)
    ensures key in out && out[key] == [value]
    ensures out - {key} == h - {key}
  {
    h[key := [value]]
  }

  /** Header.Add: `value` is appended after the values `key` already had; no other key changes. */
  function HeaderAdd(h: Header, key: string, value: string): (out: Header)
    ensures key in out && out[key] == Values(h, key) + [value]
    ensures out - {key} == h - {key}
  {
    h[key := Values(h, key) + [value]]
  }

  predicate IsDigit(c: char)
  {
    '0' <= c <= '9'
  }

  function DigitChar(d: nat): (c: char)
    requires d < 10
    ensures IsDigit(c)
  {
    ('0' as int + d) as char
  }

  function DigitValue(c: char): (d: nat)
    requires IsDigit(c)
    ensures d < 10
  {
    c as int - '0' as int
  }

  /** fmt.Sprintf("%d", n) for a non-negative n: at least one digit, digits only, no leading zero. */
  function Decimal(n: nat): (s: string)
    ensures |s| >= 1
    ensures forall i :: 0 <= i < |s| ==> IsDigit(s[i])
    ensures s[0] == '0' ==> n == 0
    ensures n < 10 <==> |s| == 1
  {
    if n < 10 then [DigitChar(n)] else Decimal(n / 10) + [DigitChar(n % 10)]
  }

  /** Reads a string of decimal digits back as a number; None when it is empty or holds a non-digit. */
  function ParseDecimal(s: string): Option<nat>
  {
    if s == [] || !IsDigit(s[|s| - 1]) then None
    else if |s| == 1 then Some(DigitValue(s[0]))
    else match ParseDecimal(s[..|s| - 1])
      case None => None
      case Some(p) => Some(p * 10 + DigitValue(s[|s| - 1]))
  }

  /** A Content-Length written by Decimal reads back as the length it came from. */
  lemma {:induction false} DecimalRoundTrip(n: nat)
    ensures ParseDecimal(Decimal(n)) == Some(n)
  {
    if n >= 10 {
      var prefix := Decimal(n / 10);
      DecimalRoundTrip(n / 10);
      assert Decimal(n)[..|Decimal(n)| - 1] == prefix;
    }
  }
}
