/**
 * The canned transports: ServerErrorRT answers every request with a response
 * carrying a given status, StaticResponseRT answers every request with the
 * same 200 response, and TransportErrorRT answers with no response.
 * The clock reading that the source formats into the Date header is a
 * parameter here.
 */
module Canned {
  import opened Wrappers
  import opened Http

  /** The header map the factories build: a fresh map filled by three Header.Add calls. */
  function CannedHeader(size: nat, contentType: string, date: string): (h: Header)
    ensures h.Keys == {"Content-Length", "Content-Type", "Date"}
    ensures h["Content-Length"] == [Decimal(size)]
    ensures h["Content-Type"] == [contentType]
    ensures h["Date"] == [date]
  {
    var h0: Header := map[];
    var h1 := HeaderAdd(h0, "Content-Length", Decimal(size));
    var h2 := HeaderAdd(h1, "Content-Type", contentType);
    HeaderAdd(h2, "Date", date)
  }

  /**
   * The shape every response of these factories has: the given status and
   * body, the request's protocol fields, a Content-Length equal to the body
   * length both as a field and as a header, the given Content-Type and Date,
   * exactly one value per header key, and the request recorded.
   */
  ghost predicate IsCannedResponse(resp: Response, r: Request, statusCode: int, body: string,
                                   contentType: string, date: string)
  {
    && resp.statusCode == statusCode
    && resp.status == StatusText(statusCode)
    && resp.body == body
    && resp.contentLength == |body|
    && resp.proto == r.proto && resp.protoMajor == r.protoMajor && resp.protoMinor == r.protoMinor
    && resp.request == Some(r)
    && resp.header.Keys == {"Content-Length", "Content-Type", "Date"}
    && resp.header["Content-Length"] == [Decimal(|body|)]
    && resp.header["Content-Type"] == [contentType]
    && resp.header["Date"] == [date]
  }

  /** A response body as the factories build it, with its length taken once at construction. */
  function CannedResponse(status: string, statusCode: int, body: string, size: nat,
                          contentType: string, date: string, r: Request): Response
  {
    Response(
      status := status,
      statusCode := statusCode,
      proto := r.proto,
      protoMajor := r.protoMajor,
      protoMinor := r.protoMinor,
      contentLength := size,
      header := CannedHeader(size, contentType, date),
      body := body,
      request := Some(r))
  }

  /**
   * ServerErrorRT(status): for every request, a response and no error; the
   * status is `status`, and the status text and the text/html body are both
   * its reason phrase. `date` stands for the clock reading of the call.
   */
  function ServerErrorRT(status: int, date: string): (t: Transport)
    ensures forall r :: (t(r).err == None && t(r).resp.Some?
      && IsCannedResponse(t(r).resp.value, r, status, StatusText(status), "text/html", date))
  {
    var statusText := StatusText(status);
    var size := |statusText|;
    (r: Request) => Result(Some(CannedResponse(statusText, status, statusText, size, "text/html", date, r)), None)
  }

  /**
   * StaticResponseRT(content, contentType): for every request, a 200 "OK"
   * response with body `content` and no error. `now` is the clock reading taken
   * once, when the transport is built.
   */
  function StaticResponseRT(content: string, contentType: string, now: string): (t: Transport)
    ensures forall r :: (t(r).err == None && t(r).resp.Some?
      && IsCannedResponse(t(r).resp.value, r, 200, content, contentType, now))
  {
    var size := |content|;
    (r: Request) => Result(Some(CannedResponse(StatusText(200), 200, content, size, contentType, now, r)), None)
  }

  /**
   * TransportErrorRT(err) as written: the closure's named result `err` shadows
   * the parameter, so `return nil, err` returns the zero error. Every request
   * gets neither a response nor an error, although the doc comment promises
   * the supplied error.
   */
  function TransportErrorRT(err: Error): (t: Transport)
    ensures forall r :: t(r).resp == None && t(r).err == None
  {
    (r: Request) =>
      var resp: Option<Response>, err: Option<Error> := None, None;
      Result(resp, err)
  }

  /** TransportErrorRT as its doc comment describes it: no response, the supplied error. */
  function TransportErrorRTIntended(err: Error): (t: Transport)
    ensures forall r :: t(r).resp == None && t(r).err == Some(err)
  {
    (r: Request) => Result(None, Some(err))
  }

  /** The error supplied to TransportErrorRT never reaches the caller. */
  lemma TransportErrorRTLosesError(err: Error, r: Request)
    ensures TransportErrorRT(err)(r).err != Some(err)
    ensures TransportErrorRT(err)(r) != TransportErrorRTIntended(err)(r)
  {
  }

  /** The Content-Length header of a canned response reads back as its ContentLength field. */
  lemma ContentLengthHeaderAgrees(resp: Response, r: Request, statusCode: int, body: string,
                                  contentType: string, date: string)
    requires IsCannedResponse(resp, r, statusCode, body, contentType, date)
    ensures ParseDecimal(resp.header["Content-Length"][0]) == Some(resp.contentLength)
  {
    DecimalRoundTrip(|body|);
  }

  /** Every header key of a canned response holds exactly one value. */
  lemma CannedHeadersSingleValued(resp: Response, r: Request, statusCode: int, body: string,
                                  contentType: string, date: string)
    requires IsCannedResponse(resp, r, statusCode, body, contentType, date)
    ensures forall k :: k in resp.header ==> |resp.header[k]| == 1
  {
  }

  /**
   * One StaticResponseRT instance answers any two requests with the same
   * status, body and headers (its Date included); only the protocol fields and
   * the recorded request follow the request.
   */
  lemma StaticResponseIgnoresRequest(content: string, contentType: string, now: string,
                                     r1: Request, r2: Request)
    ensures var a, b := StaticResponseRT(content, contentType, now)(r1).resp.value,
                        StaticResponseRT(content, contentType, now)(r2).resp.value;
      a.header == b.header && a.header["Date"] == [now]
      && a.(proto := "", protoMajor := 0, protoMinor := 0, request := None)
         == b.(proto := "", protoMajor := 0, protoMinor := 0, request := None)
  {
  }

  /** The server-error scenario of the tests: 403, 502 and 400 pages carry their reason phrase as body. */
  lemma ServerErrorPages(date: string, r: Request)
    ensures ServerErrorRT(403, date)(r).resp.value.body == "Forbidden"
    ensures ServerErrorRT(502, date)(r).resp.value.body == "Bad Gateway"
    ensures ServerErrorRT(400, date)(r).resp.value.body == "Bad Request"
    ensures ServerErrorRT(502, date)(r).resp.value.statusCode == 502
  {
  }
}
