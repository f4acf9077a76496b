/**
 * The situations exercised by the library's middleware tests, stated over the
 * model with the middlewares the library defines (the tests call
 * ResponseSetStatus, ResponseSetHeader and ResponseAddHeader, which are not
 * part of this model; the UseResponse* layers are their counterparts).
 */
module MiddlewareScenarios {
  import opened Wrappers
  import opened Http
  import opened Middlewares
  import opened Canned

  /**
   * Overriding the status of a server-error page changes its status code and
   * status text but keeps the body of the original page, so body and status
   * may disagree.
   */
  lemma StatusOverrideKeepsBody(status: int, pageStatus: int, date: string, r: Request)
    ensures var res := UseResponseStatus(status)(ServerErrorRT(pageStatus, date))(r);
      res.err == None && res.resp.Some?
      && res.resp.value.statusCode == status
      && res.resp.value.status == StatusText(status)
      && res.resp.value.body == StatusText(pageStatus)
  {
  }

  /** Setting Content-Type over a static page replaces the type it was built with. */
  lemma SetHeaderReplacesContentType(content: string, now: string, r: Request)
    ensures var res := UseResponseSetHeader("Content-Type", "text/html")(StaticResponseRT(content, "text/plain", now))(r);
      res.resp.Some? && res.resp.value.header["Content-Type"] == ["text/html"]
      && res.resp.value.body == content
  {
  }

  /** Adding Content-Type over a static page keeps the original type first and the added one second. */
  lemma AddHeaderAppendsContentType(content: string, now: string, r: Request)
    ensures var res := UseResponseAddHeader("Content-Type", "text/html")(StaticResponseRT(content, "text/plain", now))(r);
      res.resp.Some? && res.resp.value.header["Content-Type"] == ["text/plain", "text/html"]
  {
  }

  /** Each layer returns the result of a failed inner call untouched. */
  lemma LayersSkipFailedCalls(status: int, e: Error, r: Request)
    ensures UseResponseStatus(status)(TransportErrorRTIntended(e))(r) == Result(None, Some(e))
    ensures UseResponseSetHeader("X", "1")(TransportErrorRTIntended(e))(r) == Result(None, Some(e))
    ensures UseResponseAddHeader("X", "1")(TransportErrorRTIntended(e))(r) == Result(None, Some(e))
  {
  }

  /**
   * The chain of the middleware tests over a 500 page: two Content-Type
   * setters, a status setter, and innermost a modifier that replaces the
   * page with a fresh response whose body is "hello world". The status setter
   * makes it 200 "OK", and the first setter is outermost, so its value is the
   * one left. (The fresh Go response has a nil header map, on which a real
   * Header.Set would fail; here its header is the empty map.)
   */
  method ChainScenario(date: string, r: Request) returns (res: Result)
    ensures res.err == None && res.resp.Some?
    ensures res.resp.value.statusCode == 200 && res.resp.value.status == "OK"
    ensures res.resp.value.body == "hello world"
    ensures "Content-Type" in res.resp.value.header
    ensures res.resp.value.header["Content-Type"] == ["text/html"]
  {
    var html := UseResponseSetHeader("Content-Type", "text/html");
    var json := UseResponseSetHeader("Content-Type", "application/json");
    var ok := UseResponseStatus(200);
    var replacement := Response("", 0, "", 0, 0, 0, map[], "hello world", None);
    var replace := UseResponseModifier((x: Result) => Result(Some(replacement), None));
    var page := ServerErrorRT(500, date);
    var ms := [html, json, ok, replace];
    var rt := Chain(ms, page);
    assert ms[1..] == [json, ok, replace] && [json, ok, replace][1..] == [ok, replace];
    assert [ok, replace][1..] == [replace] && [replace][1..] == [];
    assert Nest([replace], page) == replace(page);
    assert Nest([ok, replace], page) == ok(replace(page));
    assert Nest([json, ok, replace], page) == json(ok(replace(page)));
    assert rt == html(json(ok(replace(page))));
    res := rt(r);
  }
}
