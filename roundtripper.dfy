/**
 * MuxRoundTripper: a transport that dispatches each request by the host of
 * its URL to a registered transport, with the reserved host "*" as the
 * fallback. In Go the mux is a map type: Get and RoundTrip take the map as a
 * value receiver and are modelled as functions of the map, while Add and
 * AddFunc write into the shared map and are methods of a class holding it.
 */
module RoundTripper {
  import opened Wrappers
  import opened Http

  /** The routing table of a mux: host name to transport. */
  type Routes = map<string, Transport>

  /** The host under which the fallback transport is registered. */
  const Fallback: string := "*"

  /** The error Get reports for a host that has neither an entry nor a fallback. */
  function NotFoundError(host: string): Error
  {
    Error("no http.RoundTripper found for host " + host)
  }

  /** What Get returns: the transport found, or the lookup error (with a nil transport). */
  datatype Lookup = Found(transport: Transport) | NotFound(err: Error)

  /** MuxRoundTripper.Get: exact host first, then the fallback, else the not-found error. */
  function Get(mux: Routes, host: string): (res: Lookup)
    ensures host in mux ==> res == Found(mux[host])
    ensures host !in mux && Fallback in mux ==> res == Found(mux[Fallback])
    ensures host !in mux && Fallback !in mux ==> res == NotFound(NotFoundError(host))
    ensures res.Found? <==> host in mux || Fallback in mux
  {
    if host in mux then Found(mux[host])
    else if Fallback in mux then Found(mux[Fallback])
    else NotFound(NotFoundError(host))
  }

  /**
   * MuxRoundTripper.RoundTrip: a lookup miss is returned as the error with no
   * response; a hit hands the request, unchanged, to the transport found and
   * returns its result as it is.
   */
  function RoundTrip(mux: Routes, r: Request): (res: Result)
    ensures Get(mux, r.url.host).NotFound? ==>
      res == Result(None, Some(NotFoundError(r.url.host)))
    ensures Get(mux, r.url.host).Found? ==> res == Get(mux, r.url.host).transport(r)
  {
    match Get(mux, r.url.host)
    case NotFound(e) => Result(None, Some(e))
    case Found(rt) => rt(r)
  }

  /**
   * The mux used as a transport (a value of the table as it is now): a
   * registered host's requests go to its own transport, other hosts' to the
   * fallback, and without either the answer is the not-found error alone.
   */
  function AsTransport(mux: Routes): (t: Transport)
    ensures forall r: Request :: r.url.host in mux ==> t(r) == mux[r.url.host](r)
    ensures forall r: Request :: r.url.host !in mux && Fallback in mux ==> t(r) == mux[Fallback](r)
    ensures forall r: Request :: r.url.host !in mux && Fallback !in mux ==>
      t(r) == Result(None, Some(NotFoundError(r.url.host)))
  {
    r => RoundTrip(mux, r)
  }

  /**
   * Registering `rt` under `host` changes the lookup of `host`, and, when
   * `host` is the fallback, of every host without an entry of its own; every
   * other lookup stays as it was.
   */
  lemma GetAfterAdd(mux: Routes, host: string, rt: Transport, h: string)
    ensures Get(mux[host := rt], h) ==
      if h == host || (host == Fallback && h !in mux) then Found(rt) else Get(mux, h)
  {
  }

  /** An exact entry wins over the fallback, whatever the fallback is. */
  lemma ExactBeatsFallback(mux: Routes, host: string, fallback: Transport)
    requires host in mux && host != Fallback
    ensures Get(mux[Fallback := fallback], host) == Found(mux[host])
  {
  }

  /** A miss error names the host that was asked for, after the fixed prefix. */
  lemma NotFoundNamesHost(mux: Routes, host: string)
    requires Get(mux, host).NotFound?
    ensures var msg := Get(mux, host).err.message;
      |msg| >= |host| && msg[|msg| - |host|..] == host
      && msg[..|msg| - |host|] == "no http.RoundTripper found for host "
  {
  }

  /** The mutable mux: the map shared by every copy of a Go MuxRoundTripper value. */
  class MuxRoundTripper {
    var routes: Routes

    /** MuxRoundTripper{}: an empty table. */
    constructor ()
      ensures routes == map[]
    {
      routes := map[];
    }

    /** Add: register or replace the transport for `host` ("*" sets the fallback). */
    method Add(host: string, rt: Transport)
      modifies this
      ensures routes == old(routes)[host := rt]
    {
      routes := routes[host := rt];
    }

    /** AddFunc: register a RoundTripperFunc, which is a transport as it stands. */
    method AddFunc(host: string, fn: Request -> Result)
      modifies this
      ensures routes == old(routes)[host := fn]
    {
      routes := routes[host := fn];
    }
  }

  /**
   * The registration scenario of the mux tests: two hosts and a fallback are
   * added; each registered host finds its own transport and any other host finds
   * the fallback; a second Get of the same host returns what the first did.
   */
  method RegistrationScenario(google: Transport, facebook: Transport, fallback: Transport)
    returns (g: Lookup, f: Lookup, other: Lookup, again: Lookup)
    ensures g == Found(google) && f == Found(facebook) && other == Found(fallback)
    ensures again == other
  {
    var mux := new MuxRoundTripper();
    mux.Add("www.google.com", google);
    mux.Add("www.facebook.com", facebook);
    mux.Add(Fallback, fallback);
    g := Get(mux.routes, "www.google.com");
    f := Get(mux.routes, "www.facebook.com");
    other := Get(mux.routes, "www.foobar.com");
    again := Get(mux.routes, "www.foobar.com");
  }

  /**
   * The miss scenario of the mux tests: with only two hosts registered, a
   * request for a third gets no response and the not-found error naming it.
   */
  method MissScenario(google: Transport, facebook: Transport, r: Request) returns (res: Result)
    requires r.url.host == "www.foobar.com"
    ensures res.resp == None
    ensures res.err == Some(Error("no http.RoundTripper found for host www.foobar.com"))
  {
    var mux := new MuxRoundTripper();
    mux.AddFunc("www.google.com", google);
    mux.AddFunc("www.facebook.com", facebook);
    res := RoundTrip(mux.routes, r);
    assert NotFoundError(r.url.host).message == "no http.RoundTripper found for host www.foobar.com";
  }
}
