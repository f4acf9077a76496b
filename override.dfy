/**
 * The process-wide transport swap: UseTransport saves http.DefaultTransport
 * and installs another transport, RestoreTransport puts the saved one back.
 * The lock taken by UseTransport and released by RestoreTransport is
 * modelled by the flag `held`: a call that would block, or an unlock of a
 * free lock (in Go the fatal error "sync: Unlock of unlocked RWMutex"), is
 * excluded by the preconditions.
 */
module Override {
  import opened Wrappers
  import opened Http
  import opened RoundTripper

  class TransportSwap {
    /** http.DefaultTransport. */
    var current: Transport
    /** lastDefaultTransport: nil until the first UseTransport. */
    var last: Option<Transport>
    /** Whether transportLock is held. */
    var held: bool

    /** While the lock is held there is a saved transport to go back to. */
    ghost predicate Valid()
      reads this
    {
      held ==> last.Some?
    }

    /** The package state at start-up: the library's default transport, nothing saved, lock free. */
    constructor (defaultTransport: Transport)
      ensures Valid()
      ensures current == defaultTransport && last == None && !held
    {
      current := defaultTransport;
      last := None;
      held := false;
    }

    /** UseTransport: take the lock, save the current default and install `rt`. */
    method UseTransport(rt: Transport)
      requires Valid() && !held
      modifies this
      ensures Valid() && held
      ensures current == rt && last == Some(old(current))
    {
      held := true;
      last, current := Some(current), rt;
    }

    /** RestoreTransport: put the saved default back and release the lock. */
    method RestoreTransport()
      requires Valid() && held
      modifies this
      ensures Valid() && !held
      ensures current == old(last).value && last == old(last)
    {
      current := last.value;
      held := false;
    }
  }

  /**
   * A UseTransport/RestoreTransport pair as the override tests use it: between
   * the two calls the default transport is the one installed, and afterwards it
   * is the one from before the pair, with the lock free again.
   */
  method SwapAndRestore(s: TransportSwap, rt: Transport) returns (during: Transport)
    requires s.Valid() && !s.held
    modifies s
    ensures during == rt
    ensures s.Valid() && !s.held && s.current == old(s.current)
  {
    s.UseTransport(rt);
    during := s.current;
    s.RestoreTransport();
  }

  /**
   * Pairs run one after another each see only their own transport, and the
   * default is the original one after each pair.
   */
  method SequentialPairs(s: TransportSwap, rts: seq<Transport>) returns (seen: seq<Transport>)
    requires s.Valid() && !s.held
    modifies s
    ensures seen == rts
    ensures s.Valid() && !s.held && s.current == old(s.current)
  {
    seen := [];
    var i := 0;
    while i < |rts|
      invariant 0 <= i <= |rts|
      invariant s.Valid() && !s.held && s.current == old(s.current)
      invariant seen == rts[..i]
    {
      var during := SwapAndRestore(s, rts[i]);
      seen := seen + [during];
      i := i + 1;
    }
    assert rts[..|rts|] == rts;
  }

  /**
   * A mux installed as the default transport, as the override tests install
   * one: while it is installed, a request for a registered host reaches that
   * host's transport and a request for any other host the fallback; restoring
   * brings back the earlier default.
   */
  method MuxAsDefault(s: TransportSwap, google: Transport, facebook: Transport, fallback: Transport,
                      toGoogle: Request, toOther: Request)
    returns (fromGoogle: Result, fromOther: Result)
    requires s.Valid() && !s.held
    requires toGoogle.url.host == "www.google.com"
    requires toOther.url.host !in {"www.google.com", "www.facebook.com", Fallback}
    modifies s
    ensures fromGoogle == google(toGoogle)
    ensures fromOther == fallback(toOther)
    ensures s.Valid() && !s.held && s.current == old(s.current)
  {
    var mux := new MuxRoundTripper();
    mux.Add("www.google.com", google);
    mux.Add("www.facebook.com", facebook);
    mux.Add(Fallback, fallback);
    s.UseTransport(AsTransport(mux.routes));
    fromGoogle := s.current(toGoogle);
    fromOther := s.current(toOther);
    s.RestoreTransport();
  }
}
