/**
 * Middleware: a transformer from an inner transport to an outer one. A
 * MiddlewareFunc is a middleware as it stands (its Wrap is application).
 * Chain nests a list of middlewares with the first element outermost; a
 * ResponseModifier becomes a middleware by post-processing the inner result;
 * three canned layers rewrite a successful response.
 */
module Middlewares {
  import opened Wrappers
  import opened Http

  /** Middleware (and MiddlewareFunc): inner transport to outer transport. */
  type Middleware = Transport -> Transport

  /** ResponseModifier: post-processes the (response, error) pair of the inner call. */
  type ResponseModifier = Result -> Result

  /** True when a layer may rewrite the result: no error and a response present. */
  predicate Succeeded(res: Result)
  {
    res.err.None? && res.resp.Some?
  }

  /**
   * The per-call work of UseResponseStatus: on success the status code becomes
   * `status` and the status text its reason phrase; the body, the headers and
   * everything else stay. An errored result passes through untouched.
   */
  function WithStatus(status: int, res: Result): (out: Result)
    ensures !Succeeded(res) ==> out == res
    ensures Succeeded(res) ==> (Succeeded(out)
      && out.resp.value.statusCode == status
      && out.resp.value.status == StatusText(status)
      && out.resp.value.(statusCode := 0, status := "") == res.resp.value.(statusCode := 0, status := ""))
  {
    if !Succeeded(res) then res
    else Result(Some(res.resp.value.(statusCode := status, status := StatusText(status))), None)
  }

  /**
   * The per-call work of UseResponseSetHeader: on success `key` holds exactly
   * `value` and every other header and field stays. An errored result passes
   * through untouched.
   */
  function WithHeaderSet(key: string, value: string, res: Result): (out: Result)
    ensures !Succeeded(res) ==> out == res
    ensures Succeeded(res) ==> (Succeeded(out)
      && key in out.resp.value.header && out.resp.value.header[key] == [value]
      && out.resp.value.header - {key} == res.resp.value.header - {key}
      && out.resp.value.(header := map[]) == res.resp.value.(header := map[]))
  {
    if !Succeeded(res) then res
    else Result(Some(res.resp.value.(header := HeaderSet(res.resp.value.header, key, value))), None)
  }

  /**
   * The per-call work of UseResponseAddHeader: on success `value` is appended
   * after the values `key` already had; every other header and field stays.
   * An errored result passes through untouched.
   */
  function WithHeaderAdded(key: string, value: string, res: Result): (out: Result)
    ensures !Succeeded(res) ==> out == res
    ensures Succeeded(res) ==> (Succeeded(out)
      && key in out.resp.value.header
      && out.resp.value.header[key] == Values(res.resp.value.header, key) + [value]
      && out.resp.value.header - {key} == res.resp.value.header - {key}
      && out.resp.value.(header := map[]) == res.resp.value.(header := map[]))
  {
    if !Succeeded(res) then res
    else Result(Some(res.resp.value.(header := HeaderAdd(res.resp.value.header, key, value))), None)
  }

  /** UseResponseStatus: wraps a transport so that its successful responses carry `status`. */
  function UseResponseStatus(status: int): (m: Middleware)
    ensures forall inner: Transport, r: Request :: m(inner)(r) == WithStatus(status, inner(r))
  {
    (inner: Transport) => ((r: Request) => WithStatus(status, inner(r)))
  }

  /** UseResponseSetHeader: wraps a transport so that its successful responses have `key` set to `value`. */
  function UseResponseSetHeader(key: string, value: string): (m: Middleware)
    ensures forall inner: Transport, r: Request :: m(inner)(r) == WithHeaderSet(key, value, inner(r))
  {
    (inner: Transport) => ((r: Request) => WithHeaderSet(key, value, inner(r)))
  }

  /** UseResponseAddHeader: wraps a transport so that its successful responses get `value` added under `key`. */
  function UseResponseAddHeader(key: string, value: string): (m: Middleware)
    ensures forall inner: Transport, r: Request :: m(inner)(r) == WithHeaderAdded(key, value, inner(r))
  {
    (inner: Transport) => ((r: Request) => WithHeaderAdded(key, value, inner(r)))
  }

  /** ResponseModifier.Wrap: call the inner transport, then give its result to the modifier. */
  function Wrap(modifier: ResponseModifier, inner: Transport): (t: Transport)
    ensures forall r :: t(r) == modifier(inner(r))
  {
    (r: Request) => modifier(inner(r))
  }

  /** UseResponseModifier: the modifier itself, used as a middleware through its Wrap. */
  function UseResponseModifier(modifier: ResponseModifier): (m: Middleware)
    ensures forall inner: Transport :: m(inner) == Wrap(modifier, inner)
  {
    (inner: Transport) => Wrap(modifier, inner)
  }

  /** What Chain(ms...).Wrap(inner) must be: ms[0].Wrap(ms[1].Wrap(... ms[n-1].Wrap(inner))). */
  function Nest(ms: seq<Middleware>, inner: Transport): Transport
  {
    if ms == [] then inner else ms[0](Nest(ms[1..], inner))
  }

  /**
   * Chain(ms...).Wrap(inner): walks the list from the last middleware to the
   * first, wrapping the transport built so far each time.
   */
  method Chain(ms: seq<Middleware>, inner: Transport) returns (rt: Transport)
    ensures rt == Nest(ms, inner)
  {
    rt := inner;
    var i := |ms| - 1;
    while i >= 0
      invariant -1 <= i < |ms|
      invariant rt == Nest(ms[i + 1..], inner)
    {
      assert ms[i..][1..] == ms[i + 1..];
      rt := ms[i](rt);
      i := i - 1;
    }
    assert ms[0..] == ms;
  }

  /** Chain(ms...) as a middleware value, for a chain used inside another chain. */
  function Chained(ms: seq<Middleware>): (m: Middleware)
    ensures forall inner: Transport :: m(inner) == Nest(ms, inner)
  {
    (inner: Transport) => Nest(ms, inner)
  }

  /** Chaining a + b is chaining a around the chain of b: the list is read outermost first. */
  lemma {:induction false} NestAppend(a: seq<Middleware>, b: seq<Middleware>, inner: Transport)
    ensures Nest(a + b, inner) == Nest(a, Nest(b, inner))
  {
    if a == [] {
      assert a + b == b;
    } else {
      assert (a + b)[1..] == a[1..] + b;
      NestAppend(a[1..], b, inner);
    }
  }

  /** The last middleware of a non-empty chain wraps the inner transport directly. */
  lemma NestLast(ms: seq<Middleware>, inner: Transport)
    requires |ms| > 0
    ensures Nest(ms, inner) == Nest(ms[..|ms| - 1], ms[|ms| - 1](inner))
  {
    var n := |ms| - 1;
    assert ms == ms[..n] + [ms[n]];
    NestAppend(ms[..n], [ms[n]], inner);
    assert Nest([ms[n]], inner) == ms[n](Nest([], inner));
  }

  /** A chain of two chains is the chain of their concatenation. */
  lemma NestOfChains(a: seq<Middleware>, b: seq<Middleware>, inner: Transport)
    ensures Nest([Chained(a), Chained(b)], inner) == Nest(a + b, inner)
  {
    var ca, cb := Chained(a), Chained(b);
    assert [ca, cb][1..] == [cb];
    assert [cb][1..] == [];
    assert Nest([cb], inner) == cb(inner) == Nest(b, inner);
    assert Nest([ca, cb], inner) == ca(Nest(b, inner)) == Nest(a, Nest(b, inner));
    NestAppend(a, b, inner);
  }

  /** The response modifiers of a list, each turned into a middleware by UseResponseModifier. */
  function UseResponseModifiers(mods: seq<ResponseModifier>): (ms: seq<Middleware>)
    ensures |ms| == |mods|
    ensures forall i :: 0 <= i < |mods| ==> ms[i] == UseResponseModifier(mods[i])
  {
    if mods == [] then [] else [UseResponseModifier(mods[0])] + UseResponseModifiers(mods[1..])
  }

  /** mods[0](mods[1](... mods[n-1](res))): the last modifier is applied first. */
  function Compose(mods: seq<ResponseModifier>, res: Result): Result
  {
    if mods == [] then res else mods[0](Compose(mods[1..], res))
  }

  /**
   * Chained response modifiers post-process in reverse list order: the chain
   * of their middlewares gives the inner result to the last modifier, its
   * output to the one before it, and so on up to the first.
   */
  lemma {:induction false} ChainedModifiers(mods: seq<ResponseModifier>, inner: Transport, r: Request)
    ensures Nest(UseResponseModifiers(mods), inner)(r) == Compose(mods, inner(r))
  {
    var ms := UseResponseModifiers(mods);
    if mods != [] {
      assert ms[1..] == UseResponseModifiers(mods[1..]);
      ChainedModifiers(mods[1..], inner, r);
      assert Nest(ms, inner) == UseResponseModifier(mods[0])(Nest(ms[1..], inner));
    }
  }

  /** Composing a + b applies the modifiers of b to the raw result, then those of a. */
  lemma {:induction false} ComposeAppend(a: seq<ResponseModifier>, b: seq<ResponseModifier>, res: Result)
    ensures Compose(a + b, res) == Compose(a, Compose(b, res))
  {
    if a == [] {
      assert a + b == b;
    } else {
      assert (a + b)[1..] == a[1..] + b;
      ComposeAppend(a[1..], b, res);
    }
  }

  /** The last modifier of a chain is the one that sees the raw inner result. */
  lemma LastModifierSeesRaw(mods: seq<ResponseModifier>, res: Result)
    requires |mods| > 0
    ensures Compose(mods, res) == Compose(mods[..|mods| - 1], mods[|mods| - 1](res))
  {
    var n := |mods| - 1;
    assert mods == mods[..n] + [mods[n]];
    ComposeAppend(mods[..n], [mods[n]], res);
  }

  /** Setting one header twice leaves the outer (later) value; setting it again changes nothing. */
  lemma SetHeaderLastWins(key: string, v1: string, v2: string, res: Result)
    ensures WithHeaderSet(key, v2, WithHeaderSet(key, v1, res)) == WithHeaderSet(key, v2, res)
  {
    if Succeeded(res) {
      var h := res.resp.value.header;
      assert HeaderSet(HeaderSet(h, key, v1), key, v2) == HeaderSet(h, key, v2);
    }
  }

  /** Adding two values under one key keeps them in the order they were added, after the old ones. */
  lemma AddHeaderKeepsOrder(key: string, v1: string, v2: string, res: Result)
    requires Succeeded(res)
    ensures var out := WithHeaderAdded(key, v2, WithHeaderAdded(key, v1, res));
      Succeeded(out) && out.resp.value.header[key] == Values(res.resp.value.header, key) + [v1, v2]
  {
  }

  /** A later status layer overrides an earlier one entirely. */
  lemma StatusLastWins(s1: int, s2: int, res: Result)
    ensures WithStatus(s2, WithStatus(s1, res)) == WithStatus(s2, res)
  {
  }
}
