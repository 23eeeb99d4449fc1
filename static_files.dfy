// The static-file mounts of server.js and the cache lifetime each is served
// with.
module StaticFiles {
  import opened Js

  /** The production lifetime as the source writes it, `60 * 60 * 24 * 30`.
      The static file server reads a numeric `maxAge` in milliseconds. */
  const ProdMaxAge: nat := 60 * 60 * 24 * 30

  /** Thirty days in seconds: the lifetime the product above spells out. */
  const ThirtyDaysInSeconds: nat := 60 * 60 * 24 * 30

  /** The `maxAge` option of `serve(path, cache)`: the JavaScript expression
      `cache && isProd ? 60 * 60 * 24 * 30 : 0`, with `&&` yielding a value
      that the conditional then tests. */
  function MaxAge(cache: JsValue, isProd: bool): (r: nat)
    ensures r == 2592000 <==> Truthy(cache) && isProd
    ensures r == 0 <==> !(Truthy(cache) && isProd)
  {
    if Truthy(And(cache, Bool(isProd))) then ProdMaxAge else 0
  }

  /** The `max-age` the static file server sends for a numeric `maxAge` in
      milliseconds: the whole seconds it holds. */
  function HeaderSeconds(maxAgeMs: nat): (seconds: nat)
    ensures seconds * 1000 <= maxAgeMs < (seconds + 1) * 1000
  {
    maxAgeMs / 1000
  }

  /** As written, the production lifetime reaches clients as 2592 seconds,
      less than an hour, not thirty days. */
  lemma ProductionLifetimeAsWritten(cache: JsValue)
    requires Truthy(cache)
    ensures HeaderSeconds(MaxAge(cache, true)) == 2592
    ensures HeaderSeconds(MaxAge(cache, true)) < 60 * 60 < ThirtyDaysInSeconds
  {
  }

  /** The lifetime with the factor 1000 that a millisecond option needs. */
  function IntendedMaxAge(cache: JsValue, isProd: bool): (r: nat)
    ensures HeaderSeconds(r) == if Truthy(cache) && isProd then ThirtyDaysInSeconds else 0
  {
    if Truthy(And(cache, Bool(isProd))) then 1000 * ProdMaxAge else 0
  }

  /** One `app.use(prefix, serve(path, cache))` line. */
  datatype Mount = Mount(prefix: string, path: string, cache: JsValue)

  /** The four mounts; none passes a `cache` argument, so it is `undefined`. */
  const Mounts: seq<Mount> := [
    Mount("/service-worker.js", "./dist/service-worker.js", Undefined),
    Mount("/mainfest.json", "./mainfest.json", Undefined),
    Mount("/dist", "./dist", Undefined),
    Mount("/public", "./public", Undefined)
  ]

  /** In either mode, every mounted path is served with a lifetime of 0, as
      written and with the factor restored alike. */
  lemma MountsNeverCache(isProd: bool)
    ensures |Mounts| == 4
    ensures forall m :: m in Mounts ==> MaxAge(m.cache, isProd) == 0
    ensures forall m :: m in Mounts ==> IntendedMaxAge(m.cache, isProd) == 0
  {
  }
}
