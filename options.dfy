/**
 * `ProxyServerOptions`: the options record of the proxy, its defaults in the constructor and
 * the shallow merge of `updateOptions`. Every key of the record is optional; a key that is
 * present may still hold `undefined`.
 */
module Options {
  import opened Wrappers

  /** The options record; `None` is a key holding `undefined` (or absent). Times are in milliseconds. */
  datatype ProxyServerOptions = ProxyServerOptions(
    enableLogging: Option<bool>,
    connectionTimeout: Option<nat>,
    maxConnections: Option<nat>,
    sslVerification: Option<bool>)

  /** One key of a `Partial<ProxyServerOptions>`: left out, or given (its value possibly `undefined`). */
  datatype Entry<T> = Omitted | Given(value: Option<T>)

  datatype OptionsPatch = OptionsPatch(
    enableLogging: Entry<bool>,
    connectionTimeout: Entry<nat>,
    maxConnections: Entry<nat>,
    sslVerification: Entry<bool>)

  const NoChanges := OptionsPatch(Omitted, Omitted, Omitted, Omitted)

  /** The values the constructor starts from before spreading the caller's options. */
  const Defaults := ProxyServerOptions(Some(true), Some(10000), Some(5), Some(true))

  /** The timeout used when the configured one is missing or 0. */
  const FallbackTimeout: nat := 10000

  function Override<T>(current: Option<T>, e: Entry<T>): Option<T> {
    match e
    case Omitted => current
    case Given(v) => v
  }

  /** `{ ...o, ...p }`: every key given in `p` replaces the one in `o`; the rest are kept. */
  function Merge(o: ProxyServerOptions, p: OptionsPatch): (r: ProxyServerOptions)
    ensures p.enableLogging.Given? ==> r.enableLogging == p.enableLogging.value
    ensures p.enableLogging.Omitted? ==> r.enableLogging == o.enableLogging
    ensures p.connectionTimeout.Given? ==> r.connectionTimeout == p.connectionTimeout.value
    ensures p.connectionTimeout.Omitted? ==> r.connectionTimeout == o.connectionTimeout
    ensures p.maxConnections.Given? ==> r.maxConnections == p.maxConnections.value
    ensures p.maxConnections.Omitted? ==> r.maxConnections == o.maxConnections
    ensures p.sslVerification.Given? ==> r.sslVerification == p.sslVerification.value
    ensures p.sslVerification.Omitted? ==> r.sslVerification == o.sslVerification
  {
    ProxyServerOptions(
      Override(o.enableLogging, p.enableLogging),
      Override(o.connectionTimeout, p.connectionTimeout),
      Override(o.maxConnections, p.maxConnections),
      Override(o.sslVerification, p.sslVerification))
  }

  /** Two shallow merges in a row: the later one wins key by key. */
  function Then(p: OptionsPatch, q: OptionsPatch): OptionsPatch {
    OptionsPatch(
      if q.enableLogging.Given? then q.enableLogging else p.enableLogging,
      if q.connectionTimeout.Given? then q.connectionTimeout else p.connectionTimeout,
      if q.maxConnections.Given? then q.maxConnections else p.maxConnections,
      if q.sslVerification.Given? then q.sslVerification else p.sslVerification)
  }

  /** Merging `p` and then `q` is merging their key-by-key combination once. */
  lemma MergeThen(o: ProxyServerOptions, p: OptionsPatch, q: OptionsPatch)
    ensures Merge(Merge(o, p), q) == Merge(o, Then(p, q))
  {
  }

  /** Applying the same update twice changes nothing the first application did not. */
  lemma MergeIdempotent(o: ProxyServerOptions, p: OptionsPatch)
    ensures Merge(Merge(o, p), p) == Merge(o, p)
  {
  }

  /** An update that gives no key leaves the options as they were. */
  lemma MergeNoChanges(o: ProxyServerOptions)
    ensures Merge(o, NoChanges) == o
  {
  }

  /** `if (this.options.enableLogging)`: only a present `true` turns logging on. */
  predicate LoggingEnabled(o: ProxyServerOptions) {
    o.enableLogging == Some(true)
  }

  /** `this.options.connectionTimeout || 10000`: a missing or zero timeout falls back to 10000 ms. */
  function EffectiveTimeout(o: ProxyServerOptions): (t: nat)
    ensures t > 0
    ensures o.connectionTimeout.Some? && o.connectionTimeout.value > 0 ==> t == o.connectionTimeout.value
    ensures o.connectionTimeout.None? || o.connectionTimeout == Some(0) ==> t == FallbackTimeout
  {
    match o.connectionTimeout
    case Some(ms) => if ms != 0 then ms else FallbackTimeout
    case None => FallbackTimeout
  }
}
