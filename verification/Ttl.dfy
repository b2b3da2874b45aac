/** Time-to-live limits: getMaxTTLSeconds, LimitTTLs, and the adapters' integer conversions. */
module Ttl {
  import opened Basics

  const CASSANDRA_DEFAULT_TTL_SECONDS := 2400
  const REQUEST_MAX_TTL_SECONDS := 3600

  const TWO_TO_THE_31 := 0x8000_0000
  const TWO_TO_THE_63 := 0x8000_0000_0000_0000

  // Go's fixed-width conversions.
  function Int64(x: int): int {
    (x + TWO_TO_THE_63) % (2 * TWO_TO_THE_63) - TWO_TO_THE_63
  }

  function Int32(x: int): int {
    (x + TWO_TO_THE_31) % (2 * TWO_TO_THE_31) - TWO_TO_THE_31
  }

  function Uint32(x: int): int {
    x % (2 * TWO_TO_THE_31)
  }

  // The part of the backend configuration that bears on TTLs.
  datatype BackendType =
    | Cassandra
    | Aerospike(defaultTTLSecs: int)
    | Redis(expirationMinutes: int)
    | OtherBackend

  function GetMaxTTLSeconds(backend: BackendType, requestMax: int): int {
    match backend
    case Cassandra =>
      if requestMax > CASSANDRA_DEFAULT_TTL_SECONDS then CASSANDRA_DEFAULT_TTL_SECONDS else requestMax
    case Aerospike(secs) =>
      if secs > 0 && requestMax > secs then secs else requestMax
    case Redis(minutes) =>
      if minutes > 0 && requestMax > Int64(minutes * 60) then Int64(minutes * 60) else requestMax
    case OtherBackend => requestMax
  }

  // LimitTTLs: the cap given to the decorator.
  function CapOf(maxTTLSeconds: int): int {
    if maxTTLSeconds <= 0 then REQUEST_MAX_TTL_SECONDS else maxTTLSeconds
  }

  // ttlLimited.Put: the TTL handed to the delegate.
  function Clamp(cap: int, requested: int): int {
    if cap > requested && requested > 0 then requested else cap
  }

  function EffectiveCap(backend: BackendType, requestMax: int): int {
    CapOf(GetMaxTTLSeconds(backend, requestMax))
  }

  function EffectiveTTL(backend: BackendType, requestMax: int, requested: int): int {
    Clamp(EffectiveCap(backend, requestMax), requested)
  }

  // The limit that the backend's own section of the configuration sets, if any.
  function BackendLimit(backend: BackendType): Option<int> {
    match backend
    case Cassandra => Some(CASSANDRA_DEFAULT_TTL_SECONDS)
    case Aerospike(secs) => if secs > 0 then Some(secs) else None
    case Redis(minutes) => if minutes > 0 then Some(minutes * 60) else None
    case OtherBackend => None
  }

  // The smaller of the request limit and the backend's own.
  function SmallerLimit(backend: BackendType, requestMax: int): int {
    var limit := BackendLimit(backend);
    if limit.Some? && limit.value < requestMax then limit.value else requestMax
  }

  // The code's product of minutes and seconds, reduced to 64 bits, replaces the request limit by something else.
  predicate WrapsBelow(backend: BackendType, requestMax: int) {
    && backend.Redis? && backend.expirationMinutes > 0
    && backend.expirationMinutes * 60 >= TWO_TO_THE_63 && Int64(backend.expirationMinutes * 60) < requestMax
  }

  lemma TtlBound(backend: BackendType, requestMax: int, requested: int)
    ensures 1 <= EffectiveTTL(backend, requestMax, requested) <= EffectiveCap(backend, requestMax)
    ensures EffectiveTTL(backend, requestMax, requested) == requested
            <==> 1 <= requested <= EffectiveCap(backend, requestMax)
    ensures !(1 <= requested <= EffectiveCap(backend, requestMax))
            ==> EffectiveTTL(backend, requestMax, requested) == EffectiveCap(backend, requestMax)
  {
  }

  // With a positive request limit the cap is the smaller of the two limits, unless the Redis limit overflows to a
  // smaller number; then it is that number or, if that is not positive, an hour.
  lemma CapIsMinimumIff(backend: BackendType, requestMax: int)
    requires 0 < requestMax < TWO_TO_THE_63
    ensures EffectiveCap(backend, requestMax) == SmallerLimit(backend, requestMax)
            <==> !WrapsBelow(backend, requestMax)
                 || (requestMax == REQUEST_MAX_TTL_SECONDS && Int64(backend.expirationMinutes * 60) <= 0)
  {
  }

  // Without a request limit every backend gets an hour.
  lemma NoRequestLimitIsAnHour(backend: BackendType, requestMax: int)
    requires requestMax <= 0
    ensures EffectiveCap(backend, requestMax) == 3600
  {
  }

  // With one, the smaller limit wins: Cassandra's is fixed at 2400 seconds, Aerospike's is in seconds and Redis's in minutes,
  // both only if positive and, for Redis, short of overflow.
  lemma CapsByBackend(requestMax: int, secs: int, minutes: int)
    requires requestMax > 0 && minutes * 60 < 0x8000_0000_0000_0000
    ensures EffectiveCap(Cassandra, requestMax) == if requestMax > 2400 then 2400 else requestMax
    ensures EffectiveCap(Aerospike(secs), requestMax) == if 0 < secs < requestMax then secs else requestMax
    ensures EffectiveCap(Redis(minutes), requestMax) == if 0 < minutes * 60 < requestMax then minutes * 60 else requestMax
    ensures EffectiveCap(OtherBackend, requestMax) == requestMax
  {
  }

  // A Redis expiration of 2^63 + 52 seconds lowers a one-week request limit to an hour.
  lemma OverflowLowersTheCap()
    ensures EffectiveCap(Redis(153722867280912931), 604800) == REQUEST_MAX_TTL_SECONDS
            < SmallerLimit(Redis(153722867280912931), 604800)
  {
  }

  // The backend's own limit binds every request exactly when a request limit is configured,
  // or the backend's limit is at least the one-hour fallback.
  lemma BackendLimitBinds(backend: BackendType, requestMax: int)
    requires requestMax < TWO_TO_THE_63 && BackendLimit(backend).Some?
    ensures (forall requested :: EffectiveTTL(backend, requestMax, requested) <= BackendLimit(backend).value)
            <==> requestMax > 0 || BackendLimit(backend).value >= REQUEST_MAX_TTL_SECONDS
  {
    CapWithinLimitIff(backend, requestMax);
    forall requested
      ensures EffectiveTTL(backend, requestMax, requested) <= EffectiveTTL(backend, requestMax, 0)
    {
      TtlBound(backend, requestMax, requested);
    }
    assert EffectiveTTL(backend, requestMax, 0) == EffectiveCap(backend, requestMax);
  }

  lemma CapWithinLimitIff(backend: BackendType, requestMax: int)
    requires requestMax < TWO_TO_THE_63 && BackendLimit(backend).Some?
    ensures EffectiveCap(backend, requestMax) <= BackendLimit(backend).value
            <==> requestMax > 0 || BackendLimit(backend).value >= REQUEST_MAX_TTL_SECONDS
  {
  }

  // Cassandra with max_ttl_seconds 0 hands its own 2400-second limit an hour.
  lemma BackendLimitBypassed()
    ensures EffectiveTTL(Cassandra, 0, 3000) == 3000 > BackendLimit(Cassandra).value
  {
  }

  // The memcache, aerospike, ignite and redis adapters: int32, uint32, milliseconds, nanoseconds.
  predicate AdaptersPreserve(ttl: int) {
    && Int32(ttl) == ttl
    && Uint32(ttl) == ttl
    && Int64(ttl * 1000) == ttl * 1000
    && Int64(ttl * 1_000_000_000) == ttl * 1_000_000_000
  }

  lemma AdaptersPreserveIff(ttl: int)
    requires 1 <= ttl
    ensures AdaptersPreserve(ttl) <==> ttl < TWO_TO_THE_31
  {
  }

  lemma AdaptersPreserveEveryTtl(backend: BackendType, requestMax: int)
    ensures (forall requested :: AdaptersPreserve(EffectiveTTL(backend, requestMax, requested)))
            <==> EffectiveCap(backend, requestMax) < TWO_TO_THE_31
  {
    forall requested
      ensures EffectiveTTL(backend, requestMax, requested) <= EffectiveTTL(backend, requestMax, 0)
      ensures AdaptersPreserve(EffectiveTTL(backend, requestMax, requested))
              <==> EffectiveTTL(backend, requestMax, requested) < TWO_TO_THE_31
    {
      TtlBound(backend, requestMax, requested);
      AdaptersPreserveIff(EffectiveTTL(backend, requestMax, requested));
    }
    assert EffectiveTTL(backend, requestMax, 0) == EffectiveCap(backend, requestMax);
  }
}
