/**
 The in-memory store (backends/memory.go), the decorators around a store (backends/decorators, compression)
 and the stack that DecorateBackend builds (backends/config/config.go).
 */
module Backends {
  import opened Basics
  import opened Errors
  import opened Metrics
  import opened Store
  import Ttl

  class MemoryBackend {
    var db: map<Bytes, Bytes>
    // The TTL that came with each entry; the in-memory store itself ignores it.
    ghost var ttls: map<Bytes, int>

    constructor ()
      ensures db == map[]
    {
      db, ttls := map[], map[];
    }

    method Get(key: Bytes) returns (r: Result<Bytes, GoError>)
      ensures r == if key in db then Ok(db[key]) else Err(Fail(KEY_NOT_FOUND))
    {
      if key !in db {
        return Err(Fail(KEY_NOT_FOUND));
      }
      r := Ok(db[key]);
    }

    method Put(key: Bytes, value: Bytes, ttlSeconds: int) returns (err: Option<GoError>)
      modifies this`db, this`ttls
      ensures key in old(db) ==> err == Some(Fail(RECORD_EXISTS)) && db == old(db) && ttls == old(ttls)
      ensures key !in old(db) ==> err == None && db == old(db)[key := value] && ttls == old(ttls)[key := ttlSeconds]
    {
      if key in db {
        return Some(Fail(RECORD_EXISTS));
      }
      db, ttls := db[key := value], ttls[key := ttlSeconds];
      err := None;
    }
  }

  // A compression library.
  datatype Codec = Codec(encode: Bytes -> Bytes, decode: Bytes -> Option<Bytes>) {
    ghost predicate Lawful() {
      forall s: Bytes :: decode(encode(s)) == Some(s)
    }
  }

  // A store with its decorators, outermost first. The decorators' own fields never change.
  datatype Backend =
    | Memory(store: MemoryBackend)
    // A client of a remote service that keeps a set-if-absent table. Calls may fail, before or after they reach it.
    | Remote(service: MemoryBackend)
    | Snappy(delegate: Backend, codec: Codec)
    | SizeCapped(delegate: Backend, limit: int)
    | Metered(delegate: Backend, metrics: Recorder)
    | TtlLimited(delegate: Backend, maxTTLSeconds: int)
  {
    function Base(): MemoryBackend {
      match this
      case Memory(base) => base
      case Remote(base) => base
      case _ => delegate.Base()
    }

    predicate IsRemote() {
      match this
      case Memory(_) => false
      case Remote(_) => true
      case _ => delegate.IsRemote()
    }

    // Codecs are lawful, and frame holds every engine that a layer records to.
    ghost predicate Valid(frame: set<Engine>) {
      match this
      case Memory(_) => true
      case Remote(_) => true
      case Snappy(d, c) => c.Lawful() && d.Valid(frame)
      case Metered(d, m) => m.Distinct() && (forall i :: 0 <= i < |m.engines| ==> m.engines[i] in frame) && d.Valid(frame)
      case _ => delegate.Valid(frame)
    }

    // What this layer reads out of the bytes in the base store, and what it has the base store hold.
    ghost function Decoded(raw: Bytes): Option<Bytes> {
      match this
      case Memory(_) => Some(raw)
      case Remote(_) => Some(raw)
      case Snappy(d, c) => if d.Decoded(raw) == None then None else c.decode(d.Decoded(raw).value)
      case _ => delegate.Decoded(raw)
    }

    ghost function Encoded(value: Bytes): Bytes {
      match this
      case Memory(_) => value
      case Remote(_) => value
      case Snappy(d, c) => d.Encoded(c.encode(value))
      case _ => delegate.Encoded(value)
    }

    lemma {:induction false} DecodesEncoded(value: Bytes, frame: set<Engine>)
      requires Valid(frame)
      ensures Decoded(Encoded(value)) == Some(value)
    {
      match this
      case Memory(_) =>
      case Remote(_) =>
      case Snappy(d, c) => d.DecodesEncoded(c.encode(value), frame);
      case _ => delegate.DecodesEncoded(value, frame);
    }

    // The abstraction: every value in the base store, decoded.
    ghost function View(db: map<Bytes, Bytes>): View {
      map key | key in db :: Decoded(db[key])
    }

    // The error the layers raise on a value without consulting the base store.
    ghost function Refusal(value: Bytes): Option<GoError> {
      match this
      case Memory(_) => None
      case Remote(_) => None
      case Snappy(d, c) => d.Refusal(c.encode(value))
      case SizeCapped(d, limit) =>
        if |value| == 0 || |value| > limit then Some(BadPayloadSize(limit, |value|)) else d.Refusal(value)
      case _ => delegate.Refusal(value)
    }

    ghost function BaseTtl(ttlSeconds: int): int {
      match this
      case Memory(_) => ttlSeconds
      case Remote(_) => ttlSeconds
      case TtlLimited(d, cap) => d.BaseTtl(Ttl.Clamp(cap, ttlSeconds))
      case _ => delegate.BaseTtl(ttlSeconds)
    }

    // The result of a read, unless the service fails it.
    ghost function Found(db: map<Bytes, Bytes>, key: Bytes, failure: Option<GoError>): Result<Bytes, GoError> {
      if failure.Some? then Err(failure.value) else Lookup(View(db), key)
    }

    lemma MeteringFindsTheSame(db: map<Bytes, Bytes>, key: Bytes, failure: Option<GoError>)
      requires Metered?
      ensures Found(db, key, failure) == delegate.Found(db, key, failure)
    {
    }

    // The error of a write, and what the base store holds after it.
    ghost function Denied(db: map<Bytes, Bytes>, key: Bytes, value: Bytes, fault: Option<Fault>): Option<GoError> {
      Verdict(View(db), key, Refusal(value), fault)
    }

    ghost function Updated(db: map<Bytes, Bytes>, key: Bytes, value: Bytes, fault: Option<Fault>): map<Bytes, Bytes> {
      if Accepts(View(db), key, Refusal(value), fault) then db[key := Encoded(value)] else db
    }

    // Seen through the abstraction, a write on any stack of decorators is one on the plain write-once map.
    lemma SimulatesWriteOnceMap(db: map<Bytes, Bytes>, key: Bytes, value: Bytes, fault: Option<Fault>, frame: set<Engine>)
      requires Valid(frame)
      ensures View(Updated(db, key, value, fault)) == AfterPut(View(db), key, value, Refusal(value), fault)
    {
      DecodesEncoded(value, frame);
    }

    // The samples that engine f takes during one call.
    ghost function PutLog(f: Engine, value: Bytes, err: Option<GoError>): multiset<Counter> {
      match this
      case Memory(_) => multiset{}
      case Remote(_) => multiset{}
      case Snappy(d, c) => d.PutLog(f, c.encode(value), err)
      case SizeCapped(d, limit) => if |value| == 0 || |value| > limit then multiset{} else d.PutLog(f, value, err)
      case Metered(d, m) =>
        if f in m.engines then PutStarted(value) + d.PutLog(f, value, err) + PutFinished(err == None) else d.PutLog(f, value, err)
      case TtlLimited(d, _) => d.PutLog(f, value, err)
    }

    ghost function GetLog(f: Engine, db: map<Bytes, Bytes>, key: Bytes, failure: Option<GoError>): multiset<Counter> {
      match this
      case Memory(_) => multiset{}
      case Remote(_) => multiset{}
      case Metered(d, m) =>
        if f in m.engines then GetStarted() + d.GetLog(f, db, key, failure) + GetFinished(Found(db, key, failure))
        else d.GetLog(f, db, key, failure)
      case _ => delegate.GetLog(f, db, key, failure)
    }

    // A call on the outermost layer. failure is what a remote service did to the read, if anything.
    method Get(key: Bytes, ghost frame: set<Engine>) returns (r: Result<Bytes, GoError>, ghost failure: Option<GoError>)
      requires Valid(frame)
      modifies frame`counts
      ensures failure.Some? ==> IsRemote() && WellBuilt(failure.value)
      ensures r == Found(Base().db, key, failure)
      ensures forall f :: f in frame ==> f.counts == old(f.counts) + GetLog(f, Base().db, key, failure)
      decreases this, 1
    {
      match this
      case Memory(store) =>
        r := store.Get(key);
        failure := None;
      case Remote(_) => r, failure := RemoteGet(key);
      case Snappy(_, _) => r, failure := SnappyGet(key, frame);
      case SizeCapped(delegate, _) => r, failure := delegate.Get(key, frame);
      case Metered(_, _) => r, failure := MeteredGet(key, frame);
      case TtlLimited(delegate, _) => r, failure := delegate.Get(key, frame);
    }

    // fault is what a remote service did to the write, if anything.
    method Put(key: Bytes, value: Bytes, ttlSeconds: int, ghost frame: set<Engine>)
      returns (err: Option<GoError>, ghost fault: Option<Fault>)
      requires Valid(frame)
      modifies Base()`db, Base()`ttls, frame`counts
      ensures fault.Some? ==> IsRemote()
      ensures err == Denied(old(Base().db), key, value, fault)
      ensures Base().db == Updated(old(Base().db), key, value, fault)
      ensures Base().ttls == if Accepts(old(View(Base().db)), key, Refusal(value), fault) then old(Base().ttls)[key := BaseTtl(ttlSeconds)] else old(Base().ttls)
      ensures forall f :: f in frame ==> f.counts == old(f.counts) + PutLog(f, value, err)
      decreases this, 1
    {
      match this
      case Memory(store) =>
        err := store.Put(key, value, ttlSeconds);
        fault := None;
      case Remote(_) => err, fault := RemotePut(key, value, ttlSeconds);
      case Snappy(delegate, codec) => err, fault := delegate.Put(key, codec.encode(value), ttlSeconds, frame);
      case SizeCapped(_, _) => err, fault := SizeCappedPut(key, value, ttlSeconds, frame);
      case Metered(_, _) => err, fault := MeteredPut(key, value, ttlSeconds, frame);
      case TtlLimited(_, _) => err, fault := TtlLimitedPut(key, value, ttlSeconds, frame);
    }

    // A failed call reports any error; only NewPBCError makes PBCErrors.
    method RemoteGet(key: Bytes) returns (r: Result<Bytes, GoError>, ghost failure: Option<GoError>)
      requires Remote?
      ensures failure.Some? ==> WellBuilt(failure.value)
      ensures r == Found(Base().db, key, failure)
      ensures r.Ok? ==> key in Base().db && r.value == Base().db[key]
    {
      var fails: bool := *;
      if !fails {
        r := service.Get(key);
        failure := None;
      } else {
        var err: GoError := *;
        err := if WellBuilt(err) then err else OtherError;
        r, failure := Err(err), Some(err);
      }
    }

    method RemotePut(key: Bytes, value: Bytes, ttlSeconds: int) returns (err: Option<GoError>, ghost fault: Option<Fault>)
      requires Remote?
      modifies Base()`db, Base()`ttls
      ensures err == Denied(old(Base().db), key, value, fault)
      ensures Base().db == Updated(old(Base().db), key, value, fault)
      ensures Base().ttls == if Accepts(old(View(Base().db)), key, None, fault) then old(Base().ttls)[key := ttlSeconds] else old(Base().ttls)
    {
      var fails: bool, arrives: bool := *, *;
      fault := None;
      if !fails || arrives {
        err := service.Put(key, value, ttlSeconds);
      }
      if fails {
        var reported: GoError := *;
        err, fault := Some(reported), Some(Fault(reported, arrives));
      }
    }

    method SnappyGet(key: Bytes, ghost frame: set<Engine>) returns (r: Result<Bytes, GoError>, ghost failure: Option<GoError>)
      requires Snappy? && Valid(frame)
      modifies frame`counts
      ensures failure.Some? ==> IsRemote() && WellBuilt(failure.value)
      ensures r == Found(Base().db, key, failure)
      ensures forall f :: f in frame ==> f.counts == old(f.counts) + GetLog(f, Base().db, key, failure)
      decreases this, 0
    {
      r, failure := delegate.Get(key, frame);
      if r.Ok? {
        var decompressed := codec.decode(r.value);
        r := if decompressed.None? then Err(CorruptData) else Ok(decompressed.value);
      }
    }

    method MeteredGet(key: Bytes, ghost frame: set<Engine>) returns (r: Result<Bytes, GoError>, ghost failure: Option<GoError>)
      requires Metered? && Valid(frame)
      modifies frame`counts
      ensures failure.Some? ==> IsRemote() && WellBuilt(failure.value)
      ensures r == Found(Base().db, key, failure)
      ensures forall f :: f in frame ==> f.counts == old(f.counts) + GetLog(f, Base().db, key, failure)
      decreases this, 0
    {
      hide Found, GetFinished;
      ghost var db := Base().db;
      metrics.Record(GetBackendTotal);
      assert Base().db == db;
      r, failure := delegate.Get(key, frame);
      MeteringFindsTheSame(db, key, failure);
      assert Base().db == db && r == Found(db, key, failure);
      RecordGetOutcome(metrics, r);
      assert Base().db == db;
    }

    method SizeCappedPut(key: Bytes, value: Bytes, ttlSeconds: int, ghost frame: set<Engine>)
      returns (err: Option<GoError>, ghost fault: Option<Fault>)
      requires SizeCapped? && Valid(frame)
      modifies Base()`db, Base()`ttls, frame`counts
      ensures fault.Some? ==> IsRemote()
      ensures err == Denied(old(Base().db), key, value, fault)
      ensures Base().db == Updated(old(Base().db), key, value, fault)
      ensures Base().ttls == if Accepts(old(View(Base().db)), key, Refusal(value), fault) then old(Base().ttls)[key := BaseTtl(ttlSeconds)] else old(Base().ttls)
      ensures forall f :: f in frame ==> f.counts == old(f.counts) + PutLog(f, value, err)
      decreases this, 0
    {
      if |value| == 0 || |value| > limit {
        return Some(BadPayloadSize(limit, |value|)), None;
      }
      err, fault := delegate.Put(key, value, ttlSeconds, frame);
    }

    method MeteredPut(key: Bytes, value: Bytes, ttlSeconds: int, ghost frame: set<Engine>)
      returns (err: Option<GoError>, ghost fault: Option<Fault>)
      requires Metered? && Valid(frame)
      modifies Base()`db, Base()`ttls, frame`counts
      ensures fault.Some? ==> IsRemote()
      ensures err == Denied(old(Base().db), key, value, fault)
      ensures Base().db == Updated(old(Base().db), key, value, fault)
      ensures Base().ttls == if Accepts(old(View(Base().db)), key, Refusal(value), fault) then old(Base().ttls)[key := BaseTtl(ttlSeconds)] else old(Base().ttls)
      ensures forall f :: f in frame ==> f.counts == old(f.counts) + PutLog(f, value, err)
      decreases this, 0
    {
      ghost var db := Base().db;
      RecordPutStart(metrics, value);
      assert Base().db == db && Base().ttls == old(Base().ttls);
      err, fault := delegate.Put(key, value, ttlSeconds, frame);
      ghost var end, ttls := Base().db, Base().ttls;
      RecordPutOutcome(metrics, err);
      assert Base().db == end && Base().ttls == ttls;
    }

    method TtlLimitedPut(key: Bytes, value: Bytes, requestTTLSeconds: int, ghost frame: set<Engine>)
      returns (err: Option<GoError>, ghost fault: Option<Fault>)
      requires TtlLimited? && Valid(frame)
      modifies Base()`db, Base()`ttls, frame`counts
      ensures fault.Some? ==> IsRemote()
      ensures err == Denied(old(Base().db), key, value, fault)
      ensures Base().db == Updated(old(Base().db), key, value, fault)
      ensures Base().ttls == if Accepts(old(View(Base().db)), key, Refusal(value), fault) then old(Base().ttls)[key := BaseTtl(requestTTLSeconds)] else old(Base().ttls)
      ensures forall f :: f in frame ==> f.counts == old(f.counts) + PutLog(f, value, err)
      decreases this, 0
    {
      var ttl := maxTTLSeconds;
      if maxTTLSeconds > requestTTLSeconds && requestTTLSeconds > 0 {
        ttl := requestTTLSeconds;
      }
      err, fault := delegate.Put(key, value, ttl, frame);
    }
  }

  // The samples backendWithMetrics takes before and after its delegate's call.
  function PutStarted(value: Bytes): multiset<Counter> {
    multiset{if XML_PREFIX <= value then PutBackendXml else if JSON_PREFIX <= value then PutBackendJson else PutBackendInvalid,
             PutBackendTTLSeconds}
  }

  function PutFinished(accepted: bool): multiset<Counter> {
    multiset{if accepted then PutBackendDuration else PutBackendError, PutBackendSize}
  }

  function GetStarted(): multiset<Counter> {
    multiset{GetBackendTotal}
  }

  function GetFinished(r: Result<Bytes, GoError>): multiset<Counter> {
    if r.Ok? then multiset{GetBackendDuration}
    else if r.error.Pbc? && r.error.pbc.kind == KEY_NOT_FOUND then multiset{KeyNotFoundError, GetBackendError}
    else if r.error.Pbc? && r.error.pbc.kind == MISSING_KEY then multiset{MissingKeyError, GetBackendError}
    else multiset{GetBackendError}
  }

  method RecordPutStart(metrics: Recorder, value: Bytes)
    requires metrics.Distinct()
    modifies metrics.engines`counts
    ensures forall f :: f in metrics.engines ==> f.counts == old(f.counts) + PutStarted(value)
  {
    if XML_PREFIX <= value {
      metrics.Record(PutBackendXml);
    } else if JSON_PREFIX <= value {
      metrics.Record(PutBackendJson);
    } else {
      metrics.Record(PutBackendInvalid);
    }
    metrics.Record(PutBackendTTLSeconds);
  }

  method RecordPutOutcome(metrics: Recorder, err: Option<GoError>)
    requires metrics.Distinct()
    modifies metrics.engines`counts
    ensures forall f :: f in metrics.engines ==> f.counts == old(f.counts) + PutFinished(err == None)
  {
    if err == None {
      metrics.Record(PutBackendDuration);
    } else {
      metrics.Record(PutBackendError);
    }
    metrics.Record(PutBackendSize);
  }

  method RecordGetOutcome(metrics: Recorder, r: Result<Bytes, GoError>)
    requires metrics.Distinct()
    modifies metrics.engines`counts
    ensures forall f :: f in metrics.engines ==> f.counts == old(f.counts) + GetFinished(r)
  {
    if r.Ok? {
      metrics.Record(GetBackendDuration);
    } else {
      if r.error.Pbc? {
        if r.error.pbc.kind == KEY_NOT_FOUND {
          metrics.Record(KeyNotFoundError);
        } else if r.error.pbc.kind == MISSING_KEY {
          metrics.Record(MissingKeyError);
        }
      }
      metrics.Record(GetBackendError);
    }
  }

  // ---------- What a backend samples ----------

  lemma WriteSamplesAreSilent(value: Bytes, accepted: bool, c: Counter)
    requires HandlerPutCounter(c) || HandlerGetCounter(c)
    ensures PutStarted(value)[c] == 0 && PutFinished(accepted)[c] == 0
  {
  }

  lemma ReadSamplesAreSilent(r: Result<Bytes, GoError>, c: Counter)
    requires HandlerPutCounter(c) || HandlerGetCounter(c)
    ensures GetStarted()[c] == 0 && GetFinished(r)[c] == 0
  {
  }

  // A backend's samples are never the handlers' own, whether it is written to or read from.
  lemma {:induction false} PutIsSilent(b: Backend, f: Engine, value: Bytes, err: Option<GoError>, c: Counter)
    requires HandlerPutCounter(c) || HandlerGetCounter(c)
    ensures b.PutLog(f, value, err)[c] == 0
  {
    WriteSamplesAreSilent(value, err == None, c);
    hide PutStarted, PutFinished;
    match b
    case Memory(_) =>
    case Remote(_) =>
    case Snappy(d, codec) => PutIsSilent(d, f, codec.encode(value), err, c);
    case _ => PutIsSilent(b.delegate, f, value, err, c);
  }

  lemma {:induction false} GetIsSilent(b: Backend, f: Engine, db: map<Bytes, Bytes>, key: Bytes, failure: Option<GoError>, c: Counter)
    requires HandlerPutCounter(c) || HandlerGetCounter(c)
    ensures b.GetLog(f, db, key, failure)[c] == 0
  {
    ReadSamplesAreSilent(b.Found(db, key, failure), c);
    hide GetStarted, GetFinished;
    match b
    case Memory(_) =>
    case Remote(_) =>
    case _ => GetIsSilent(b.delegate, f, db, key, failure, c);
  }

  // ---------- DecorateBackend ----------

  datatype Compression = CompressionNone | CompressionSnappy

  // The parts of the configuration that shape the stack.
  datatype Config = Config(
    compression: Compression, maxSize: int, maxTTLSeconds: int, backendType: Ttl.BackendType)

  function ApplyCompression(compression: Compression, codec: Codec, backend: Backend): Backend {
    if compression == CompressionSnappy then Snappy(backend, codec) else backend
  }

  function DecorateBackend(cfg: Config, codec: Codec, metrics: Recorder, base: Backend): Backend {
    var compressed := ApplyCompression(cfg.compression, codec, base);
    var capped := if cfg.maxSize > 0 then SizeCapped(compressed, cfg.maxSize) else compressed;
    TtlLimited(Metered(capped, metrics), Ttl.CapOf(Ttl.GetMaxTTLSeconds(cfg.backendType, cfg.maxTTLSeconds)))
  }

  // The samples one call takes through the decorated stack.
  function PutSamples(value: Bytes, accepted: bool): multiset<Counter> {
    PutStarted(value) + PutFinished(accepted)
  }

  function GetSamples(r: Result<Bytes, GoError>): multiset<Counter> {
    GetStarted() + GetFinished(r)
  }

  // A write counts once by its type, with one TTL sample, one size sample, and a duration or an error.
  lemma WriteSamples(value: Bytes, accepted: bool, c: Counter)
    ensures PutSamples(value, accepted)[c] == One(
              || (c == PutBackendXml && [0x78, 0x6D, 0x6C] <= value)
              || (c == PutBackendJson && [0x6A, 0x73, 0x6F, 0x6E] <= value)
              || (c == PutBackendInvalid && !([0x78, 0x6D, 0x6C] <= value) && !([0x6A, 0x73, 0x6F, 0x6E] <= value))
              || c == PutBackendTTLSeconds || c == PutBackendSize
              || (c == PutBackendDuration && accepted) || (c == PutBackendError && !accepted))
  {
    if XML_PREFIX <= value {
      assert value[0] == XML_PREFIX[0] != JSON_PREFIX[0];
    }
  }

  // A read counts once, as a duration or an error, and a missing record or key counts as such too.
  lemma ReadSamples(r: Result<Bytes, GoError>, c: Counter)
    ensures GetSamples(r)[c] == One(
              || c == GetBackendTotal || (c == GetBackendDuration && r.Ok?) || (c == GetBackendError && r.Err?)
              || (c == KeyNotFoundError && r.Err? && r.error.Pbc? && r.error.pbc.kind == KEY_NOT_FOUND)
              || (c == MissingKeyError && r.Err? && r.error.Pbc? && r.error.pbc.kind == MISSING_KEY))
  {
  }

  // Every engine of the recorder takes exactly these samples.
  ghost predicate SampledBy(b: Backend, metrics: Recorder) {
    && (forall f, v, err :: f in metrics.engines ==> b.PutLog(f, v, err) == PutSamples(v, err == None))
    && (forall f, db, key, failure :: f in metrics.engines ==> b.GetLog(f, db, key, failure) == GetSamples(b.Found(db, key, failure)))
  }

  // And the guard on values is the one on their size.
  ghost predicate Decorated(b: Backend, metrics: Recorder, maxSize: int) {
    SampledBy(b, metrics) && forall v: Bytes :: b.Refusal(v) == SizeRefusal(maxSize, v)
  }

  // A well-formed stack over this base.
  ghost predicate Over(b: Backend, base: Backend, frame: set<Engine>) {
    b.Valid(frame) && b.Base() == base.Base() && b.IsRemote() == base.IsRemote()
  }

  // The stack stores and reads values as the codec has them, if compression is configured, and as they are if not.
  ghost predicate Stores(b: Backend, compression: Compression, codec: Codec) {
    && (forall v: Bytes :: b.Encoded(v) == if compression == CompressionSnappy then codec.encode(v) else v)
    && (forall raw: Bytes :: b.Decoded(raw) == if compression == CompressionSnappy then codec.decode(raw) else Some(raw))
  }

  lemma SameStorage(d: Backend, b: Backend, compression: Compression, codec: Codec)
    requires Stores(d, compression, codec) && (b.SizeCapped? || b.Metered? || b.TtlLimited?) && b.delegate == d
    ensures Stores(b, compression, codec)
  {
    assert forall v :: b.Encoded(v) == d.Encoded(v);
    assert forall raw :: b.Decoded(raw) == d.Decoded(raw);
  }

  lemma CompressionStores(compression: Compression, codec: Codec, base: Backend)
    requires base.Memory? || base.Remote?
    ensures Stores(ApplyCompression(compression, codec, base), compression, codec)
  {
    assert forall v :: base.Encoded(v) == v;
    assert forall raw :: base.Decoded(raw) == Some(raw);
  }

  // No layer limits TTLs or takes samples.
  ghost predicate Bare(b: Backend, frame: set<Engine>) {
    && (forall ttl :: b.BaseTtl(ttl) == ttl)
    && (forall f, v, err :: f in frame ==> b.PutLog(f, v, err) == multiset{})
    && (forall f, db, key, failure :: f in frame ==> b.GetLog(f, db, key, failure) == multiset{})
  }

  lemma CompressionLayer(compression: Compression, codec: Codec, base: Backend, frame: set<Engine>)
    requires codec.Lawful() && (base.Memory? || base.Remote?)
    ensures var b := ApplyCompression(compression, codec, base);
            Over(b, base, frame) && Bare(b, frame) && forall v :: b.Refusal(v) == None
  {
    var b := ApplyCompression(compression, codec, base);
    forall v
      ensures base.Refusal(v) == None && b.Refusal(v) == None
    {
      assert base.Refusal(codec.encode(v)) == None;
    }
    forall f, v, err | f in frame
      ensures b.PutLog(f, v, err) == multiset{}
    {
      assert base.PutLog(f, codec.encode(v), err) == base.PutLog(f, v, err) == multiset{};
    }
    forall f, db, key, failure | f in frame
      ensures b.GetLog(f, db, key, failure) == multiset{}
    {
      assert base.GetLog(f, db, key, failure) == multiset{};
    }
    assert forall ttl :: base.BaseTtl(ttl) == ttl;
  }

  lemma SizeLayer(d: Backend, maxSize: int, base: Backend, frame: set<Engine>)
    requires Over(d, base, frame) && Bare(d, frame) && forall v :: d.Refusal(v) == None
    ensures var b := if maxSize > 0 then SizeCapped(d, maxSize) else d;
            Over(b, base, frame) && Bare(b, frame) && forall v :: b.Refusal(v) == SizeRefusal(maxSize, v)
  {
    var b := if maxSize > 0 then SizeCapped(d, maxSize) else d;
    forall f, v, err | f in frame
      ensures b.PutLog(f, v, err) == multiset{}
    {
      assert d.PutLog(f, v, err) == multiset{};
    }
    forall f, db, key, failure | f in frame
      ensures b.GetLog(f, db, key, failure) == multiset{}
    {
      assert d.GetLog(f, db, key, failure) == multiset{};
    }
    assert forall ttl :: b.BaseTtl(ttl) == d.BaseTtl(ttl);
  }

  lemma MetricsLayer(d: Backend, maxSize: int, metrics: Recorder, base: Backend, frame: set<Engine>)
    requires Over(d, base, frame) && Bare(d, frame) && forall v :: d.Refusal(v) == SizeRefusal(maxSize, v)
    requires metrics.Distinct() && forall i :: 0 <= i < |metrics.engines| ==> metrics.engines[i] in frame
    ensures var b := Metered(d, metrics);
            Over(b, base, frame) && Decorated(b, metrics, maxSize) && forall ttl :: b.BaseTtl(ttl) == ttl
  {
    hide PutStarted, PutFinished, GetStarted, GetFinished, SizeRefusal;
    var b := Metered(d, metrics);
    forall f, v, err | f in metrics.engines
      ensures b.PutLog(f, v, err) == PutSamples(v, err == None)
    {
      assert f in frame && d.PutLog(f, v, err) == multiset{};
    }
    forall f, db, key, failure | f in metrics.engines
      ensures b.GetLog(f, db, key, failure) == GetSamples(b.Found(db, key, failure))
    {
      assert f in frame && d.GetLog(f, db, key, failure) == multiset{};
    }
    assert forall v :: b.Refusal(v) == d.Refusal(v);
    assert forall ttl :: b.BaseTtl(ttl) == d.BaseTtl(ttl);
  }

  lemma TtlLayer(d: Backend, maxSize: int, cap: int, metrics: Recorder, base: Backend, frame: set<Engine>)
    requires Over(d, base, frame) && Decorated(d, metrics, maxSize) && forall ttl :: d.BaseTtl(ttl) == ttl
    ensures var b := TtlLimited(d, cap);
            Over(b, base, frame) && Decorated(b, metrics, maxSize) && forall ttl :: b.BaseTtl(ttl) == Ttl.Clamp(cap, ttl)
  {
    forall f, v, err | f in metrics.engines
      ensures TtlLimited(d, cap).PutLog(f, v, err) == PutSamples(v, err == None)
    {
      assert TtlLimited(d, cap).PutLog(f, v, err) == d.PutLog(f, v, err);
    }
    forall f, db, key, failure | f in metrics.engines
      ensures TtlLimited(d, cap).GetLog(f, db, key, failure) == GetSamples(TtlLimited(d, cap).Found(db, key, failure))
    {
      assert TtlLimited(d, cap).View(db) == d.View(db);
    }
  }

  // Under every configuration and over either base the stack guards the uncompressed size and nothing else, hands the base
  // a TTL within the effective cap, and samples each call exactly once in every engine.
  lemma DecoratedStack(cfg: Config, codec: Codec, metrics: Recorder, base: Backend, frame: set<Engine>)
    requires codec.Lawful() && (base.Memory? || base.Remote?)
    requires metrics.Distinct() && forall i :: 0 <= i < |metrics.engines| ==> metrics.engines[i] in frame
    ensures var b := DecorateBackend(cfg, codec, metrics, base);
            && Over(b, base, frame) && Stores(b, cfg.compression, codec) && Decorated(b, metrics, cfg.maxSize)
            && forall ttl :: b.BaseTtl(ttl) == Ttl.EffectiveTTL(cfg.backendType, cfg.maxTTLSeconds, ttl)
  {
    hide Over, Bare, Decorated, Stores;
    var metered := DecorateBackend(cfg, codec, metrics, base).delegate;
    var compressed := ApplyCompression(cfg.compression, codec, base);
    CompressionLayer(cfg.compression, codec, base, frame);
    SizeLayer(compressed, cfg.maxSize, base, frame);
    MetricsLayer(metered.delegate, cfg.maxSize, metrics, base, frame);
    CompressionStores(cfg.compression, codec, base);
    if cfg.maxSize > 0 {
      SameStorage(compressed, metered.delegate, cfg.compression, codec);
    }
    SameStorage(metered.delegate, metered, cfg.compression, codec);
    SameStorage(metered, DecorateBackend(cfg, codec, metrics, base), cfg.compression, codec);
    TtlLayer(metered, cfg.maxSize, Ttl.EffectiveCap(cfg.backendType, cfg.maxTTLSeconds), metrics, base, frame);
  }

  // And so, seen through the abstraction, it is the plain write-once map with a size guard, whatever the service does.
  lemma DecoratedStackIsWriteOnceMap(cfg: Config, codec: Codec, metrics: Recorder, base: Backend, frame: set<Engine>,
                                     db: map<Bytes, Bytes>, key: Bytes, value: Bytes, fault: Option<Fault>)
    requires codec.Lawful() && (base.Memory? || base.Remote?)
    requires metrics.Distinct() && forall i :: 0 <= i < |metrics.engines| ==> metrics.engines[i] in frame
    ensures var b := DecorateBackend(cfg, codec, metrics, base);
            && b.Denied(db, key, value, fault) == Verdict(b.View(db), key, SizeRefusal(cfg.maxSize, value), fault)
            && b.View(b.Updated(db, key, value, fault)) == AfterPut(b.View(db), key, value, SizeRefusal(cfg.maxSize, value), fault)
  {
    DecoratedStack(cfg, codec, metrics, base, frame);
    DecorateBackend(cfg, codec, metrics, base).SimulatesWriteOnceMap(db, key, value, fault, frame);
  }
}
