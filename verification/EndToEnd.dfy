/** main.go and endpoints/routing: one store behind one stack of decorators, shared by the public and admin routers. */
module EndToEnd {
  import opened Basics
  import opened Errors
  import opened Metrics
  import opened PutObjects
  import opened Responses
  import opened Store
  import opened Backends
  import opened WriteOnce
  import opened Batch
  import opened MachineTheorems
  import Ttl
  import G = GetHandler
  import P = PutHandler
  import W = PutWorker
  import M = Machine

  datatype Settings = Settings(
    stack: Backends.Config, remote: bool, allowSettingKeys: bool, maxNumValues: int, allowPublicWrite: bool)

  // The /cache routes; a router that does not accept writes has no POST handler.
  datatype Router = Router(get: G.GetHandler, put: P.PutHandler?)

  // The handlers agree on the backend, on the recorder, and on whether clients may choose keys.
  ghost predicate Agree(put: P.PutHandler, get: G.GetHandler, frame: set<Engine>) {
    && put.Valid(frame) && get.Valid(frame)
    && put.backend == get.backend && put.metrics == get.metrics && put.cfg.allowKeys == get.allowCustomKeys
  }

  method NewRouter(cfg: Settings, write: bool, backend: Backend, metrics: Recorder) returns (router: Router)
    ensures router.get == G.GetHandler(backend, metrics, cfg.allowSettingKeys)
    ensures router.put != null <==> write
    ensures write ==> fresh(router.put) && router.put.backend == backend && router.put.metrics == metrics
                      && router.put.cfg.allowKeys == cfg.allowSettingKeys && router.put.cfg.maxNumValues == cfg.maxNumValues
                      && router.put.cfg.maxSize == cfg.stack.maxSize && router.put.cfg.remote == cfg.remote
  {
    var put: P.PutHandler? := null;
    if write {
      put := new P.PutHandler(backend, metrics, W.Config(cfg.allowSettingKeys, cfg.maxNumValues, cfg.stack.maxSize, cfg.remote));
    }
    router := Router(G.GetHandler(backend, metrics, cfg.allowSettingKeys), put);
  }

  // Whatever is configured, both routers serve one store, new and empty unless it is the remote service, and any POST
  // handler agrees with any GET handler.
  method NewServer(cfg: Settings, codec: Codec, metrics: Recorder, service: MemoryBackend, ghost frame: set<Engine>)
    returns (public: Router, admin: Router)
    requires codec.Lawful() && metrics.Distinct() && forall i :: 0 <= i < |metrics.engines| ==> metrics.engines[i] in frame
    ensures admin.put != null && (public.put != null <==> cfg.allowPublicWrite)
    ensures Agree(admin.put, admin.get, frame) && Agree(admin.put, public.get, frame)
    ensures public.put != null ==> Agree(public.put, public.get, frame) && Agree(public.put, admin.get, frame)
    ensures admin.put.cfg == W.Config(cfg.allowSettingKeys, cfg.maxNumValues, cfg.stack.maxSize, cfg.remote)
    ensures public.put != null ==> public.put.cfg == admin.put.cfg
    ensures public.get == admin.get && admin.get.allowCustomKeys == cfg.allowSettingKeys && admin.get.metrics == metrics
    ensures Stores(admin.get.backend, cfg.stack.compression, codec) && Decorated(admin.get.backend, metrics, cfg.stack.maxSize)
    ensures forall ttl :: admin.get.backend.BaseTtl(ttl) == Ttl.EffectiveTTL(cfg.stack.backendType, cfg.stack.maxTTLSeconds, ttl)
    ensures admin.get.backend.IsRemote() == cfg.remote
    ensures if cfg.remote then admin.get.backend.Base() == service
            else fresh(admin.get.backend.Base()) && admin.get.backend.Base().db == map[]
  {
    var base := Remote(service);
    if !cfg.remote {
      var store := new MemoryBackend();
      base := Memory(store);
    }
    var backend := DecorateBackend(cfg.stack, codec, metrics, base);
    DecoratedStack(cfg.stack, codec, metrics, base, frame);
    hide DecorateBackend, SampledBy, Stores;
    public := NewRouter(cfg, cfg.allowPublicWrite, backend, metrics);
    admin := NewRouter(cfg, true, backend, metrics);
  }

  lemma IssuedUuidParses(cfg: W.Config, input: M.Input, i: nat, uuid: Bytes)
    requires M.GeneratorOk(input) && i < |M.Puts(input)| && uuid != []
    requires Contends(cfg, M.NewWorkers(input)[i], uuid)
    ensures ParseUUID(uuid, cfg.allowKeys) == Ok(uuid)
  {
  }

  // A GET of a UUID that a POST answered with, over any later contents of the base store, comes to the type and
  // payload of that element, unless a remote service fails the read.
  lemma PublishedIsServed(put: P.PutHandler, get: G.GetHandler, frame: set<Engine>, input: M.Input, uuids: seq<Bytes>, i: nat,
                          store: View, later: map<Bytes, Bytes>)
    requires Agree(put, get, frame) && M.GeneratorOk(input)
    requires put.Published(store, input, uuids) && i < |uuids| && uuids[i] != []
    requires Extends(store, put.backend.View(later))
    ensures Payload(M.Puts(input)[i]).Some?
    ensures GetResponse(get.Looked(later, uuids[i], None)) == Echo(M.Puts(input)[i])
    ensures forall err :: GetResponse(get.Looked(later, uuids[i], Some(err))) == ErrorResponse(err)
  {
    hide SampledBy, Decorated;
    var w, uuid := M.NewWorkers(input)[i], uuids[i];
    assert Supplies(put.cfg, w, uuid, if uuid in store then store[uuid] else None);
    IssuedUuidParses(put.cfg, input, i, uuid);
    assert Lookup(get.backend.View(later), uuid) == Ok(ParsePutObject(w.po).value);
    FormatThenServe(w.po);
  }

  // The GET on its own: store is what the base store held, decoded, when the POST answered.
  method ReadBack(put: P.PutHandler, get: G.GetHandler, input: M.Input, uuids: seq<Bytes>, i: nat, w: G.ResponseWriter,
                  ghost store: View, ghost frame: set<Engine>)
    returns (ghost failure: Option<GoError>)
    requires Agree(put, get, frame) && M.GeneratorOk(input)
    requires put.Published(store, input, uuids) && i < |uuids| && uuids[i] != [] && Extends(store, put.Store())
    modifies w`sent, frame`counts
    ensures failure.Some? ==> put.backend.IsRemote()
    ensures Payload(M.Puts(input)[i]).Some?
    ensures w.sent == old(w.sent) + [if failure.Some? then ErrorResponse(failure.value) else Echo(M.Puts(input)[i])]
    ensures old(put.metrics.EqualCounts()) ==> put.metrics.EqualCounts()
  {
    hide SampledBy, Decorated;
    PublishedIsServed(put, get, frame, input, uuids, i, store, get.backend.Base().db);
    failure := get.Handle(uuids[i], w, frame);
  }

  // A POST, in terms of its body. One that does not decode, or has too many elements, is a 400. Over a store that does not
  // fail, any other succeeds exactly if every element is sound and the response can be marshalled. A reply with UUIDs has
  // one for each element, in order, leading to that element's entry. No entry is changed, and each new one is an element's.
  method Post(put: P.PutHandler, input: M.Input, replies: P.ReplyWriter, ghost ps: seq<PutObject>, ghost ids: seq<Option<Bytes>>,
              ghost frame: set<Engine>)
    returns (reply: P.Reply)
    requires put.Valid(frame)
    modifies replies`sent, frame`counts, put.backend.Base()`db, put.backend.Base()`ttls,
             put.requestPool, put.requestPool.returned`puts, put.responsePool, put.responsePool.returned`responses
    ensures replies.sent == old(replies.sent) + [reply]
    ensures !input.body.Decoded? ==> reply == P.Refused(400)
    ensures Asks(input, ps, ids) && |ps| > put.cfg.maxNumValues ==> reply == P.Refused(400)
    ensures Asks(input, ps, ids) && |ps| <= put.cfg.maxNumValues && !put.cfg.remote ==>
              (reply.Stored? <==> !input.marshalFails && forall i :: 0 <= i < |ps| ==> Sound(put.cfg, ps[i], ids[i]))
    ensures Asks(input, ps, ids) && reply.Stored? ==>
              && |reply.uuids| == |ps| <= put.cfg.maxNumValues
              && forall i :: 0 <= i < |ps| && reply.uuids[i] != [] ==>
                   put.Carries(put.Store(), put.backend.Base().ttls, ps[i], ids[i], reply.uuids[i])
    ensures Asks(input, ps, ids) ==> forall key :: key in put.Store() && key !in old(put.Store()) ==>
              exists i :: 0 <= i < |ps| && put.Carries(put.Store(), put.backend.Base().ttls, ps[i], ids[i], key)
    ensures !put.cfg.remote ==> put.IsReply(input, reply)
    ensures reply.Stored? ==> put.Published(put.Store(), input, reply.uuids)
    ensures Extends(old(put.Store()), put.Store())
    ensures old(put.requestPool.returned) <= put.requestPool.returned
            && fresh(put.requestPool.returned - old(put.requestPool.returned))
    ensures old(put.responsePool.returned) <= put.responsePool.returned
            && fresh(put.responsePool.returned - old(put.responsePool.returned))
    ensures old(put.metrics.EqualCounts()) ==> put.metrics.EqualCounts()
  {
    ghost var before := put.backend.Base().ttls;
    ghost var answer, ws := put.Handle(input, replies, frame);
    put.ReplyPromises(old(put.Store()), put.Store(), input, ws);
    PostMeaning(put, old(put.Store()), before, put.Store(), put.backend.Base().ttls, input, ws, ps, ids, answer);
    hide Decorated, Finished, Asks, Sound;
    reply := replies.sent[|replies.sent| - 1];
  }

  lemma PostMeaning(put: P.PutHandler, start: View, before: map<Bytes, int>, store: View, ttls: map<Bytes, int>, input: M.Input,
                    ws: seq<W.Worker>, ps: seq<PutObject>, ids: seq<Option<Bytes>>, reply: P.Reply)
    requires Finished(put.cfg, start, store, P.Elements(put.cfg, input), ws) && put.TtlsRecorded(start, before, ttls, ws)
    requires reply == P.ReplyTo(P.Outcome(put.cfg, input, ws)) && (!put.cfg.remote ==> put.IsReply(input, reply))
    ensures !input.body.Decoded? ==> reply == P.Refused(400)
    ensures Asks(input, ps, ids) && |ps| > put.cfg.maxNumValues ==> reply == P.Refused(400)
    ensures Asks(input, ps, ids) && |ps| <= put.cfg.maxNumValues && !put.cfg.remote ==>
              (reply.Stored? <==> !input.marshalFails && forall i :: 0 <= i < |ps| ==> Sound(put.cfg, ps[i], ids[i]))
    ensures Asks(input, ps, ids) && reply.Stored? ==>
              && |reply.uuids| == |ps| <= put.cfg.maxNumValues
              && forall i :: 0 <= i < |ps| && reply.uuids[i] != [] ==> put.Carries(store, ttls, ps[i], ids[i], reply.uuids[i])
    ensures Asks(input, ps, ids) ==> forall key :: key in store && key !in start ==>
              exists i :: 0 <= i < |ps| && put.Carries(store, ttls, ps[i], ids[i], key)
  {
    P.ReplyMeaning(P.Outcome(put.cfg, input, ws));
    RejectionMeaning(put.cfg, input, ps, ids);
    var i := ExpectedErrorMeaning(put.cfg, input, ps, ids);
    if Asks(input, ps, ids) {
      put.BatchMeaning(start, before, store, ttls, input, ws, ps, ids);
    }
  }

  // A POST through one router, any other POST through another, and a GET through either: if the first POST answers with a
  // UUID for element i, the GET sends exactly that element's type and payload (or, if a remote service fails the read, an
  // error), and the other POST, whatever it asked for, makes no difference. All metric engines stay in step.
  method PostThenGet(put: P.PutHandler, other: P.PutHandler, get: G.GetHandler, input: M.Input, otherInput: M.Input, i: nat,
                     replies: P.ReplyWriter, w: G.ResponseWriter, ghost frame: set<Engine>)
    returns (reply: P.Reply, ghost failure: Option<GoError>)
    requires Agree(put, get, frame) && Agree(other, get, frame) && M.GeneratorOk(input)
    modifies replies`sent, w`sent, frame`counts, put.backend.Base()`db, put.backend.Base()`ttls,
             put.requestPool, put.requestPool.returned`puts, put.responsePool, put.responsePool.returned`responses,
             other.requestPool, other.requestPool.returned`puts, other.responsePool, other.responsePool.returned`responses
    ensures !put.cfg.remote ==> put.IsReply(input, reply)
    ensures failure.Some? ==> put.backend.IsRemote()
    ensures if reply.Stored? && i < |reply.uuids| && reply.uuids[i] != []
            then && input.body.Decoded? && input.body.puts.Some? && i < |input.body.puts.value|
                 && var p := input.body.puts.value[i];
                    && Payload(p).Some?
                    && w.sent == old(w.sent) + [if failure.Some? then ErrorResponse(failure.value) else Echo(p)]
            else w.sent == old(w.sent)
    ensures old(put.metrics.EqualCounts()) ==> put.metrics.EqualCounts()
  {
    hide Decorated, SampledBy, Asks, Sound, Payload, Echo, ErrorResponse, P.PutHandler.Carries, P.PutHandler.IsReply, Extends;
    ghost var sent := w.sent;
    reply := Post(put, input, replies, [], [], frame);
    ghost var published := put.Store();
    var ignored := Post(other, otherInput, replies, [], [], frame);
    assert w.sent == sent;
    failure := None;
    if reply.Stored? && i < |reply.uuids| && reply.uuids[i] != [] {
      failure := ReadBack(put, get, input, reply.uuids, i, w, published, frame);
    }
  }
}
