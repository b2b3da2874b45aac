/** endpoints/get.go: the GET handler over a decorated backend. */
module GetHandler {
  import opened Basics
  import opened Errors
  import opened Metrics
  import opened Responses
  import opened Store
  import opened Backends
  import Machine

  // http.ResponseWriter, as the responses sent through it.
  class ResponseWriter {
    var sent: seq<Response>

    constructor ()
      ensures sent == []
    {
      sent := [];
    }

    method Send(response: Response)
      modifies this`sent
      ensures sent == old(sent) + [response]
    {
      sent := sent + [response];
    }
  }

  // Every error a GET can meet has a status of at least 400, so the handler samples exactly one outcome, and that by the
  // status it sends.
  lemma OneOutcome(looked: Result<Bytes, GoError>)
    requires looked.Err? ==> WellBuilt(looked.error)
    ensures var status := GetResponse(looked).status;
            && Machine.GetAnswerLog(looked)
               == multiset{if status < 400 then GetDuration else if status < 500 then GetBadRequest else GetError}
            && (status == 200 || 400 <= status)
  {
  }

  datatype GetHandler = GetHandler(backend: Backend, metrics: Recorder, allowCustomKeys: bool) {
    // The backend samples to the handler's recorder, and frame holds every engine of it.
    ghost predicate Valid(frame: set<Engine>) {
      && backend.Valid(frame) && SampledBy(backend, metrics)
      && metrics.Distinct() && forall i :: 0 <= i < |metrics.engines| ==> metrics.engines[i] in frame
    }

    // What the request comes to: a rejected UUID, or the backend's answer.
    ghost function Looked(db: map<Bytes, Bytes>, uuid: Bytes, failure: Option<GoError>): Result<Bytes, GoError> {
      if ParseUUID(uuid, allowCustomKeys).Err? then ParseUUID(uuid, allowCustomKeys) else backend.Found(db, uuid, failure)
    }

    // The response in terms of the base store: 400 without a UUID, 404 for one of the wrong length or under no key, 500 for
    // data that the stack cannot decode or that has no known type, and otherwise the data under its type; a failed read is
    // answered with the status of the failure, 500 if it has none.
    lemma LookedMeaning(db: map<Bytes, Bytes>, uuid: Bytes, failure: Option<GoError>)
      ensures var response := GetResponse(Looked(db, uuid, failure));
              if uuid == [] then response == Response(400, PlainText, [])
              else if |uuid| != 36 && !allowCustomKeys then response == Response(404, PlainText, [])
              else if failure.Some? then response == Response(if failure.value.Pbc? then failure.value.pbc.statusCode else 500, PlainText, [])
              else if uuid !in db then response == Response(404, PlainText, [])
              else match backend.Decoded(db[uuid])
                case None => response == Response(500, PlainText, [])
                case Some(v) =>
                  if [0x78, 0x6D, 0x6C] <= v then response == Response(200, ApplicationXml, v[3..])
                  else if [0x6A, 0x73, 0x6F, 0x6E] <= v then response == Response(200, ApplicationJson, v[4..])
                  else response == Response(500, PlainText, [])
    {
      UuidParsesIff(uuid, allowCustomKeys);
      AnswerIs(Looked(db, uuid, failure));
      ReadRules(backend.View(db), uuid);
      hide GetResponse;
    }

    // The backend's samples of a request that comes to this.
    function BackendSamples(uuid: Bytes, looked: Result<Bytes, GoError>): multiset<Counter> {
      if ParseUUID(uuid, allowCustomKeys).Err? then multiset{} else GetSamples(looked)
    }

    // Sends exactly one response, the one the stored value calls for; every engine samples the request once, its outcome
    // once, and the read, if there is one, once. failure is what a remote service did to the read.
    method Handle(uuidParameter: Bytes, w: ResponseWriter, ghost frame: set<Engine>) returns (ghost failure: Option<GoError>)
      requires Valid(frame)
      modifies w`sent, frame`counts
      ensures failure.Some? ==> backend.IsRemote() && WellBuilt(failure.value)
      ensures backend.Base().db == old(backend.Base().db)
      ensures w.sent == old(w.sent) + [GetResponse(Looked(backend.Base().db, uuidParameter, failure))]
      ensures var looked := Looked(backend.Base().db, uuidParameter, failure);
              forall f :: f in metrics.engines ==>
                f.counts == old(f.counts) + multiset{GetTotal} + BackendSamples(uuidParameter, looked)
                            + multiset{if GetResponse(looked).status < 400 then GetDuration
                                       else if GetResponse(looked).status < 500 then GetBadRequest else GetError}
    {
      hide SampledBy, GetSamples, ErrorStatus, WriteGetResponse, Machine.GetAnswerLog;
      ghost var db := backend.Base().db;
      failure := None;
      metrics.Record(GetTotal);
      assert backend.Base().db == db;
      var uuid := ParseUUID(uuidParameter, allowCustomKeys);
      if uuid.Err? {
        OneOutcome(uuid);
        HandleException(w, uuid.error, frame);
        return;
      }
      var storedData;
      storedData, failure := Fetch(uuid.value, frame);
      assert backend.Base().db == db;
      OneOutcome(storedData);
      Respond(w, storedData, frame);
      assert backend.Base().db == db;
    }

    method Fetch(uuid: Bytes, ghost frame: set<Engine>) returns (storedData: Result<Bytes, GoError>, ghost failure: Option<GoError>)
      requires Valid(frame)
      modifies frame`counts
      ensures failure.Some? ==> backend.IsRemote() && WellBuilt(failure.value)
      ensures storedData == backend.Found(backend.Base().db, uuid, failure) && (storedData.Err? ==> WellBuilt(storedData.error))
      ensures forall f :: f in metrics.engines ==> f.counts == old(f.counts) + GetSamples(storedData)
    {
      storedData, failure := backend.Get(uuid, frame);
    }

    // The end of handle, from the backend's answer on.
    method Respond(w: ResponseWriter, storedData: Result<Bytes, GoError>, ghost frame: set<Engine>)
      requires Valid(frame)
      modifies w`sent, frame`counts
      ensures w.sent == old(w.sent) + [GetResponse(storedData)]
      ensures forall f :: f in metrics.engines ==> f.counts == old(f.counts) + Machine.GetAnswerLog(storedData)
    {
      hide SampledBy;
      if storedData.Err? {
        HandleException(w, storedData.error, frame);
        return;
      }
      var written := WriteGetResponse(storedData.value);
      if written.Err? {
        HandleException(w, written.error, frame);
        return;
      }
      w.Send(written.value);
      metrics.Record(GetDuration);
    }

    method HandleException(w: ResponseWriter, err: GoError, ghost frame: set<Engine>)
      requires Valid(frame)
      modifies w`sent, frame`counts
      ensures w.sent == old(w.sent) + [ErrorResponse(err)]
      ensures forall f :: f in metrics.engines ==> f.counts == old(f.counts) + Machine.GetAnswerLog(Err(err))
    {
      hide SampledBy;
      var errCode := STATUS_INTERNAL_SERVER_ERROR;
      if err.Pbc? {
        errCode := err.pbc.statusCode;
      }
      if errCode >= STATUS_INTERNAL_SERVER_ERROR {
        metrics.Record(GetError);
      } else if errCode >= STATUS_BAD_REQUEST {
        metrics.Record(GetBadRequest);
      }
      w.Send(Response(errCode, PlainText, []));
    }
  }
}
