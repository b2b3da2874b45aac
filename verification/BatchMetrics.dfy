/** The samples that the workers of one POST take: step by step, and what they come to. */
module BatchMetrics {
  import opened Basics
  import opened Metrics
  import opened PutObjects
  import opened Store
  import opened PutWorker
  import opened WriteOnce
  import opened MachineInv
  import opened MachineMetrics
  import opened MachineCounts
  import opened Batch
  import Backends

  function KeyProvided(cfg: Config, w: Worker): multiset<Counter> {
    if cfg.allowKeys && |w.po.key| > 0 then multiset{PutKeyProvided} else multiset{}
  }

  // What the worker has sampled so far, when the one backend call takes all of its samples.
  function Taken(cfg: Config, w: Worker): multiset<Counter> {
    match w.pc
    case Unstarted | Parsing | ChoosingKey(_) => multiset{}
    case CheckingKey(_) | Storing(_) => KeyProvided(cfg, w)
    case Stored(v, result) => KeyProvided(cfg, w) + Backends.PutSamples(v, result == None)
    case Exiting | Done =>
      if ParsePutObject(w.po).Err? then multiset{}
      else if !Calls(cfg, w) then KeyProvided(cfg, w)
      else KeyProvided(cfg, w) + Backends.PutSamples(ParsePutObject(w.po).value, Accepted(w))
  }

  // What the step from w to next samples.
  function StepSamples(cfg: Config, w: Worker, next: Worker): multiset<Counter> {
    if w.pc.ChoosingKey? then KeyProvided(cfg, w)
    else if w.pc.Storing? && next.pc.Stored? then Backends.PutSamples(w.pc.toCache, next.pc.result == None)
    else multiset{}
  }

  lemma SettlingTakes(cfg: Config, store: View, w: Worker, fault: Option<Fault>)
    requires w.pc.Stored? && WorkerInv(cfg, w)
    ensures Taken(cfg, Advance(cfg, store, w, fault).worker) == Taken(cfg, w)
  {
    hide ParsePutObject, Backends.PutSamples, ClassifyBackendError;
    assert Accepted(Advance(cfg, store, w, fault).worker) <==> w.pc.result == None;
  }

  lemma StoringTakes(cfg: Config, store: View, w: Worker, fault: Option<Fault>)
    requires w.pc.Storing?
    ensures var next := Advance(cfg, store, w, fault).worker; Taken(cfg, next) == Taken(cfg, w) + StepSamples(cfg, w, next)
  {
    hide ParsePutObject, Backends.PutSamples, Verdict, Accepts, AfterPut, SizeRefusal;
  }

  lemma ChoosingTakes(cfg: Config, store: View, w: Worker, fault: Option<Fault>)
    requires w.pc.ChoosingKey? && WorkerInv(cfg, w)
    ensures Taken(cfg, Advance(cfg, store, w, fault).worker) == KeyProvided(cfg, w)
  {
    hide ParsePutObject, Backends.PutSamples;
  }

  lemma CheckingTakes(cfg: Config, store: View, w: Worker, fault: Option<Fault>)
    requires w.pc.CheckingKey? && WorkerInv(cfg, w)
    ensures Taken(cfg, Advance(cfg, store, w, fault).worker) == KeyProvided(cfg, w)
  {
    assert Calls(cfg, w) <==> w.slot.uuid != [];
    hide ParsePutObject, Backends.PutSamples, Calls, Accepted, KeyProvided, WorkerInv;
  }

  lemma ParsingTakes(cfg: Config, store: View, w: Worker, fault: Option<Fault>)
    requires w.pc.Parsing?
    ensures Taken(cfg, Advance(cfg, store, w, fault).worker) == multiset{}
  {
    hide ParsePutObject, Backends.PutSamples, Calls, Accepted, KeyProvided;
  }

  lemma ExitingTakes(cfg: Config, w: Worker)
    requires w.pc.Exiting?
    ensures Taken(cfg, w.(pc := Done)) == Taken(cfg, w)
  {
    hide ParsePutObject, Backends.PutSamples;
  }

  lemma ExitingIsDone(cfg: Config, store: View, w: Worker, fault: Option<Fault>)
    requires w.pc.Exiting?
    ensures Advance(cfg, store, w, fault).worker == w.(pc := Done)
  {
  }

  lemma StepTakes(cfg: Config, store: View, w: Worker, fault: Option<Fault>)
    requires Runnable(w) && WorkerInv(cfg, w)
    ensures var next := Advance(cfg, store, w, fault).worker; Taken(cfg, next) == Taken(cfg, w) + StepSamples(cfg, w, next)
  {
    hide Advance, WorkerInv, Backends.PutSamples, KeyProvided;
    match w.pc
    case Stored(_, _) => SettlingTakes(cfg, store, w, fault);
    case Storing(_) => StoringTakes(cfg, store, w, fault);
    case ChoosingKey(_) => ChoosingTakes(cfg, store, w, fault);
    case CheckingKey(_) => CheckingTakes(cfg, store, w, fault);
    case Parsing => ParsingTakes(cfg, store, w, fault);
    case Exiting =>
      ExitingTakes(cfg, w);
      ExitingIsDone(cfg, store, w, fault);
  }

  function SumTaken(cfg: Config, ws: seq<Worker>): multiset<Counter> {
    if ws == [] then multiset{} else Taken(cfg, ws[0]) + SumTaken(cfg, ws[1..])
  }

  lemma {:induction false} SumTakenUpdate(cfg: Config, ws: seq<Worker>, i: nat, w: Worker, more: multiset<Counter>)
    requires i < |ws| && Taken(cfg, w) == Taken(cfg, ws[i]) + more
    ensures SumTaken(cfg, ws[i := w]) == SumTaken(cfg, ws) + more
  {
    hide Taken;
    if i > 0 {
      SumTakenUpdate(cfg, ws[1..], i - 1, w, more);
      assert ws[i := w][1..] == ws[1..][i - 1 := w];
    } else {
      assert ws[0 := w][1..] == ws[1..];
    }
  }

  lemma {:induction false} NothingTakenYet(cfg: Config, ws: seq<Worker>)
    requires forall i :: 0 <= i < |ws| ==> ws[i].pc.Unstarted?
    ensures SumTaken(cfg, ws) == multiset{}
  {
    if ws != [] {
      NothingTakenYet(cfg, ws[1..]);
    }
  }

  // At the end it does not matter that the transition system takes a call's samples before and after the call.
  lemma {:induction false} SumTakenIsTally(cfg: Config, ws: seq<Worker>, c: Counter)
    requires AllDone(ws)
    ensures SumTaken(cfg, ws)[c] == Total(ws, OfWorker(cfg, c))
  {
    if ws != [] {
      SumTakenIsTally(cfg, ws[1..], c);
      TakenIsSamples(cfg, ws[0], c);
    }
  }

  lemma TakenIsSamples(cfg: Config, w: Worker, c: Counter)
    requires w.pc.Done?
    ensures Taken(cfg, w)[c] == WorkerSamples(cfg, w, c)
  {
    hide ParsePutObject, Backends.PutStarted, Backends.PutFinished, Accepted, Calls;
    assert KeyProvided(cfg, w)[c] == KeyProvidedSamples(cfg, w, c);
    hide KeyProvided, KeyProvidedSamples;
  }

  // ---------- What a batch comes to ----------

  // The element is of this type, well-formed, and gets a key: its own, if that is allowed, or a generated one.
  function Sends(cfg: Config, kind: Bytes): Worker -> int {
    (w: Worker) => One(w.po.kind == kind && Payload(w.po).Some?
                       && (if cfg.allowKeys && w.po.key != [] then Some(w.po.key) else w.id) !in {None, Some([])})
  }

  // The element is well-formed and brings a key of its own, which is allowed.
  function BringsKey(cfg: Config): Worker -> int {
    (w: Worker) => One(cfg.allowKeys && w.po.key != [] && Payload(w.po).Some?)
  }

  function Wrote(w: Worker): int {
    One(w.wrote)
  }

  lemma CallMeaning(cfg: Config, w: Worker, v: Worker, kind: Bytes)
    requires w.pc.Done? && SameElement(w, v)
    ensures CallsOf(cfg, kind)(w) == Sends(cfg, kind)(v)
  {
    StoredForm(w.po);
    hide ParsePutObject, Payload;
  }

  lemma {:induction false} SentByType(cfg: Config, asked: seq<Worker>, ws: seq<Worker>, kind: Bytes)
    requires |asked| == |ws| && AllDone(ws) && forall i :: 0 <= i < |ws| ==> SameElement(ws[i], asked[i])
    ensures Total(ws, CallsOf(cfg, kind)) == Total(asked, Sends(cfg, kind))
  {
    hide CallsOf, Sends;
    if ws != [] {
      SentByType(cfg, asked[1..], ws[1..], kind);
      CallMeaning(cfg, ws[0], asked[0], kind);
    }
  }

  lemma {:induction false} KeysBrought(cfg: Config, asked: seq<Worker>, ws: seq<Worker>)
    requires |asked| == |ws| && AllDone(ws)
    requires forall i :: 0 <= i < |ws| ==> SameElement(ws[i], asked[i]) && WorkerInv(cfg, ws[i])
    ensures Total(ws, OfWorker(cfg, PutKeyProvided)) == Total(asked, BringsKey(cfg))
  {
    hide WorkerSamples, WorkerInv, Payload;
    if ws != [] {
      KeysBrought(cfg, asked[1..], ws[1..]);
      KeyProvidedCount(cfg, ws[0]);
    }
  }

  lemma {:induction false} NoneInBackend(ws: seq<Worker>)
    requires AllDone(ws)
    ensures Total(ws, InBackend) == 0
  {
    if ws != [] {
      NoneInBackend(ws[1..]);
    }
  }

  lemma {:induction false} DurationsAreWrites(cfg: Config, ws: seq<Worker>)
    requires !cfg.remote && AllDone(ws) && forall i :: 0 <= i < |ws| ==> WorkerInv(cfg, ws[i])
    ensures Total(ws, OfWorker(cfg, PutBackendDuration)) == Total(ws, Wrote)
  {
    if ws != [] {
      DurationsAreWrites(cfg, ws[1..]);
      DurationIsWrite(cfg, ws[0]);
    }
  }

  lemma DurationIsWrite(cfg: Config, w: Worker)
    requires !cfg.remote && w.pc.Done? && WorkerInv(cfg, w)
    ensures WorkerSamples(cfg, w, PutBackendDuration) == Wrote(w)
  {
    hide ParsePutObject;
  }

  function WrittenKeys(cfg: Config, ws: seq<Worker>): set<Bytes> {
    set i | 0 <= i < |ws| && ws[i].wrote && Reaches(cfg, ws[i]) :: Key(cfg, ws[i])
  }

  // Each write is of a key of its own, so there are as many writes as keys written.
  lemma {:induction false} WritesAreKeys(cfg: Config, ws: seq<Worker>)
    requires forall i :: 0 <= i < |ws| && ws[i].wrote ==> Reaches(cfg, ws[i])
    requires WritersDistinct(Claims(cfg, ws))
    ensures |WrittenKeys(cfg, ws)| == Total(ws, Wrote)
  {
    if ws != [] {
      var n := |ws| - 1;
      assert Claims(cfg, ws[..n]) == Claims(cfg, ws)[..n];
      WritesAreKeys(cfg, ws[..n]);
      TotalAppend(ws[..n], ws[n], Wrote);
      assert ws == ws[..n] + [ws[n]];
      LastKey(cfg, ws);
    }
  }

  lemma LastKey(cfg: Config, ws: seq<Worker>)
    requires forall i :: 0 <= i < |ws| && ws[i].wrote ==> Reaches(cfg, ws[i])
    requires WritersDistinct(Claims(cfg, ws)) && ws != []
    ensures |WrittenKeys(cfg, ws)| == |WrittenKeys(cfg, ws[..|ws| - 1])| + Wrote(ws[|ws| - 1])
  {
    var n := |ws| - 1;
    KeysSplit(cfg, ws);
    if ws[n].wrote {
      LastKeyIsNew(cfg, ws);
      assert forall i :: 0 <= i < n ==> ws[..n][i] == ws[i];
      assert Key(cfg, ws[n]) !in WrittenKeys(cfg, ws[..n]);
    }
  }

  lemma KeysSplit(cfg: Config, ws: seq<Worker>)
    requires ws != []
    ensures var w := ws[|ws| - 1];
            WrittenKeys(cfg, ws)
            == WrittenKeys(cfg, ws[..|ws| - 1]) + if w.wrote && Reaches(cfg, w) then {Key(cfg, w)} else {}
  {
    hide Reaches, Key;
    var init := ws[..|ws| - 1];
    assert forall i :: 0 <= i < |init| ==> init[i] == ws[i];
  }

  lemma LastKeyIsNew(cfg: Config, ws: seq<Worker>)
    requires forall i :: 0 <= i < |ws| && ws[i].wrote ==> Reaches(cfg, ws[i])
    requires WritersDistinct(Claims(cfg, ws)) && ws != [] && ws[|ws| - 1].wrote
    ensures forall i :: 0 <= i < |ws| - 1 && ws[i].wrote ==> Key(cfg, ws[i]) != Key(cfg, ws[|ws| - 1])
  {
    hide Key, Reaches;
    forall i | 0 <= i < |ws| && ws[i].wrote
      ensures Claims(cfg, ws)[i] == ClaimOf(cfg, ws[i])
    {
    }
  }

  lemma NewKeysAreWritten(cfg: Config, start: View, store: View, asked: seq<Worker>, ws: seq<Worker>)
    requires Finished(cfg, start, store, asked, ws)
    ensures forall i :: 0 <= i < |ws| && ws[i].wrote ==> Reaches(cfg, ws[i])
    ensures store.Keys == start.Keys + WrittenKeys(cfg, ws) && start.Keys !! WrittenKeys(cfg, ws)
  {
    forall i | 0 <= i < |ws| && ws[i].wrote
      ensures Reaches(cfg, ws[i]) && Key(cfg, ws[i]) in store && Key(cfg, ws[i]) !in start
    {
      WroteMeansFresh(cfg, start, store, asked, ws, i);
    }
    forall key | key in store && key !in start
      ensures key in WrittenKeys(cfg, ws)
    {
      var j := WriterAmong(cfg, start, store, asked, ws, key);
    }
  }

  // A batch adds one entry for each write.
  lemma EntriesAreWrites(cfg: Config, start: View, store: View, asked: seq<Worker>, ws: seq<Worker>)
    requires Finished(cfg, start, store, asked, ws)
    ensures |store| == |start| + Total(ws, Wrote)
  {
    NewKeysAreWritten(cfg, start, store, asked, ws);
    WritesAreKeys(cfg, ws);
    hide WrittenKeys;
    assert |store| == |store.Keys| && |start| == |start.Keys|;
  }

  // Whatever the schedule and whatever fails, every well-formed element with a key is sent to the backend once, under
  // its type and with one TTL, size and outcome sample; over a store that does not fail, a duration is a new entry.
  lemma BatchSamples(cfg: Config, start: View, store: View, asked: seq<Worker>, ws: seq<Worker>)
    requires Finished(cfg, start, store, asked, ws)
    ensures var log := SumTaken(cfg, ws);
            && log[PutKeyProvided] == Total(asked, BringsKey(cfg))
            && log[PutBackendXml] == Total(asked, Sends(cfg, [0x78, 0x6D, 0x6C]))
            && log[PutBackendJson] == Total(asked, Sends(cfg, [0x6A, 0x73, 0x6F, 0x6E]))
            && log[PutBackendInvalid] == 0
            && log[PutBackendXml] + log[PutBackendJson] == log[PutBackendTTLSeconds] == log[PutBackendSize]
            && log[PutBackendSize] == log[PutBackendDuration] + log[PutBackendError]
            && (!cfg.remote ==> log[PutBackendDuration] == |store| - |start|)
  {
    forall c
      ensures SumTaken(cfg, ws)[c] == Total(ws, OfWorker(cfg, c))
    {
      SumTakenIsTally(cfg, ws, c);
    }
    WorkerTotals(cfg, ws);
    NoneInBackend(ws);
    SentByType(cfg, asked, ws, XML_PREFIX);
    SentByType(cfg, asked, ws, JSON_PREFIX);
    KeysBrought(cfg, asked, ws);
    EntriesAreWrites(cfg, start, store, asked, ws);
    if !cfg.remote {
      DurationsAreWrites(cfg, ws);
    }
  }
}
