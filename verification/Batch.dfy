/**
 One POST on its own: the sequential left-to-right reading of putElements, what any schedule has in common
 with it, and what a failed batch leaves behind.
 */
module Batch {
  import opened Basics
  import opened Errors
  import opened PutObjects
  import opened Store
  import opened PutWorker
  import opened WriteOnce
  import opened Machine
  import opened MachineInv
  import opened MachineTheorems

  // put, run from start to end with nobody else running.
  function PutOne(cfg: Config, store: View, w: Worker): (View, Slot) {
    match ParsePutObject(w.po)
    case Err(e) => (store, Slot([], Some(e)))
    case Ok(toCache) =>
      match KeyOf(cfg, w)
      case None => (store, Slot([], Some(Fail(PUT_INTERNAL_SERVER))))
      case Some(key) =>
        if key == [] then (store, EMPTY_SLOT)
        else
          var refusal := SizeRefusal(cfg.maxSize, toCache);
          (AfterPut(store, key, toCache, refusal, None), SlotAfter(Slot(key, None), Verdict(store, key, refusal, None)))
  }

  // The elements one after the other.
  function Sequentially(cfg: Config, store: View, asked: seq<Worker>): (View, seq<Slot>)
    decreases |asked|
  {
    if asked == [] then (store, [])
    else
      var (after, slot) := PutOne(cfg, store, asked[0]);
      var (end, slots) := Sequentially(cfg, after, asked[1..]);
      (end, [slot] + slots)
  }

  function Slots(ws: seq<Worker>): (slots: seq<Slot>)
    ensures |slots| == |ws| && forall i :: 0 <= i < |ws| ==> slots[i] == ws[i].slot
  {
    seq(|ws|, i requires 0 <= i < |ws| => ws[i].slot)
  }

  predicate SameElement(w: Worker, v: Worker) {
    w.po == v.po && w.id == v.id
  }

  // All workers of the batch have run to the end, in any order.
  ghost predicate Finished(cfg: Config, start: View, store: View, asked: seq<Worker>, ws: seq<Worker>) {
    && |ws| == |asked| && AllDone(ws)
    && (forall i :: 0 <= i < |ws| ==> SameElement(ws[i], asked[i]) && WorkerInv(cfg, ws[i]))
    && StoreInv(start, store, Claims(cfg, ws), cfg.remote)
  }

  predicate Supplies(cfg: Config, w: Worker, key: Bytes, content: Option<Bytes>) {
    Contends(cfg, w, key) && content == Some(Value(cfg, w))
  }

  lemma WriterAmong(cfg: Config, start: View, store: View, asked: seq<Worker>, ws: seq<Worker>, key: Bytes) returns (j: nat)
    requires Finished(cfg, start, store, asked, ws) && key in store && key !in start
    ensures j < |ws| && ws[j].wrote && Contends(cfg, asked[j], key) && store[key] == Some(Value(cfg, asked[j]))
  {
    hide ParsePutObject, FinalSlot, SizeRefusal;
    var cs := Claims(cfg, ws);
    j :| 0 <= j < |cs| && WroteKey(cs[j], key);
    assert Holds(store, cs[j]);
  }

  // Whatever the schedule and whatever fails, a batch changes no entry and adds only entries its elements supply.
  lemma NewEntriesAreSupplied(cfg: Config, start: View, store: View, asked: seq<Worker>, ws: seq<Worker>, key: Bytes)
    requires Finished(cfg, start, store, asked, ws)
    ensures key in start ==> key in store && store[key] == start[key]
    ensures key in store && key !in start ==> exists i :: 0 <= i < |asked| && Supplies(cfg, asked[i], key, store[key])
  {
    if key in store && key !in start {
      var i := WriterAmong(cfg, start, store, asked, ws, key);
      assert Supplies(cfg, asked[i], key, store[key]);
    }
  }

  // Whatever the schedule, over a store that does not fail a batch adds exactly the keys its elements reach it with.
  lemma KeysAdded(cfg: Config, start: View, store: View, asked: seq<Worker>, ws: seq<Worker>, key: Bytes)
    requires !cfg.remote && Finished(cfg, start, store, asked, ws)
    ensures key in store <==> key in start || exists i :: 0 <= i < |asked| && Contends(cfg, asked[i], key)
  {
    NewEntriesAreSupplied(cfg, start, store, asked, ws, key);
    if key in store && key !in start {
      var i :| 0 <= i < |asked| && Supplies(cfg, asked[i], key, store[key]);
      assert Contends(cfg, asked[i], key);
    }
    forall i | 0 <= i < |asked| && Contends(cfg, asked[i], key)
      ensures key in store
    {
      WantedIsPresent(cfg, start, store, asked, ws, i);
    }
  }

  lemma WantedIsPresent(cfg: Config, start: View, store: View, asked: seq<Worker>, ws: seq<Worker>, i: nat)
    requires !cfg.remote && Finished(cfg, start, store, asked, ws) && i < |asked| && Reaches(cfg, asked[i])
    ensures Key(cfg, asked[i]) in store
  {
  }

  // Whatever the schedule, the error is that of the first element with one.
  lemma ErrorFound(cfg: Config, start: View, store: View, asked: seq<Worker>, ws: seq<Worker>)
    requires !cfg.remote && Finished(cfg, start, store, asked, ws)
    ensures FirstError(ws) == FirstElementError(cfg, asked)
  {
    forall i | 0 <= i < |ws|
      ensures ws[i].slot.err == ElementError(cfg, ws[i]) && SameElement(ws[i], asked[i])
    {
      assert SlotFinal(cfg, ws[i]);
    }
    ScanFindsElementError(cfg, ws, asked);
  }

  // A slot without error and with a UUID is the promise that the element's value is stored under it, even if the
  // store fails other calls.
  lemma SlotIsPublished(cfg: Config, start: View, store: View, asked: seq<Worker>, ws: seq<Worker>, i: nat)
    requires Finished(cfg, start, store, asked, ws) && i < |ws|
    requires ws[i].slot.err == None && ws[i].slot.uuid != []
    ensures Supplies(cfg, asked[i], ws[i].slot.uuid, Some(Value(cfg, asked[i])))
    ensures ws[i].slot.uuid in store && store[ws[i].slot.uuid] == Some(Value(cfg, asked[i]))
  {
    assert SlotFinal(cfg, ws[i]) && SameElement(ws[i], asked[i]);
    assert Claims(cfg, ws)[i] == ClaimOf(cfg, ws[i]);
  }

  // ---------- Pairwise distinct keys ----------

  ghost predicate DistinctKeys(cfg: Config, asked: seq<Worker>) {
    forall i, j :: 0 <= i < j < |asked| && Reaches(cfg, asked[i]) && Reaches(cfg, asked[j]) ==>
      Key(cfg, asked[i]) != Key(cfg, asked[j])
  }

  // The element's key was free at the start.
  predicate Fresh(cfg: Config, start: View, w: Worker) {
    Reaches(cfg, w) && Key(cfg, w) !in start
  }

  // The outcome of a batch of distinct keys, element by element.
  ghost predicate ElementWise(cfg: Config, start: View, asked: seq<Worker>, store: View, slots: seq<Slot>) {
    && |slots| == |asked|
    && (forall i :: 0 <= i < |asked| ==> slots[i] == FinalSlot(cfg, asked[i].(wrote := Fresh(cfg, start, asked[i]))))
    && Extends(start, store)
    && (forall i :: 0 <= i < |asked| && Fresh(cfg, start, asked[i]) ==>
          Key(cfg, asked[i]) in store && store[Key(cfg, asked[i])] == Some(Value(cfg, asked[i])))
    && (forall k :: k in store && k !in start ==> exists i :: 0 <= i < |asked| && Contends(cfg, asked[i], k))
  }

  lemma PutOneIsElementWise(cfg: Config, store: View, w: Worker)
    ensures var (after, slot) := PutOne(cfg, store, w);
            && slot == FinalSlot(cfg, w.(wrote := Fresh(cfg, store, w)))
            && after == if Fresh(cfg, store, w) then store[Key(cfg, w) := Some(Value(cfg, w))] else store
  {
  }

  lemma {:induction false} SequentialIsElementWise(cfg: Config, start: View, asked: seq<Worker>)
    requires DistinctKeys(cfg, asked)
    ensures var (store, slots) := Sequentially(cfg, start, asked); ElementWise(cfg, start, asked, store, slots)
    decreases |asked|
  {
    if asked != [] {
      var rest := asked[1..];
      var (after, slot) := PutOne(cfg, start, asked[0]);
      var (store, slots) := Sequentially(cfg, after, rest);
      PutOneIsElementWise(cfg, start, asked[0]);
      SequentialIsElementWise(cfg, after, rest);
      forall i | 0 <= i < |rest|
        ensures Fresh(cfg, after, rest[i]) == Fresh(cfg, start, rest[i])
      {
        assert rest[i] == asked[i + 1];
      }
      ConsElementWise(cfg, start, asked, after, slot, store, slots);
    }
  }

  lemma ConsElementWise(cfg: Config, start: View, asked: seq<Worker>, after: View, slot: Slot, store: View, slots: seq<Slot>)
    requires asked != [] && ElementWise(cfg, after, asked[1..], store, slots)
    requires slot == FinalSlot(cfg, asked[0].(wrote := Fresh(cfg, start, asked[0])))
    requires after == if Fresh(cfg, start, asked[0]) then start[Key(cfg, asked[0]) := Some(Value(cfg, asked[0]))] else start
    requires forall i :: 0 <= i < |asked[1..]| ==> Fresh(cfg, after, asked[1..][i]) == Fresh(cfg, start, asked[1..][i])
    ensures ElementWise(cfg, start, asked, store, [slot] + slots)
  {
    hide ParsePutObject, FinalSlot, SizeRefusal, KeyOf, Reaches;
    var rest := asked[1..];
    forall i | 0 <= i < |asked|
      ensures ([slot] + slots)[i] == FinalSlot(cfg, asked[i].(wrote := Fresh(cfg, start, asked[i])))
      ensures Fresh(cfg, start, asked[i]) ==>
                Key(cfg, asked[i]) in store && store[Key(cfg, asked[i])] == Some(Value(cfg, asked[i]))
    {
      if i > 0 {
        assert asked[i] == rest[i - 1];
      }
    }
    forall k | k in store && k !in start
      ensures exists i :: 0 <= i < |asked| && Contends(cfg, asked[i], k)
    {
      if k in after {
        assert Contends(cfg, asked[0], k);
      } else {
        var i :| 0 <= i < |rest| && Contends(cfg, rest[i], k);
        assert Contends(cfg, asked[i + 1], k);
      }
    }
  }

  lemma WroteMeansFresh(cfg: Config, start: View, store: View, asked: seq<Worker>, ws: seq<Worker>, i: nat)
    requires Finished(cfg, start, store, asked, ws) && i < |ws| && ws[i].wrote
    ensures Fresh(cfg, start, asked[i])
    ensures Key(cfg, asked[i]) in store && store[Key(cfg, asked[i])] == Some(Value(cfg, asked[i]))
  {
    hide ParsePutObject, FinalSlot, SizeRefusal;
    assert Claims(cfg, ws)[i] == ClaimOf(cfg, ws[i]);
    assert SlotFinal(cfg, ws[i]);
  }

  lemma FreshMeansWrote(cfg: Config, start: View, store: View, asked: seq<Worker>, ws: seq<Worker>, i: nat)
    requires !cfg.remote && Finished(cfg, start, store, asked, ws) && DistinctKeys(cfg, asked) && i < |ws|
    ensures ws[i].wrote == Fresh(cfg, start, asked[i])
  {
    if ws[i].wrote {
      WroteMeansFresh(cfg, start, store, asked, ws, i);
    }
    if Fresh(cfg, start, asked[i]) {
      WantedIsPresent(cfg, start, store, asked, ws, i);
      var j := WriterAmong(cfg, start, store, asked, ws, Key(cfg, asked[i]));
      assert j == i;
    }
  }

  lemma FinishedIsElementWise(cfg: Config, start: View, store: View, asked: seq<Worker>, ws: seq<Worker>)
    requires !cfg.remote && Finished(cfg, start, store, asked, ws) && DistinctKeys(cfg, asked)
    ensures ElementWise(cfg, start, asked, store, Slots(ws))
  {
    forall i | 0 <= i < |ws|
      ensures Slots(ws)[i] == FinalSlot(cfg, asked[i].(wrote := Fresh(cfg, start, asked[i])))
      ensures Fresh(cfg, start, asked[i]) ==>
                Key(cfg, asked[i]) in store && store[Key(cfg, asked[i])] == Some(Value(cfg, asked[i]))
    {
      FreshMeansWrote(cfg, start, store, asked, ws, i);
      if ws[i].wrote {
        WroteMeansFresh(cfg, start, store, asked, ws, i);
      }
      assert SlotFinal(cfg, ws[i]);
    }
    forall k | k in store && k !in start
      ensures exists i :: 0 <= i < |asked| && Contends(cfg, asked[i], k)
    {
      KeysAdded(cfg, start, store, asked, ws, k);
    }
  }

  lemma ElementWiseIsUnique(cfg: Config, start: View, asked: seq<Worker>, a: View, b: View, s: seq<Slot>, t: seq<Slot>)
    requires ElementWise(cfg, start, asked, a, s) && ElementWise(cfg, start, asked, b, t)
    ensures a == b && s == t
  {
  }

  // With pairwise distinct keys, every schedule ends in the store and the slots of the sequential loop.
  lemma ScheduleIndependence(cfg: Config, start: View, store: View, asked: seq<Worker>, ws: seq<Worker>)
    requires !cfg.remote && Finished(cfg, start, store, asked, ws) && DistinctKeys(cfg, asked)
    ensures (store, Slots(ws)) == Sequentially(cfg, start, asked)
  {
    var (end, slots) := Sequentially(cfg, start, asked);
    FinishedIsElementWise(cfg, start, store, asked, ws);
    SequentialIsElementWise(cfg, start, asked);
    ElementWiseIsUnique(cfg, start, asked, store, end, Slots(ws), slots);
  }

  // ---------- A failed batch is not undone ----------

  // A batch leaves the store as it was exactly when no element reaches it with a new key; whether another
  // element fails makes no difference.
  lemma LeavesNoTraceIff(cfg: Config, start: View, store: View, asked: seq<Worker>, ws: seq<Worker>)
    requires !cfg.remote && Finished(cfg, start, store, asked, ws)
    ensures store == start <==> forall i :: 0 <= i < |asked| ==> !Fresh(cfg, start, asked[i])
  {
    forall k
      ensures k in store <==> k in start || exists i :: 0 <= i < |asked| && Contends(cfg, asked[i], k)
      ensures k in start ==> k in store && store[k] == start[k]
    {
      KeysAdded(cfg, start, store, asked, ws, k);
    }
    forall i | 0 <= i < |asked| && Fresh(cfg, start, asked[i])
      ensures store != start
    {
      assert Contends(cfg, asked[i], Key(cfg, asked[i]));
    }
    forall k | k in store && k !in start
      ensures exists i :: 0 <= i < |asked| && Fresh(cfg, start, asked[i])
    {
      var i :| 0 <= i < |asked| && Contends(cfg, asked[i], k);
      assert Fresh(cfg, start, asked[i]);
    }
  }

  // {"puts":[{"type":"json","value":1,"key":"a"},{"type":"json","ttlseconds":-1,"value":1}]}
  const SPLIT_CONFIG := Config(true, 10, 0, false)
  const GOOD_ELEMENT := NewWorker(PutObject(JSON_PREFIX, 0, [0x31], [0x61]), None)
  const BAD_ELEMENT := NewWorker(PutObject(JSON_PREFIX, -1, [0x31], []), None)

  // It can finish: the first worker has written, the second has its error.
  lemma SplitBatchFinishes()
    ensures var ws := [GOOD_ELEMENT.(pc := Done, slot := Slot([0x61], None), wrote := true),
                       BAD_ELEMENT.(pc := Done, slot := Slot([], Some(Fail(NEGATIVE_TTL))))];
            Finished(SPLIT_CONFIG, map[], map[[0x61] := Some(JSON_PREFIX + [0x31])], [GOOD_ELEMENT, BAD_ELEMENT], ws)
  {
    var good := GOOD_ELEMENT.(pc := Done, slot := Slot([0x61], None), wrote := true);
    var bad := BAD_ELEMENT.(pc := Done, slot := Slot([], Some(Fail(NEGATIVE_TTL))));
    assert ParsePutObject(good.po) == Ok(JSON_PREFIX + [0x31]) && ParsePutObject(bad.po) == Err(Fail(NEGATIVE_TTL));
    var cs := Claims(SPLIT_CONFIG, [good, bad]);
    assert cs[0] == Claim(Some(Entry([0x61], JSON_PREFIX + [0x31])), true, true) && cs[1] == Claim(None, false, true);
    assert WroteKey(cs[0], [0x61]);
  }

  // However it is scheduled, this batch answers 400 and stores a.
  lemma BatchesAreNotAllOrNothing(store: View, ws: seq<Worker>)
    requires Finished(SPLIT_CONFIG, map[], store, [GOOD_ELEMENT, BAD_ELEMENT], ws)
    ensures FirstError(ws) == Some(Fail(NEGATIVE_TTL))
    ensures store == map[[0x61] := Some(JSON_PREFIX + [0x31])]
  {
    var cfg, asked := SPLIT_CONFIG, [GOOD_ELEMENT, BAD_ELEMENT];
    var after: View := map[[0x61] := Some(JSON_PREFIX + [0x31])];
    assert asked[1..] == [BAD_ELEMENT];
    assert ElementError(cfg, GOOD_ELEMENT) == None;
    assert FirstElementError(cfg, [BAD_ELEMENT]) == ElementError(cfg, BAD_ELEMENT);
    assert PutOne(cfg, map[], GOOD_ELEMENT).0 == after && PutOne(cfg, after, BAD_ELEMENT).0 == after;
    assert Sequentially(cfg, after, [BAD_ELEMENT]).0 == after;
    ErrorFound(cfg, map[], store, asked, ws);
    ScheduleIndependence(cfg, map[], store, asked, ws);
  }
}
