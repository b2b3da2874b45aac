/** Any number of put workers over one store: who writes a key, and what the others see. */
module WriteOnce {
  import opened Basics
  import opened PutObjects
  import opened Store
  import opened PutWorker

  // The worker has had its access to the store.
  predicate PastStore(w: Worker) {
    w.pc.Stored? || w.pc.Exiting? || w.pc.Done?
  }

  // put has settled the worker's slot.
  predicate Settled(w: Worker) {
    w.pc.Exiting? || w.pc.Done?
  }

  predicate Extends(before: View, after: View) {
    forall k :: k in before ==> k in after && after[k] == before[k]
  }

  // ---------- Claims: all that the store sees of a worker ----------

  datatype Entry = Entry(key: Bytes, value: Bytes)

  // target is what the worker would write, if its element ever reaches the store.
  datatype Claim = Claim(target: Option<Entry>, wrote: bool, past: bool)

  predicate WroteKey(c: Claim, key: Bytes) {
    c.wrote && c.target.Some? && c.target.value.key == key
  }

  predicate Holds(store: View, c: Claim) {
    c.target.Some? && c.target.value.key in store && store[c.target.value.key] == Some(c.target.value.value)
  }

  predicate SameKey(c: Claim, d: Claim) {
    c.target.Some? && d.target.Some? && c.target.value.key == d.target.value.key
  }

  ghost predicate WritersStored(start: View, store: View, cs: seq<Claim>) {
    forall i :: 0 <= i < |cs| && cs[i].wrote ==> Holds(store, cs[i]) && cs[i].target.value.key !in start
  }

  ghost predicate WritersDistinct(cs: seq<Claim>) {
    forall i, j :: 0 <= i < |cs| && 0 <= j < |cs| && cs[i].wrote && cs[j].wrote && i != j ==> !SameKey(cs[i], cs[j])
  }

  ghost predicate NewKeysWritten(start: View, store: View, cs: seq<Claim>) {
    forall k :: k in store && k !in start ==> exists i :: 0 <= i < |cs| && WroteKey(cs[i], k)
  }

  ghost predicate TriedKeysPresent(store: View, cs: seq<Claim>) {
    forall i :: 0 <= i < |cs| && cs[i].past && cs[i].target.Some? ==> cs[i].target.value.key in store
  }

  // store holds what it held at the start, plus the value of exactly one writer for each new key.
  ghost predicate StoreInv(start: View, store: View, cs: seq<Claim>, remote: bool) {
    && Extends(start, store)
    && WritersStored(start, store, cs)
    && WritersDistinct(cs)
    && NewKeysWritten(start, store, cs)
    && (!remote ==> TriedKeysPresent(store, cs))
  }

  // From the store's side a step does nothing, or it is one guarded write of the worker's own key.
  predicate ClaimStep(store: View, c: Claim, store': View, c': Claim, remote: bool) {
    && c'.target == c.target
    && (|| (store' == store && c'.wrote == c.wrote)
        || (&& !c.wrote && c'.wrote && c.target.Some? && c.target.value.key !in store
            && store' == store[c.target.value.key := Some(c.target.value.value)]))
    && (!remote && c.target.Some? && c'.past ==> c.past || c.target.value.key in store')
  }

  lemma NewKeysStayWritten(start: View, store: View, cs: seq<Claim>, j: nat, store': View, c': Claim)
    requires j < |cs| && NewKeysWritten(start, store, cs)
    requires cs[j].wrote ==> c'.wrote && c'.target == cs[j].target
    requires forall k :: k in store' && k !in store ==> WroteKey(c', k)
    ensures NewKeysWritten(start, store', cs[j := c'])
  {
    var cs' := cs[j := c'];
    forall k | k in store' && k !in start
      ensures exists i :: 0 <= i < |cs'| && WroteKey(cs'[i], k)
    {
      if k in store {
        var i :| 0 <= i < |cs| && WroteKey(cs[i], k);
        assert WroteKey(cs'[i], k);
      } else {
        assert WroteKey(cs'[j], k);
      }
    }
  }

  lemma WriteKeepsWriters(start: View, store: View, cs: seq<Claim>, j: nat, store': View, c': Claim)
    requires j < |cs| && Extends(start, store) && WritersStored(start, store, cs) && WritersDistinct(cs)
    requires c'.target.Some? && c'.wrote && c'.target.value.key !in store
    requires store' == store[c'.target.value.key := Some(c'.target.value.value)]
    ensures WritersStored(start, store', cs[j := c']) && WritersDistinct(cs[j := c'])
  {
  }

  lemma TriedKeysStayPresent(store: View, cs: seq<Claim>, j: nat, store': View, c': Claim)
    requires j < |cs| && TriedKeysPresent(store, cs) && ClaimStep(store, cs[j], store', c', false)
    ensures TriedKeysPresent(store', cs[j := c'])
  {
  }

  lemma ClaimStepKeepsStore(start: View, store: View, cs: seq<Claim>, j: nat, store': View, c': Claim, remote: bool)
    requires j < |cs| && StoreInv(start, store, cs, remote) && ClaimStep(store, cs[j], store', c', remote)
    ensures StoreInv(start, store', cs[j := c'], remote) && Extends(store, store')
  {
    NewKeysStayWritten(start, store, cs, j, store', c');
    if store' != store {
      WriteKeepsWriters(start, store, cs, j, store', c');
    }
    if !remote {
      TriedKeysStayPresent(store, cs, j, store', c');
    }
  }

  // Workers that have not run yet change nothing.
  lemma NewClaimsKeepStore(start: View, store: View, cs: seq<Claim>, more: seq<Claim>, remote: bool)
    requires StoreInv(start, store, cs, remote)
    requires forall i :: 0 <= i < |more| ==> !more[i].wrote && !more[i].past
    ensures StoreInv(start, store, cs + more, remote)
  {
    forall k | k in store && k !in start
      ensures exists i :: 0 <= i < |cs + more| && WroteKey((cs + more)[i], k)
    {
      var i :| 0 <= i < |cs| && WroteKey(cs[i], k);
      assert WroteKey((cs + more)[i], k);
    }
  }

  // ---------- Workers as claims ----------

  function ClaimOf(cfg: Config, w: Worker): Claim {
    Claim(if Reaches(cfg, w) then Some(Entry(Key(cfg, w), Value(cfg, w))) else None, w.wrote, PastStore(w))
  }

  function Claims(cfg: Config, ws: seq<Worker>): (cs: seq<Claim>)
    ensures |cs| == |ws| && forall i :: 0 <= i < |ws| ==> cs[i] == ClaimOf(cfg, ws[i])
  {
    seq(|ws|, i requires 0 <= i < |ws| => ClaimOf(cfg, ws[i]))
  }

  lemma ClaimsUpdate(cfg: Config, ws: seq<Worker>, j: nat, w: Worker)
    requires j < |ws|
    ensures Claims(cfg, ws[j := w]) == Claims(cfg, ws)[j := ClaimOf(cfg, w)]
  {
  }

  lemma StoringIsClaimStep(cfg: Config, store: View, w: Worker, fault: Option<Fault>)
    requires w.pc.Storing? && WorkerInv(cfg, w) && FaultAllowed(cfg, w, fault)
    ensures var e := Advance(cfg, store, w, fault);
            ClaimStep(store, ClaimOf(cfg, w), e.store, ClaimOf(cfg, e.worker), cfg.remote)
  {
  }

  lemma AdvanceIsClaimStep(cfg: Config, store: View, w: Worker, fault: Option<Fault>)
    requires Runnable(w) && WorkerInv(cfg, w) && FaultAllowed(cfg, w, fault)
    ensures var e := Advance(cfg, store, w, fault);
            ClaimStep(store, ClaimOf(cfg, w), e.store, ClaimOf(cfg, e.worker), cfg.remote)
  {
    if w.pc.Storing? {
      StoringIsClaimStep(cfg, store, w, fault);
    } else {
      OtherwiseNoWrite(cfg, store, w, fault);
    }
  }

  // Only the backend call writes; getting past it without a call means that the element has nothing to store.
  lemma OtherwiseNoWrite(cfg: Config, store: View, w: Worker, fault: Option<Fault>)
    requires Runnable(w) && !w.pc.Storing? && WorkerInv(cfg, w)
    ensures var e := Advance(cfg, store, w, fault);
            && e.store == store && e.worker.wrote == w.wrote && e.worker.po == w.po && e.worker.id == w.id
            && (PastStore(e.worker) ==> PastStore(w) || !Reaches(cfg, w))
  {
    hide ParsePutObject, SizeRefusal;
  }

  lemma StoreStep(cfg: Config, start: View, store: View, ws: seq<Worker>, j: nat, fault: Option<Fault>)
    requires j < |ws| && StoreInv(start, store, Claims(cfg, ws), cfg.remote)
    requires Runnable(ws[j]) && WorkerInv(cfg, ws[j]) && FaultAllowed(cfg, ws[j], fault)
    ensures var e := Advance(cfg, store, ws[j], fault);
            StoreInv(start, e.store, Claims(cfg, ws[j := e.worker]), cfg.remote) && Extends(store, e.store)
  {
    hide ParsePutObject;
    var e := Advance(cfg, store, ws[j], fault);
    var c' := ClaimOf(cfg, e.worker);
    AdvanceIsClaimStep(cfg, store, ws[j], fault);
    ClaimStepKeepsStore(start, store, Claims(cfg, ws), j, e.store, c', cfg.remote);
    ClaimsUpdate(cfg, ws, j, e.worker);
  }

  lemma StartingKeepsStore(cfg: Config, start: View, store: View, ws: seq<Worker>, j: nat)
    requires j < |ws| && ws[j].pc.Unstarted? && StoreInv(start, store, Claims(cfg, ws), cfg.remote)
    ensures StoreInv(start, store, Claims(cfg, ws[j := ws[j].(pc := Parsing)]), cfg.remote)
  {
    StartingKeepsClaim(cfg, ws[j]);
    assert Claims(cfg, ws[j := ws[j].(pc := Parsing)]) == Claims(cfg, ws);
  }

  lemma StartingKeepsClaim(cfg: Config, w: Worker)
    requires w.pc.Unstarted?
    ensures ClaimOf(cfg, w.(pc := Parsing)) == ClaimOf(cfg, w)
  {
  }

  lemma StoreAppend(cfg: Config, start: View, store: View, ws: seq<Worker>, more: seq<Worker>)
    requires StoreInv(start, store, Claims(cfg, ws), cfg.remote)
    requires forall i :: 0 <= i < |more| ==> more[i].pc == Unstarted && !more[i].wrote
    ensures StoreInv(start, store, Claims(cfg, ws + more), cfg.remote)
  {
    NewClaimsKeepStore(start, store, Claims(cfg, ws), Claims(cfg, more), cfg.remote);
    assert Claims(cfg, ws + more) == Claims(cfg, ws) + Claims(cfg, more);
  }

  // ---------- Single winner ----------

  predicate Contends(cfg: Config, w: Worker, key: Bytes) {
    Reaches(cfg, w) && Key(cfg, w) == key
  }

  // The winner's value is stored, its slot carries the key once settled, and every other settled
  // contender ends with an empty UUID and no error.
  ghost predicate Wins(cfg: Config, store: View, ws: seq<Worker>, i: nat, key: Bytes) {
    && i < |ws| && ws[i].wrote && Contends(cfg, ws[i], key)
    && key in store && store[key] == Some(Value(cfg, ws[i]))
    && (Settled(ws[i]) ==> ws[i].slot == Slot(key, None))
    && forall j :: 0 <= j < |ws| && j != i && Settled(ws[j]) && Contends(cfg, ws[j], key) ==> ws[j].slot == EMPTY_SLOT
  }

  lemma LoserSlot(cfg: Config, w: Worker)
    requires !cfg.remote && WorkerInv(cfg, w) && Settled(w) && Reaches(cfg, w)
    ensures w.slot == if w.wrote then Slot(Key(cfg, w), None) else EMPTY_SLOT
  {
  }

  lemma WriterOf(start: View, store: View, cs: seq<Claim>, key: Bytes) returns (winner: nat)
    requires StoreInv(start, store, cs, false)
    requires key !in start
    requires exists i :: 0 <= i < |cs| && cs[i].past && cs[i].target.Some? && cs[i].target.value.key == key
    ensures winner < |cs| && WroteKey(cs[winner], key) && Holds(store, cs[winner])
    ensures forall j :: 0 <= j < |cs| && WroteKey(cs[j], key) ==> j == winner
  {
    winner :| 0 <= winner < |cs| && WroteKey(cs[winner], key);
    forall j | 0 <= j < |cs| && WroteKey(cs[j], key)
      ensures j == winner
    {
      assert SameKey(cs[j], cs[winner]);
    }
  }

  // Over a store that does not fail, a key that was absent and that somebody tried to store has exactly one winner.
  lemma SingleWinner(cfg: Config, start: View, store: View, ws: seq<Worker>, key: Bytes) returns (winner: nat)
    requires !cfg.remote && StoreInv(start, store, Claims(cfg, ws), false)
    requires forall i :: 0 <= i < |ws| ==> WorkerInv(cfg, ws[i])
    requires key !in start
    requires exists i :: 0 <= i < |ws| && PastStore(ws[i]) && Contends(cfg, ws[i], key)
    ensures Wins(cfg, store, ws, winner, key)
    ensures forall j :: Wins(cfg, store, ws, j, key) ==> j == winner
  {
    var cs := Claims(cfg, ws);
    assert exists i :: 0 <= i < |cs| && cs[i].past && cs[i].target.Some? && cs[i].target.value.key == key by {
      var i :| 0 <= i < |ws| && PastStore(ws[i]) && Contends(cfg, ws[i], key);
      assert cs[i] == ClaimOf(cfg, ws[i]);
    }
    winner := WriterOf(start, store, cs, key);
    forall j | 0 <= j < |ws| && Contends(cfg, ws[j], key)
      ensures ws[j].wrote ==> j == winner
      ensures Settled(ws[j]) ==> ws[j].slot == if ws[j].wrote then Slot(key, None) else EMPTY_SLOT
    {
      assert cs[j] == ClaimOf(cfg, ws[j]);
      if Settled(ws[j]) {
        LoserSlot(cfg, ws[j]);
      }
    }
  }
}
