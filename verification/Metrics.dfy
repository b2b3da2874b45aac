/** metrics/core.go: one recorder in front of any number of metric engines. */
module Metrics {
  datatype Counter =
    | PutTotal | PutBadRequest | PutError | PutDuration | PutKeyProvided
    | GetTotal | GetBadRequest | GetError | GetDuration
    | PutBackendXml | PutBackendJson | PutBackendInvalid
    | PutBackendTTLSeconds | PutBackendSize | PutBackendDuration | PutBackendError
    | GetBackendTotal | GetBackendDuration | GetBackendError
    | KeyNotFoundError | MissingKeyError

  // The counters that the two handlers bump by themselves.
  predicate HandlerPutCounter(c: Counter) {
    c == PutTotal || c == PutBadRequest || c == PutError || c == PutDuration
  }

  predicate HandlerGetCounter(c: Counter) {
    c == GetTotal || c == GetBadRequest || c == GetError || c == GetDuration
  }

  // An engine, seen as the number of samples it has taken for each metric.
  class Engine {
    var counts: multiset<Counter>

    constructor ()
      ensures counts == multiset{}
    {
      counts := multiset{};
    }

    method Record(c: Counter)
      modifies this`counts
      ensures counts == old(counts) + multiset{c}
    {
      counts := counts + multiset{c};
    }
  }

  datatype Recorder = Recorder(engines: seq<Engine>) {
    // CreateMetrics makes a new object for each engine.
    ghost predicate Distinct() {
      forall i, j :: 0 <= i < j < |engines| ==> engines[i] != engines[j]
    }

    // The engines agree on how often each metric was sampled.
    ghost predicate EqualCounts()
      reads engines
    {
      forall f, g :: f in engines && g in engines ==> f.counts == g.counts
    }

    // Stands for the Record* methods, which differ only in the engine method they call.
    method Record(c: Counter)
      requires Distinct()
      modifies engines`counts
      ensures forall f :: f in engines ==> f.counts == old(f.counts) + multiset{c}
    {
      for i := 0 to |engines|
        invariant forall j :: 0 <= j < i ==> engines[j].counts == old(engines[j].counts) + multiset{c}
        invariant forall j :: i <= j < |engines| ==> engines[j].counts == old(engines[j].counts)
      {
        engines[i].Record(c);
      }
    }
  }
}
