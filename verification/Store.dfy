/** The plain write-once map that every decorated backend behaves as. */
module Store {
  import opened Basics
  import opened Errors

  // What a reader finds under each key: a value, or data that does not decode.
  type View = map<Bytes, Option<Bytes>>

  // A remote service's failure: the error it reports, and whether the write reached it all the same.
  datatype Fault = Fault(err: GoError, applied: bool)

  function Lookup(view: View, key: Bytes): Result<Bytes, GoError> {
    if key !in view then Err(Fail(KEY_NOT_FOUND))
    else if view[key] == None then Err(CorruptData)
    else Ok(view[key].value)
  }

  // The error of a write, given the error the layers above the base raise by themselves.
  function Verdict(view: View, key: Bytes, refusal: Option<GoError>, fault: Option<Fault>): Option<GoError> {
    if refusal.Some? then refusal
    else if fault.Some? then Some(fault.value.err)
    else if key in view then Some(Fail(RECORD_EXISTS))
    else None
  }

  // Set if absent: the write gets to the base and finds the key free.
  predicate Accepts(view: View, key: Bytes, refusal: Option<GoError>, fault: Option<Fault>) {
    refusal == None && (fault.Some? ==> fault.value.applied) && key !in view
  }

  function AfterPut(view: View, key: Bytes, value: Bytes, refusal: Option<GoError>, fault: Option<Fault>): View {
    if Accepts(view, key, refusal, fault) then view[key := Some(value)] else view
  }

  // Set if absent: a write that gets there stores its value under a free key, and any other write changes nothing.
  lemma WriteRules(view: View, key: Bytes, value: Bytes, refusal: Option<GoError>, fault: Option<Fault>)
    ensures var err, after := Verdict(view, key, refusal, fault), AfterPut(view, key, value, refusal, fault);
            && (refusal.Some? ==> err == refusal && after == view)
            && (refusal == None && key in view ==> after == view)
            && (refusal == None && key !in view ==>
                  after == if fault.Some? && !fault.value.applied then view else view[key := Some(value)])
            && (refusal == None && fault.Some? ==> err == Some(fault.value.err))
            && (refusal == None && fault == None ==>
                  if key in view then err.Some? && err.value == Pbc(NewPBCError(RECORD_EXISTS)) else err == None)
  {
  }

  lemma ReadRules(view: View, key: Bytes)
    ensures Lookup(view, key) == if key !in view then Err(Pbc(NewPBCError(KEY_NOT_FOUND)))
                                 else if view[key].Some? then Ok(view[key].value) else Err(CorruptData)
  {
  }

  // The size guard, on the value as the client sent it; a limit of zero means no guard.
  function SizeRefusal(maxSize: int, value: Bytes): Option<GoError> {
    if maxSize > 0 && (|value| == 0 || |value| > maxSize) then Some(BadPayloadSize(maxSize, |value|)) else None
  }
}
