// determinism/measurement.cpp: the measurement session, its sequence allocator
// and its ledger, shared by every probe of one run.
module Measurements {
  datatype State = Idle | Open | Closing | Closed | Failed

  class MeasurementHost {
    var state: State
    var owner: nat
    var session: nat
    var nextSequence: nat
    var nextInvocation: nat
    var captured: nat
    var delivered: nat
    var persisted: nat
    var overflow: nat
    var wrongThread: nat
    var nestingMismatch: nat
    var incomplete: nat
    var refused: nat

    constructor ()
      ensures state == Idle && owner == 0 && session == 0 && nextSequence == 1 && nextInvocation == 1
      ensures captured == delivered == persisted == 0 && Faultless() && refused == 0
    {
      state, owner, session, nextSequence, nextInvocation := Idle, 0, 0, 1, 1;
      captured, delivered, persisted, overflow, wrongThread, nestingMismatch, incomplete, refused := 0, 0, 0, 0, 0, 0, 0, 0;
    }

    predicate Faultless()
      reads this
    {
      overflow == 0 && wrongThread == 0 && nestingMismatch == 0 && incomplete == 0
    }

    // Starts a session unless one is active; both sequence domains start at one.
    method OpenSession(thread: nat) returns (ok: bool)
      modifies this
      ensures ok <==> old(state) != Open && old(state) != Closing
      ensures ok ==> state == Open && owner == thread && session == old(session) + 1 && nextSequence == nextInvocation == 1
      ensures ok ==> captured == delivered == persisted == 0 && Faultless() && refused == 0
      ensures !ok ==> state == old(state) && owner == old(owner) && session == old(session)
      ensures !ok ==> nextSequence == old(nextSequence) && nextInvocation == old(nextInvocation)
      ensures !ok ==> captured == old(captured) && delivered == old(delivered) && persisted == old(persisted) && refused == old(refused)
      ensures !ok ==> overflow == old(overflow) && wrongThread == old(wrongThread) && nestingMismatch == old(nestingMismatch) && incomplete == old(incomplete)
    {
      if state == Open || state == Closing { return false; }
      owner, session, nextSequence, nextInvocation := thread, session + 1, 1, 1;
      captured, delivered, persisted, overflow, wrongThread, nestingMismatch, incomplete, refused := 0, 0, 0, 0, 0, 0, 0, 0;
      state := Open;
      ok := true;
    }

    // Validates: only a faultless session whose events were all persisted.
    method Close() returns (ok: bool)
      modifies this`state
      ensures ok <==> old(state) == Open && Faultless() && captured == delivered == persisted
      ensures state == if ok then Closing else old(state)
    {
      if state != Open || !Faultless() || captured != delivered || delivered != persisted { return false; }
      state := Closing;
      ok := true;
    }

    method Commit() returns (ok: bool)
      modifies this`state
      ensures ok <==> old(state) == Closing
      ensures state == if ok then Closed else old(state)
    {
      ok := state == Closing;
      if ok { state := Closed; }
    }

    method Abort() returns (ok: bool)
      modifies this`state
      ensures ok <==> old(state) == Open || old(state) == Closing
      ensures state == if ok then Failed else old(state)
    {
      ok := state == Open || state == Closing;
      if ok { state := Failed; }
    }

    // Outside an open session every note is refused, and only that is counted.
    ghost predicate Refuses(was: nat)
      reads this
    {
      refused == if state == Open then was else was + 1
    }

    // Zero when refused; otherwise larger than every sequence before.
    method NextSequence(thread: nat) returns (sequence: nat)
      requires nextSequence > 0
      modifies this`nextSequence, this`refused, this`wrongThread
      ensures sequence == if state == Open && thread == owner then old(nextSequence) else 0
      ensures nextSequence == if sequence != 0 then old(nextSequence) + 1 else old(nextSequence)
      ensures Refuses(old(refused)) && wrongThread == if state == Open && thread != owner then old(wrongThread) + 1 else old(wrongThread)
    {
      if state != Open { refused := refused + 1; return 0; }
      if thread != owner { wrongThread := wrongThread + 1; return 0; }
      sequence, nextSequence := nextSequence, nextSequence + 1;
    }

    method NextInvocationId(thread: nat) returns (id: nat)
      requires nextInvocation > 0
      modifies this`nextInvocation, this`refused, this`wrongThread
      ensures id == if state == Open && thread == owner then old(nextInvocation) else 0
      ensures nextInvocation == if id != 0 then old(nextInvocation) + 1 else old(nextInvocation)
      ensures Refuses(old(refused)) && wrongThread == if state == Open && thread != owner then old(wrongThread) + 1 else old(wrongThread)
    {
      if state != Open { refused := refused + 1; return 0; }
      if thread != owner { wrongThread := wrongThread + 1; return 0; }
      id, nextInvocation := nextInvocation, nextInvocation + 1;
    }

    method OnCaptured()
      modifies this`captured, this`refused
      ensures captured == (if state == Open then old(captured) + 1 else old(captured)) && Refuses(old(refused))
    {
      if state != Open { refused := refused + 1; } else { captured := captured + 1; }
    }

    method OnDelivered(count: nat)
      modifies this`delivered, this`refused
      ensures delivered == (if state == Open then old(delivered) + count else old(delivered)) && Refuses(old(refused))
    {
      if state != Open { refused := refused + 1; } else { delivered := delivered + count; }
    }

    method OnPersisted(count: nat)
      modifies this`persisted, this`refused
      ensures persisted == (if state == Open then old(persisted) + count else old(persisted)) && Refuses(old(refused))
    {
      if state != Open { refused := refused + 1; } else { persisted := persisted + count; }
    }

    method OnOverflow()
      modifies this`overflow, this`refused
      ensures overflow == (if state == Open then old(overflow) + 1 else old(overflow)) && Refuses(old(refused))
    {
      if state != Open { refused := refused + 1; } else { overflow := overflow + 1; }
    }

    method OnWrongThread()
      modifies this`wrongThread, this`refused
      ensures wrongThread == (if state == Open then old(wrongThread) + 1 else old(wrongThread)) && Refuses(old(refused))
    {
      if state != Open { refused := refused + 1; } else { wrongThread := wrongThread + 1; }
    }

    method OnNestingMismatch()
      modifies this`nestingMismatch, this`refused
      ensures nestingMismatch == (if state == Open then old(nestingMismatch) + 1 else old(nestingMismatch)) && Refuses(old(refused))
    {
      if state != Open { refused := refused + 1; } else { nestingMismatch := nestingMismatch + 1; }
    }

    method OnIncomplete()
      modifies this`incomplete, this`refused
      ensures incomplete == (if state == Open then old(incomplete) + 1 else old(incomplete)) && Refuses(old(refused))
    {
      if state != Open { refused := refused + 1; } else { incomplete := incomplete + 1; }
    }
  }
}
