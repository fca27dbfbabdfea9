// runtime/engine_call.hpp: the lifecycle of controlled engine calls.
module EngineCalls {
  datatype Phase = Idle | Prepared | Entered | Returned

  // All counters of the tracker.
  datatype Counts = Counts(reserved: nat, entered: nat, returned: nat, posts: nat, steps: nat, zero: nat, terminalSteps: nat,
                           aborted: nat, active: nat, phase: Phase, faults: nat, reentrant: nat, wrongThread: nat)

  const MAX_CALL_ID: nat := 0xffff_ffff_ffff_ffff

  function One(b: bool): nat {
    if b then 1 else 0
  }

  // Every entered call returned, was aborted, or is the one in flight; at most
  // one call is active, and only measured returns are posted.
  predicate Conserved(c: Counts) {
    && c.entered == c.returned + c.aborted + One(c.phase == Entered)
    && (c.active == 0 <==> c.phase == Idle)
    && (c.active != 0 ==> c.active == c.reserved)
    && c.entered + One(c.phase == Prepared) <= c.reserved
    && c.posts + One(c.phase == Returned) <= c.returned
    && c.reentrant + c.wrongThread <= c.faults
    && (c.aborted > 0 ==> c.faults > 0)
    && (c.entered + One(c.phase == Prepared) < c.reserved ==> c.faults > 0)
  }

  // The health flag of the evidence.
  predicate Healthy(c: Counts) {
    && c.faults == 0 && c.active == 0
    && c.reserved == c.entered && c.entered == c.returned && c.returned == c.posts
    && c.returned == c.steps + c.zero && c.zero <= 1
  }

  // A rejected operation counts a fault, and a foreign thread, and does nothing else.
  function Denied(c: Counts, onOwner: bool): Counts {
    c.(faults := c.faults + 1, wrongThread := c.wrongThread + One(!onOwner))
  }

  // The flag certifies what it does not test: nothing was aborted or left in
  // flight; and a fault-free idle tracker fails it only for an unposted return
  // or an unclassified clock change.
  lemma HealthCertifies(c: Counts)
    requires Conserved(c)
    ensures Healthy(c) ==> c.aborted == 0 && c.phase == Idle && c.reentrant == c.wrongThread == 0
    ensures c.faults == 0 && c.phase == Idle ==>
      (Healthy(c) <==> c.posts == c.returned && c.returned == c.steps + c.zero && c.zero <= 1)
  {
  }

  class EngineCallTracker {
    var reserved: nat
    var entered: nat
    var returned: nat
    var posts: nat
    var steps: nat
    var zero: nat
    var terminalSteps: nat
    var aborted: nat
    var active: nat
    var phase: Phase
    var faults: nat
    var reentrant: nat
    var wrongThread: nat

    ghost function State(): Counts
      reads this
    {
      Counts(reserved, entered, returned, posts, steps, zero, terminalSteps, aborted, active, phase, faults, reentrant, wrongThread)
    }

    ghost predicate Valid()
      reads this
    {
      Conserved(State())
    }

    constructor ()
      ensures Valid() && State() == Counts(0, 0, 0, 0, 0, 0, 0, 0, 0, Idle, 0, 0, 0)
    {
      reserved, entered, returned, posts, steps, zero, terminalSteps := 0, 0, 0, 0, 0, 0, 0;
      aborted, active, phase, faults, reentrant, wrongThread := 0, 0, Idle, 0, 0, 0;
    }

    // Refuses a nested or foreign-thread entry without touching the outer call.
    method GuardEntry(onOwner: bool) returns (allowed: bool)
      requires Valid()
      modifies this`faults, this`reentrant, this`wrongThread
      ensures Valid()
      ensures allowed <==> onOwner && active == 0
      ensures allowed ==> State() == old(State())
      ensures !allowed ==> faults == old(faults) + 1
      ensures reentrant == old(reentrant) + One(onOwner && active != 0) && wrongThread == old(wrongThread) + One(!onOwner)
    {
      if !onOwner {
        wrongThread, faults := wrongThread + 1, faults + 1;
        return false;
      }
      if active != 0 {
        reentrant, faults := reentrant + 1, faults + 1;
        return false;
      }
      allowed := true;
    }

    // Another thread may touch nothing but the fault counters.
    method Owner(onOwner: bool) returns (ok: bool)
      requires Valid()
      modifies this`faults, this`wrongThread
      ensures Valid() && ok == onOwner
      ensures State() == if ok then old(State()) else Denied(old(State()), false)
    {
      if !onOwner { wrongThread, faults := wrongThread + 1, faults + 1; }
      ok := onOwner;
    }

    method Reserve(onOwner: bool) returns (id: nat)
      requires Valid()
      modifies this`reserved, this`active, this`phase, this`faults, this`wrongThread
      ensures Valid()
      ensures onOwner && old(active) == 0 && old(reserved) != MAX_CALL_ID ==>
        id == old(reserved) + 1 && State() == old(State()).(reserved := id, active := id, phase := Prepared)
      ensures !(onOwner && old(active) == 0 && old(reserved) != MAX_CALL_ID) ==> id == 0 && State() == Denied(old(State()), onOwner)
    {
      var mine := Owner(onOwner);
      if !mine { return 0; }
      if active != 0 || reserved == MAX_CALL_ID {
        faults := faults + 1;
        return 0;
      }
      reserved := reserved + 1;
      active, phase := reserved, Prepared;
      id := active;
    }

    method Enter(onOwner: bool, id: nat) returns (ok: bool)
      requires Valid()
      modifies this`entered, this`phase, this`faults, this`wrongThread
      ensures Valid() && (ok <==> onOwner && id != 0 && id == old(active) && old(phase) == Prepared)
      ensures ok ==> State() == old(State()).(entered := old(entered) + 1, phase := Entered)
      ensures !ok ==> State() == Denied(old(State()), onOwner)
    {
      var mine := Owner(onOwner);
      if !mine { return false; }
      if id == 0 || id != active || phase != Prepared {
        faults := faults + 1;
        return false;
      }
      entered, phase := entered + 1, Entered;
      ok := true;
    }

    method Return(onOwner: bool, id: nat) returns (ok: bool)
      requires Valid()
      modifies this`returned, this`phase, this`faults, this`wrongThread
      ensures Valid() && (ok <==> onOwner && id != 0 && id == old(active) && old(phase) == Entered)
      ensures ok ==> State() == old(State()).(returned := old(returned) + 1, phase := Returned)
      ensures !ok ==> State() == Denied(old(State()), onOwner)
    {
      var mine := Owner(onOwner);
      if !mine { return false; }
      if id == 0 || id != active || phase != Entered {
        faults := faults + 1;
        return false;
      }
      returned, phase := returned + 1, Returned;
      ok := true;
    }

    method Complete(onOwner: bool, id: nat, post: bool, step: bool, terminalZero: bool, terminalStep: bool) returns (ok: bool)
      requires Valid()
      modifies this`posts, this`steps, this`zero, this`terminalSteps, this`active, this`phase, this`faults, this`wrongThread
      ensures Valid() && (ok <==> onOwner && id != 0 && id == old(active) && old(phase) == Returned)
      ensures ok ==> State() == old(State()).(posts := old(posts) + One(post), steps := old(steps) + One(step),
        zero := old(zero) + One(terminalZero), terminalSteps := old(terminalSteps) + One(terminalStep), active := 0, phase := Idle)
      ensures !ok ==> State() == Denied(old(State()), onOwner)
    {
      var mine := Owner(onOwner);
      if !mine { return false; }
      if id == 0 || id != active || phase != Returned {
        faults := faults + 1;
        return false;
      }
      posts, steps := posts + One(post), steps + One(step);
      zero, terminalSteps := zero + One(terminalZero), terminalSteps + One(terminalStep);
      active, phase := 0, Idle;
      ok := true;
    }

    // A measured return is never turned into an aborted call.
    method Abort(onOwner: bool, id: nat) returns (ok: bool)
      requires Valid()
      modifies this`aborted, this`active, this`phase, this`faults, this`wrongThread
      ensures Valid() && (ok <==> onOwner && old(active) != 0 && id == old(active))
      ensures ok ==> State() == old(State()).(aborted := old(aborted) + One(old(phase) == Entered), faults := old(faults) + 1, active := 0, phase := Idle)
      ensures !ok ==> State() == Denied(old(State()), onOwner)
    {
      var mine := Owner(onOwner);
      if !mine { return false; }
      faults := faults + 1;
      if active == 0 || id != active { return false; }
      if phase == Entered { aborted := aborted + 1; }
      active, phase := 0, Idle;
      ok := true;
    }
  }
}
