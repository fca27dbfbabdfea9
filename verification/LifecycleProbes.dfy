// determinism/lifecycle_probes.cpp: the probe queue and the pairing of recycle
// candidates with their commits.
module LifecycleProbes {
  import opened Measurements

  const CAPACITY: nat := 1024
  const WORD: nat := 0x1_0000_0000
  const SITES: nat := 8

  datatype Option<+T> = None | Some(value: T)

  // Phase and removal observations, a slot about to be recycled, and a slot put on
  // the free list.
  datatype Record =
    | Observed(sequence: nat, site: nat, zombie: nat, before: int, after: int)
    | Candidate(sequence: nat, zombie: nat, board: nat, slot: nat, freeHead: nat, count: nat)
    | Committed(sequence: nat, candidateSequence: nat, slot: nat, freeHeadAfter: nat, countAfter: nat)

  // A record and the free-list link its slot held when it was captured.
  datatype Seen = Seen(record: Record, link: nat)

  predicate IsRecycle(s: Seen) {
    !s.record.Observed?
  }

  // The recycle records of a history, in order.
  function Recycles(history: seq<Seen>): seq<Seen> {
    if history == [] then []
    else var rest := Recycles(history[..|history| - 1]);
      if IsRecycle(history[|history| - 1]) then rest + [history[|history| - 1]] else rest
  }

  // `commit` completes `candidate`: the slot was pushed on the free list and the
  // pool counts one entry less.
  predicate Pushes(candidate: Record, commit: Seen) {
    && candidate.Candidate? && commit.record.Committed?
    && commit.record.candidateSequence == candidate.sequence && commit.record.slot == candidate.slot
    && commit.record.freeHeadAfter == candidate.slot && commit.link == candidate.freeHead
    && (commit.record.countAfter + 1) % WORD == candidate.count
  }

  // Every candidate is directly followed by the commit that completes it.
  predicate Closed(rs: seq<Seen>) {
    rs == [] || (|rs| >= 2 && Pushes(rs[|rs| - 2].record, rs[|rs| - 1]) && Closed(rs[..|rs| - 2]))
  }

  // The same, except for a last candidate that is still pending.
  predicate Paired(rs: seq<Seen>, pending: Option<Record>) {
    if pending.None? then Closed(rs)
    else rs != [] && rs[|rs| - 1].record == pending.value && pending.value.Candidate? && Closed(rs[..|rs| - 1])
  }

  lemma PairedObserves(history: seq<Seen>, pending: Option<Record>, s: Seen)
    requires Paired(Recycles(history), pending) && !IsRecycle(s)
    ensures Paired(Recycles(history + [s]), pending)
  {
    assert (history + [s])[..|history|] == history;
  }

  lemma PairedOpens(history: seq<Seen>, s: Seen)
    requires Paired(Recycles(history), None) && s.record.Candidate?
    ensures Paired(Recycles(history + [s]), Some(s.record))
  {
    hide Closed;
    assert (history + [s])[..|history|] == history;
    assert (Recycles(history) + [s])[..|Recycles(history)|] == Recycles(history);
  }

  lemma PairedCloses(history: seq<Seen>, candidate: Record, s: Seen)
    requires Paired(Recycles(history), Some(candidate)) && Pushes(candidate, s)
    ensures Paired(Recycles(history + [s]), None)
  {
    hide Pushes;
    assert (history + [s])[..|history|] == history;
    var rs := Recycles(history);
    assert IsRecycle(s) by { PushIsRecycle(candidate, s); }
    assert (rs + [s])[..|rs + [s]| - 2] == rs[..|rs| - 1];
  }

  lemma PushIsRecycle(candidate: Record, s: Seen)
    requires Pushes(candidate, s)
    ensures IsRecycle(s)
  {
  }

  ghost predicate Waiting(queue: seq<Record>, history: seq<Seen>, nextSequence: nat) {
    && |queue| <= |history| && (forall i :: 0 <= i < |queue| ==> queue[i] == history[|history| - |queue| + i].record)
    && (forall i, j :: 0 <= i < j < |history| ==> history[i].record.sequence < history[j].record.sequence)
    && (forall i :: 0 <= i < |history| ==> 0 < history[i].record.sequence < nextSequence)
  }

  lemma WaitingMore(queue: seq<Record>, history: seq<Seen>, s: Seen)
    requires Waiting(queue, history, s.record.sequence) && s.record.sequence > 0
    ensures Waiting(queue + [s.record], history + [s], s.record.sequence + 1)
  {
  }

  lemma WaitingLonger(queue: seq<Record>, history: seq<Seen>, nextSequence: nat, later: nat)
    requires Waiting(queue, history, nextSequence) && nextSequence <= later
    ensures Waiting(queue, history, later) && Waiting([], history, later)
  {
  }

  // What a probe missed, by reason.
  datatype Tally = Tally(overflow: nat, wrongThread: nat, inactive: nat, classifyRefused: nat, readFailed: nat, liveSkips: nat,
                         unmatchedCommits: nat, pairMismatch: nat, overwrittenPending: nat, faults: nat)

  // One more record was due: without a sequence it is a fault, without room an
  // overflow.
  function Attempted(t: Tally, sequenced: bool, room: bool): Tally {
    if !sequenced then t.(faults := t.faults + 1) else if !room then t.(overflow := t.overflow + 1) else t
  }

  class ProbeQueue {
    const host: MeasurementHost
    const owner: nat
    var active: bool
    var queue: seq<Record>
    var pending: Option<Record>
    // The store under way: site, entity, address and the value before it.
    var capture: Option<(nat, nat, nat, int)>
    var captured: nat
    var delivered: nat
    var overflow: nat
    var wrongThread: nat
    var inactive: nat
    var classifyRefused: nat
    var readFailed: nat
    var liveSkips: nat
    var unmatchedCommits: nat
    var pairMismatch: nat
    var overwrittenPending: nat
    var faults: nat
    ghost var history: seq<Seen>

    // Nothing was lost. Skipped live slots are expected.
    predicate Complete()
      reads this
    {
      && faults == 0 && overflow == 0 && wrongThread == 0 && inactive == 0 && classifyRefused == 0 && readFailed == 0
      && unmatchedCommits == 0 && pairMismatch == 0 && overwrittenPending == 0
    }

    predicate Healthy()
      reads this
    {
      Complete() && pending.None?
    }

    ghost function Missed(): Tally
      reads this
    {
      Tally(overflow, wrongThread, inactive, classifyRefused, readFailed, liveSkips, unmatchedCommits, pairMismatch, overwrittenPending, faults)
    }

    // The session hands this thread a sequence.
    predicate Sequences(thread: nat)
      reads host`state, host`owner
    {
      host.state == State.Open && thread == host.owner
    }

    // An open session notes every fault and overflow of the probe.
    ghost predicate Noted(before: Tally, incomplete0: nat, overflow0: nat)
      reads this, host
    {
      host.state == State.Open ==> (faults >= before.faults && overflow >= before.overflow
        && host.incomplete == incomplete0 + (faults - before.faults) && host.overflow == overflow0 + (overflow - before.overflow))
    }

    ghost predicate Valid()
      reads this, host
    {
      ValidAt(host.nextSequence)
    }

    // Only the host's next sequence matters, and it only grows.
    lemma ValidLater(next: nat)
      requires ValidAt(next) && next <= host.nextSequence
      ensures Valid()
    {
      WaitingLonger(queue, history, next, host.nextSequence);
    }

    ghost predicate ValidAt(next: nat)
      reads this
    {
      && |queue| <= CAPACITY && captured == |history| && next > 0
      && Waiting(queue, history, next)
      && (pending.Some? ==> pending.value.Candidate?)
      && (Complete() ==> Paired(Recycles(history), pending))
    }

    constructor (host: MeasurementHost, owner: nat)
      requires host.nextSequence > 0
      ensures Valid() && this.host == host && this.owner == owner && queue == [] && history == [] && Healthy() && !active
      ensures capture.None? && delivered == liveSkips == 0
    {
      this.host, this.owner := host, owner;
      active, queue, pending, capture := false, [], None, None;
      captured, delivered, overflow, wrongThread, inactive, classifyRefused := 0, 0, 0, 0, 0, 0;
      readFailed, liveSkips, unmatchedCommits, pairMismatch, overwrittenPending, faults := 0, 0, 0, 0, 0, 0;
      history := [];
    }

    // Captures only while installed, and only on the owning thread.
    method Accepts(thread: nat) returns (ok: bool)
      modifies this`inactive, this`wrongThread, host`wrongThread, host`refused
      ensures ok <==> active && thread == owner
      ensures inactive == (if active then old(inactive) else old(inactive) + 1)
      ensures wrongThread == (if active && thread != owner then old(wrongThread) + 1 else old(wrongThread))
      ensures host.wrongThread == (if active && thread != owner && host.state == State.Open then old(host.wrongThread) + 1 else old(host.wrongThread))
    {
      if !active { inactive := inactive + 1; return false; }
      if thread != owner {
        wrongThread := wrongThread + 1;
        host.OnWrongThread();
        return false;
      }
      ok := true;
    }

    method Sequence(thread: nat) returns (sequence: nat)
      requires host.nextSequence > 0
      modifies this`faults, host`nextSequence, host`refused, host`wrongThread, host`incomplete
      ensures sequence == if host.state == State.Open && thread == host.owner then old(host.nextSequence) else 0
      ensures host.nextSequence == if sequence != 0 then old(host.nextSequence) + 1 else old(host.nextSequence)
      ensures faults == if sequence != 0 then old(faults) else old(faults) + 1
      ensures host.state == State.Open ==> host.incomplete == old(host.incomplete) + (faults - old(faults))
    {
      sequence := host.NextSequence(thread);
      if sequence == 0 {
        faults := faults + 1;
        host.OnIncomplete();
      }
    }

    // Queues a record whose sequence was just allocated; a full queue loses it.
    method Push(record: Record, ghost link: nat) returns (ghost kept: bool)
      requires |queue| <= CAPACITY && captured == |history| && host.state == State.Open
      requires record.sequence > 0 && host.nextSequence == record.sequence + 1 && Waiting(queue, history, record.sequence)
      modifies this`queue, this`captured, this`overflow, this`history, host`captured, host`refused, host`overflow
      ensures |queue| <= CAPACITY && captured == |history| && Waiting(queue, history, host.nextSequence)
      ensures kept ==> history == old(history) + [Seen(record, link)] && queue == old(queue) + [record] && host.captured == old(host.captured) + 1
      ensures kept <==> |old(queue)| < CAPACITY
      ensures overflow == (if kept then old(overflow) else old(overflow) + 1) && host.overflow == old(host.overflow) + (overflow - old(overflow))
      ensures !kept ==> history == old(history) && queue == old(queue) && host.captured == old(host.captured)
    {
      hide Waiting;
      if |queue| >= CAPACITY {
        WaitingLonger(queue, history, record.sequence, host.nextSequence);
        overflow := overflow + 1;
        host.OnOverflow();
        return false;
      }
      WaitingMore(queue, history, Seen(record, link));
      queue, captured, history := queue + [record], captured + 1, history + [Seen(record, link)];
      host.OnCaptured();
      kept := true;
    }

    // Before a watched store: remembers it if it can be observed. `value` is what the
    // address holds.
    method BeforePhase(thread: nat, site: nat, zombie: nat, address: nat, readable: bool, value: int, classified: bool)
      requires Valid()
      modifies this`capture, this`inactive, this`wrongThread, this`readFailed, this`classifyRefused, this`faults, host`wrongThread, host`refused
      ensures Valid() && host.captured == old(host.captured) && host.nextSequence == old(host.nextSequence)
      ensures capture == if active && thread == owner && site < SITES && readable && classified then Some((site, zombie, address, value)) else None
      ensures Missed() ==
        if !active then old(Missed()).(inactive := old(inactive) + 1)
        else if thread != owner then old(Missed()).(wrongThread := old(wrongThread) + 1)
        else if site >= SITES then old(Missed()).(faults := old(faults) + 1)
        else if !readable then old(Missed()).(readFailed := old(readFailed) + 1)
        else if !classified then old(Missed()).(classifyRefused := old(classifyRefused) + 1)
        else old(Missed())
    {
      hide Paired, Waiting;
      var accepted := Accepts(thread);
      if !accepted { capture := None; return; }
      if site >= SITES { faults, capture := faults + 1, None; return; }
      if !readable { readFailed, capture := readFailed + 1, None; return; }
      if !classified { classifyRefused, capture := classifyRefused + 1, None; return; }
      capture := Some((site, zombie, address, value));
    }

    // After it: the same store becomes a record of both values.
    method AfterPhase(thread: nat, site: nat, zombie: nat, address: nat, readable: bool, value: int) returns (ghost kept: bool)
      requires Valid()
      modifies this`capture, this`readFailed, this`faults, this`queue, this`captured, this`overflow, this`history
      modifies host`nextSequence, host`refused, host`wrongThread, host`incomplete, host`captured, host`overflow
      ensures Valid() && Keeps(kept, old(history), old(host.captured), old(host.nextSequence), old(queue))
      ensures kept ==> old(capture).Some? && old(capture).value.0 == site && old(capture).value.1 == zombie && old(capture).value.2 == address
      ensures kept ==> history[|old(history)|].record == Observed(old(host.nextSequence), site, zombie, old(capture).value.3, value)
      ensures capture.None?
      ensures var due := old(capture).Some? && old(capture).value.0 == site && old(capture).value.1 == zombie && old(capture).value.2 == address
          && active && thread == owner;
        && (kept <==> due && readable && Sequences(thread) && |old(queue)| < CAPACITY)
        && Missed() == (if !due then old(Missed()) else if !readable then old(Missed()).(readFailed := old(readFailed) + 1)
                        else Attempted(old(Missed()), Sequences(thread), |old(queue)| < CAPACITY))
      ensures Noted(old(Missed()), old(host.incomplete), old(host.overflow))
    {
      hide Paired, Waiting;
      var store := capture;
      capture, kept := None, false;
      if store.None? || store.value.0 != site || store.value.1 != zombie || store.value.2 != address { return; }
      if !active || thread != owner { return; }
      if !readable { readFailed := readFailed + 1; return; }
      kept := KeepStore(thread, site, zombie, store.value.3, value);
    }

    method KeepStore(thread: nat, site: nat, zombie: nat, before: int, after: int) returns (ghost kept: bool)
      requires Valid()
      modifies this`faults, this`queue, this`captured, this`overflow, this`history
      modifies host`nextSequence, host`refused, host`wrongThread, host`incomplete, host`captured, host`overflow
      ensures Valid() && Keeps(kept, old(history), old(host.captured), old(host.nextSequence), old(queue))
      ensures kept ==> history[|old(history)|].record == Observed(old(host.nextSequence), site, zombie, before, after)
      ensures kept <==> Sequences(thread) && |old(queue)| < CAPACITY
      ensures Missed() == Attempted(old(Missed()), Sequences(thread), |old(queue)| < CAPACITY)
      ensures Noted(old(Missed()), old(host.incomplete), old(host.overflow))
    {
      hide Paired, Waiting;
      kept := false;
      ghost var next := host.nextSequence;
      var sequence := Sequence(thread);
      WaitingLonger(queue, history, next, host.nextSequence);
      if sequence == 0 { return; }
      ghost var was := history;
      var record := Observed(sequence, site, zombie, before, after);
      kept := Push(record, 0);
      if Complete() { PairedObserves(was, pending, Seen(record, 0)); }
    }

    // What one capture point adds to the shared ledger.
    ghost predicate Keeps(kept: bool, history0: seq<Seen>, captured0: nat, next0: nat, queue0: seq<Record>)
      reads this, host
    {
      && host.nextSequence >= next0
      && (kept ==> |history| == |history0| + 1 && history[..|history0|] == history0 && queue == queue0 + [history[|history0|].record])
      && (kept ==> host.captured == captured0 + 1 && history[|history0|].record.sequence == next0)
      && (!kept ==> history == history0 && queue == queue0 && host.captured == captured0)
    }

    // The engine found a dead entry and is about to recycle its slot.
    method RecycleGuard(thread: nat, zombie: nat, dead: bool, classified: bool, board: nat, slot: nat, readable: bool, freeHead: nat, count: nat)
      returns (ghost kept: bool)
      requires Valid()
      modifies this`inactive, this`wrongThread, this`liveSkips, this`classifyRefused, this`readFailed, this`overwrittenPending, this`faults
      modifies this`pending, this`queue, this`captured, this`overflow, this`history
      modifies host`nextSequence, host`refused, host`wrongThread, host`incomplete, host`captured, host`overflow
      ensures Valid() && Keeps(kept, old(history), old(host.captured), old(host.nextSequence), old(queue))
      ensures kept ==> dead && pending == Some(Candidate(old(host.nextSequence), zombie, board, slot, freeHead, count))
      ensures kept ==> history[|old(history)|].record == pending.value && (Complete() ==> old(pending).None?)
      ensures var due := active && thread == owner && dead && classified && readable;
        && (kept <==> due && Sequences(thread) && |old(queue)| < CAPACITY)
        && pending == if !due then old(pending) else if !Sequences(thread) then None
                      else Some(Candidate(old(host.nextSequence), zombie, board, slot, freeHead, count))
      ensures Missed() ==
        if !active then old(Missed()).(inactive := old(inactive) + 1)
        else if thread != owner then old(Missed()).(wrongThread := old(wrongThread) + 1)
        else if !dead then old(Missed()).(liveSkips := old(liveSkips) + 1)
        else if !classified then old(Missed()).(classifyRefused := old(classifyRefused) + 1)
        else if !readable then old(Missed()).(readFailed := old(readFailed) + 1)
        else if old(pending).None? then Attempted(old(Missed()), Sequences(thread), |old(queue)| < CAPACITY)
        else Attempted(old(Missed()).(overwrittenPending := old(overwrittenPending) + 1, faults := old(faults) + 1), Sequences(thread), |old(queue)| < CAPACITY)
      ensures Noted(old(Missed()), old(host.incomplete), old(host.overflow))
    {
      hide Paired, Waiting, Attempted;
      kept := false;
      var accepted := Accepts(thread);
      if !accepted { return; }
      if !dead { liveSkips := liveSkips + 1; return; }
      if !classified { classifyRefused := classifyRefused + 1; return; }
      if !readable { readFailed := readFailed + 1; return; }
      if pending.Some? {
        overwrittenPending := overwrittenPending + 1;
        Spoil();
      }
      kept := OpenPair(thread, zombie, board, slot, freeHead, count);
    }

    // The new candidate replaces any older one, which was counted as a fault.
    method OpenPair(thread: nat, zombie: nat, board: nat, slot: nat, freeHead: nat, count: nat) returns (ghost kept: bool)
      requires Valid() && (pending.Some? ==> !Complete())
      modifies this`faults, this`pending, this`queue, this`captured, this`overflow, this`history
      modifies host`nextSequence, host`refused, host`wrongThread, host`incomplete, host`captured, host`overflow
      ensures Valid() && Keeps(kept, old(history), old(host.captured), old(host.nextSequence), old(queue))
      ensures kept ==> pending == Some(Candidate(old(host.nextSequence), zombie, board, slot, freeHead, count))
      ensures kept ==> history[|old(history)|].record == pending.value
      ensures kept <==> Sequences(thread) && |old(queue)| < CAPACITY
      ensures pending == if Sequences(thread) then Some(Candidate(old(host.nextSequence), zombie, board, slot, freeHead, count)) else None
      ensures Missed() == Attempted(old(Missed()), Sequences(thread), |old(queue)| < CAPACITY)
      ensures Noted(old(Missed()), old(host.incomplete), old(host.overflow))
    {
      hide Paired, Waiting;
      kept := false;
      ghost var next := host.nextSequence;
      var sequence := Sequence(thread);
      WaitingLonger(queue, history, next, host.nextSequence);
      if sequence == 0 { pending := None; return; }
      var candidate := Candidate(sequence, zombie, board, slot, freeHead, count);
      ghost var was := history;
      kept := Push(candidate, 0);
      if Complete() { PairedOpens(was, Seen(candidate, 0)); }
      pending := Some(candidate);
    }

    // Gives up the pending candidate.
    method Spoil()
      requires Valid()
      modifies this`faults, this`pending, host`incomplete, host`refused
      ensures Valid() && pending.None? && faults == old(faults) + 1
      ensures host.state == State.Open ==> host.incomplete == old(host.incomplete) + 1
    {
      hide Paired, Waiting;
      faults, pending := faults + 1, None;
      host.OnIncomplete();
    }

    // The slot is on the free list: a commit names the candidate just before it.
    method RecycleCommit(thread: nat, zombie: nat, board: nat, readable: bool, link: nat, head: nat, count: nat) returns (ghost kept: bool)
      requires Valid()
      modifies this`inactive, this`wrongThread, this`readFailed, this`unmatchedCommits, this`pairMismatch, this`faults
      modifies this`pending, this`queue, this`captured, this`overflow, this`history
      modifies host`nextSequence, host`refused, host`wrongThread, host`incomplete, host`captured, host`overflow
      ensures Valid() && Keeps(kept, old(history), old(host.captured), old(host.nextSequence), old(queue))
      ensures kept ==> old(pending).Some? && pending.None? && Pushes(old(pending).value, history[|old(history)|])
      ensures kept ==> old(pending).value.zombie == zombie && old(pending).value.board == board && history[|old(history)|].link == link
      ensures active && thread == owner ==> pending.None?
      ensures !(active && thread == owner) ==> !kept && pending == old(pending)
      ensures var matched := old(pending).Some? && old(pending).value.zombie == zombie && old(pending).value.board == board;
        var pushed := matched && link == old(pending).value.freeHead && head == old(pending).value.slot && (count + 1) % WORD == old(pending).value.count;
        && (kept <==> active && thread == owner && pushed && readable && Sequences(thread) && |old(queue)| < CAPACITY)
        && Missed() == (
           if !active then old(Missed()).(inactive := old(inactive) + 1)
           else if thread != owner then old(Missed()).(wrongThread := old(wrongThread) + 1)
           else if !matched then old(Missed()).(unmatchedCommits := old(unmatchedCommits) + 1, faults := old(faults) + 1)
           else if !readable then old(Missed()).(readFailed := old(readFailed) + 1, faults := old(faults) + 1)
           else if !pushed then old(Missed()).(pairMismatch := old(pairMismatch) + 1, faults := old(faults) + 1)
           else Attempted(old(Missed()), Sequences(thread), |old(queue)| < CAPACITY))
      ensures Noted(old(Missed()), old(host.incomplete), old(host.overflow))
    {
      hide Paired, Waiting, Pushes, Attempted;
      kept := false;
      var accepted := Accepts(thread);
      if !accepted { return; }
      if pending.None? || pending.value.zombie != zombie || pending.value.board != board {
        unmatchedCommits := unmatchedCommits + 1;
        Spoil();
        return;
      }
      if !readable {
        readFailed := readFailed + 1;
        Spoil();
        return;
      }
      if link != pending.value.freeHead || head != pending.value.slot || (count + 1) % WORD != pending.value.count {
        pairMismatch := pairMismatch + 1;
        Spoil();
        return;
      }
      kept := ClosePair(thread, link, head, count);
    }

    // The commit completes the pending candidate.
    method ClosePair(thread: nat, link: nat, head: nat, count: nat) returns (ghost kept: bool)
      requires Valid() && pending.Some? && link == pending.value.freeHead && head == pending.value.slot && (count + 1) % WORD == pending.value.count
      modifies this`faults, this`pending, this`queue, this`captured, this`overflow, this`history
      modifies host`nextSequence, host`refused, host`wrongThread, host`incomplete, host`captured, host`overflow
      ensures Valid() && Keeps(kept, old(history), old(host.captured), old(host.nextSequence), old(queue)) && pending.None?
      ensures kept ==> Pushes(old(pending).value, history[|old(history)|]) && history[|old(history)|].link == link
      ensures kept <==> Sequences(thread) && |old(queue)| < CAPACITY
      ensures Missed() == Attempted(old(Missed()), Sequences(thread), |old(queue)| < CAPACITY)
      ensures Noted(old(Missed()), old(host.incomplete), old(host.overflow))
    {
      hide Paired, Waiting;
      kept := false;
      ghost var next := host.nextSequence;
      var sequence := Sequence(thread);
      WaitingLonger(queue, history, next, host.nextSequence);
      if sequence == 0 { pending := None; return; }
      var commit := Committed(sequence, pending.value.sequence, pending.value.slot, head, count);
      ghost var was := history;
      kept := Push(commit, link);
      if Complete() { PairedCloses(was, pending.value, Seen(commit, link)); }
      pending := None;
    }

    // While a probe lost nothing and no candidate is open, its recycle records are
    // candidate, commit, candidate, commit; each commit completes the candidate
    // directly before it.
    lemma HealthyRunsAlternate(i: nat)
      requires Valid() && Complete() && pending.None? && i < |Recycles(history)|
      ensures var rs := Recycles(history);
        && |rs| % 2 == 0
        && (i % 2 == 0 ==> rs[i].record.Candidate? && i + 1 < |rs| && Pushes(rs[i].record, rs[i + 1]))
        && (i % 2 == 1 ==> rs[i].record.Committed? && Pushes(rs[i - 1].record, rs[i]))
    {
      hide Pushes, Waiting;
      ClosedAlternates(Recycles(history), i);
    }

    // Hands out the queue; a candidate still open is a fault.
    method Drain(thread: nat) returns (r: Option<seq<Record>>)
      requires Valid()
      modifies this`pending, this`faults, this`wrongThread, this`queue, this`delivered
      modifies host`wrongThread, host`refused, host`incomplete, host`delivered
      ensures Valid() && (r.Some? <==> thread == owner)
      ensures r.Some? ==> r.value == old(queue) && queue == [] && pending.None?
      ensures r.Some? ==> host.delivered == if host.state == State.Open then old(host.delivered) + |r.value| else old(host.delivered)
      ensures r.None? ==> queue == old(queue) && host.delivered == old(host.delivered) && pending == old(pending)
      ensures delivered == old(delivered) + (if r.Some? then |old(queue)| else 0)
      ensures wrongThread == (if thread != owner then old(wrongThread) + 1 else old(wrongThread))
      ensures faults == (if thread == owner && old(pending).Some? then old(faults) + 1 else old(faults))
      ensures host.state == State.Open ==> host.incomplete == old(host.incomplete) + (faults - old(faults))
      ensures host.wrongThread == (if thread != owner && host.state == State.Open then old(host.wrongThread) + 1 else old(host.wrongThread))
    {
      hide Paired, Waiting;
      if thread != owner {
        wrongThread := wrongThread + 1;
        host.OnWrongThread();
        return None;
      }
      if pending.Some? {
        faults, pending := faults + 1, None;
        host.OnIncomplete();
      }
      WaitingLonger(queue, history, host.nextSequence, host.nextSequence);
      var batch := queue;
      queue := [];
      delivered := delivered + |batch|;
      host.OnDelivered(|batch|);
      r := Some(batch);
    }
  }

  lemma {:induction false} ClosedAlternates(rs: seq<Seen>, i: nat)
    requires Closed(rs) && i < |rs|
    ensures |rs| % 2 == 0
    ensures i % 2 == 0 ==> rs[i].record.Candidate? && i + 1 < |rs| && Pushes(rs[i].record, rs[i + 1])
    ensures i % 2 == 1 ==> rs[i].record.Committed? && Pushes(rs[i - 1].record, rs[i])
    decreases |rs|
  {
    var n := |rs| - 2;
    if n == 0 { return; }
    if i < n { ClosedAlternates(rs[..n], i); } else { ClosedAlternates(rs[..n], 0); }
  }
}
