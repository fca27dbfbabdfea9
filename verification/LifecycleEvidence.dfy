// determinism/audit.cpp: draining both probes into one evidence file, and the
// two-phase shutdown that certifies it.
module LifecycleEvidences {
  import opened LifecycleRecorders
  import opened Measurements
  import Spawn = SpawnHooks
  import Probe = LifecycleProbes

  // Every event captured by either probe.
  function Captured(spawns: seq<Spawn.Record>, probes: seq<Probe.Seen>): (r: seq<Event>)
    ensures |r| == |spawns| + |probes|
  {
    seq(|spawns|, i requires 0 <= i < |spawns| => Initialized(spawns[i])) + seq(|probes|, i requires 0 <= i < |probes| => Probed(probes[i].record))
  }

  // One line per event: the lines are ordered, so none repeats, and a line is there
  // exactly for what was captured.
  ghost predicate OneLineEach(lines: seq<Event>, spawns: seq<Spawn.Record>, probes: seq<Probe.Seen>) {
    && Ascending(lines) && |lines| == |spawns| + |probes| && Initializations(lines) == |spawns|
    && (forall e :: e in lines <==> e in Captured(spawns, probes))
  }

  // Written lines are captured events, older than everything still waiting; the two
  // probes never share a sequence.
  ghost predicate Ledger(sh: seq<Spawn.Record>, sq: seq<Spawn.Record>, ph: seq<Probe.Seen>, pq: seq<Probe.Record>, lines: seq<Event>, next: nat) {
    && (forall i, j :: 0 <= i < |sh| && 0 <= j < |ph| ==> sh[i].sequence != ph[j].record.sequence)
    && (forall i :: 0 <= i < |lines| ==> lines[i] in Captured(sh, ph) && SequenceOf(lines[i]) < next)
    && (forall i, j :: 0 <= i < |lines| && 0 <= j < |sq| ==> SequenceOf(lines[i]) < sq[j].sequence)
    && (forall i, j :: 0 <= i < |lines| && 0 <= j < |pq| ==> SequenceOf(lines[i]) < pq[j].sequence)
  }

  lemma CapturedMore(sh: seq<Spawn.Record>, ph: seq<Probe.Seen>, r: Spawn.Record, s: Probe.Seen)
    ensures forall e :: e in Captured(sh, ph) ==> e in Captured(sh + [r], ph) && e in Captured(sh, ph + [s])
  {
    forall e | e in Captured(sh, ph)
      ensures e in Captured(sh + [r], ph) && e in Captured(sh, ph + [s])
    {
      var i :| 0 <= i < |sh| + |ph| && Captured(sh, ph)[i] == e;
      assert Captured(sh, ph + [s])[i] == e;
      assert Captured(sh + [r], ph)[if i < |sh| then i else i + 1] == e;
    }
  }

  lemma LedgerSpawn(sh: seq<Spawn.Record>, sq: seq<Spawn.Record>, ph: seq<Probe.Seen>, pq: seq<Probe.Record>, lines: seq<Event>, r: Spawn.Record, next: nat)
    requires Ledger(sh, sq, ph, pq, lines, r.sequence) && Probe.Waiting(pq, ph, r.sequence) && next > r.sequence
    ensures Ledger(sh + [r], sq + [r], ph, pq, lines, next)
  {
    hide Captured, SequenceOf;
    CapturedMore(sh, ph, r, Probe.Seen(Probe.Observed(0, 0, 0, 0, 0), 0));
  }

  lemma LedgerProbe(sh: seq<Spawn.Record>, sq: seq<Spawn.Record>, ph: seq<Probe.Seen>, pq: seq<Probe.Record>, lines: seq<Event>, s: Probe.Seen, next: nat)
    requires Ledger(sh, sq, ph, pq, lines, s.record.sequence) && Spawn.Waiting(sq, sh, s.record.sequence) && next > s.record.sequence
    ensures Ledger(sh, sq, ph + [s], pq + [s.record], lines, next)
  {
    hide Captured, SequenceOf;
    CapturedMore(sh, ph, Spawn.Record(Spawn.Entry(0, false, 0, 0, 0), 0, 0), s);
  }

  lemma LedgerLater(sh: seq<Spawn.Record>, sq: seq<Spawn.Record>, ph: seq<Probe.Seen>, pq: seq<Probe.Record>, lines: seq<Event>, next: nat, later: nat)
    requires Ledger(sh, sq, ph, pq, lines, next) && next <= later
    ensures Ledger(sh, sq, ph, pq, lines, later)
  {
    hide Captured, SequenceOf;
  }

  // The waiting records of both probes, as events.
  function Batch(sq: seq<Spawn.Record>, pq: seq<Probe.Record>): (r: seq<Event>)
    ensures |r| == |sq| + |pq|
  {
    seq(|sq|, i requires 0 <= i < |sq| => Initialized(sq[i])) + seq(|pq|, i requires 0 <= i < |pq| => Probed(pq[i]))
  }

  ghost predicate Distinct(events: seq<Event>) {
    forall i, j :: 0 <= i < j < |events| ==> SequenceOf(events[i]) != SequenceOf(events[j])
  }

  // Drained events are captured ones, newer than all lines, with sequences of
  // their own.
  ghost predicate Drained(batch: seq<Event>, sh: seq<Spawn.Record>, ph: seq<Probe.Seen>, lines: seq<Event>, next: nat) {
    && Distinct(batch)
    && (forall i :: 0 <= i < |batch| ==> batch[i] in Captured(sh, ph) && 0 < SequenceOf(batch[i]) < next)
    && (forall i, j :: 0 <= i < |lines| && 0 <= j < |batch| ==> SequenceOf(lines[i]) < SequenceOf(batch[j]))
  }

  lemma BatchIsDrained(sh: seq<Spawn.Record>, sq: seq<Spawn.Record>, ph: seq<Probe.Seen>, pq: seq<Probe.Record>, lines: seq<Event>, next: nat)
    requires Ledger(sh, sq, ph, pq, lines, next) && Spawn.Waiting(sq, sh, next) && Probe.Waiting(pq, ph, next)
    ensures Drained(Batch(sq, pq), sh, ph, lines, next)
  {
    var batch := Batch(sq, pq);
    forall i | 0 <= i < |batch|
      ensures batch[i] in Captured(sh, ph) && 0 < SequenceOf(batch[i]) < next
    {
      if i < |sq| {
        assert Captured(sh, ph)[|sh| - |sq| + i] == batch[i];
      } else {
        assert Captured(sh, ph)[|sh| + |ph| - |pq| + (i - |sq|)] == batch[i];
      }
    }
    BatchDistinct(sh, sq, ph, pq, next);
  }

  lemma BatchDistinct(sh: seq<Spawn.Record>, sq: seq<Spawn.Record>, ph: seq<Probe.Seen>, pq: seq<Probe.Record>, next: nat)
    requires Ledger(sh, sq, ph, pq, [], next) && Spawn.Waiting(sq, sh, next) && Probe.Waiting(pq, ph, next)
    ensures Distinct(Batch(sq, pq))
  {
    hide Captured;
    var batch := Batch(sq, pq);
    forall i, j | 0 <= i < j < |batch|
      ensures SequenceOf(batch[i]) != SequenceOf(batch[j])
    {
      if j < |sq| {
        assert sq[i] == sh[|sh| - |sq| + i] && sq[j] == sh[|sh| - |sq| + j];
      } else if i >= |sq| {
        assert pq[i - |sq|] == ph[|ph| - |pq| + i - |sq|].record && pq[j - |sq|] == ph[|ph| - |pq| + j - |sq|].record;
      } else {
        assert sq[i] == sh[|sh| - |sq| + i] && pq[j - |sq|] == ph[|ph| - |pq| + j - |sq|].record;
      }
    }
  }

  // Any prefix of the sorted batch may reach the file.
  lemma LedgerWritten(sh: seq<Spawn.Record>, ph: seq<Probe.Seen>, batch: seq<Event>, sorted: seq<Event>, lines: seq<Event>, k: nat, next: nat)
    requires Ledger(sh, [], ph, [], lines, next) && Drained(batch, sh, ph, lines, next)
    requires (forall e :: e in sorted ==> e in batch) && k <= |sorted|
    ensures Ledger(sh, [], ph, [], lines + sorted[..k], next)
  {
    hide Captured, SequenceOf, Distinct;
    var more := lines + sorted[..k];
    forall i | |lines| <= i < |more|
      ensures more[i] in Captured(sh, ph) && SequenceOf(more[i]) < next
    {
      assert more[i] == sorted[i - |lines|] && more[i] in batch;
    }
  }

  lemma SortedIsNew(sh: seq<Spawn.Record>, ph: seq<Probe.Seen>, batch: seq<Event>, sorted: seq<Event>, lines: seq<Event>, next: nat)
    requires Drained(batch, sh, ph, lines, next) && forall e :: e in sorted ==> e in batch
    ensures forall i :: 0 <= i < |sorted| ==> SequenceOf(sorted[i]) > 0
    ensures forall i, j :: 0 <= i < |lines| && 0 <= j < |sorted| ==> SequenceOf(lines[i]) < SequenceOf(sorted[j])
  {
    hide SequenceOf, Captured;
    forall j | 0 <= j < |sorted|
      ensures SequenceOf(sorted[j]) > 0 && forall i :: 0 <= i < |lines| ==> SequenceOf(lines[i]) < SequenceOf(sorted[j])
    {
      assert sorted[j] in batch;
    }
  }

  // Sorts by capture sequence.
  method SortBySequence(events: seq<Event>) returns (sorted: seq<Event>)
    requires Distinct(events)
    ensures |sorted| == |events| && forall e :: e in sorted <==> e in events
    ensures forall i, j :: 0 <= i < j < |sorted| ==> SequenceOf(sorted[i]) < SequenceOf(sorted[j])
  {
    sorted := [];
    var n := 0;
    while n < |events|
      invariant n <= |events| && |sorted| == n && forall e :: e in sorted <==> e in events[..n]
      invariant forall i, j :: 0 <= i < j < |sorted| ==> SequenceOf(sorted[i]) < SequenceOf(sorted[j])
    {
      sorted := Insert(sorted, events[n]) by {
        forall i | 0 <= i < |sorted|
          ensures SequenceOf(sorted[i]) != SequenceOf(events[n])
        {
          assert sorted[i] in events[..n];
        }
      }
      assert events[..n + 1] == events[..n] + [events[n]];
      n := n + 1;
    }
    assert events[..n] == events;
  }

  method Insert(sorted: seq<Event>, e: Event) returns (r: seq<Event>)
    requires forall i, j :: 0 <= i < j < |sorted| ==> SequenceOf(sorted[i]) < SequenceOf(sorted[j])
    requires forall i :: 0 <= i < |sorted| ==> SequenceOf(sorted[i]) != SequenceOf(e)
    ensures |r| == |sorted| + 1 && forall x :: x in r <==> x == e || x in sorted
    ensures forall i, j :: 0 <= i < j < |r| ==> SequenceOf(r[i]) < SequenceOf(r[j])
  {
    hide SequenceOf, Placed;
    var p := |sorted|;
    while p > 0 && SequenceOf(sorted[p - 1]) > SequenceOf(e)
      invariant 0 <= p <= |sorted| && forall i :: p <= i < |sorted| ==> SequenceOf(sorted[i]) > SequenceOf(e)
    {
      p := p - 1;
    }
    PlacedMembers(sorted, e, p);
    PlacedInOrder(sorted, e, p);
    r := Placed(sorted, e, p);
  }

  function Placed(sorted: seq<Event>, e: Event, p: nat): (r: seq<Event>)
    requires p <= |sorted|
    ensures |r| == |sorted| + 1
  {
    sorted[..p] + [e] + sorted[p..]
  }

  lemma PlacedMembers(sorted: seq<Event>, e: Event, p: nat)
    requires p <= |sorted|
    ensures forall x :: x in Placed(sorted, e, p) <==> x == e || x in sorted
  {
    assert sorted == sorted[..p] + sorted[p..];
  }

  lemma PlacedInOrder(sorted: seq<Event>, e: Event, p: nat)
    requires p <= |sorted|
    requires forall i, j :: 0 <= i < j < |sorted| ==> SequenceOf(sorted[i]) < SequenceOf(sorted[j])
    requires p > 0 ==> SequenceOf(sorted[p - 1]) < SequenceOf(e)
    requires p < |sorted| ==> SequenceOf(e) < SequenceOf(sorted[p])
    ensures var r := Placed(sorted, e, p);
      forall i, j :: 0 <= i < j < |r| ==> SequenceOf(r[i]) < SequenceOf(r[j])
  {
    hide SequenceOf;
    var r := Placed(sorted, e, p);
    forall i, j | 0 <= i < j < |r|
      ensures SequenceOf(r[i]) < SequenceOf(r[j])
    {
      assert i < p ==> r[i] == sorted[i];
      assert i > p ==> r[i] == sorted[i - 1];
      assert j < p ==> r[j] == sorted[j];
      assert j > p ==> r[j] == sorted[j - 1];
    }
  }

  // As many different lines as events, all of them events: every event has its line.
  lemma Complete(lines: seq<Event>, sh: seq<Spawn.Record>, ph: seq<Probe.Seen>)
    requires Ascending(lines) && |lines| >= |sh| + |ph| && forall e :: e in lines ==> e in Captured(sh, ph)
    ensures |lines| == |sh| + |ph| && forall e :: e in lines <==> e in Captured(sh, ph)
  {
    var all := Captured(sh, ph);
    var written, there := set e | e in lines, set e | e in all;
    SizeOfAscending(lines);
    SizeAtMost(all);
    hide Captured, Ascending;
    assert written <= there && there == written + (there - written);
    assert |there - written| == 0;
    forall e | e in all
      ensures e in lines
    {
      assert e in there && e !in there - written;
    }
  }

  lemma {:induction false} SizeOfAscending(events: seq<Event>)
    requires Ascending(events)
    ensures |set e | e in events| == |events|
  {
    if events != [] {
      var n := |events| - 1;
      SizeOfAscending(events[..n]);
      assert (set e | e in events) == (set e | e in events[..n]) + {events[n]};
      assert events[n] !in events[..n];
    }
  }

  lemma {:induction false} SizeAtMost(events: seq<Event>)
    ensures |set e | e in events| <= |events|
  {
    if events != [] {
      var n := |events| - 1;
      SizeAtMost(events[..n]);
      assert (set e | e in events) == (set e | e in events[..n]) + {events[n]};
    }
  }

  // The file's own per-probe counts are the probes' counts.
  lemma CountsAgree(lines: seq<Event>, sh: seq<Spawn.Record>, ph: seq<Probe.Seen>)
    requires Ascending(lines) && |lines| == |sh| + |ph| && forall e :: e in lines <==> e in Captured(sh, ph)
    ensures Initializations(lines) <= |sh| && |lines| - Initializations(lines) <= |ph|
  {
    hide Captured, Ascending;
    var born := set e | e in lines && e.Initialized?;
    var seen := set e | e in lines && e.Probed?;
    CountInitialized(lines);
    BornAtMost(sh);
    SeenAtMost(ph);
    var all := Captured(sh, ph);
    assert born <= (set r | r in sh :: Initialized(r)) by { CapturedKinds(sh, ph); }
    assert seen <= (set s | s in ph :: Probed(s.record)) by { CapturedKinds(sh, ph); }
    SubsetIsSmaller(born, set r | r in sh :: Initialized(r));
    SubsetIsSmaller(seen, set s | s in ph :: Probed(s.record));
  }

  lemma CapturedKinds(sh: seq<Spawn.Record>, ph: seq<Probe.Seen>)
    ensures forall e :: e in Captured(sh, ph) && e.Initialized? ==> e.spawn in sh
    ensures forall e :: e in Captured(sh, ph) && e.Probed? ==> e in (set s | s in ph :: Probed(s.record))
  {
    forall e | e in Captured(sh, ph) && e.Probed?
      ensures e in (set s | s in ph :: Probed(s.record))
    {
      var i :| 0 <= i < |sh| + |ph| && Captured(sh, ph)[i] == e;
      assert ph[i - |sh|] in ph;
    }
  }

  lemma SubsetIsSmaller(a: set<Event>, b: set<Event>)
    requires a <= b
    ensures |a| <= |b|
  {
    assert b == a + (b - a);
  }

  lemma {:induction false} CountInitialized(lines: seq<Event>)
    requires Ascending(lines)
    ensures Initializations(lines) == |set e | e in lines && e.Initialized?|
    ensures |lines| - Initializations(lines) == |set e | e in lines && e.Probed?|
  {
    if lines != [] {
      var n := |lines| - 1;
      CountInitialized(lines[..n]);
      assert lines[n] !in lines[..n];
      hide Ascending;
      LastLine(lines, n);
    }
  }

  // The last line joins the lines of its probe.
  lemma LastLine(lines: seq<Event>, n: nat)
    requires |lines| == n + 1
    ensures (set e | e in lines && e.Initialized?) == (set e | e in lines[..n] && e.Initialized?) + if lines[n].Initialized? then {lines[n]} else {}
    ensures (set e | e in lines && e.Probed?) == (set e | e in lines[..n] && e.Probed?) + if lines[n].Probed? then {lines[n]} else {}
  {
    assert lines == lines[..n] + [lines[n]];
  }

  lemma {:induction false} BornAtMost(sh: seq<Spawn.Record>)
    ensures |set r | r in sh :: Initialized(r)| <= |sh|
  {
    if sh != [] {
      var n := |sh| - 1;
      BornAtMost(sh[..n]);
      assert (set r | r in sh :: Initialized(r)) == (set r | r in sh[..n] :: Initialized(r)) + {Initialized(sh[n])};
    }
  }

  lemma {:induction false} SeenAtMost(ph: seq<Probe.Seen>)
    ensures |set s | s in ph :: Probed(s.record)| <= |ph|
  {
    if ph != [] {
      var n := |ph| - 1;
      SeenAtMost(ph[..n]);
      assert (set s | s in ph :: Probed(s.record)) == (set s | s in ph[..n] :: Probed(s.record)) + {Probed(ph[n].record)};
    }
  }

  // What the engine does to the probes between two drains.
  datatype Moment =
    | InitializerEntered(thread: nat, zombie: nat, readable: bool)
    | InitializerLeft(thread: nat, zombie: nat, complete: bool)
    | BeforeStore(thread: nat, site: nat, zombie: nat, address: nat, readable: bool, value: int, classified: bool)
    | AfterStore(thread: nat, site: nat, zombie: nat, address: nat, readable: bool, value: int)
    | SlotReached(thread: nat, zombie: nat, dead: bool, classified: bool, board: nat, slot: nat, readable: bool, freeHead: nat, count: nat)
    | SlotPushed(thread: nat, zombie: nat, board: nat, readable: bool, link: nat, head: nat, count: nat)

  class LifecycleAudit {
    const thread: nat
    const recording: bool
    const probesInstalled: bool
    const probesOwned: bool
    const host: MeasurementHost
    const spawns: Spawn.SpawnHook
    const probes: Probe.ProbeQueue
    const recorder: LifecycleRecorder

    ghost predicate Valid()
      reads this, host, spawns, probes, recorder
    {
      && spawns.host == host && probes.host == host && probes.owner == thread && (probesInstalled ==> probesOwned)
      && spawns.Valid() && probes.Valid() && recorder.Valid() && Books()
    }

    // The ledger counts every captured event, and every persisted one has a line.
    ghost predicate Books()
      reads host, spawns, probes, recorder
    {
      && host.captured == |spawns.history| + |probes.history|
      && Ledger(spawns.history, spawns.queue, probes.history, if probesOwned then probes.queue else [], recorder.lines, host.nextSequence)
      && (recording ==> host.persisted <= |recorder.lines|) && recorder.Opened() == recording && recorder.receipt.None?
    }

    // A session before its first event.
    constructor (thread: nat, recording: bool, probesInstalled: bool, probesOwned: bool, host: MeasurementHost, spawns: Spawn.SpawnHook, probes: Probe.ProbeQueue, recorder: LifecycleRecorder)
      requires spawns.host == host && probes.host == host && probes.owner == thread && (probesInstalled ==> probesOwned) && host.captured == host.persisted == 0
      requires spawns.Valid() && probes.Valid() && recorder.Valid() && spawns.history == [] && probes.history == []
      requires recorder.lines == [] && recorder.receipt.None? && recorder.Opened() == recording
      ensures Valid() && this.host == host && this.recorder == recorder && this.recording == recording
    {
      hide Spawn.SpawnHook.Valid, Probe.ProbeQueue.Valid, LifecycleRecorder.Valid;
      this.thread, this.recording, this.probesInstalled, this.probesOwned := thread, recording, probesInstalled, probesOwned;
      this.host, this.spawns, this.probes, this.recorder := host, spawns, probes, recorder;
      new;
      QueuesOf(spawns, probes);
    }

    // One call into a probe.
    method Capture(m: Moment)
      requires Valid()
      modifies host, spawns, probes
      ensures Valid() && host.state == old(host.state)
      ensures recorder.lines == old(recorder.lines)
    {
      if m.InitializerEntered? || m.InitializerLeft? { CaptureSpawn(m); } else { CaptureProbe(m); }
    }

    method CaptureSpawn(m: Moment)
      requires Valid() && (m.InitializerEntered? || m.InitializerLeft?)
      modifies host, spawns
      ensures Valid() && host.state == old(host.state)
    {
      hide Spawn.SpawnHook.ValidAt, Probe.ProbeQueue.ValidAt, LifecycleRecorder.Valid, Ledger, Spawn.Waiting, Probe.Waiting;
      ghost var next := host.nextSequence;
      QueuesOf(spawns, probes);
      if m.InitializerEntered? {
        spawns.Enter(m.thread, m.zombie, m.readable);
      } else {
        ghost var kept := spawns.Leave(m.thread, m.zombie, m.complete);
        probes.ValidLater(next);
        QueuesOf(spawns, probes);
        SpawnBooks(next, kept, old(spawns.history), old(spawns.queue));
      }
    }

    lemma QueuesOf(spawns: Spawn.SpawnHook, probes: Probe.ProbeQueue)
      requires spawns.Valid() && probes.Valid() && spawns.host == probes.host
      ensures Spawn.Waiting(spawns.queue, spawns.history, spawns.host.nextSequence)
      ensures Probe.Waiting(probes.queue, probes.history, spawns.host.nextSequence)
      ensures spawns.host.nextSequence > 0 && Probe.Waiting([], probes.history, spawns.host.nextSequence)
      ensures |spawns.queue| <= |spawns.history| && |probes.queue| <= |probes.history|
    {
      hide Spawn.Saved, Spawn.Story, Spawn.Numbered, Probe.Paired;
    }

    // The shared ledger after one record, or none, of the initializer hook.
    lemma SpawnBooks(next: nat, kept: bool, history: seq<Spawn.Record>, queue: seq<Spawn.Record>)
      requires next <= host.nextSequence && Probe.Waiting(probes.queue, probes.history, next) && Probe.Waiting([], probes.history, next)
      requires Ledger(history, queue, probes.history, if probesOwned then probes.queue else [], recorder.lines, next)
      requires kept ==> |spawns.history| == |history| + 1 && spawns.history[..|history|] == history && spawns.queue == queue + [spawns.history[|history|]]
      requires Spawn.Waiting(spawns.queue, spawns.history, host.nextSequence) && (kept ==> spawns.history[|history|].sequence == next)
      requires !kept ==> spawns.history == history && spawns.queue == queue
      ensures Ledger(spawns.history, spawns.queue, probes.history, if probesOwned then probes.queue else [], recorder.lines, host.nextSequence)
    {
      hide Ledger, Probe.Waiting;
      var pq := if probesOwned then probes.queue else [];
      if kept {
        assert spawns.history == history + [spawns.history[|history|]];
        LedgerSpawn(history, queue, probes.history, pq, recorder.lines, spawns.history[|history|], host.nextSequence);
      } else {
        LedgerLater(history, queue, probes.history, pq, recorder.lines, next, host.nextSequence);
      }
    }

    method CaptureProbe(m: Moment)
      requires Valid() && !m.InitializerEntered? && !m.InitializerLeft?
      modifies host, probes
      ensures Valid() && host.state == old(host.state)
    {
      hide Spawn.SpawnHook.ValidAt, Probe.ProbeQueue.ValidAt, LifecycleRecorder.Valid, Ledger, Spawn.Waiting, Probe.Waiting;
      ghost var next, kept := host.nextSequence, false;
      ghost var nextInvocation := host.nextInvocation;
      QueuesOf(spawns, probes);
      match m {
        case BeforeStore(thread, site, zombie, address, readable, value, classified) =>
          probes.BeforePhase(thread, site, zombie, address, readable, value, classified);
        case AfterStore(thread, site, zombie, address, readable, value) =>
          kept := probes.AfterPhase(thread, site, zombie, address, readable, value);
        case SlotReached(thread, zombie, dead, classified, board, slot, readable, freeHead, count) =>
          kept := probes.RecycleGuard(thread, zombie, dead, classified, board, slot, readable, freeHead, count);
        case SlotPushed(thread, zombie, board, readable, link, head, count) =>
          kept := probes.RecycleCommit(thread, zombie, board, readable, link, head, count);
      }
      spawns.ValidLater(next, nextInvocation);
      QueuesOf(spawns, probes);
      ProbeBooks(next, kept, old(probes.history), old(probes.queue));
    }

    lemma ProbeBooks(next: nat, kept: bool, history: seq<Probe.Seen>, queue: seq<Probe.Record>)
      requires next <= host.nextSequence && Spawn.Waiting(spawns.queue, spawns.history, next)
      requires Ledger(spawns.history, spawns.queue, history, if probesOwned then queue else [], recorder.lines, next)
      requires kept ==> |probes.history| == |history| + 1 && probes.history[..|history|] == history && probes.queue == queue + [probes.history[|history|].record]
      requires Probe.Waiting(probes.queue, probes.history, host.nextSequence) && (kept ==> probes.history[|history|].record.sequence == next)
      requires !kept ==> probes.history == history && probes.queue == queue
      ensures Ledger(spawns.history, spawns.queue, probes.history, if probesOwned then probes.queue else [], recorder.lines, host.nextSequence)
    {
      hide Spawn.Waiting;
      var pq := if probesOwned then queue else [];
      if kept {
        assert probes.history == history + [probes.history[|history|]];
        LedgerProbe(spawns.history, spawns.queue, history, pq, recorder.lines, probes.history[|history|], host.nextSequence);
      } else {
        LedgerLater(spawns.history, spawns.queue, history, pq, recorder.lines, next, host.nextSequence);
      }
    }

    // Appends a sorted batch; only the stream can fail, never the order check.
    method WriteAll(batch: seq<Event>, fair: bool) returns (r: Outcome, ghost k: nat)
      requires recorder.Valid() && recorder.Opened()
      requires forall i :: 0 <= i < |batch| ==> SequenceOf(batch[i]) > 0
      requires forall i, j :: 0 <= i < j < |batch| ==> SequenceOf(batch[i]) < SequenceOf(batch[j])
      requires forall i, j :: 0 <= i < |recorder.lines| && 0 <= j < |batch| ==> SequenceOf(recorder.lines[i]) < SequenceOf(batch[j])
      modifies recorder`streamOk, recorder`count, recorder`firstSequence, recorder`lastSequence, recorder`initializations, recorder`probes, recorder`lines
      ensures recorder.Valid() && k <= |batch| && recorder.lines == old(recorder.lines) + batch[..k]
      ensures r.Succeeded? ==> k == |batch|
      ensures r.Threw? ==> !recorder.streamOk
      ensures fair && old(recorder.streamOk) ==> r.Succeeded? && recorder.streamOk
    {
      hide LifecycleRecorder.Valid, SequenceOf;
      k := 0;
      var n := 0;
      while n < |batch|
        invariant n == k <= |batch| && recorder.Valid() && recorder.lines == old(recorder.lines) + batch[..k]
        invariant fair && old(recorder.streamOk) ==> recorder.streamOk
      {
        var accepted: bool := *;
        r := recorder.Write(batch[n], fair || accepted);
        if r.Threw? { return; }
        assert batch[..n + 1] == batch[..n] + [batch[n]];
        n, k := n + 1, k + 1;
      }
      r := Succeeded;
    }

    // What one drain takes out of the queues.
    ghost function Due(sq: seq<Spawn.Record>, pq: seq<Probe.Record>): nat {
      |sq| + if probesOwned then |pq| else 0
    }

    // Empties the queues of both probes.
    method TakeQueues() returns (born: seq<Spawn.Record>, seen: seq<Probe.Record>)
      requires Valid() && host.state == State.Open && spawns.depth == 0
      modifies host`delivered, host`refused, host`wrongThread, host`incomplete, spawns`queue
      modifies probes`pending, probes`faults, probes`wrongThread, probes`queue, probes`delivered
      ensures Valid() && spawns.queue == [] && (probesOwned ==> probes.queue == [])
      ensures born == old(spawns.queue) && seen == if probesOwned then old(probes.queue) else []
      ensures host.delivered == old(host.delivered) + |born| + |seen|
      ensures old(probes.Healthy()) ==> probes.Healthy()
      ensures old(host.Faultless() && (probesOwned ==> probes.pending.None?)) ==> host.Faultless()
      ensures Drained(Batch(born, seen), spawns.history, probes.history, recorder.lines, host.nextSequence)
    {
      hide Spawn.SpawnHook.ValidAt, Probe.ProbeQueue.ValidAt, LifecycleRecorder.Valid, Ledger, Spawn.Waiting, Probe.Waiting, Batch, Drained;
      QueuesOf(spawns, probes);
      ghost var due := if probesOwned then probes.queue else [];
      BatchIsDrained(spawns.history, spawns.queue, probes.history, due, recorder.lines, host.nextSequence);
      LedgerEmptied(spawns.history, spawns.queue, probes.history, due, recorder.lines, host.nextSequence);
      ghost var next, nextInvocation := host.nextSequence, host.nextInvocation;
      born := spawns.Drain();
      seen := [];
      if probesOwned {
        var batch := probes.Drain(thread);
        seen := batch.value;
        spawns.ValidLater(next, nextInvocation);
      } else {
        probes.ValidLater(next);
      }
    }

    // One boundary's drain: both queues, in capture order, into the file. Each
    // drained event is persisted and gets its line, unless an output fails; in fair
    // weather none does.
    method DrainBoth(fair: bool) returns (r: Outcome)
      requires Valid() && host.state == State.Open && spawns.depth == 0
      modifies host`delivered, host`persisted, host`refused, host`wrongThread, host`incomplete, spawns`queue
      modifies probes`pending, probes`faults, probes`wrongThread, probes`queue, probes`delivered, recorder
      ensures Valid()
      ensures spawns.queue == [] && (probesOwned ==> probes.queue == [])
      ensures host.delivered == old(host.delivered) + Due(old(spawns.queue), old(probes.queue))
      ensures host.persisted == old(host.persisted) + if r.Succeeded? then Due(old(spawns.queue), old(probes.queue)) else 0
      ensures recording && r.Succeeded? ==> |recorder.lines| == |old(recorder.lines)| + Due(old(spawns.queue), old(probes.queue))
      ensures fair && (recording ==> old(recorder.streamOk)) ==> r.Succeeded? && (recording ==> recorder.streamOk)
      ensures old(probes.Healthy()) ==> probes.Healthy()
      ensures old(host.Faultless() && (probesOwned ==> probes.pending.None?)) ==> host.Faultless()
    {
      hide Spawn.SpawnHook.ValidAt, Probe.ProbeQueue.ValidAt, LifecycleRecorder.Valid, Ledger, Batch, Drained;
      ghost var lines := recorder.lines;
      var born, seen := TakeQueues();
      var legacy: bool := *;
      if !fair && !legacy { return Threw; }
      DrainedIsDistinct(Batch(born, seen), spawns.history, probes.history, lines, host.nextSequence);
      var sorted := SortBySequence(Batch(born, seen));
      if recorder.Opened() {
        SortedIsNew(spawns.history, probes.history, Batch(born, seen), sorted, lines, host.nextSequence);
        ghost var k;
        r, k := WriteAll(sorted, fair);
        LedgerWritten(spawns.history, probes.history, Batch(born, seen), sorted, lines, k, host.nextSequence);
        if r.Threw? { return; }
      }
      host.OnPersisted(|born| + |seen|);
      r := Succeeded;
    }

    lemma DrainedIsDistinct(batch: seq<Event>, sh: seq<Spawn.Record>, ph: seq<Probe.Seen>, lines: seq<Event>, next: nat)
      requires Drained(batch, sh, ph, lines, next)
      ensures Distinct(batch)
    {
    }

    lemma LedgerEmptied(sh: seq<Spawn.Record>, sq: seq<Spawn.Record>, ph: seq<Probe.Seen>, pq: seq<Probe.Record>, lines: seq<Event>, next: nat)
      requires Ledger(sh, sq, ph, pq, lines, next)
      ensures Ledger(sh, [], ph, [], lines, next)
    {
    }

    // The drain of one boundary and the checks after it.
    method DrainAndCheck(fair: bool) returns (r: Outcome)
      requires Valid() && host.state == State.Open
      modifies host, spawns, probes, recorder
      ensures Valid() && host.state == State.Open
      ensures spawns.history == old(spawns.history) && probes.history == old(probes.history)
      ensures r.Succeeded? ==> Sound()
      ensures fair && old(Sound()) && (recording ==> old(recorder.streamOk)) ==> r.Succeeded? && (recording ==> recorder.streamOk)
      ensures r.Succeeded? ==> host.delivered == old(host.delivered) + Due(old(spawns.queue), old(probes.queue))
      ensures r.Succeeded? ==> host.persisted == old(host.persisted) + Due(old(spawns.queue), old(probes.queue))
      ensures r.Succeeded? ==> host.captured == old(host.captured) && (old(host.Faultless() && (probesOwned ==> probes.pending.None?)) ==> host.Faultless())
    {
      hide Spawn.SpawnHook.Valid, Probe.ProbeQueue.Valid, LifecycleRecorder.Valid, Ledger;
      var healthy := spawns.Healthy() && spawns.depth == 0;
      if spawns.depth == 0 {
        r := DrainBoth(fair);
        if r.Threw? { return; }
      }
      if !healthy || (probesInstalled && !probes.Healthy()) { return Threw; }
      r := Succeeded;
    }

    // Neither probe lost anything and nothing is half captured.
    ghost predicate Sound()
      reads spawns, probes
    {
      spawns.Healthy() && spawns.depth == 0 && (probesInstalled ==> probes.Healthy())
    }

    // Releases everything; a receipt is the last durable step, and only for a
    // validated session without an earlier cleanup error.
    method Cleanup(fair: bool) returns (r: Outcome)
      requires recorder.Valid() && recorder.receipt.None?
      modifies recorder
      ensures recorder.Valid() && recorder.lines == old(recorder.lines)
      ensures recorder.receipt.Some? ==> r.Succeeded? && host.state == State.Closing && old(recorder.Opened())
      ensures recorder.receipt.Some? ==> Certifies(recorder.receipt.value, recorder.lines)
      ensures r.Succeeded? && old(recorder.Opened()) && host.state == State.Closing ==> recorder.receipt.Some?
      ensures fair && (old(recorder.Opened()) ==> old(recorder.streamOk)) ==> r.Succeeded?
    {
      hide LifecycleRecorder.Valid;
      var noted: bool, escaped: bool := *, *;
      if escaped && !fair { return Threw; }
      noted := noted && !fair;
      if recorder.Opened() {
        var closed: bool, written: bool := *, *;
        var finished := recorder.Finish(!noted && host.state == State.Closing, fair || closed, fair || written);
        noted := noted || finished.Threw?;
      }
      recorder.Abandon();
      Certificate();
      r := if noted then Threw else Succeeded;
    }

    // The two-phase end of a session. It is Closed only if the last drain, the
    // validation and the cleanup all succeeded, and a receipt certifies the file. A
    // session that lost nothing always ends so when no output fails.
    method Shutdown(fair: bool) returns (ok: bool, ghost drained: bool, ghost validated: bool, ghost cleaned: bool)
      requires Valid() && host.state == State.Open
      modifies host, spawns, probes, recorder
      ensures ok <==> drained && validated && cleaned
      ensures host.state == if ok then State.Closed else State.Failed
      ensures recorder.receipt.Some? <==> ok && recording
      ensures recorder.receipt.Some? ==> Certified()
      ensures fair && old(Lossless()) ==> ok
    {
      hide Spawn.SpawnHook.ValidAt, Probe.ProbeQueue.ValidAt, LifecycleRecorder.Valid, Ledger, Probe.Closed, Probe.Recycles, Ascending;
      var body := DrainAndCheck(fair);
      var others: bool := *;
      if !fair && !others { body := Threw; }
      drained := body.Succeeded?;
      var closing := false;
      if body.Succeeded? { closing := host.Close(); }
      if closing && recording { Closing(); }
      if !closing { var aborted := host.Abort(); }
      validated := closing;
      var cleanup := Cleanup(fair);
      cleaned := cleanup.Succeeded?;
      ok := closing && cleanup.Succeeded?;
      if ok {
        var committed := host.Commit();
      } else if closing {
        var aborted := host.Abort();
      }
    }

    // Nothing was lost: what was captured was persisted or still waits in the queues.
    ghost predicate Lossless()
      reads this, host, spawns, probes, recorder
    {
      && Sound() && (probesOwned ==> probes.pending.None?) && host.Faultless() && (recording ==> recorder.streamOk)
      && host.delivered == host.persisted && host.captured == host.delivered + Due(spawns.queue, probes.queue)
    }

    // What a receipt on disk means.
    ghost predicate Certified()
      reads this, host, spawns, probes, recorder
    {
      && recorder.receipt.Some? && OneLineEach(recorder.lines, spawns.history, probes.history)
      && recorder.receipt.value.records == host.captured == host.delivered == host.persisted == |recorder.lines|
      && recorder.receipt.value.initializations == |spawns.history| && recorder.receipt.value.probes == |probes.history|
      && host.Faultless() && Sound() && (probesInstalled ==> Probe.Closed(Probe.Recycles(probes.history)))
    }

    // A session that validates has a line for every captured event.
    lemma Closing()
      requires Valid() && recording && Sound() && host.captured == host.delivered == host.persisted
      ensures OneLineEach(recorder.lines, spawns.history, probes.history)
      ensures probesInstalled ==> Probe.Closed(Probe.Recycles(probes.history))
    {
      AllWritten(recorder.lines);
      hide Probe.Closed, Probe.Recycles, Ledger, OneLineEach, Spawn.SpawnHook.Valid;
    }

    lemma AllWritten(lines: seq<Event>)
      requires Ascending(lines) && |lines| >= |spawns.history| + |probes.history|
      requires Ledger(spawns.history, spawns.queue, probes.history, if probesOwned then probes.queue else [], lines, host.nextSequence)
      ensures OneLineEach(lines, spawns.history, probes.history)
    {
      hide Captured, SequenceOf, Ascending;
      Complete(lines, spawns.history, probes.history);
      CountsAgree(lines, spawns.history, probes.history);
    }

    lemma Certificate()
      requires recorder.Valid()
      ensures recorder.receipt.Some? ==> Certifies(recorder.receipt.value, recorder.lines)
    {
    }

    // A whole session: any captures and boundaries in any order, then the shutdown.
    method Session() returns (ok: bool)
      requires Valid() && host.state == State.Open
      modifies host, spawns, probes, recorder
      ensures host.state == if ok then State.Closed else State.Failed
      ensures recorder.receipt.Some? <==> ok && recording
      ensures recorder.receipt.Some? ==> Certified()
    {
      hide Valid, Certified;
      var steps: int := *;
      while steps > 0
        invariant Valid() && host.state == State.Open
        decreases steps
      {
        steps := steps - 1;
        var boundary: bool := *;
        if boundary {
          var fair: bool := *;
          var drain := DrainAndCheck(fair);
        } else {
          var m: Moment := *;
          Capture(m);
        }
      }
      ghost var drained, validated, cleaned;
      var fair: bool := *;
      ok, drained, validated, cleaned := Shutdown(fair);
    }
  }
}
