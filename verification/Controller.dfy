// runtime/controller.cpp: the single-threaded controller. Backend answers, audit
// failures and disk failures are adversarial (`*`).
module Controllers {
  import opened JournalFormat
  import opened JournalLog
  import opened RequestJournals
  import opened ControllerLedger
  import opened ControllerState
  import opened EngineCalls

  ghost predicate RoundTrips(dump: Response -> Bytes, parse: Bytes -> Response) {
    forall r :: parse(dump(r)) == r
  }

  datatype Kind = Commit | Advance | Pause | Cancel | StopRecording | Prepare(unfreezes: bool)

  // A parsed request. `canonical` is its text without the branch declaration.
  datatype Request = Request(caller: nat, malformed: bool, id: Bytes, declared: Option<Bytes>, canonical: Bytes, kind: Kind,
                             stated: Option<Version>, count: int, untilWave: bool, badCondition: bool, actions: nat)

  // What the backend tells about the fight.
  datatype Observation = Observation(board: int, ready: bool, clock: int)

  // What the backend shows right before or after one update.
  datatype Readings = Readings(board: int, ready: bool, clock: int, ui: int, wave: int)

  // One engine frame: the thread it runs on, what the backend answers at its
  // boundary, and what it shows before and after the update.
  datatype Frame = Frame(onOwner: bool, boundary: Option<Observation>, before: Readings, after: Readings)

  class Controller {
    const journal: RequestJournal
    const tracker: EngineCallTracker
    const dump: Response -> Bytes
    const parse: Bytes -> Response
    const usesCalls: bool
    // While set, no audit write and no observation of the backend fails.
    var steady: bool
    var epoch: nat
    var tick: nat
    var revision: nat
    var board: int
    var initialized: bool
    var ready: bool
    var inStep: bool
    var recordingClosed: bool
    var terminalFrozen: bool
    var fault: bool
    var storageFault: bool
    var nativeTick: int
    var preTick: int
    var preUi: int
    var preBoard: int
    var activeCall: nat
    var wrapperActive: bool
    var cache: Cache
    var pending: Option<Pending>
    var terminalReply: Option<TerminalReply>
    var outbox: seq<(nat, Response)>
    ghost var h: History
    ghost var expected: Version
    ghost var terminalTicket: Ticket
    ghost var started: set<Ticket>
    // Returned calls not yet credited to the pending request or its completion.
    ghost var uncounted: nat
    // Returned calls never credited: the observation after the return failed.
    ghost var lost: nat
    ghost var closeTried: bool

    ghost function State(): Core
      reads this`epoch, this`tick, this`revision, this`cache, this`pending, this`expected, this`storageFault, this`recordingClosed,
        this`terminalReply, this`terminalTicket, this`outbox, this`h, this`started, this`uncounted, this`lost, this`closeTried
      reads journal`scope, journal`log, journal`base, journal`used, journal`reserveCount, tracker`returned
    {
      Core(journal.scope, Version(epoch, tick, revision), if journal.base <= |journal.log| then journal.Entries() else map[],
           if |journal.used| == 2 then journal.used[1] else 0, journal.reserveCount,
           cache, pending, expected, storageFault, recordingClosed, terminalReply, terminalTicket, outbox, h,
           started, tracker.returned, uncounted, lost, closeTried)
    }

    ghost function Fixed(): Setting {
      Setting(journal.limits, dump, usesCalls)
    }

    // At most one call was ever lost, and then the controller is frozen; only a
    // closed recording is sealed.
    ghost predicate Consistent()
      reads this`lost, this`fault, this`recordingClosed, journal`sealed
    {
      lost <= 1 && (lost == 1 ==> fault) && (journal.sealed ==> recordingClosed)
    }

    // Everything but the bookkeeping: the parts are sound and fit together.
    ghost predicate Shell()
      reads this`lost, this`fault, this`recordingClosed, this`epoch, journal, journal.heads, tracker
    {
      && Consistent() && journal.Valid() && tracker.Valid() && journal.epoch == epoch && journal.limits.reserveEntries > 0
      && RoundTrips(dump, parse) && Shaped()
    }

    ghost predicate Shaped()
      reads journal
    {
      journal.base <= |journal.log| && |journal.used| == 2
    }

    ghost predicate Valid()
      reads this`epoch, this`tick, this`revision, this`cache, this`pending, this`expected, this`storageFault, this`recordingClosed,
        this`terminalReply, this`terminalTicket, this`outbox, this`h, this`started, this`uncounted, this`lost, this`closeTried
      reads this`fault, journal, journal.heads, tracker
    {
      Shell() && Sound(State(), Fixed())
    }

    ghost predicate AtRest()
      reads this`epoch, this`tick, this`revision, this`cache, this`pending, this`expected, this`storageFault, this`recordingClosed,
        this`terminalReply, this`terminalTicket, this`outbox, this`h, this`started, this`uncounted, this`lost, this`closeTried
      reads journal`scope, journal`log, journal`base, journal`used, journal`reserveCount, tracker`returned
    {
      Calm(State()) && WithinBudget(State())
    }

    constructor (hash: Hasher, limits: Limits, branch: Bytes, dump: Response -> Bytes, parse: Bytes -> Response, usesCalls: bool)
      requires limits.normalBytes < RESERVE_BIT && limits.reserveBytes < RESERVE_BIT && |branch| <= MAX_SCOPE
      requires RoundTrips(dump, parse)
      requires limits.reserveEntries > 0 && START <= ByteLimit(limits, 1, false)
      ensures Valid() && fresh(journal) && fresh(journal.heads) && fresh(tracker)
      ensures State() == Initial(branch, START) && AtRest() && Quiet() && Healthy()
      ensures !initialized && !ready && !recordingClosed && !terminalFrozen && !wrapperActive
    {
      hide RequestJournal.Valid, RequestJournal.Entries, EngineCallTracker.Valid, RoundTrips, ByteLimit, Controller.Valid, Controller.AtRest;
      journal := new RequestJournal(hash, limits, branch);
      tracker := new EngineCallTracker();
      this.dump, this.parse, this.usesCalls := dump, parse, usesCalls;
      epoch, tick, revision, board := 1, 0, 0, 0;
      initialized, ready, inStep, recordingClosed, terminalFrozen := false, false, false, false, false;
      fault, storageFault := false, false;
      nativeTick, preTick, preUi, preBoard, activeCall, wrapperActive := 0, 0, 0, 0, 0, false;
      cache, pending, terminalReply, outbox := map[], None, None, [];
      h, expected, terminalTicket, started, uncounted, lost, closeTried := NO_HISTORY, Version(0, 0, 0), Ticket([], 0, []), {}, 0, 0, false;
      new;
      journal.Facts();
      StartsAtRest(branch);
    }

    lemma StartsAtRest(branch: Bytes)
      requires State() == Initial(branch, START) && START <= ByteLimit(journal.limits, 1, false) && journal.limits.reserveEntries > 0
      requires Consistent() && journal.Valid() && tracker.Valid() && journal.epoch == epoch && RoundTrips(dump, parse)
      requires journal.base <= |journal.log| && |journal.used| == 2
      ensures Valid() && AtRest()
    {
      hide RequestJournal.Valid, EngineCallTracker.Valid, RoundTrips, Calm, WithinBudget, Sound, Rest, ByteLimit, Controller.State;
      InitialRests(branch, START, Fixed());
      RestParts(State(), Fixed());
    }

    // ---- results --------------------------------------------------------------

    // Offers a result to the journal. The request stays answerable in RAM when
    // the journal cannot take it, and advancement freezes.
    method Persist(id: Bytes, response: Response, closingRecovery: bool) returns (stored: Completed)
      requires Shell() && Shaped()
      requires id in cache && Get(journal.Entries(), Key(journal.scope, id)).Some?
      requires cache[id].token == journal.Entries()[Key(journal.scope, id)].token && journal.Entries()[Key(journal.scope, id)].response.None?
      modifies this`storageFault, this`terminalFrozen
      modifies journal`disk, journal`used, journal`log, journal`clean, journal`fault, journal.heads
      ensures Shell() && Shaped()
      ensures State() == old(State()).(
        entries := if stored.Done? then Answer(old(State()).entries, Key(journal.scope, id), dump(response)) else old(State()).entries,
        used := journal.used[1], storageFault := old(storageFault) || !stored.Done?)
      ensures terminalFrozen == (old(terminalFrozen) || !stored.Done?)
      ensures journal.used[1] == old(journal.used[1])
        || (journal.used[1] == old(journal.used[1]) + RecordSize(journal.scope, id, dump(response))
            && journal.used[1] <= ByteLimit(journal.limits, 1, closingRecovery || old(journal.Entries()[Key(journal.scope, id)].closing)))
      ensures stored.NoRoom? ==>
        || |dump(response)| > MAX_BODY
        || old(journal.used[1]) + RecordSize(journal.scope, id, dump(response))
             > ByteLimit(journal.limits, 1, closingRecovery || old(journal.Entries()[Key(journal.scope, id)].closing))
      ensures journal.steady ==> !stored.Failed?
    {
      hide RequestJournal.Valid, RequestJournal.Entries, RecordSize, ByteLimit, Answer;
      ghost var i := journal.ReservationIndex(id);
      stored := journal.Complete(cache[id].token, id, dump(response), closingRecovery, i);
      journal.Facts();
      if !stored.Done? { storageFault, terminalFrozen := true, true; }
    }

    method Deliver(told: seq<(nat, Response)>, left: Cache, ghost later: History, ghost calls: nat)
      modifies this`cache, this`outbox, this`h, this`uncounted
      ensures State() == old(State()).(cache := left, outbox := told, h := later, uncounted := calls)
    {
      hide RequestJournal.Entries;
      outbox, cache, h, uncounted := told, left, later, calls;
    }

    // Records the result in RAM and answers everyone who waits for it.
    method AnswerWaiters(id: Bytes, response: Response, stored: bool, ghost after: Core)
      requires Shell() && Shaped() && id in cache
      requires after.outbox == outbox + Replies(cache[id].waiters, response)
      requires after.cache == if stored then cache - {id} else cache[id := cache[id].(response := Some(response), waiters := [])]
      requires after == State().(cache := after.cache, outbox := after.outbox, h := after.h, uncounted := after.uncounted)
      modifies this`cache, this`outbox, this`h, this`uncounted
      ensures Shell() && Shaped() && State() == after
      ensures outbox == old(outbox) + Replies(old(cache)[id].waiters, response)
    {
      hide RequestJournal.Entries, Replies, Controller.Shell;
      var told := outbox + Replies(cache[id].waiters, response);
      var left := if stored then cache - {id} else cache[id := cache[id].(response := Some(response), waiters := [])];
      Deliver(told, left, after.h, after.uncounted);
    }

    // Records the result of an admitted request and answers everyone who waits
    // for it.
    method CompleteEntry(id: Bytes, response: Response) returns (stored: bool)
      requires Valid() && Settles(State(), Fixed(), id, response)
      modifies this`cache, this`storageFault, this`terminalFrozen, this`outbox, this`h, this`uncounted
      modifies journal`disk, journal`used, journal`log, journal`clean, journal`fault, journal.heads
      ensures Valid() && (old(terminalFrozen) ==> terminalFrozen)
      ensures TicketOf(old(State()), id) in old(h.ledger) && Key(old(journal.scope), id) in old(journal.Entries())
      ensures State() == Settle(old(State()), dump, id, response, stored, journal.used[1])
      ensures Follows(old(State()), State()) && (!stored ==> storageFault) && (stored <==> id !in cache)
      ensures stored ==> terminalFrozen == old(terminalFrozen) && storageFault == old(storageFault)
      ensures id in old(cache) && outbox == old(outbox) + Replies(old(cache)[id].waiters, response)
    {
      hide RequestJournal.Valid, RequestJournal.Entries, EngineCallTracker.Valid, RoundTrips, Sound, Fits, CallsOf, Follows, RecordSize, ByteLimit, Answer, Replies, Settle, Controller.Shell;
      ghost var before, s := State(), Fixed();
      ShellShaped();
      CachedIsAdmitted(before, s, id);
      hide TicketOf, CachedOk;
      var outcome := Persist(id, response, false);
      stored := outcome.Done?;
      RoomKept(before, s, id, journal.used[1]);
      SettleSound(before, s, id, response, stored, journal.used[1]);
      SettleParts(before, dump, id, response, stored, journal.used[1]);
      AnswerWaiters(id, response, stored, Settle(before, dump, id, response, stored, journal.used[1]));
    }

    lemma ShellShaped()
      requires Shell()
      ensures Shaped() && journal.Valid() && journal.epoch == epoch && (journal.sealed ==> recordingClosed)
    {
    }

    method DropPending()
      requires Valid() && pending.Some?
      modifies this`pending, this`uncounted
      ensures Valid() && State() == Detach(old(State()))
    {
      hide RequestJournal.Valid, RequestJournal.Entries, EngineCallTracker.Valid, RoundTrips, Sound, Follows, Controller.Shell;
      DetachSound(State(), Fixed());
      uncounted := uncounted + pending.value.calls;
      pending := None;
    }

    // Ends the pending advancement: its slot is free before its result is
    // recorded.
    method EndPending(response: Response) returns (stored: bool)
      requires Valid() && pending.Some? && CallsOf(response) == pending.value.calls && Fits(usesCalls, response)
      modifies this`pending, this`cache, this`storageFault, this`terminalFrozen, this`outbox, this`h, this`uncounted
      modifies journal`disk, journal`used, journal`log, journal`clean, journal`fault, journal.heads
      ensures Valid() && pending.None? && (old(terminalFrozen) ==> terminalFrozen) && (!stored ==> storageFault)
      ensures stored <==> old(pending.value.id) !in cache
      ensures old(pending.value.id in cache && TicketOf(State(), pending.value.id) in h.ledger)
      ensures Key(old(journal.scope), old(pending.value.id)) in old(State()).entries
      ensures State() == Ended(old(State()), dump, response, stored, journal.used[1])
      ensures Resolves(old(State()), State(), PendingIds(old(State())))
      ensures stored ==> terminalFrozen == old(terminalFrozen)
    {
      hide RequestJournal.Valid, RequestJournal.Entries, EngineCallTracker.Valid, RoundTrips, Sound, Fits, CallsOf, Follows, RecordSize,
        ByteLimit, Settle, Resolves, Unanswered;
      ghost var before, s := State(), Fixed();
      PendingIsOpen(before, s);
      DetachSound(before, s);
      var id := pending.value.id;
      DropPending();
      stored := CompleteEntry(id, response);
      EndResolves(before, s, response, stored, journal.used[1]);
    }

    method NoteFault()
      requires Valid()
      modifies this`fault
      ensures Valid() && fault && State() == old(State())
    {
      hide RequestJournal.Valid, RequestJournal.Entries, EngineCallTracker.Valid, RoundTrips, Sound;
      fault := true;
    }

    // An audit or native fault freezes the controller for good. While an engine
    // call is in flight its request stays alive until the call was measured.
    method Fail()
      requires Valid()
      modifies this`pending, this`cache, this`storageFault, this`terminalFrozen, this`outbox, this`h, this`uncounted, this`fault, this`inStep
      modifies journal`disk, journal`used, journal`log, journal`clean, journal`fault, journal.heads
      ensures inStep ==> old(inStep)
      ensures Valid() && fault && Winds(old(State()), State()) && (pending.None? ==> WithinBudget(State()))
      ensures tracker.phase == Entered ==> State() == old(State()) && inStep == old(inStep) && pending == old(pending)
      ensures tracker.phase != Entered ==> pending.None? && !inStep && terminalFrozen
      ensures old(terminalFrozen) ==> terminalFrozen
    {
      hide RequestJournal.Valid, EngineCallTracker.Valid, RoundTrips, Sound, Resolves, Ended, WithinBudget, PendingIds, Controller.State,
        Controller.Fixed, Controller.Valid, TicketOf;
      NothingWinds(State());
      NoteFault();
      if tracker.phase == Entered {
        if pending.None? { NothingPending(); }
        return;
      }
      terminalFrozen, inStep := true, false;
      if pending.Some? {
        var stored := EndPending(AuditFailed(WorkOf(pending.value)));
      }
      NothingPending();
    }

    // Every audit write may fail, and then the failure propagates.
    method Audit() returns (threw: bool)
      requires Valid()
      modifies this`pending, this`cache, this`storageFault, this`terminalFrozen, this`outbox, this`h, this`uncounted, this`fault, this`inStep
      modifies journal`disk, journal`used, journal`log, journal`clean, journal`fault, journal.heads
      ensures inStep ==> old(inStep)
      ensures Valid() && Winds(old(State()), State()) && (pending.None? ==> WithinBudget(State()))
      ensures !threw || tracker.phase == Entered ==> State() == old(State()) && inStep == old(inStep) && pending == old(pending) && cache == old(cache)
      ensures !threw ==> fault == old(fault) && terminalFrozen == old(terminalFrozen) && journal.fault == old(journal.fault)
      ensures threw ==> fault
      ensures threw && tracker.phase != Entered ==> pending.None? && !inStep && terminalFrozen
      ensures steady ==> !threw
      ensures old(fault) ==> fault
    {
      hide RequestJournal.Valid, EngineCallTracker.Valid, RoundTrips, Sound, Winds;
      NothingWinds(State());
      var failed: bool := *;
      threw := failed && !steady;
      if threw { Fail(); }
    }

    // The one terminal reply stays recoverable after the epoch advances.
    method KeepReply(reply: TerminalReply, ghost t: Ticket)
      requires Valid() && t.branch == journal.scope && t.id == reply.id
      requires t in h.ledger && h.ledger[t] == Admission(reply.canonical, Some(reply.response))
      modifies this`terminalReply, this`terminalTicket
      ensures Valid() && State() == old(State()).(terminal := Some(reply), terminalTicket := t)
    {
      hide RequestJournal.Valid, RequestJournal.Entries, EngineCallTracker.Valid, RoundTrips, Sound, Follows, Controller.Shell;
      TerminalSound(State(), Fixed(), t, reply);
      terminalReply, terminalTicket := Some(reply), t;
    }

    method Conclude(reason: Reason)
      requires Valid() && pending.Some? && Fits(usesCalls, Finished(reason, WorkOf(pending.value)))
      modifies this`pending, this`cache, this`storageFault, this`terminalFrozen, this`outbox, this`h, this`uncounted
      modifies this`terminalReply, this`terminalTicket
      modifies journal`disk, journal`used, journal`log, journal`clean, journal`fault, journal.heads
      ensures Valid() && (old(terminalFrozen) ==> terminalFrozen) && pending.None?
      ensures Winds(old(State()), State()) && WithinBudget(State())
      ensures HasResult(h.ledger, TicketOf(old(State()), old(pending.value.id)), Finished(reason, WorkOf(old(pending.value))))
      ensures old(pending.value.id in cache) && (old(pending.value.id) in cache ==> storageFault)
      ensures usesCalls && reason == SceneChanged && old(pending.value.id) !in cache ==>
        && terminalReply == Some(TerminalReply(old(pending.value.id), old(cache[pending.value.id].payload), Finished(SceneChanged, WorkOf(old(pending.value)))))
        && terminalTicket == Ticket(old(journal.scope), old(epoch), old(pending.value.id))
      ensures !usesCalls || reason != SceneChanged || old(pending.value.id) in cache ==>
        terminalReply == old(terminalReply) && terminalTicket == old(terminalTicket)
      ensures !storageFault ==> terminalFrozen == old(terminalFrozen)
    {
      hide RequestJournal.Valid, RequestJournal.Entries, EngineCallTracker.Valid, RoundTrips, Sound, Resolves, Ended, Fits;
      ghost var before, s := State(), Fixed();
      PendingIsOpen(before, s);
      var id, payload, response := pending.value.id, cache[pending.value.id].payload, Finished(reason, WorkOf(pending.value));
      var stored := EndPending(response);
      EndedRecords(before, s, response, stored, journal.used[1]);
      if stored && usesCalls && reason == SceneChanged {
        TerminalResolves(before, State(), PendingIds(before), TicketOf(before, id), TerminalReply(id, payload, response));
        KeepReply(TerminalReply(id, payload, response), TicketOf(before, id));
      }
    }

    // Since `a` the request got this result for the work it had done.
    ghost predicate Concluded(a: Core, p: Pending, reason: Reason)
      reads this`h
    {
      HasResult(h.ledger, TicketOf(a, p.id), Finished(reason, Work(p.requested, p.executed, p.calls, p.terminalZero, p.actions)))
    }

    // Completes the pending advancement. The final observation and the audit
    // write may both fail first.
    method Finish(reason: Reason) returns (threw: bool)
      requires Valid() && tracker.phase != Entered
      requires pending.Some? ==> Fits(usesCalls, Finished(reason, WorkOf(pending.value)))
      modifies this`pending, this`cache, this`storageFault, this`terminalFrozen, this`outbox, this`h, this`uncounted, this`fault, this`inStep
      modifies this`terminalReply, this`terminalTicket
      modifies journal`disk, journal`used, journal`log, journal`clean, journal`fault, journal.heads
      ensures inStep ==> old(inStep)
      ensures Valid() && Winds(old(State()), State()) && (pending.None? ==> WithinBudget(State())) && (old(terminalFrozen) ==> terminalFrozen)
      ensures old(pending).None? ==> !threw && State() == old(State()) && inStep == old(inStep) && journal.fault == old(journal.fault)
      ensures pending.None? || (threw && pending == old(pending))
      ensures old(pending).Some? ==> !inStep
      ensures !threw && old(pending).Some? ==>
        HasResult(h.ledger, TicketOf(old(State()), old(pending.value.id)), Finished(reason, WorkOf(old(pending.value))))
      ensures !threw && old(pending).Some? ==> old(pending.value.id in cache)
      ensures !threw && old(pending).Some? && usesCalls && reason == SceneChanged && !storageFault ==>
        && terminalReply == Some(TerminalReply(old(pending.value.id), old(cache[pending.value.id].payload), Finished(SceneChanged, WorkOf(old(pending.value)))))
        && terminalTicket == Ticket(old(journal.scope), old(epoch), old(pending.value.id))
      ensures steady ==> !threw
      ensures !threw && !storageFault ==> terminalFrozen == old(terminalFrozen)
      ensures old(fault) ==> fault
    {
      hide RequestJournal.Valid, EngineCallTracker.Valid, RoundTrips, Sound, Winds, Fits, TicketOf, WorkOf, WithinBudget, HasResult,
        Controller.State, Controller.Fixed, Controller.Valid;
      NothingWinds(State());
      threw := false;
      if pending.None? { NothingPending(); return; }
      inStep := false;
      var unseen := Query();
      if unseen { return true; }
      threw := Audit();
      if !threw { Conclude(reason); }
    }

    lemma NothingPending()
      requires pending.None?
      ensures WithinBudget(State())
    {
    }

    // A journal failure freezes advancement and ends the pending request.
    method StorageFail() returns (threw: bool)
      requires Valid() && tracker.phase != Entered && WithinBudget(State())
      modifies this`pending, this`cache, this`storageFault, this`terminalFrozen, this`outbox, this`h, this`uncounted, this`fault, this`inStep
      modifies this`terminalReply, this`terminalTicket
      modifies journal`disk, journal`used, journal`log, journal`clean, journal`fault, journal.heads
      ensures inStep ==> old(inStep)
      ensures Valid() && Winds(old(State()), State()) && WithinBudget(State()) && storageFault && terminalFrozen
      ensures pending.None? || pending == old(pending)
      ensures pending.None? || threw
      ensures steady ==> !threw
      ensures old(fault) ==> fault
    {
      hide RequestJournal.Valid, EngineCallTracker.Valid, RoundTrips, Sound, Winds, Follows, TicketOf, HasResult, Controller.Fixed;
      ghost var before := State();
      FreezeStorage();
      ghost var frozen := State();
      threw := Finish(DedupStorageFailed);
      WindsFacts(frozen, State());
      WindsTransitive(before, frozen, State());
      KeptFault(frozen, State());
    }

    method FreezeStorage()
      requires Valid()
      modifies this`storageFault, this`terminalFrozen
      ensures Valid() && State() == old(State()).(storageFault := true) && Winds(old(State()), State()) && terminalFrozen
    {
      hide RequestJournal.Valid, EngineCallTracker.Valid, RoundTrips, Sound, Winds, Follows, RequestJournal.Entries, Controller.Shell;
      FaultSound(State(), Fixed());
      NothingWinds(State());
      storageFault, terminalFrozen := true, true;
    }

    lemma KeptFault(a: Core, b: Core)
      requires Winds(a, b) && a.storageFault
      ensures b.storageFault
    {
      hide Follows;
    }

    method CompleteOne(id: Bytes, response: Response)
      requires Valid() && Settles(State(), Fixed(), id, response) && CallsOf(response) == 0
      modifies this`cache, this`storageFault, this`terminalFrozen, this`outbox, this`h, this`uncounted
      modifies journal`disk, journal`used, journal`log, journal`clean, journal`fault, journal.heads
      ensures Valid() && Resolves(old(State()), State(), {id}) && (WithinBudget(old(State())) ==> WithinBudget(State()))
      ensures HasResult(h.ledger, TicketOf(old(State()), id), response)
      ensures old(terminalFrozen) ==> terminalFrozen
      ensures !storageFault ==> terminalFrozen == old(terminalFrozen)
      ensures id !in cache ==> storageFault == old(storageFault)
    {
      hide RequestJournal.Valid, RequestJournal.Entries, EngineCallTracker.Valid, RoundTrips, Sound, Resolves, Follows, TicketOf, Settle, Settles,
        CallsOf, WithinBudget;
      ghost var before := State();
      var stored := CompleteEntry(id, response);
      SettleResolves(before, Fixed(), id, response, stored, journal.used[1]);
    }

    // Records a result. A journal that failed while another advancement is
    // pending ends that one too.
    method Complete(id: Bytes, response: Response) returns (threw: bool)
      requires Valid() && tracker.phase != Entered && WithinBudget(State())
      requires Settles(State(), Fixed(), id, response) && CallsOf(response) == 0
      modifies this`pending, this`cache, this`storageFault, this`terminalFrozen, this`outbox, this`h, this`uncounted, this`fault, this`inStep
      modifies this`terminalReply, this`terminalTicket
      modifies journal`disk, journal`used, journal`log, journal`clean, journal`fault, journal.heads
      ensures inStep ==> old(inStep)
      ensures Valid() && WithinBudget(State()) && Answers(old(State()), State(), id)
      ensures pending.None? || pending == old(pending)
      ensures old(pending).None? ==> pending.None?
      ensures HasResult(h.ledger, TicketOf(old(State()), id), response)
      ensures !threw && (storageFault || journal.fault) ==> pending.None?
      ensures steady ==> !threw
      ensures (old(fault) ==> fault) && (old(terminalFrozen) ==> terminalFrozen)
      ensures !storageFault ==> terminalFrozen == old(terminalFrozen) && pending == old(pending) && fault == old(fault)
    {
      hide RequestJournal.Valid, RequestJournal.Entries, EngineCallTracker.Valid, RoundTrips, Sound, Resolves, Winds, Follows, TicketOf, Settle,
        Settles, CallsOf, WithinBudget, Unanswered, PendingIds, HasResult, Answers, Controller.Fixed, Controller.Valid, Controller.State;
      ghost var before := State();
      CompleteOne(id, response);
      ghost var done := State();
      Shown();
      NothingWinds(done);
      threw := false;
      if pending.Some? && (storageFault || journal.fault) {
        threw := StorageFail();
      }
      SecondEnding(before, done, State(), id, response);
      Shown();
    }
    // ---- closing --------------------------------------------------------------

    // Writes one RAM-only result with the closing allowance; only then may it
    // leave RAM.
    method SaveOne(id: Bytes, ghost roomy: bool) returns (stored: Completed)
      requires Valid() && Unwritten(State()) && closeTried && id in cache && cache[id].response.Some?
      requires roomy ==> Roomy(State(), journal.limits) && SmallResults(State(), dump)
      modifies this`cache, this`storageFault, this`terminalFrozen
      modifies journal`disk, journal`used, journal`log, journal`clean, journal`fault, journal.heads
      ensures Valid() && Unwritten(State()) && (roomy && stored.Done? ==> Roomy(State(), journal.limits)) && (roomy ==> !stored.NoRoom?)
      ensures Key(old(journal.scope), id) in old(State()).entries
      ensures stored.Done? ==> State() == Save(old(State()), dump, id, journal.used[1]) && |cache| < |old(cache)|
      ensures !stored.Done? ==> State() == old(State()).(used := journal.used[1], storageFault := true) && storageFault
      ensures Follows(old(State()), State()) && Unanswered(State()) == Unanswered(old(State()))
      ensures KeepsFlags(old(State()).entries, State().entries)
      ensures roomy && journal.steady ==> stored.Done?
      ensures roomy && stored.Done? ==> SmallResults(State(), dump)
    {
      hide RequestJournal.Valid, RequestJournal.Entries, EngineCallTracker.Valid, RoundTrips, Sound, Follows, RecordSize, ByteLimit, Unanswered,
        Answer, Unwritten, KeepsFlags, Roomy, Controller.Shell, SmallResults;
      ghost var before, s := State(), Fixed();
      ShellShaped();
      if roomy { SmallAt(before, id); }
      CachedIsAdmitted(before, s, id);
      UnwrittenAt(before, id);
      if roomy { IdBound(id); SavingFits(before, s.limits, id, dump(cache[id].response.value)); }
      stored := Persist(id, cache[id].response.value, true);
      if roomy { SavedFits(before, s, id, journal.used[1]); StillSmall(before, dump, id, journal.used[1]); }
      if stored.Done? {
        SaveSound(before, s, id, journal.used[1]);
        AnswerKeepsFlags(before.entries, Key(before.branch, id), dump(cache[id].response.value));
        cache := cache - {id};
      } else {
        UsedSound(before, s, journal.used[1]);
        FlagsKept(before.entries);
      }
    }

    lemma SmallAt(c: Core, id: Bytes)
      requires SmallResults(c, dump) && id in c.cache && c.cache[id].response.Some?
      ensures |dump(c.cache[id].response.value)| <= MAX_BODY
    {
    }

    lemma UnwrittenAt(c: Core, id: Bytes)
      requires Unwritten(c) && id in c.cache && Key(c.branch, id) in c.entries
      ensures c.entries[Key(c.branch, id)].response.None?
    {
    }

    // Every admitted id is bounded.
    lemma IdBound(id: Bytes)
      requires journal.Valid() && Shaped() && Key(journal.scope, id) in journal.Entries()
      ensures |id| <= MAX_ID && |journal.scope| <= MAX_SCOPE
    {
      hide RequestJournal.Valid, RequestJournal.Entries;
      journal.Facts();
      var i := journal.ReservationIndex(id);
    }

    // Writes every other RAM-only result; the first failure stops it.
    method SaveRamOnly(closing: Bytes, ghost roomy: bool) returns (stored: Completed)
      requires Valid() && Unwritten(State()) && closeTried && closing in cache && cache[closing].response.None?
      requires roomy ==> Roomy(State(), journal.limits) && SmallResults(State(), dump)
      modifies this`cache, this`storageFault, this`terminalFrozen
      modifies journal`disk, journal`used, journal`log, journal`clean, journal`fault, journal.heads
      ensures Valid() && Unwritten(State()) && (roomy ==> !stored.NoRoom?) && (!stored.Done? ==> storageFault)
      ensures stored.Done? ==> (roomy ==> Roomy(State(), journal.limits)) && forall id :: id in cache ==> cache[id].response.None?
      ensures Follows(old(State()), State()) && Unanswered(State()) == Unanswered(old(State()))
      ensures KeepsFlags(old(State()).entries, State().entries)
      ensures roomy && journal.steady ==> stored.Done?
    {
      hide RequestJournal.Valid, RequestJournal.Entries, EngineCallTracker.Valid, RoundTrips, Sound, Follows, Roomy, Unanswered, Unwritten, Save,
        KeepsFlags, Controller.State, Controller.Fixed;
      ghost var before := State();
      FollowsItself(before);
      assert KeepsFlags(before.entries, before.entries) by { FlagsKept(before.entries); }
      stored := Done;
      while exists id :: id in cache && cache[id].response.Some?
        invariant Valid() && Unwritten(State()) && stored.Done? && (roomy ==> Roomy(State(), journal.limits) && SmallResults(State(), dump))
        invariant Follows(before, State()) && Unanswered(State()) == Unanswered(before) && KeepsFlags(before.entries, State().entries)
        decreases |cache|
      {
        var id :| id in cache && cache[id].response.Some?;
        ghost var now := State();
        stored := SaveOne(id, roomy);
        FollowsTransitive(before, now, State());
        KeepsFlagsTransitive(before.entries, now.entries, State().entries);
        if !stored.Done? { return; }
      }
    }

    method SealFiles() returns (isSealed: bool)
      requires journal.Valid() && Shaped() && journal.isOpen
      modifies this`storageFault, this`terminalFrozen, journal`disk, journal`clean, journal`sealed
      ensures journal.Valid() && isSealed == journal.sealed && (journal.steady ==> isSealed)
      ensures State() == old(State()).(storageFault := old(storageFault) || !isSealed)
      ensures isSealed ==> terminalFrozen == old(terminalFrozen)
      ensures !isSealed ==> terminalFrozen
    {
      hide RequestJournal.Valid, RequestJournal.Entries;
      isSealed := journal.Seal();
      if !isSealed { storageFault, terminalFrozen := true, true; }
    }

    // Writes the close's own result and seals the files.
    method WriteClose(id: Bytes, ghost roomy: bool) returns (own: Completed, isSealed: bool)
      requires Valid() && Unwritten(State()) && journal.isOpen && id in cache
      requires roomy ==> Roomy(State(), journal.limits) && |dump(Closed)| <= MAX_BODY && ClosingEntry(State(), id)
      modifies this`storageFault, this`terminalFrozen
      modifies journal`disk, journal`used, journal`log, journal`clean, journal`fault, journal`sealed, journal.heads
      ensures journal.Valid() && Shaped() && (isSealed ==> own.Done? && journal.sealed)
      ensures State() == old(State()).(
        entries := if own.Done? then Answer(old(State()).entries, Key(journal.scope, id), dump(Closed)) else old(State()).entries,
        used := journal.used[1], storageFault := old(storageFault) || !isSealed)
      ensures roomy ==> !own.NoRoom?
      ensures roomy && journal.steady ==> isSealed
    {
      hide RequestJournal.Valid, RequestJournal.Entries, EngineCallTracker.Valid, Sound, RoundTrips, RecordSize, ByteLimit, Answer, Roomy, Unwritten;
      ghost var before := State();
      CachedIsAdmitted(before, Fixed(), id);
      UnwrittenAt(before, id);
      if roomy { IdBound(id); ResultFits(before, journal.limits, id, dump(Closed), before.used); }
      own := Persist(id, Closed, false);
      isSealed := false;
      if own.Done? {
        isSealed := SealFiles();
      }
    }

    method CloseOwn(id: Bytes, saved: Completed, ghost roomy: bool) returns (ghost capacity: bool)
      requires Valid() && Unwritten(State()) && closeTried && recordingClosed && journal.isOpen && (!saved.Done? ==> storageFault)
      requires id in cache && cache[id].response.None?
      requires roomy ==> !saved.NoRoom?
      requires roomy && saved.Done? ==> Roomy(State(), journal.limits) && |dump(Closed)| <= MAX_BODY && ClosingEntry(State(), id)
      modifies this`cache, this`storageFault, this`terminalFrozen, this`outbox, this`h, this`uncounted
      modifies journal`disk, journal`used, journal`log, journal`clean, journal`fault, journal`sealed, journal.heads
      ensures Valid() && Follows(old(State()), State()) && (roomy ==> !capacity) && uncounted == old(uncounted)
      ensures Unanswered(State()) == Unanswered(old(State())) - {id}
      ensures var t := TicketOf(old(State()), id);
        (HasResult(h.ledger, t, Closed) && journal.sealed) || (HasResult(h.ledger, t, CloseIncomplete) && storageFault)
      ensures roomy && saved.Done? && journal.steady ==> HasResult(h.ledger, TicketOf(old(State()), id), Closed) && journal.sealed
      ensures h.effects == old(h.effects)
    {
      hide RequestJournal.Valid, RequestJournal.Entries, EngineCallTracker.Valid, RoundTrips, Sound, Follows, Roomy, Unanswered, Unwritten, Answer,
        HasResult, TicketOf;
      ghost var before := State();
      CachedIsAdmitted(before, Fixed(), id);
      var own, isSealed := saved, false;
      if saved.Done? {
        own, isSealed := WriteClose(id, roomy);
      }
      capacity := own.NoRoom?;
      AnswerClose(id, own.Done?, isSealed, before);
    }

    // Answers a close: every RAM-only result first, then its own, then the seal.
    // A close that stays incomplete says so and never blames a full reserve when
    // there was room for every cached request.
    method CompleteSeal(id: Bytes, ghost roomy: bool) returns (ghost capacity: bool)
      requires Valid() && Unwritten(State()) && closeTried && recordingClosed && uncounted == 0
      requires id in cache && cache[id].response.None? && journal.isOpen
      requires ClosingEntry(State(), id)
      requires roomy ==> Roomy(State(), journal.limits) && SmallResults(State(), dump)
      modifies this`cache, this`storageFault, this`terminalFrozen, this`outbox, this`h, this`uncounted
      modifies journal`disk, journal`used, journal`log, journal`clean, journal`fault, journal`sealed, journal.heads
      ensures Valid() && Follows(old(State()), State()) && (roomy ==> !capacity) && uncounted == 0
      ensures Unanswered(State()) == Unanswered(old(State())) - {id}
      ensures var t := TicketOf(old(State()), id);
        (HasResult(h.ledger, t, Closed) && journal.sealed) || (HasResult(h.ledger, t, CloseIncomplete) && storageFault)
      ensures roomy && journal.steady ==> HasResult(h.ledger, TicketOf(old(State()), id), Closed) && journal.sealed
      ensures h.effects == old(h.effects)
    {
      hide RequestJournal.Valid, RequestJournal.Entries, EngineCallTracker.Valid, RoundTrips, Sound, Follows, Roomy, Unanswered, Unwritten, Answer,
        HasResult, ClosingEntry, Controller.State, Controller.Fixed, Controller.Valid;
      ghost var before := State();
      CacheShown();
      var saved := SaveRamOnly(id, roomy);
      ghost var between := State();
      CacheShown();
      FlagsKeepClosing(before, between, id);
      IsUnanswered(before, id);
      IsUnanswered(between, id);
      capacity := CloseOwn(id, saved, roomy);
      FollowsTransitive(before, between, State());
    }

    // `c` is the state before the close's own result was written.
    method AnswerClose(id: Bytes, written: bool, isSealed: bool, ghost c: Core)
      requires journal.Valid() && tracker.Valid() && journal.epoch == epoch && journal.limits.reserveEntries > 0
      requires RoundTrips(dump, parse) && Shaped() && Consistent()
      requires Sound(c, Fixed()) && c.recordingClosed && c.closeTried && (isSealed ==> written)
      requires id in c.cache && c.cache[id].response.None? && Key(c.branch, id) in c.entries
      requires State() == c.(entries := if written then Answer(c.entries, Key(c.branch, id), dump(Closed)) else c.entries,
                             used := journal.used[1], storageFault := c.storageFault || !isSealed)
      modifies this`cache, this`outbox, this`h, this`uncounted
      ensures Valid() && Follows(c, State()) && uncounted == c.uncounted && Unanswered(State()) == Unanswered(c) - {id}
      ensures HasResult(h.ledger, TicketOf(c, id), if isSealed then Closed else CloseIncomplete)
      ensures h.effects == c.h.effects
    {
      hide RequestJournal.Valid, RequestJournal.Entries, EngineCallTracker.Valid, RoundTrips, Sound, Follows, Unanswered, Answer,
        CloseAnswered, Replies, Settle;
      CachedIsAdmitted(c, Fixed(), id);
      CloseAnsweredSound(c, Fixed(), id, written, isSealed, journal.used[1]);
      CloseAnsweredParts(c, Fixed(), id, written, isSealed, journal.used[1]);
      AnswerWaiters(id, if isSealed then Closed else CloseIncomplete, isSealed, CloseAnswered(c, dump, id, written, isSealed, journal.used[1]));
    }

    // ---- the engine boundary --------------------------------------------------

    predicate Healthy()
      reads this`fault, this`storageFault, journal`fault
    {
      !fault && !storageFault && !journal.fault
    }

    // Nothing of an older epoch is left.
    ghost predicate Restarted()
      reads this`tick, this`revision, this`cache, journal`log, journal`base, journal`scope
    {
      tick == 0 && revision == 0 && cache == map[] && journal.base <= |journal.log| && journal.Entries() == map[]
    }

    // A new fight: versions restart and the old epoch's requests are forgotten.
    method EnterEpoch()
      requires Valid() && AtRest() && pending.None? && !storageFault && epoch + 1 < 0x1_0000_0000_0000_0000
      modifies this`epoch, this`tick, this`revision, this`cache
      modifies journal`epoch, journal`normalCount, journal`reserveCount, journal`base, journal.heads
      ensures Valid() && AtRest() && State() == NextEpoch(old(State())) && Follows(old(State()), State())
      ensures epoch == old(epoch) + 1 && Restarted() && journal.fault == old(journal.fault)
    {
      hide RequestJournal.Valid, RequestJournal.Entries, EngineCallTracker.Valid, RoundTrips, Sound, Rest, Follows, Calm, WithinBudget, Consistent;
      RestWhole(State(), Fixed());
      NextEpochSound(State(), Fixed());
      RestParts(NextEpoch(State()), Fixed());
      epoch := epoch + 1;
      tick, revision, cache := 0, 0, map[];
      journal.Epoch(epoch);
      journal.Facts();
    }

    // The board, readiness or clock changed outside a measured update. Only a
    // measured call may end a controlled advancement as finished.
    method LoseBoundary() returns (threw: bool)
      requires Valid() && AtRest() && tracker.phase != Entered
      modifies this`pending, this`cache, this`storageFault, this`terminalFrozen, this`outbox, this`h, this`uncounted, this`fault, this`inStep
      modifies this`terminalReply, this`terminalTicket
      modifies journal`disk, journal`used, journal`log, journal`clean, journal`fault, journal.heads
      ensures inStep ==> old(inStep)
      ensures pending.None? || pending == old(pending)
      ensures Valid() && AtRest() && Follows(old(State()), State())
      ensures !threw ==> pending.None?
      ensures usesCalls && old(pending).Some? ==> fault && pending.None?
      ensures old(pending).None? ==> !threw && State() == old(State()) && terminalFrozen == old(terminalFrozen)
      ensures old(pending).None? ==> fault == old(fault) && storageFault == old(storageFault) && journal.fault == old(journal.fault)
      ensures !usesCalls && old(pending).Some? && !threw ==>
        HasResult(h.ledger, TicketOf(old(State()), old(pending.value.id)), Finished(SceneChanged, WorkOf(old(pending.value))))
      ensures old(pending).None? ==> terminalReply == old(terminalReply) && terminalTicket == old(terminalTicket)
      ensures old(terminalFrozen) ==> terminalFrozen
      ensures steady ==> !threw
    {
      hide RequestJournal.Valid, EngineCallTracker.Valid, RoundTrips, Sound, Winds, Follows, Calm, WithinBudget, Controller.State,
        Controller.Fixed, Controller.Valid, TicketOf, WorkOf, HasResult;
      ghost var before := State();
      Shown();
      threw := false;
      NothingWinds(before);
      WindsFacts(before, before);
      if pending.None? { return; }
      if usesCalls {
        threw := Audit();
        ghost var audited := State();
        NothingWinds(audited);
        if !threw { Fail(); }
        WindsTransitive(before, audited, State());
      } else {
        threw := Finish(SceneChanged);
      }
      WindsFacts(before, State());
      Shown();
    }

    // Ends what the lost boundary interrupted, then starts a new epoch; on a
    // fault the old epoch stays.
    method NewBoundary() returns (moved: bool, threw: bool)
      requires Valid() && AtRest() && tracker.phase != Entered && epoch + 1 < 0x1_0000_0000_0000_0000
      modifies this`pending, this`cache, this`storageFault, this`terminalFrozen, this`outbox, this`h, this`uncounted, this`fault, this`inStep
      modifies this`terminalReply, this`terminalTicket, this`epoch, this`tick, this`revision
      modifies journal`disk, journal`used, journal`log, journal`clean, journal`fault
      modifies journal`epoch, journal`normalCount, journal`reserveCount, journal`base, journal.heads
      ensures inStep ==> old(inStep)
      ensures pending.None? || pending == old(pending)
      ensures Valid() && AtRest() && Follows(old(State()), State()) && epoch == (if moved then old(epoch) + 1 else old(epoch))
      ensures moved ==> !threw && Healthy() && pending.None? && Restarted()
      ensures !moved ==> threw || !Healthy()
      ensures old(pending).None? && old(Healthy()) ==> moved && terminalFrozen == old(terminalFrozen)
      ensures old(pending).None? ==> terminalReply == old(terminalReply) && terminalTicket == old(terminalTicket) && storageFault == old(storageFault)
      ensures usesCalls && old(pending).Some? ==> !moved && fault && pending.None?
      ensures !usesCalls && old(pending).Some? && moved ==>
        HasResult(h.ledger, TicketOf(old(State()), old(pending.value.id)), Finished(SceneChanged, WorkOf(old(pending.value))))
      ensures old(terminalFrozen) ==> terminalFrozen
      ensures steady ==> !threw
    {
      hide RequestJournal.Valid, EngineCallTracker.Valid, RoundTrips, Sound, AtRest, Follows, RequestJournal.Entries, Controller.State,
        Controller.Fixed, Controller.Valid, NextEpoch;
      ghost var before := State();
      moved := false;
      threw := LoseBoundary();
      if threw || !Healthy() { return; }
      ghost var idle := State();
      EnterEpoch();
      FollowsTransitive(before, idle, State());
      moved := true;
    }

    // A board that was ready and is lost or replaced freezes advancement for good.
    method Transit(lostBoard: bool) returns (moved: bool, threw: bool)
      requires Valid() && AtRest() && tracker.phase != Entered && epoch + 1 < 0x1_0000_0000_0000_0000 && Healthy()
      modifies this`pending, this`cache, this`storageFault, this`terminalFrozen, this`outbox, this`h, this`uncounted, this`fault, this`inStep
      modifies this`terminalReply, this`terminalTicket, this`epoch, this`tick, this`revision
      modifies journal`disk, journal`used, journal`log, journal`clean, journal`fault
      modifies journal`epoch, journal`normalCount, journal`reserveCount, journal`base, journal.heads
      ensures inStep ==> old(inStep)
      ensures pending.None? || pending == old(pending)
      ensures Valid() && AtRest() && Follows(old(State()), State()) && epoch == (if moved then old(epoch) + 1 else old(epoch))
      ensures if moved then !threw && Healthy() && pending.None? && Restarted() else threw || !Healthy()
      ensures old(pending).None? ==> moved && terminalFrozen == (old(terminalFrozen) || lostBoard)
      ensures old(pending).None? ==> terminalReply == old(terminalReply) && terminalTicket == old(terminalTicket) && storageFault == old(storageFault)
      ensures usesCalls && old(pending).Some? ==> !moved && fault && pending.None?
      ensures !usesCalls && old(pending).Some? && moved ==>
        HasResult(h.ledger, TicketOf(old(State()), old(pending.value.id)), Finished(SceneChanged, WorkOf(old(pending.value))))
      ensures old(terminalFrozen) || lostBoard ==> terminalFrozen
      ensures steady ==> !threw
    {
      hide RequestJournal.Valid, EngineCallTracker.Valid, RoundTrips, Sound, AtRest, Follows, RequestJournal.Entries, Controller.State,
        Controller.Fixed, Controller.Valid, Controller.Healthy, TicketOf, WorkOf, HasResult, Controller.Restarted;
      if lostBoard { terminalFrozen := true; }
      moved, threw := NewBoundary();
    }

    method Remember(o: Observation)
      modifies this`initialized, this`board, this`ready, this`nativeTick
      ensures initialized && board == o.board && ready == o.ready && nativeTick == o.clock
    {
      initialized, board, ready, nativeTick := true, o.board, o.ready, o.clock;
    }

    // What the observed board, readiness and clock mean for the epoch: a transition
    // is another board, another readiness or a clock that went back.
    method Notice(o: Observation) returns (threw: bool, ghost transition: bool)
      requires Valid() && AtRest() && tracker.phase != Entered && epoch + 1 < 0x1_0000_0000_0000_0000 && Healthy()
      modifies this`pending, this`cache, this`storageFault, this`terminalFrozen, this`outbox, this`h, this`uncounted, this`fault, this`inStep
      modifies this`terminalReply, this`terminalTicket, this`epoch, this`tick, this`revision
      modifies this`initialized, this`board, this`ready, this`nativeTick
      modifies journal`disk, journal`used, journal`log, journal`clean, journal`fault
      modifies journal`epoch, journal`normalCount, journal`reserveCount, journal`base, journal.heads
      ensures inStep ==> old(inStep)
      ensures pending.None? || pending == old(pending)
      ensures Valid() && AtRest() && Follows(old(State()), State())
      ensures transition <==> old(initialized) && (o.board != old(board) || o.ready != old(ready) || (o.ready && o.clock < old(nativeTick)))
      ensures !transition ==> !threw && Healthy() && State() == old(State()) && epoch == old(epoch) && terminalFrozen == old(terminalFrozen)
      ensures threw ==> transition
      ensures transition && !threw && Healthy() ==> epoch == old(epoch) + 1 && pending.None? && Restarted()
      ensures transition && (threw || !Healthy()) ==> epoch == old(epoch)
      ensures transition && old(pending).None? ==> (!threw && Healthy() &&
        terminalFrozen == (old(terminalFrozen) || (old(ready) && (!o.ready || o.board != old(board)))))
      ensures transition && old(ready) && (!o.ready || o.board != old(board)) ==> terminalFrozen
      ensures old(pending).None? ==> terminalReply == old(terminalReply) && terminalTicket == old(terminalTicket) && storageFault == old(storageFault)
      ensures transition && usesCalls && old(pending).Some? ==> fault && pending.None?
      ensures transition && !usesCalls && old(pending).Some? && !threw && Healthy() ==>
        HasResult(h.ledger, TicketOf(old(State()), old(pending.value.id)), Finished(SceneChanged, WorkOf(old(pending.value))))
      ensures !threw && Healthy() ==> initialized && board == o.board && ready == o.ready && nativeTick == o.clock
      ensures threw ==> initialized == old(initialized) && board == old(board) && ready == old(ready) && nativeTick == old(nativeTick)
      ensures steady ==> !threw
      ensures old(terminalFrozen) ==> terminalFrozen
      ensures !transition ==> fault == old(fault)
    {
      hide RequestJournal.Valid, EngineCallTracker.Valid, RoundTrips, Sound, AtRest, Follows, RequestJournal.Entries, Controller.State,
        Controller.Fixed, Controller.Valid, Controller.Healthy, TicketOf, WorkOf, HasResult, Controller.Restarted;
      threw, transition := false, false;
      FollowsItself(State());
      if initialized && (o.board != board || o.ready != ready || (o.ready && o.clock < nativeTick)) {
        transition := true;
        var moved;
        moved, threw := Transit(ready && (!o.ready || o.board != board));
        if !moved { return; }
      }
      Remember(o);
    }

    // What the backend answers between two updates, None when it fails.
    method Observe() returns (seen: Option<Observation>)
      ensures steady ==> seen.Some?
    {
      var fails := Query();
      var o: Observation := *;
      seen := if fails then None else Some(o);
    }

    // The boundary between two updates: the epoch advances exactly when a healthy
    // controller sees a transition that interrupts no engine call. `seen` is the
    // backend's answer.
    method Boundary(seen: Option<Observation>) returns (threw: bool, ghost transition: bool)
      requires Valid() && AtRest() && tracker.phase != Entered && epoch + 1 < 0x1_0000_0000_0000_0000
      modifies this`pending, this`cache, this`storageFault, this`terminalFrozen, this`outbox, this`h, this`uncounted, this`fault, this`inStep
      modifies this`terminalReply, this`terminalTicket, this`epoch, this`tick, this`revision
      modifies this`initialized, this`board, this`ready, this`nativeTick
      modifies journal`disk, journal`used, journal`log, journal`clean, journal`fault
      modifies journal`epoch, journal`normalCount, journal`reserveCount, journal`base, journal.heads
      ensures inStep ==> old(inStep)
      ensures pending.None? || pending == old(pending)
      ensures Valid() && AtRest() && Follows(old(State()), State()) && epoch <= old(epoch) + 1
      ensures transition <==> (old(Healthy() && initialized) && seen.Some?
        && (seen.value.board != old(board) || seen.value.ready != old(ready) || (seen.value.ready && seen.value.clock < old(nativeTick))))
      ensures !transition ==> State() == old(State()) && terminalFrozen == old(terminalFrozen) && (threw <==> old(Healthy()) && seen.None?)
      ensures transition && old(pending).None? ==> (!threw && Healthy()
        && terminalFrozen == (old(terminalFrozen) || (old(ready) && (!seen.value.ready || seen.value.board != old(board)))))
      ensures transition && old(ready) && (!seen.value.ready || seen.value.board != old(board)) ==> terminalFrozen
      ensures old(pending).None? ==> terminalReply == old(terminalReply) && terminalTicket == old(terminalTicket) && storageFault == old(storageFault)
      ensures transition && usesCalls && old(pending).Some? ==> fault && pending.None?
      ensures transition && !threw && Healthy() ==> (epoch == old(epoch) + 1 && pending.None?
        && tick == 0 && revision == 0 && cache == map[] && journal.base <= |journal.log| && journal.Entries() == map[])
      ensures transition && !usesCalls && old(pending).Some? && !threw && Healthy() ==>
        HasResult(h.ledger, TicketOf(old(State()), old(pending.value.id)), Finished(SceneChanged, WorkOf(old(pending.value))))
      ensures epoch > old(epoch) ==> transition && !threw && Healthy()
      ensures old(Healthy()) && !threw && Healthy() ==> initialized && Observation(board, ready, nativeTick) == seen.value
      ensures old(!Healthy()) || threw ==> initialized == old(initialized) && Observation(board, ready, nativeTick) == old(Observation(board, ready, nativeTick))
      ensures steady && seen.Some? ==> !threw
      ensures old(terminalFrozen) ==> terminalFrozen
      ensures !transition ==> Healthy() == old(Healthy()) && fault == old(fault)
    {
      hide RequestJournal.Valid, EngineCallTracker.Valid, RoundTrips, Sound, AtRest, Follows, RequestJournal.Entries, Controller.State,
        Controller.Fixed, Controller.Valid, Controller.Healthy, TicketOf, WorkOf, HasResult;
      threw, transition := false, false;
      FollowsItself(State());
      if !Healthy() { return; }
      if seen.None? { return true, false; }
      threw, transition := Notice(seen.value);
    }

    predicate ShouldStep()
      reads this, journal, tracker
    {
      tracker.faults == 0 && Healthy() && !recordingClosed && !terminalFrozen && (!ready || pending.Some?)
    }

    method ReserveCall()
      requires Valid() && activeCall == 0 && tracker.active == 0
      modifies this`activeCall, tracker`reserved, tracker`active, tracker`phase, tracker`faults, tracker`wrongThread
      ensures Valid() && State() == old(State()) && activeCall == tracker.active
      ensures activeCall != 0 ==> tracker.phase == Prepared
      ensures activeCall == 0 ==> tracker.phase == Idle && tracker.faults != 0
      ensures old(tracker.reserved) != MAX_CALL_ID ==> activeCall == old(tracker.reserved) + 1 && tracker.faults == old(tracker.faults)
    {
      hide RequestJournal.Valid, RoundTrips, Sound, RequestJournal.Entries, Consistent;
      activeCall := tracker.Reserve(true);
    }

    // Reserves a measured call for the coming update.
    method PrepareCall(before: Readings) returns (ok: bool)
      requires Valid() && activeCall == 0 && tracker.active == 0 && tracker.phase == Idle
      modifies this`preBoard, this`preUi, this`activeCall
      modifies tracker`reserved, tracker`active, tracker`phase, tracker`faults, tracker`wrongThread
      ensures Valid() && State() == old(State()) && activeCall == tracker.active
      ensures activeCall != 0 ==> tracker.phase == Prepared && usesCalls
      ensures activeCall == 0 ==> tracker.phase == Idle
      ensures ok && usesCalls && tracker.faults == 0 ==> activeCall != 0
      ensures usesCalls ==> preBoard == before.board && preUi == before.ui
      ensures ok && usesCalls ==> before.board != 0 && before.ui == 3
      ensures steady ==> (ok <==> !usesCalls || (before.board != 0 && before.ui == 3))
    {
      hide RequestJournal.Valid, RoundTrips, Sound, RequestJournal.Entries, Controller.Valid, Controller.State;
      ok := true;
      if usesCalls {
        preBoard, preUi := before.board, before.ui;
        var unseen := Query();
        if unseen || preBoard == 0 || preUi != 3 { return false; }
        ReserveCall();
        var unread := Query();
        ok := !unread;
      }
    }

    method OpenStep(clock: int)
      modifies this`preTick, this`inStep
      ensures preTick == clock && inStep
    {
      preTick, inStep := clock, true;
    }

    method BeforeStep(before: Readings) returns (threw: bool)
      requires Valid() && AtRest() && pending.Some? && activeCall == 0 && tracker.active == 0 && tracker.phase == Idle
      modifies this`pending, this`cache, this`storageFault, this`terminalFrozen, this`outbox, this`h, this`uncounted, this`fault, this`inStep
      modifies this`preTick, this`preBoard, this`preUi, this`activeCall
      modifies journal`disk, journal`used, journal`log, journal`clean, journal`fault, journal.heads
      modifies tracker`reserved, tracker`active, tracker`phase, tracker`faults, tracker`wrongThread
      ensures Valid() && AtRest() && Follows(old(State()), State())
      ensures !threw ==> State() == old(State()) && inStep && pending == old(pending) && (usesCalls && tracker.faults == 0 ==> activeCall != 0)
      ensures activeCall == tracker.active && (activeCall != 0 ==> tracker.phase == Prepared && usesCalls)
      ensures activeCall == 0 ==> tracker.phase == Idle
      ensures !threw ==> preTick == before.clock && (usesCalls ==> preBoard == before.board != 0 && preUi == before.ui == 3)
      ensures steady ==> (threw <==> usesCalls && (before.board == 0 || before.ui != 3))
    {
      hide RequestJournal.Valid, EngineCallTracker.Valid, RoundTrips, Sound, Winds, Follows, Calm, WithinBudget, Controller.State,
        Controller.Fixed, Controller.Valid;
      NothingWinds(State());
      WindsFacts(State(), State());
      ghost var c := State();
      threw := Query();
      if threw { return; }
      OpenStep(before.clock);
      var ok := PrepareCall(before);
      if !ok { return true; }
      threw := Audit();
      WindsFacts(c, State());
    }

    // What the original update may do to the controller on its way: enter the
    // hook again or report an audit fault, any number of times.
    method Original() returns (threw: bool)
      requires Valid() && AtRest() && (tracker.phase == Entered || activeCall == 0) && (inStep ==> pending.Some?)
      modifies this`pending, this`cache, this`storageFault, this`terminalFrozen, this`outbox, this`h, this`uncounted, this`fault, this`inStep
      modifies journal`disk, journal`used, journal`log, journal`clean, journal`fault, journal.heads
      modifies tracker`faults, tracker`reentrant, tracker`wrongThread
      ensures Valid() && AtRest() && Follows(old(State()), State())
      ensures tracker.phase == Entered ==> State() == old(State()) && inStep == old(inStep) && pending == old(pending)
      ensures inStep ==> old(inStep) && pending.Some? && pending == old(pending)
      ensures old(inStep) && !inStep ==> pending.None?
      ensures old(inStep) && !inStep ==> fault
    {
      hide RequestJournal.Valid, EngineCallTracker.Valid, RoundTrips, Sound, Winds, Follows, Calm, WithinBudget, Controller.State,
        Controller.Fixed, Controller.Valid;
      ghost var before := State();
      FollowsItself(before);
      var events: int := *;
      while events > 0
        invariant Valid() && AtRest() && Follows(before, State())
        invariant tracker.phase == Entered ==> State() == before && inStep == old(inStep) && pending == old(pending)
        invariant inStep ==> old(inStep) && pending.Some? && pending == old(pending)
        invariant old(inStep) && !inStep ==> pending.None?
        invariant old(inStep) && !inStep ==> fault
      {
        events := events - 1;
        var reenters: bool := *;
        ghost var now := State();
        if reenters { Reenter(); } else { Fail(); WindsFacts(now, State()); FollowsTransitive(before, now, State()); }
      }
      threw := *;
    }

    method Reenter()
      requires Valid()
      modifies tracker`faults, tracker`reentrant, tracker`wrongThread
      ensures Valid() && State() == old(State())
      ensures tracker.faults >= old(tracker.faults)
    {
      hide RequestJournal.Valid, RoundTrips, Sound, RequestJournal.Entries;
      var onOwner: bool := *;
      var allowed := tracker.GuardEntry(onOwner);
    }

    // ---- after a measured update ----------------------------------------------

    // Only a call that entered and returned is credited to the request.
    method CreditCall()
      requires Valid() && pending.Some? && uncounted == 1 && Unanswered(State()) == PendingIds(State())
      modifies this`pending, this`uncounted
      ensures Valid() && Follows(old(State()), State()) && Calm(State()) && uncounted == 0
      ensures pending == Some(old(pending.value).(calls := old(pending.value.calls) + 1))
    {
      hide RequestJournal.Valid, EngineCallTracker.Valid, RoundTrips, Sound, Follows, RequestJournal.Entries, Calm, Unanswered, Controller.Shell;
      CreditSound(State(), Fixed());
      CreditCalms(State());
      pending, uncounted := Some(pending.value.(calls := pending.value.calls + 1)), uncounted - 1;
    }

    // The clock moved: the version advances with the ticks of the request.
    method AddTicks(delta: nat)
      requires Valid() && pending.Some? && delta > 0 && Calm(State())
      modifies this`pending, this`tick, this`revision, this`h
      ensures Valid() && State() == Tick(old(State()), delta) && Follows(old(State()), State()) && Calm(State())
      ensures pending == Some(old(pending.value).(executed := old(pending.value.executed) + delta))
      ensures tick == old(tick) + delta && revision == 0
    {
      hide RequestJournal.Valid, EngineCallTracker.Valid, RoundTrips, Sound, Follows, RequestJournal.Entries, Calm, Controller.Shell;
      TickSound(State(), Fixed(), delta);
      TickCalms(State(), delta);
      ghost var after := Tick(State(), delta);
      h, tick, revision, pending := after.h, tick + delta, 0, Some(pending.value.(executed := pending.value.executed + delta));
    }

    method NoteTerminalZero()
      requires Valid() && pending.Some? && Calm(State())
      modifies this`pending
      ensures Valid() && Follows(old(State()), State()) && Calm(State())
      ensures pending == Some(old(pending.value).(terminalZero := old(pending.value.terminalZero) + 1))
    {
      hide RequestJournal.Valid, EngineCallTracker.Valid, RoundTrips, Sound, Follows, RequestJournal.Entries, Controller.Shell;
      TweakSound(State(), Fixed(), pending.value.(terminalZero := pending.value.terminalZero + 1));
      pending := Some(pending.value.(terminalZero := pending.value.terminalZero + 1));
    }

    method CloseCall(post: bool, step: bool, zero: bool, terminalStep: bool)
      requires Valid() && activeCall == tracker.active && (activeCall != 0 ==> tracker.phase == Returned) && (activeCall == 0 ==> tracker.phase == Idle)
      modifies this`activeCall, tracker`posts, tracker`steps, tracker`zero, tracker`terminalSteps, tracker`active, tracker`phase, tracker`faults, tracker`wrongThread
      ensures Valid() && State() == old(State()) && activeCall == 0 && tracker.active == 0 && tracker.phase == Idle
      ensures tracker.faults == old(tracker.faults)
      ensures old(activeCall) != 0 ==> (tracker.posts == old(tracker.posts) + One(post) && tracker.steps == old(tracker.steps) + One(step)
        && tracker.zero == old(tracker.zero) + One(zero) && tracker.terminalSteps == old(tracker.terminalSteps) + One(terminalStep))
      ensures old(activeCall) == 0 ==> (tracker.posts == old(tracker.posts) && tracker.steps == old(tracker.steps)
        && tracker.zero == old(tracker.zero) && tracker.terminalSteps == old(tracker.terminalSteps))
    {
      hide RequestJournal.Valid, RoundTrips, Sound, RequestJournal.Entries;
      if activeCall != 0 {
        var ok := tracker.Complete(true, activeCall, post, step, zero, terminalStep);
        activeCall := 0;
      }
    }

    // No call is in flight, and the tracker holds at most the one call whose
    // return was measured.
    predicate Measured()
      reads this`activeCall, tracker
    {
      activeCall == tracker.active && tracker.phase == (if activeCall != 0 then Returned else Idle)
    }

    // A fault of the guard or of an audit surfaced while the call ran.
    method RejectCall() returns (threw: bool)
      requires Valid() && Calm(State()) && Measured()
      modifies this`pending, this`cache, this`storageFault, this`terminalFrozen, this`outbox, this`h, this`uncounted, this`fault, this`inStep
      modifies this`activeCall, tracker`posts, tracker`steps, tracker`zero, tracker`terminalSteps, tracker`active, tracker`phase, tracker`faults, tracker`wrongThread
      modifies journal`disk, journal`used, journal`log, journal`clean, journal`fault, journal.heads
      ensures inStep ==> old(inStep)
      ensures Valid() && AtRest() && Follows(old(State()), State()) && pending.None? && Measured() && (!threw ==> activeCall == 0)
      ensures tracker.posts == old(tracker.posts) && tracker.steps == old(tracker.steps)
        && tracker.zero == old(tracker.zero) && tracker.terminalSteps == old(tracker.terminalSteps)
      ensures steady ==> !threw
      ensures fault
    {
      hide RequestJournal.Valid, EngineCallTracker.Valid, RoundTrips, Sound, Follows, Winds, Calm, WithinBudget, Controller.State,
        Controller.Fixed, Controller.Valid;
      ghost var before := State();
      threw := Audit();
      ghost var audited := State();
      NothingWinds(audited);
      if !threw {
        CloseCall(false, false, false, false);
        Fail();
      }
      WindsTransitive(before, audited, State());
      WindsFacts(before, State());
    }

    // The boundary after a fight that left nothing pending.
    method Cross() returns (threw: bool)
      requires Valid() && AtRest() && tracker.phase != Entered && pending.None? && epoch + 1 < 0x1_0000_0000_0000_0000
      modifies this`pending, this`cache, this`storageFault, this`terminalFrozen, this`outbox, this`h, this`uncounted, this`fault, this`inStep
      modifies this`terminalReply, this`terminalTicket, this`epoch, this`tick, this`revision
      modifies this`initialized, this`board, this`ready, this`nativeTick
      modifies journal`disk, journal`used, journal`log, journal`clean, journal`fault
      modifies journal`epoch, journal`normalCount, journal`reserveCount, journal`base, journal.heads
      ensures Valid() && AtRest() && Follows(old(State()), State()) && epoch <= old(epoch) + 1 && pending.None? && (inStep ==> old(inStep))
      ensures terminalReply == old(terminalReply) && terminalTicket == old(terminalTicket) && storageFault == old(storageFault)
      ensures (old(terminalFrozen) ==> terminalFrozen) && (steady ==> !threw)
    {
      hide RequestJournal.Valid, EngineCallTracker.Valid, RoundTrips, Sound, AtRest, Follows, RequestJournal.Entries, Controller.State,
        Controller.Fixed, Controller.Valid, Controller.Healthy;
      ghost var transition;
      var seen := Observe();
      threw, transition := Boundary(seen);
    }

    // The fight ended: its result is delivered under the measured version before
    // the epoch moves on.
    method LeaveFight() returns (threw: bool)
      requires Valid() && Calm(State()) && Measured() && activeCall == 0 && epoch + 1 < 0x1_0000_0000_0000_0000
      requires pending.Some? && usesCalls ==> pending.value.executed <= pending.value.requested
      modifies this`pending, this`cache, this`storageFault, this`terminalFrozen, this`outbox, this`h, this`uncounted, this`fault, this`inStep
      modifies this`terminalReply, this`terminalTicket, this`epoch, this`tick, this`revision
      modifies this`initialized, this`board, this`ready, this`nativeTick
      modifies journal`disk, journal`used, journal`log, journal`clean, journal`fault
      modifies journal`epoch, journal`normalCount, journal`reserveCount, journal`base, journal.heads
      ensures inStep ==> old(inStep)
      ensures Valid() && Calm(State()) && (threw || WithinBudget(State())) && Follows(old(State()), State()) && epoch <= old(epoch) + 1
      ensures Measured() && activeCall == 0 && (!threw ==> pending.None?)
      ensures !threw && old(pending).Some? ==> Concluded(old(State()), old(pending.value), SceneChanged)
      ensures !threw && old(pending).Some? ==> old(pending.value.id in cache)
      ensures !threw && old(pending).Some? && usesCalls && !storageFault ==>
        && terminalReply == Some(TerminalReply(old(pending.value.id), old(cache[pending.value.id].payload), Finished(SceneChanged, WorkOf(old(pending.value)))))
        && terminalTicket == Ticket(old(journal.scope), old(epoch), old(pending.value.id))
      ensures steady ==> !threw
      ensures old(terminalFrozen) ==> terminalFrozen
    {
      hide RequestJournal.Valid, EngineCallTracker.Valid, RoundTrips, Sound, Follows, Winds, Calm, WithinBudget, Controller.State,
        Controller.Fixed, Controller.Valid, TicketOf, HasResult;
      ghost var before, was := State(), pending;
      threw := Finish(SceneChanged);
      WindsFacts(before, State());
      if threw { return; }
      Shown();
      ghost var done := State();
      threw := Cross();
      FollowsTransitive(before, done, State());
      if was.Some? { Keeps(done, TicketOf(before, was.value.id), Finished(SceneChanged, WorkOf(was.value))); }
    }

    // The update replaced or removed the measured board.
    method BoardLost() returns (threw: bool)
      requires Valid() && Calm(State()) && Measured() && (usesCalls <==> activeCall != 0) && epoch + 1 < 0x1_0000_0000_0000_0000
      modifies this`pending, this`cache, this`storageFault, this`terminalFrozen, this`outbox, this`h, this`uncounted, this`fault, this`inStep
      modifies this`terminalReply, this`terminalTicket, this`epoch, this`tick, this`revision
      modifies this`initialized, this`board, this`ready, this`nativeTick, this`activeCall
      modifies journal`disk, journal`used, journal`log, journal`clean, journal`fault
      modifies journal`epoch, journal`normalCount, journal`reserveCount, journal`base, journal.heads
      modifies tracker`posts, tracker`steps, tracker`zero, tracker`terminalSteps, tracker`active, tracker`phase, tracker`faults, tracker`wrongThread
      ensures inStep ==> old(inStep)
      ensures Valid() && Calm(State()) && (threw || WithinBudget(State())) && Follows(old(State()), State()) && epoch <= old(epoch) + 1
      ensures Measured() && activeCall == 0 && (!threw ==> pending.None?)
      ensures tracker.posts == old(tracker.posts) && tracker.steps == old(tracker.steps)
        && tracker.zero == old(tracker.zero) && tracker.terminalSteps == old(tracker.terminalSteps)
      ensures steady ==> !threw
      ensures !threw ==> terminalFrozen
      ensures !threw && usesCalls ==> fault
      ensures !threw && !usesCalls && old(pending).Some? ==> Concluded(old(State()), old(pending.value), SceneChanged)
    {
      hide RequestJournal.Valid, EngineCallTracker.Valid, RoundTrips, Sound, Follows, Winds, Calm, WithinBudget, Controller.State,
        Controller.Fixed, Controller.Valid, TicketOf, HasResult;
      terminalFrozen := true;
      ghost var before := State();
      var proven := activeCall != 0;
      CloseCall(false, false, false, false);
      threw := Audit();
      WindsFacts(before, State());
      if threw { return; }
      ghost var audited := State();
      if proven {
        Fail();
        WindsFacts(audited, State());
      } else {
        threw := LeaveFight();
      }
      FollowsTransitive(before, audited, State());
    }

    // How a measured update leaves the request `p`: finished for the first of these
    // reasons that holds, else still pending.
    ghost predicate Judged(a: Core, p: Pending, delta: int, terminal: bool, wave: int)
      reads this`h, this`pending
    {
      if terminal then pending.None? && Concluded(a, p, SceneChanged)
      else if delta == 0 then pending.None? && Concluded(a, p, NoGameTick)
      else if delta != 1 then pending.None? && Concluded(a, p, StepCountMismatch)
      else if p.untilWave && wave != p.startWave then pending.None? && Concluded(a, p, WaveChanged)
      else if p.executed >= p.requested then pending.None? && Concluded(a, p, BudgetExhausted)
      else pending == Some(p)
    }

    // Decides how the measured update leaves the request: still pending, or
    // finished for exactly one reason.
    method Judge(delta: int, terminal: bool, terminalZero: bool, wave: int) returns (threw: bool)
      requires Valid() && Calm(State()) && Measured() && activeCall == 0 && pending.Some? && epoch + 1 < 0x1_0000_0000_0000_0000
      requires delta == 1 || (usesCalls && terminalZero) ==> pending.value.executed <= pending.value.requested
      modifies this`pending, this`cache, this`storageFault, this`terminalFrozen, this`outbox, this`h, this`uncounted, this`fault, this`inStep
      modifies this`terminalReply, this`terminalTicket, this`epoch, this`tick, this`revision
      modifies this`initialized, this`board, this`ready, this`nativeTick
      modifies journal`disk, journal`used, journal`log, journal`clean, journal`fault
      modifies journal`epoch, journal`normalCount, journal`reserveCount, journal`base, journal.heads
      ensures inStep ==> old(inStep)
      ensures Valid() && Calm(State()) && (threw || WithinBudget(State())) && Follows(old(State()), State()) && epoch <= old(epoch) + 1
      ensures Measured() && activeCall == 0
      ensures !threw && terminal ==> pending.None? && (usesCalls && delta != 1 && !terminalZero ==> fault)
      ensures !threw && terminal && !(usesCalls && delta != 1 && !terminalZero) ==> Concluded(old(State()), old(pending.value), SceneChanged)
      ensures !threw && !terminal && delta == 0 ==> pending.None? && Concluded(old(State()), old(pending.value), NoGameTick)
      ensures !threw && !terminal && delta != 0 && delta != 1 ==> pending.None? && Concluded(old(State()), old(pending.value), StepCountMismatch)
      ensures !threw && !terminal && delta == 1 && old(pending.value.untilWave && wave != pending.value.startWave) ==>
        pending.None? && Concluded(old(State()), old(pending.value), WaveChanged)
      ensures !threw && !terminal && delta == 1 && old(!(pending.value.untilWave && wave != pending.value.startWave)) ==>
        if old(pending.value.executed >= pending.value.requested) then pending.None? && Concluded(old(State()), old(pending.value), BudgetExhausted)
        else pending == old(pending)
      ensures !threw && pending.Some? ==> !terminal && delta == 1 && pending == old(pending) && pending.value.executed < pending.value.requested
      ensures !threw && pending.Some? ==> tick == old(tick) && revision == old(revision) && epoch == old(epoch)
      ensures !threw && !fault ==> Judged(old(State()), old(pending.value), delta, terminal, wave)
      ensures !threw && usesCalls && terminal && delta != 1 && !terminalZero ==> fault
      ensures steady ==> !threw
      ensures !threw && (terminal || (usesCalls && delta != 1)) ==> terminalFrozen
      ensures !threw && !terminal && (delta == 1 || !usesCalls) && !storageFault ==> terminalFrozen == old(terminalFrozen)
      ensures !threw && pending.Some? ==> nativeTick == old(nativeTick)
    {
      hide RequestJournal.Valid, EngineCallTracker.Valid, RoundTrips, Sound, Follows, Winds, Calm, WithinBudget, Controller.State,
        Controller.Fixed, Controller.Valid, TicketOf, HasResult;
      ghost var before := State();
      FollowsItself(before);
      if terminal {
        terminalFrozen := true;
        threw := Audit();
        WindsFacts(before, State());
        if threw { return; }
        ghost var audited := State();
        if usesCalls && delta != 1 && !terminalZero {
          Fail();
          WindsFacts(audited, State());
        } else {
          threw := LeaveFight();
        }
        FollowsTransitive(before, audited, State());
        return;
      }
      threw := false;
      if delta == 1 && pending.value.untilWave { threw := Query(); }
      if threw { return; }
      var reason := if delta == 0 then Some(NoGameTick) else if delta != 1 then Some(StepCountMismatch)
        else if pending.value.untilWave && wave != pending.value.startWave then Some(WaveChanged)
        else if pending.value.executed >= pending.value.requested then Some(BudgetExhausted) else None;
      if delta != 1 && usesCalls { terminalFrozen := true; }
      if reason.Some? {
        threw := Finish(reason.value);
        WindsFacts(before, State());
      } else {
        BudgetLeft();
      }
    }

    lemma BudgetLeft()
      requires pending.Some? && pending.value.executed <= pending.value.requested
      ensures WithinBudget(State())
    {
    }

    // Drawing after a verified step may fail, and may enter the hook again.
    method Draw(draws: bool) returns (stopped: bool, threw: bool)
      requires Valid() && Calm(State()) && Measured() && pending.Some?
      modifies this`pending, this`cache, this`storageFault, this`terminalFrozen, this`outbox, this`h, this`uncounted, this`fault, this`inStep
      modifies this`activeCall, tracker`posts, tracker`steps, tracker`zero, tracker`terminalSteps, tracker`active, tracker`phase, tracker`faults, tracker`wrongThread
      modifies tracker`reentrant
      modifies journal`disk, journal`used, journal`log, journal`clean, journal`fault, journal.heads
      ensures inStep ==> old(inStep)
      ensures Valid() && Calm(State()) && Follows(old(State()), State()) && Measured()
      ensures !stopped && !threw ==> State() == old(State()) && pending == old(pending) && activeCall == old(activeCall)
      ensures stopped || threw ==> WithinBudget(State()) && (!threw ==> activeCall == 0 && pending.None?)
      ensures !draws && old(activeCall) == 0 ==> !stopped && !threw
      ensures tracker.posts == old(tracker.posts) && tracker.steps == old(tracker.steps)
        && tracker.zero == old(tracker.zero) && tracker.terminalSteps == old(tracker.terminalSteps)
      ensures stopped && !threw ==> fault
      ensures steady ==> !threw
      ensures fault == old(fault) || stopped || threw
      ensures old(activeCall) != 0 && old(tracker.faults) != 0 ==> stopped || threw
    {
      hide RequestJournal.Valid, EngineCallTracker.Valid, RoundTrips, Sound, Follows, Winds, Calm, WithinBudget, Controller.State,
        Controller.Fixed, Controller.Valid, TicketOf, HasResult;
      ghost var before := State();
      FollowsItself(before);
      var reenters: bool := *;
      if draws && reenters { Reenter(); }
      var failed: bool := *;
      stopped, threw := false, false;
      if draws && failed {
        CloseCall(false, false, false, false);
        threw := Audit();
        ghost var audited := State();
        NothingWinds(audited);
        if !threw { Fail(); }
        WindsTransitive(before, audited, State());
        WindsFacts(before, State());
        stopped := true;
      } else if activeCall != 0 && tracker.faults != 0 {
        threw := RejectCall();
        stopped := true;
      }
    }

    const MAX_TICKS: int := 100000

    // Adds what the clock moved to the version and to the request.
    method Meter(delta: int, terminalZero: bool)
      requires Valid() && Calm(State()) && pending.Some? && (terminalZero ==> delta == 0)
      modifies this`pending, this`tick, this`revision, this`h
      ensures Valid() && Calm(State()) && Follows(old(State()), State()) && pending.Some? && pending.value.requested == old(pending.value.requested)
      ensures pending.value == old(pending.value).(executed := old(pending.value.executed) + (if 0 < delta <= MAX_TICKS then delta else 0),
        terminalZero := old(pending.value.terminalZero) + One(terminalZero))
      ensures tick == old(tick) + if 0 < delta <= MAX_TICKS then delta else 0
      ensures revision == if 0 < delta <= MAX_TICKS then 0 else old(revision)
    {
      hide RequestJournal.Valid, EngineCallTracker.Valid, RoundTrips, Sound, Follows, Winds, Calm, WithinBudget, Controller.State,
        Controller.Fixed, Controller.Valid, TicketOf, HasResult;
      ghost var before := State();
      FollowsItself(before);
      if 0 < delta <= MAX_TICKS { AddTicks(delta); }
      if terminalZero { NoteTerminalZero(); }
    }

    // The request with what the clock moved, and a terminal update without a tick.
    ghost function Counted(p: Pending, seen: Readings): Pending
      reads this`preTick, this`preUi
    {
      var delta := seen.clock - preTick;
      p.(executed := p.executed + (if 0 < delta <= 100000 then delta else 0), terminalZero := p.terminalZero + One(LeftAtOnce(seen)))
    }

    // The update left the fight for the menu without a tick.
    ghost predicate LeftAtOnce(seen: Readings)
      reads this`preTick, this`preUi
    {
      usesCalls && !seen.ready && seen.clock == preTick && preUi == 3 && seen.ui == 4
    }

    // Takes over what the clock moved.
    method CountTicks(seen: Readings)
      requires Valid() && Calm(State()) && pending.Some?
      modifies this`pending, this`tick, this`revision, this`h, this`nativeTick
      ensures Valid() && Calm(State()) && Follows(old(State()), State()) && pending == Some(Counted(old(pending.value), seen)) && nativeTick == seen.clock
      ensures tick == old(tick) + if 0 < seen.clock - preTick <= MAX_TICKS then seen.clock - preTick else 0
      ensures revision == if 0 < seen.clock - preTick <= MAX_TICKS then 0 else old(revision)
      ensures TicketOf(State(), pending.value.id) == TicketOf(old(State()), pending.value.id)
    {
      hide RequestJournal.Valid, EngineCallTracker.Valid, RoundTrips, Sound, Follows, Winds, Calm, WithinBudget, Controller.State,
        Controller.Fixed, Controller.Valid, TicketOf, HasResult;
      ghost var before := State();
      CacheShown();
      Meter(seen.clock - preTick, usesCalls && !seen.ready && seen.clock == preTick && preUi == 3 && seen.ui == 4);
      nativeTick := seen.clock;
      CacheShown();
      SameTicket(before, pending.value.id);
    }

    // The board survived the update.
    method Measure(seen: Readings) returns (threw: bool)
      requires Valid() && Calm(State()) && Measured() && pending.Some? && epoch + 1 < 0x1_0000_0000_0000_0000
      requires pending.value.executed < pending.value.requested && (usesCalls <==> activeCall != 0)
      modifies this`pending, this`cache, this`storageFault, this`terminalFrozen, this`outbox, this`h, this`uncounted, this`fault, this`inStep
      modifies this`terminalReply, this`terminalTicket, this`epoch, this`tick, this`revision
      modifies this`initialized, this`board, this`ready, this`nativeTick, this`activeCall
      modifies journal`disk, journal`used, journal`log, journal`clean, journal`fault
      modifies journal`epoch, journal`normalCount, journal`reserveCount, journal`base, journal.heads
      modifies tracker`posts, tracker`steps, tracker`zero, tracker`terminalSteps, tracker`active, tracker`phase, tracker`faults, tracker`wrongThread
      modifies tracker`reentrant
      ensures inStep ==> old(inStep)
      ensures Valid() && Calm(State()) && (threw || WithinBudget(State())) && Follows(old(State()), State()) && epoch <= old(epoch) + 1
      ensures Measured() && (!threw ==> activeCall == 0)
      ensures !threw && pending.Some? ==> pending.value == old(pending.value).(executed := old(pending.value.executed) + 1)
      ensures !threw && pending.Some? ==> tick == old(tick) + 1 && revision == 0 && epoch == old(epoch)
      ensures !threw && !seen.ready && !usesCalls ==>
        var ran := if 0 < seen.clock - preTick <= MAX_TICKS then seen.clock - preTick else 0;
        var reported := old(pending.value).(executed := old(pending.value.executed) + ran);
        && pending.None? && Concluded(old(State()), reported, SceneChanged)
        && (Metered(Finished(SceneChanged, WorkOf(reported))) <==> ran <= old(pending.value.requested - pending.value.executed))
      ensures !threw && !fault ==> Judged(old(State()), Counted(old(pending.value), seen), seen.clock - preTick, !seen.ready, seen.wave)
      ensures !threw && usesCalls && !seen.ready && seen.clock - preTick != 1 && !LeftAtOnce(seen) ==> fault
      ensures steady ==> !threw
      ensures !threw && pending.Some? ==> nativeTick == seen.clock
    {
      hide Controller.Judged, RequestJournal.Valid, EngineCallTracker.Valid, RoundTrips, Sound, Follows, Winds, Calm, WithinBudget, Controller.State,
        Controller.Fixed, Controller.Valid, TicketOf, HasResult, Metered, Controller.Concluded, Controller.Measured;
      ghost var before := State();
      ghost var was := pending.value;
      CountTicks(seen);
      ghost var counted := State();
      Overshoots(pending.value);
      threw := Decide(seen.clock - preTick, !seen.ready, usesCalls && !seen.ready && seen.clock == preTick && preUi == 3 && seen.ui == 4, seen.wave);
      SameConclusion(before, counted, Counted(was, seen));
      SameJudgement(before, counted, Counted(was, seen), seen.clock - preTick, !seen.ready, seen.wave);
      FollowsTransitive(before, counted, State());
    }

    lemma Overshoots(p: Pending)
      ensures Metered(Finished(SceneChanged, WorkOf(p))) <==> p.executed <= p.requested
    {
    }

    lemma SameJudgement(a: Core, b: Core, p: Pending, delta: int, terminal: bool, wave: int)
      requires TicketOf(a, p.id) == TicketOf(b, p.id)
      ensures Judged(a, p, delta, terminal, wave) == Judged(b, p, delta, terminal, wave)
    {
    }

    lemma SameOutcome(a: Core, b: Core, p: Pending, measuredBoard: int, after: Readings)
      requires TicketOf(a, p.id) == TicketOf(b, p.id)
      ensures Stepped(a, p, measuredBoard, after) == Stepped(b, p, measuredBoard, after)
    {
      hide TicketOf, HasResult;
    }

    lemma SameConclusion(a: Core, b: Core, p: Pending)
      requires TicketOf(a, p.id) == TicketOf(b, p.id)
      ensures Concluded(a, p, SceneChanged) == Concluded(b, p, SceneChanged)
    {
    }

    // A query that fails after the clock was read, a fault noticed during the call,
    // or the ordinary course.
    method Decide(delta: int, terminal: bool, terminalZero: bool, wave: int) returns (threw: bool)
      requires Valid() && Calm(State()) && Measured() && pending.Some? && epoch + 1 < 0x1_0000_0000_0000_0000
      requires delta == 1 || terminalZero ==> pending.value.executed <= pending.value.requested
      requires usesCalls <==> activeCall != 0
      modifies this`pending, this`cache, this`storageFault, this`terminalFrozen, this`outbox, this`h, this`uncounted, this`fault, this`inStep
      modifies this`terminalReply, this`terminalTicket, this`epoch, this`tick, this`revision
      modifies this`initialized, this`board, this`ready, this`nativeTick, this`activeCall
      modifies journal`disk, journal`used, journal`log, journal`clean, journal`fault
      modifies journal`epoch, journal`normalCount, journal`reserveCount, journal`base, journal.heads
      modifies tracker`posts, tracker`steps, tracker`zero, tracker`terminalSteps, tracker`active, tracker`phase, tracker`faults, tracker`wrongThread
      modifies tracker`reentrant
      ensures inStep ==> old(inStep)
      ensures Valid() && Calm(State()) && (threw || WithinBudget(State())) && Follows(old(State()), State()) && epoch <= old(epoch) + 1
      ensures Measured() && (!threw ==> activeCall == 0)
      ensures !threw && pending.Some? ==> !terminal && delta == 1 && pending == old(pending)
      ensures !threw && pending.Some? ==> tick == old(tick) && revision == old(revision) && epoch == old(epoch)
      ensures !threw && terminal && !usesCalls ==> pending.None? && Concluded(old(State()), old(pending.value), SceneChanged)
      ensures !threw && !fault ==> Judged(old(State()), old(pending.value), delta, terminal, wave)
      ensures !threw && usesCalls && terminal && delta != 1 && !terminalZero ==> fault
      ensures steady ==> !threw
      ensures usesCalls && old(tracker.faults != 0 || fault) && !threw ==> fault
      ensures !threw && pending.Some? ==> nativeTick == old(nativeTick)
    {
      hide RequestJournal.Valid, EngineCallTracker.Valid, RoundTrips, Sound, Follows, Winds, Calm, WithinBudget, Controller.State,
        Controller.Fixed, Controller.Valid, Controller.Measured, Controller.Concluded;
      FollowsItself(State());
      threw := false;
      if usesCalls { threw := Query(); }
      if threw { return; }
      if usesCalls && (tracker.faults != 0 || fault) {
        threw := RejectCall();
      } else {
        threw := Finalize(delta, terminal, terminalZero, wave);
      }
    }

    // Draws, audits the step and closes the measured call before judging it.
    method Finalize(delta: int, terminal: bool, terminalZero: bool, wave: int) returns (threw: bool)
      requires Valid() && Calm(State()) && Measured() && pending.Some? && epoch + 1 < 0x1_0000_0000_0000_0000
      requires delta == 1 || terminalZero ==> pending.value.executed <= pending.value.requested
      modifies this`pending, this`cache, this`storageFault, this`terminalFrozen, this`outbox, this`h, this`uncounted, this`fault, this`inStep
      modifies this`terminalReply, this`terminalTicket, this`epoch, this`tick, this`revision
      modifies this`initialized, this`board, this`ready, this`nativeTick, this`activeCall
      modifies journal`disk, journal`used, journal`log, journal`clean, journal`fault
      modifies journal`epoch, journal`normalCount, journal`reserveCount, journal`base, journal.heads
      modifies tracker`posts, tracker`steps, tracker`zero, tracker`terminalSteps, tracker`active, tracker`phase, tracker`faults, tracker`wrongThread
      modifies tracker`reentrant
      ensures inStep ==> old(inStep)
      ensures Valid() && Calm(State()) && (threw || WithinBudget(State())) && Follows(old(State()), State()) && epoch <= old(epoch) + 1
      ensures Measured() && (!threw ==> activeCall == 0)
      ensures !threw && pending.Some? ==> !terminal && delta == 1 && pending == old(pending)
      ensures !threw && pending.Some? ==> tick == old(tick) && revision == old(revision) && epoch == old(epoch)
      ensures !threw && terminal && !usesCalls && old(activeCall) == 0 ==> pending.None? && Concluded(old(State()), old(pending.value), SceneChanged)
      ensures !threw && !fault ==> Judged(old(State()), old(pending.value), delta, terminal, wave)
      ensures !threw && usesCalls && terminal && delta != 1 && !terminalZero ==> fault
      ensures steady ==> !threw
      ensures !threw && pending.Some? ==> nativeTick == old(nativeTick)
    {
      hide RequestJournal.Valid, EngineCallTracker.Valid, RoundTrips, Sound, Follows, Winds, Calm, WithinBudget, Controller.State,
        Controller.Fixed, Controller.Valid, Controller.Concluded;
      var renders: bool := *;
      var stopped;
      stopped, threw := Draw(renders && delta == 1 && !terminal);
      if stopped || threw { return; }
      threw := Post(delta, terminal, terminalZero, wave);
    }

    // The step is audited and the measured call closed before the verdict.
    method Post(delta: int, terminal: bool, terminalZero: bool, wave: int) returns (threw: bool)
      requires Valid() && Calm(State()) && Measured() && pending.Some? && epoch + 1 < 0x1_0000_0000_0000_0000
      requires delta == 1 || (usesCalls && terminalZero) ==> pending.value.executed <= pending.value.requested
      modifies this`pending, this`cache, this`storageFault, this`terminalFrozen, this`outbox, this`h, this`uncounted, this`fault, this`inStep
      modifies this`terminalReply, this`terminalTicket, this`epoch, this`tick, this`revision
      modifies this`initialized, this`board, this`ready, this`nativeTick, this`activeCall
      modifies journal`disk, journal`used, journal`log, journal`clean, journal`fault
      modifies journal`epoch, journal`normalCount, journal`reserveCount, journal`base, journal.heads
      modifies tracker`posts, tracker`steps, tracker`zero, tracker`terminalSteps, tracker`active, tracker`phase, tracker`faults, tracker`wrongThread
      ensures inStep ==> old(inStep)
      ensures Valid() && Calm(State()) && (threw || WithinBudget(State())) && Follows(old(State()), State()) && epoch <= old(epoch) + 1
      ensures Measured() && (!threw ==> activeCall == 0)
      ensures old(activeCall) != 0 && activeCall == 0 ==> (tracker.posts == old(tracker.posts) + 1 && tracker.steps == old(tracker.steps) + One(delta == 1)
        && tracker.zero == old(tracker.zero) + One(terminalZero) && tracker.terminalSteps == old(tracker.terminalSteps) + One(terminal && delta == 1))
      ensures !threw && pending.Some? ==> !terminal && delta == 1 && pending == old(pending)
      ensures !threw && pending.Some? ==> tick == old(tick) && revision == old(revision) && epoch == old(epoch)
      ensures !threw && terminal && !usesCalls ==> pending.None? && Concluded(old(State()), old(pending.value), SceneChanged)
      ensures !threw && !fault ==> Judged(old(State()), old(pending.value), delta, terminal, wave)
      ensures !threw && usesCalls && terminal && delta != 1 && !terminalZero ==> fault
      ensures steady ==> !threw
      ensures !threw && pending.Some? ==> nativeTick == old(nativeTick)
    {
      hide RequestJournal.Valid, EngineCallTracker.Valid, RoundTrips, Sound, Follows, Winds, Calm, WithinBudget, Controller.State,
        Controller.Fixed, Controller.Valid, Controller.Concluded;
      ghost var before := State();
      threw := Audit();
      WindsFacts(before, State());
      if threw { return; }
      CloseCall(true, delta == 1, terminalZero, terminal && delta == 1);
      threw := Judge(delta, terminal, terminalZero, wave);
    }

    // The request with the call that carried the update.
    ghost function Credited(p: Pending): Pending {
      p.(calls := p.calls + One(usesCalls))
    }

    method AfterStep(seen: Readings) returns (threw: bool)
      requires Valid() && Measured() && epoch + 1 < 0x1_0000_0000_0000_0000
      requires inStep ==> pending.Some? && pending.value.executed < pending.value.requested && (usesCalls <==> activeCall != 0)
      requires inStep ==> Unanswered(State()) == PendingIds(State()) && uncounted == One(activeCall != 0)
      requires !inStep ==> AtRest() && activeCall == 0
      modifies this`pending, this`cache, this`storageFault, this`terminalFrozen, this`outbox, this`h, this`uncounted, this`fault, this`inStep
      modifies this`terminalReply, this`terminalTicket, this`epoch, this`tick, this`revision
      modifies this`initialized, this`board, this`ready, this`nativeTick, this`activeCall
      modifies journal`disk, journal`used, journal`log, journal`clean, journal`fault
      modifies journal`epoch, journal`normalCount, journal`reserveCount, journal`base, journal.heads
      modifies tracker`posts, tracker`steps, tracker`zero, tracker`terminalSteps, tracker`active, tracker`phase, tracker`faults, tracker`wrongThread
      modifies tracker`reentrant
      ensures !inStep
      ensures Valid() && Idles(State()) && uncounted <= 1 && Follows(old(State()), State()) && epoch <= old(epoch) + 1
      ensures !threw ==> Calm(State()) && WithinBudget(State())
      ensures Measured() && (!threw ==> activeCall == 0)
      ensures !old(inStep) ==> pending == old(pending)
      ensures !threw && old(inStep) && pending.Some? ==> pending.value == old(pending.value).(executed := old(pending.value.executed) + 1,
        calls := old(pending.value.calls) + One(usesCalls))
      ensures !threw && old(inStep) && pending.Some? ==> tick == old(tick) + 1 && revision == 0 && epoch == old(epoch)
      ensures !threw && !fault && old(inStep) ==> Stepped(old(State()), Credited(old(pending.value)), if old(activeCall) != 0 then preBoard else old(board), seen)
      ensures !old(inStep) ==> fault == old(fault)
      ensures (!threw && old(inStep) && usesCalls && !Replaced(if old(activeCall) != 0 then preBoard else old(board), seen)
        && !seen.ready && seen.clock - preTick != 1 && !LeftAtOnce(seen)) ==> fault
      ensures steady ==> !threw
    {
      hide Controller.Stepped, RequestJournal.Valid, EngineCallTracker.Valid, RoundTrips, Sound, Follows, Winds, Calm, WithinBudget, Controller.State,
        Controller.Fixed, Controller.Valid, TicketOf, HasResult;
      FollowsItself(State());
      threw := false;
      CacheShown();
      if !inStep { return; }
      inStep := false;
      threw := Query();
      if threw { return; }
      threw := InspectCredited(seen);
      CacheShown();
    }

    // Credits the call that carried the update, then looks at what it did.
    method InspectCredited(seen: Readings) returns (threw: bool)
      requires Valid() && Measured() && epoch + 1 < 0x1_0000_0000_0000_0000 && !inStep
      requires pending.Some? && pending.value.executed < pending.value.requested && (usesCalls <==> activeCall != 0)
      requires Unanswered(State()) == PendingIds(State()) && uncounted == One(activeCall != 0)
      modifies this`pending, this`cache, this`storageFault, this`terminalFrozen, this`outbox, this`h, this`uncounted, this`fault, this`inStep
      modifies this`terminalReply, this`terminalTicket, this`epoch, this`tick, this`revision
      modifies this`initialized, this`board, this`ready, this`nativeTick, this`activeCall
      modifies journal`disk, journal`used, journal`log, journal`clean, journal`fault
      modifies journal`epoch, journal`normalCount, journal`reserveCount, journal`base, journal.heads
      modifies tracker`posts, tracker`steps, tracker`zero, tracker`terminalSteps, tracker`active, tracker`phase, tracker`faults, tracker`wrongThread
      modifies tracker`reentrant
      ensures !inStep
      ensures Valid() && Calm(State()) && (threw || WithinBudget(State())) && Follows(old(State()), State()) && epoch <= old(epoch) + 1
      ensures Measured() && (!threw ==> activeCall == 0)
      ensures !threw && pending.Some? ==> pending.value == old(pending.value).(executed := old(pending.value.executed) + 1,
        calls := old(pending.value.calls) + One(usesCalls))
      ensures !threw && pending.Some? ==> tick == old(tick) + 1 && revision == 0 && epoch == old(epoch)
      ensures !threw && !fault ==> Stepped(old(State()), Credited(old(pending.value)), if old(activeCall) != 0 then preBoard else old(board), seen)
      ensures (!threw && usesCalls && !Replaced(if old(activeCall) != 0 then preBoard else old(board), seen)
        && !seen.ready && seen.clock - preTick != 1 && !LeftAtOnce(seen)) ==> fault
      ensures steady ==> !threw
    {
      hide Controller.Stepped, RequestJournal.Valid, EngineCallTracker.Valid, RoundTrips, Sound, Follows, Winds, Calm, WithinBudget,
        Controller.State, Controller.Fixed, Controller.Valid, TicketOf, HasResult, Unanswered, PendingIds;
      ghost var before := State();
      ghost var was, proven, seenBoard := pending.value, activeCall != 0, board;
      CacheShown();
      CreditAny();
      ghost var credited := State();
      CacheShown();
      SameTicket(before, was.id);
      threw := Inspect(seen);
      SameOutcome(before, credited, Credited(was), if proven then preBoard else seenBoard, seen);
      FollowsTransitive(before, credited, State());
    }

    method CreditAny()
      requires Valid() && pending.Some? && Unanswered(State()) == PendingIds(State()) && uncounted == One(activeCall != 0)
      modifies this`pending, this`uncounted
      ensures Valid() && Follows(old(State()), State()) && Calm(State()) && uncounted == 0
      ensures pending == Some(old(pending.value).(calls := old(pending.value.calls) + One(activeCall != 0)))
    {
      hide RequestJournal.Valid, EngineCallTracker.Valid, RoundTrips, Sound, Follows, Calm, Unanswered, PendingIds, Controller.State,
        Controller.Valid;
      FollowsItself(State());
      if activeCall != 0 { CreditCall(); } else { CalmAlready(); }
    }

    // The measured board is gone: nothing of the update can be measured.
    ghost predicate Replaced(measuredBoard: int, seen: Readings) {
      measuredBoard == 0 || seen.board != measuredBoard
    }

    // What one controlled update makes of the request `p`, by the readings after it:
    // a replaced board ends it unmeasured, else the clock and the scene decide.
    ghost predicate Stepped(a: Core, p: Pending, measuredBoard: int, after: Readings)
      reads this`h, this`pending, this`preTick, this`preUi
    {
      if Replaced(measuredBoard, after) then !usesCalls && pending.None? && Concluded(a, p, SceneChanged)
      else Judged(a, Counted(p, after), after.clock - preTick, !after.ready, after.wave)
    }

    // The board decides whether the credited update can be measured at all.
    method Inspect(seen: Readings) returns (threw: bool)
      requires Valid() && Calm(State()) && Measured() && pending.Some? && epoch + 1 < 0x1_0000_0000_0000_0000 && !inStep
      requires pending.value.executed < pending.value.requested && (usesCalls <==> activeCall != 0)
      modifies this`pending, this`cache, this`storageFault, this`terminalFrozen, this`outbox, this`h, this`uncounted, this`fault, this`inStep
      modifies this`terminalReply, this`terminalTicket, this`epoch, this`tick, this`revision
      modifies this`initialized, this`board, this`ready, this`nativeTick, this`activeCall
      modifies journal`disk, journal`used, journal`log, journal`clean, journal`fault
      modifies journal`epoch, journal`normalCount, journal`reserveCount, journal`base, journal.heads
      modifies tracker`posts, tracker`steps, tracker`zero, tracker`terminalSteps, tracker`active, tracker`phase, tracker`faults, tracker`wrongThread
      modifies tracker`reentrant
      ensures !inStep
      ensures Valid() && Calm(State()) && (threw || WithinBudget(State())) && Follows(old(State()), State()) && epoch <= old(epoch) + 1
      ensures Measured() && (!threw ==> activeCall == 0)
      ensures !threw && pending.Some? ==> pending.value == old(pending.value).(executed := old(pending.value.executed) + 1)
      ensures !threw && pending.Some? ==> tick == old(tick) + 1 && revision == 0 && epoch == old(epoch)
      ensures !threw && !fault ==> Stepped(old(State()), old(pending.value), if old(activeCall) != 0 then preBoard else old(board), seen)
      ensures !threw && usesCalls && !Replaced(if old(activeCall) != 0 then preBoard else old(board), seen) && !seen.ready && seen.clock - preTick != 1 && !LeftAtOnce(seen) ==> fault
      ensures steady ==> !threw
    {
      hide Controller.Judged, Controller.Counted, RequestJournal.Valid, EngineCallTracker.Valid, RoundTrips, Sound, Follows, Winds, Calm, WithinBudget, Controller.State,
        Controller.Fixed, Controller.Valid, TicketOf, HasResult, Controller.Concluded;
      FollowsItself(State());
      var measuredBoard := if activeCall != 0 then preBoard else board;
      threw := Query();
      if threw { return; }
      if measuredBoard == 0 || seen.board != measuredBoard {
        threw := BoardLost();
      } else {
        threw := Measure(seen);
      }
    }

    // Any query of the backend may fail.
    method Query() returns (failed: bool)
      ensures steady ==> !failed
    {
      var fails: bool := *;
      failed := fails && !steady;
    }

    lemma CalmAlready()
      requires Unanswered(State()) == PendingIds(State()) && uncounted == 0
      ensures Calm(State())
    {
    }

    // ---- the engine frame -----------------------------------------------------

    // No engine call and no step is under way.
    predicate Quiet()
      reads this`activeCall, this`inStep, tracker
    {
      activeCall == 0 && !inStep && tracker.active == 0 && tracker.phase == Idle
    }

    method Guard(onOwner: bool) returns (allowed: bool)
      requires Valid()
      modifies tracker`faults, tracker`reentrant, tracker`wrongThread
      ensures Valid() && State() == old(State())
      ensures allowed <==> onOwner && tracker.active == 0
      ensures allowed ==> tracker.faults == old(tracker.faults)
    {
      hide RequestJournal.Valid, RoundTrips, Sound, RequestJournal.Entries;
      allowed := tracker.GuardEntry(onOwner);
    }

    method EnterCall()
      requires Valid() && activeCall == tracker.active && (activeCall != 0 ==> tracker.phase == Prepared)
      modifies tracker`entered, tracker`phase, tracker`faults, tracker`wrongThread
      ensures Valid() && State() == old(State()) && tracker.phase == (if activeCall != 0 then Entered else old(tracker.phase))
      ensures tracker.faults == old(tracker.faults)
    {
      hide RequestJournal.Valid, RoundTrips, Sound, RequestJournal.Entries;
      if activeCall != 0 { var ok := tracker.Enter(true, activeCall); }
    }

    method ReturnCall()
      requires Valid() && AtRest() && activeCall == tracker.active && (activeCall != 0 ==> tracker.phase == Entered)
      modifies tracker`returned, tracker`phase, tracker`faults, tracker`wrongThread, this`uncounted
      ensures Valid() && Follows(old(State()), State()) && Unanswered(State()) == PendingIds(State()) && uncounted == One(activeCall != 0)
      ensures tracker.phase == (if activeCall != 0 then EngineCalls.Returned else old(tracker.phase))
      ensures activeCall == 0 ==> AtRest()
    {
      hide RequestJournal.Valid, RoundTrips, Sound, Follows, RequestJournal.Entries;
      FollowsItself(State());
      if activeCall != 0 {
        ReturnedSound(State(), Fixed());
        var ok := tracker.Return(true, activeCall);
        uncounted := uncounted + 1;
      }
    }

    // A call that did not return is aborted; a measured return stays measured.
    method AbortCall()
      requires Valid() && activeCall == tracker.active
      modifies this`activeCall, tracker`aborted, tracker`faults, tracker`active, tracker`phase, tracker`wrongThread
      ensures Valid() && State() == old(State()) && activeCall == 0 && tracker.active == 0 && tracker.phase == Idle
    {
      hide RequestJournal.Valid, RoundTrips, Sound, RequestJournal.Entries;
      if activeCall != 0 {
        var ok := tracker.Abort(true, activeCall);
        activeCall := 0;
      }
    }

    // The call that returned was never credited and never will be.
    method LoseCall()
      requires Valid() && Idles(State()) && WithinBudget(State()) && fault && lost + uncounted <= 1
      modifies this`lost, this`uncounted
      ensures Valid() && AtRest() && State() == Lose(old(State())) && Follows(old(State()), State()) && lost == old(lost + uncounted)
    {
      hide RequestJournal.Valid, EngineCallTracker.Valid, RoundTrips, Sound, Follows, RequestJournal.Entries, Idles, Calm, WithinBudget;
      LoseSound(State(), Fixed());
      lost, uncounted := lost + uncounted, 0;
    }

    // Any exception in the frame aborts the call and freezes the controller.
    method Interrupt()
      requires Valid() && Idles(State()) && activeCall == tracker.active && lost + uncounted <= 1
      modifies this`pending, this`cache, this`storageFault, this`terminalFrozen, this`outbox, this`h, this`uncounted, this`fault, this`inStep
      modifies this`activeCall, this`wrapperActive, this`lost, tracker`aborted, tracker`faults, tracker`active, tracker`phase, tracker`wrongThread
      modifies journal`disk, journal`used, journal`log, journal`clean, journal`fault, journal.heads
      ensures Valid() && AtRest() && Follows(old(State()), State()) && Quiet() && fault && terminalFrozen && pending.None?
      ensures lost == old(lost + uncounted)
    {
      hide RequestJournal.Valid, EngineCallTracker.Valid, RoundTrips, Sound, Follows, Winds, Calm, WithinBudget, Controller.State,
        Controller.Fixed, Controller.Valid, TicketOf, HasResult;
      ghost var before := State();
      CacheShown();
      AbortCall();
      wrapperActive := false;
      Fail();
      ghost var failed := State();
      CacheShown();
      WindsFacts(before, failed);
      LoseCall();
      FollowsTransitive(before, failed, State());
    }

    // The original update between the two scalar guards.
    method Update() returns (threw: bool)
      requires Valid() && AtRest() && inStep && pending.Some? && pending.value.executed < pending.value.requested
      requires activeCall == tracker.active && (usesCalls <==> activeCall != 0) && tracker.phase == (if activeCall != 0 then Prepared else Idle)
      modifies this`pending, this`cache, this`storageFault, this`terminalFrozen, this`outbox, this`h, this`uncounted, this`fault, this`inStep
      modifies this`activeCall, tracker
      modifies journal`disk, journal`used, journal`log, journal`clean, journal`fault, journal.heads
      ensures Valid() && Follows(old(State()), State()) && Measured()
      ensures threw ==> Calm(State())
      ensures !threw && inStep ==> pending.Some? && pending.value.executed < pending.value.requested && (usesCalls <==> activeCall != 0)
      ensures !threw && inStep ==> Unanswered(State()) == PendingIds(State()) && uncounted == One(activeCall != 0)
      ensures !threw && !inStep ==> AtRest() && activeCall == 0
      ensures !threw ==> if inStep then pending == old(pending) else pending.None?
      ensures old(inStep) && !threw && !inStep ==> fault
    {
      hide RequestJournal.Valid, EngineCallTracker.Valid, RoundTrips, Sound, Follows, Winds, Calm, WithinBudget, Controller.State,
        Controller.Fixed, Controller.Valid, TicketOf, HasResult;
      hide Unanswered, PendingIds;
      ghost var before := State();
      EnterCall();
      threw := Original();
      ghost var after := State();
      if threw {
        AbortCall();
        return;
      }
      ReturnCall();
      FollowsTransitive(before, after, State());
    }

    // What comes before a controlled update; any fault up to here stops it.
    method OpenUpdate(before: Readings) returns (threw: bool)
      requires Valid() && AtRest() && Quiet() && pending.Some?
      modifies this`pending, this`cache, this`storageFault, this`terminalFrozen, this`outbox, this`h, this`uncounted, this`fault, this`inStep
      modifies this`preTick, this`preBoard, this`preUi, this`activeCall, this`wrapperActive
      modifies journal`disk, journal`used, journal`log, journal`clean, journal`fault, journal.heads
      modifies tracker`reserved, tracker`active, tracker`phase, tracker`faults, tracker`wrongThread
      ensures Valid() && Idles(State()) && uncounted == 0 && Follows(old(State()), State())
      ensures activeCall == tracker.active && tracker.phase != Entered && (activeCall == 0 ==> tracker.phase == Idle)
      ensures !threw ==> State() == old(State()) && AtRest() && inStep && pending == old(pending)
      ensures !threw ==> (usesCalls <==> activeCall != 0) && tracker.phase == (if activeCall != 0 then Prepared else Idle)
      ensures !threw ==> preTick == before.clock && (usesCalls ==> preBoard == before.board != 0 && preUi == before.ui == 3)
    {
      hide RequestJournal.Valid, EngineCallTracker.Valid, RoundTrips, Sound, Winds, Follows, Calm, WithinBudget, Controller.State,
        Controller.Fixed, Controller.Valid, Controller.AtRest, Idles;
      wrapperActive := true;
      threw := BeforeStep(before);
      CacheShown();
      threw := threw || tracker.faults != 0;
    }

    // One controlled update of a pending request.
    method Step(before: Readings, after: Readings) returns (threw: bool)
      requires Valid() && AtRest() && Quiet() && pending.Some? && pending.value.executed < pending.value.requested
      requires epoch + 1 < 0x1_0000_0000_0000_0000
      modifies this`pending, this`cache, this`storageFault, this`terminalFrozen, this`outbox, this`h, this`uncounted, this`fault, this`inStep
      modifies this`terminalReply, this`terminalTicket, this`epoch, this`tick, this`revision
      modifies this`initialized, this`board, this`ready, this`nativeTick, this`activeCall, this`wrapperActive
      modifies this`preTick, this`preBoard, this`preUi, tracker
      modifies journal`disk, journal`used, journal`log, journal`clean, journal`fault
      modifies journal`epoch, journal`normalCount, journal`reserveCount, journal`base, journal.heads
      ensures Valid() && Idles(State()) && uncounted <= 1 && Follows(old(State()), State())
      ensures threw || (Calm(State()) && WithinBudget(State()) && Quiet())
      ensures activeCall == tracker.active && tracker.phase != Entered && (activeCall == 0 ==> tracker.phase == Idle) && epoch <= old(epoch) + 1
      ensures !threw && pending.Some? ==> pending.value == old(pending.value).(executed := old(pending.value.executed) + 1,
        calls := old(pending.value.calls) + One(usesCalls))
      ensures !threw && pending.Some? ==> tick == old(tick) + 1 && revision == 0 && epoch == old(epoch)
      ensures !threw ==> preTick == before.clock && (usesCalls ==> preBoard == before.board != 0 && preUi == before.ui == 3)
      ensures !threw && !fault ==> Stepped(old(State()), Credited(old(pending.value)), if usesCalls then preBoard else old(board), after)
    {
      hide Controller.Stepped, RequestJournal.Valid, EngineCallTracker.Valid, RoundTrips, Sound, Follows, Winds, Calm, WithinBudget, Controller.State,
        Controller.Fixed, Controller.Valid, TicketOf, HasResult;
      hide Unanswered, PendingIds, Idles, Controller.Healthy, Controller.Concluded, RequestJournal.Entries;
      ghost var c := State();
      threw := OpenUpdate(before);
      if threw { return; }
      ghost var entered := State();
      threw := RunUpdate(after);
      FollowsTransitive(c, entered, State());
    }

    // The update and what is measured of it.
    method RunUpdate(after: Readings) returns (threw: bool)
      requires Valid() && AtRest() && inStep && pending.Some? && pending.value.executed < pending.value.requested
      requires activeCall == tracker.active && (usesCalls <==> activeCall != 0) && tracker.phase == (if activeCall != 0 then Prepared else Idle)
      requires epoch + 1 < 0x1_0000_0000_0000_0000
      modifies this`pending, this`cache, this`storageFault, this`terminalFrozen, this`outbox, this`h, this`uncounted, this`fault, this`inStep
      modifies this`terminalReply, this`terminalTicket, this`epoch, this`tick, this`revision
      modifies this`initialized, this`board, this`ready, this`nativeTick, this`activeCall, tracker
      modifies journal`disk, journal`used, journal`log, journal`clean, journal`fault
      modifies journal`epoch, journal`normalCount, journal`reserveCount, journal`base, journal.heads
      ensures Valid() && Idles(State()) && uncounted <= 1 && Follows(old(State()), State())
      ensures threw || (Calm(State()) && WithinBudget(State()) && Quiet())
      ensures activeCall == tracker.active && tracker.phase != Entered && (activeCall == 0 ==> tracker.phase == Idle) && epoch <= old(epoch) + 1
      ensures !threw && pending.Some? ==> pending.value == old(pending.value).(executed := old(pending.value.executed) + 1,
        calls := old(pending.value.calls) + One(usesCalls))
      ensures !threw && pending.Some? ==> tick == old(tick) + 1 && revision == 0 && epoch == old(epoch)
      ensures !threw && !fault ==> Stepped(old(State()), Credited(old(pending.value)), if usesCalls then preBoard else old(board), after)
    {
      hide Controller.Stepped, RequestJournal.Valid, EngineCallTracker.Valid, RoundTrips, Sound, Follows, Winds, Calm, WithinBudget, Controller.State,
        Controller.Fixed, Controller.Valid, TicketOf, HasResult, Unanswered, PendingIds, Controller.Concluded, Controller.Healthy;
      hide RequestJournal.Entries;
      ghost var before, was, seenBoard := State(), pending.value, board;
      CacheShown();
      threw := Update();
      CacheShown();
      if threw { return; }
      ghost var updated := State();
      SameTicket(before, was.id);
      threw := AfterStep(after);
      SameOutcome(before, updated, Credited(was), if usesCalls then preBoard else seenBoard, after);
      FollowsTransitive(before, updated, State());
    }

    // The update the controller allows now: a free one outside a fight, a
    // controlled one for a pending request with budget left, or none.
    method Proceed(before: Readings, after: Readings) returns (ran: bool, threw: bool)
      requires Valid() && AtRest() && Quiet() && epoch + 1 < 0x1_0000_0000_0000_0000
      modifies this`pending, this`cache, this`storageFault, this`terminalFrozen, this`outbox, this`h, this`uncounted, this`fault, this`inStep
      modifies this`terminalReply, this`terminalTicket, this`epoch, this`tick, this`revision
      modifies this`initialized, this`board, this`ready, this`nativeTick, this`activeCall, this`wrapperActive
      modifies this`preTick, this`preBoard, this`preUi, tracker
      modifies journal`disk, journal`used, journal`log, journal`clean, journal`fault
      modifies journal`epoch, journal`normalCount, journal`reserveCount, journal`base, journal.heads
      ensures Valid() && Idles(State()) && lost + uncounted <= 1 && (threw || (AtRest() && Quiet())) && Follows(old(State()), State())
      ensures activeCall == tracker.active && tracker.phase != Entered && epoch <= old(epoch) + 1
      ensures ran || threw ==> old(ShouldStep())
      ensures threw ==> !ran
      ensures ran && old(ready) && pending.Some? ==> pending.value == old(pending.value).(executed := old(pending.value.executed) + 1,
        calls := old(pending.value.calls) + One(usesCalls))
      ensures ran && old(ready) && pending.Some? ==> tick == old(tick) + 1 && revision == 0 && epoch == old(epoch)
      ensures !old(ShouldStep()) ==> !ran && !threw && State() == old(State()) && fault == old(fault)
      ensures old(ShouldStep() && ready && pending.value.executed >= pending.value.requested) ==> threw
      ensures ran && old(ready) ==> preTick == before.clock && (usesCalls ==> preBoard == before.board != 0 && preUi == before.ui == 3)
      ensures ran && old(ready) && !fault ==> Stepped(old(State()), Credited(old(pending.value)), if usesCalls then preBoard else old(board), after)
      ensures ran <==> old(ShouldStep()) && !threw
    {
      hide Controller.Stepped, RequestJournal.Valid, EngineCallTracker.Valid, RoundTrips, Sound, Follows, Winds, Calm, WithinBudget, Controller.State,
        Controller.Fixed, Controller.Valid, TicketOf, HasResult;
      FollowsItself(State());
      CacheShown();
      LostOnce();
      ran, threw := false, false;
      if !ShouldStep() { return; }
      if !ready {
        threw := Original();
        CacheShown();
      } else if pending.value.executed >= pending.value.requested {
        threw := true;
      } else {
        threw := Step(before, after);
      }
      ran := !threw;
    }

    lemma LostOnce()
      requires Valid()
      ensures lost <= 1 && (!fault ==> lost == 0)
    {
    }

    // The entry guard and the boundary check come before any update.
    method CheckEntry(onOwner: bool, seen: Option<Observation>) returns (go: bool, threw: bool)
      requires Valid() && AtRest() && Quiet() && epoch + 2 < 0x1_0000_0000_0000_0000
      modifies this`pending, this`cache, this`storageFault, this`terminalFrozen, this`outbox, this`h, this`uncounted, this`fault, this`inStep
      modifies this`terminalReply, this`terminalTicket, this`epoch, this`tick, this`revision
      modifies this`initialized, this`board, this`ready, this`nativeTick, this`activeCall, this`wrapperActive
      modifies this`preTick, this`preBoard, this`preUi, tracker
      modifies journal`disk, journal`used, journal`log, journal`clean, journal`fault
      modifies journal`epoch, journal`normalCount, journal`reserveCount, journal`base, journal.heads
      ensures Valid() && AtRest() && Quiet() && Follows(old(State()), State()) && epoch <= old(epoch) + 1
      ensures go <==> onOwner
      ensures !onOwner || old(tracker.faults != 0) || old(!Healthy()) ==> State() == old(State()) && fault == old(fault) && terminalFrozen == old(terminalFrozen)
      ensures !onOwner ==> !threw
      ensures onOwner && old(tracker.faults != 0) ==> threw
      ensures onOwner && old(tracker.faults == 0) ==> tracker.faults == 0 && (old(!Healthy()) ==> !threw && !Healthy())
      ensures !threw && onOwner && Healthy() ==> seen.Some? && initialized && Observation(board, ready, nativeTick) == seen.value
    {
      hide RequestJournal.Valid, EngineCallTracker.Valid, RoundTrips, Sound, Follows, Winds, Calm, WithinBudget, Controller.State,
        Controller.Fixed, Controller.Valid, TicketOf, HasResult;
      FollowsItself(State());
      threw := false;
      go := Guard(onOwner);
      if !go { return; }
      threw := tracker.faults != 0;
      if !threw {
        ghost var transition;
        threw, transition := Boundary(seen);
      }
    }

    // One frame up to its end or its first exception.
    method TryFrame(f: Frame) returns (ran: bool, threw: bool)
      requires Valid() && AtRest() && Quiet() && epoch + 2 < 0x1_0000_0000_0000_0000
      modifies this`pending, this`cache, this`storageFault, this`terminalFrozen, this`outbox, this`h, this`uncounted, this`fault, this`inStep
      modifies this`terminalReply, this`terminalTicket, this`epoch, this`tick, this`revision
      modifies this`initialized, this`board, this`ready, this`nativeTick, this`activeCall, this`wrapperActive
      modifies this`preTick, this`preBoard, this`preUi, tracker
      modifies journal`disk, journal`used, journal`log, journal`clean, journal`fault
      modifies journal`epoch, journal`normalCount, journal`reserveCount, journal`base, journal.heads
      ensures Valid() && Idles(State()) && lost + uncounted <= 1 && Follows(old(State()), State()) && epoch <= old(epoch) + 2
      ensures activeCall == tracker.active && tracker.phase != Entered
      ensures threw || (AtRest() && Quiet())
      ensures threw ==> !ran
      ensures !f.onOwner || old(tracker.faults != 0) || old(!Healthy()) ==> !ran && State() == old(State()) && fault == old(fault)
      ensures !f.onOwner ==> !threw
      ensures f.onOwner && old(tracker.faults != 0) ==> threw
      ensures f.onOwner && old(tracker.faults == 0 && !Healthy()) ==> !threw
    {
      hide RequestJournal.Valid, EngineCallTracker.Valid, RoundTrips, Sound, Follows, Winds, Calm, WithinBudget, Controller.State,
        Controller.Fixed, Controller.Valid, TicketOf, HasResult, Idles, Controller.AtRest;
      ghost var before := State();
      var go;
      go, threw := CheckEntry(f.onOwner, f.boundary);
      ran := false;
      ghost var checked := State();
      FollowsItself(checked);
      CacheShown();
      LostOnce();
      if go && !threw { ran, threw := Proceed(f.before, f.after); }
      CacheShown();
      FollowsTransitive(before, checked, State());
    }

    // The hook around every engine update.
    method RunEngineFrame(f: Frame) returns (ran: bool)
      requires Valid() && AtRest() && Quiet() && epoch + 2 < 0x1_0000_0000_0000_0000
      modifies this`pending, this`cache, this`storageFault, this`terminalFrozen, this`outbox, this`h, this`uncounted, this`fault, this`inStep
      modifies this`terminalReply, this`terminalTicket, this`epoch, this`tick, this`revision
      modifies this`initialized, this`board, this`ready, this`nativeTick, this`activeCall, this`wrapperActive
      modifies this`preTick, this`preBoard, this`preUi, this`lost, tracker
      modifies journal`disk, journal`used, journal`log, journal`clean, journal`fault
      modifies journal`epoch, journal`normalCount, journal`reserveCount, journal`base, journal.heads
      ensures Valid() && AtRest() && Quiet() && Follows(old(State()), State()) && epoch <= old(epoch) + 2
      ensures lost == old(lost) || (lost == 1 && !ran && fault)
      ensures !f.onOwner ==> !ran && State() == old(State()) && fault == old(fault)
      ensures f.onOwner && old(tracker.faults != 0) ==> !ran && fault && terminalFrozen && pending.None?
      ensures f.onOwner && old(tracker.faults == 0 && !Healthy()) ==> !ran && State() == old(State()) && fault == old(fault)
    {
      hide RequestJournal.Valid, EngineCallTracker.Valid, RoundTrips, Sound, Follows, Winds, Calm, WithinBudget, Controller.State,
        Controller.Fixed, Controller.Valid, TicketOf, HasResult, Idles, Controller.AtRest;
      ghost var before := State();
      var threw;
      ran, threw := TryFrame(f);
      ghost var stepped := State();
      if threw {
        Interrupt();
        FollowsTransitive(before, stepped, State());
      }
      wrapperActive := false;
    }

    // ---- requests -------------------------------------------------------------

    method Say(caller: nat, r: Response, ghost t: Ticket, ghost canonical: Bytes)
      requires Valid() && Truthful(Delivery(caller, t, canonical, r), h.ledger)
      modifies this`outbox, this`h
      ensures Valid() && State() == Reply(old(State()), Delivery(caller, t, canonical, r)) && Follows(old(State()), State())
      ensures outbox == old(outbox) + [(caller, r)] && h.attempts == old(h.attempts) && h.effects == old(h.effects)
      ensures old(AtRest()) ==> AtRest()
    {
      hide RequestJournal.Valid, EngineCallTracker.Valid, RoundTrips, Sound, Follows, RequestJournal.Entries, Truthful, Controller.Shell;
      ReplySound(State(), Fixed(), Delivery(caller, t, canonical, r));
      ReplyCalms(State(), Delivery(caller, t, canonical, r));
      outbox, h := outbox + [(caller, r)], h.(deliveries := h.deliveries + [Delivery(caller, t, canonical, r)]);
    }

    method Refuse(req: Request, why: Refusal)
      requires Valid() && AtRest()
      modifies this`outbox, this`h
      ensures Valid() && AtRest() && Follows(old(State()), State()) && outbox == old(outbox) + [(req.caller, Rejected(why))]
      ensures h.ledger == old(h.ledger) && h.attempts == old(h.attempts) && h.effects == old(h.effects)
    {
      hide RequestJournal.Valid, EngineCallTracker.Valid, RoundTrips, Sound, Follows, Calm, WithinBudget, RequestJournal.Entries;
      Say(req.caller, Rejected(why), TicketOf(State(), req.id), req.canonical);
    }

    method JoinWaiters(req: Request)
      requires Valid() && AtRest() && req.id in cache && cache[req.id].response.None?
      modifies this`cache
      ensures Valid() && AtRest() && State() == Wait(old(State()), req.id, req.caller) && Follows(old(State()), State())
    {
      hide RequestJournal.Valid, EngineCallTracker.Valid, RoundTrips, Sound, Follows, RequestJournal.Entries, Controller.Shell;
      WaitSound(State(), Fixed(), req.id, req.caller);
      WaitCalms(State(), req.id, req.caller);
      cache := cache[req.id := cache[req.id].(waiters := cache[req.id].waiters + [req.caller])];
    }

    // A repeated request as RAM knows it: the terminal reply or a hot entry.
    method AnswerFromRam(req: Request) returns (handled: bool)
      requires Valid() && AtRest()
      modifies this`cache, this`outbox, this`h
      ensures h.attempts == old(h.attempts) && h.effects == old(h.effects)
      ensures Valid() && AtRest() && Follows(old(State()), State())
      ensures !handled ==> State() == old(State()) && req.id !in cache && !(terminalReply.Some? && terminalReply.value.id == req.id)
      ensures !handled ==> Gate(req) == old(Gate(req)) && outbox == old(outbox)
      ensures handled ==> !VerdictOn(old(State()), req.id, req.canonical).Fresh?
      ensures handled ==> Honoured(old(State()), State(), VerdictOn(old(State()), req.id, req.canonical), req.id, req.caller)
    {
      hide RequestJournal.Valid, EngineCallTracker.Valid, RoundTrips, Sound, Follows, Calm, WithinBudget, RequestJournal.Entries, VerdictOn;
      handled := true;
      ghost var c, s := State(), Fixed();
      FollowsItself(c);
      if terminalReply.Some? && terminalReply.value.id == req.id {
        TerminalVerdict(c, req.id, req.canonical);
        VerdictIsTruthful(c, s, req.id, req.canonical, req.caller);
        Say(req.caller, if terminalReply.value.canonical == req.canonical then terminalReply.value.response else Rejected(Conflict),
            terminalTicket, req.canonical);
      } else if req.id in cache {
        RamVerdict(c, s, req.id, req.canonical);
        if cache[req.id].payload != req.canonical {
          Refuse(req, Conflict);
        } else if cache[req.id].response.Some? {
          VerdictIsTruthful(c, s, req.id, req.canonical, req.caller);
          Say(req.caller, cache[req.id].response.value, TicketOf(c, req.id), req.canonical);
        } else {
          JoinWaiters(req);
        }
      } else {
        handled := false;
      }
    }

    // A journal error answers with the failure, unless ending the pending
    // advancement throws first.
    method LoseJournal(req: Request)
      requires Valid() && AtRest() && Quiet()
      modifies this`pending, this`cache, this`storageFault, this`terminalFrozen, this`outbox, this`h, this`uncounted, this`fault, this`inStep
      modifies this`terminalReply, this`terminalTicket
      modifies journal`disk, journal`used, journal`log, journal`clean, journal`fault, journal.heads
      ensures h.attempts == old(h.attempts) && h.effects == old(h.effects)
      ensures Valid() && AtRest() && Quiet() && Follows(old(State()), State()) && storageFault
      ensures pending.None? || pending == old(pending)
      ensures steady ==> outbox != [] && outbox[|outbox| - 1] == (req.caller, Rejected(StorageUnavailable))
    {
      hide RequestJournal.Valid, EngineCallTracker.Valid, RoundTrips, Sound, Follows, Winds, Calm, WithinBudget, RequestJournal.Entries,
        Controller.State, Controller.Fixed, Controller.Valid;
      ghost var before := State();
      Shown();
      var threw := StorageFail();
      WindsFacts(before, State());
      Shown();
      ghost var failed := State();
      FollowsItself(failed);
      if !threw { Refuse(req, StorageUnavailable); }
      FollowsTransitive(before, failed, State());
    }

    method FindIn(id: Bytes) returns (r: Option<Lookup>)
      requires Valid()
      modifies journal`fault
      ensures Valid() && State() == old(State()) && journal.base <= |journal.log|
      ensures r.Some? ==> journal.fault == old(journal.fault) && r.value == LookupIn(journal.log[journal.base..], id, journal.scope)
      ensures journal.steady ==> r.Some?
      ensures r.Some? ==>
        var k := Key(journal.scope, id);
        && (r.value.hit.Some? <==> k in journal.Entries())
        && (r.value.hit.Some? ==> r.value.hit.value == Found(journal.Entries()[k].token, journal.Entries()[k].payload, journal.Entries()[k].response))
      ensures r.Some? ==>
        var f := r.value.foreign;
        && (f.Some? ==> f.value.branch != journal.scope && Key(f.value.branch, id) in journal.Entries()
                        && journal.Entries()[Key(f.value.branch, id)].payload == f.value.payload)
        && (f.None? ==> forall other: Bytes :: other != journal.scope ==> Key(other, id) !in journal.Entries())
    {
      hide RequestJournal.Valid, EngineCallTracker.Valid, RoundTrips, Sound, RequestJournal.Entries, LookupIn;
      journal.LookupFacts(id);
      journal.ForeignFacts(id);
      r := journal.Find(id);
    }

    // A repeated request as the journal knows it, and a same-id request of
    // another branch with different content.
    method AnswerFromJournal(req: Request) returns (handled: bool, ghost lost: bool)
      requires Valid() && AtRest() && Quiet()
      requires req.id !in cache && !(terminalReply.Some? && terminalReply.value.id == req.id)
      modifies this`pending, this`cache, this`storageFault, this`terminalFrozen, this`outbox, this`h, this`uncounted, this`fault, this`inStep
      modifies this`terminalReply, this`terminalTicket
      modifies journal`disk, journal`used, journal`log, journal`clean, journal`fault, journal.heads
      ensures h.attempts == old(h.attempts) && h.effects == old(h.effects)
      ensures Valid() && AtRest() && Quiet() && Follows(old(State()), State())
      ensures lost ==> handled && storageFault && !journal.steady
      ensures !handled ==> Writable() == old(Writable())
      ensures !handled ==> State() == old(State()) && VerdictOn(old(State()), req.id, req.canonical).Fresh?
      ensures !handled ==> Gate(req) == old(Gate(req)) && outbox == old(outbox)
      ensures handled && !lost && !VerdictOn(old(State()), req.id, req.canonical).Fresh? ==>
        Honoured(old(State()), State(), VerdictOn(old(State()), req.id, req.canonical), req.id, req.caller)
      ensures handled && !lost && VerdictOn(old(State()), req.id, req.canonical).Fresh? ==>
        outbox == old(outbox) + [(req.caller, Rejected(CrossBranchConflict))] && ClashesElsewhere(old(State()), req.id, req.canonical)
      ensures !handled && ClashesElsewhere(old(State()), req.id, req.canonical) ==> MatchesElsewhere(old(State()), req.id, req.canonical)
      ensures pending.None? || pending == old(pending)
      ensures !handled ==> Ticket(old(journal.scope), old(epoch), req.id) !in old(h.ledger)
      ensures !lost && Ticket(old(journal.scope), old(epoch), req.id) in old(h.ledger) ==>
        (var was := old(h.ledger)[Ticket(old(journal.scope), old(epoch), req.id)];
         was.result.Some? && outbox == old(outbox) + [(req.caller, if was.payload != req.canonical then Rejected(Conflict) else was.result.value)])
    {
      hide RequestJournal.Valid, EngineCallTracker.Valid, RoundTrips, Sound, Follows, Winds, Calm, WithinBudget, RequestJournal.Entries, LookupIn,
        ClashesElsewhere, MatchesElsewhere;
      ghost var c, s := State(), Fixed();
      FollowsItself(c);
      JournalVerdict(c, s, req.id, req.canonical);
      var found := FindIn(req.id);
      if found.Some? {
        ForeignDecides(c, s, req.id, req.canonical, if found.value.foreign.Some? then Some(found.value.foreign.value.branch) else None);
      }
      handled, lost := true, found.None?;
      if found.None? {
        LoseJournal(req);
      } else if found.value.hit.Some? {
        AnswerHit(req, found.value.hit.value);
      } else if found.value.foreign.Some? && found.value.foreign.value.payload != req.canonical {
        Refuse(req, CrossBranchConflict);
      } else {
        handled := false;
      }
    }

    method AnswerHit(req: Request, hit: Found)
      requires Valid() && AtRest() && req.id !in cache && !(terminalReply.Some? && terminalReply.value.id == req.id)
      requires Key(journal.scope, req.id) in State().entries
      requires var e := State().entries[Key(journal.scope, req.id)]; hit == Found(e.token, e.payload, e.response)
      modifies this`outbox, this`h
      ensures h.attempts == old(h.attempts) && h.effects == old(h.effects)
      ensures Valid() && AtRest() && Follows(old(State()), State())
      ensures Honoured(old(State()), State(), VerdictOn(old(State()), req.id, req.canonical), req.id, req.caller)
      ensures Ticket(journal.scope, epoch, req.id) in old(h.ledger)
      ensures var was := old(h.ledger)[Ticket(journal.scope, epoch, req.id)];
        was.result.Some? && outbox == old(outbox) + [(req.caller, if was.payload != req.canonical then Rejected(Conflict) else was.result.value)]
    {
      hide RequestJournal.Valid, EngineCallTracker.Valid, Sound, Follows, Winds, Calm, WithinBudget, RequestJournal.Entries;
      ghost var c, s := State(), Fixed();
      JournalVerdict(c, s, req.id, req.canonical);
      if hit.payload != req.canonical {
        Refuse(req, Conflict);
      } else if hit.response.Some? {
        VerdictIsTruthful(c, s, req.id, req.canonical, req.caller);
        Say(req.caller, parse(hit.response.value), TicketOf(c, req.id), req.canonical);
      } else {
        assert false;
      }
    }

    // ---- admission ------------------------------------------------------------

    predicate IsControl(k: Kind) {
      k.Pause? || k.Cancel? || k.StopRecording?
    }

    // Why a request that was never seen before is not admitted.
    function Gate(req: Request): Option<Refusal>
      reads this`fault, this`storageFault, journal`fault, this`recordingClosed, this`pending, this`cache, this`epoch, this`tick, this`revision
    {
      var control := IsControl(req.kind);
      if fault && !control then Some(Faulted)
      else if (storageFault || journal.fault) && !control then Some(StorageUnavailable)
      else if recordingClosed then Some(AlreadyClosed)
      else if (!(req.kind.Pause? || req.kind.Cancel?) || req.stated.Some?) && req.stated != Some(Version(epoch, tick, revision)) then Some(Stale)
      else if control && |req.canonical| > 4096 then Some(Oversized)
      else if req.kind.StopRecording? && pending.Some? then Some(CloseWhilePending)
      else if control && !req.kind.StopRecording? && exists id :: id in cache && cache[id].response.Some? then Some(StorageUnavailable)
      else None
    }

    // The order of refusals: what is frozen first, with a way left for controls;
    // then a finished recording, a stale version, and what a control may not do.
    lemma GateOrder(req: Request)
      ensures var control := req.kind == Pause || req.kind == Cancel || req.kind == StopRecording;
        var stale := (req.kind != Pause && req.kind != Cancel && req.stated != Some(Version(epoch, tick, revision)))
          || (req.stated.Some? && req.stated.value != Version(epoch, tick, revision));
        var unsaved := exists id :: id in cache && cache[id].response.Some?;
        && (fault && !control ==> Gate(req) == Some(Faulted))
        && (!fault && (storageFault || journal.fault) && !control ==> Gate(req) == Some(StorageUnavailable))
        && ((control || Healthy()) && recordingClosed ==> Gate(req) == Some(AlreadyClosed))
        && ((control || Healthy()) && !recordingClosed && stale ==> Gate(req) == Some(Stale))
        && ((control || Healthy()) && !recordingClosed && !stale && !control ==> Gate(req) == None)
        && (control && !recordingClosed && !stale && |req.canonical| > 4096 ==> Gate(req) == Some(Oversized))
        && (control && !recordingClosed && !stale && |req.canonical| <= 4096 ==>
              (Gate(req) == Some(CloseWhilePending) <==> req.kind == StopRecording && pending.Some?)
              && (Gate(req) == Some(StorageUnavailable) <==> req.kind != StopRecording && unsaved)
              && (Gate(req) == None <==> if req.kind == StopRecording then pending.None? else !unsaved))
    {
    }

    // Asks the journal for a slot; only a granted one changes anything.
    method AskJournal(req: Request) returns (r: Reserved)
      requires Valid() && Key(journal.scope, req.id) !in State().entries
      modifies journal`disk, journal`used, journal`log, journal`clean, journal`fault, journal`isOpen, journal`normalCount, journal`reserveCount
      modifies journal.heads
      ensures Shell() && Shaped()
      ensures !r.Admitted? ==> State() == old(State())
      ensures r.Admitted? ==> journal.isOpen && State() == old(State()).(used := journal.used[1], reserveCount := journal.reserveCount,
        entries := old(State()).entries[Key(journal.scope, req.id) := Entry(r.token, req.canonical, None, req.kind.StopRecording?)])
      ensures (journal.used[1] == old(journal.used[1]) && journal.reserveCount == old(journal.reserveCount))
        || (IsControl(req.kind) && journal.used[1] == old(journal.used[1]) + RecordSize(journal.scope, req.id, req.canonical)
            && journal.used[1] <= ByteLimit(journal.limits, 1, req.kind.StopRecording?)
            && journal.reserveCount + (if req.kind.StopRecording? then 0 else 1) <= journal.limits.reserveEntries)
      ensures IsControl(req.kind) && r.OverCapacity? ==>
        |req.id| == 0 || |req.id| > MAX_ID || |req.canonical| > MAX_BODY
        || old(journal.reserveCount) + (if req.kind.StopRecording? then 1 else 2) > journal.limits.reserveEntries
        || old(journal.used[1]) + RecordSize(journal.scope, req.id, req.canonical) > ByteLimit(journal.limits, 1, req.kind.StopRecording?)
      ensures old(Writable()) && IsControl(req.kind) && !journal.sealed && journal.limits == DEFAULT_LIMITS ==> !r.Unavailable?
    {
      hide RequestJournal.Valid, EngineCallTracker.Valid, RoundTrips, Sound, RequestJournal.Entries, RecordSize, ByteLimit;
      journal.Facts();
      r := journal.Reserve(req.id, req.canonical, IsControl(req.kind), req.kind.StopRecording?);
      journal.Facts();
    }

    // The journal is or can be opened, and no disk operation fails.
    predicate Writable()
      reads journal`steady, journal`isOpen, journal`fault
    {
      journal.steady && (journal.isOpen || !journal.fault)
    }

    method RecordAdmission(req: Request, token: nat, ghost c: Core, ghost used: nat, ghost reserveCount: nat)
      requires Shell() && Shaped()
      requires var after := Admit(c.(used := used, reserveCount := reserveCount), req.id, req.canonical, token, req.kind.StopRecording?, req.caller);
        && Sound(after, Fixed())
        && State() == c.(used := used, reserveCount := reserveCount, entries := after.entries)
      modifies this`cache, this`h, this`closeTried
      ensures Valid()
      ensures State() == Admit(c.(used := used, reserveCount := reserveCount), req.id, req.canonical, token, req.kind.StopRecording?, req.caller)
    {
      hide RequestJournal.Valid, EngineCallTracker.Valid, RoundTrips, Sound, RequestJournal.Entries, WithAdmission, Controller.Shell;
      h := WithAdmission(h, TicketOf(c, req.id), req.canonical);
      cache := cache[req.id := Cached(req.canonical, None, [req.caller], token)];
      closeTried := closeTried || req.kind.StopRecording?;
    }

    // The first close of a run with the default limits.
    ghost predicate FirstClose(tried: bool, req: Request) {
      !tried && req.kind.StopRecording? && journal.limits == DEFAULT_LIMITS
    }

    // A first close in fair weather: nothing fails and every result fits a record.
    ghost predicate FairClose(req: Request)
      reads this, journal, tracker`returned
    {
      FirstClose(closeTried, req) && steady && Writable() && SmallResults(State(), dump)
    }

    // The journal admits the request before anything of it runs.
    method Reserve(req: Request) returns (r: Reserved)
      requires Valid() && AtRest() && VerdictOn(State(), req.id, req.canonical).Fresh? && Gate(req).None?
      requires 0 < |req.id| <= MAX_ID
      modifies journal`disk, journal`used, journal`log, journal`clean, journal`fault, journal`isOpen, journal`normalCount, journal`reserveCount
      modifies journal.heads, this`cache, this`h, this`closeTried
      ensures Valid() && Follows(old(State()), State())
      ensures !r.Admitted? ==> State() == old(State())
      ensures r.Admitted? ==> journal.isOpen && State() == Admit(old(State()).(used := journal.used[1], reserveCount := journal.reserveCount),
        req.id, req.canonical, r.token, req.kind.StopRecording?, req.caller)
      ensures r.Admitted? ==> TakenOn(old(State()), State(), req.id, req.kind.StopRecording?)
      ensures FirstClose(old(closeTried), req) ==> !r.OverCapacity? && (r.Admitted? ==> Roomy(State(), journal.limits))
      ensures FirstClose(old(closeTried), req) && old(Writable()) ==> r.Admitted?
      ensures r.Admitted? && SmallResults(old(State()), dump) ==> SmallResults(State(), dump)
      ensures h.effects == old(h.effects)
    {
      hide RequestJournal.Valid, EngineCallTracker.Valid, RoundTrips, Sound, RequestJournal.Entries, RecordSize, ByteLimit, VerdictOn, Follows, Roomy,
        Calm, WithinBudget, Admit, TakenOn, SmallResults, Controller.Shell;
      ShellShaped();
      ghost var c, s := State(), Fixed();
      FollowsItself(c);
      FreshIsAbsent(c, s, req.id, req.canonical);
      journal.Facts();
      r := AskJournal(req);
      ghost var used, count := journal.used[1], journal.reserveCount;
      if FirstClose(c.closeTried, req) { FirstCloseFits(c, s, req.id, req.canonical, if r.Admitted? then r.token else 0, req.caller, used, count); }
      if r.Admitted? {
        if !c.closeTried && !req.kind.StopRecording? { RoomInRam(c, s); AdmissionFits(c, s, IsControl(req.kind), used, count); }
        AdmitSound(c, s, req.id, req.canonical, r.token, req.kind.StopRecording?, req.caller, used, count);
        AdmitParts(c.(used := used, reserveCount := count), req.id, req.canonical, r.token, req.kind.StopRecording?, req.caller);
        if SmallResults(c, dump) { AdmittedSmall(c, dump, req.id, req.canonical, r.token, req.kind.StopRecording?, req.caller, used, count); }
        AdmissionServes(c, s, used, count, req.id, req.canonical, r.token, req.kind.StopRecording?, req.caller);
        RecordAdmission(req, r.token, c, used, count);
      }
    }

    // ---- carrying out an admitted request ---------------------------------------

    // What was done since is only what `e` says.
    ghost predicate OnlyDid(before: seq<Effect>, e: Effect)
      reads this`h
    {
      forall x :: x in h.effects ==> x in before || x == e
    }

    // Answers the request being served with a plain response.
    method Respond(req: Request, response: Response) returns (threw: bool)
      requires Valid() && Quiet() && Serving(State(), req.id) && CallsOf(response) == 0 && Metered(response)
      modifies this`pending, this`cache, this`storageFault, this`terminalFrozen, this`outbox, this`h, this`uncounted, this`fault, this`inStep
      modifies this`terminalReply, this`terminalTicket
      modifies journal`disk, journal`used, journal`log, journal`clean, journal`fault, journal.heads
      ensures Valid() && Quiet() && AtRest() && Follows(old(State()), State())
      ensures HasResult(h.ledger, TicketOf(old(State()), req.id), response) && (old(pending).None? ==> pending.None?)
      ensures pending.None? || pending == old(pending)
      ensures h.attempts == old(h.attempts) && h.effects == old(h.effects)
      ensures (old(fault) ==> fault) && (old(terminalFrozen) ==> terminalFrozen)
      ensures !storageFault ==> terminalFrozen == old(terminalFrozen)
      ensures steady ==> !threw
    {
      hide RequestJournal.Valid, EngineCallTracker.Valid, RoundTrips, Sound, Follows, Winds, Calm, Controller.State,
        Controller.Valid, TicketOf, HasResult, Settles, ControllerState.Answers, CallsOf, Metered;
      ghost var before := State();
      ServingSettles(before, Fixed(), req.id, response);
      Shown();
      threw := Complete(req.id, response);
      ServedCalms(before, State(), req.id);
      Shown();
    }

    // Pause and cancel end the pending advancement first.
    method Control(req: Request) returns (threw: bool)
      requires Valid() && Quiet() && Serving(State(), req.id) && (req.kind.Pause? || req.kind.Cancel?)
      modifies this`pending, this`cache, this`storageFault, this`terminalFrozen, this`outbox, this`h, this`uncounted, this`fault, this`inStep
      modifies this`terminalReply, this`terminalTicket
      modifies journal`disk, journal`used, journal`log, journal`clean, journal`fault, journal.heads
      ensures Valid() && Quiet() && Follows(old(State()), State())
      ensures pending.None? || pending == old(pending)
      ensures AtRest() || (threw && Serving(State(), req.id))
      ensures !threw ==> pending.None? && HasResult(h.ledger, TicketOf(old(State()), req.id), Controlled)
      ensures !threw && old(pending).Some? ==> HasResult(h.ledger, TicketOf(old(State()), old(pending.value.id)),
        Finished(if req.kind.Cancel? then Cancelled else Paused, WorkOf(old(pending.value))))
      ensures h.effects == old(h.effects)
    {
      hide RequestJournal.Valid, EngineCallTracker.Valid, RoundTrips, Sound, Follows, Winds, Calm, WithinBudget, Controller.State,
        Controller.Fixed, Controller.Valid, HasResult, Unanswered, PendingIds;
      ghost var before := State();
      Shown();
      threw := Stop(if req.kind.Cancel? then Cancelled else Paused);
      ServingWinds(before, State(), req.id);
      WindsFacts(before, State());
      Shown();
      if threw { return; }
      var unseen := Query();
      if unseen { return true; }
      ghost var stopped := State();
      threw := Respond(req, Controlled);
      FollowsTransitive(before, stopped, State());
      ghost var was := old(pending);
      if was.Some? {
        Keeps(stopped, TicketOf(before, was.value.id), Finished(if req.kind.Cancel? then Cancelled else Paused, WorkOf(was.value)));
      }
    }

    lemma SameTicket(earlier: Core, id: Bytes)
      requires earlier.branch == State().branch && earlier.now.epoch == State().now.epoch
      ensures TicketOf(State(), id) == TicketOf(earlier, id)
    {
    }

    // A recorded result is still there in any later state.
    lemma Keeps(earlier: Core, t: Ticket, r: Response)
      requires Follows(earlier, State())
      ensures HasResult(earlier.h.ledger, t, r) ==> HasResult(h.ledger, t, r)
    {
      hide Grows;
      if HasResult(earlier.h.ledger, t, r) { ResultKept(earlier, State(), t, r); }
    }

    // Ends the pending advancement, if there is one.
    method Stop(reason: Reason) returns (threw: bool)
      requires Valid() && Quiet() && WithinBudget(State()) && (reason == Paused || reason == Cancelled || reason == RuntimeShutdown)
      modifies this`pending, this`cache, this`storageFault, this`terminalFrozen, this`outbox, this`h, this`uncounted, this`fault, this`inStep
      modifies this`terminalReply, this`terminalTicket
      modifies journal`disk, journal`used, journal`log, journal`clean, journal`fault, journal.heads
      ensures pending.None? || pending == old(pending)
      ensures Valid() && Quiet() && Winds(old(State()), State()) && (!threw ==> pending.None?)
      ensures !threw && old(pending).Some? ==>
        HasResult(h.ledger, TicketOf(old(State()), old(pending.value.id)), Finished(reason, WorkOf(old(pending.value))))
    {
      hide RequestJournal.Valid, EngineCallTracker.Valid, RoundTrips, Sound, Follows, Winds, Controller.Fixed, Controller.Valid, TicketOf, HasResult;
      threw := Finish(reason);
    }

    method MarkClosed(id: Bytes)
      requires Valid() && Serving(State(), id) && pending.None? && !recordingClosed
      modifies this`recordingClosed
      ensures Valid() && recordingClosed && State() == old(State()).(recordingClosed := true) && Follows(old(State()), State()) && State().pending.None?
      ensures Unwritten(State()) && Serving(State(), id) && id in cache && cache[id].response.None? && uncounted == 0
      ensures old(Roomy(State(), journal.limits)) ==> Roomy(State(), journal.limits)
    {
      hide RequestJournal.Valid, EngineCallTracker.Valid, RoundTrips, Sound, Follows, Unwritten, Unanswered, Roomy, RequestJournal.Entries;
      ClosedServes(State(), Fixed(), id);
      IsUnanswered(State(), id);
      recordingClosed := true;
    }

    // Closes the recording, then answers. Only a fault of the audit or of the
    // backend leaves the close request unanswered for now.
    method Close(req: Request, ghost roomy: bool) returns (threw: bool, ghost capacity: bool)
      requires Valid() && Quiet() && Serving(State(), req.id) && pending.None? && closeTried && journal.isOpen && !recordingClosed
      requires ClosingEntry(State(), req.id)
      requires roomy ==> Roomy(State(), journal.limits) && SmallResults(State(), dump)
      modifies this`pending, this`cache, this`storageFault, this`terminalFrozen, this`outbox, this`h, this`uncounted, this`fault, this`inStep
      modifies this`recordingClosed, journal`sealed
      modifies journal`disk, journal`used, journal`log, journal`clean, journal`fault, journal.heads
      ensures Valid() && Quiet() && Follows(old(State()), State()) && pending.None?
      ensures if threw then Serving(State(), req.id) else AtRest()
      ensures roomy ==> !capacity
      ensures !threw ==> recordingClosed
      ensures !threw ==>
        var t := TicketOf(old(State()), req.id);
        (HasResult(h.ledger, t, Closed) && journal.sealed) || (HasResult(h.ledger, t, CloseIncomplete) && storageFault)
      ensures roomy && steady && journal.steady ==> !threw && HasResult(h.ledger, TicketOf(old(State()), req.id), Closed) && journal.sealed
      ensures h.effects == old(h.effects)
    {
      hide RequestJournal.Valid, EngineCallTracker.Valid, RoundTrips, Sound, Follows, Winds, HasResult, Unanswered, Roomy, Unwritten,
        Controller.Valid, Controller.State, Controller.Fixed, Calm, WithinBudget, Serving, TicketOf, PendingIds, ClosingEntry;
      ghost var before := State();
      capacity := false;
      threw := AnnounceClose(req.id);
      if threw { return; }
      ghost var announced := State();
      MarkClosed(req.id);
      var unseen := Query();
      if unseen { return true, false; }
      MarkedParts(announced, req.id);
      ghost var closed := State();
      capacity := CompleteSeal(req.id, roomy);
      FollowsTransitive(before, closed, State());
      SealedCalms(closed, req.id);
    }

    lemma MarkedParts(c: Core, id: Bytes)
      ensures TicketOf(c.(recordingClosed := true), id) == TicketOf(c, id)
      ensures ClosingEntry(c, id) ==> ClosingEntry(c.(recordingClosed := true), id)
      ensures SmallResults(c, dump) ==> SmallResults(c.(recordingClosed := true), dump)
    {
    }

    lemma SealedCalms(closed: Core, id: Bytes)
      requires Serving(closed, id) && closed.pending.None? && pending.None? && uncounted == 0
      requires Unanswered(State()) == Unanswered(closed) - {id}
      ensures AtRest()
    {
      hide Serving, Unanswered, Calm, WithinBudget;
      ClosedCalms(closed, State(), id);
    }

    // The audit events of a close, and the backend's own close: any may throw.
    method AnnounceClose(id: Bytes) returns (threw: bool)
      requires Valid() && Quiet() && Serving(State(), id) && pending.None?
      modifies this`pending, this`cache, this`storageFault, this`terminalFrozen, this`outbox, this`h, this`uncounted, this`fault, this`inStep
      modifies journal`disk, journal`used, journal`log, journal`clean, journal`fault, journal.heads
      ensures Valid() && Quiet() && Serving(State(), id) && Follows(old(State()), State()) && pending.None?
      ensures !threw ==> State() == old(State())
      ensures steady ==> !threw
      ensures h.effects == old(h.effects)
    {
      hide RequestJournal.Valid, EngineCallTracker.Valid, RoundTrips, Sound, Follows, Winds, Controller.Valid, Controller.State, Controller.Fixed,
        Calm, WithinBudget, Serving;
      ghost var before := State();
      Shown();
      threw := Audit();
      if !threw && usesCalls { threw := Audit(); }
      ServingWinds(before, State(), id);
      WindsFacts(before, State());
      Shown();
      if !threw {
        var failed: bool := *;
        threw := failed && !steady;
      }
    }

    // Every write attempt outside an advancement moves the version.
    method BumpRevision(id: Bytes)
      requires Valid() && Serving(State(), id) && pending.None?
      modifies this`revision, this`h
      ensures Valid() && Serving(State(), id) && Follows(old(State()), State()) && revision == old(revision) + 1
      ensures TicketOf(State(), id) == TicketOf(old(State()), id)
      ensures h.effects == old(h.effects) + [Effect(TicketOf(old(State()), id), old(Now()))]
    {
      hide RequestJournal.Valid, EngineCallTracker.Valid, RoundTrips, Sound, Follows, Serving, RequestJournal.Entries, Controller.Shell;
      ServingIsCached(State(), id);
      ConfigureSound(State(), Fixed(), id);
      ConfigureServes(State(), id);
      h := Configure(State(), id).h;
      revision := revision + 1;
    }

    // Initialization, random state, clocks, anchors and warm drawing: the backend
    // throws, refuses, fails part-way, or applies the change.
    method Setup(req: Request) returns (threw: bool)
      requires Valid() && Quiet() && Serving(State(), req.id) && pending.None? && req.kind.Prepare?
      modifies this`pending, this`cache, this`storageFault, this`terminalFrozen, this`outbox, this`h, this`uncounted, this`fault, this`inStep
      modifies this`terminalReply, this`terminalTicket
      modifies journal`disk, journal`used, journal`log, journal`clean, journal`fault, journal.heads
      modifies this`revision
      ensures Valid() && Quiet() && Follows(old(State()), State()) && pending.None? && old(revision) <= revision <= old(revision) + 1
      ensures AtRest() || (threw && Serving(State(), req.id))
      ensures !threw ==>
        || (revision == old(revision) + 1 && HasResult(h.ledger, TicketOf(old(State()), req.id), Configured))
        || HasResult(h.ledger, TicketOf(old(State()), req.id), ConfigureFailed)
      ensures OnlyDid(old(h.effects), Effect(TicketOf(old(State()), req.id), old(Now())))
    {
      hide RequestJournal.Valid, EngineCallTracker.Valid, RoundTrips, Sound, Follows, Winds, Calm, WithinBudget, Controller.State,
        Controller.Fixed, Controller.Valid, TicketOf, HasResult, Serving;
      ghost var before := State();
      var thrown: bool, refused: bool, failed: bool := *, *, *;
      FollowsItself(before);
      if thrown { return true; }
      if refused {
        threw := Respond(req, ConfigureFailed);
        return;
      }
      BumpRevision(req.id);
      ghost var bumped := State();
      SameTicket(bumped, req.id);
      threw := Applied(req, failed);
      FollowsTransitive(before, bumped, State());
    }

    // A failed change of the engine freezes the run; a good one may unfreeze it.
    method NoteOutcome(failed: bool, unfreezes: bool)
      requires Valid() && Quiet() && pending.None?
      modifies this`pending, this`cache, this`storageFault, this`terminalFrozen, this`outbox, this`h, this`uncounted, this`fault, this`inStep
      modifies journal`disk, journal`used, journal`log, journal`clean, journal`fault, journal.heads
      ensures Valid() && Quiet() && pending.None? && Winds(old(State()), State())
      ensures if failed then fault && terminalFrozen else State() == old(State()) && terminalFrozen == (old(terminalFrozen) && !unfreezes)
      ensures !failed ==> fault == old(fault) && journal.fault == old(journal.fault)
    {
      hide RequestJournal.Valid, EngineCallTracker.Valid, RoundTrips, Sound, Follows, Winds, Controller.State, Controller.Fixed, Controller.Valid;
      NothingWinds(State());
      if failed { Fail(); } else if unfreezes { terminalFrozen := false; }
    }

    // The change was attempted: it may have failed part-way, and it is audited.
    method Applied(req: Request, failed: bool) returns (threw: bool)
      requires Valid() && Quiet() && Serving(State(), req.id) && pending.None? && req.kind.Prepare?
      modifies this`pending, this`cache, this`storageFault, this`terminalFrozen, this`outbox, this`h, this`uncounted, this`fault, this`inStep
      modifies this`terminalReply, this`terminalTicket
      modifies journal`disk, journal`used, journal`log, journal`clean, journal`fault, journal.heads
      ensures Valid() && Quiet() && Follows(old(State()), State()) && pending.None?
      ensures AtRest() || (threw && Serving(State(), req.id))
      ensures !threw ==> HasResult(h.ledger, TicketOf(old(State()), req.id), if failed then ConfigureFailed else Configured)
      ensures h.effects == old(h.effects)
      ensures !threw && failed ==> fault && terminalFrozen
      ensures !threw && !failed && !storageFault && !journal.fault ==> terminalFrozen == (old(terminalFrozen) && !req.kind.unfreezes)
    {
      hide RequestJournal.Valid, EngineCallTracker.Valid, RoundTrips, Sound, Follows, Winds, Calm, WithinBudget, Controller.State,
        Controller.Fixed, Controller.Valid, TicketOf, HasResult, Serving;
      ghost var before := State();
      CacheShown();
      Shown();
      NothingWinds(before);
      NoteOutcome(failed, req.kind.unfreezes);
      ghost var settled := State();
      threw := Audit();
      WindsTransitive(before, settled, State());
      WindsFacts(before, State());
      ServingWinds(before, State(), req.id);
      CacheShown();
      Shown();
      SameTicket(before, req.id);
      if threw { return; }
      threw := Query();
      if threw { return; }
      ghost var audited := State();
      threw := Respond(req, if failed then ConfigureFailed else Configured);
      FollowsTransitive(before, audited, State());
    }

    method StartPending(req: Request, requested: nat, wave: int)
      requires Valid() && Serving(State(), req.id) && pending.None? && TicketOf(State(), req.id) !in started && !recordingClosed
      modifies this`pending, this`expected, this`started
      ensures Valid() && AtRest() && Follows(old(State()), State()) && pending.Some? && pending.value.id == req.id
      ensures pending.value.untilWave == req.untilWave && pending.value.startWave == wave
      ensures pending.value.requested == requested && pending.value.executed == pending.value.calls == pending.value.actions == 0
      ensures TicketOf(State(), req.id) in started && TicketOf(State(), req.id) == TicketOf(old(State()), req.id) && h == old(h)
      ensures expected == Version(epoch, tick, revision)
      ensures pending.value.terminalZero == 0
    {
      hide RequestJournal.Valid, EngineCallTracker.Valid, RoundTrips, Sound, Follows, Serving, RequestJournal.Entries, Calm, WithinBudget, Controller.Shell;
      var p := Pending(req.id, requested, 0, 0, 0, wave, req.untilWave, 0);
      StartCalms(State(), p);
      StartSound(State(), Fixed(), p);
      pending, expected, started := Some(p), Version(epoch, tick, revision), started + {TicketOf(State(), req.id)};
    }

    // One action attempt moves the version, whether it succeeded or not.
    method TryAction()
      requires Valid() && AtRest() && pending.Some? && TicketOf(State(), pending.value.id) in started
      modifies this`pending, this`revision, this`h
      ensures Valid() && AtRest() && Follows(old(State()), State()) && revision == old(revision) + 1
      ensures pending == Some(old(pending.value).(actions := old(pending.value.actions) + 1))
      ensures h.attempts == old(h.attempts) + [Attempt(TicketOf(old(State()), old(pending.value.id)), old(pending.value.actions))]
      ensures TicketOf(State(), pending.value.id) == TicketOf(old(State()), old(pending.value.id))
      ensures h.effects == old(h.effects) + [Effect(TicketOf(old(State()), old(pending.value.id)), expected)]
    {
      hide RequestJournal.Valid, EngineCallTracker.Valid, RoundTrips, Sound, Follows, RequestJournal.Entries, Calm, WithinBudget, Controller.Shell;
      TrySound(State(), Fixed());
      TryCalms(State());
      h := Try(State()).h;
      revision := revision + 1;
      pending := Some(pending.value.(actions := pending.value.actions + 1));
    }

    // Runs the actions in order; the first failure, or a failing audit, ends the
    // request. `ran` attempts were made, numbered from zero.
    method RunActions(req: Request) returns (threw: bool, ghost ran: nat)
      requires Valid() && AtRest() && Quiet() && pending.Some? && pending.value.id == req.id
      requires pending.value.executed == pending.value.calls == pending.value.actions == 0
      requires TicketOf(State(), req.id) in started
      modifies this`pending, this`cache, this`storageFault, this`terminalFrozen, this`outbox, this`h, this`uncounted, this`fault, this`inStep
      modifies this`terminalReply, this`terminalTicket
      modifies journal`disk, journal`used, journal`log, journal`clean, journal`fault, journal.heads
      modifies this`revision
      ensures Valid() && AtRest() && Quiet() && Follows(old(State()), State()) && ran <= req.actions && revision == old(revision) + ran
      ensures h.attempts == old(h.attempts) + Attempts(TicketOf(old(State()), req.id), ran)
      ensures pending.Some? ==> pending.value.id == req.id && pending.value.calls == 0
      ensures pending.Some? && !threw ==> ran == req.actions && pending.value.executed == 0
      ensures pending.Some? && !threw ==> pending.value.requested == old(pending.value.requested) && pending.value.untilWave == old(pending.value.untilWave)
      ensures pending.Some? && !threw ==> TicketOf(State(), req.id) == TicketOf(old(State()), req.id)
      ensures pending.None? && !threw ==> ran > 0 && HasResult(h.ledger, TicketOf(old(State()), req.id),
        Finished(ActionFailed, WorkOf(old(pending.value).(actions := ran))))
      ensures OnlyDid(old(h.effects), Effect(TicketOf(old(State()), req.id), expected))
    {
      hide RequestJournal.Valid, EngineCallTracker.Valid, RoundTrips, Sound, Follows, Winds, Calm, WithinBudget, Controller.State,
        Controller.Fixed, Controller.Valid, TicketOf, HasResult, Serving;
      ghost var before, t := State(), TicketOf(State(), req.id);
      FollowsItself(before);
      ran, threw := 0, false;
      var i := 0;
      while i < req.actions
        invariant i <= req.actions && ran == i && !threw
        invariant Valid() && AtRest() && Quiet() && Follows(before, State())
        invariant pending.Some? && pending.value.id == req.id && pending.value.actions == i
        invariant pending.value.executed == pending.value.calls == 0 && pending.value.requested == old(pending.value.requested)
        invariant TicketOf(State(), req.id) == t && t in started && revision == old(revision) + i
        invariant pending.value == old(pending.value).(actions := i)
        invariant h.attempts == old(h.attempts) + Attempts(t, i) && OnlyDid(old(h.effects), Effect(t, expected))
      {
        var stopped;
        ghost var now := State();
        stopped, threw := OneAction(req);
        FollowsTransitive(before, now, State());
        assert Attempts(t, i) + [Attempt(t, i)] == Attempts(t, i + 1);
        i, ran := i + 1, ran + 1;
        if stopped { return; }
      }
    }

    lemma CacheShown()
      ensures State().cache == cache && State().branch == journal.scope && State().now.epoch == epoch && State().uncounted == uncounted
      ensures Calm(State()) ==> Idles(State()) && uncounted == 0
      ensures AtRest() ==> Idles(State()) && uncounted == 0
    {
    }

    lemma Shown()
      ensures State().h == h && State().pending == pending
    {
    }

    // One attempt, its audit, and the end of the request when it failed.
    method OneAction(req: Request) returns (stopped: bool, threw: bool)
      requires Valid() && AtRest() && Quiet() && pending.Some? && pending.value.id == req.id
      requires pending.value.executed == pending.value.calls == 0 && TicketOf(State(), req.id) in started
      modifies this`pending, this`cache, this`storageFault, this`terminalFrozen, this`outbox, this`h, this`uncounted, this`fault, this`inStep
      modifies this`terminalReply, this`terminalTicket
      modifies journal`disk, journal`used, journal`log, journal`clean, journal`fault, journal.heads
      modifies this`revision
      ensures Valid() && AtRest() && Quiet() && Follows(old(State()), State()) && revision == old(revision) + 1 && (threw ==> stopped)
      ensures h.attempts == old(h.attempts) + [Attempt(TicketOf(old(State()), req.id), old(pending.value.actions))]
      ensures !stopped ==> TicketOf(State(), req.id) == TicketOf(old(State()), req.id)
      ensures !stopped ==> pending == Some(old(pending.value).(actions := old(pending.value.actions) + 1))
      ensures stopped && pending.Some? ==> threw && pending.value.id == req.id && pending.value.calls == 0
      ensures stopped && !threw ==> pending.None? && HasResult(h.ledger, TicketOf(old(State()), req.id),
        Finished(ActionFailed, WorkOf(old(pending.value).(actions := old(pending.value.actions) + 1))))
      ensures h.effects == old(h.effects) + [Effect(TicketOf(old(State()), req.id), expected)]
    {
      hide RequestJournal.Valid, EngineCallTracker.Valid, RoundTrips, Sound, Follows, Winds, Calm, WithinBudget, Controller.State,
        Controller.Fixed, Controller.Valid, TicketOf, HasResult, Serving;
      ghost var before := State();
      TryAction();
      ghost var tried := State();
      Shown();
      var ok: bool := *;
      threw := Audit();
      ghost var audited := State();
      NothingWinds(audited);
      if !threw && !ok { threw := Finish(ActionFailed); }
      stopped := threw || !ok;
      WindsTransitive(tried, audited, State());
      WindsFacts(tried, State());
      Shown();
      FollowsTransitive(before, tried, State());
    }

    // Why an advancement is refused after its admission.
    function Unfit(req: Request, prepared: bool): Option<Response>
      reads this`ready, this`terminalFrozen
    {
      if !ready || terminalFrozen then Some(NotInFight)
      else if !prepared then Some(RenderNotPrepared)
      else if req.count < 0 || req.count > MAX_TICKS || req.badCondition || req.actions > MAX_ACTIONS || (req.kind.Advance? && req.actions > 0)
        then Some(InvalidParams)
      else None
    }

    const MAX_ACTIONS: nat := 256

    // Outside a stable fight, without a prepared drawing and with bad parameters an
    // advancement is refused, in this order.
    lemma UnfitOrder(req: Request, prepared: bool)
      ensures Unfit(req, prepared) == Some(NotInFight) <==> !ready || terminalFrozen
      ensures Unfit(req, prepared) == Some(RenderNotPrepared) <==> ready && !terminalFrozen && !prepared
      ensures Unfit(req, prepared) == None <==> (ready && !terminalFrozen && prepared
        && 0 <= req.count <= 100000 && !req.badCondition && req.actions <= 256 && (req.kind == Advance ==> req.actions == 0))
      ensures Unfit(req, prepared).Some? ==> Unfit(req, prepared).value in {NotInFight, RenderNotPrepared, InvalidParams}
    {
    }

    // The request becomes the pending advancement, and its start is audited.
    method Begin(req: Request) returns (threw: bool)
      requires Valid() && Quiet() && Serving(State(), req.id) && pending.None? && TicketOf(State(), req.id) !in started && !recordingClosed
      requires 0 <= req.count
      modifies this`pending, this`cache, this`storageFault, this`terminalFrozen, this`outbox, this`h, this`uncounted, this`fault, this`inStep
      modifies journal`disk, journal`used, journal`log, journal`clean, journal`fault, journal.heads
      modifies this`expected, this`started
      ensures Valid() && AtRest() && Quiet() && Follows(old(State()), State()) && h.attempts == old(h.attempts) && h.effects == old(h.effects)
      ensures pending.Some? ==> pending.value.id == req.id && pending.value.calls == 0
      ensures !threw ==> pending.Some? && pending.value.requested == req.count && pending.value.executed == pending.value.actions == 0
      ensures !threw ==> TicketOf(State(), req.id) in started && TicketOf(State(), req.id) == TicketOf(old(State()), req.id)
      ensures !threw ==> expected == old(Now())
      ensures pending.Some? ==> expected == old(Now()) && pending.value.untilWave == req.untilWave
    {
      hide RequestJournal.Valid, EngineCallTracker.Valid, RoundTrips, Sound, Follows, Winds, Calm, WithinBudget, Controller.State,
        Controller.Fixed, Controller.Valid, TicketOf, HasResult, Serving;
      ghost var before := State();
      var wave: int := *;
      StartPending(req, req.count, wave);
      ghost var begun := State();
      Shown();
      threw := Audit();
      WindsFacts(begun, State());
      FollowsTransitive(before, begun, State());
      Shown();
    }

    // A commit or an advance: actions now, ticks in the coming engine frames.
    method Start(req: Request) returns (threw: bool, ghost ran: nat)
      requires Valid() && Quiet() && Serving(State(), req.id) && pending.None? && TicketOf(State(), req.id) !in started && !recordingClosed
      modifies this`pending, this`cache, this`storageFault, this`terminalFrozen, this`outbox, this`h, this`uncounted, this`fault, this`inStep
      modifies this`terminalReply, this`terminalTicket
      modifies journal`disk, journal`used, journal`log, journal`clean, journal`fault, journal.heads
      modifies this`revision, this`expected, this`started
      ensures Valid() && Quiet() && Follows(old(State()), State()) && revision == old(revision) + ran && ran <= req.actions
      ensures AtRest() || (threw && Serving(State(), req.id))
      ensures h.attempts == old(h.attempts) + Attempts(TicketOf(old(State()), req.id), ran)
      ensures pending.Some? ==> pending.value.id == req.id && pending.value.calls == 0
      ensures pending.Some? && !threw ==> ran == req.actions && 0 <= req.count == pending.value.requested && pending.value.untilWave == req.untilWave
      ensures !threw && old(!ready || terminalFrozen) ==> HasResult(h.ledger, TicketOf(old(State()), req.id), NotInFight)
      ensures !threw && pending.None? ==> ControllerState.Done(State(), TicketOf(old(State()), req.id))
      ensures pending.Some? ==> expected == old(Now())
      ensures OnlyDid(old(h.effects), Effect(TicketOf(old(State()), req.id), old(Now())))
    {
      hide RequestJournal.Valid, EngineCallTracker.Valid, RoundTrips, Sound, Follows, Winds, Calm, WithinBudget, Controller.State,
        Controller.Fixed, Controller.Valid, TicketOf, Serving;
      ghost var before := State();
      ran := 0;
      assert h.attempts + Attempts(TicketOf(before, req.id), 0) == h.attempts;
      FollowsItself(before);
      var prepared: bool, thrown: bool := *, *;
      if thrown { return true, 0; }
      var unfit := Unfit(req, prepared);
      if unfit.Some? {
        threw := Respond(req, unfit.value);
        Shown();
        return;
      }
      threw := Begin(req);
      ghost var audited := State();
      if threw { return; }
      threw, ran := RunActions(req);
      FollowsTransitive(before, audited, State());
      if !threw && pending.Some? {
        ghost var done := State();
        threw := FinishIfSpent();
        FollowsTransitive(before, done, State());
      }
      Shown();
    }

    method FinishIfSpent() returns (threw: bool)
      requires Valid() && AtRest() && Quiet() && pending.Some? && pending.value.executed == 0
      modifies this`pending, this`cache, this`storageFault, this`terminalFrozen, this`outbox, this`h, this`uncounted, this`fault, this`inStep
      modifies this`terminalReply, this`terminalTicket
      modifies journal`disk, journal`used, journal`log, journal`clean, journal`fault, journal.heads
      ensures Valid() && AtRest() && Quiet() && Follows(old(State()), State()) && h.attempts == old(h.attempts) && h.effects == old(h.effects)
      ensures pending.None? || pending == old(pending)
      ensures !threw ==> pending == (if old(pending.value.requested) == 0 then None else old(pending))
      ensures !threw && pending.None? ==> Concluded(old(State()), old(pending.value), BudgetExhausted)
      ensures steady ==> !threw
    {
      hide RequestJournal.Valid, EngineCallTracker.Valid, RoundTrips, Sound, Follows, Winds, Calm, WithinBudget, Controller.State,
        Controller.Fixed, Controller.Valid, TicketOf, HasResult, Serving;
      ghost var before := State();
      NothingWinds(before);
      Shown();
      threw := false;
      if pending.value.requested == 0 { threw := Finish(BudgetExhausted); }
      WindsFacts(before, State());
      Shown();
    }

    function Now(): Version
      reads this`epoch, this`tick, this`revision
    {
      Version(epoch, tick, revision)
    }

    method Perform(req: Request, ghost roomy: bool) returns (threw: bool, ghost capacity: bool)
      requires Valid() && Quiet() && Serving(State(), req.id) && TicketOf(State(), req.id) !in started && !recordingClosed && journal.isOpen
      requires pending.Some? ==> pending.value.id != req.id
      requires req.kind.StopRecording? ==> pending.None? && closeTried && ClosingEntry(State(), req.id)
      requires roomy ==> Roomy(State(), journal.limits) && SmallResults(State(), dump)
      modifies this`pending, this`cache, this`storageFault, this`terminalFrozen, this`outbox, this`h, this`uncounted, this`fault, this`inStep
      modifies this`terminalReply, this`terminalTicket
      modifies journal`disk, journal`used, journal`log, journal`clean, journal`fault, journal.heads
      modifies this`revision, this`expected, this`started, this`recordingClosed, journal`sealed
      ensures Valid() && Quiet() && Follows(old(State()), State()) && (roomy ==> !capacity)
      ensures AtRest() || (threw && Serving(State(), req.id))
      ensures pending.Some? && pending.value.id == req.id ==> pending.value.calls == 0
      ensures !threw && (req.kind.Pause? || req.kind.Cancel?) ==> pending.None? && HasResult(h.ledger, TicketOf(old(State()), req.id), Controlled)
      ensures !threw && old(pending).Some? && !(req.kind.Pause? || req.kind.Cancel?) ==> HasResult(h.ledger, TicketOf(old(State()), req.id), Busy)
      ensures !threw && req.kind.StopRecording? ==> recordingClosed
      ensures !threw && req.kind.StopRecording? ==>
        || (HasResult(h.ledger, TicketOf(old(State()), req.id), Closed) && journal.sealed)
        || (HasResult(h.ledger, TicketOf(old(State()), req.id), CloseIncomplete) && storageFault)
      ensures roomy && steady && journal.steady && req.kind.StopRecording? ==>
        !threw && HasResult(h.ledger, TicketOf(old(State()), req.id), Closed) && journal.sealed
      ensures OnlyDid(old(h.effects), Effect(TicketOf(old(State()), req.id), old(Now()))) && (IsControl(req.kind) ==> h.effects == old(h.effects))
      ensures pending.None? || pending == old(pending) || (!IsControl(req.kind) && pending.value.id == req.id && expected == old(Now()))
    {
      hide RequestJournal.Valid, EngineCallTracker.Valid, RoundTrips, Sound, Follows, Winds, Calm, WithinBudget, Controller.State,
        Controller.Fixed, Controller.Valid, TicketOf, HasResult, Serving;
      hide Roomy, ClosingEntry;
      capacity := false;
      if req.kind.Pause? || req.kind.Cancel? {
        threw := Control(req);
      } else if pending.Some? {
        threw := Respond(req, Busy);
      } else if req.kind.StopRecording? {
        threw, capacity := Close(req, roomy);
      } else if req.kind.Prepare? {
        threw := Setup(req);
      } else {
        ghost var ran;
        threw, ran := Start(req);
      }
    }

    // An exception after admission still answers the request, once.
    method Recover(req: Request)
      requires Valid() && Quiet() && (AtRest() || Serving(State(), req.id))
      requires pending.Some? && pending.value.id == req.id ==> pending.value.calls == 0
      modifies this`pending, this`cache, this`storageFault, this`terminalFrozen, this`outbox, this`h, this`uncounted, this`fault, this`inStep
      modifies this`terminalReply, this`terminalTicket
      modifies journal`disk, journal`used, journal`log, journal`clean, journal`fault, journal.heads
      ensures Valid() && Quiet() && AtRest() && Follows(old(State()), State())
      ensures old(req.id in cache && cache[req.id].response.None?) ==> HasResult(h.ledger, TicketOf(old(State()), req.id), InvalidRequest)
      ensures h.effects == old(h.effects)
      ensures pending.None? || pending == old(pending)
    {
      hide RequestJournal.Valid, EngineCallTracker.Valid, RoundTrips, Sound, Follows, Winds, Calm, WithinBudget, Controller.State,
        Controller.Fixed, Controller.Valid, TicketOf, HasResult, Serving;
      ghost var before := State();
      FollowsItself(before);
      if !(req.id in cache && cache[req.id].response.None?) {
        AnsweredIsServed(req.id);
        return;
      }
      if pending.Some? && pending.value.id == req.id {
        OwnPending(req.id);
        DropOwn(req.id);
      } else {
        UnansweredIsServing(req.id);
      }
      ghost var dropped := State();
      var threw := Respond(req, InvalidRequest);
      FollowsTransitive(before, dropped, State());
    }

    lemma AnsweredIsServed(id: Bytes)
      requires !(id in cache && cache[id].response.None?) && (AtRest() || Serving(State(), id))
      ensures AtRest()
    {
      IsUnanswered(State(), id);
    }

    lemma UnansweredIsServing(id: Bytes)
      requires id in cache && cache[id].response.None? && (AtRest() || Serving(State(), id))
      requires !(pending.Some? && pending.value.id == id)
      ensures Serving(State(), id)
    {
      IsUnanswered(State(), id);
    }

    lemma OwnPending(id: Bytes)
      requires pending.Some? && pending.value.id == id && (AtRest() || Serving(State(), id))
      ensures AtRest()
    {
    }

    method DropOwn(id: Bytes)
      requires Valid() && AtRest() && pending.Some? && pending.value.id == id && pending.value.calls == 0
      modifies this`pending, this`uncounted
      ensures Valid() && Serving(State(), id) && Follows(old(State()), State()) && pending.None?
      ensures TicketOf(State(), id) == TicketOf(old(State()), id)
    {
      hide RequestJournal.Valid, EngineCallTracker.Valid, RoundTrips, Sound, Follows, RequestJournal.Entries;
      ghost var c := State();
      DetachSound(c, Fixed());
      DropPending();
      assert Unanswered(State()) == Unanswered(c);
    }

    // A request seen before is answered from RAM or from the journal, exactly as
    // the plain ledger says; nothing of it runs again.
    method Dedup(req: Request) returns (handled: bool, ghost lost: bool)
      requires Valid() && AtRest() && Quiet()
      modifies this`pending, this`cache, this`storageFault, this`terminalFrozen, this`outbox, this`h, this`uncounted, this`fault, this`inStep
      modifies this`terminalReply, this`terminalTicket
      modifies journal`disk, journal`used, journal`log, journal`clean, journal`fault, journal.heads
      ensures Valid() && AtRest() && Quiet() && Follows(old(State()), State()) && h.attempts == old(h.attempts) && h.effects == old(h.effects)
      ensures lost ==> handled && storageFault && !journal.steady
      ensures !handled ==> Writable() == old(Writable())
      ensures !handled ==> State() == old(State()) && VerdictOn(old(State()), req.id, req.canonical).Fresh?
      ensures !handled ==> Gate(req) == old(Gate(req)) && outbox == old(outbox) && RepeatOf(old(State()), req.id) !in old(h.ledger)
      ensures !lost && RepeatOf(old(State()), req.id) in old(h.ledger) ==>
        (var was := old(h.ledger)[RepeatOf(old(State()), req.id)];
         && (was.payload != req.canonical ==> outbox == old(outbox) + [(req.caller, Rejected(Conflict))])
         && (was.payload == req.canonical && was.result.Some? ==> outbox == old(outbox) + [(req.caller, was.result.value)])
         && (was.payload == req.canonical && was.result.None? ==> (outbox == old(outbox) && req.id in old(cache)
               && cache == old(cache)[req.id := old(cache)[req.id].(waiters := old(cache)[req.id].waiters + [req.caller])])))
      ensures handled && !lost && RepeatOf(old(State()), req.id) !in old(h.ledger) ==>
        outbox == old(outbox) + [(req.caller, Rejected(CrossBranchConflict))] && ClashesElsewhere(old(State()), req.id, req.canonical)
      ensures !handled && ClashesElsewhere(old(State()), req.id, req.canonical) ==> MatchesElsewhere(old(State()), req.id, req.canonical)
      ensures pending.None? || pending == old(pending)
    {
      hide RequestJournal.Valid, EngineCallTracker.Valid, RoundTrips, Sound, Follows, Winds, Calm, WithinBudget, Controller.State,
        Controller.Fixed, Controller.Valid, TicketOf, HasResult, Serving;
      hide VerdictOn, Honoured, RepeatOf, ClashesElsewhere, MatchesElsewhere;
      ghost var before := State();
      Held();
      FreshExactly(before, Fixed(), req.id, req.canonical);
      lost := false;
      handled := AnswerFromRam(req);
      if !handled { handled, lost := AnswerFromJournal(req); }
      Held();
      if handled && !lost && !VerdictOn(before, req.id, req.canonical).Fresh? {
        RepeatedExactly(before, State(), Fixed(), req.id, req.canonical, req.caller);
      }
    }

    lemma Held()
      requires Valid()
      ensures Sound(State(), Fixed())
      ensures State().outbox == outbox && State().cache == cache && State().h == h && State().branch == journal.scope && State().now.epoch == epoch
    {
    }

    // Admission and execution of a request that was never seen before.
    method Serve(req: Request) returns (ghost capacity: bool)
      requires Valid() && AtRest() && Quiet() && VerdictOn(State(), req.id, req.canonical).Fresh? && Gate(req).None? && 0 < |req.id| <= MAX_ID
      modifies this`pending, this`cache, this`storageFault, this`terminalFrozen, this`outbox, this`h, this`uncounted, this`fault, this`inStep
      modifies this`terminalReply, this`terminalTicket
      modifies journal`disk, journal`used, journal`log, journal`clean, journal`fault, journal.heads
      modifies this`revision, this`expected, this`started, this`recordingClosed, this`closeTried
      modifies journal`sealed, journal`isOpen, journal`normalCount, journal`reserveCount
      ensures Valid() && AtRest() && Quiet() && Follows(old(State()), State())
      ensures FirstClose(old(closeTried), req) && SmallResults(old(State()), dump) ==> !capacity
      ensures old(FairClose(req)) ==> HasResult(h.ledger, TicketOf(old(State()), req.id), Closed) && journal.sealed
      ensures OnlyDid(old(h.effects), Effect(TicketOf(old(State()), req.id), old(Now()))) && (IsControl(req.kind) ==> h.effects == old(h.effects))
      ensures pending.None? || pending == old(pending) || (!IsControl(req.kind) && pending.value.id == req.id && expected == old(Now()))
    {
      hide RequestJournal.Valid, EngineCallTracker.Valid, RoundTrips, Sound, Follows, Calm, WithinBudget, Controller.State, Controller.Fixed,
        Controller.Valid, TicketOf, HasResult, Serving, VerdictOn, Roomy, ClosingEntry, RequestJournal.Entries, Controller.FirstClose,
        Controller.FairClose, Controller.Gate, SmallResults, Controller.AtRest;
      ghost var before := State();
      var r;
      ghost var roomy;
      r, roomy := TryAdmit(req);
      ghost var admitted := State();
      capacity := r.OverCapacity?;
      if r.Admitted? {
        capacity := Execute(req, roomy);
      } else {
        TurnAway(req, r.OverCapacity?);
      }
      FollowsTransitive(before, admitted, State());
    }

    // Admission, and what carrying the request out may rely on.
    method TryAdmit(req: Request) returns (r: Reserved, ghost roomy: bool)
      requires Valid() && AtRest() && Quiet() && VerdictOn(State(), req.id, req.canonical).Fresh? && Gate(req).None? && 0 < |req.id| <= MAX_ID
      modifies journal`disk, journal`used, journal`log, journal`clean, journal`fault, journal`isOpen, journal`normalCount, journal`reserveCount
      modifies journal.heads, this`cache, this`h, this`closeTried
      ensures Valid() && Follows(old(State()), State()) && h.effects == old(h.effects)
      ensures TicketOf(State(), req.id) == TicketOf(old(State()), req.id)
      ensures !r.Admitted? ==> AtRest()
      ensures r.Admitted? ==> Serving(State(), req.id) && TicketOf(State(), req.id) !in started && !recordingClosed && journal.isOpen
      ensures r.Admitted? && pending.Some? ==> pending.value.id != req.id
      ensures r.Admitted? && req.kind.StopRecording? ==> pending.None? && closeTried && ClosingEntry(State(), req.id)
      ensures roomy == (FirstClose(old(closeTried), req) && SmallResults(old(State()), dump)) && (roomy ==> !r.OverCapacity?)
      ensures roomy && r.Admitted? ==> Roomy(State(), journal.limits) && SmallResults(State(), dump)
      ensures old(FairClose(req)) ==> roomy && r.Admitted? && steady && journal.steady && req.kind.StopRecording?
    {
      hide RequestJournal.Valid, EngineCallTracker.Valid, RoundTrips, Sound, Follows, Calm, WithinBudget, Controller.State,
        Controller.Fixed, Controller.Valid, TicketOf, HasResult, Serving, VerdictOn, TakenOn, Roomy, ClosingEntry, Admit, RequestJournal.Entries,
        Controller.FirstClose, Controller.Writable, Controller.FairClose, Controller.Gate, SmallResults;
      ghost var before := State();
      roomy := FirstClose(closeTried, req) && SmallResults(before, dump);
      GateFacts(req);
      FairFacts(req);
      Resting();
      CacheShown();
      r := Reserve(req);
      CacheShown();
      SameTicket(before, req.id);
      Resting();
      if r.Admitted? { AdmittedFacts(before, req); }
    }

    lemma Resting()
      ensures AtRest() <==> Calm(State()) && WithinBudget(State())
    {
    }

    // The journal did not admit the request.
    method TurnAway(req: Request, full: bool)
      requires Valid() && AtRest() && Quiet()
      modifies this`pending, this`cache, this`storageFault, this`terminalFrozen, this`outbox, this`h, this`uncounted, this`fault, this`inStep
      modifies this`terminalReply, this`terminalTicket
      modifies journal`disk, journal`used, journal`log, journal`clean, journal`fault, journal.heads
      ensures Valid() && AtRest() && Quiet() && Follows(old(State()), State())
      ensures if full then outbox == old(outbox) + [(req.caller, Rejected(OverQuota))] else storageFault
      ensures h.effects == old(h.effects)
      ensures pending.None? || pending == old(pending)
    {
      hide RequestJournal.Valid, EngineCallTracker.Valid, RoundTrips, Sound, Follows, Controller.State, Controller.Fixed, Controller.Valid;
      if full { Refuse(req, OverQuota); } else { LoseJournal(req); }
    }

    // Carries out an admitted request; it has its answer in the end.
    method Execute(req: Request, ghost roomy: bool) returns (ghost capacity: bool)
      requires Valid() && Quiet() && Serving(State(), req.id) && TicketOf(State(), req.id) !in started && !recordingClosed && journal.isOpen
      requires pending.Some? ==> pending.value.id != req.id
      requires req.kind.StopRecording? ==> pending.None? && closeTried && ClosingEntry(State(), req.id)
      requires roomy ==> Roomy(State(), journal.limits) && SmallResults(State(), dump)
      modifies this`pending, this`cache, this`storageFault, this`terminalFrozen, this`outbox, this`h, this`uncounted, this`fault, this`inStep
      modifies this`terminalReply, this`terminalTicket
      modifies journal`disk, journal`used, journal`log, journal`clean, journal`fault, journal.heads
      modifies this`revision, this`expected, this`started, this`recordingClosed, journal`sealed
      ensures Valid() && AtRest() && Quiet() && Follows(old(State()), State()) && (roomy ==> !capacity)
      ensures roomy && steady && journal.steady && req.kind.StopRecording? ==>
        HasResult(h.ledger, TicketOf(old(State()), req.id), Closed) && journal.sealed
      ensures OnlyDid(old(h.effects), Effect(TicketOf(old(State()), req.id), old(Now()))) && (IsControl(req.kind) ==> h.effects == old(h.effects))
      ensures pending.None? || pending == old(pending) || (!IsControl(req.kind) && pending.value.id == req.id && expected == old(Now()))
    {
      hide RequestJournal.Valid, EngineCallTracker.Valid, RoundTrips, Sound, Follows, Winds, Calm, WithinBudget, Controller.State,
        Controller.Fixed, Controller.Valid, TicketOf, HasResult, Serving, Roomy, ClosingEntry;
      ghost var before := State();
      var threw;
      threw, capacity := Perform(req, roomy);
      ghost var performed := State();
      FollowsItself(performed);
      if threw { Recover(req); }
      FollowsTransitive(before, performed, State());
    }

    lemma FairFacts(req: Request)
      ensures FairClose(req) ==> FirstClose(closeTried, req) && steady && journal.steady && Writable() && req.kind.StopRecording?
      ensures FairClose(req) ==> SmallResults(State(), dump)
    {
    }

    // An admissible request that may change the run stated the current version.
    lemma GateStated(req: Request)
      requires Gate(req).None?
      ensures !IsControl(req.kind) ==> req.stated == Some(Now())
    {
    }

    lemma GateFacts(req: Request)
      requires Gate(req).None?
      ensures !recordingClosed && (req.kind.StopRecording? ==> pending.None?)
    {
    }

    lemma AdmittedFacts(before: Core, req: Request)
      requires TakenOn(before, State(), req.id, req.kind.StopRecording?)
      ensures Serving(State(), req.id) && TicketOf(State(), req.id) !in started
      ensures pending.Some? ==> pending.value.id != req.id
      ensures req.kind.StopRecording? ==> closeTried && ClosingEntry(State(), req.id)
    {
    }

    // A request this runtime may speak for.
    predicate Reads(req: Request, scope: Bytes) {
      !req.malformed && 0 < |req.id| <= MAX_ID && (req.declared.None? || req.declared.value == scope)
    }

    // Any request, from any caller, at any boundary.
    method Handle(req: Request) returns (ghost capacity: bool, ghost lost: bool)
      requires Valid() && AtRest() && Quiet()
      modifies this`pending, this`cache, this`storageFault, this`terminalFrozen, this`outbox, this`h, this`uncounted, this`fault, this`inStep
      modifies this`terminalReply, this`terminalTicket
      modifies journal`disk, journal`used, journal`log, journal`clean, journal`fault, journal.heads
      modifies this`revision, this`expected, this`started, this`recordingClosed, this`closeTried
      modifies journal`sealed, journal`isOpen, journal`normalCount, journal`reserveCount
      ensures Valid() && AtRest() && Quiet() && Follows(old(State()), State())
      ensures FirstClose(old(closeTried), req) && SmallResults(old(State()), dump) ==> !capacity
      ensures old(TicketOf(State(), req.id) in h.ledger) ==> h.attempts == old(h.attempts) && h.effects == old(h.effects) && started == old(started)
      ensures lost ==> storageFault && !journal.steady
      ensures !lost && Reads(req, old(journal.scope)) && RepeatOf(old(State()), req.id) in old(h.ledger) ==>
        (var was := old(h.ledger)[RepeatOf(old(State()), req.id)];
         && (was.payload != req.canonical ==> outbox == old(outbox) + [(req.caller, Rejected(Conflict))])
         && (was.payload == req.canonical && was.result.Some? ==> outbox == old(outbox) + [(req.caller, was.result.value)])
         && (was.payload == req.canonical && was.result.None? ==> (outbox == old(outbox) && req.id in old(cache)
               && cache == old(cache)[req.id := old(cache)[req.id].(waiters := old(cache)[req.id].waiters + [req.caller])])))
      ensures !lost && !req.malformed && 0 < |req.id| <= MAX_ID && req.declared.Some? && req.declared.value != old(journal.scope) ==>
        outbox == old(outbox) + [(req.caller, Rejected(ScopeMismatch))]
      ensures req.malformed || |req.id| == 0 || |req.id| > MAX_ID ==> outbox == old(outbox) + [(req.caller, Rejected(Malformed))]
      ensures (!lost && Reads(req, old(journal.scope)) && RepeatOf(old(State()), req.id) !in old(h.ledger)
          && ClashesElsewhere(old(State()), req.id, req.canonical) && !MatchesElsewhere(old(State()), req.id, req.canonical)) ==>
        outbox == old(outbox) + [(req.caller, Rejected(CrossBranchConflict))]
      ensures !lost && Reads(req, old(journal.scope)) && RepeatOf(old(State()), req.id) !in old(h.ledger) && old(Gate(req)).Some? ==>
        || (ClashesElsewhere(old(State()), req.id, req.canonical) && outbox == old(outbox) + [(req.caller, Rejected(CrossBranchConflict))])
        || outbox == old(outbox) + [(req.caller, Rejected(old(Gate(req)).value))]
      ensures old(FairClose(req)) && Reads(req, old(journal.scope)) && RepeatOf(old(State()), req.id) !in old(h.ledger) && old(Gate(req)).None? ==>
        || (ClashesElsewhere(old(State()), req.id, req.canonical) && outbox == old(outbox) + [(req.caller, Rejected(CrossBranchConflict))])
        || (HasResult(h.ledger, TicketOf(old(State()), req.id), Closed) && journal.sealed)
      ensures forall e :: e in h.effects && e !in old(h.effects) ==> e.ticket == TicketOf(old(State()), req.id) && req.stated == Some(e.expected)
      ensures pending.Some? && pending != old(pending) ==> pending.value.id == req.id && req.stated == Some(expected)
    {
      hide RequestJournal.Valid, EngineCallTracker.Valid, RoundTrips, Sound, Follows, Winds, Calm, WithinBudget, Controller.State,
        Controller.Fixed, Controller.Valid, TicketOf, HasResult, Serving;
      hide Honoured, VerdictOn, RepeatOf, ClashesElsewhere, MatchesElsewhere, Controller.Gate;
      capacity, lost := false, false;
      if req.malformed || |req.id| == 0 || |req.id| > MAX_ID {
        Refuse(req, Malformed);
        return;
      }
      if req.declared.Some? && req.declared.value != journal.scope {
        lost := Mismatch(req);
        return;
      }
      ghost var before := State();
      Shown();
      var handled;
      handled, lost := Dedup(req);
      if handled { return; }
      FreshIsNew(before, req.id, req.canonical);
      var why := Gate(req);
      if why.Some? {
        Refuse(req, why.value);
      } else {
        GateStated(req);
        capacity := Serve(req);
      }
    }

    method Mismatch(req: Request) returns (ghost lost: bool)
      requires Valid() && AtRest() && Quiet()
      modifies this`pending, this`cache, this`storageFault, this`terminalFrozen, this`outbox, this`h, this`uncounted, this`fault, this`inStep
      modifies this`terminalReply, this`terminalTicket
      modifies journal`disk, journal`used, journal`log, journal`clean, journal`fault, journal.heads
      ensures Valid() && AtRest() && Quiet() && Follows(old(State()), State()) && h.attempts == old(h.attempts) && h.effects == old(h.effects)
      ensures if lost then storageFault && !journal.steady else outbox == old(outbox) + [(req.caller, Rejected(ScopeMismatch))]
      ensures pending.None? || pending == old(pending)
    {
      hide RequestJournal.Valid, EngineCallTracker.Valid, RoundTrips, Sound, Follows, Winds, Calm, WithinBudget, Controller.State,
        Controller.Fixed, Controller.Valid, TicketOf, HasResult, Serving;
      var foreign := FindIn(req.id);
      lost := foreign.None?;
      if foreign.None? { LoseJournal(req); } else { Refuse(req, ScopeMismatch); }
    }

    // `status` about one request: it changes nothing unless the journal cannot be
    // read, and tells what the plain ledger says.
    method Status(req: Request, wanted: Bytes) returns (r: Option<Standing>)
      requires Valid() && AtRest() && Quiet()
      modifies this`pending, this`cache, this`storageFault, this`terminalFrozen, this`outbox, this`h, this`uncounted, this`fault, this`inStep
      modifies this`terminalReply, this`terminalTicket
      modifies journal`disk, journal`used, journal`log, journal`clean, journal`fault, journal.heads
      ensures Valid() && AtRest() && Quiet() && Follows(old(State()), State()) && h.attempts == old(h.attempts) && h.effects == old(h.effects)
      ensures r.Some? ==> State() == old(State()) && Stands(State(), wanted, r.value)
      ensures r.None? ==> storageFault && !journal.steady
    {
      hide RequestJournal.Valid, EngineCallTracker.Valid, RoundTrips, Sound, Follows, Winds, Calm, WithinBudget, RequestJournal.Entries, LookupIn, Stands;
      ghost var c, s := State(), Fixed();
      FollowsItself(c);
      RamStands(c, s, wanted);
      if terminalReply.Some? && terminalReply.value.id == wanted { return Some(Recorded(terminalReply.value.response)); }
      if wanted in cache { return Some(if cache[wanted].response.Some? then Recorded(cache[wanted].response.value) else InProgress); }
      var found := FindIn(wanted);
      if found.None? {
        LoseJournal(req);
        return None;
      }
      var hit, foreign := found.value.hit, found.value.foreign;
      if hit.Some? {
        JournalStands(c, s, wanted);
        if hit.value.response.None? { assert false; }
        ParsesBack(c, wanted, hit.value.response.value);
        return Some(Recorded(parse(hit.value.response.value)));
      }
      ForeignStands(c, s, wanted, if foreign.Some? then Some(foreign.value.branch) else None);
      r := Some(if foreign.Some? then Elsewhere(foreign.value.branch) else Unknown);
    }

    lemma ParsesBack(c: Core, id: Bytes, body: Bytes)
      requires RoundTrips(dump, parse) && exists r :: dump(r) == body && Stands(c, id, Recorded(r))
      ensures Stands(c, id, Recorded(parse(body)))
    {
      hide Stands;
    }

    // A client that went away takes its own pending advancement with it.
    method Disconnect(id: Bytes) returns (threw: bool)
      requires Valid() && AtRest() && Quiet()
      modifies this`pending, this`cache, this`storageFault, this`terminalFrozen, this`outbox, this`h, this`uncounted, this`fault, this`inStep
      modifies this`terminalReply, this`terminalTicket
      modifies journal`disk, journal`used, journal`log, journal`clean, journal`fault, journal.heads
      ensures Valid() && AtRest() && Quiet() && Follows(old(State()), State())
      ensures old(pending.None? || pending.value.id != id) ==> State() == old(State())
      ensures !threw && old(pending.Some? && pending.value.id == id) ==> pending.None?
      ensures !threw && old(pending.Some? && pending.value.id == id) ==>
        HasResult(h.ledger, TicketOf(old(State()), id), Finished(ClientDisconnected, WorkOf(old(pending.value))))
      ensures steady ==> !threw
    {
      hide RequestJournal.Valid, EngineCallTracker.Valid, RoundTrips, Sound, Follows, Winds, Calm, WithinBudget, Controller.State,
        Controller.Fixed, Controller.Valid, TicketOf, HasResult, Serving;
      ghost var before := State();
      NothingWinds(before);
      threw := false;
      if pending.Some? && pending.value.id == id {
        PendingFits();
        threw := Finish(ClientDisconnected);
      }
      WindsFacts(before, State());
    }

    lemma PendingFits()
      requires AtRest() && pending.Some?
      ensures Metered(Finished(ClientDisconnected, WorkOf(pending.value))) && Metered(Finished(RuntimeShutdown, WorkOf(pending.value)))
    {
    }

    // Moves the run to another branch. Only the RAM state moves with it; the
    // journal's records keep the branch they were admitted under.
    method Rebind(from: Bytes, target: Bytes) returns (moved: bool)
      requires Valid() && AtRest() && Quiet()
      modifies this`cache, this`terminalReply, journal`scope
      ensures Valid() && AtRest() && Follows(old(State()), State())
      ensures moved <==> 0 < |target| <= MAX_SCOPE && from == old(journal.scope) != target && pending.None? && Healthy() && !recordingClosed
      ensures State() == if moved then MoveTo(old(State()), target) else old(State())
    {
      hide RequestJournal.Valid, EngineCallTracker.Valid, RoundTrips, Sound, Follows, Calm, WithinBudget, RequestJournal.Entries;
      FollowsItself(State());
      moved := 0 < |target| <= MAX_SCOPE && from == journal.scope && target != from && pending.None? && !inStep && Healthy() && !recordingClosed;
      if !moved { return; }
      RestWhole(State(), Fixed());
      MoveSound(State(), Fixed(), target);
      RestParts(MoveTo(State(), target), Fixed());
      journal.Rebind(target);
      journal.Facts();
      cache, terminalReply := map[], None;
    }

    // Any run: requests, status queries, frames, boundaries, disconnects, rebinds,
    // shutdowns and external faults in any order. Every state on the way is sound and
    // at rest, and the history only grows.
    method Run()
      requires Valid() && AtRest() && Quiet()
      modifies this, tracker, journal, journal.heads
      ensures Valid() && AtRest() && Quiet() && Follows(old(State()), State())
    {
      hide RequestJournal.Valid, EngineCallTracker.Valid, RoundTrips, Sound, Follows, Winds, Calm, WithinBudget, Controller.State,
        Controller.Fixed, Controller.Valid, TicketOf, HasResult, Serving;
      ghost var start := State();
      FollowsItself(start);
      var steps: int := *;
      while steps > 0 && epoch + 2 < 0x1_0000_0000_0000_0000
        invariant Valid() && AtRest() && Quiet() && Follows(start, State())
        decreases steps
      {
        steps := steps - 1;
        ghost var before := State();
        OneStep();
        FollowsTransitive(start, before, State());
      }
    }

    // Between steps every returned call is reported by a completion or held by the
    // pending request. One call may be missing, and then the controller is frozen.
    lemma EveryCallIsReported()
      requires Valid() && AtRest()
      ensures tracker.returned == TotalCalls(h.completions) + PendingCalls(pending) + lost
      ensures lost <= 1 && (!fault ==> lost == 0)
    {
      hide RequestJournal.Valid, EngineCallTracker.Valid, RoundTrips, Sound, Rest, TotalCalls, Calm, WithinBudget, Fits;
      RestWhole(State(), Fixed());
      CallsAddUp(State(), Fixed());
    }

    method OneStep()
      requires Valid() && AtRest() && Quiet() && epoch + 2 < 0x1_0000_0000_0000_0000
      modifies this, tracker, journal, journal.heads
      ensures Valid() && AtRest() && Quiet() && Follows(old(State()), State())
    {
      hide RequestJournal.Valid, EngineCallTracker.Valid, RoundTrips, Sound, Follows, Winds, Calm, WithinBudget, Controller.State,
        Controller.Fixed, Controller.Valid, TicketOf, HasResult, Serving;
      ghost var before := State();
      var step: int := *;
      if step == 0 {
        var req: Request := *;
        ghost var capacity, lost := Handle(req);
      } else if step == 1 {
        var f: Frame := *;
        var ran := RunEngineFrame(f);
      } else if step == 2 {
        var seen := Observe();
        ghost var transition;
        var threw: bool;
        threw, transition := Boundary(seen);
      } else if step == 3 {
        var id: Bytes := *;
        var threw := Disconnect(id);
      } else if step == 4 {
        var from: Bytes, target: Bytes := *, *;
        var moved := Rebind(from, target);
      } else if step == 5 {
        var threw := Shutdown();
      } else if step == 6 {
        Weather();
      } else if step == 7 {
        var req: Request, wanted: Bytes := *, *;
        var standing := Status(req, wanted);
      } else {
        Fail();
        WindsFacts(before, State());
      }
    }

    // The runtime shuts down: the pending advancement is answered first.
    method Shutdown() returns (threw: bool)
      requires Valid() && AtRest() && Quiet()
      modifies this`pending, this`cache, this`storageFault, this`terminalFrozen, this`outbox, this`h, this`uncounted, this`fault, this`inStep
      modifies this`terminalReply, this`terminalTicket
      modifies journal`disk, journal`used, journal`log, journal`clean, journal`fault, journal.heads
      ensures Valid() && AtRest() && Quiet() && Follows(old(State()), State()) && (!threw ==> pending.None?)
      ensures !threw && old(pending).Some? ==>
        HasResult(h.ledger, TicketOf(old(State()), old(pending.value.id)), Finished(RuntimeShutdown, WorkOf(old(pending.value))))
    {
      hide RequestJournal.Valid, EngineCallTracker.Valid, RoundTrips, Sound, Follows, Winds, Calm, Controller.State,
        Controller.Fixed, Controller.Valid, TicketOf, HasResult, Serving;
      ghost var before := State();
      threw := Stop(RuntimeShutdown);
      WindsFacts(before, State());
    }

    // Disk and backend start or stop failing.
    method Weather()
      requires Valid() && AtRest() && Quiet()
      modifies this`steady, journal`steady
      ensures Valid() && AtRest() && Quiet() && State() == old(State()) && Follows(old(State()), State())
    {
      hide RequestJournal.Valid, EngineCallTracker.Valid, RoundTrips, Sound, Follows, Calm, WithinBudget, RequestJournal.Entries;
      FollowsItself(State());
      var calm: bool, quiet: bool := *, *;
      steady := calm;
      journal.Clear(quiet);
    }
  }

  function Attempts(t: Ticket, n: nat): seq<Attempt> {
    seq(n, i requires 0 <= i < n => Attempt(t, i))
  }
}
