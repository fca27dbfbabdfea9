// The controller's request bookkeeping as values: what was admitted, what was
// recorded, and how the RAM cache and the journal's map together hold it.
module ControllerLedger {
  import opened JournalFormat
  import opened JournalLog

  datatype Version = Version(epoch: nat, tick: nat, revision: nat)

  predicate Earlier(a: Version, b: Version) {
    || a.epoch < b.epoch
    || (a.epoch == b.epoch && a.tick < b.tick)
    || (a.epoch == b.epoch && a.tick == b.tick && a.revision < b.revision)
  }

  datatype Reason = BudgetExhausted | WaveChanged | SceneChanged | NoGameTick | StepCountMismatch | ActionFailed
                  | Paused | Cancelled | ClientDisconnected | DedupStorageFailed | RuntimeShutdown

  // What an advancement really did.
  datatype Work = Work(requested: nat, executed: nat, calls: nat, terminalZero: nat, actions: nat)

  // Answers that never become the result of a request.
  datatype Refusal = Malformed | Conflict | CrossBranchConflict | ScopeMismatch | Stale | Faulted | StorageUnavailable
                   | OverQuota | AlreadyClosed | Oversized | CloseWhilePending

  datatype Response =
    | Finished(reason: Reason, work: Work)       // success, or an error for NoGameTick and StepCountMismatch
    | AuditFailed(work: Work)
    | Controlled                                 // pause and cancel
    | Closed
    | CloseIncomplete
    | Configured
    | ConfigureFailed
    | Busy
    | NotInFight
    | RenderNotPrepared
    | InvalidParams
    | InvalidRequest
    | Rejected(why: Refusal)

  predicate Succeeds(r: Response) {
    || (r.Finished? && r.reason != NoGameTick && r.reason != StepCountMismatch)
    || r.Controlled? || r.Closed? || r.Configured?
  }

  type Dumper = Response -> Bytes

  // A request namespace cell: one branch, one epoch, one request id.
  datatype Ticket = Ticket(branch: Bytes, epoch: nat, id: Bytes)
  datatype Admission = Admission(payload: Bytes, result: Option<Response>)
  type Ledger = map<Ticket, Admission>

  datatype Cached = Cached(payload: Bytes, response: Option<Response>, waiters: seq<nat>, token: nat)
  type Cache = map<Bytes, Cached>

  // The journal entry of a key agrees with what was recorded for its ticket.
  predicate Persisted(e: Entry, a: Admission, dump: Dumper) {
    e.response == if a.result.None? then None else Some(dump(a.result.value))
  }

  // Everything admitted in this epoch is in the journal's map and nothing else
  // is; the RAM cache holds results the journal does not have (yet).
  ghost predicate Coherent(branch: Bytes, epoch: nat, entries: map<Key, Entry>, cache: Cache, ledger: Ledger, dump: Dumper) {
    && SameRequests(epoch, entries, ledger)
    && SavedResults(branch, epoch, entries, cache, ledger, dump)
    && (forall id :: id in cache ==> Key(branch, id) in entries && CachedOk(cache[id], entries[Key(branch, id)], ledger[Ticket(branch, epoch, id)]))
  }

  ghost predicate SameRequests(epoch: nat, entries: map<Key, Entry>, ledger: Ledger) {
    && (forall t :: t in ledger ==> t.epoch <= epoch)
    && (forall t :: t in ledger && t.epoch == epoch ==> Key(t.branch, t.id) in entries)
    && (forall k :: k in entries ==> Ticket(k.scope, epoch, k.id) in ledger && ledger[Ticket(k.scope, epoch, k.id)].payload == entries[k].payload)
  }

  ghost predicate SavedResults(branch: Bytes, epoch: nat, entries: map<Key, Entry>, cache: Cache, ledger: Ledger, dump: Dumper)
    requires SameRequests(epoch, entries, ledger)
  {
    forall k :: k in entries && !(k.scope == branch && k.id in cache) ==> Persisted(entries[k], ledger[Ticket(k.scope, epoch, k.id)], dump)
  }

  predicate CachedOk(c: Cached, e: Entry, a: Admission) {
    c.payload == a.payload && c.token == e.token && c.response == a.result && (c.response.None? ==> e.response.None?)
  }

  lemma AdmitKeeps(branch: Bytes, epoch: nat, entries: map<Key, Entry>, cache: Cache, ledger: Ledger, dump: Dumper,
                   id: Bytes, payload: Bytes, token: nat, closing: bool, waiter: nat)
    requires Coherent(branch, epoch, entries, cache, ledger, dump)
    requires Key(branch, id) !in entries
    ensures Ticket(branch, epoch, id) !in ledger
    ensures Coherent(branch, epoch, entries[Key(branch, id) := Entry(token, payload, None, closing)],
              cache[id := Cached(payload, None, [waiter], token)],
              ledger[Ticket(branch, epoch, id) := Admission(payload, None)], dump)
  {
  }

  lemma PersistKeeps(branch: Bytes, epoch: nat, entries: map<Key, Entry>, cache: Cache, ledger: Ledger, dump: Dumper, id: Bytes, r: Response)
    requires Coherent(branch, epoch, entries, cache, ledger, dump) && id in cache
    ensures Key(branch, id) in entries && Ticket(branch, epoch, id) in ledger
    ensures Coherent(branch, epoch, Answer(entries, Key(branch, id), dump(r)), cache - {id},
              ledger[Ticket(branch, epoch, id) := ledger[Ticket(branch, epoch, id)].(result := Some(r))], dump)
  {
    hide SavedResults, CachedOk, Persisted;
    AnswerKeepsRequests(epoch, entries, ledger, Key(branch, id), r, dump(r));
    AnswerSaves(branch, epoch, entries, cache, ledger, dump, id, r);
  }

  lemma AnswerKeepsRequests(epoch: nat, entries: map<Key, Entry>, ledger: Ledger, k: Key, r: Response, body: Bytes)
    requires SameRequests(epoch, entries, ledger) && k in entries
    ensures var t := Ticket(k.scope, epoch, k.id);
      SameRequests(epoch, Answer(entries, k, body), ledger[t := ledger[t].(result := Some(r))])
  {
  }

  lemma AnswerSaves(branch: Bytes, epoch: nat, entries: map<Key, Entry>, cache: Cache, ledger: Ledger, dump: Dumper, id: Bytes, r: Response)
    requires SameRequests(epoch, entries, ledger) && SavedResults(branch, epoch, entries, cache, ledger, dump) && Key(branch, id) in entries
    requires var t := Ticket(branch, epoch, id);
      SameRequests(epoch, Answer(entries, Key(branch, id), dump(r)), ledger[t := ledger[t].(result := Some(r))])
    ensures var t := Ticket(branch, epoch, id);
      SavedResults(branch, epoch, Answer(entries, Key(branch, id), dump(r)), cache - {id}, ledger[t := ledger[t].(result := Some(r))], dump)
  {
  }

  // A result the journal could not take stays in RAM.
  lemma RamOnlyKeeps(branch: Bytes, epoch: nat, entries: map<Key, Entry>, cache: Cache, ledger: Ledger, dump: Dumper, id: Bytes, r: Response)
    requires Coherent(branch, epoch, entries, cache, ledger, dump) && id in cache
    ensures Key(branch, id) in entries && Ticket(branch, epoch, id) in ledger
    ensures Coherent(branch, epoch, entries, cache[id := cache[id].(response := Some(r), waiters := [])],
              ledger[Ticket(branch, epoch, id) := ledger[Ticket(branch, epoch, id)].(result := Some(r))], dump)
  {
  }

  lemma EpochKeeps(branch: Bytes, epoch: nat, next: nat, entries: map<Key, Entry>, ledger: Ledger, dump: Dumper)
    requires Coherent(branch, epoch, entries, map[], ledger, dump) && next > epoch
    ensures Coherent(branch, next, map[], map[], ledger, dump)
  {
  }

  lemma RebindKeeps(branch: Bytes, target: Bytes, epoch: nat, entries: map<Key, Entry>, ledger: Ledger, dump: Dumper)
    requires Coherent(branch, epoch, entries, map[], ledger, dump)
    ensures Coherent(target, epoch, entries, map[], ledger, dump)
  {
  }

  // A retry of an admitted request is found in RAM or in the journal, and what
  // is found is what was recorded.
  lemma RetryIsFound(branch: Bytes, epoch: nat, entries: map<Key, Entry>, cache: Cache, ledger: Ledger, dump: Dumper, id: Bytes)
    requires Coherent(branch, epoch, entries, cache, ledger, dump)
    ensures var t, k := Ticket(branch, epoch, id), Key(branch, id);
      && (t in ledger <==> id in cache || k in entries)
      && (id in cache ==> t in ledger && cache[id].payload == ledger[t].payload && cache[id].response == ledger[t].result)
      && (id !in cache && k in entries ==> t in ledger && entries[k].payload == ledger[t].payload && Persisted(entries[k], ledger[t], dump))
  {
  }

  // ---- history ----------------------------------------------------------------

  datatype Delivery = Delivery(caller: nat, ticket: Ticket, payload: Bytes, response: Response)
  // An action attempt or a counted tick, on behalf of a request that expected
  // one exact version.
  datatype Effect = Effect(ticket: Ticket, expected: Version)
  datatype Attempt = Attempt(ticket: Ticket, ordinal: nat)

  datatype History = History(ledger: Ledger, admissions: seq<Ticket>, attempts: seq<Attempt>, effects: seq<Effect>,
                             completions: seq<(Ticket, Response)>, deliveries: seq<Delivery>)

  const NO_HISTORY := History(map[], [], [], [], [], [])

  predicate NoDuplicates<T(==)>(s: seq<T>) {
    forall i, j :: 0 <= i < j < |s| ==> s[i] != s[j]
  }

  // A reply that is not a refusal is the recorded result of the very request
  // that asked.
  predicate Truthful(d: Delivery, ledger: Ledger) {
    !d.response.Rejected? ==> d.ticket in ledger && ledger[d.ticket] == Admission(d.payload, Some(d.response))
  }

  predicate HasResult(ledger: Ledger, t: Ticket, r: Response) {
    t in ledger && ledger[t].result == Some(r)
  }

  // The completions list every recorded result once.
  ghost predicate CompletionsOk(completions: seq<(Ticket, Response)>, ledger: Ledger) {
    && (forall i, j :: 0 <= i < j < |completions| ==> completions[i].0 != completions[j].0)
    && (forall i :: 0 <= i < |completions| ==> completions[i].0 in ledger && ledger[completions[i].0].result == Some(completions[i].1))
    && (forall t :: t in ledger && ledger[t].result.Some? ==> exists i :: 0 <= i < |completions| && completions[i].0 == t)
  }

  ghost predicate HistoryOk(h: History) {
    && NoDuplicates(h.admissions) && (forall t :: t in h.admissions <==> t in h.ledger)
    && NoDuplicates(h.attempts) && (forall a :: a in h.attempts ==> a.ticket in h.ledger)
    && CompletionsOk(h.completions, h.ledger)
    && (forall d :: d in h.deliveries ==> Truthful(d, h.ledger))
  }

  // Tickets are only added and recorded results never change.
  ghost predicate Grows(a: Ledger, b: Ledger) {
    forall t :: t in a ==> t in b && b[t].payload == a[t].payload && (a[t].result.Some? ==> b[t].result == a[t].result)
  }

  // No effect belongs to a request whose expected version is still current, and
  // one expected version has the effects of one request only.
  ghost predicate EffectsOk(effects: seq<Effect>, now: Version, pending: Option<Effect>) {
    && (forall e :: e in effects ==> Earlier(e.expected, now))
    && (forall e, f :: e in effects && f in effects && e.expected == f.expected ==> e.ticket == f.ticket)
    && (pending.Some? ==>
          && (pending.value.expected == now || Earlier(pending.value.expected, now))
          && forall e :: e in effects && e.expected == pending.value.expected ==> e.ticket == pending.value.ticket)
  }

  lemma EffectKeeps(effects: seq<Effect>, now: Version, later: Version, pending: Effect)
    requires EffectsOk(effects, now, Some(pending)) && Earlier(now, later)
    ensures EffectsOk(effects + [pending], later, Some(pending))
  {
  }

  function CallsOf(r: Response): nat {
    if r.Finished? || r.AuditFailed? then r.work.calls else 0
  }

  // executed_engine_calls over all completions.
  function TotalCalls(completions: seq<(Ticket, Response)>): nat {
    if completions == [] then 0
    else TotalCalls(completions[..|completions| - 1]) + CallsOf(completions[|completions| - 1].1)
  }

  // A success reports no more ticks than were asked for, and a spent budget
  // exactly as many.
  predicate Metered(r: Response) {
    r.Finished? && Succeeds(r) ==> r.work.executed <= r.work.requested && (r.reason == BudgetExhausted ==> r.work.executed == r.work.requested)
  }

  // What every completion meets. Only where no engine call is measured may a
  // terminal update have run past the budget.
  predicate Fits(usesCalls: bool, r: Response) {
    usesCalls || !(r.Finished? && r.reason == SceneChanged) ==> Metered(r)
  }

  function WithAdmission(h: History, t: Ticket, payload: Bytes): History {
    h.(ledger := h.ledger[t := Admission(payload, None)], admissions := h.admissions + [t])
  }

  function WithResult(h: History, t: Ticket, r: Response): History
    requires t in h.ledger
  {
    h.(ledger := h.ledger[t := h.ledger[t].(result := Some(r))], completions := h.completions + [(t, r)])
  }

  lemma AdmittedKeeps(h: History, t: Ticket, payload: Bytes)
    requires HistoryOk(h) && t !in h.ledger
    ensures HistoryOk(WithAdmission(h, t, payload)) && Grows(h.ledger, WithAdmission(h, t, payload).ledger)
  {
    var after := WithAdmission(h, t, payload);
    assert forall u :: u in after.admissions <==> u in h.admissions || u == t;
  }

  lemma RecordedKeeps(h: History, t: Ticket, r: Response)
    requires HistoryOk(h) && t in h.ledger && h.ledger[t].result.None?
    ensures HistoryOk(WithResult(h, t, r)) && Grows(h.ledger, WithResult(h, t, r).ledger)
    ensures TotalCalls(WithResult(h, t, r).completions) == TotalCalls(h.completions) + CallsOf(r)
  {
    hide CompletionsOk, NoDuplicates;
    CompletionAdded(h.completions, h.ledger, t, r);
    assert WithResult(h, t, r).completions[..|h.completions|] == h.completions;
  }

  lemma CompletionAdded(completions: seq<(Ticket, Response)>, ledger: Ledger, t: Ticket, r: Response)
    requires CompletionsOk(completions, ledger) && t in ledger && ledger[t].result.None?
    ensures CompletionsOk(completions + [(t, r)], ledger[t := ledger[t].(result := Some(r))])
  {
    var after, later := completions + [(t, r)], ledger[t := ledger[t].(result := Some(r))];
    forall u | u in later && later[u].result.Some?
      ensures exists i :: 0 <= i < |after| && after[i].0 == u
    {
      if u == t {
        assert after[|completions|].0 == u;
      } else {
        var i :| 0 <= i < |completions| && completions[i].0 == u;
        assert after[i].0 == u;
      }
    }
  }

  lemma DeliveredKeeps(h: History, more: seq<Delivery>)
    requires HistoryOk(h) && forall d :: d in more ==> Truthful(d, h.ledger)
    ensures HistoryOk(h.(deliveries := h.deliveries + more))
  {
  }

  lemma AttemptedKeeps(h: History, t: Ticket, ordinal: nat)
    requires HistoryOk(h) && t in h.ledger && Attempt(t, ordinal) !in h.attempts
    ensures HistoryOk(h.(attempts := h.attempts + [Attempt(t, ordinal)]))
  {
  }
}
