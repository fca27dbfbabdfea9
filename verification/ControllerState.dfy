// The controller's state as one value, what every reachable state satisfies, and
// the transitions the controller's methods perform.
module ControllerState {
  import opened JournalFormat
  import opened JournalLog
  import opened RequestJournals
  import opened ControllerLedger

  datatype Pending = Pending(id: Bytes, requested: nat, executed: nat, calls: nat, terminalZero: nat,
                             startWave: int, untilWave: bool, actions: nat)
  datatype TerminalReply = TerminalReply(id: Bytes, canonical: Bytes, response: Response)

  datatype Core = Core(
    branch: Bytes, now: Version, entries: map<Key, Entry>, used: nat, reserveCount: nat,
    cache: Cache, pending: Option<Pending>, expected: Version, storageFault: bool, recordingClosed: bool,
    terminal: Option<TerminalReply>, terminalTicket: Ticket, outbox: seq<(nat, Response)>, h: History,
    started: set<Ticket>, returned: nat, uncounted: nat, lost: nat, closeTried: bool)

  // What never changes during a run.
  datatype Setting = Setting(limits: Limits, dump: Dumper, usesCalls: bool)

  function WorkOf(p: Pending): Work {
    Work(p.requested, p.executed, p.calls, p.terminalZero, p.actions)
  }

  function TicketOf(c: Core, id: Bytes): Ticket {
    Ticket(c.branch, c.now.epoch, id)
  }

  function PendingEffect(c: Core): Option<Effect> {
    if c.pending.None? then None else Some(Effect(TicketOf(c, c.pending.value.id), c.expected))
  }

  function PendingCalls(p: Option<Pending>): nat {
    if p.Some? then p.value.calls else 0
  }

  // ---- what every reachable state satisfies -----------------------------------

  ghost predicate OutboxOk(outbox: seq<(nat, Response)>, deliveries: seq<Delivery>) {
    && |outbox| == |deliveries|
    && forall i :: 0 <= i < |outbox| ==> outbox[i] == (deliveries[i].caller, deliveries[i].response)
  }

  // RAM-only results exist only after a storage failure, and a pending
  // advancement is admitted and unanswered.
  ghost predicate CacheOk(c: Core) {
    && (forall id :: id in c.cache && c.cache[id].response.Some? ==> c.storageFault)
    && (c.pending.Some? ==> c.pending.value.id in c.cache && c.cache[c.pending.value.id].response.None?)
    && (!c.recordingClosed ==> forall id :: id in c.cache && Key(c.branch, id) in c.entries ==> c.entries[Key(c.branch, id)].response.None?)
    && (c.recordingClosed ==> c.pending.None?)
  }

  // An admitted request without a result is still waiting in RAM.
  ghost predicate NothingLost(c: Core) {
    forall t :: t in c.h.ledger && c.h.ledger[t].result.None? ==> t == TicketOf(c, t.id) && t.id in c.cache
  }

  ghost predicate TerminalOk(c: Core) {
    c.terminal.Some? ==>
      && c.terminalTicket.branch == c.branch && c.terminalTicket.id == c.terminal.value.id
      && c.terminalTicket in c.h.ledger
      && c.h.ledger[c.terminalTicket] == Admission(c.terminal.value.canonical, Some(c.terminal.value.response))
  }

  // An advancement starts once, and its actions are numbered as they run.
  ghost predicate StartsOk(c: Core) {
    && (forall t :: t in c.started ==> t in c.h.ledger)
    && (forall a :: a in c.h.attempts ==> a.ticket in c.started)
    && (c.pending.Some? ==> forall a :: a in c.h.attempts && a.ticket == TicketOf(c, c.pending.value.id) ==> a.ordinal < c.pending.value.actions)
  }

  ghost predicate AllFit(completions: seq<(Ticket, Response)>, usesCalls: bool) {
    forall i :: 0 <= i < |completions| ==> Fits(usesCalls, completions[i].1)
  }

  ghost predicate CallsOk(c: Core, usesCalls: bool) {
    && c.returned == TotalCalls(c.h.completions) + PendingCalls(c.pending) + c.uncounted + c.lost
    && AllFit(c.h.completions, usesCalls)
  }

  // Until a close is tried, the closing part of the reserve is untouched.
  ghost predicate CloseRoom(c: Core, limits: Limits) {
    && c.used <= ByteLimit(limits, 1, false) && c.reserveCount < limits.reserveEntries
    && (forall k :: k in c.entries ==> !c.entries[k].closing)
    && |c.cache| <= 2
  }

  ghost predicate Sound(c: Core, s: Setting) {
    && Coherent(c.branch, c.now.epoch, c.entries, c.cache, c.h.ledger, s.dump)
    && HistoryOk(c.h)
    && OutboxOk(c.outbox, c.h.deliveries)
    && CacheOk(c)
    && NothingLost(c) && StartsOk(c)
    && EffectsOk(c.h.effects, c.now, PendingEffect(c))
    && TerminalOk(c)
    && CallsOk(c, s.usesCalls)
    && (!c.closeTried ==> CloseRoom(c, s.limits))
  }

  function Unanswered(c: Core): set<Bytes> {
    set id | id in c.cache && c.cache[id].response.None?
  }

  function PendingIds(c: Core): set<Bytes> {
    if c.pending.Some? then {c.pending.value.id} else {}
  }

  // Between two steps only the pending advancement waits, every returned call is
  // accounted for, and the budget is not exceeded.
  ghost predicate Rest(c: Core, s: Setting) {
    && Sound(c, s)
    && Calm(c)
    && WithinBudget(c)
  }

  predicate Calm(c: Core) {
    Unanswered(c) == PendingIds(c) && c.uncounted == 0
  }

  // Only the pending advancement waits; the call it made may not be accounted for.
  predicate Idles(c: Core) {
    Unanswered(c) == PendingIds(c)
  }

  predicate WithinBudget(c: Core) {
    c.pending.Some? ==> c.pending.value.executed <= c.pending.value.requested
  }

  // ---- growth over a run ------------------------------------------------------

  // Later states keep every admission, result, attempt and reply, and the
  // version never goes back.
  ghost predicate Follows(a: Core, b: Core) {
    && Grows(a.h.ledger, b.h.ledger)
    && a.h.admissions <= b.h.admissions && a.h.attempts <= b.h.attempts && a.h.effects <= b.h.effects
    && a.h.completions <= b.h.completions && a.h.deliveries <= b.h.deliveries
    && (a.now == b.now || Earlier(a.now, b.now))
    && NoLateWork(a, b)
  }

  predicate Done(c: Core, t: Ticket) {
    t in c.h.ledger && c.h.ledger[t].result.Some?
  }

  // Whatever was attempted or counted since `a` was for a request without a
  // result in `a`.
  ghost predicate NoLateWork(a: Core, b: Core) {
    && (forall x :: x in b.h.attempts && x !in a.h.attempts ==> !Done(a, x.ticket))
    && (forall x :: x in b.h.effects && x !in a.h.effects ==> !Done(a, x.ticket))
  }

  lemma FollowsItself(a: Core)
    ensures Follows(a, a)
  {
  }

  lemma FollowsTransitive(a: Core, b: Core, c: Core)
    requires Follows(a, b) && Follows(b, c)
    ensures Follows(a, c)
  {
  }

  // From `a` to `b` the requests in `gone` were answered and nothing else changed
  // that a later step could notice.
  ghost predicate Resolves(a: Core, b: Core, gone: set<Bytes>) {
    && Follows(a, b)
    && b.(entries := a.entries, used := a.used, cache := a.cache, pending := a.pending, storageFault := a.storageFault,
          terminal := a.terminal, terminalTicket := a.terminalTicket, outbox := a.outbox, h := a.h) == a
    && (a.storageFault ==> b.storageFault)
    && Unanswered(b) == Unanswered(a) - gone
    && b.cache.Keys <= a.cache.Keys
    && b.pending == (if a.pending.Some? && a.pending.value.id in gone then None else a.pending)
    && b.h.attempts == a.h.attempts && b.h.effects == a.h.effects && b.h.admissions == a.h.admissions
  }

  lemma ResolvesTransitive(a: Core, b: Core, c: Core, gone: set<Bytes>, more: set<Bytes>)
    requires Resolves(a, b, gone) && Resolves(b, c, more)
    ensures Resolves(a, c, gone + more)
  {
    FollowsTransitive(a, b, c);
  }

  lemma ResolvesFacts(a: Core, b: Core, gone: set<Bytes>)
    requires Resolves(a, b, gone)
    ensures Follows(a, b) && (a.storageFault ==> b.storageFault) && b.branch == a.branch && b.now == a.now && b.uncounted == a.uncounted
    ensures b.pending == a.pending || (b.pending.None? && PendingIds(a) <= gone)
    ensures Unanswered(b) == Unanswered(a) - gone
    ensures WithinBudget(a) ==> WithinBudget(b)
  {
  }

  lemma ResultKept(a: Core, b: Core, t: Ticket, r: Response)
    requires Follows(a, b) && t in a.h.ledger && a.h.ledger[t].result == Some(r)
    ensures t in b.h.ledger && b.h.ledger[t].result == Some(r)
  {
  }

  lemma FaultResolves(a: Core)
    ensures Resolves(a, a.(storageFault := true), {})
  {
    assert Unanswered(a.(storageFault := true)) == Unanswered(a);
  }

  lemma ResolvesNothing(a: Core)
    ensures Resolves(a, a, {})
  {
  }

  // A run starts with nothing admitted.
  function Initial(branch: Bytes, used: nat): Core {
    Core(branch, Version(1, 0, 0), map[], used, 0, map[], None, Version(0, 0, 0), false, false, None, Ticket([], 0, []), [],
         NO_HISTORY, {}, 0, 0, 0, false)
  }

  lemma InitialRests(branch: Bytes, used: nat, s: Setting)
    requires used <= ByteLimit(s.limits, 1, false) && s.limits.reserveEntries > 0
    ensures Rest(Initial(branch, used), s)
  {
  }

  // The pending advancement ended, or nothing was answered.
  ghost predicate Winds(a: Core, b: Core) {
    Resolves(a, b, {}) || Resolves(a, b, PendingIds(a))
  }

  lemma WindsFacts(a: Core, b: Core)
    requires Winds(a, b)
    ensures Follows(a, b) && (Calm(a) ==> Calm(b)) && (WithinBudget(a) ==> WithinBudget(b)) && (Idles(a) ==> Idles(b))
    ensures a.pending.None? ==> b.pending.None?
    ensures b.pending == a.pending || b.pending.None?
    ensures b.now == a.now && b.branch == a.branch && b.uncounted == a.uncounted && b.recordingClosed == a.recordingClosed
    ensures b.closeTried == a.closeTried && b.h.attempts == a.h.attempts && b.h.effects == a.h.effects && b.started == a.started
  {
    hide Follows;
  }

  lemma WindsTransitive(a: Core, b: Core, c: Core)
    requires Winds(a, b) && Winds(b, c)
    ensures Winds(a, c)
  {
    hide Follows, Unanswered;
    var g, more := if Resolves(a, b, {}) then {} else PendingIds(a), if Resolves(b, c, {}) then {} else PendingIds(b);
    ResolvesTransitive(a, b, c, g, more);
    assert g + more == {} || g + more == PendingIds(a);
  }

  lemma NothingWinds(a: Core)
    ensures Winds(a, a) && Winds(a, a.(storageFault := true)) && (a.pending.None? ==> WithinBudget(a))
  {
    ResolvesNothing(a);
    FaultResolves(a);
  }

  // Request `id` was answered, and perhaps the pending advancement ended too.
  ghost predicate Answers(a: Core, b: Core, id: Bytes) {
    Resolves(a, b, {id}) || Resolves(a, b, {id} + PendingIds(a))
  }

  lemma SecondEnding(before: Core, done: Core, after: Core, id: Bytes, response: Response)
    requires Resolves(before, done, {id}) && Winds(done, after)
    requires HasResult(done.h.ledger, TicketOf(before, id), response)
    ensures Answers(before, after, id) && HasResult(after.h.ledger, TicketOf(before, id), response)
  {
    hide Follows, TicketOf, Unanswered, Grows;
    var more := if Resolves(done, after, {}) then {} else PendingIds(done);
    ResolvesTransitive(before, done, after, {id}, more);
    assert {id} + more == {id} || {id} + more == {id} + PendingIds(before);
    ResolvesFacts(done, after, more);
    ResultKept(done, after, TicketOf(before, id), response);
  }

  // ---- transitions ------------------------------------------------------------

  function Admit(c: Core, id: Bytes, payload: Bytes, token: nat, closing: bool, waiter: nat): Core {
    var t := TicketOf(c, id);
    c.(entries := c.entries[Key(c.branch, id) := Entry(token, payload, None, closing)],
       cache := c.cache[id := Cached(payload, None, [waiter], token)],
       h := WithAdmission(c.h, t, payload),
       closeTried := c.closeTried || closing)
  }

  lemma AdmitSound(c: Core, s: Setting, id: Bytes, payload: Bytes, token: nat, closing: bool, waiter: nat, used: nat, reserveCount: nat)
    requires Sound(c, s) && Key(c.branch, id) !in c.entries && !c.recordingClosed
    requires !c.closeTried && !closing ==> |c.cache| < 2 && used <= ByteLimit(s.limits, 1, false) && reserveCount < s.limits.reserveEntries
    ensures var after := Admit(c.(used := used, reserveCount := reserveCount), id, payload, token, closing, waiter);
      Sound(after, s) && Follows(c, after)
  {
    hide Coherent, HistoryOk, OutboxOk, CacheOk, NothingLost, StartsOk, EffectsOk, TerminalOk, CallsOk, CloseRoom, Sound, Admit, Follows, Grows;
    SoundParts(c, s);
    NotCached(c, s, id);
    AdmitKeeps(c.branch, c.now.epoch, c.entries, c.cache, c.h.ledger, s.dump, id, payload, token, closing, waiter);
    AdmittedKeeps(c.h, TicketOf(c, id), payload);
    AdmitKeepsCache(c, s, id, payload, token, closing, waiter, used, reserveCount);
    AdmitKeepsRest(c, s, id, payload, token, closing, waiter, used, reserveCount);
    SoundWhole(Admit(c.(used := used, reserveCount := reserveCount), id, payload, token, closing, waiter), s);
  }

  lemma AdmitParts(c: Core, id: Bytes, payload: Bytes, token: nat, closing: bool, waiter: nat)
    ensures Admit(c, id, payload, token, closing, waiter).entries == c.entries[Key(c.branch, id) := Entry(token, payload, None, closing)]
    ensures Admit(c, id, payload, token, closing, waiter).h.effects == c.h.effects
  {
  }

  lemma AdmitKeepsCache(c: Core, s: Setting, id: Bytes, payload: Bytes, token: nat, closing: bool, waiter: nat, used: nat, reserveCount: nat)
    requires CacheOk(c) && NothingLost(c) && StartsOk(c) && id !in c.cache && !c.recordingClosed
    requires !c.closeTried ==> CloseRoom(c, s.limits)
    requires !c.closeTried && !closing ==> |c.cache| < 2 && used <= ByteLimit(s.limits, 1, false) && reserveCount < s.limits.reserveEntries
    ensures var after := Admit(c.(used := used, reserveCount := reserveCount), id, payload, token, closing, waiter);
      CacheOk(after) && NothingLost(after) && StartsOk(after) && (!after.closeTried ==> CloseRoom(after, s.limits))
  {
    hide ByteLimit;
  }

  // What an admission leaves alone, and what it adds to.
  lemma AdmitKeepsRest(c: Core, s: Setting, id: Bytes, payload: Bytes, token: nat, closing: bool, waiter: nat, used: nat, reserveCount: nat)
    requires OutboxOk(c.outbox, c.h.deliveries) && EffectsOk(c.h.effects, c.now, PendingEffect(c)) && TerminalOk(c) && CallsOk(c, s.usesCalls)
    requires TicketOf(c, id) !in c.h.ledger
    ensures var after := Admit(c.(used := used, reserveCount := reserveCount), id, payload, token, closing, waiter);
      && OutboxOk(after.outbox, after.h.deliveries) && EffectsOk(after.h.effects, after.now, PendingEffect(after))
      && TerminalOk(after) && CallsOk(after, s.usesCalls) && Follows(c, after)
      && after.entries == c.entries[Key(c.branch, id) := Entry(token, payload, None, closing)]
      && after.cache == c.cache[id := Cached(payload, None, [waiter], token)] && after.h == WithAdmission(c.h, TicketOf(c, id), payload)
      && after.branch == c.branch && after.now == c.now
  {
    hide OutboxOk, EffectsOk, TotalCalls, AllFit;
  }

  lemma NotCached(c: Core, s: Setting, id: Bytes)
    requires Sound(c, s) && Key(c.branch, id) !in c.entries
    ensures id !in c.cache && TicketOf(c, id) !in c.h.ledger
  {
  }

  lemma SoundParts(c: Core, s: Setting)
    requires Sound(c, s)
    ensures Coherent(c.branch, c.now.epoch, c.entries, c.cache, c.h.ledger, s.dump) && HistoryOk(c.h) && OutboxOk(c.outbox, c.h.deliveries)
    ensures CacheOk(c) && NothingLost(c) && StartsOk(c) && EffectsOk(c.h.effects, c.now, PendingEffect(c)) && TerminalOk(c) && CallsOk(c, s.usesCalls)
    ensures !c.closeTried ==> CloseRoom(c, s.limits)
  {
  }

  lemma SoundWhole(c: Core, s: Setting)
    requires Coherent(c.branch, c.now.epoch, c.entries, c.cache, c.h.ledger, s.dump) && HistoryOk(c.h) && OutboxOk(c.outbox, c.h.deliveries)
    requires CacheOk(c) && NothingLost(c) && StartsOk(c) && EffectsOk(c.h.effects, c.now, PendingEffect(c)) && TerminalOk(c) && CallsOk(c, s.usesCalls)
    requires !c.closeTried ==> CloseRoom(c, s.limits)
    ensures Sound(c, s)
  {
  }

  // ---- a result ---------------------------------------------------------------

  function Replies(waiters: seq<nat>, r: Response): seq<(nat, Response)> {
    seq(|waiters|, i requires 0 <= i < |waiters| => (waiters[i], r))
  }

  // Everyone who waits is told, in order.
  lemma RepliesTellAll(waiters: seq<nat>, r: Response)
    ensures |Replies(waiters, r)| == |waiters| && forall k :: 0 <= k < |waiters| ==> Replies(waiters, r)[k] == (waiters[k], r)
  {
  }

  function Told(waiters: seq<nat>, t: Ticket, payload: Bytes, r: Response): seq<Delivery> {
    seq(|waiters|, i requires 0 <= i < |waiters| => Delivery(waiters[i], t, payload, r))
  }

  // The result of an admitted request: in the journal if it took it, else in
  // RAM; everyone who waits receives it.
  function Settle(c: Core, dump: Dumper, id: Bytes, r: Response, stored: bool, used: nat): Core
    requires id in c.cache && TicketOf(c, id) in c.h.ledger && Key(c.branch, id) in c.entries && CallsOf(r) <= c.uncounted
  {
    var t := TicketOf(c, id);
    var done := WithResult(c.h, t, r);
    c.(entries := if stored then Answer(c.entries, Key(c.branch, id), dump(r)) else c.entries,
       used := used,
       cache := if stored then c.cache - {id} else c.cache[id := c.cache[id].(response := Some(r), waiters := [])],
       storageFault := c.storageFault || !stored,
       outbox := c.outbox + Replies(c.cache[id].waiters, r),
       h := done.(deliveries := done.deliveries + Told(c.cache[id].waiters, t, c.cache[id].payload, r)),
       uncounted := c.uncounted - CallsOf(r))
  }

  // Answering an ordinary reservation never eats into the closing reserve.
  lemma RoomKept(c: Core, s: Setting, id: Bytes, used: nat)
    requires Sound(c, s) && Key(c.branch, id) in c.entries
    requires used == c.used || used <= ByteLimit(s.limits, 1, c.entries[Key(c.branch, id)].closing)
    ensures !c.closeTried ==> used <= ByteLimit(s.limits, 1, false)
  {
    hide Coherent, HistoryOk, OutboxOk, CacheOk, NothingLost, StartsOk, EffectsOk, TerminalOk, CallsOk, ByteLimit;
  }

  predicate Settles(c: Core, s: Setting, id: Bytes, r: Response) {
    && id in c.cache && c.cache[id].response.None? && (c.pending.Some? ==> c.pending.value.id != id)
    && CallsOf(r) <= c.uncounted && Fits(s.usesCalls, r)
  }

  // A cached request is in the journal's map and in the ledger.
  lemma CachedIsAdmitted(c: Core, s: Setting, id: Bytes)
    requires Sound(c, s) && id in c.cache
    ensures Key(c.branch, id) in c.entries && TicketOf(c, id) in c.h.ledger
    ensures CachedOk(c.cache[id], c.entries[Key(c.branch, id)], c.h.ledger[TicketOf(c, id)])
  {
  }

  lemma SettleSound(c: Core, s: Setting, id: Bytes, r: Response, stored: bool, used: nat)
    requires Sound(c, s) && Settles(c, s, id, r) && (!c.closeTried ==> used <= ByteLimit(s.limits, 1, false))
    ensures TicketOf(c, id) in c.h.ledger && Key(c.branch, id) in c.entries
    ensures var after := Settle(c, s.dump, id, r, stored, used); Sound(after, s) && Follows(c, after)
  {
    hide Coherent, HistoryOk, OutboxOk, CacheOk, NothingLost, StartsOk, EffectsOk, TerminalOk, CallsOk, CloseRoom, Sound, Settle, Follows, Grows, Fits, CallsOf;
    SoundParts(c, s);
    CachedIsAdmitted(c, s, id);
    SettleKeepsMap(c, s, id, r, stored, used);
    SettleKeepsHistory(c, s, id, r, stored, used);
    SettleKeepsCache(c, s, id, r, stored, used);
    SettleKeepsRest(c, s, id, r, stored, used);
    SoundWhole(Settle(c, s.dump, id, r, stored, used), s);
  }

  lemma SettleKeepsMap(c: Core, s: Setting, id: Bytes, r: Response, stored: bool, used: nat)
    requires Coherent(c.branch, c.now.epoch, c.entries, c.cache, c.h.ledger, s.dump) && id in c.cache && CallsOf(r) <= c.uncounted
    requires TicketOf(c, id) in c.h.ledger && Key(c.branch, id) in c.entries
    ensures var after := Settle(c, s.dump, id, r, stored, used);
      Coherent(after.branch, after.now.epoch, after.entries, after.cache, after.h.ledger, s.dump)
  {
    hide Coherent, Answer;
    if stored {
      PersistKeeps(c.branch, c.now.epoch, c.entries, c.cache, c.h.ledger, s.dump, id, r);
    } else {
      RamOnlyKeeps(c.branch, c.now.epoch, c.entries, c.cache, c.h.ledger, s.dump, id, r);
    }
  }

  lemma SettleKeepsHistory(c: Core, s: Setting, id: Bytes, r: Response, stored: bool, used: nat)
    requires HistoryOk(c.h) && OutboxOk(c.outbox, c.h.deliveries) && CallsOk(c, s.usesCalls) && id in c.cache
    requires TicketOf(c, id) in c.h.ledger && Key(c.branch, id) in c.entries && CallsOf(r) <= c.uncounted && Fits(s.usesCalls, r)
    requires c.h.ledger[TicketOf(c, id)] == Admission(c.cache[id].payload, None)
    ensures var after := Settle(c, s.dump, id, r, stored, used);
      && HistoryOk(after.h) && OutboxOk(after.outbox, after.h.deliveries) && CallsOk(after, s.usesCalls) && Follows(c, after)
  {
    hide HistoryOk, Fits, CallsOf, TotalCalls, Answer, Grows;
    var t, more := TicketOf(c, id), Told(c.cache[id].waiters, TicketOf(c, id), c.cache[id].payload, r);
    RecordedKeeps(c.h, t, r);
    DeliveredKeeps(WithResult(c.h, t, r), more);
  }

  lemma SettleKeepsCache(c: Core, s: Setting, id: Bytes, r: Response, stored: bool, used: nat)
    requires CacheOk(c) && NothingLost(c) && StartsOk(c) && id in c.cache && (c.pending.Some? ==> c.pending.value.id != id)
    requires TicketOf(c, id) in c.h.ledger && Key(c.branch, id) in c.entries && CallsOf(r) <= c.uncounted
    ensures var after := Settle(c, s.dump, id, r, stored, used); CacheOk(after) && NothingLost(after) && StartsOk(after)
  {
    hide CallsOf;
  }

  lemma SettleKeepsRest(c: Core, s: Setting, id: Bytes, r: Response, stored: bool, used: nat)
    requires EffectsOk(c.h.effects, c.now, PendingEffect(c)) && TerminalOk(c) && (!c.closeTried ==> CloseRoom(c, s.limits))
    requires id in c.cache && TicketOf(c, id) in c.h.ledger && Key(c.branch, id) in c.entries && CallsOf(r) <= c.uncounted
    requires c.h.ledger[TicketOf(c, id)].result.None? && (!c.closeTried ==> used <= ByteLimit(s.limits, 1, false))
    ensures var after := Settle(c, s.dump, id, r, stored, used);
      && EffectsOk(after.h.effects, after.now, PendingEffect(after)) && TerminalOk(after) && (!after.closeTried ==> CloseRoom(after, s.limits))
  {
    hide CallsOf, EffectsOk, ByteLimit;
    if stored {
      var rest := c.cache - {id};
      assert rest.Keys == c.cache.Keys - {id};
    } else {
      var same := c.cache[id := c.cache[id].(response := Some(r), waiters := [])];
      assert same.Keys == c.cache.Keys;
    }
  }

  lemma SettleResolves(c: Core, s: Setting, id: Bytes, r: Response, stored: bool, used: nat)
    requires Sound(c, s) && Settles(c, s, id, r) && TicketOf(c, id) in c.h.ledger && Key(c.branch, id) in c.entries
    requires Follows(c, Settle(c, s.dump, id, r, stored, used))
    ensures var after := Settle(c, s.dump, id, r, stored, used);
      && Resolves(c.(uncounted := after.uncounted), after, {id})
      && after.uncounted == c.uncounted - CallsOf(r) && WithinBudget(c) == WithinBudget(after) && after.pending == c.pending
      && TicketOf(c, id) in after.h.ledger && after.h.ledger[TicketOf(c, id)].result == Some(r)
  {
    hide Sound, Grows, Fits, CallsOf;
  }

  // Everything a result changes, part by part.
  lemma SettleParts(c: Core, dump: Dumper, id: Bytes, r: Response, stored: bool, used: nat)
    requires id in c.cache && TicketOf(c, id) in c.h.ledger && Key(c.branch, id) in c.entries && CallsOf(r) <= c.uncounted
    ensures var after := Settle(c, dump, id, r, stored, used);
      && after.outbox == c.outbox + Replies(c.cache[id].waiters, r)
      && after.cache == (if stored then c.cache - {id} else c.cache[id := c.cache[id].(response := Some(r), waiters := [])])
      && after == c.(entries := if stored then Answer(c.entries, Key(c.branch, id), dump(r)) else c.entries,
                     used := used, storageFault := c.storageFault || !stored,
                     cache := after.cache, outbox := after.outbox, h := after.h, uncounted := after.uncounted)
  {
    hide Answer, Replies, Told, CallsOf;
  }

  // A finished fight keeps its one reply recoverable under the next epoch.
  lemma TerminalSound(c: Core, s: Setting, t: Ticket, reply: TerminalReply)
    requires Sound(c, s) && t.branch == c.branch && t.id == reply.id
    requires t in c.h.ledger && c.h.ledger[t] == Admission(reply.canonical, Some(reply.response))
    ensures var after := c.(terminal := Some(reply), terminalTicket := t); Sound(after, s) && Follows(c, after)
  {
    hide Coherent, HistoryOk, OutboxOk, EffectsOk, TotalCalls, AllFit;
  }

  // ---- the pending advancement ------------------------------------------------

  function Start(c: Core, p: Pending): Core {
    c.(pending := Some(p), expected := c.now, started := c.started + {TicketOf(c, p.id)})
  }

  lemma StartSound(c: Core, s: Setting, p: Pending)
    requires Sound(c, s) && c.pending.None? && !c.recordingClosed && p.calls == 0 && p.actions == 0
    requires p.id in c.cache && c.cache[p.id].response.None? && TicketOf(c, p.id) !in c.started
    ensures Sound(Start(c, p), s) && Follows(c, Start(c, p))
  {
    hide Coherent, HistoryOk, OutboxOk, TotalCalls, AllFit;
    CachedIsAdmitted(c, s, p.id);
  }

  // The request leaves its slot; its calls still have to be reported.
  function Detach(c: Core): Core
    requires c.pending.Some?
  {
    c.(pending := None, uncounted := c.uncounted + c.pending.value.calls)
  }

  lemma DetachSound(c: Core, s: Setting)
    requires Sound(c, s) && c.pending.Some?
    ensures Sound(Detach(c), s) && Follows(c, Detach(c))
    ensures c.pending.value.id in c.cache && c.cache[c.pending.value.id].response.None?
  {
    hide Coherent, HistoryOk, OutboxOk, TotalCalls, AllFit;
  }

  // The entry of a pending request can still be answered.
  lemma PendingIsOpen(c: Core, s: Setting)
    requires Sound(c, s) && c.pending.Some?
    ensures var k := Key(c.branch, c.pending.value.id); k in c.entries && c.entries[k].response.None?
    ensures var id := c.pending.value.id; id in c.cache && c.cache[id].response.None? && TicketOf(c, id) in c.h.ledger
    ensures Unanswered(c) >= PendingIds(c)
  {
    hide HistoryOk, OutboxOk, NothingLost, StartsOk, EffectsOk, TerminalOk, CallsOk, CloseRoom;
  }

  // Ending the pending advancement with one result.
  function Ended(c: Core, dump: Dumper, r: Response, stored: bool, used: nat): Core
    requires c.pending.Some? && c.pending.value.id in c.cache && TicketOf(c, c.pending.value.id) in c.h.ledger
    requires Key(c.branch, c.pending.value.id) in c.entries && CallsOf(r) == c.pending.value.calls
  {
    Settle(Detach(c), dump, c.pending.value.id, r, stored, used)
  }

  lemma EndResolves(c: Core, s: Setting, r: Response, stored: bool, used: nat)
    requires Sound(c, s) && c.pending.Some? && CallsOf(r) == c.pending.value.calls && Fits(s.usesCalls, r)
    requires c.pending.value.id in c.cache && TicketOf(c, c.pending.value.id) in c.h.ledger && Key(c.branch, c.pending.value.id) in c.entries
    requires Sound(Detach(c), s) && Settles(Detach(c), s, c.pending.value.id, r)
    requires Follows(Detach(c), Ended(c, s.dump, r, stored, used))
    ensures Resolves(c, Ended(c, s.dump, r, stored, used), PendingIds(c))
  {
    hide Sound, Fits, CallsOf, Grows;
    SettleResolves(Detach(c), s, c.pending.value.id, r, stored, used);
    assert Unanswered(Detach(c)) == Unanswered(c);
    hide Settle;
  }

  lemma EndedRecords(c: Core, s: Setting, r: Response, stored: bool, used: nat)
    requires Sound(c, s) && c.pending.Some? && CallsOf(r) == c.pending.value.calls
    requires c.pending.value.id in c.cache && TicketOf(c, c.pending.value.id) in c.h.ledger && Key(c.branch, c.pending.value.id) in c.entries
    ensures var t, after := TicketOf(c, c.pending.value.id), Ended(c, s.dump, r, stored, used);
      && t in after.h.ledger && after.h.ledger[t] == Admission(c.cache[c.pending.value.id].payload, Some(r))
      && t == TicketOf(after, c.pending.value.id) && after.branch == c.branch && t.branch == c.branch
  {
    hide HistoryOk, OutboxOk, NothingLost, StartsOk, EffectsOk, TerminalOk, CallsOk, CloseRoom, CallsOf;
    CachedIsAdmitted(c, s, c.pending.value.id);
  }

  lemma TerminalResolves(a: Core, b: Core, gone: set<Bytes>, t: Ticket, reply: TerminalReply)
    requires Resolves(a, b, gone)
    ensures Resolves(a, b.(terminal := Some(reply), terminalTicket := t), gone)
  {
    hide Grows;
    assert Unanswered(b.(terminal := Some(reply), terminalTicket := t)) == Unanswered(b);
  }

  // One action attempt, whatever its outcome.
  function Try(c: Core): Core
    requires c.pending.Some?
  {
    var p := c.pending.value;
    c.(pending := Some(p.(actions := p.actions + 1)), now := c.now.(revision := c.now.revision + 1),
       h := c.h.(attempts := c.h.attempts + [Attempt(TicketOf(c, p.id), p.actions)],
                 effects := c.h.effects + [Effect(TicketOf(c, p.id), c.expected)]))
  }

  lemma TrySound(c: Core, s: Setting)
    requires Sound(c, s) && c.pending.Some? && TicketOf(c, c.pending.value.id) in c.started
    ensures Sound(Try(c), s) && Follows(c, Try(c))
  {
    hide Coherent, HistoryOk, OutboxOk, EffectsOk, TotalCalls, AllFit;
    var p := c.pending.value;
    CachedIsAdmitted(c, s, p.id);
    AttemptedKeeps(c.h, TicketOf(c, p.id), p.actions);
    EffectKeeps(c.h.effects, c.now, Try(c).now, PendingEffect(c).value);
    EffectsAside(c.h.(attempts := c.h.attempts + [Attempt(TicketOf(c, p.id), p.actions)]), Try(c).h.effects);
  }

  // The update moved the clock by `delta` ticks.
  function Tick(c: Core, delta: nat): Core
    requires c.pending.Some?
  {
    var p := c.pending.value;
    c.(pending := Some(p.(executed := p.executed + delta)), now := Version(c.now.epoch, c.now.tick + delta, 0),
       h := c.h.(effects := c.h.effects + [Effect(TicketOf(c, p.id), c.expected)]))
  }

  lemma TickSound(c: Core, s: Setting, delta: nat)
    requires Sound(c, s) && c.pending.Some? && delta > 0
    ensures Sound(Tick(c, delta), s) && Follows(c, Tick(c, delta))
  {
    hide Coherent, HistoryOk, OutboxOk, EffectsOk, TotalCalls, AllFit;
    CachedIsAdmitted(c, s, c.pending.value.id);
    EffectKeeps(c.h.effects, c.now, Tick(c, delta).now, PendingEffect(c).value);
    EffectsAside(c.h, Tick(c, delta).h.effects);
  }

  // Effects are no part of what a history promises about requests.
  lemma EffectsAside(h: History, effects: seq<Effect>)
    requires HistoryOk(h)
    ensures HistoryOk(h.(effects := effects))
  {
  }

  // A configuration change outside an advancement.
  function Configure(c: Core, id: Bytes): Core {
    c.(now := c.now.(revision := c.now.revision + 1), h := c.h.(effects := c.h.effects + [Effect(TicketOf(c, id), c.now)]))
  }

  lemma ConfigureSound(c: Core, s: Setting, id: Bytes)
    requires Sound(c, s) && c.pending.None? && id in c.cache && c.cache[id].response.None?
    ensures Sound(Configure(c, id), s) && Follows(c, Configure(c, id))
  {
    hide Coherent, HistoryOk, OutboxOk, TotalCalls, AllFit;
    CachedIsAdmitted(c, s, id);
    EffectsAside(c.h, Configure(c, id).h.effects);
  }

  // A controlled call returned, and is then credited to the pending request.
  lemma ReturnedSound(c: Core, s: Setting)
    requires Sound(c, s)
    ensures var after := c.(returned := c.returned + 1, uncounted := c.uncounted + 1); Sound(after, s) && Follows(c, after)
  {
    hide Coherent, HistoryOk, OutboxOk, EffectsOk, TotalCalls, AllFit;
  }

  function Credit(c: Core): Core
    requires c.pending.Some? && c.uncounted > 0
  {
    c.(pending := Some(c.pending.value.(calls := c.pending.value.calls + 1)), uncounted := c.uncounted - 1)
  }

  lemma CreditSound(c: Core, s: Setting)
    requires Sound(c, s) && c.pending.Some? && c.uncounted > 0
    ensures Sound(Credit(c), s) && Follows(c, Credit(c))
  {
    hide Coherent, HistoryOk, OutboxOk, EffectsOk, TotalCalls, AllFit;
  }

  // The observation after a returned call failed before the call was credited.
  function Lose(c: Core): Core {
    c.(lost := c.lost + c.uncounted, uncounted := 0)
  }

  lemma LoseSound(c: Core, s: Setting)
    requires Sound(c, s)
    ensures Sound(Lose(c), s) && Follows(c, Lose(c)) && (Idles(c) ==> Calm(Lose(c))) && (WithinBudget(c) ==> WithinBudget(Lose(c)))
  {
    hide Coherent, HistoryOk, OutboxOk, EffectsOk, TotalCalls, AllFit;
    assert Unanswered(Lose(c)) == Unanswered(c);
  }

  // Wave and terminal bookkeeping of the pending request.
  lemma TweakSound(c: Core, s: Setting, p: Pending)
    requires Sound(c, s) && c.pending.Some?
    requires p.id == c.pending.value.id && p.calls == c.pending.value.calls && p.actions == c.pending.value.actions
    ensures var after := c.(pending := Some(p)); Sound(after, s) && Follows(c, after) && Unanswered(after) == Unanswered(c)
  {
    hide Coherent, HistoryOk, OutboxOk, EffectsOk, TotalCalls, AllFit;
  }

  lemma CreditCalms(c: Core)
    requires c.pending.Some? && c.uncounted == 1 && Unanswered(c) == PendingIds(c)
    ensures Calm(Credit(c)) && (WithinBudget(c) ==> WithinBudget(Credit(c)))
  {
    assert Unanswered(Credit(c)) == Unanswered(c);
  }

  lemma TickCalms(c: Core, delta: nat)
    requires c.pending.Some? && Calm(c)
    ensures Calm(Tick(c, delta))
  {
    assert Unanswered(Tick(c, delta)) == Unanswered(c);
  }

  // ---- everything else --------------------------------------------------------

  lemma FaultSound(c: Core, s: Setting)
    requires Sound(c, s)
    ensures Sound(c.(storageFault := true), s) && Follows(c, c.(storageFault := true))
  {
    hide Coherent, HistoryOk, OutboxOk, EffectsOk, TotalCalls, AllFit;
  }

  lemma CloseRecordingSound(c: Core, s: Setting)
    requires Sound(c, s) && c.pending.None?
    ensures Sound(c.(recordingClosed := true), s) && Follows(c, c.(recordingClosed := true))
  {
    hide Coherent, HistoryOk, OutboxOk, EffectsOk, TotalCalls, AllFit;
  }

  function Wait(c: Core, id: Bytes, caller: nat): Core
    requires id in c.cache
  {
    c.(cache := c.cache[id := c.cache[id].(waiters := c.cache[id].waiters + [caller])])
  }

  lemma WaitSound(c: Core, s: Setting, id: Bytes, caller: nat)
    requires Sound(c, s) && id in c.cache
    ensures Sound(Wait(c, id, caller), s) && Follows(c, Wait(c, id, caller))
  {
    hide Coherent, HistoryOk, OutboxOk, EffectsOk, TotalCalls, AllFit;
    WaitKeepsMap(c, s, id, caller);
    assert Wait(c, id, caller).cache.Keys == c.cache.Keys;
  }

  lemma WaitKeepsMap(c: Core, s: Setting, id: Bytes, caller: nat)
    requires Sound(c, s) && id in c.cache
    ensures Coherent(c.branch, c.now.epoch, c.entries, Wait(c, id, caller).cache, c.h.ledger, s.dump)
  {
    hide HistoryOk, OutboxOk, EffectsOk, CallsOk, TerminalOk, CacheOk, NothingLost, StartsOk, CloseRoom;
  }

  function Reply(c: Core, d: Delivery): Core {
    c.(outbox := c.outbox + [(d.caller, d.response)], h := c.h.(deliveries := c.h.deliveries + [d]))
  }

  lemma ReplySound(c: Core, s: Setting, d: Delivery)
    requires Sound(c, s) && Truthful(d, c.h.ledger)
    ensures Sound(Reply(c, d), s) && Follows(c, Reply(c, d))
  {
    hide Coherent, HistoryOk, EffectsOk, TotalCalls, AllFit;
    DeliveredKeeps(c.h, [d]);
  }

  function NextEpoch(c: Core): Core {
    c.(now := Version(c.now.epoch + 1, 0, 0), entries := map[], cache := map[], reserveCount := 0)
  }

  lemma RestParts(c: Core, s: Setting)
    requires Rest(c, s)
    ensures Sound(c, s) && Calm(c) && Unanswered(c) == PendingIds(c) && c.uncounted == 0 && WithinBudget(c)
  {
  }

  lemma RestWhole(c: Core, s: Setting)
    requires Sound(c, s) && Calm(c) && WithinBudget(c)
    ensures Rest(c, s)
  {
  }

  lemma RestIsEmpty(c: Core, s: Setting)
    requires Rest(c, s) && c.pending.None? && !c.storageFault
    ensures c.cache == map[]
  {
    hide HistoryOk, OutboxOk, TotalCalls, AllFit, Coherent, EffectsOk;
    assert forall id :: id in c.cache && c.cache[id].response.None? ==> id in Unanswered(c);
  }

  // Only an empty cache can be dropped: nothing unanswered or unsaved is lost.
  lemma NextEpochSound(c: Core, s: Setting)
    requires Rest(c, s) && c.pending.None? && !c.storageFault && s.limits.reserveEntries > 0
    ensures c.cache == map[] && Rest(NextEpoch(c), s) && Follows(c, NextEpoch(c))
  {
    hide HistoryOk, OutboxOk, TotalCalls, AllFit, Coherent;
    RestIsEmpty(c, s);
    EpochKeeps(c.branch, c.now.epoch, c.now.epoch + 1, c.entries, c.h.ledger, s.dump);
  }

  function MoveTo(c: Core, branch: Bytes): Core {
    c.(branch := branch, cache := map[], terminal := None)
  }

  lemma MoveSound(c: Core, s: Setting, branch: Bytes)
    requires Rest(c, s) && c.pending.None? && !c.storageFault
    ensures c.cache == map[] && Rest(MoveTo(c, branch), s) && Follows(c, MoveTo(c, branch))
  {
    hide HistoryOk, OutboxOk, TotalCalls, AllFit, Coherent;
    RestIsEmpty(c, s);
    RebindKeeps(c.branch, branch, c.now.epoch, c.entries, c.h.ledger, s.dump);
  }

  // ---- closing ----------------------------------------------------------------

  // The largest record a result can need.
  const MAX_RECORD := HEADER_BYTES + MAX_SCOPE + MAX_ID + MAX_BODY

  // Room in the reserve for one more record per request that is still in RAM.
  ghost predicate Roomy(c: Core, limits: Limits) {
    c.used + |c.cache| * MAX_RECORD <= limits.reserveBytes
  }

  // The result of a close, and every result still waiting in RAM, fits a record.
  ghost predicate SmallResults(c: Core, dump: Dumper) {
    |dump(Closed)| <= MAX_BODY && forall id :: id in c.cache && c.cache[id].response.Some? ==> |dump(c.cache[id].response.value)| <= MAX_BODY
  }

  // Saving a result and a new admission leave it so.
  lemma StillSmall(c: Core, dump: Dumper, id: Bytes, used: nat)
    requires SmallResults(c, dump)
    ensures id in c.cache && c.cache[id].response.Some? && Key(c.branch, id) in c.entries ==> SmallResults(Save(c, dump, id, used), dump)
  {
  }

  lemma AdmittedSmall(c: Core, dump: Dumper, id: Bytes, payload: Bytes, token: nat, closing: bool, waiter: nat, used: nat, reserveCount: nat)
    requires SmallResults(c, dump)
    ensures SmallResults(Admit(c.(used := used, reserveCount := reserveCount), id, payload, token, closing, waiter), dump)
  {
  }

  // No result of a cached request was written yet.
  ghost predicate Unwritten(c: Core) {
    forall id :: id in c.cache && Key(c.branch, id) in c.entries ==> c.entries[Key(c.branch, id)].response.None?
  }

  lemma OpenIsUnwritten(c: Core, s: Setting)
    requires Sound(c, s) && !c.recordingClosed
    ensures Unwritten(c)
  {
    hide Coherent, HistoryOk, OutboxOk, NothingLost, StartsOk, EffectsOk, TerminalOk, CallsOk, CloseRoom;
  }

  lemma RoomForThree(n: nat)
    requires n <= 3
    ensures n * MAX_RECORD <= 3 * MAX_RECORD <= 12 * 1024 * 1024 + 1176
  {
  }

  // With the default limits the first close always fits: its reservation, its
  // result, and the at most two results that are only in RAM.
  lemma FirstCloseFits(c: Core, s: Setting, id: Bytes, payload: Bytes, token: nat, waiter: nat, used: nat, count: nat)
    requires Sound(c, s) && !c.closeTried && s.limits == DEFAULT_LIMITS
    requires used == c.used || used == c.used + RecordSize(c.branch, id, payload)
    requires |c.branch| <= MAX_SCOPE && |id| <= MAX_ID && |payload| <= 4096
    ensures Roomy(Admit(c.(used := used, reserveCount := count), id, payload, token, true, waiter), s.limits)
    ensures c.used + RecordSize(c.branch, id, payload) <= ByteLimit(s.limits, 1, true) && c.reserveCount + 1 <= s.limits.reserveEntries
  {
    hide Coherent, HistoryOk, OutboxOk, CacheOk, NothingLost, StartsOk, EffectsOk, TerminalOk, CallsOk, WithAdmission;
    SoundParts(c, s);
    hide Sound;
    var after := Admit(c.(used := used, reserveCount := count), id, payload, token, true, waiter);
    assert after.cache.Keys == c.cache.Keys + {id};
    RoomForThree(|after.cache|);
  }

  // While there is room for every cached request, no result is refused for
  // space, and writing one keeps room for the others.
  lemma ResultFits(c: Core, limits: Limits, id: Bytes, body: Bytes, used: nat)
    requires Roomy(c, limits) && id in c.cache && |c.branch| <= MAX_SCOPE && |id| <= MAX_ID && |body| <= MAX_BODY
    requires used == c.used || used == c.used + RecordSize(c.branch, id, body)
    ensures c.used + RecordSize(c.branch, id, body) <= ByteLimit(limits, 1, true)
    ensures used + (|c.cache| - 1) * MAX_RECORD <= limits.reserveBytes
  {
    assert |c.cache| > 0;
    assert |c.cache| * MAX_RECORD == (|c.cache| - 1) * MAX_RECORD + MAX_RECORD;
  }

  // One RAM-only result reaches the journal.
  function Save(c: Core, dump: Dumper, id: Bytes, used: nat): Core
    requires id in c.cache && c.cache[id].response.Some? && Key(c.branch, id) in c.entries
  {
    c.(entries := Answer(c.entries, Key(c.branch, id), dump(c.cache[id].response.value)), cache := c.cache - {id}, used := used)
  }

  lemma SavingFits(c: Core, limits: Limits, id: Bytes, body: Bytes)
    requires Roomy(c, limits) && id in c.cache && |c.branch| <= MAX_SCOPE && |id| <= MAX_ID && |body| <= MAX_BODY
    ensures c.used + RecordSize(c.branch, id, body) <= ByteLimit(limits, 1, true)
  {
    ResultFits(c, limits, id, body, c.used);
  }

  lemma SavedFits(c: Core, s: Setting, id: Bytes, used: nat)
    requires Roomy(c, s.limits) && id in c.cache && |c.branch| <= MAX_SCOPE && |id| <= MAX_ID && Key(c.branch, id) in c.entries
    requires c.cache[id].response.Some? && |s.dump(c.cache[id].response.value)| <= MAX_BODY
    requires used == c.used || used == c.used + RecordSize(c.branch, id, s.dump(c.cache[id].response.value))
    ensures Roomy(Save(c, s.dump, id, used), s.limits)
  {
    hide Answer;
    ResultFits(c, s.limits, id, s.dump(c.cache[id].response.value), used);
    assert (c.cache - {id}).Keys == c.cache.Keys - {id};
  }

  lemma SaveSound(c: Core, s: Setting, id: Bytes, used: nat)
    requires Sound(c, s) && Unwritten(c) && c.closeTried && id in c.cache && c.cache[id].response.Some?
    ensures Key(c.branch, id) in c.entries
    ensures var after := Save(c, s.dump, id, used); Sound(after, s) && Follows(c, after) && Unwritten(after) && Unanswered(after) == Unanswered(c)
    ensures |Save(c, s.dump, id, used).cache| == |c.cache| - 1
  {
    hide Coherent, HistoryOk, OutboxOk, EffectsOk, TotalCalls, AllFit, Answer;
    CachedIsAdmitted(c, s, id);
    var t, r := TicketOf(c, id), c.cache[id].response.value;
    PersistKeeps(c.branch, c.now.epoch, c.entries, c.cache, c.h.ledger, s.dump, id, r);
    assert c.h.ledger[t := c.h.ledger[t].(result := Some(r))] == c.h.ledger;
    assert (c.cache - {id}).Keys == c.cache.Keys - {id};
    AnswerKeepsOthers(c, id, s.dump(r));
  }

  lemma AnswerKeepsOthers(c: Core, id: Bytes, body: Bytes)
    requires Unwritten(c) && Key(c.branch, id) in c.entries
    ensures forall other :: other in c.cache && other != id && Key(c.branch, other) in Answer(c.entries, Key(c.branch, id), body) ==>
      Answer(c.entries, Key(c.branch, id), body)[Key(c.branch, other)].response.None?
  {
  }

  // A failed write after the first close attempt changes no promise.
  lemma UsedSound(c: Core, s: Setting, used: nat)
    requires Sound(c, s) && c.closeTried
    ensures var after := c.(used := used, storageFault := true);
      Sound(after, s) && Follows(c, after) && Unanswered(after) == Unanswered(c) && (Unwritten(c) ==> Unwritten(after))
  {
    hide Coherent, HistoryOk, OutboxOk, EffectsOk, TotalCalls, AllFit;
  }

  // A close that was written but not sealed is remembered as incomplete.
  lemma WrittenSound(c: Core, s: Setting, id: Bytes, body: Bytes, used: nat)
    requires Sound(c, s) && c.recordingClosed && c.closeTried && id in c.cache && c.cache[id].response.Some?
    requires Key(c.branch, id) in c.entries
    ensures var after := c.(entries := Answer(c.entries, Key(c.branch, id), body), used := used); Sound(after, s) && Follows(c, after)
  {
    hide Coherent, HistoryOk, OutboxOk, EffectsOk, TotalCalls, AllFit, Answer;
    WrittenKeepsMap(c, s, id, body);
  }

  lemma WrittenKeepsMap(c: Core, s: Setting, id: Bytes, body: Bytes)
    requires Coherent(c.branch, c.now.epoch, c.entries, c.cache, c.h.ledger, s.dump)
    requires id in c.cache && c.cache[id].response.Some? && Key(c.branch, id) in c.entries
    ensures Coherent(c.branch, c.now.epoch, Answer(c.entries, Key(c.branch, id), body), c.cache, c.h.ledger, s.dump)
  {
  }

  // The state after a close was answered: Closed only when everything was
  // written and sealed.
  function CloseAnswered(c: Core, dump: Dumper, id: Bytes, written: bool, isSealed: bool, used: nat): Core
    requires id in c.cache && TicketOf(c, id) in c.h.ledger && Key(c.branch, id) in c.entries
  {
    if written && isSealed then Settle(c, dump, id, Closed, true, used)
    else if written then
      var open := Settle(c, dump, id, CloseIncomplete, false, used);
      open.(entries := Answer(open.entries, Key(c.branch, id), dump(Closed)))
    else Settle(c, dump, id, CloseIncomplete, false, used)
  }

  lemma CloseAnsweredSound(c: Core, s: Setting, id: Bytes, written: bool, isSealed: bool, used: nat)
    requires Sound(c, s) && c.recordingClosed && c.closeTried && id in c.cache && c.cache[id].response.None?
    ensures TicketOf(c, id) in c.h.ledger && Key(c.branch, id) in c.entries
    ensures var after := CloseAnswered(c, s.dump, id, written, isSealed, used);
      && Sound(after, s) && Follows(c, after) && Unanswered(after) == Unanswered(c) - {id}
      && TicketOf(c, id) in after.h.ledger
      && after.h.ledger[TicketOf(c, id)].result == Some(if written && isSealed then Closed else CloseIncomplete)
      && after.uncounted == c.uncounted && after.now == c.now && after.branch == c.branch && after.pending == c.pending
  {
    hide Sound, Follows, Settle, Resolves, Answer, Unanswered;
    CachedIsAdmitted(c, s, id);
    CloseIsOpen(c, s);
    var r := if written && isSealed then Closed else CloseIncomplete;
    SettleSound(c, s, id, r, written && isSealed, used);
    SettleResolves(c, s, id, r, written && isSealed, used);
    var after := Settle(c, s.dump, id, r, written && isSealed, used);
    ResolvesFacts(c, after, {id});
    if written && !isSealed {
      SettledStaysInRam(c, s, id, r, used);
      WrittenSound(after, s, id, s.dump(Closed), used);
      FollowsTransitive(c, after, CloseAnswered(c, s.dump, id, written, isSealed, used));
      EntriesAside(after, Answer(after.entries, Key(c.branch, id), s.dump(Closed)));
    }
  }

  lemma CloseIsOpen(c: Core, s: Setting)
    requires Sound(c, s) && c.recordingClosed
    ensures c.pending.None?
  {
  }

  lemma EntriesAside(c: Core, entries: map<Key, Entry>)
    ensures Unanswered(c.(entries := entries)) == Unanswered(c)
  {
  }

  lemma SettledStaysInRam(c: Core, s: Setting, id: Bytes, r: Response, used: nat)
    requires id in c.cache && TicketOf(c, id) in c.h.ledger && Key(c.branch, id) in c.entries && CallsOf(r) <= c.uncounted
    ensures var after := Settle(c, s.dump, id, r, false, used);
      id in after.cache && after.cache[id].response == Some(r) && after.entries == c.entries && after.used == used
      && after.branch == c.branch && after.recordingClosed == c.recordingClosed && after.closeTried == c.closeTried && after.storageFault
  {
  }

  lemma CloseAnsweredParts(c: Core, s: Setting, id: Bytes, written: bool, isSealed: bool, used: nat)
    requires id in c.cache && TicketOf(c, id) in c.h.ledger && Key(c.branch, id) in c.entries
    ensures var after, full := CloseAnswered(c, s.dump, id, written, isSealed, used), written && isSealed;
      && after.outbox == c.outbox + Replies(c.cache[id].waiters, if full then Closed else CloseIncomplete)
      && after.cache == (if full then c.cache - {id} else c.cache[id := c.cache[id].(response := Some(CloseIncomplete), waiters := [])])
      && after == c.(entries := if written then Answer(c.entries, Key(c.branch, id), s.dump(Closed)) else c.entries,
                     used := used, storageFault := c.storageFault || !full,
                     cache := after.cache, outbox := after.outbox, h := after.h, uncounted := after.uncounted)
      && after.h.effects == c.h.effects
  {
    hide Answer, Replies, Told;
  }

  predicate ClosingEntry(c: Core, id: Bytes) {
    Key(c.branch, id) in c.entries && c.entries[Key(c.branch, id)].closing
  }

  // The recording is closed before the close is answered.
  lemma ClosedServes(c: Core, s: Setting, id: Bytes)
    requires Sound(c, s) && Serving(c, id) && c.pending.None? && !c.recordingClosed
    ensures var after := c.(recordingClosed := true);
      && Sound(after, s) && Follows(c, after) && Unwritten(after) && Serving(after, id) && after.cache[id].response.None?
      && (Roomy(c, s.limits) ==> Roomy(after, s.limits))
  {
    hide Sound, Follows;
    OpenIsUnwritten(c, s);
    CloseRecordingSound(c, s);
    assert Unanswered(c.(recordingClosed := true)) == Unanswered(c);
  }

  lemma ClosedCalms(a: Core, b: Core, id: Bytes)
    requires Serving(a, id) && a.pending.None? && b.pending.None? && Unanswered(b) == Unanswered(a) - {id} && b.uncounted == 0
    ensures Calm(b) && WithinBudget(b)
  {
    hide Unanswered;
  }

  lemma ServingIsCached(c: Core, id: Bytes)
    requires Serving(c, id)
    ensures id in c.cache && c.cache[id].response.None?
  {
  }

  lemma ConfigureServes(c: Core, id: Bytes)
    requires Serving(c, id)
    ensures Serving(Configure(c, id), id)
  {
    assert Unanswered(Configure(c, id)) == Unanswered(c);
  }

  // The request being served becomes the pending advancement.
  lemma StartCalms(c: Core, p: Pending)
    requires Serving(c, p.id) && c.pending.None? && p.executed <= p.requested
    ensures Calm(Start(c, p)) && WithinBudget(Start(c, p)) && TicketOf(Start(c, p), p.id) in Start(c, p).started
    ensures p.id in c.cache && c.cache[p.id].response.None?
  {
    assert Unanswered(Start(c, p)) == Unanswered(c);
  }

  lemma TryCalms(c: Core)
    requires c.pending.Some? && Calm(c) && WithinBudget(c)
    ensures Calm(Try(c)) && WithinBudget(Try(c))
  {
    assert Unanswered(Try(c)) == Unanswered(c);
  }

  // Which requests may use the closing part of the reserve is settled on
  // admission.
  ghost predicate KeepsFlags(a: map<Key, Entry>, b: map<Key, Entry>) {
    forall k :: k in a ==> k in b && b[k].closing == a[k].closing
  }

  lemma KeepsFlagsTransitive(a: map<Key, Entry>, b: map<Key, Entry>, c: map<Key, Entry>)
    requires KeepsFlags(a, b) && KeepsFlags(b, c)
    ensures KeepsFlags(a, c)
  {
  }

  lemma FlagsKept(a: map<Key, Entry>)
    ensures KeepsFlags(a, a)
  {
  }

  lemma FlagsKeepClosing(a: Core, b: Core, id: Bytes)
    requires KeepsFlags(a.entries, b.entries) && a.branch == b.branch && ClosingEntry(a, id)
    ensures ClosingEntry(b, id)
  {
  }

  lemma AnswerKeepsFlags(a: map<Key, Entry>, k: Key, body: Bytes)
    requires k in a
    ensures KeepsFlags(a, a) && KeepsFlags(a, Answer(a, k, body))
  {
  }

  lemma IsUnanswered(c: Core, id: Bytes)
    ensures id in Unanswered(c) <==> id in c.cache && c.cache[id].response.None?
  {
  }

  // ---- repeated requests ------------------------------------------------------

  datatype Verdict = Fresh | Waiting | Replied(response: Response)

  // What a request with this id and content must get, as the plain ledger says.
  function VerdictOn(c: Core, id: Bytes, canonical: Bytes): Verdict {
    var t := TicketOf(c, id);
    if c.terminal.Some? && c.terminal.value.id == id then
      Replied(if c.terminal.value.canonical == canonical then c.terminal.value.response else Rejected(Conflict))
    else if t !in c.h.ledger then Fresh
    else if c.h.ledger[t].payload != canonical then Replied(Rejected(Conflict))
    else if c.h.ledger[t].result.Some? then Replied(c.h.ledger[t].result.value)
    else Waiting
  }

  lemma FreshIsNew(c: Core, id: Bytes, canonical: Bytes)
    requires VerdictOn(c, id, canonical).Fresh?
    ensures TicketOf(c, id) !in c.h.ledger
  {
  }

  // From `a` to `b` the caller got what the verdict says.
  ghost predicate Honoured(a: Core, b: Core, v: Verdict, id: Bytes, caller: nat) {
    match v
    case Replied(r) => b.outbox == a.outbox + [(caller, r)] && b.h.ledger == a.h.ledger
    case Waiting => id in a.cache && b == Wait(a, id, caller)
    case Fresh => false
  }

  lemma RamVerdict(c: Core, s: Setting, id: Bytes, canonical: Bytes)
    requires Sound(c, s) && id in c.cache && !(c.terminal.Some? && c.terminal.value.id == id)
    ensures VerdictOn(c, id, canonical) ==
      if c.cache[id].payload != canonical then Replied(Rejected(Conflict))
      else if c.cache[id].response.Some? then Replied(c.cache[id].response.value) else Waiting
  {
    hide Sound;
    CachedIsAdmitted(c, s, id);
  }

  // The journal answers for what RAM no longer holds, and never without a result.
  lemma JournalVerdict(c: Core, s: Setting, id: Bytes, canonical: Bytes)
    requires Sound(c, s) && id !in c.cache && !(c.terminal.Some? && c.terminal.value.id == id)
    ensures var k, t := Key(c.branch, id), TicketOf(c, id);
      && (t in c.h.ledger <==> k in c.entries)
      && (k in c.entries ==> c.entries[k].payload == c.h.ledger[t].payload && c.h.ledger[t].result.Some?
                             && c.entries[k].response == Some(s.dump(c.h.ledger[t].result.value)))
  {
    hide HistoryOk, OutboxOk, CacheOk, StartsOk, EffectsOk, TerminalOk, CallsOk, CloseRoom;
    RetryIsFound(c.branch, c.now.epoch, c.entries, c.cache, c.h.ledger, s.dump, id);
  }

  // What a client may ask about a request: never seen in this epoch, still open,
  // recorded with its response, or seen of another branch only.
  datatype Standing = Unknown | InProgress | Recorded(response: Response) | Elsewhere(branch: Bytes)

  // The plain ledger says it all.
  ghost predicate Stands(c: Core, id: Bytes, s: Standing) {
    var t := TicketOf(c, id);
    if c.terminal.Some? && c.terminal.value.id == id then
      s == Recorded(c.terminal.value.response) && HasResult(c.h.ledger, c.terminalTicket, c.terminal.value.response)
    else if t in c.h.ledger then s == if c.h.ledger[t].result.Some? then Recorded(c.h.ledger[t].result.value) else InProgress
    else match s
      case Elsewhere(branch) => branch != c.branch && Ticket(branch, c.now.epoch, id) in c.h.ledger
      case Unknown => forall other: Bytes :: Ticket(other, c.now.epoch, id) !in c.h.ledger
      case _ => false
  }

  lemma RamStands(c: Core, s: Setting, id: Bytes)
    requires Sound(c, s)
    ensures c.terminal.Some? && c.terminal.value.id == id ==> Stands(c, id, Recorded(c.terminal.value.response))
    ensures !(c.terminal.Some? && c.terminal.value.id == id) && id in c.cache ==>
      Stands(c, id, if c.cache[id].response.Some? then Recorded(c.cache[id].response.value) else InProgress)
  {
    hide HistoryOk, OutboxOk, CacheOk, NothingLost, StartsOk, EffectsOk, CallsOk, CloseRoom;
  }

  lemma JournalStands(c: Core, s: Setting, id: Bytes)
    requires Sound(c, s) && !(c.terminal.Some? && c.terminal.value.id == id) && id !in c.cache && Key(c.branch, id) in c.entries
    ensures c.entries[Key(c.branch, id)].response.Some?
    ensures exists r :: s.dump(r) == c.entries[Key(c.branch, id)].response.value && Stands(c, id, Recorded(r))
  {
    JournalVerdict(c, s, id, []);
    hide Sound;
    var r := c.h.ledger[TicketOf(c, id)].result.value;
    assert s.dump(r) == c.entries[Key(c.branch, id)].response.value && Stands(c, id, Recorded(r));
  }

  lemma ForeignStands(c: Core, s: Setting, id: Bytes, branch: Option<Bytes>)
    requires Sound(c, s) && !(c.terminal.Some? && c.terminal.value.id == id) && Key(c.branch, id) !in c.entries
    requires branch.Some? ==> branch.value != c.branch && Key(branch.value, id) in c.entries
    requires branch.None? ==> forall other: Bytes :: other != c.branch ==> Key(other, id) !in c.entries
    ensures Stands(c, id, if branch.Some? then Elsewhere(branch.value) else Unknown)
  {
    hide HistoryOk, OutboxOk, CacheOk, NothingLost, StartsOk, EffectsOk, TerminalOk, CallsOk, CloseRoom, SavedResults;
    if branch.None? {
      forall other: Bytes
        ensures Ticket(other, c.now.epoch, id) !in c.h.ledger
      {
        assert Key(other, id) !in c.entries;
      }
    }
  }

  // Every reply a verdict names is the recorded result of that very request.
  lemma VerdictIsTruthful(c: Core, s: Setting, id: Bytes, canonical: Bytes, caller: nat)
    requires Sound(c, s) && VerdictOn(c, id, canonical).Replied?
    ensures var t := if c.terminal.Some? && c.terminal.value.id == id then c.terminalTicket else TicketOf(c, id);
      Truthful(Delivery(caller, t, canonical, VerdictOn(c, id, canonical).response), c.h.ledger)
  {
    hide Coherent, HistoryOk, OutboxOk, CacheOk, NothingLost, StartsOk, EffectsOk, CallsOk, CloseRoom;
  }

  // The ticket a request with this id repeats: that of the kept terminal reply, else
  // the one of this branch and epoch.
  ghost function RepeatOf(c: Core, id: Bytes): Ticket {
    if c.terminal.Some? && c.terminal.value.id == id then c.terminalTicket else Ticket(c.branch, c.now.epoch, id)
  }

  lemma FreshExactly(c: Core, s: Setting, id: Bytes, canonical: Bytes)
    requires Sound(c, s)
    ensures VerdictOn(c, id, canonical).Fresh? <==> RepeatOf(c, id) !in c.h.ledger
    ensures RepeatOf(c, id) in c.h.ledger ==> RepeatOf(c, id).branch == c.branch && RepeatOf(c, id).id == id
  {
    hide Coherent, HistoryOk, OutboxOk, CacheOk, NothingLost, StartsOk, EffectsOk, CallsOk, CloseRoom;
  }

  // What a repeated request gets, read off the admission it repeats: a conflict for
  // other content, the one recorded result, or a place among those who wait.
  lemma RepeatedExactly(a: Core, b: Core, s: Setting, id: Bytes, canonical: Bytes, caller: nat)
    requires Sound(a, s) && !VerdictOn(a, id, canonical).Fresh? && Honoured(a, b, VerdictOn(a, id, canonical), id, caller)
    ensures RepeatOf(a, id) in a.h.ledger
    ensures var was := a.h.ledger[RepeatOf(a, id)];
      if was.payload != canonical then b.outbox == a.outbox + [(caller, Rejected(Conflict))]
      else if was.result.Some? then b.outbox == a.outbox + [(caller, was.result.value)]
      else b.outbox == a.outbox && id in a.cache && b.cache == a.cache[id := a.cache[id].(waiters := a.cache[id].waiters + [caller])]
  {
    hide Coherent, HistoryOk, OutboxOk, CacheOk, NothingLost, StartsOk, EffectsOk, CallsOk, CloseRoom;
    FreshExactly(a, s, id, canonical);
  }

  // Another branch of this epoch used the id, for this content or for another.
  ghost predicate UsedElsewhere(c: Core, id: Bytes, branch: Bytes) {
    branch != c.branch && Ticket(branch, c.now.epoch, id) in c.h.ledger
  }

  lemma ElsewhereIsRecorded(c: Core, s: Setting, id: Bytes)
    requires Sound(c, s)
    ensures forall other: Bytes :: other != c.branch ==> (UsedElsewhere(c, id, other) <==> Key(other, id) in c.entries)
    ensures forall other: Bytes :: UsedElsewhere(c, id, other) ==> c.h.ledger[Ticket(other, c.now.epoch, id)].payload == c.entries[Key(other, id)].payload
  {
    hide HistoryOk, OutboxOk, CacheOk, NothingLost, StartsOk, EffectsOk, TerminalOk, CallsOk, CloseRoom, SavedResults;
    forall other: Bytes | other != c.branch
      ensures UsedElsewhere(c, id, other) <==> Key(other, id) in c.entries
      ensures UsedElsewhere(c, id, other) ==> c.h.ledger[Ticket(other, c.now.epoch, id)].payload == c.entries[Key(other, id)].payload
    {
      assert Key(other, id) in c.entries ==> Ticket(other, c.now.epoch, id) in c.h.ledger;
    }
  }

  // Another branch used the id for other content, or for the same.
  ghost predicate ClashesElsewhere(c: Core, id: Bytes, canonical: Bytes) {
    exists other: Bytes :: UsedElsewhere(c, id, other) && c.h.ledger[Ticket(other, c.now.epoch, id)].payload != canonical
  }

  ghost predicate MatchesElsewhere(c: Core, id: Bytes, canonical: Bytes) {
    exists other: Bytes :: UsedElsewhere(c, id, other) && c.h.ledger[Ticket(other, c.now.epoch, id)].payload == canonical
  }

  lemma ForeignDecides(c: Core, s: Setting, id: Bytes, canonical: Bytes, branch: Option<Bytes>)
    requires Sound(c, s)
    requires branch.Some? ==> branch.value != c.branch && Key(branch.value, id) in c.entries
    requires branch.None? ==> forall other: Bytes :: other != c.branch ==> Key(other, id) !in c.entries
    ensures branch.Some? && c.entries[Key(branch.value, id)].payload != canonical ==> ClashesElsewhere(c, id, canonical)
    ensures branch.Some? && c.entries[Key(branch.value, id)].payload == canonical ==> MatchesElsewhere(c, id, canonical)
    ensures branch.None? ==> !ClashesElsewhere(c, id, canonical)
  {
    hide Sound;
    ElsewhereIsRecorded(c, s, id);
    hide UsedElsewhere;
    if branch.Some? { assert UsedElsewhere(c, id, branch.value); }
  }

  lemma TerminalVerdict(c: Core, id: Bytes, canonical: Bytes)
    requires c.terminal.Some? && c.terminal.value.id == id
    ensures VerdictOn(c, id, canonical) == Replied(if c.terminal.value.canonical == canonical then c.terminal.value.response else Rejected(Conflict))
  {
  }

  lemma ReplyCalms(c: Core, d: Delivery)
    ensures (Calm(c) ==> Calm(Reply(c, d))) && (WithinBudget(c) ==> WithinBudget(Reply(c, d)))
  {
    assert Unanswered(Reply(c, d)) == Unanswered(c);
  }

  lemma WaitCalms(c: Core, id: Bytes, caller: nat)
    requires Calm(c) && WithinBudget(c) && id in c.cache
    ensures Calm(Wait(c, id, caller)) && WithinBudget(Wait(c, id, caller))
  {
    assert Unanswered(Wait(c, id, caller)) == Unanswered(c);
  }

  // ---- one request being served -----------------------------------------------

  // Request `id` is admitted and unanswered, besides the pending advancement.
  predicate Serving(c: Core, id: Bytes) {
    && id in Unanswered(c) && id !in PendingIds(c) && Unanswered(c) == PendingIds(c) + {id}
    && c.uncounted == 0 && WithinBudget(c)
  }

  lemma AdmittedServes(c: Core, id: Bytes, payload: Bytes, token: nat, closing: bool, waiter: nat)
    requires Calm(c) && WithinBudget(c) && id !in c.cache
    ensures Serving(Admit(c, id, payload, token, closing, waiter), id)
  {
    var after := Admit(c, id, payload, token, closing, waiter);
    assert Unanswered(after) == Unanswered(c) + {id};
    assert forall x :: x in PendingIds(c) ==> x in Unanswered(c);
  }

  lemma ServingWinds(a: Core, b: Core, id: Bytes)
    requires Serving(a, id) && Winds(a, b)
    ensures Serving(b, id)
  {
    hide Follows, Unanswered;
  }

  lemma ServedCalms(a: Core, b: Core, id: Bytes)
    requires Serving(a, id) && Answers(a, b, id)
    ensures Calm(b) && Follows(a, b) && b.h.attempts == a.h.attempts && b.h.effects == a.h.effects
  {
    hide Follows, Unanswered;
  }

  lemma ServingSettles(c: Core, s: Setting, id: Bytes, r: Response)
    requires Serving(c, id) && CallsOf(r) == 0 && Metered(r)
    ensures Settles(c, s, id, r)
  {
  }

  lemma FreshIsAbsent(c: Core, s: Setting, id: Bytes, canonical: Bytes)
    requires Sound(c, s) && VerdictOn(c, id, canonical).Fresh?
    ensures Key(c.branch, id) !in c.entries && id !in c.cache && TicketOf(c, id) !in c.started
  {
    hide HistoryOk, OutboxOk, CacheOk, EffectsOk, TerminalOk, CallsOk, CloseRoom;
  }

  // An admissible request finds at most the pending advancement in RAM.
  lemma RoomInRam(c: Core, s: Setting)
    requires Sound(c, s) && Calm(c) && (!c.storageFault || forall id :: id in c.cache ==> c.cache[id].response.None?)
    ensures |c.cache| < 2
  {
    hide Coherent, HistoryOk, OutboxOk, NothingLost, StartsOk, EffectsOk, TerminalOk, CallsOk, CloseRoom;
    assert c.cache.Keys <= Unanswered(c);
    SubsetSize(c.cache.Keys, PendingIds(c));
  }

  // An ordinary control never takes the last slot or the closing bytes.
  lemma AdmissionFits(c: Core, s: Setting, control: bool, used: nat, reserveCount: nat)
    requires Sound(c, s) && !c.closeTried
    requires (used == c.used && reserveCount == c.reserveCount)
      || (control && used <= ByteLimit(s.limits, 1, false) && reserveCount < s.limits.reserveEntries)
    ensures used <= ByteLimit(s.limits, 1, false) && reserveCount < s.limits.reserveEntries
  {
    hide Coherent, HistoryOk, OutboxOk, CacheOk, NothingLost, StartsOk, EffectsOk, TerminalOk, CallsOk, ByteLimit;
  }

  lemma AdmissionServes(c: Core, s: Setting, used: nat, count: nat, id: Bytes, payload: Bytes, token: nat, closing: bool, waiter: nat)
    requires Sound(c, s) && Calm(c) && WithinBudget(c) && VerdictOn(c, id, payload).Fresh?
    ensures TakenOn(c, Admit(c.(used := used, reserveCount := count), id, payload, token, closing, waiter), id, closing)
  {
    hide Sound, VerdictOn;
    FreshIsAbsent(c, s, id, payload);
    assert Unanswered(c.(used := used, reserveCount := count)) == Unanswered(c);
    AdmittedServes(c.(used := used, reserveCount := count), id, payload, token, closing, waiter);
    assert forall x :: x in PendingIds(c) ==> x in Unanswered(c);
  }

  ghost predicate TakenOn(a: Core, b: Core, id: Bytes, closing: bool) {
    && Serving(b, id) && b.pending == a.pending && b.started == a.started && TicketOf(b, id) !in b.started
    && (closing ==> ClosingEntry(b, id) && b.closeTried)
    && (b.pending.Some? ==> b.pending.value.id != id)
  }

  // ---- what the invariant means for a whole run --------------------------------

  // Each (branch, epoch, id) is admitted at most once and each of its actions is
  // attempted at most once. All callers that got more than a refusal sent the
  // admitted content and got its one recorded result.
  lemma ExactlyOnce(c: Core, s: Setting)
    requires Sound(c, s)
    ensures forall i, j :: 0 <= i < j < |c.h.admissions| ==> c.h.admissions[i] != c.h.admissions[j]
    ensures forall i, j :: 0 <= i < j < |c.h.attempts| ==> c.h.attempts[i] != c.h.attempts[j]
    ensures forall t :: t in c.h.ledger <==> t in c.h.admissions
    ensures |c.outbox| == |c.h.deliveries|
    ensures forall i :: 0 <= i < |c.outbox| ==> c.outbox[i] == (c.h.deliveries[i].caller, c.h.deliveries[i].response)
    ensures forall d :: d in c.h.deliveries && !d.response.Rejected? ==>
      d.ticket in c.h.ledger && c.h.ledger[d.ticket] == Admission(d.payload, Some(d.response))
    ensures forall d, e :: d in c.h.deliveries && e in c.h.deliveries && d.ticket == e.ticket && !d.response.Rejected? && !e.response.Rejected? ==>
      d.response == e.response && d.payload == e.payload
    ensures forall i, j :: 0 <= i < j < |c.h.completions| ==> c.h.completions[i].0 != c.h.completions[j].0
  {
    hide Coherent, CacheOk, NothingLost, StartsOk, EffectsOk, TerminalOk, CallsOk, CloseRoom;
    forall d, e | d in c.h.deliveries && e in c.h.deliveries && d.ticket == e.ticket && !d.response.Rejected? && !e.response.Rejected?
      ensures d.response == e.response && d.payload == e.payload
    {
      assert Truthful(d, c.h.ledger) && Truthful(e, c.h.ledger);
    }
  }

  // Once a request has its result, no later state shows new work for it, and the
  // result stays the same.
  lemma NeverAgain(a: Core, b: Core, t: Ticket)
    requires Follows(a, b) && Done(a, t)
    ensures Done(b, t) && b.h.ledger[t] == a.h.ledger[t]
    ensures forall x :: x in b.h.attempts && x.ticket == t ==> x in a.h.attempts
    ensures forall x :: x in b.h.effects && x.ticket == t ==> x in a.h.effects
  {
  }

  // Of all requests that expected the same version, at most one changed anything;
  // that version is then gone for good.
  lemma NoLostUpdate(c: Core, s: Setting, e: Effect, f: Effect)
    requires Sound(c, s) && e in c.h.effects && f in c.h.effects
    ensures e.expected == f.expected ==> e.ticket == f.ticket
    ensures Earlier(e.expected, c.now)
  {
    hide Coherent, HistoryOk, OutboxOk, CacheOk, NothingLost, StartsOk, TerminalOk, CallsOk, CloseRoom;
  }

  // Between steps, the calls that returned are those reported by the completions,
  // those of the pending request and those lost to a failing observation. Every
  // success reports its ticks within its budget, unless no engine call measures
  // them and the fight ended in a terminal update.
  lemma CallsAddUp(c: Core, s: Setting)
    requires Rest(c, s)
    ensures c.returned == TotalCalls(c.h.completions) + PendingCalls(c.pending) + c.lost
    ensures forall i :: 0 <= i < |c.h.completions| && c.h.completions[i].1.Finished? ==>
      (var reason, work := c.h.completions[i].1.reason, c.h.completions[i].1.work;
       && (reason == BudgetExhausted ==> work.executed == work.requested)
       && (reason != NoGameTick && reason != StepCountMismatch && (s.usesCalls || reason != SceneChanged) ==> work.executed <= work.requested))
  {
    hide Coherent, HistoryOk, OutboxOk, CacheOk, NothingLost, StartsOk, EffectsOk, TerminalOk, CloseRoom;
    assert forall i :: 0 <= i < |c.h.completions| ==> Fits(s.usesCalls, c.h.completions[i].1);
  }

  // Before the first close at most two results are only in RAM, and then nothing
  // else waits there.
  lemma TwoInRam(c: Core, s: Setting)
    requires Rest(c, s) && !c.closeTried
    ensures |c.cache| <= 2
    ensures c.pending.None? && !c.storageFault ==> c.cache == map[]
  {
    hide Coherent, HistoryOk, OutboxOk, CacheOk, NothingLost, StartsOk, EffectsOk, TerminalOk, CallsOk;
    if c.pending.None? && !c.storageFault { RestIsEmpty(c, s); }
  }
}
