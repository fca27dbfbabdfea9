// Default limits do not keep a journal from being written to the ordinary file
// after the reserve: a control that no longer fits goes to the reserve and a
// smaller ordinary request follows. Adoption then forgets an answered request.
module JournalQuota {
  import opened JournalFormat
  import opened JournalLog
  import opened JournalScans
  import opened RequestJournals
  import opened JournalAdoption

  // A journal of the first epoch and the empty branch, as a value.
  datatype Parent = Parent(heads: seq<U64>, disk: seq<Bytes>, used: seq<nat>, log: Log)

  // The controller refuses longer control requests before it asks the journal.
  const MAX_CONTROL: nat := 4096

  // One record its owner asks for.
  datatype Put = Put(file: nat, kind: nat, request: U64, id: Bytes, body: Bytes)

  ghost predicate Released(hash: Hasher, p: Parent) {
    Indexed(hash, p.heads, p.disk, p.used, p.log, 0, 1) && CleanFiles(p.disk, p.used, DEFAULT_LIMITS.reserveBytes)
  }

  // What opening creates.
  function Opened(): Parent {
    Parent(seq(BUCKETS, _ => 0), [FileHeader(), FileHeader() + Zeros(DEFAULT_LIMITS.reserveBytes - START)], [START, START], [])
  }

  // The journal takes this record under the default limits: a reservation goes to
  // the ordinary file while it has an ID and room, else a control's goes to the
  // reserve; a completion follows its own reservation.
  ghost predicate Takes(hash: Hasher, p: Parent, put: Put) {
    var size := RecordSize([], put.id, put.body);
    && |p.heads| == BUCKETS && |p.used| == 2 && |p.disk| == 2
    && put.file < 2 && 0 < |put.id| <= MAX_ID && |put.body| <= MAX_BODY
    && p.used[put.file] + size <= ByteLimit(DEFAULT_LIMITS, put.file, false)
    && if put.kind == COMPLETION then
         && Get(Index(p.log), Key([], put.id)).Some?
         && var e := Index(p.log)[Key([], put.id)]; e.token == put.request && e.response.None? && put.file == FileOf(e.token)
       else
         && put.kind == RESERVATION && put.request == 0 && Key([], put.id) !in Index(p.log)
         && var full := Reservations(Pick(p.log, 0)) >= DEFAULT_LIMITS.normalEntries || p.used[0] + size > DEFAULT_LIMITS.normalBytes;
         if put.file == 0 then !full else full && Reservations(Pick(p.log, 1)) + 2 <= DEFAULT_LIMITS.reserveEntries
  }

  function Placed(hash: Hasher, p: Parent, put: Put): Logged
    requires |p.heads| == BUCKETS && |p.used| == 2 && put.file < 2
  {
    Logged(put.file, p.used[put.file], Record(p.heads[Bucket(hash, put.id)], put.request, 1, put.kind, [], put.id, put.body))
  }

  ghost function After(hash: Hasher, p: Parent, put: Put): Parent
    requires Takes(hash, p, put)
  {
    var l := Placed(hash, p, put);
    Parent(p.heads[Bucket(hash, put.id) := Tok(l)],
      p.disk[put.file := Splice(p.disk[put.file], l.off, Encode(hash, l.rec))],
      p.used[put.file := l.off + Size(l.rec)], p.log + [l])
  }

  // The journal after these records, or None if it would have refused one.
  ghost function Replay(hash: Hasher, puts: seq<Put>): Option<Parent> {
    if puts == [] then Some(Opened())
    else
      var before := Replay(hash, puts[..|puts| - 1]);
      if before.Some? && Takes(hash, before.value, puts[|puts| - 1]) then Some(After(hash, before.value, puts[|puts| - 1])) else None
  }

  lemma OneMore(hash: Hasher, puts: seq<Put>, p: Parent, put: Put)
    requires Replay(hash, puts) == Some(p) && Takes(hash, p, put)
    ensures Replay(hash, puts + [put]) == Some(After(hash, p, put))
  {
    hide After, Takes;
    assert (puts + [put])[..|puts|] == puts;
  }

  lemma OpenedIsReleased(hash: Hasher)
    ensures Released(hash, Opened())
  {
    hide FileHeader, Zeros;
    var p := Opened();
    EmptyLogReadable(hash, p.disk, p.used);
    assert p.log[0..] == [];
    assert p.disk[1][..START] == FileHeader() && p.disk[0][..START] == FileHeader();
  }

  lemma AfterIsReleased(hash: Hasher, p: Parent, put: Put)
    requires Released(hash, p) && Takes(hash, p, put)
    ensures Released(hash, After(hash, p, put))
    ensures After(hash, p, put).log == p.log + [Placed(hash, p, put)]
  {
    hide Indexed, CleanFiles, Encode, Splice, Index, Reservations, Pick;
    var l := Placed(hash, p, put);
    assert p.log[0..] == p.log;
    AppendKeepsIndexed(hash, p.heads, p.disk, p.used, p.log, 0, 1, l);
    AppendKeepsClean(p.disk, p.used, DEFAULT_LIMITS.reserveBytes, put.file, Encode(hash, l.rec));
  }

  // ---- filling the ordinary file ----------------------------------------------

  function FillerId(k: nat, width: nat): (id: Bytes)
    requires width >= 8
    ensures |id| == width && id[..8] == LittleEndian(k, 8)
  {
    LittleEndian(k, 8) + Zeros(width - 8)
  }

  // n requests were admitted, all to the ordinary file and by filler IDs below n.
  ghost predicate Filled(p: Parent, n: nat, width: nat) {
    && width >= 8 && |p.used| == 2 && p.used[1] == START
    && (forall i :: 0 <= i < |p.log| ==> p.log[i].file == 0 && FillerBelow(p.log[i].rec.id, n, width))
    && Reservations(Pick(p.log, 0)) == n && Pick(p.log, 1) == []
  }

  ghost predicate FillerBelow(id: Bytes, n: nat, width: nat) {
    |id| == width >= 8 && FromLittleEndian(id[..8]) < n
  }

  lemma UnknownId(log: Log, id: Bytes)
    requires Lawful(log) && forall i :: 0 <= i < |log| ==> log[i].rec.id != id
    ensures Key([], id) !in Index(log)
  {
    hide Lawful, Index;
    assert log[..|log|] == log;
    if Key([], id) in Index(log) {
      var r := ReservationOf(log, |log|, Key([], id));
    }
  }

  lemma ReleasedParts(hash: Hasher, p: Parent)
    requires Released(hash, p)
    ensures Lawful(p.log) && |p.heads| == BUCKETS && |p.used| == 2 && |p.disk| == 2
  {
    hide Lawful, Threaded, EpochsSplit;
    assert p.log[0..] == p.log;
  }

  lemma PickGrows(log: Log, l: Logged)
    ensures forall f: nat :: Pick(log + [l], f) == if l.file == f then Pick(log, f) + [l] else Pick(log, f)
    ensures Reservations(log + [l]) == Reservations(log) + if l.rec.kind != COMPLETION then 1 else 0
  {
    assert (log + [l])[..|log|] == log;
  }

  lemma FillerIsNew(p: Parent, n: nat, width: nat)
    requires Filled(p, n, width) && n < 20000 && Lawful(p.log)
    ensures Key([], FillerId(n, width)) !in Index(p.log)
    ensures FillerBelow(FillerId(n, width), n + 1, width)
  {
    hide Lawful, Index, FillerId, Pick, Reservations;
    Pow256Values();
    LittleEndianRoundTrip(n, 8);
    UnknownId(p.log, FillerId(n, width));
  }

  lemma FilledGrows(p: Parent, n: nat, width: nat, l: Logged, q: Parent)
    requires Filled(p, n, width) && l.file == 0 && q.log == p.log + [l] && |q.used| == 2 && q.used[1] == START
    requires l.rec.kind == COMPLETION ==> FillerBelow(l.rec.id, n, width)
    requires l.rec.kind != COMPLETION ==> FillerBelow(l.rec.id, n + 1, width)
    ensures Filled(q, if l.rec.kind == COMPLETION then n else n + 1, width)
  {
    hide Pick, Reservations;
    PickGrows(p.log, l);
    PickGrows(Pick(p.log, 0), l);
  }

  // One more filler request is admitted.
  lemma FillReservation(hash: Hasher, puts: seq<Put>, p: Parent, n: nat, width: nat, size: nat) returns (put: Put, q: Parent)
    requires Replay(hash, puts) == Some(p) && Released(hash, p) && Filled(p, n, width) && 8 <= width <= 10 && n < 20000
    requires size <= MAX_BODY && p.used[0] + HEADER_BYTES + width + size <= DEFAULT_LIMITS.normalBytes
    ensures Replay(hash, puts + [put]) == Some(q) && Released(hash, q) && Filled(q, n + 1, width)
    ensures |q.used| == 2 && q.used[0] == p.used[0] + HEADER_BYTES + width + size
    ensures var k := Key([], FillerId(n, width)); Get(Index(q.log), k).Some? && Index(q.log)[k].response.None? && Index(q.log)[k].token < RESERVE_BIT
  {
    hide Indexed, CleanFiles, Released, Replay, Filled, Lawful, Encode, Splice, FillerId, FillerBelow, Pick, Reservations;
    ReleasedParts(hash, p);
    FillerIsNew(p, n, width);
    put := Put(0, RESERVATION, 0, FillerId(n, width), Zeros(size));
    FilledParts(p, n, width);
    OneMore(hash, puts, p, put);
    AfterIsReleased(hash, p, put);
    q := After(hash, p, put);
    FilledGrows(p, n, width, Placed(hash, p, put), q);
    assert (p.log + [Placed(hash, p, put)])[..|p.log|] == p.log;
  }

  lemma FilledParts(p: Parent, n: nat, width: nat)
    requires Filled(p, n, width)
    ensures Reservations(Pick(p.log, 0)) == n && Reservations(Pick(p.log, 1)) == 0 && |p.used| == 2 && p.used[1] == START
  {
  }

  // That filler request is answered.
  lemma FillCompletion(hash: Hasher, puts: seq<Put>, p: Parent, n: nat, width: nat, size: nat) returns (put: Put, q: Parent)
    requires Replay(hash, puts) == Some(p) && Released(hash, p) && Filled(p, n + 1, width) && 8 <= width <= 10 && n < 20000
    requires size <= MAX_BODY && p.used[0] + HEADER_BYTES + width + size <= DEFAULT_LIMITS.normalBytes
    requires var k := Key([], FillerId(n, width)); Get(Index(p.log), k).Some? && Index(p.log)[k].response.None? && Index(p.log)[k].token < RESERVE_BIT
    ensures Replay(hash, puts + [put]) == Some(q) && Released(hash, q) && Filled(q, n + 1, width)
    ensures |q.used| == 2 && q.used[0] == p.used[0] + HEADER_BYTES + width + size
  {
    hide Indexed, CleanFiles, Released, Replay, Filled, Lawful, Encode, Splice, FillerId, Pick, Reservations, Index;
    ReleasedParts(hash, p);
    Pow256Values();
    LittleEndianRoundTrip(n, 8);
    put := Put(0, COMPLETION, Index(p.log)[Key([], FillerId(n, width))].token, FillerId(n, width), Zeros(size));
    FilledParts(p, n + 1, width);
    OneMore(hash, puts, p, put);
    AfterIsReleased(hash, p, put);
    q := After(hash, p, put);
    FilledGrows(p, n + 1, width, Placed(hash, p, put), q);
  }

  // Answered filler requests fill the ordinary file to any length, long before the
  // IDs run out.
  lemma {:induction false} FillTo(hash: Hasher, puts: seq<Put>, p: Parent, n: nat, width: nat, target: nat) returns (more: seq<Put>, q: Parent, m: nat)
    requires Replay(hash, puts) == Some(p) && Released(hash, p) && Filled(p, n, width) && 8 <= width <= 10
    requires n * MAX_BODY <= p.used[0] && p.used[0] + 2 * (HEADER_BYTES + width) <= target <= DEFAULT_LIMITS.normalBytes
    ensures Replay(hash, more) == Some(q) && Released(hash, q) && Filled(q, m, width) && m < 20000
    ensures q.used[0] == target && q.used[1] == START
    decreases target - p.used[0]
  {
    hide Released, Replay, Index, Pick, Reservations;
    var left := target - p.used[0] - 2 * (HEADER_BYTES + width);
    var asked := if left < MAX_BODY then left else MAX_BODY;
    var answered := if left <= 2 * MAX_BODY then left - asked else 0;
    var reservation, r := FillReservation(hash, puts, p, n, width, asked);
    var completion, s := FillCompletion(hash, puts + [reservation], r, n, width, answered);
    if left <= 2 * MAX_BODY {
      more, q, m := puts + [reservation] + [completion], s, n + 1;
    } else {
      more, q, m := FillTo(hash, puts + [reservation] + [completion], s, n + 1, width, target);
    }
  }

  lemma NearlyFull(hash: Hasher, width: nat, target: nat) returns (puts: seq<Put>, p: Parent, n: nat)
    requires 8 <= width <= 10 && START + 2 * (HEADER_BYTES + width) <= target <= DEFAULT_LIMITS.normalBytes
    ensures Replay(hash, puts) == Some(p) && Released(hash, p) && Filled(p, n, width) && n < 20000
    ensures p.used[0] == target && p.used[1] == START
  {
    hide Released, FileHeader, Zeros;
    OpenedIsReleased(hash);
    puts, p, n := FillTo(hash, [], Opened(), 0, width, target);
  }

  lemma FilledIds(p: Parent, n: nat, width: nat)
    requires Filled(p, n, width)
    ensures forall i :: 0 <= i < |p.log| ==> |p.log[i].rec.id| == width
  {
  }

  // ---- the forgotten request ----------------------------------------------------

  // The log and the file grew by one record.
  ghost predicate Grows(hash: Hasher, p: Parent, put: Put, q: Parent) {
    && |p.heads| == BUCKETS && |p.used| == 2 && put.file < 2
    && q.log == p.log + [Placed(hash, p, put)]
    && q.used == p.used[put.file := p.used[put.file] + RecordSize([], put.id, put.body)]
  }

  // A control that has no room in the ordinary file is admitted to the reserve.
  lemma ControlFallsBack(hash: Hasher, puts: seq<Put>, p: Parent, n: nat, width: nat, c: Bytes, control: Bytes) returns (put: Put, q: Parent)
    requires Replay(hash, puts) == Some(p) && Released(hash, p) && Filled(p, n, width) && n < 20000
    requires 0 < |c| <= MAX_ID && |c| != width && |control| <= MAX_BODY
    requires p.used[0] + RecordSize([], c, control) > DEFAULT_LIMITS.normalBytes
    ensures put == Put(1, RESERVATION, 0, c, control) && Grows(hash, p, put, q)
    ensures Replay(hash, puts + [put]) == Some(q) && Released(hash, q)
    ensures Get(Index(q.log), Key([], c)) == Some(Entry(START + RESERVE_BIT, control, None, false))
  {
    hide Indexed, CleanFiles, Released, Replay, Lawful, Encode, Splice, Pick, Reservations;
    ReleasedParts(hash, p);
    FilledParts(p, n, width);
    UnknownId(p.log, c);
    put := Put(1, RESERVATION, 0, c, control);
    OneMore(hash, puts, p, put);
    AfterIsReleased(hash, p, put);
    q := After(hash, p, put);
    assert (p.log + [Placed(hash, p, put)])[..|p.log|] == p.log;
  }

  // Its completion is written beside it.
  lemma ControlIsAnswered(hash: Hasher, puts: seq<Put>, p: Parent, c: Bytes, control: Bytes, answer: Bytes) returns (put: Put, q: Parent)
    requires Replay(hash, puts) == Some(p) && Released(hash, p)
    requires 0 < |c| <= MAX_ID && |answer| <= MAX_BODY && |p.used| == 2 && p.used[1] <= START + HEADER_BYTES + MAX_ID + MAX_BODY
    requires Get(Index(p.log), Key([], c)) == Some(Entry(START + RESERVE_BIT, control, None, false))
    ensures put == Put(1, COMPLETION, START + RESERVE_BIT, c, answer) && Grows(hash, p, put, q)
    ensures Replay(hash, puts + [put]) == Some(q) && Released(hash, q)
  {
    hide Indexed, CleanFiles, Released, Replay, Lawful, Encode, Splice, Pick, Reservations, Index;
    ReleasedParts(hash, p);
    put := Put(1, COMPLETION, START + RESERVE_BIT, c, answer);
    OneMore(hash, puts, p, put);
    AfterIsReleased(hash, p, put);
    q := After(hash, p, put);
  }

  // A smaller ordinary request still has room in the ordinary file.
  lemma OrdinaryFollows(hash: Hasher, puts: seq<Put>, p: Parent, o: Bytes, payload: Bytes) returns (put: Put, q: Parent)
    requires Replay(hash, puts) == Some(p) && Released(hash, p)
    requires 0 < |o| <= MAX_ID && |payload| <= MAX_BODY && Reservations(Pick(p.log, 0)) < 20000
    requires |p.used| == 2 && p.used[0] + RecordSize([], o, payload) <= DEFAULT_LIMITS.normalBytes
    requires forall i :: 0 <= i < |p.log| ==> p.log[i].rec.id != o
    ensures put == Put(0, RESERVATION, 0, o, payload) && Grows(hash, p, put, q)
    ensures Replay(hash, puts + [put]) == Some(q) && Released(hash, q)
    ensures Get(Index(q.log), Key([], o)) == Some(Entry(p.used[0], payload, None, false))
  {
    hide Indexed, CleanFiles, Released, Replay, Lawful, Encode, Splice, Pick, Reservations;
    ReleasedParts(hash, p);
    UnknownId(p.log, o);
    put := Put(0, RESERVATION, 0, o, payload);
    OneMore(hash, puts, p, put);
    AfterIsReleased(hash, p, put);
    q := After(hash, p, put);
    assert (p.log + [Placed(hash, p, put)])[..|p.log|] == p.log;
  }

  lemma OrdinaryIsAnswered(hash: Hasher, puts: seq<Put>, p: Parent, o: Bytes, token: U64, payload: Bytes, result: Bytes) returns (put: Put, q: Parent)
    requires Replay(hash, puts) == Some(p) && Released(hash, p)
    requires 0 < |o| <= MAX_ID && |result| <= MAX_BODY && token < RESERVE_BIT
    requires |p.used| == 2 && p.used[0] + RecordSize([], o, result) <= DEFAULT_LIMITS.normalBytes
    requires Get(Index(p.log), Key([], o)) == Some(Entry(token, payload, None, false))
    ensures put == Put(0, COMPLETION, token, o, result) && Grows(hash, p, put, q)
    ensures Replay(hash, puts + [put]) == Some(q) && Released(hash, q)
    ensures Get(Index(q.log), Key([], o)) == Some(Entry(token, payload, Some(result), false))
  {
    hide Indexed, CleanFiles, Released, Replay, Lawful, Encode, Splice, Pick, Reservations;
    ReleasedParts(hash, p);
    put := Put(0, COMPLETION, token, o, result);
    OneMore(hash, puts, p, put);
    AfterIsReleased(hash, p, put);
    q := After(hash, p, put);
    assert (p.log + [Placed(hash, p, put)])[..|p.log|] == p.log;
  }

  // What the four last records do to the bucket.
  lemma {:induction false} MissedTail(hash: Hasher, before: Log, cr: Logged, cc: Logged, or: Logged, oc: Logged, log: Log)
    requires log == before + [cr, cc, or, oc] && cr.file == cc.file == 1 && or.file == oc.file == 0
    requires cr.rec.id == cc.rec.id && or.rec.id == oc.rec.id && cr.rec.id != or.rec.id
    requires forall i :: 0 <= i < |before| ==> before[i].rec.id != or.rec.id
    requires cc.rec.epoch == oc.rec.epoch == 1 && Bucket(hash, cc.rec.id) == Bucket(hash, oc.rec.id)
    ensures Reach(hash, log, 0, 1, Bucket(hash, oc.rec.id)) == |before| + 2
    ensures !OrdinaryFirst(hash, log, 1, Bucket(hash, oc.rec.id))
    ensures forall scope: Bytes :: AdoptedLookup(hash, log, 0, 1, oc.rec.id, scope) == Lookup(None, None)
  {
    var b, n := Bucket(hash, oc.rec.id), |before| + 2;
    assert LastOf(hash, log, |log|, 0, 1, b) == |log| - 1;
    assert LastOf(hash, log, |log|, 1, 1, b) == LastOf(hash, log, |log| - 1, 1, 1, b) == LastOf(hash, log, n, 1, 1, b) == n - 1;
    assert log[0..] == log;
    forall scope: Bytes
      ensures AdoptedLookup(hash, log, 0, 1, oc.rec.id, scope) == Lookup(None, None)
    {
      NeverSeen(log[..n], n, oc.rec.id, scope, true);
      NeverSeen(log[..n], n, oc.rec.id, scope, false);
    }
  }

  lemma {:induction false} NeverSeen(cur: Log, n: nat, id: Bytes, scope: Bytes, own: bool)
    requires n <= |cur| && forall i :: 0 <= i < n ==> cur[i].rec.id != id
    ensures Newest(cur, n, id, scope, own) < 0
    decreases n
  {
    if n > 0 { NeverSeen(cur, n - 1, id, scope, own); }
  }

  // A control's whole exchange goes to the reserve.
  lemma ControlExchange(hash: Hasher, puts: seq<Put>, p: Parent, n: nat, width: nat, c: Bytes, control: Bytes, answer: Bytes)
    returns (more: seq<Put>, q: Parent, cr: Logged, cc: Logged)
    requires Replay(hash, puts) == Some(p) && Released(hash, p) && Filled(p, n, width) && n < 20000
    requires 0 < |c| <= MAX_ID && |c| != width && |control| <= MAX_BODY && |answer| <= MAX_BODY
    requires p.used[0] + RecordSize([], c, control) > DEFAULT_LIMITS.normalBytes
    ensures Replay(hash, more) == Some(q) && Released(hash, q) && q.log == p.log + [cr, cc]
    ensures |q.used| == 2 && q.used[0] == p.used[0] && Pick(q.log, 0) == Pick(p.log, 0)
    ensures cr.file == cc.file == 1 && cr.rec.id == cc.rec.id == c && cc.rec.epoch == 1
  {
    hide Released, Replay, Index, Pick, Reservations, Splice, Encode, Takes, Filled, Bucket;
    var request, p1 := ControlFallsBack(hash, puts, p, n, width, c, control);
    FilledParts(p, n, width);
    var completion, p2 := ControlIsAnswered(hash, puts + [request], p1, c, control, answer);
    more, q, cr, cc := puts + [request] + [completion], p2, Placed(hash, p, request), Placed(hash, p1, completion);
    PickGrows(p.log, cr);
    PickGrows(p1.log, cc);
  }

  // An ordinary request's whole exchange goes to the ordinary file.
  lemma OrdinaryExchange(hash: Hasher, puts: seq<Put>, p: Parent, o: Bytes, payload: Bytes, result: Bytes)
    returns (more: seq<Put>, q: Parent, or: Logged, oc: Logged)
    requires Replay(hash, puts) == Some(p) && Released(hash, p)
    requires 0 < |o| <= MAX_ID && |payload| <= MAX_BODY && |result| <= MAX_BODY && Reservations(Pick(p.log, 0)) < 20000
    requires |p.used| == 2 && p.used[0] + RecordSize([], o, payload) + RecordSize([], o, result) <= DEFAULT_LIMITS.normalBytes
    requires forall i :: 0 <= i < |p.log| ==> p.log[i].rec.id != o
    ensures Replay(hash, more) == Some(q) && Released(hash, q) && q.log == p.log + [or, oc]
    ensures Get(Index(q.log), Key([], o)).Some? && Index(q.log)[Key([], o)].response == Some(result)
    ensures or.file == oc.file == 0 && or.rec.id == oc.rec.id == o && oc.rec.epoch == 1
  {
    hide Released, Replay, Index, Pick, Reservations, Splice, Encode, Takes, Bucket;
    var request, p1 := OrdinaryFollows(hash, puts, p, o, payload);
    var completion, p2 := OrdinaryIsAnswered(hash, puts + [request], p1, o, p.used[0], payload, result);
    more, q, or, oc := puts + [request] + [completion], p2, Placed(hash, p, request), Placed(hash, p1, completion);
  }

  // For any two IDs of one bucket: under the default limits a parent can finish a
  // control and then an ordinary request so that its adopter no longer finds the
  // ordinary one, although its result was recorded: not as its own, and under
  // another branch not as foreign evidence either. It takes a control larger than
  // the whole exchange of the ordinary request.
  lemma AdoptionCanForgetARequest(hash: Hasher, c: Bytes, o: Bytes, control: Bytes, answer: Bytes, payload: Bytes, result: Bytes) returns (puts: seq<Put>, p: Parent)
    requires c != o && 0 < |c| <= MAX_ID && 0 < |o| <= MAX_ID && Bucket(hash, c) == Bucket(hash, o)
    requires |control| <= MAX_CONTROL && |answer| <= MAX_BODY && |payload| <= MAX_BODY && |result| <= MAX_BODY
    requires RecordSize([], o, payload) + RecordSize([], o, result) < RecordSize([], c, control)
    ensures Replay(hash, puts) == Some(p) && Released(hash, p)
    ensures Get(Index(p.log), Key([], o)).Some? && Index(p.log)[Key([], o)].response == Some(result)
    ensures !OrdinaryFirst(hash, p.log, 1, Bucket(hash, o))
    ensures |p.disk| == 2 && |p.disk[0]| >= START && |p.disk[1]| >= START && Reach(hash, p.log, 0, 1, Bucket(hash, o)) <= |p.log|
    ensures RebuiltHead(hash, p.disk, 1, Bucket(hash, o)) == Link(hash, p.log, Reach(hash, p.log, 0, 1, Bucket(hash, o)), Bucket(hash, o))
    ensures forall scope: Bytes :: AdoptedLookup(hash, p.log, 0, 1, o, scope) == Lookup(None, None)
    ensures LookupIn(p.log, o, []).hit.Some? && forall scope: Bytes :: scope != [] ==> LookupIn(p.log, o, scope).foreign.Some?
  {
    hide Released, Replay, Index, Pick, Reservations, Reach, OrdinaryFirst, AdoptedLookup, RebuiltHead, Filled, Bucket, LookupIn, Lawful;
    var width := if |c| != 8 && |o| != 8 then 8 else if |c| != 9 && |o| != 9 then 9 else 10;
    var puts0, p0, n := NearlyFull(hash, width, DEFAULT_LIMITS.normalBytes - RecordSize([], o, payload) - RecordSize([], o, result));
    var puts1, p1, cr, cc := ControlExchange(hash, puts0, p0, n, width, c, control, answer);
    FilledParts(p0, n, width);
    FilledIds(p0, n, width);
    var or, oc;
    puts, p, or, oc := OrdinaryExchange(hash, puts1, p1, o, payload, result);
    MissedTail(hash, p0.log, cr, cc, or, oc, p.log);
    Rebuilt(hash, p, Bucket(hash, o));
    ReleasedParts(hash, p);
    ParentFinds(p.log, o);
  }

  lemma ParentFinds(log: Log, o: Bytes)
    requires Lawful(log) && Key([], o) in Index(log)
    ensures LookupIn(log, o, []).hit.Some? && forall scope: Bytes :: scope != [] ==> LookupIn(log, o, scope).foreign.Some?
  {
    hide Lawful, Index, LookupIn;
    LookupIsMapLookup(log, o, []);
    forall scope: Bytes | scope != []
      ensures LookupIn(log, o, scope).foreign.Some?
    {
      LookupIsMapLookup(log, o, scope);
    }
  }

  lemma Rebuilt(hash: Hasher, p: Parent, b: nat)
    requires Released(hash, p) && b < BUCKETS
    ensures |p.disk| == 2 && |p.disk[0]| >= START && |p.disk[1]| >= START && Reach(hash, p.log, 0, 1, b) <= |p.log|
    ensures RebuiltHead(hash, p.disk, 1, b) == Link(hash, p.log, Reach(hash, p.log, 0, 1, b), b)
  {
    hide Indexed, Reach, RebuiltHead, Link;
    RebuiltReach(hash, p.heads, p.disk, p.used, DEFAULT_LIMITS.reserveBytes, p.log, 0, 1, b);
    assert p.log[0..] == p.log;
  }
}
