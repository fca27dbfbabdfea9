// runtime/request_journal.hpp: the append-only request journal. File contents
// are byte sequences written in place, the bucket heads are an array, and every
// disk operation may fail (`*` is the adversary).
module RequestJournals {
  import opened JournalFormat
  import opened JournalLog
  import opened JournalScans

  datatype Limits = Limits(normalBytes: nat, normalEntries: nat, reserveBytes: nat, reserveEntries: nat)

  const DEFAULT_LIMITS := Limits(64 * 0x4000_0000, 262144, 32 * 1024 * 1024, 128)

  // Part of the reserve only a close may use.
  function CloseReserveBytes(limits: Limits): nat {
    var share := limits.reserveBytes / 4 * 3;
    if share <= 12 * 1024 * 1024 + 16384 then share else 12 * 1024 * 1024 + 16384
  }

  function ByteLimit(limits: Limits, file: nat, closing: bool): int {
    if file == 0 then limits.normalBytes
    else if closing then limits.reserveBytes
    else limits.reserveBytes - CloseReserveBytes(limits)
  }

  // The default quotas; of the reserve, 12 MiB and 16 KiB are kept for a close.
  lemma DefaultQuotas()
    ensures DEFAULT_LIMITS.normalEntries == 262144 && DEFAULT_LIMITS.reserveEntries == 128
    ensures forall closing :: ByteLimit(DEFAULT_LIMITS, 0, closing) == 68719476736
    ensures ByteLimit(DEFAULT_LIMITS, 1, true) == 33554432 && ByteLimit(DEFAULT_LIMITS, 1, false) == 33554432 - 12599296
  {
  }

  datatype Appended = Stored(token: nat) | NoSpace | IoError
  // JournalCapacity and JournalError of the original.
  datatype Reserved = Admitted(token: nat) | OverCapacity | Unavailable
  datatype Completed = Done | NoRoom | Failed
  datatype Found = Found(token: nat, payload: Bytes, response: Option<Bytes>)
  datatype Foreign = Foreign(branch: Bytes, payload: Bytes)
  datatype Lookup = Lookup(hit: Option<Found>, foreign: Option<Foreign>)

  datatype Adoption = Adopted | Refused | Unreadable
  datatype Got<+T> = Got(value: T) | Lost(corrupt: bool)

  // File contents after writing `bytes` at `at`; a gap reads as zeros.
  function Splice(file: Bytes, at: nat, bytes: Bytes): (r: Bytes)
    ensures |r| >= at + |bytes| && |r| >= |file|
    ensures r[at..at + |bytes|] == bytes
    ensures forall i :: 0 <= i < |file| && i < at ==> r[i] == file[i]
    ensures forall i :: at + |bytes| <= i < |file| ==> r[i] == file[i]
  {
    var padded := if |file| < at then file + seq(at - |file|, _ => 0) else file;
    var head := padded[..at] + bytes;
    if |head| < |padded| then head + padded[|head|..] else head
  }

  // Every committed record can be read back at its offset.
  ghost predicate Readable(hash: Hasher, disk: seq<Bytes>, used: seq<nat>, log: Log) {
    && |disk| == 2 && |used| == 2
    && used[0] == End(log, 0) < RESERVE_BIT && used[1] == End(log, 1) < RESERVE_BIT
    && Tiled(log)
    && JournalLog.Stored(hash, disk, log)
  }

  // The magic, then the little-endian closed flag, then zeros.
  function Zeros(n: nat): (r: Bytes)
    ensures |r| == n && forall i :: 0 <= i < n ==> r[i] == 0
  {
    seq(n, _ => 0)
  }

  function FileHeader(): (r: Bytes)
    ensures |r| == START
  {
    MAGIC + Zeros(START - 8)
  }

  // Files without a torn write: the ordinary file ends with its last record and
  // the untouched part of the reserve is still zero.
  ghost predicate CleanFiles(disk: seq<Bytes>, used: seq<nat>, reserveBytes: nat) {
    && |disk| == 2 && |used| == 2
    && |disk[0]| == used[0] >= START && |disk[1]| == reserveBytes && START <= used[1] <= reserveBytes
    && disk[0][..START] == FileHeader() && disk[1][..START] == FileHeader()
    && forall i :: used[1] <= i < |disk[1]| ==> disk[1][i] == 0
  }

  lemma AppendKeepsClean(disk: seq<Bytes>, used: seq<nat>, reserveBytes: nat, file: nat, bytes: Bytes)
    requires CleanFiles(disk, used, reserveBytes) && file < 2 && (file == 1 ==> used[1] + |bytes| <= reserveBytes)
    ensures CleanFiles(disk[file := Splice(disk[file], used[file], bytes)], used[file := used[file] + |bytes|], reserveBytes)
  {
    hide FileHeader;
    var after := Splice(disk[file], used[file], bytes);
    assert after[..START] == disk[file][..START];
  }

  // The bucket chains of the current epoch (the records from `base` on) thread
  // exactly its records, and callers kept to one reservation per key.
  ghost predicate Indexed(hash: Hasher, heads: seq<nat>, disk: seq<Bytes>, used: seq<nat>, log: Log, base: nat, epoch: nat) {
    && Readable(hash, disk, used, log)
    && base <= |log|
    && EpochsSplit(log, base, epoch)
    && Chained(hash, heads, log[base..])
    && Lawful(log[base..])
  }

  lemma AppendKeepsIndexed(hash: Hasher, heads: seq<nat>, disk: seq<Bytes>, used: seq<nat>, log: Log, base: nat, epoch: nat, l: Logged)
    requires Indexed(hash, heads, disk, used, log, base, epoch)
    requires l.file < 2 && WellFormed(l.rec) && l.off == used[l.file] && l.off + Size(l.rec) < RESERVE_BIT
    requires l.rec.next == heads[Bucket(hash, l.rec.id)] && l.rec.epoch == epoch
    requires LawfulNext(Index(log[base..]), l)
    ensures Indexed(hash, heads[Bucket(hash, l.rec.id) := Tok(l)],
              disk[l.file := Splice(disk[l.file], l.off, Encode(hash, l.rec))],
              used[l.file := used[l.file] + Size(l.rec)], log + [l], base, epoch)
    ensures (log + [l])[base..] == log[base..] + [l]
  {
    hide Readable, Chained, Lawful, LawfulNext, Index, Encode, Splice, Size;
    assert (log + [l])[base..] == log[base..] + [l];
    AppendKeepsReadable(hash, disk, used, log, l);
    ChainedAppend(hash, heads, log[base..], l);
    LawfulAppend(log[base..], l);
  }

  // All records are of older epochs and no chain has begun.
  lemma FreshEpoch(hash: Hasher, heads: seq<nat>, zeros: seq<nat>, disk: seq<Bytes>, used: seq<nat>, log: Log, base: nat, epoch: nat, next: nat)
    requires Indexed(hash, heads, disk, used, log, base, epoch) && next > epoch
    requires |zeros| == BUCKETS && forall b :: 0 <= b < BUCKETS ==> zeros[b] == 0
    ensures Indexed(hash, zeros, disk, used, log, |log|, next)
  {
    hide Readable;
    assert log[|log|..] == [];
  }

  lemma TornWriteKeepsIndexed(hash: Hasher, heads: seq<nat>, disk: seq<Bytes>, used: seq<nat>, log: Log, base: nat, epoch: nat, file: nat, bytes: Bytes)
    requires Indexed(hash, heads, disk, used, log, base, epoch) && file < 2
    ensures Indexed(hash, heads, disk[file := Splice(disk[file], used[file], bytes)], used, log, base, epoch)
  {
    hide Chained, Lawful, EpochsSplit, Splice;
    WriteKeepsStored(hash, disk, log, file, bytes);
  }

  lemma WriteKeepsRecord(hash: Hasher, disk: seq<Bytes>, file: nat, end: nat, bytes: Bytes, l: Logged)
    requires file < |disk| && StoredAt(hash, disk, l) && (l.file != file || l.off + Size(l.rec) <= end)
    ensures StoredAt(hash, disk[file := Splice(disk[file], end, bytes)], l)
  {
    hide Encode, Splice, Size;
    if l.file == file {
      var after := Splice(disk[file], end, bytes);
      assert after[l.off..l.off + Size(l.rec)] == disk[file][l.off..l.off + Size(l.rec)];
    }
  }

  lemma EmptyLogReadable(hash: Hasher, disk: seq<Bytes>, used: seq<nat>)
    requires |disk| == 2 && used == [START, START]
    ensures Readable(hash, disk, used, [])
  {
  }

  // A file whose closed flag is set and which ends at its committed length.
  function ClosedFile(file: Bytes, used: nat): (r: Bytes)
    requires used >= START
    ensures |r| == used && r[8..12] == [1, 0, 0, 0]
    ensures forall i :: START <= i < used && i < |file| ==> r[i] == file[i]
  {
    Splice(Splice(file, 8, [1, 0, 0, 0]), used, [])[..used]
  }

  lemma SealedFile(hash: Hasher, heads: seq<nat>, disk: seq<Bytes>, used: seq<nat>, log: Log, base: nat, epoch: nat, file: nat)
    requires Indexed(hash, heads, disk, used, log, base, epoch) && file < 2
    ensures used[file] >= START && |disk| == 2
    ensures Indexed(hash, heads, disk[file := ClosedFile(disk[file], used[file])], used, log, base, epoch)
  {
    hide Chained, Lawful, EpochsSplit, Splice, ClosedFile, Encode, Size, End;
    var after := disk[file := ClosedFile(disk[file], used[file])];
    forall i | 0 <= i < |log|
      ensures StoredAt(hash, after, log[i])
    {
      OffsetsBounded(log, i);
      var l := log[i];
      assert StoredAt(hash, disk, l);
      assert after[l.file][l.off..l.off + Size(l.rec)] == disk[l.file][l.off..l.off + Size(l.rec)];
    }
  }

  // Writing past the committed end leaves every committed record readable.
  lemma WriteKeepsStored(hash: Hasher, disk: seq<Bytes>, log: Log, file: nat, bytes: Bytes)
    requires |disk| == 2 && file < 2 && Tiled(log) && JournalLog.Stored(hash, disk, log)
    ensures JournalLog.Stored(hash, disk[file := Splice(disk[file], End(log, file), bytes)], log)
  {
    hide Splice, StoredAt, Tiled, End;
    forall i | 0 <= i < |log|
      ensures StoredAt(hash, disk[file := Splice(disk[file], End(log, file), bytes)], log[i])
    {
      OffsetsBounded(log, i);
      WriteKeepsRecord(hash, disk, file, End(log, file), bytes, log[i]);
    }
  }

  lemma StoredAppend(hash: Hasher, disk: seq<Bytes>, log: Log, l: Logged)
    requires JournalLog.Stored(hash, disk, log) && StoredAt(hash, disk, l)
    ensures JournalLog.Stored(hash, disk, log + [l])
  {
  }

  lemma AppendKeepsReadable(hash: Hasher, disk: seq<Bytes>, used: seq<nat>, log: Log, l: Logged)
    requires Readable(hash, disk, used, log)
    requires l.file < 2 && WellFormed(l.rec) && l.off == used[l.file] && l.off + Size(l.rec) < RESERVE_BIT
    ensures Readable(hash, disk[l.file := Splice(disk[l.file], l.off, Encode(hash, l.rec))],
              used[l.file := used[l.file] + Size(l.rec)], log + [l])
  {
    hide Encode, Splice, Tiled, End, JournalLog.Stored, WellFormed;
    WriteKeepsStored(hash, disk, log, l.file, Encode(hash, l.rec));
    TiledAppend(log, l);
    StoredAppend(hash, disk[l.file := Splice(disk[l.file], l.off, Encode(hash, l.rec))], log, l);
  }

  // Where record `i` lies and how its parts can be cut out of the file.
  lemma RecordInFile(hash: Hasher, disk: seq<Bytes>, used: seq<nat>, log: Log, i: nat)
    requires Readable(hash, disk, used, log) && i < |log|
    ensures var l := log[i]; var scopeAt := l.off + HEADER_BYTES;
      var idAt := scopeAt + |l.rec.scope|; var bodyAt := idAt + |l.rec.id|; var end := l.off + Size(l.rec);
      && |disk| == 2 && |used| == 2 && l.file < 2 && WellFormed(l.rec)
      && FileOf(Tok(l)) == l.file && OffsetOf(Tok(l)) == l.off && START <= l.off && end <= used[l.file] && end <= |disk[l.file]|
      && disk[l.file][l.off..scopeAt] == HeaderBytes(hash, l.rec)
      && disk[l.file][scopeAt..idAt] == l.rec.scope
      && disk[l.file][idAt..bodyAt] == l.rec.id
      && disk[l.file][bodyAt..end] == l.rec.body
  {
    hide HeaderBytes, Encode, End;
    OffsetsBounded(log, i);
    var l := log[i];
    assert StoredAt(hash, disk, l);
    RecordParts(hash, disk[l.file], l.off, l.rec);
  }

  lemma RecordParts(hash: Hasher, file: Bytes, off: nat, r: Record)
    requires off + Size(r) <= |file| && file[off..off + Size(r)] == Encode(hash, r)
    ensures var scopeAt := off + HEADER_BYTES; var idAt := scopeAt + |r.scope|; var bodyAt := idAt + |r.id|;
      && file[off..scopeAt] == HeaderBytes(hash, r)
      && file[scopeAt..idAt] == r.scope
      && file[idAt..bodyAt] == r.id
      && file[bodyAt..off + Size(r)] == r.body
  {
    EncodedParts(hash, r);
    var n, idAt := Size(r), HEADER_BYTES + |r.scope|;
    SliceOfSlice(file, off, n, 0, HEADER_BYTES);
    SliceOfSlice(file, off, n, HEADER_BYTES, idAt);
    SliceOfSlice(file, off, n, idAt, idAt + |r.id|);
    SliceOfSlice(file, off, n, idAt + |r.id|, n);
  }

  function RecordSize(scope: Bytes, id: Bytes, body: Bytes): nat {
    HEADER_BYTES + |scope| + |id| + |body|
  }

  function FileOf(token: nat): nat {
    if token >= RESERVE_BIT then 1 else 0
  }

  function OffsetOf(token: nat): nat {
    if token >= RESERVE_BIT then token - RESERVE_BIT else token
  }

  ghost predicate EpochsSplit(log: Log, base: nat, epoch: nat) {
    && (forall i :: 0 <= i < base && i < |log| ==> log[i].rec.epoch < epoch)
    && (forall i :: base <= i < |log| ==> log[i].rec.epoch == epoch)
  }

  function AsHit(seen: Option<(Bytes, Entry)>): Option<Found> {
    if seen.None? then None else Some(Found(seen.value.1.token, seen.value.1.payload, seen.value.1.response))
  }

  function AsForeign(seen: Option<(Bytes, Entry)>): Option<Foreign> {
    if seen.None? then None else Some(Foreign(seen.value.0, seen.value.1.payload))
  }

  function LookupIn(cur: Log, id: Bytes, scope: Bytes): Lookup {
    Lookup(AsHit(Seen(cur, 0, id, scope, true)), AsForeign(Seen(cur, 0, id, scope, false)))
  }

  // A lookup answers what the plain map of (branch, id) to (payload, response)
  // would; a foreign report is a true entry of another branch and is missing
  // only when no other branch used the id.
  lemma LookupIsMapLookup(cur: Log, id: Bytes, scope: Bytes)
    requires Lawful(cur)
    ensures var k, r := Key(scope, id), LookupIn(cur, id, scope);
      && (r.hit.Some? <==> k in Index(cur))
      && (r.hit.Some? ==> r.hit.value == Found(Index(cur)[k].token, Index(cur)[k].payload, Index(cur)[k].response))
    ensures var f := LookupIn(cur, id, scope).foreign;
      && (f.Some? ==> f.value.branch != scope && Get(Index(cur), Key(f.value.branch, id)).Some?
                      && Index(cur)[Key(f.value.branch, id)].payload == f.value.payload)
      && (f.None? ==> forall other: Bytes :: other != scope ==> Key(other, id) !in Index(cur))
  {
    hide Lawful, Index, Seen;
    SeenIsMapLookup(cur, id, scope);
    SeenForeignIsMapEntry(cur, id, scope);
  }

  // Adoption counts the inherited completions of the live epoch as entries too.
  function SurplusOf(log: Log, base: nat, inherited: nat): nat
    requires inherited <= |log|
  {
    if base < inherited then inherited - base - Reservations(log[base..inherited]) else 0
  }

  lemma NoSurplus(log: Log, inherited: nat)
    requires inherited <= |log|
    ensures SurplusOf(log, |log|, inherited) == 0
  {
  }

  lemma SurplusStays(log: Log, l: Logged, base: nat, inherited: nat)
    requires inherited <= |log|
    ensures SurplusOf(log + [l], base, inherited) == SurplusOf(log, base, inherited)
  {
    if base < inherited { assert (log + [l])[base..inherited] == log[base..inherited]; }
  }

  class RequestJournal {
    const hash: Hasher
    const limits: Limits
    // While set, no disk operation fails.
    var steady: bool
    const heads: array<U64>
    var disk: seq<Bytes>
    var used: seq<nat>
    var isOpen: bool
    var sealed: bool
    var fault: bool
    var scope: Bytes
    var epoch: U64
    var normalCount: nat
    var reserveCount: nat
    // The append order over both files, and where the current epoch starts in it.
    ghost var log: Log
    ghost var base: nat
    // No write was torn and the journal is not sealed.
    ghost var clean: bool
    // How many records of the log were taken over from a parent instance.
    ghost var inherited: nat

    ghost predicate Sound()
      reads this, heads
    {
      && limits.normalBytes < RESERVE_BIT && limits.reserveBytes < RESERVE_BIT
      && |scope| <= MAX_SCOPE
      && Indexed(hash, heads[..], disk, used, log, base, epoch)
      && (!isOpen ==> log == []) && inherited <= |log|
      && (isOpen && clean ==> CleanFiles(disk, used, limits.reserveBytes))
    }

    ghost function Surplus(): nat
      requires inherited <= |log|
      reads this`log, this`base, this`inherited
    {
      SurplusOf(log, base, inherited)
    }

    ghost predicate Valid()
      reads this, heads
    {
      Sound() && normalCount + reserveCount == Reservations(log[base..]) + Surplus()
    }

    // The plain map this journal stands for in the current epoch.
    ghost function Entries(): map<Key, Entry>
      requires base <= |log|
      reads this`log, this`base
    {
      Index(log[base..])
    }

    constructor (hash: Hasher, limits: Limits, branch: Bytes)
      requires limits.normalBytes < RESERVE_BIT && limits.reserveBytes < RESERVE_BIT && |branch| <= MAX_SCOPE
      ensures Valid() && fresh(heads)
      ensures Entries() == map[] && log == [] && used == [START, START] && epoch == 1 && scope == branch
      ensures !isOpen && !sealed && !fault && normalCount == reserveCount == inherited == 0
      ensures this.hash == hash && this.limits == limits
    {
      this.hash := hash;
      this.limits := limits;
      heads := new U64[BUCKETS](_ => 0);
      disk, used := [[], []], [START, START];
      isOpen, sealed, fault := false, false, false;
      scope, epoch, normalCount, reserveCount := branch, 1, 0, 0;
      log, base, clean, inherited := [], 0, true, 0;
    }

    // ---- appending ------------------------------------------------------------

    // A record is committed only by advancing `used`; a torn write leaves every
    // committed byte, the chains and the log as they were.
    method Append(file: nat, id: Bytes, body: Bytes, kind: nat, request: U64, closing: bool) returns (r: Appended, ghost l: Logged)
      requires Sound() && isOpen && file < 2
      requires 0 < |id| <= MAX_ID && |body| <= MAX_BODY && IsKind(kind)
      requires LawfulNext(Entries(), Logged(file, 0, Record(0, request, epoch, kind, scope, id, body)))
      modifies this`disk, this`used, this`log, this`clean, heads
      ensures Sound()
      ensures !r.IoError? ==> clean == old(clean)
      ensures steady ==> !r.IoError?
      ensures inherited <= |log| && Surplus() == old(Surplus())
      ensures r.NoSpace? <==> old(used[file]) + RecordSize(scope, id, body) > ByteLimit(limits, file, closing)
      ensures !r.Stored? ==> log == old(log) && used == old(used) && heads[..] == old(heads[..])
      ensures l == Logged(file, old(used[file]), Record(old(heads[Bucket(hash, id)]), request, epoch, kind, scope, id, body))
      ensures r.Stored? ==>
        && used == old(used)[file := old(used[file]) + RecordSize(scope, id, body)]
        && log == old(log) + [l] && r.token == Tok(l) && log[base..] == old(log[base..]) + [l]
    {
      hide Indexed, Index, Encode, Splice, CleanFiles, SurplusOf, Reservations;
      var limit := ByteLimit(limits, file, closing);
      IndexedSizes();
      var record := Record(heads[Bucket(hash, id)], request, epoch, kind, scope, id, body);
      l := Logged(file, used[file], record);
      if used[file] + RecordSize(scope, id, body) > limit { return NoSpace, l; }
      var bytes := Encode(hash, record);
      var written: int := *;
      if 0 <= written < |bytes| && !steady {
        TornWriteKeepsIndexed(hash, heads[..], disk, used, log, base, epoch, file, bytes[..written]);
        disk, clean := disk[file := Splice(disk[file], used[file], bytes[..written])], false;
        return IoError, l;
      }
      var token := Commit(record, file);
      r := Stored(token);
    }

    // A complete write joins the record to its chain and to the log.
    method Commit(record: Record, file: nat) returns (token: U64)
      requires Sound() && isOpen && file < 2 && WellFormed(record) && used[file] + Size(record) < RESERVE_BIT
      requires record.next == heads[Bucket(hash, record.id)] && record.epoch == epoch
      requires LawfulNext(Entries(), Logged(file, used[file], record)) && (file == 1 ==> used[1] + Size(record) <= limits.reserveBytes)
      modifies this`disk, this`used, this`log, heads
      ensures Sound() && used == old(used)[file := old(used[file]) + Size(record)]
      ensures inherited <= |log| && Surplus() == old(Surplus())
      ensures var l := Logged(file, old(used[file]), record);
        log == old(log) + [l] && token == Tok(l) && log[base..] == old(log[base..]) + [l]
    {
      hide Indexed, Index, Encode, Splice, CleanFiles, SurplusOf, Reservations, WellFormed, LawfulNext, Size;
      IndexedSizes();
      ghost var l := Logged(file, used[file], record);
      AppendKeepsIndexed(hash, heads[..], disk, used, log, base, epoch, l);
      if clean { AppendKeepsClean(disk, used, limits.reserveBytes, file, Encode(hash, record)); }
      SurplusStays(log, l, base, inherited);
      token := used[file] + if file == 1 then RESERVE_BIT else 0;
      disk := disk[file := Splice(disk[file], used[file], Encode(hash, record))];
      used := used[file := used[file] + Size(record)];
      heads[Bucket(hash, record.id)] := token;
      log := log + [l];
    }

    // ---- opening and sealing --------------------------------------------------

    // Creates both files and physically preallocates the reserve. A failure
    // after both handles exist leaves the journal open but faulted.
    method Open() returns (ok: bool)
      requires Valid()
      modifies this`disk, this`isOpen, this`fault, this`clean
      ensures Valid()
      ensures old(fault) ==> fault
      ensures old(isOpen) ==> ok && disk == old(disk) && fault == old(fault) && clean == old(clean)
      ensures ok ==> isOpen && fault == old(fault)
      ensures ok && !old(isOpen) ==> !fault && clean == old(clean)
      ensures !ok ==> fault
      ensures steady && !old(fault) && limits.reserveBytes >= START && limits.normalBytes >= START ==> ok
    {
      hide Readable, Chained, Lawful, EpochsSplit, FileHeader;
      if isOpen { return true; }
      if fault { return false; }
      Unopened();
      var created: bool, written: bool := *, *;
      if !created && !steady {
        fault := true;
        return false;
      }
      isOpen := true;
      if (!written && !steady) || limits.reserveBytes < START || limits.normalBytes < START {
        disk := *;
        disk := if |disk| == 2 then disk else [[], []];
        fault, clean := true, false;
        EmptyLogReadable(hash, disk, used);
        return false;
      }
      disk := [FileHeader(), FileHeader() + Zeros(limits.reserveBytes - START)];
      EmptyLogReadable(hash, disk, used);
      ok := true;
    }

    lemma Unopened()
      requires Sound() && !isOpen
      ensures log == [] && used == [START, START]
    {
    }

    lemma IndexedSizes()
      requires Sound()
      ensures |used| == 2 && |disk| == 2 && heads.Length == BUCKETS && base <= |log| && used[0] < RESERVE_BIT && used[1] < RESERVE_BIT
    {
    }

    // Marks both files closed, cuts them to their committed length and flushes
    // them. Any step may fail and leave the journal unsealed.
    method Seal() returns (ok: bool)
      requires Valid() && isOpen
      modifies this`disk, this`sealed, this`clean
      ensures Valid()
      ensures old(sealed) ==> ok && sealed && disk == old(disk)
      ensures ok <==> sealed
      ensures steady ==> ok
      ensures ok && !old(sealed) ==> |disk[0]| == used[0] && |disk[1]| == used[1] && disk[0][8] == 1 && disk[1][8] == 1
    {
      hide Indexed, Chained, Lawful, EpochsSplit, Splice, SurplusOf, Reservations, RequestJournal.Surplus;
      if sealed { return true; }
      IndexedSizes();
      clean := false;
      var file := 0;
      while file < 2
        invariant file <= 2 && Valid() && |disk| == 2 && |used| == 2 && !sealed && !clean && used == old(used)
        invariant forall f :: 0 <= f < file ==> |disk[f]| == used[f] >= START && disk[f][8] == 1
      {
        var failed: bool := *;
        if failed && !steady { return false; }
        SealedFile(hash, heads[..], disk, used, log, base, epoch, file);
        disk := disk[file := ClosedFile(disk[file], used[file])];
        file := file + 1;
      }
      var unlocked: bool := *;
      if !unlocked && !steady { return false; }
      sealed := true;
      ok := true;
    }

    // ---- admission and completion ---------------------------------------------

    // The ordinary file, or None when a control must fall back to the reserve.
    method ReserveOrdinary(id: Bytes, payload: Bytes, control: bool, closing: bool) returns (r: Option<Reserved>)
      requires Valid() && isOpen && Key(scope, id) !in Entries() && 0 < |id| <= MAX_ID && |payload| <= MAX_BODY
      modifies this`disk, this`used, this`log, this`clean, this`fault, this`normalCount, heads
      ensures Valid() && |used| == 2 && used[1] == old(used[1]) && (old(fault) ==> fault)
      ensures r.None? ==> control
      ensures !control && old(fault) ==> r == Some(Unavailable)
      ensures r.Some? && r.value.Admitted? ==> Entries() == old(Entries())[Key(scope, id) := Entry(r.value.token, payload, None, closing)]
      ensures r.None? || !r.value.Admitted? ==> Entries() == old(Entries())
      ensures r.Some? && r.value.OverCapacity? ==> !control && fault == old(fault)
      ensures fault && !old(fault) && !control ==> r.Some? && r.value.Unavailable?
      ensures r.Some? && r.value.Admitted? ==> (!old(fault) && old(normalCount) < limits.normalEntries && normalCount == old(normalCount) + 1
        && old(used[0]) + RecordSize(scope, id, payload) == used[0] <= ByteLimit(limits, 0, closing))
      ensures r.None? || !r.value.Admitted? ==> normalCount == old(normalCount) && used == old(used)
      ensures r == Some(OverCapacity) <==> (!control && !old(fault)
        && (old(normalCount) >= limits.normalEntries || old(used[0]) + RecordSize(scope, id, payload) > ByteLimit(limits, 0, closing)))
      ensures (steady && !old(fault) && old(normalCount) < limits.normalEntries
        && old(used[0]) + RecordSize(scope, id, payload) <= ByteLimit(limits, 0, closing)) ==> r.Some? && r.value.Admitted?
      ensures steady ==> fault == old(fault) && (control ==> r.None? || r.value.Admitted?)
    {
      hide Indexed, Index, Reservations, CleanFiles, RequestJournal.Surplus, SurplusOf;
      IndexedSizes();
      if fault || normalCount >= limits.normalEntries {
        return if control then None else Some(if fault then Unavailable else OverCapacity);
      }
      var a := AppendReservation(0, id, payload, if closing then CLOSING_RESERVATION else RESERVATION, closing);
      if a.Stored? {
        normalCount := normalCount + 1;
        return Some(Admitted(a.token));
      }
      fault := a.IoError?;
      r := if control then None else Some(if a.NoSpace? then OverCapacity else Unavailable);
    }

    // The emergency reserve: its last ID slot and closing bytes are for a close.
    method ReserveEmergency(id: Bytes, payload: Bytes, closing: bool) returns (r: Reserved)
      requires Valid() && isOpen && Key(scope, id) !in Entries() && 0 < |id| <= MAX_ID && |payload| <= MAX_BODY
      modifies this`disk, this`used, this`log, this`clean, this`reserveCount, heads
      ensures Valid() && |used| == 2
      ensures r.Admitted? ==> Entries() == old(Entries())[Key(scope, id) := Entry(r.token, payload, None, closing)]
      ensures r.Admitted? ==> reserveCount == old(reserveCount) + 1 && used[1] == old(used[1]) + RecordSize(scope, id, payload)
      ensures !r.Admitted? ==> Entries() == old(Entries()) && reserveCount == old(reserveCount) && used == old(used)
      ensures r.OverCapacity? <==>
        || old(reserveCount) + (if closing then 1 else 2) > limits.reserveEntries
        || old(used[1]) + RecordSize(scope, id, payload) > ByteLimit(limits, 1, closing)
      ensures steady ==> !r.Unavailable?
    {
      hide Indexed, Index, Reservations, CleanFiles, RequestJournal.Surplus, SurplusOf;
      IndexedSizes();
      var entryLimit := if closing then limits.reserveEntries else if limits.reserveEntries > 0 then limits.reserveEntries - 1 else 0;
      if reserveCount >= entryLimit { return OverCapacity; }
      var a := AppendReservation(1, id, payload, if closing then CLOSING_RESERVATION else RESERVATION, closing);
      match a
      case NoSpace => r := OverCapacity;
      case IoError => r := Unavailable;
      case Stored(token) =>
        reserveCount := reserveCount + 1;
        r := Admitted(token);
    }

    // Ordinary requests need the ordinary file; a control may fall back to the
    // emergency reserve. Only a granted admission changes the map.
    method Reserve(id: Bytes, payload: Bytes, control: bool, closing: bool) returns (r: Reserved)
      requires Valid() && Key(scope, id) !in Entries()
      modifies this`disk, this`used, this`log, this`clean, this`isOpen, this`fault, this`normalCount, this`reserveCount, heads
      ensures Valid() && |used| == 2 && (old(fault) ==> fault)
      ensures fault && !old(fault) && !control ==> r.Unavailable?
      ensures r.Admitted? ==> isOpen && !sealed && Entries() == old(Entries())[Key(scope, id) := Entry(r.token, payload, None, closing)]
      ensures !r.Admitted? ==> Entries() == old(Entries())
      ensures !control && old(fault) ==> !r.Admitted?
      ensures (reserveCount == old(reserveCount) && used[1] == old(used[1]))
        || (control && r.Admitted? && reserveCount == old(reserveCount) + 1 && reserveCount + (if closing then 0 else 1) <= limits.reserveEntries
            && old(used[1]) + RecordSize(scope, id, payload) == used[1] <= ByteLimit(limits, 1, closing))
      ensures control && r.OverCapacity? ==>
        |id| == 0 || |id| > MAX_ID || |payload| > MAX_BODY || old(reserveCount) + (if closing then 1 else 2) > limits.reserveEntries
        || old(used[1]) + RecordSize(scope, id, payload) > ByteLimit(limits, 1, closing)
      ensures !control && old(isOpen) && !sealed && !old(fault) && 0 < |id| <= MAX_ID && |payload| <= MAX_BODY ==>
        (r.OverCapacity? <==> old(normalCount) >= limits.normalEntries || old(used[0]) + RecordSize(scope, id, payload) > ByteLimit(limits, 0, closing))
      ensures steady && control && (old(isOpen) || !old(fault)) && !sealed && limits.reserveBytes >= START && limits.normalBytes >= START ==> !r.Unavailable?
    {
      hide Indexed, Index, Reservations, CleanFiles, RequestJournal.Surplus, SurplusOf;
      IndexedSizes();
      var ready := Open();
      if !ready || sealed { return Unavailable; }
      if |id| == 0 || |id| > MAX_ID || |payload| > MAX_BODY { return OverCapacity; }
      var ordinary := ReserveOrdinary(id, payload, control, closing);
      if ordinary.Some? { return ordinary.value; }
      r := ReserveEmergency(id, payload, closing);
    }

    method AppendReservation(file: nat, id: Bytes, payload: Bytes, kind: nat, closing: bool) returns (r: Appended)
      requires Sound() && isOpen && file < 2
      requires 0 < |id| <= MAX_ID && |payload| <= MAX_BODY && kind == (if closing then CLOSING_RESERVATION else RESERVATION)
      requires Key(scope, id) !in Entries()
      modifies this`disk, this`used, this`log, this`clean, heads
      ensures Sound() && |used| == 2
      ensures r.NoSpace? <==> old(used[file]) + RecordSize(scope, id, payload) > ByteLimit(limits, file, closing)
      ensures !r.Stored? ==> log == old(log) && used == old(used)
      ensures steady ==> !r.IoError?
      ensures inherited <= |log| && Surplus() == old(Surplus())
      ensures r.Stored? ==>
        && used == old(used)[file := old(used[file]) + RecordSize(scope, id, payload)]
        && Entries() == old(Entries())[Key(scope, id) := Entry(r.token, payload, None, closing)]
        && Reservations(log[base..]) == old(Reservations(log[base..])) + 1
        && |log| == |old(log)| + 1 && log[|old(log)|].file == file && log[|old(log)|].rec.request == 0
    {
      hide Indexed, CleanFiles, RequestJournal.Surplus, SurplusOf;
      IndexedSizes();
      ghost var l;
      r, l := Append(file, id, payload, kind, 0, closing);
      IndexedSizes();
    }

    // Record `i` is an answerable reservation of `id`.
    ghost predicate Answers(i: nat, id: Bytes)
      reads this
    {
      base <= i < |log| && log[i].rec.kind != COMPLETION && log[i].rec.id == id
    }

    // Reads the reservation back: whether it was a close, or None when it cannot
    // be read or does not belong to `id`.
    method ReadReservation(token: nat, id: Bytes, ghost i: nat) returns (closing: Got<bool>)
      requires Valid() && i < |log| && Tok(log[i]) == token
      ensures closing.Got? ==> Answers(i, id) && 0 < |id| <= MAX_ID
      ensures closing.Got? ==> KeyOf(log[i]) in Entries() && Entries()[KeyOf(log[i])].token == token
      ensures closing.Got? ==> Entries()[KeyOf(log[i])].closing == closing.value
      ensures steady ==> if Answers(i, id) then closing.Got? else closing == Lost(true)
    {
      hide Indexed, Index, Reservations, CleanFiles, RequestJournal.Surplus, SurplusOf;
      IndexedReadable(i);
      var request := HeaderAt(token, i);
      if request.Lost? { return Lost(request.corrupt); }
      var stored := Id(token, request.value, i);
      if stored.Lost? { return Lost(stored.corrupt); }
      if request.value.kind == COMPLETION || stored.value != id { return Lost(true); }
      OwnReservation(i);
      closing := Got(request.value.kind == CLOSING_RESERVATION);
    }

    // The result of an admitted request, written once. An ordinary reservation
    // that cannot be answered in the ordinary file is answered in the reserve.
    method Complete(token: nat, id: Bytes, response: Bytes, closingRecovery: bool, ghost i: nat) returns (r: Completed)
      requires Valid() && isOpen && i < |log| && Tok(log[i]) == token
      requires Answers(i, id) ==> log[i].rec.scope == scope && Get(Entries(), Key(scope, id)).Some? && Entries()[Key(scope, id)].response.None?
      modifies this`disk, this`used, this`log, this`clean, this`fault, heads
      ensures Valid() && |used| == 2 && (old(fault) ==> fault)
      ensures !r.Failed? ==> old(Answers(i, id)) && old(Entries()[Key(scope, id)].token) == token
      ensures r.Done? ==> Entries() == Answer(old(Entries()), Key(scope, id), response)
      ensures !r.Done? ==> Entries() == old(Entries())
      ensures used[1] == old(used[1])
        || (r.Done? && used[1] == old(used[1]) + RecordSize(scope, id, response)
            && used[1] <= ByteLimit(limits, 1, closingRecovery || old(Entries()[Key(scope, id)].closing)))
      ensures r.NoRoom? ==>
        || |response| > MAX_BODY
        || old(used[1]) + RecordSize(scope, id, response) > ByteLimit(limits, 1, closingRecovery || old(Entries()[Key(scope, id)].closing))
      ensures steady && old(Answers(i, id)) ==> !r.Failed?
      ensures steady && !old(Answers(i, id)) ==> r.Failed? && fault
      ensures used[0] != old(used[0]) ==> (r.Done? && token < RESERVE_BIT && !old(fault) && used[1] == old(used[1]) && fault == old(fault)
        && used[0] == old(used[0]) + RecordSize(scope, id, response))
      ensures r.Done? && token < RESERVE_BIT && used[1] != old(used[1]) ==> fault
      ensures (steady && old(Answers(i, id)) && token < RESERVE_BIT && !old(fault) && |response| <= MAX_BODY
        && old(used[0]) + RecordSize(scope, id, response) <= ByteLimit(limits, 0, false)) ==> r.Done? && used[0] != old(used[0])
    {
      hide Indexed, Index, Reservations, CleanFiles, WellFormed, RequestJournal.Surplus, SurplusOf;
      IndexedSizes();
      TokenBound(i);
      var closing := ReadReservation(token, id, i);
      if closing.Lost? { fault := fault || closing.corrupt; return Failed; }
      if |response| > MAX_BODY { return NoRoom; }
      r := StoreCompletion(token, id, response, closing.value || closingRecovery);
    }

    // An ordinary reservation is answered in the ordinary file while that works.
    method StoreCompletion(token: U64, id: Bytes, response: Bytes, closing: bool) returns (r: Completed)
      requires Valid() && isOpen && 0 < |id| <= MAX_ID && |response| <= MAX_BODY
      requires Get(Entries(), Key(scope, id)).Some? && Entries()[Key(scope, id)].token == token && Entries()[Key(scope, id)].response.None?
      modifies this`disk, this`used, this`log, this`clean, this`fault, heads
      ensures Valid() && |used| == 2 && (old(fault) ==> fault)
      ensures r.Done? ==> Entries() == Answer(old(Entries()), Key(scope, id), response)
      ensures !r.Done? ==> Entries() == old(Entries()) && used == old(used)
      ensures used[1] == old(used[1])
        || (r.Done? && used[0] == old(used[0]) && used[1] == old(used[1]) + RecordSize(scope, id, response) <= ByteLimit(limits, 1, closing)
            && (token < RESERVE_BIT ==> fault))
      ensures used[0] == old(used[0])
        || (r.Done? && token < RESERVE_BIT && !fault && used[1] == old(used[1]) && used[0] == old(used[0]) + RecordSize(scope, id, response))
      ensures r.NoRoom? ==> old(used[1]) + RecordSize(scope, id, response) > ByteLimit(limits, 1, closing)
      ensures steady ==> !r.Failed?
      ensures steady && token < RESERVE_BIT && !old(fault) && old(used[0]) + RecordSize(scope, id, response) <= ByteLimit(limits, 0, false) ==>
        r.Done? && used[0] != old(used[0])
    {
      hide Indexed, Index, Reservations, CleanFiles, WellFormed, RequestJournal.Surplus, SurplusOf;
      IndexedSizes();
      if token < RESERVE_BIT && !fault {
        var a := AppendCompletion(0, id, response, token, false);
        if a.Stored? { return Done; }
        fault := true;
      }
      var b := AppendCompletion(1, id, response, token, closing);
      r := match b case Stored(_) => Done case NoSpace => NoRoom case IoError => Failed;
    }

    // The stored reservation behind an entry of this branch.
    lemma ReservationIndex(id: Bytes) returns (i: nat)
      requires Valid() && Key(scope, id) in Entries()
      ensures isOpen && i < |log| && Tok(log[i]) == Entries()[Key(scope, id)].token
      ensures Answers(i, id) && log[i].rec.scope == scope && WellFormed(log[i].rec)
    {
      hide Readable, Chained, Lawful, Index;
      assert log[base..][..|log[base..]|] == log[base..];
      if log == [] { assert Index([]) == map[] by { EmptyIndex(); } }
      var r := ReservationOf(log[base..], |log[base..]|, Key(scope, id));
      i := base + r;
      IndexedReadable(i);
    }

    method AppendCompletion(file: nat, id: Bytes, response: Bytes, token: U64, closing: bool) returns (r: Appended)
      requires Valid() && isOpen && file < 2 && 0 < |id| <= MAX_ID && |response| <= MAX_BODY
      requires Get(Entries(), Key(scope, id)).Some? && Entries()[Key(scope, id)].token == token && Entries()[Key(scope, id)].response.None?
      modifies this`disk, this`used, this`log, this`clean, heads
      ensures Valid() && |used| == 2
      ensures r.NoSpace? <==> old(used[file]) + RecordSize(scope, id, response) > ByteLimit(limits, file, closing)
      ensures !r.Stored? ==> log == old(log) && used == old(used)
      ensures steady ==> !r.IoError?
      ensures r.Stored? ==>
        && used == old(used)[file := old(used[file]) + RecordSize(scope, id, response)]
        && Entries() == Answer(old(Entries()), Key(scope, id), response)
    {
      hide Indexed, CleanFiles, RequestJournal.Surplus, SurplusOf;
      IndexedSizes();
      ghost var l;
      r, l := Append(file, id, response, COMPLETION, token, closing);
      IndexedSizes();
    }

    lemma Facts()
      requires Valid()
      ensures base <= |log| && |used| == 2 && |scope| <= MAX_SCOPE && limits.reserveBytes < RESERVE_BIT
    {
    }

    lemma TokenBound(i: nat)
      requires Sound() && i < |log|
      ensures Tok(log[i]) < 0x1_0000_0000_0000_0000
    {
      hide Chained, Lawful, EpochsSplit, JournalLog.Stored;
      OffsetsBounded(log, i);
    }

    lemma IndexedReadable(i: nat)
      requires Sound() && i < |log|
      ensures Readable(hash, disk, used, log)
      ensures (log[i].rec.epoch == epoch) == (base <= i)
      ensures WellFormed(log[i].rec)
    {
    }

    lemma OwnReservation(i: nat)
      requires Sound() && base <= i < |log| && log[i].rec.kind != COMPLETION
      ensures KeyOf(log[i]) in Entries() && Entries()[KeyOf(log[i])].token == Tok(log[i])
      ensures Entries()[KeyOf(log[i])].closing == (log[i].rec.kind == CLOSING_RESERVATION)
    {
      hide Readable, Chained, Lawful, Index;
      ReservationIsIndexed(log[base..], |log[base..]|, i - base);
      assert log[base..][..|log[base..]|] == log[base..];
    }

    // ---- epochs and branches --------------------------------------------------

    // A new epoch forgets the index; the records stay on disk as evidence.
    method Epoch(next: U64)
      requires Valid() && next > epoch
      modifies this`epoch, this`normalCount, this`reserveCount, this`base, heads
      ensures Valid() && epoch == next && Entries() == map[] && normalCount == reserveCount == 0
    {
      hide Indexed, SurplusOf, CleanFiles;
      IndexedSizes();
      NoSurplus(log, inherited);
      ghost var before := heads[..];
      forall b | 0 <= b < heads.Length { heads[b] := 0; }
      FreshEpoch(hash, before, heads[..], disk, used, log, base, epoch, next);
      epoch, base, normalCount, reserveCount := next, |log|, 0, 0;
      assert log[base..] == [];
    }

    // The disk starts or stops failing.
    method Clear(quiet: bool)
      requires Valid()
      modifies this`steady
      ensures Valid() && steady == quiet
    {
      hide Indexed, CleanFiles, RequestJournal.Surplus, SurplusOf, Reservations;
      steady := quiet;
    }

    // Records keep the branch they were admitted under.
    method Rebind(branch: Bytes)
      requires Valid() && 0 < |branch| <= MAX_SCOPE
      modifies this`scope
      ensures Valid() && scope == branch
    {
      hide Indexed;
      scope := branch;
    }

    // ---- adopting a released parent journal -----------------------------------

    // Existing files, taken over as they are. `disk` holds their contents; this
    // instance has indexed nothing yet. Nothing is written.
    method OpenAdopted(adoptEpoch: U64) returns (r: Adoption)
      requires !isOpen && |disk| == 2 && |used| == 2 && heads.Length == BUCKETS && normalCount == reserveCount == 0
      requires |disk[0]| < RESERVE_BIT && |disk[1]| < RESERVE_BIT
      requires forall b :: 0 <= b < BUCKETS ==> heads[b] == 0
      modifies this`used, this`normalCount, this`reserveCount, this`fault, this`isOpen, heads
      ensures r == Adopted ==> Adoptable(hash, disk) && isOpen && |used| == 2 && fault == old(fault)
      ensures r == Refused ==> !Adoptable(hash, disk)
      ensures steady ==> (r == Adopted <==> Adoptable(hash, disk))
      ensures r == Refused ==> fault == (old(fault) || forall f :: 0 <= f < 2 ==> |disk[f]| >= START && disk[f][..8] == MAGIC && AllZero(disk[f][8..12]))
      ensures r == Adopted ==> forall b :: 0 <= b < BUCKETS ==> heads[b] == RebuiltHead(hash, disk, adoptEpoch, b)
      ensures r == Adopted ==> used[0] == |disk[0]| && used[1] == ScanEnd(Scanned(hash, 1, disk[1], START), START)
      ensures r == Adopted ==> normalCount == CountOf(Scanned(hash, 0, disk[0], START), adoptEpoch)
      ensures r == Adopted ==> reserveCount == CountOf(Scanned(hash, 1, disk[1], START), adoptEpoch)
    {
      hide RecordAt, Scanned, ScanEnd, HeadAfter, CountOf;
      var file := 0;
      while file < 2
        invariant file <= 2 && |used| == 2 && fault == old(fault) && normalCount == reserveCount == 0
        invariant forall b :: 0 <= b < BUCKETS ==> heads[b] == 0
        invariant forall f :: 0 <= f < file ==>
          used[f] == |disk[f]| >= START && disk[f][..8] == MAGIC && AllZero(disk[f][8..12])
      {
        if |disk[file]| < START { return Refused; }
        used := used[file := |disk[file]|];
        var readable: bool := *;
        if !readable && !steady { fault := *; return Unreadable; }
        if disk[file][..8] != MAGIC || !AllZero(disk[file][8..12]) { return Refused; }
        file := file + 1;
      }
      var end := ScanFile(0, adoptEpoch);
      if end.Lost? { fault := fault || end.corrupt; return Unreadable; }
      if end.value != used[0] { fault := true; return Refused; }
      end := ScanFile(1, adoptEpoch);
      if end.Lost? { fault := fault || end.corrupt; return Unreadable; }
      var clear := ZeroRange(1, end.value, used[1]);
      assert disk[1][end.value..used[1]] == disk[1][end.value..];
      if clear.Lost? { fault := fault || clear.corrupt; return Unreadable; }
      if !clear.value { fault := true; return Refused; }
      used := used[1 := end.value];
      isOpen := true;
      r := Adopted;
    }

    // Every record of one file, newest last: counts it and makes it the head of
    // its bucket. Returns the first byte that starts no record.
    method ScanFile(file: nat, adoptEpoch: U64) returns (r: Got<nat>)
      requires file < 2 && |disk| == 2 && START <= |disk[file]| < RESERVE_BIT && heads.Length == BUCKETS
      modifies this`normalCount, this`reserveCount, heads
      ensures r.Got? ==> r.value == ScanEnd(Scanned(hash, file, disk[file], START), START) <= |disk[file]|
      ensures steady ==> r.Got?
      ensures r.Got? ==> forall b :: 0 <= b < BUCKETS ==>
        heads[b] == HeadAfter(hash, Scanned(hash, file, disk[file], START), adoptEpoch, b, old(heads[b]))
      ensures r.Got? && file == 0 ==>
        && reserveCount == old(reserveCount)
        && normalCount == old(normalCount) + CountOf(Scanned(hash, file, disk[file], START), adoptEpoch)
      ensures r.Got? && file == 1 ==>
        && normalCount == old(normalCount)
        && reserveCount == old(reserveCount) + CountOf(Scanned(hash, file, disk[file], START), adoptEpoch)
    {
      hide RecordAt, Scanned;
      ghost var done: Log := [];
      var at := START;
      while true
        invariant START <= at <= |disk[file]| && at == ScanEnd(done, START)
        invariant Scanned(hash, file, disk[file], START) == done + Scanned(hash, file, disk[file], at)
        invariant forall b :: 0 <= b < BUCKETS ==> heads[b] == HeadAfter(hash, done, adoptEpoch, b, old(heads[b]))
        invariant if file == 0 then reserveCount == old(reserveCount) && normalCount == old(normalCount) + CountOf(done, adoptEpoch)
                  else normalCount == old(normalCount) && reserveCount == old(reserveCount) + CountOf(done, adoptEpoch)
        decreases |disk[file]| - at
      {
        var failed: bool, corrupt: bool := *, *;
        if failed && !steady { return Lost(corrupt); }
        ScanGrows(hash, file, disk[file], START, done, at);
        var record := RecordAt(hash, disk[file], at, |disk[file]|);
        if record.None? { return Got(at); }
        ghost var l := Logged(file, at, record.value);
        forall b | 0 <= b < BUCKETS
          ensures HeadAfter(hash, done + [l], adoptEpoch, b, old(heads[b]))
               == if InBucket(hash, l, adoptEpoch, b) then Tok(l) else HeadAfter(hash, done, adoptEpoch, b, old(heads[b]))
        {
          HeadStep(hash, done, l, adoptEpoch, b, old(heads[b]));
        }
        HeadStep(hash, done, l, adoptEpoch, 0, 0);
        if record.value.epoch == adoptEpoch {
          if file == 0 { normalCount := normalCount + 1; } else { reserveCount := reserveCount + 1; }
          heads[Bucket(hash, record.value.id)] := at + if file == 1 then RESERVE_BIT else 0;
        }
        at := at + Size(record.value);
        done := done + [l];
      }
    }

    method ZeroRange(file: nat, offset: nat, end: nat) returns (r: Got<bool>)
      requires file < |disk| && offset <= end <= |disk[file]|
      ensures r.Got? ==> r.value == AllZero(disk[file][offset..end])
      ensures steady ==> r.Got?
    {
      var at := offset;
      while at < end
        invariant offset <= at <= end
        invariant forall i :: offset <= i < at ==> disk[file][i] == 0
      {
        var failed: bool, corrupt: bool := *, *;
        if failed && !steady { return Lost(corrupt); }
        var count := if end - at < 65536 then end - at else 65536;
        var chunk := disk[file][at..at + count];
        if !AllZero(chunk) {
          assert exists i :: at <= i < at + count && disk[file][i] != 0;
          return Got(false);
        }
        forall i | at <= i < at + count
          ensures disk[file][i] == 0
        {
          assert chunk[i - at] == disk[file][i];
        }
        at := at + count;
      }
      r := Got(true);
    }

    // ---- reading records ------------------------------------------------------
    // `i` names the stored record a token points at; any read may fail. Lost(c)
    // says whether the failure also marked the journal corrupt.

    method Read(file: nat, at: nat, size: nat) returns (r: Got<Bytes>)
      requires |disk| == 2 && |used| == 2 && file < 2
      requires START <= at && at + size <= used[file] && at + size <= |disk[file]|
      ensures r.Got? ==> r.value == disk[file][at..at + size]
      ensures steady ==> r.Got?
    {
      var failed: bool, corrupt: bool := *, *;
      r := if failed && !steady then Lost(corrupt) else Got(disk[file][at..at + size]);
    }

    method HeaderAt(token: nat, ghost i: nat) returns (r: Got<Header>)
      requires Readable(hash, disk, used, log) && i < |log| && token == Tok(log[i])
      ensures r.Got? ==> r.value == HeaderOf(hash, log[i].rec) && log[i].rec.epoch == epoch
      ensures log[i].rec.epoch != epoch ==> r.Lost? && (steady ==> r == Lost(true))
      ensures steady && log[i].rec.epoch == epoch ==> r.Got?
    {
      r := HeaderAtRaw(token, i);
      if r.Got? && r.value.epoch != epoch { r := Lost(true); }
    }

    method HeaderAtRaw(token: nat, ghost i: nat) returns (r: Got<Header>)
      requires Readable(hash, disk, used, log) && i < |log| && token == Tok(log[i])
      ensures r.Got? ==> r.value == HeaderOf(hash, log[i].rec)
      ensures steady ==> r.Got?
    {
      hide HeaderBytes, HeaderValid, ParseHeader, Readable;
      RecordInFile(hash, disk, used, log, i);
      ParseUndoesPrintHeader(hash, log[i].rec);
      var file, at := FileOf(token), OffsetOf(token);
      var bytes := Read(file, at, HEADER_BYTES);
      if bytes.Lost? { return Lost(bytes.corrupt); }
      if !HeaderValid(hash, bytes.value, used[file] - at) { assert false; }
      var h := ParseHeader(bytes.value);
      var owner := Read(file, at + HEADER_BYTES, h.scopeBytes);
      if owner.Lost? { return Lost(owner.corrupt); }
      if hash(owner.value) != h.scopeHash { assert false; }
      r := Got(h);
    }

    method Id(token: nat, h: Header, ghost i: nat) returns (r: Got<Bytes>)
      requires Readable(hash, disk, used, log) && i < |log| && token == Tok(log[i]) && h == HeaderOf(hash, log[i].rec)
      ensures r.Got? ==> r.value == log[i].rec.id
      ensures steady ==> r.Got?
    {
      hide HeaderBytes, Readable;
      RecordInFile(hash, disk, used, log, i);
      r := Read(FileOf(token), OffsetOf(token) + HEADER_BYTES + h.scopeBytes, h.idBytes);
      if r.Got? && hash(r.value) != h.idHash { assert false; }
    }

    method Scope(token: nat, h: Header, ghost i: nat) returns (r: Got<Bytes>)
      requires Readable(hash, disk, used, log) && i < |log| && token == Tok(log[i]) && h == HeaderOf(hash, log[i].rec)
      ensures r.Got? ==> r.value == log[i].rec.scope
      ensures steady ==> r.Got?
    {
      hide HeaderBytes, Readable;
      if h.scopeBytes == 0 { return Got([]); }
      RecordInFile(hash, disk, used, log, i);
      r := Read(FileOf(token), OffsetOf(token) + HEADER_BYTES, h.scopeBytes);
    }

    method Body(token: nat, h: Header, ghost i: nat) returns (r: Got<Bytes>)
      requires Readable(hash, disk, used, log) && i < |log| && token == Tok(log[i]) && h == HeaderOf(hash, log[i].rec)
      ensures r.Got? ==> r.value == log[i].rec.body
      ensures steady ==> r.Got?
    {
      hide HeaderBytes, Readable;
      RecordInFile(hash, disk, used, log, i);
      r := Read(FileOf(token), OffsetOf(token) + HEADER_BYTES + h.scopeBytes + h.idBytes, h.bodyBytes);
      if r.Got? && hash(r.value) != h.bodyHash { assert false; }
    }

    // One record of the chain, seen by a lookup of `id`: its branch and what it
    // says about the request, or None when it belongs to another id.
    method Visit(token: nat, h: Header, id: Bytes, ghost i: nat) returns (r: Got<Option<(Bytes, Entry)>>)
      requires Walkable() && base <= i < |log| && token == Tok(log[i]) && h == HeaderOf(hash, log[i].rec)
      ensures steady ==> r.Got?
      ensures r.Got? && r.value.None? ==> log[i].rec.id != id
      ensures r.Got? && r.value.Some? ==>
        log[i].rec.id == id && r.value.value.0 == log[i].rec.scope
        && Recorded(log[base..], i - base) == Some(r.value.value.1)
    {
      hide Readable, Threaded, Lawful, Index, Recorded, EpochsSplit;
      RecordEpoch(i);
      var stored := Id(token, h, i);
      if stored.Lost? { return Lost(stored.corrupt); }
      if stored.value != id { return Got(None); }
      var branch := Scope(token, h, i);
      if branch.Lost? { return Lost(branch.corrupt); }
      ghost var q := RecordedFields(log[base..], i - base);
      if h.kind != COMPLETION {
        var payload := Body(token, h, i);
        if payload.Lost? { return Lost(payload.corrupt); }
        return Got(Some((branch.value, Entry(token, payload.value, None, h.kind == CLOSING_RESERVATION))));
      }
      RecordEpoch(base + q);
      var request := HeaderAt(h.request, base + q);
      if request.Lost? { return Lost(request.corrupt); }
      var requestId := Id(h.request, request.value, base + q);
      if requestId.Lost? { return Lost(requestId.corrupt); }
      if request.value.kind == COMPLETION || requestId.value != id { assert false; }
      var requestBranch := Scope(h.request, request.value, base + q);
      if requestBranch.Lost? { return Lost(requestBranch.corrupt); }
      if requestBranch.value != branch.value { assert false; }
      var payload := Body(h.request, request.value, base + q);
      if payload.Lost? { return Lost(payload.corrupt); }
      var response := Body(token, h, i);
      if response.Lost? { return Lost(response.corrupt); }
      r := Got(Some((branch.value, Entry(h.request, payload.value, Some(response.value), request.value.kind == CLOSING_RESERVATION))));
    }

    // What a lookup answers is what the plain map says.
    lemma LookupFacts(id: Bytes)
      requires Valid()
      ensures base <= |log|
      ensures var k, hit := Key(scope, id), LookupIn(log[base..], id, scope).hit;
        && (hit.Some? <==> k in Entries())
        && (hit.Some? ==> hit.value == Found(Entries()[k].token, Entries()[k].payload, Entries()[k].response))
    {
      hide Readable, Chained, Lawful, Index, LookupIn, EpochsSplit;
      LookupIsMapLookup(log[base..], id, scope);
    }

    lemma ForeignFacts(id: Bytes)
      requires Valid()
      ensures base <= |log|
      ensures var f := LookupIn(log[base..], id, scope).foreign;
        && (f.Some? ==> f.value.branch != scope && Key(f.value.branch, id) in Entries() && Entries()[Key(f.value.branch, id)].payload == f.value.payload)
        && (f.None? ==> forall other: Bytes :: other != scope ==> Key(other, id) !in Entries())
    {
      hide Readable, Chained, Lawful, Index, LookupIn, EpochsSplit;
      LookupIsMapLookup(log[base..], id, scope);
    }

    // What a lookup relies on: readable records whose links lead to the record of
    // their bucket before them, and counts that bound the walk.
    ghost predicate Walkable()
      reads this
    {
      && Readable(hash, disk, used, log) && base <= |log| && EpochsSplit(log, base, epoch)
      && Threaded(hash, log[base..]) && Lawful(log[base..]) && |log[base..]| <= 2 * (normalCount + reserveCount)
    }

    lemma ValidIsWalkable()
      requires Valid()
      ensures Walkable() && heads.Length == BUCKETS && base <= |log|
      ensures forall b :: 0 <= b < BUCKETS ==> heads[b] == Link(hash, log[base..], |log[base..]|, b)
    {
      hide Readable, EpochsSplit, Lawful, Index, Link, Reservations;
      TwoRecordsPerEntry(log[base..]);
    }

    // The newest record of this branch answers; a same-id record of another
    // branch is only reported. The walk ends before its visit bound. It sees the
    // records from its head back: the first n of the epoch.
    method Walk(id: Bytes, head: nat, ghost n: nat) returns (r: Option<Lookup>)
      requires Walkable() && n <= |log[base..]| && head == Link(hash, log[base..], n, Bucket(hash, id))
      modifies this`fault
      ensures old(fault) ==> fault
      ensures r.Some? ==> fault == old(fault) && r.value == LookupIn(log[base..][..n], id, scope)
      ensures steady ==> r.Some?
    {
      hide Readable, Lawful, EpochsSplit, Threaded, Index, Recorded, Seen, Last, Link, Tok, Collect, Bucket;
      ghost var all, b := log[base..], Bucket(hash, id);
      ghost var cur, m: nat := all[..n], n;
      PrefixChains(hash, all, n, b);
      var next := head;
      var bound := (normalCount + reserveCount) * 2 + 1;
      var hit: Option<(Bytes, Entry)>, foreign: Option<(Bytes, Entry)> := None, None;
      var visits := 0;
      NothingSeen(cur, id, scope);
      while next != 0
        invariant m <= |cur| && visits + m <= |cur| < bound && fault == old(fault)
        invariant next == Link(hash, cur, m, b)
        invariant hit == Seen(cur, m, id, scope, true)
        invariant foreign == Seen(cur, m, id, scope, false)
        decreases m
      {
        if visits >= bound { assert false; }
        ghost var j := ChainNext(hash, cur, m, b);
        PrefixRecord(all, n, j);
        RecordEpoch(base + j);
        var h := HeaderAt(next, base + j);
        if h.Lost? { fault := fault || h.corrupt; return None; }
        var v := Visit(next, h.value, id, base + j);
        if v.Lost? { fault := fault || v.corrupt; return None; }
        Collected(hash, cur, m, id, scope, v.value);
        hit, foreign := Collect(hit, v.value, scope, true), Collect(foreign, v.value, scope, false);
        next := h.value.next;
        m, visits := j, visits + 1;
      }
      ChainEnd(hash, disk, used, log, base, n, m, b);
      SeenStep(hash, cur, m, id, scope, true);
      SeenStep(hash, cur, m, id, scope, false);
      r := Some(Lookup(AsHit(hit), AsForeign(foreign)));
    }

    lemma RecordEpoch(i: nat)
      requires Walkable() && base <= i < |log|
      ensures log[i].rec.epoch == epoch && log[i] == log[base..][i - base]
    {
    }

    // With the heads of a live epoch the walk sees all of it.
    method Find(id: Bytes) returns (r: Option<Lookup>)
      requires Valid()
      modifies this`fault
      ensures Valid() && (old(fault) ==> fault)
      ensures r.Some? ==> fault == old(fault)
      ensures r.Some? ==> r.value == LookupIn(log[base..], id, scope)
      ensures steady ==> r.Some?
    {
      hide Walkable, Indexed, Link, LookupIn, Reservations;
      ValidIsWalkable();
      assert log[base..][..|log[base..]|] == log[base..];
      r := Walk(id, heads[Bucket(hash, id)], |log[base..]|);
    }
  }

  // The first report of a side wins: the walk goes from newest to oldest.
  function Collect(seen: Option<(Bytes, Entry)>, report: Option<(Bytes, Entry)>, scope: Bytes, own: bool): Option<(Bytes, Entry)> {
    if seen.None? && report.Some? && (report.value.0 == scope) == own then report else seen
  }

  lemma Collected(hash: Hasher, cur: Log, n: nat, id: Bytes, scope: Bytes, report: Option<(Bytes, Entry)>)
    requires n <= |cur| && Lawful(cur) && Last(hash, cur, n, Bucket(hash, id)) >= 0
    requires var j := Last(hash, cur, n, Bucket(hash, id));
      && (report.None? ==> cur[j].rec.id != id)
      && (report.Some? ==> cur[j].rec.id == id && report.value.0 == cur[j].rec.scope && Recorded(cur, j) == Some(report.value.1))
    ensures var j := Last(hash, cur, n, Bucket(hash, id)); forall own ::
      Seen(cur, j, id, scope, own) == Collect(Seen(cur, n, id, scope, own), report, scope, own)
  {
    hide Lawful, Last, Seen, Recorded;
    SeenStep(hash, cur, n, id, scope, true);
    SeenStep(hash, cur, n, id, scope, false);
  }

  // A record says the same about its key in every prefix that holds it.
  lemma PrefixRecord(all: Log, n: nat, j: nat)
    requires j < n <= |all|
    ensures all[..n][j] == all[j] && Recorded(all[..n], j) == Recorded(all, j)
  {
    assert all[..n][..j + 1] == all[..j + 1];
  }

  lemma ChainStart(hash: Hasher, heads: seq<nat>, cur: Log, b: nat)
    requires Chained(hash, heads, cur) && b < BUCKETS
    ensures |heads| == BUCKETS && heads[b] == Link(hash, cur, |cur|, b)
  {
  }

  lemma NothingSeen(cur: Log, id: Bytes, scope: Bytes)
    ensures Seen(cur, |cur|, id, scope, true).None? && Seen(cur, |cur|, id, scope, false).None?
  {
  }

  // A nonzero link names the newest record of its bucket below position n, and
  // that record's own `next` continues the chain.
  lemma ChainNext(hash: Hasher, cur: Log, n: nat, b: nat) returns (j: nat)
    requires n <= |cur| && Threaded(hash, cur) && Link(hash, cur, n, b) != 0
    ensures j < n && j == Last(hash, cur, n, b)
    ensures Link(hash, cur, n, b) == Tok(cur[j]) && cur[j].rec.next == Link(hash, cur, j, b)
  {
    j := Last(hash, cur, n, b);
  }

  lemma ChainEnd(hash: Hasher, disk: seq<Bytes>, used: seq<nat>, log: Log, base: nat, n: nat, m: nat, b: nat)
    requires Readable(hash, disk, used, log) && base <= |log| && m <= n <= |log[base..]|
    requires Link(hash, log[base..][..n], m, b) == 0
    ensures Last(hash, log[base..][..n], m, b) < 0
  {
  }
}
