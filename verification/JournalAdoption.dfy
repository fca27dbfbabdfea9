// A cleanly released parent journal is parsed back exactly, and its bucket
// heads come back exactly when no ordinary record follows a reserve one.
module JournalAdoption {
  import opened JournalFormat
  import opened JournalLog
  import opened JournalScans
  import opened RequestJournals

  // The records of one file from position k on, in append order.
  function PickFrom(log: Log, k: nat, file: nat): Log
    requires k <= |log|
    decreases |log| - k
  {
    if k == |log| then [] else (if log[k].file == file then [log[k]] else []) + PickFrom(log, k + 1, file)
  }

  lemma {:induction false} PickSplits(log: Log, k: nat, file: nat)
    requires k <= |log|
    ensures Pick(log[..k], file) + PickFrom(log, k, file) == Pick(log, file)
    decreases |log| - k
  {
    if k == |log| {
      assert log[..k] == log;
    } else {
      PickSplits(log, k + 1, file);
      assert log[..k + 1][..k] == log[..k];
    }
  }

  // Nothing past the committed end reads as a record: the ordinary file stops
  // there and the reserve continues with zeros.
  lemma NoRecordPastTheEnd(hash: Hasher, disk: seq<Bytes>, used: seq<nat>, reserveBytes: nat, file: nat)
    requires CleanFiles(disk, used, reserveBytes) && file < 2
    ensures used[file] <= |disk[file]| && RecordAt(hash, disk[file], used[file], |disk[file]|).None?
  {
    if |disk[file]| - used[file] >= HEADER_BYTES {
      var head := disk[file][used[file]..used[file] + HEADER_BYTES];
      ZeroHeader(head);
    }
  }

  lemma ZeroHeader(head: Bytes)
    requires |head| == HEADER_BYTES && AllZero(head)
    ensures ParseHeader(head).kind == 0
  {
    hide Unpack;
    WidthsTotal();
    ZeroFields(head[..64], WIDTHS);
  }

  lemma {:induction false} ZeroFields(s: Bytes, widths: seq<nat>)
    requires |s| == Sum(widths) && AllZero(s)
    ensures forall i :: 0 <= i < |widths| ==> Unpack(s, widths)[i] == 0
  {
    if widths != [] {
      ZeroNumber(s[..widths[0]]);
      ZeroFields(s[widths[0]..], widths[1..]);
    }
  }

  lemma {:induction false} ZeroNumber(s: Bytes)
    requires AllZero(s)
    ensures FromLittleEndian(s) == 0
  {
    if s != [] { ZeroNumber(s[1..]); }
  }

  lemma {:induction false} ScanFrom(hash: Hasher, disk: seq<Bytes>, used: seq<nat>, reserveBytes: nat, log: Log, k: nat, file: nat)
    requires Readable(hash, disk, used, log) && CleanFiles(disk, used, reserveBytes) && file < 2 && k <= |log|
    ensures End(log[..k], file) <= |disk[file]|
    ensures Scanned(hash, file, disk[file], End(log[..k], file)) == PickFrom(log, k, file)
    decreases |log| - k
  {
    hide RecordAt, Tiled, JournalLog.Stored, End, CleanFiles, Encode;
    if k == |log| {
      assert log[..k] == log;
      NoRecordPastTheEnd(hash, disk, used, reserveBytes, file);
    } else {
      ScanFrom(hash, disk, used, reserveBytes, log, k + 1, file);
      var l := log[k];
      EndStep(log, k, file);
      OffsetsBounded(log, k);
      if l.file == file {
        RecordIsStored(hash, disk, used, log, k);
        ParserUndoesPrinter(hash, disk[file], l.off, |disk[file]|, l.rec);
      }
    }
  }

  lemma EndStep(log: Log, k: nat, file: nat)
    requires Tiled(log) && k < |log|
    ensures End(log[..k + 1], file) == if log[k].file == file then log[k].off + Size(log[k].rec) else End(log[..k], file)
    ensures log[k].off == End(log[..k], log[k].file)
  {
    assert log[..k + 1][..k] == log[..k];
  }

  lemma RecordIsStored(hash: Hasher, disk: seq<Bytes>, used: seq<nat>, log: Log, k: nat)
    requires Readable(hash, disk, used, log) && k < |log|
    ensures StoredAt(hash, disk, log[k]) && WellFormed(log[k].rec)
  {
  }

  // Parser undoes printer: both files come back as the appended records in
  // order, up to both committed ends.
  lemma ReleasedParentIsRecovered(hash: Hasher, disk: seq<Bytes>, used: seq<nat>, reserveBytes: nat, log: Log)
    requires Readable(hash, disk, used, log) && CleanFiles(disk, used, reserveBytes)
    ensures Scanned(hash, 0, disk[0], START) == Pick(log, 0)
    ensures Scanned(hash, 1, disk[1], START) == Pick(log, 1)
    ensures ScanEnd(Pick(log, 0), START) == used[0] && ScanEnd(Pick(log, 1), START) == used[1]
    ensures Adoptable(hash, disk)
  {
    hide Readable, Scanned;
    forall file: nat | file < 2
      ensures Scanned(hash, file, disk[file], START) == Pick(log, file)
      ensures ScanEnd(Pick(log, file), START) == used[file]
    {
      ScanFrom(hash, disk, used, reserveBytes, log, 0, file);
      PickSplits(log, 0, file);
      assert log[..0] == [];
      PickEnd(log, file);
      ReadableUsed(hash, disk, used, log);
    }
    assert disk[0][..8] == disk[0][..START][..8] && disk[0][8..12] == disk[0][..START][8..12];
    assert disk[1][..8] == disk[1][..START][..8] && disk[1][8..12] == disk[1][..START][8..12];
  }

  lemma ReadableUsed(hash: Hasher, disk: seq<Bytes>, used: seq<nat>, log: Log)
    requires Readable(hash, disk, used, log)
    ensures |used| == 2 && used[0] == End(log, 0) && used[1] == End(log, 1)
  {
  }

  lemma {:induction false} PickEnd(log: Log, file: nat)
    ensures ScanEnd(Pick(log, file), START) == End(log, file)
  {
    if log != [] {
      PickEnd(log[..|log| - 1], file);
    }
  }

  // ---- heads ------------------------------------------------------------------

  // Position of the newest record of one file, epoch and bucket, or -1.
  function LastOf(hash: Hasher, log: Log, n: nat, file: nat, epoch: nat, b: nat): (i: int)
    requires n <= |log|
    ensures -1 <= i < n
    ensures i >= 0 ==> log[i].file == file && InBucket(hash, log[i], epoch, b)
  {
    if n == 0 then -1
    else if log[n - 1].file == file && InBucket(hash, log[n - 1], epoch, b) then n - 1
    else LastOf(hash, log, n - 1, file, epoch, b)
  }

  lemma {:induction false} HeadOfPick(hash: Hasher, log: Log, n: nat, file: nat, epoch: nat, b: nat, first: nat)
    requires n <= |log|
    ensures var i := LastOf(hash, log, n, file, epoch, b);
      HeadAfter(hash, Pick(log[..n], file), epoch, b, first) == if i < 0 then first else Tok(log[i])
    decreases n
  {
    if n > 0 {
      HeadOfPick(hash, log, n - 1, file, epoch, b, first);
      assert log[..n][..n - 1] == log[..n - 1] && log[..n][n - 1] == log[n - 1];
      if log[n - 1].file == file {
        HeadStep(hash, Pick(log[..n - 1], file), log[n - 1], epoch, b, first);
      }
    }
  }

  // The parent's head is the newest record of the bucket in either file.
  lemma {:induction false} ParentHead(hash: Hasher, log: Log, base: nat, n: nat, epoch: nat, b: nat)
    requires base <= n <= |log| && EpochsSplit(log, base, epoch)
    requires forall i :: 0 <= i < |log| ==> log[i].file < 2
    ensures var i := Last(hash, log[base..], n - base, b);
      var i0, i1 := LastOf(hash, log, n, 0, epoch, b), LastOf(hash, log, n, 1, epoch, b);
      if i < 0 then i0 < 0 && i1 < 0 else base + i == if i0 < i1 then i1 else i0
    decreases n
  {
    if n > base {
      ParentHead(hash, log, base, n - 1, epoch, b);
    } else {
      NoneBefore(hash, log, base, n, 0, epoch, b);
      NoneBefore(hash, log, base, n, 1, epoch, b);
    }
  }

  lemma {:induction false} NoneBefore(hash: Hasher, log: Log, base: nat, n: nat, file: nat, epoch: nat, b: nat)
    requires n <= base <= |log| && EpochsSplit(log, base, epoch)
    ensures LastOf(hash, log, n, file, epoch, b) < 0
    decreases n
  {
    if n > 0 { NoneBefore(hash, log, base, n - 1, file, epoch, b); }
  }

  // No ordinary record of the bucket follows a reserve one.
  ghost predicate OrdinaryFirst(hash: Hasher, log: Log, epoch: nat, b: nat) {
    var i0, i1 := LastOf(hash, log, |log|, 0, epoch, b), LastOf(hash, log, |log|, 1, epoch, b);
    i1 < 0 || i0 < i1
  }

  // Adopting the live epoch restores a bucket head exactly when the bucket
  // was never written to the ordinary file after the reserve.
  lemma AdoptedHead(hash: Hasher, heads: seq<nat>, disk: seq<Bytes>, used: seq<nat>, reserveBytes: nat, log: Log, base: nat, epoch: nat, b: nat)
    requires Indexed(hash, heads, disk, used, log, base, epoch) && CleanFiles(disk, used, reserveBytes) && b < BUCKETS
    ensures |heads| == BUCKETS && (RebuiltHead(hash, disk, epoch, b) == heads[b] <==> OrdinaryFirst(hash, log, epoch, b))
  {
    hide Indexed, CleanFiles, RebuiltHead, LastOf;
    var i0, i1 := LastOf(hash, log, |log|, 0, epoch, b), LastOf(hash, log, |log|, 1, epoch, b);
    ParentFrom(hash, heads, disk, used, log, base, epoch, b);
    RebuiltFrom(hash, disk, used, reserveBytes, log, epoch, b);
    if i0 >= 0 { OffsetOfLogged(hash, disk, used, log, i0); }
    if i1 >= 0 { OffsetOfLogged(hash, disk, used, log, i1); }
  }

  // Adoption takes the newest reserve record, else the newest ordinary one.
  lemma RebuiltFrom(hash: Hasher, disk: seq<Bytes>, used: seq<nat>, reserveBytes: nat, log: Log, epoch: nat, b: nat)
    requires Readable(hash, disk, used, log) && CleanFiles(disk, used, reserveBytes)
    ensures var i0, i1 := LastOf(hash, log, |log|, 0, epoch, b), LastOf(hash, log, |log|, 1, epoch, b);
      RebuiltHead(hash, disk, epoch, b) == if i1 >= 0 then Tok(log[i1]) else if i0 >= 0 then Tok(log[i0]) else 0
  {
    hide Readable, Adoptable, Scanned, LastOf, HeadAfter, Pick;
    ReleasedParentIsRecovered(hash, disk, used, reserveBytes, log);
    assert log[..|log|] == log;
    HeadOfPick(hash, log, |log|, 0, epoch, b, 0);
    HeadOfPick(hash, log, |log|, 1, epoch, b, HeadAfter(hash, Pick(log, 0), epoch, b, 0));
  }

  lemma ParentFrom(hash: Hasher, heads: seq<nat>, disk: seq<Bytes>, used: seq<nat>, log: Log, base: nat, epoch: nat, b: nat)
    requires Indexed(hash, heads, disk, used, log, base, epoch) && b < BUCKETS
    ensures Readable(hash, disk, used, log) && |heads| == BUCKETS
    ensures var i0, i1 := LastOf(hash, log, |log|, 0, epoch, b), LastOf(hash, log, |log|, 1, epoch, b);
      heads[b] == if i0 < i1 then Tok(log[i1]) else if i0 >= 0 then Tok(log[i0]) else 0
  {
    hide Readable, Lawful, EpochsSplit, LastOf, Last;
    FilesBelowTwo(hash, disk, used, log);
    ParentHead(hash, log, base, |log|, epoch, b);
    ChainStart(hash, heads, log[base..], b);
    assert |log[base..]| == |log| - base;
    var i := Last(hash, log[base..], |log| - base, b);
    if i >= 0 { assert log[base..][i] == log[base + i]; }
  }

  lemma FilesBelowTwo(hash: Hasher, disk: seq<Bytes>, used: seq<nat>, log: Log)
    requires Readable(hash, disk, used, log)
    ensures forall i :: 0 <= i < |log| ==> log[i].file < 2
  {
  }

  lemma OffsetOfLogged(hash: Hasher, disk: seq<Bytes>, used: seq<nat>, log: Log, i: nat)
    requires Readable(hash, disk, used, log) && i < |log|
    ensures 0 < log[i].off < RESERVE_BIT && log[i].file < 2
  {
    hide JournalLog.Stored, Tiled;
    FilesBelowTwo(hash, disk, used, log);
    OffsetsBounded(log, i);
  }

  // The inherited index survives adoption when every bucket meets the condition.
  lemma AdoptedIndex(hash: Hasher, heads: seq<nat>, rebuilt: seq<nat>, disk: seq<Bytes>, used: seq<nat>, reserveBytes: nat, log: Log, base: nat, epoch: nat)
    requires Indexed(hash, heads, disk, used, log, base, epoch) && CleanFiles(disk, used, reserveBytes)
    requires |rebuilt| == BUCKETS && forall b :: 0 <= b < BUCKETS ==> rebuilt[b] == RebuiltHead(hash, disk, epoch, b)
    ensures Indexed(hash, rebuilt, disk, used, log, base, epoch) <==> forall b :: 0 <= b < BUCKETS ==> OrdinaryFirst(hash, log, epoch, b)
  {
    hide Readable, Lawful, EpochsSplit, OrdinaryFirst, RebuiltHead;
    forall b: nat | b < BUCKETS
      ensures RebuiltHead(hash, disk, epoch, b) == heads[b] <==> OrdinaryFirst(hash, log, epoch, b)
    {
      AdoptedHead(hash, heads, disk, used, reserveBytes, log, base, epoch, b);
    }
  }

  // ---- lookups of an adopted journal --------------------------------------------

  // How much of the epoch a walk from the rebuilt head of a bucket sees.
  function Reach(hash: Hasher, log: Log, base: nat, epoch: nat, b: nat): nat {
    var i0, i1 := LastOf(hash, log, |log|, 0, epoch, b), LastOf(hash, log, |log|, 1, epoch, b);
    var i := if i1 >= 0 then i1 else i0;
    if i < base then 0 else i - base + 1
  }

  lemma RebuiltReach(hash: Hasher, heads: seq<nat>, disk: seq<Bytes>, used: seq<nat>, reserveBytes: nat, log: Log, base: nat, epoch: nat, b: nat)
    requires Indexed(hash, heads, disk, used, log, base, epoch) && CleanFiles(disk, used, reserveBytes) && b < BUCKETS
    ensures base <= |log| && Reach(hash, log, base, epoch, b) <= |log[base..]|
    ensures RebuiltHead(hash, disk, epoch, b) == Link(hash, log[base..], Reach(hash, log, base, epoch, b), b)
  {
    hide Readable, Lawful, Chained, CleanFiles, RebuiltHead, LastOf;
    RebuiltFrom(hash, disk, used, reserveBytes, log, epoch, b);
    NoneBefore(hash, log, base, base, 0, epoch, b);
    var i0, i1 := LastOf(hash, log, |log|, 0, epoch, b), LastOf(hash, log, |log|, 1, epoch, b);
    var i := if i1 >= 0 then i1 else i0;
    if i >= 0 {
      assert log[i].rec.epoch == epoch;
      assert log[base..][i - base] == log[i];
      assert Last(hash, log[base..], i - base + 1, b) == i - base;
    }
  }

  // What a walk from the rebuilt head answers.
  function AdoptedLookup(hash: Hasher, log: Log, base: nat, epoch: nat, id: Bytes, scope: Bytes): Lookup
    requires base <= |log| && Reach(hash, log, base, epoch, Bucket(hash, id)) <= |log[base..]|
  {
    LookupIn(log[base..][..Reach(hash, log, base, epoch, Bucket(hash, id))], id, scope)
  }

  lemma {:induction false} NewestOfPrefix(cur: Log, n: nat, m: nat, id: Bytes, scope: Bytes, own: bool)
    requires m <= n <= |cur|
    ensures Newest(cur[..n], m, id, scope, own) == Newest(cur, m, id, scope, own)
    decreases m
  {
    if m > 0 { NewestOfPrefix(cur, n, m - 1, id, scope, own); }
  }

  lemma SeenOfPrefix(cur: Log, n: nat, id: Bytes, scope: Bytes, own: bool)
    requires n <= |cur| && Newest(cur, |cur|, id, scope, own) == Newest(cur, n, id, scope, own)
    ensures Seen(cur[..n], 0, id, scope, own) == Seen(cur, 0, id, scope, own)
  {
    hide Recorded, Newest;
    NewestOfPrefix(cur, n, n, id, scope, own);
    var i := Newest(cur, n, id, scope, own);
    if i >= 0 { PrefixRecord(cur, n, i); }
  }

  // A prefix that ends with the last record of the bucket answers for the whole.
  lemma WholeBucket(hash: Hasher, cur: Log, id: Bytes, scope: Bytes)
    ensures var n := Last(hash, cur, |cur|, Bucket(hash, id)) + 1; LookupIn(cur[..n], id, scope) == LookupIn(cur, id, scope)
  {
    hide Last, Seen, Bucket, Newest;
    var n := Last(hash, cur, |cur|, Bucket(hash, id)) + 1;
    ChainSkipsNothing(hash, cur, |cur|, id, scope, true);
    ChainSkipsNothing(hash, cur, |cur|, id, scope, false);
    SeenOfPrefix(cur, n, id, scope, true);
    SeenOfPrefix(cur, n, id, scope, false);
  }

  // What a record says about its key is never forgotten.
  lemma {:induction false} SaidStays(cur: Log, i: nat, n: nat)
    requires Lawful(cur) && i < n <= |cur|
    ensures KeyOf(cur[i]) in Index(cur[..n])
    ensures cur[i].rec.kind == COMPLETION ==> Index(cur[..n])[KeyOf(cur[i])].response.Some?
    decreases n
  {
    hide Lawful;
    LawfulAt(cur, n - 1);
    IndexStep(cur, n - 1);
    if i < n - 1 { SaidStays(cur, i, n - 1); }
  }

  // A prefix without the last record of a bucket answers wrongly for its request.
  lemma LastIsMissed(hash: Hasher, cur: Log, n: nat, p: nat)
    requires Lawful(cur) && n <= p < |cur| && p == Last(hash, cur, |cur|, Bucket(hash, cur[p].rec.id))
    ensures LookupIn(cur[..n], cur[p].rec.id, cur[p].rec.scope).hit != LookupIn(cur, cur[p].rec.id, cur[p].rec.scope).hit
  {
    hide Lawful, Last, Index;
    var id, scope := cur[p].rec.id, cur[p].rec.scope;
    ChainSkipsNothing(hash, cur, |cur|, id, scope, true);
    assert Newest(cur, |cur|, id, scope, true) == p;
    var r := RecordedFields(cur, p);
    LawfulAt(cur, p);
    NewestOfPrefix(cur, n, n, id, scope, true);
    var q := Newest(cur, n, id, scope, true);
    if q >= 0 {
      SaidStays(cur, q, p);
      PrefixRecord(cur, n, q);
      var s := RecordedFields(cur, q);
    }
  }

  // Adoption keeps every answer of the parent if and only if no bucket was written
  // to the ordinary file after the reserve.
  lemma AdoptedLookups(hash: Hasher, heads: seq<nat>, disk: seq<Bytes>, used: seq<nat>, reserveBytes: nat, log: Log, base: nat, epoch: nat)
    requires Indexed(hash, heads, disk, used, log, base, epoch) && CleanFiles(disk, used, reserveBytes)
    ensures base <= |log| && forall b :: 0 <= b < BUCKETS ==> Reach(hash, log, base, epoch, b) <= |log[base..]|
    ensures (forall id: Bytes, scope: Bytes :: AdoptedLookup(hash, log, base, epoch, id, scope) == LookupIn(log[base..], id, scope))
      <==> (forall b :: 0 <= b < BUCKETS ==> OrdinaryFirst(hash, log, epoch, b))
  {
    hide Readable, Lawful, Chained, CleanFiles, LookupIn, Last, Reach, OrdinaryFirst;
    forall b: nat | b < BUCKETS
      ensures Reach(hash, log, base, epoch, b) <= |log[base..]|
      ensures OrdinaryFirst(hash, log, epoch, b) ==> Reach(hash, log, base, epoch, b) == Last(hash, log[base..], |log[base..]|, b) + 1
      ensures !OrdinaryFirst(hash, log, epoch, b) ==>
        exists id: Bytes, scope: Bytes :: Bucket(hash, id) == b && LookupIn(log[base..][..Reach(hash, log, base, epoch, b)], id, scope) != LookupIn(log[base..], id, scope)
    {
      RebuiltReach(hash, heads, disk, used, reserveBytes, log, base, epoch, b);
      BucketEnds(hash, heads, disk, used, log, base, epoch, b);
    }
    if forall b :: 0 <= b < BUCKETS ==> OrdinaryFirst(hash, log, epoch, b) {
      forall id: Bytes, scope: Bytes
        ensures AdoptedLookup(hash, log, base, epoch, id, scope) == LookupIn(log[base..], id, scope)
      {
        WholeBucket(hash, log[base..], id, scope);
      }
    } else {
      var b :| 0 <= b < BUCKETS && !OrdinaryFirst(hash, log, epoch, b);
      var id: Bytes, scope: Bytes :| Bucket(hash, id) == b && LookupIn(log[base..][..Reach(hash, log, base, epoch, b)], id, scope) != LookupIn(log[base..], id, scope);
      assert AdoptedLookup(hash, log, base, epoch, id, scope) != LookupIn(log[base..], id, scope);
    }
  }

  // The rebuilt head reaches the end of its bucket, or misses its last record.
  lemma BucketEnds(hash: Hasher, heads: seq<nat>, disk: seq<Bytes>, used: seq<nat>, log: Log, base: nat, epoch: nat, b: nat)
    requires Indexed(hash, heads, disk, used, log, base, epoch) && b < BUCKETS
    requires Reach(hash, log, base, epoch, b) <= |log[base..]|
    ensures OrdinaryFirst(hash, log, epoch, b) ==> Reach(hash, log, base, epoch, b) == Last(hash, log[base..], |log[base..]|, b) + 1
    ensures !OrdinaryFirst(hash, log, epoch, b) ==>
      exists id: Bytes, scope: Bytes :: Bucket(hash, id) == b && LookupIn(log[base..][..Reach(hash, log, base, epoch, b)], id, scope) != LookupIn(log[base..], id, scope)
  {
    hide Readable, Lawful, Chained, LookupIn, Last, LastOf;
    FilesBelowTwo(hash, disk, used, log);
    ParentHead(hash, log, base, |log|, epoch, b);
    assert |log[base..]| == |log| - base;
    var i0, i1 := LastOf(hash, log, |log|, 0, epoch, b), LastOf(hash, log, |log|, 1, epoch, b);
    if !OrdinaryFirst(hash, log, epoch, b) {
      var p := i0 - base;
      assert log[base..][p] == log[i0];
      LastIsMissed(hash, log[base..], Reach(hash, log, base, epoch, b), p);
      var id, scope := log[i0].rec.id, log[i0].rec.scope;
      assert Bucket(hash, id) == b;
      assert LookupIn(log[base..][..Reach(hash, log, base, epoch, b)], id, scope) != LookupIn(log[base..], id, scope);
    }
  }

  lemma {:induction false} AllCounted(log: Log, n: nat, base: nat, epoch: nat)
    requires n <= |log| && EpochsSplit(log, base, epoch) && forall i :: 0 <= i < |log| ==> log[i].file < 2
    ensures CountOf(Pick(log[..n], 0), epoch) + CountOf(Pick(log[..n], 1), epoch) == if n <= base then 0 else n - base
    decreases n
  {
    hide CountOf, Pick;
    if n == 0 {
      NoneCounted(epoch);
      assert log[..0] == [];
    } else {
      AllCounted(log, n - 1, base, epoch);
      PickStep(log, n - 1);
      CountStep(Pick(log[..n - 1], log[n - 1].file), log[n - 1], epoch);
    }
  }

  lemma NoneCounted(epoch: nat)
    ensures CountOf(Pick([], 0), epoch) == CountOf(Pick([], 1), epoch) == 0
  {
  }

  lemma PickStep(log: Log, n: nat)
    requires n < |log|
    ensures forall f: nat :: Pick(log[..n + 1], f) == if log[n].file == f then Pick(log[..n], f) + [log[n]] else Pick(log[..n], f)
  {
    assert log[..n + 1][..n] == log[..n];
  }

  // Every bucket head of `j` leads where adoption left it.
  ghost predicate HasRebuiltHeads(j: RequestJournal)
    requires j.base <= |j.log|
    reads j, j.heads
  {
    j.heads.Length == BUCKETS && forall b :: 0 <= b < BUCKETS ==>
      && Reach(j.hash, j.log, j.base, j.epoch, b) <= |j.log[j.base..]|
      && j.heads[b] == Link(j.hash, j.log[j.base..], Reach(j.hash, j.log, j.base, j.epoch, b), b)
  }

  // A new instance takes over a cleanly released parent of its own epoch. Its walks
  // are safe; and it is a journal like the parent, with the same entries, whenever
  // no bucket was written to the ordinary file after the reserve.
  method AdoptParent(j: RequestJournal, ghost heads: seq<nat>, ghost used: seq<nat>, ghost log: Log, ghost base: nat) returns (r: Adoption)
    requires !j.isOpen && |j.disk| == 2 && |j.used| == 2 && j.heads.Length == BUCKETS && j.normalCount == j.reserveCount == 0
    requires |j.disk[0]| < RESERVE_BIT && |j.disk[1]| < RESERVE_BIT && forall b :: 0 <= b < BUCKETS ==> j.heads[b] == 0
    requires j.limits.normalBytes < RESERVE_BIT && j.limits.reserveBytes < RESERVE_BIT && |j.scope| <= MAX_SCOPE
    requires Indexed(j.hash, heads, j.disk, used, log, base, j.epoch) && CleanFiles(j.disk, used, j.limits.reserveBytes)
    modifies j, j.heads
    ensures r != Refused && (old(j.steady) ==> r == Adopted)
    ensures r == Adopted ==> j.log == log && j.base == base <= |log| && j.used == used && j.fault == old(j.fault) && j.isOpen
    ensures r == Adopted ==> j.epoch == old(j.epoch) && j.disk == old(j.disk) && j.scope == old(j.scope)
    ensures r == Adopted ==> j.Walkable() && HasRebuiltHeads(j)
    ensures r == Adopted && (forall b :: 0 <= b < BUCKETS ==> OrdinaryFirst(j.hash, log, j.epoch, b)) ==> j.Valid() && j.Entries() == Index(log[base..])
  {
    hide Readable, Adoptable, Scanned, ScanEnd, HeadAfter, CountOf, Pick, RebuiltHead, OrdinaryFirst, Lawful, Threaded, EpochsSplit, CleanFiles, Link, Reach, Indexed;
    IndexedParts(j.hash, heads, j.disk, used, log, base, j.epoch);
    CleanParts(j.disk, used, j.limits.reserveBytes);
    ReleasedParentIsRecovered(j.hash, j.disk, used, j.limits.reserveBytes, log);
    r := j.OpenAdopted(j.epoch);
    if r == Adopted {
      j.log, j.base, j.inherited, j.clean := log, base, |log|, true;
      FilesBelowTwo(j.hash, j.disk, used, log);
      AllCounted(log, |log|, base, j.epoch);
      assert log[..|log|] == log && log[base..|log|] == log[base..];
      assert j.used == used;
      forall b: nat | b < BUCKETS
        ensures Reach(j.hash, log, base, j.epoch, b) <= |log[base..]|
        ensures j.heads[b] == Link(j.hash, log[base..], Reach(j.hash, log, base, j.epoch, b), b)
      {
        RebuiltReach(j.hash, heads, j.disk, used, j.limits.reserveBytes, log, base, j.epoch, b);
      }
      AdoptedIndex(j.hash, heads, j.heads[..], j.disk, used, j.limits.reserveBytes, log, base, j.epoch);
    }
  }

  lemma IndexedParts(hash: Hasher, heads: seq<nat>, disk: seq<Bytes>, used: seq<nat>, log: Log, base: nat, epoch: nat)
    requires Indexed(hash, heads, disk, used, log, base, epoch)
    ensures Readable(hash, disk, used, log) && base <= |log| && EpochsSplit(log, base, epoch)
    ensures Threaded(hash, log[base..]) && Lawful(log[base..]) && |used| == 2
  {
  }

  lemma CleanParts(disk: seq<Bytes>, used: seq<nat>, reserveBytes: nat)
    requires CleanFiles(disk, used, reserveBytes)
    ensures |disk| == 2 && |used| == 2 && |disk[0]| == used[0] && START <= |disk[0]| && START <= |disk[1]|
  {
  }

  // A lookup of an adopting instance sees exactly what its heads reach.
  method FindAdopted(j: RequestJournal, id: Bytes) returns (r: Option<Lookup>)
    requires j.Walkable() && HasRebuiltHeads(j)
    modifies j`fault
    ensures r.Some? ==> j.fault == old(j.fault) && r.value == AdoptedLookup(j.hash, j.log, j.base, j.epoch, id, j.scope)
    ensures j.steady ==> r.Some?
  {
    hide Readable, Lawful, Threaded, EpochsSplit, Link, Reach, LookupIn;
    r := j.Walk(id, j.heads[Bucket(j.hash, id)], Reach(j.hash, j.log, j.base, j.epoch, Bucket(j.hash, id)));
  }
}
