// What OpenAdopted makes of existing files: records parsed in file order and
// the bucket heads rebuilt from them.
module JournalScans {
  import opened JournalFormat
  import opened JournalLog

  // Every record from `at` on, until the first byte that starts none.
  function Scanned(hash: Hasher, file: nat, bytes: Bytes, at: nat): Log
    requires at <= |bytes|
    decreases |bytes| - at
  {
    match RecordAt(hash, bytes, at, |bytes|)
    case None => []
    case Some(r) => [Logged(file, at, r)] + Scanned(hash, file, bytes, at + Size(r))
  }

  function ScanEnd(scan: Log, at: nat): nat {
    if scan == [] then at else var l := scan[|scan| - 1]; l.off + Size(l.rec)
  }

  lemma RecordFits(hash: Hasher, bytes: Bytes, at: nat)
    requires at <= |bytes| && RecordAt(hash, bytes, at, |bytes|).Some?
    ensures at + Size(RecordAt(hash, bytes, at, |bytes|).value) <= |bytes|
  {
  }

  function InBucket(hash: Hasher, l: Logged, epoch: nat, b: nat): bool {
    l.rec.epoch == epoch && Bucket(hash, l.rec.id) == b
  }

  // The head a scan leaves: its last record of the epoch and bucket, or `first`.
  function HeadAfter(hash: Hasher, scan: Log, epoch: nat, b: nat, first: nat): nat {
    if scan == [] then first
    else
      var l := scan[|scan| - 1];
      if InBucket(hash, l, epoch, b) then Tok(l) else HeadAfter(hash, scan[..|scan| - 1], epoch, b, first)
  }

  function CountOf(scan: Log, epoch: nat): nat {
    if scan == [] then 0
    else CountOf(scan[..|scan| - 1], epoch) + if scan[|scan| - 1].rec.epoch == epoch then 1 else 0
  }

  // The records of one file, in append order.
  function Pick(log: Log, file: nat): Log {
    if log == [] then []
    else if log[|log| - 1].file == file then Pick(log[..|log| - 1], file) + [log[|log| - 1]]
    else Pick(log[..|log| - 1], file)
  }

  // ---- what may be adopted ----------------------------------------------------

  function AllZero(s: Bytes): bool {
    forall i :: 0 <= i < |s| ==> s[i] == 0
  }

  const MAGIC: Bytes := [0x4c, 0x56, 0x5a, 0x52, 0x45, 0x51, 0x30, 0x32]

  // Unsealed current-format files whose ordinary part is records to the end and
  // whose reserve is records followed by zeros only.
  ghost predicate Adoptable(hash: Hasher, disk: seq<Bytes>)
    requires |disk| == 2
  {
    && (forall f :: 0 <= f < 2 ==> |disk[f]| >= START && disk[f][..8] == MAGIC && AllZero(disk[f][8..12]))
    && ScanEnd(Scanned(hash, 0, disk[0], START), START) == |disk[0]|
    && var end := ScanEnd(Scanned(hash, 1, disk[1], START), START); end <= |disk[1]| && AllZero(disk[1][end..])
  }

  // The head both scans leave: the reserve is scanned second and overwrites.
  function RebuiltHead(hash: Hasher, disk: seq<Bytes>, epoch: nat, b: nat): nat
    requires |disk| == 2 && |disk[0]| >= START && |disk[1]| >= START
  {
    HeadAfter(hash, Scanned(hash, 1, disk[1], START), epoch, b,
      HeadAfter(hash, Scanned(hash, 0, disk[0], START), epoch, b, 0))
  }

  // One more record of the scan.
  lemma {:induction false} ScanGrows(hash: Hasher, file: nat, bytes: Bytes, start: nat, done: Log, at: nat)
    requires start <= |bytes| && at <= |bytes|
    requires Scanned(hash, file, bytes, start) == done + Scanned(hash, file, bytes, at)
    ensures var r := RecordAt(hash, bytes, at, |bytes|);
      if r.None? then Scanned(hash, file, bytes, start) == done
      else
        && at + Size(r.value) <= |bytes|
        && Scanned(hash, file, bytes, start) == (done + [Logged(file, at, r.value)]) + Scanned(hash, file, bytes, at + Size(r.value))
  {
    hide RecordAt;
    var r := RecordAt(hash, bytes, at, |bytes|);
    if r.Some? {
      RecordFits(hash, bytes, at);
    }
  }

  lemma CountStep(done: Log, l: Logged, epoch: nat)
    ensures CountOf(done + [l], epoch) == CountOf(done, epoch) + if l.rec.epoch == epoch then 1 else 0
  {
  }

  lemma HeadStep(hash: Hasher, done: Log, l: Logged, epoch: nat, b: nat, first: nat)
    ensures HeadAfter(hash, done + [l], epoch, b, first)
         == if InBucket(hash, l, epoch, b) then Tok(l) else HeadAfter(hash, done, epoch, b, first)
    ensures CountOf(done + [l], epoch) == CountOf(done, epoch) + if l.rec.epoch == epoch then 1 else 0
  {
  }
}
