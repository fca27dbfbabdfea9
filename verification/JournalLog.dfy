// What the two journal files mean: an append order over both files, the bucket
// chains threaded through it, and the plain map those chains implement.
module JournalLog {
  import opened JournalFormat

  // A record together with where it was stored (file 0 is the ordinary journal,
  // file 1 the emergency reserve).
  datatype Logged = Logged(file: nat, off: nat, rec: Record)
  type Log = seq<Logged>

  datatype Key = Key(scope: Bytes, id: Bytes)
  // `closing` marks the reservation of a close, which may use the closing reserve.
  datatype Entry = Entry(token: nat, payload: Bytes, response: Option<Bytes>, closing: bool)

  function Tok(l: Logged): nat {
    l.off + if l.file == 1 then RESERVE_BIT else 0
  }

  function KeyOf(l: Logged): Key {
    Key(l.rec.scope, l.rec.id)
  }

  function Bucket(hash: Hasher, id: Bytes): (b: nat)
    ensures b < BUCKETS
  {
    hash(id) % BUCKETS
  }

  // ---- layout -----------------------------------------------------------------

  // Committed end of one file: `used_[file]`.
  function End(log: Log, file: nat): (r: nat)
    ensures r >= START
  {
    if log == [] then START
    else
      var l := log[|log| - 1];
      if l.file == file then l.off + Size(l.rec) else End(log[..|log| - 1], file)
  }

  // Records tile each file: every record starts where the file ended before it.
  ghost predicate Tiled(log: Log) {
    forall i :: 0 <= i < |log| ==> log[i].file < 2 && WellFormed(log[i].rec) && log[i].off == End(log[..i], log[i].file)
  }

  ghost predicate StoredAt(hash: Hasher, disk: seq<Bytes>, l: Logged) {
    && l.file < |disk|
    && l.off + Size(l.rec) <= |disk[l.file]|
    && disk[l.file][l.off..l.off + Size(l.rec)] == Encode(hash, l.rec)
  }

  ghost predicate Stored(hash: Hasher, disk: seq<Bytes>, log: Log) {
    forall i :: 0 <= i < |log| ==> StoredAt(hash, disk, log[i])
  }

  lemma {:induction false} OffsetsBounded(log: Log, i: nat)
    requires Tiled(log) && i < |log|
    ensures START <= log[i].off && log[i].off + Size(log[i].rec) <= End(log, log[i].file)
    decreases |log|
  {
    var last := log[|log| - 1];
    var rest := log[..|log| - 1];
    assert forall k :: 0 <= k < |rest| ==> rest[..k] == log[..k];
    if i < |rest| {
      OffsetsBounded(rest, i);
      assert last.off == End(rest, last.file);
    }
  }

  lemma TiledAppend(log: Log, l: Logged)
    requires Tiled(log) && l.file < 2 && WellFormed(l.rec) && l.off == End(log, l.file)
    ensures Tiled(log + [l])
    ensures End(log + [l], l.file) == l.off + Size(l.rec)
    ensures forall f :: f != l.file ==> End(log + [l], f) == End(log, f)
  {
    var longer := log + [l];
    assert longer[..|log|] == log;
    assert forall k :: 0 <= k < |log| ==> longer[..k] == log[..k];
  }

  // ---- the plain map ----------------------------------------------------------

  // What a request index promises: the reservation of every key and, once it is
  // known, its completion.
  function Index(cur: Log): map<Key, Entry> {
    if cur == [] then map[]
    else
      var m := Index(cur[..|cur| - 1]);
      var l := cur[|cur| - 1];
      var k := KeyOf(l);
      if l.rec.kind != COMPLETION then m[k := Entry(Tok(l), l.rec.body, None, l.rec.kind == CLOSING_RESERVATION)]
      else Answer(m, k, l.rec.body)
  }

  // The callers' discipline: a key is reserved once, and completed at most once
  // by the token of its own reservation.
  ghost predicate LawfulNext(m: map<Key, Entry>, l: Logged) {
    if l.rec.kind != COMPLETION then KeyOf(l) !in m
    else KeyOf(l) in m && m[KeyOf(l)].token == l.rec.request && m[KeyOf(l)].response.None?
  }

  ghost predicate Lawful(cur: Log) {
    forall i :: 0 <= i < |cur| ==> LawfulNext(Index(cur[..i]), cur[i])
  }

  lemma LawfulAppend(cur: Log, l: Logged)
    requires Lawful(cur) && LawfulNext(Index(cur), l)
    ensures Lawful(cur + [l])
  {
    var longer := cur + [l];
    assert longer[..|cur|] == cur;
    assert forall i :: 0 <= i < |cur| ==> longer[..i] == cur[..i];
  }

  lemma LawfulAt(cur: Log, i: nat)
    requires Lawful(cur) && i < |cur|
    ensures LawfulNext(Index(cur[..i]), cur[i])
  {
  }

  lemma LawfulPrefix(cur: Log, n: nat)
    requires Lawful(cur) && n <= |cur|
    ensures Lawful(cur[..n])
  {
    assert forall i :: 0 <= i < n ==> cur[..n][..i] == cur[..i];
  }

  lemma IndexStep(cur: Log, n: nat)
    requires n < |cur|
    ensures Index(cur[..n + 1]) == Index(cur[..n] + [cur[n]])
    ensures cur[..n + 1][..n] == cur[..n] && cur[..n + 1][n] == cur[n]
  {
    assert cur[..n + 1] == cur[..n] + [cur[n]];
  }

  // Where the reservation of a key is stored.
  lemma {:induction false} ReservationOf(cur: Log, n: nat, k: Key) returns (r: nat)
    requires Lawful(cur) && n <= |cur| && k in Index(cur[..n])
    ensures r < n && cur[r].rec.kind != COMPLETION && KeyOf(cur[r]) == k
    ensures Index(cur[..n])[k].token == Tok(cur[r]) && Index(cur[..n])[k].payload == cur[r].rec.body
    ensures Index(cur[..n])[k].closing == (cur[r].rec.kind == CLOSING_RESERVATION)
    decreases n
  {
    IndexStep(cur, n - 1);
    var m, l := Index(cur[..n - 1]), cur[n - 1];
    if KeyOf(l) == k && l.rec.kind != COMPLETION {
      r := n - 1;
    } else {
      assert k in m && Index(cur[..n])[k].token == m[k].token && Index(cur[..n])[k].payload == m[k].payload
             && Index(cur[..n])[k].closing == m[k].closing;
      r := ReservationOf(cur, n - 1, k);
    }
  }

  lemma {:induction false} ReservationIsIndexed(cur: Log, n: nat, i: nat)
    requires Lawful(cur) && i < n <= |cur| && cur[i].rec.kind != COMPLETION
    ensures KeyOf(cur[i]) in Index(cur[..n])
    ensures Index(cur[..n])[KeyOf(cur[i])].token == Tok(cur[i])
    ensures Index(cur[..n])[KeyOf(cur[i])].closing == (cur[i].rec.kind == CLOSING_RESERVATION)
    decreases n
  {
    hide Lawful;
    IndexStep(cur, n - 1);
    if i < n - 1 {
      ReservationIsIndexed(cur, n - 1, i);
      LawfulAt(cur, n - 1);
    }
  }

  // The newest record of an id inside (own) or outside (!own) one scope.
  function Newest(cur: Log, n: nat, id: Bytes, scope: Bytes, own: bool): (i: int)
    requires n <= |cur|
    ensures -1 <= i < n
    ensures i >= 0 ==> cur[i].rec.id == id && (cur[i].rec.scope == scope) == own
  {
    if n == 0 then -1
    else if cur[n - 1].rec.id == id && (cur[n - 1].rec.scope == scope) == own then n - 1
    else Newest(cur, n - 1, id, scope, own)
  }

  lemma {:induction false} NewestIsNewest(cur: Log, n: nat, id: Bytes, scope: Bytes, own: bool, j: nat)
    requires n <= |cur| && Newest(cur, n, id, scope, own) < j < n && cur[j].rec.id == id
    ensures (cur[j].rec.scope == scope) != own
    decreases n
  {
    if j < n - 1 {
      NewestIsNewest(cur, n - 1, id, scope, own, j);
    }
  }

  // A key's entry is the one its newest record left behind.
  lemma {:induction false} EntryOfNewest(cur: Log, n: nat, i: int, k: Key)
    requires -1 <= i < n <= |cur|
    requires forall j :: i < j < n ==> KeyOf(cur[j]) != k
    ensures (k in Index(cur[..n])) == (k in Index(cur[..i + 1]))
    ensures k in Index(cur[..n]) ==> Index(cur[..n])[k] == Index(cur[..i + 1])[k]
    decreases n
  {
    if i + 1 < n {
      IndexStep(cur, n - 1);
      EntryOfNewest(cur, n - 1, i, k);
    }
  }

  // ---- entry counts -----------------------------------------------------------

  function Reservations(cur: Log): (r: nat)
    ensures r <= |cur|
  {
    if cur == [] then 0
    else Reservations(cur[..|cur| - 1]) + if cur[|cur| - 1].rec.kind != COMPLETION then 1 else 0
  }

  ghost function Answered(m: map<Key, Entry>): set<Key> {
    set k | k in m && m[k].response.Some?
  }

  // "Each admitted ID has at most its reservation and its completion."
  lemma {:induction false} TwoRecordsPerEntry(cur: Log)
    requires Lawful(cur)
    ensures Reservations(cur) == |Index(cur)|
    ensures |cur| == Reservations(cur) + |Answered(Index(cur))|
    ensures |cur| <= 2 * Reservations(cur)
  {
    if cur != [] {
      var n := |cur| - 1;
      var before := cur[..n];
      LawfulPrefix(cur, n);
      TwoRecordsPerEntry(before);
      var m, l := Index(before), cur[n];
      assert LawfulNext(m, l);
      if l.rec.kind != COMPLETION {
        assert Index(cur).Keys == m.Keys + {KeyOf(l)};
        assert Answered(Index(cur)) == Answered(m);
      } else {
        assert Index(cur).Keys == m.Keys;
        assert Answered(Index(cur)) == Answered(m) + {KeyOf(l)};
      }
    }
    AnsweredFits(Index(cur));
  }

  lemma AnsweredFits(m: map<Key, Entry>)
    ensures |Answered(m)| <= |m|
  {
    SubsetSize(Answered(m), m.Keys);
  }

  lemma {:induction false} SubsetSize<T>(a: set<T>, b: set<T>)
    requires a <= b
    ensures |a| <= |b|
  {
    if a != {} {
      var x :| x in a;
      SubsetSize(a - {x}, b - {x});
    }
  }

  // ---- bucket chains ----------------------------------------------------------

  // Position of the newest record of a bucket among the first n, or -1.
  function Last(hash: Hasher, cur: Log, n: nat, b: nat): (i: int)
    requires n <= |cur|
    ensures -1 <= i < n
    ensures i >= 0 ==> Bucket(hash, cur[i].rec.id) == b
  {
    if n == 0 then -1
    else if Bucket(hash, cur[n - 1].rec.id) == b then n - 1
    else Last(hash, cur, n - 1, b)
  }

  // The link a bucket head or a `next` field holds: 0 ends the chain.
  function Link(hash: Hasher, cur: Log, n: nat, b: nat): nat
    requires n <= |cur|
  {
    var i := Last(hash, cur, n, b);
    if i < 0 then 0 else Tok(cur[i])
  }

  // Every record points at the record of its bucket before it.
  ghost predicate Threaded(hash: Hasher, cur: Log) {
    forall i :: 0 <= i < |cur| ==> cur[i].rec.next == Link(hash, cur, i, Bucket(hash, cur[i].rec.id))
  }

  ghost predicate Chained(hash: Hasher, heads: seq<nat>, cur: Log) {
    && |heads| == BUCKETS
    && (forall b :: 0 <= b < BUCKETS ==> heads[b] == Link(hash, cur, |cur|, b))
    && Threaded(hash, cur)
  }

  lemma {:induction false} LinkOfPrefix(hash: Hasher, cur: Log, more: Log, n: nat, b: nat)
    requires n <= |cur|
    ensures Last(hash, cur + more, n, b) == Last(hash, cur, n, b)
    ensures Link(hash, cur + more, n, b) == Link(hash, cur, n, b)
    decreases n
  {
    if n > 0 {
      LinkOfPrefix(hash, cur, more, n - 1, b);
    }
  }

  // The chains of a prefix are those of the whole, up to there.
  lemma PrefixChains(hash: Hasher, cur: Log, n: nat, b: nat)
    requires n <= |cur|
    ensures Link(hash, cur[..n], n, b) == Link(hash, cur, n, b) && Last(hash, cur[..n], n, b) == Last(hash, cur, n, b)
    ensures Threaded(hash, cur) ==> Threaded(hash, cur[..n])
    ensures Lawful(cur) ==> Lawful(cur[..n])
  {
    hide Lawful;
    assert cur[..n] + cur[n..] == cur;
    LinkOfPrefix(hash, cur[..n], cur[n..], n, b);
    if Threaded(hash, cur) {
      forall i | 0 <= i < n
        ensures cur[..n][i].rec.next == Link(hash, cur[..n], i, Bucket(hash, cur[..n][i].rec.id))
      {
        LinkOfPrefix(hash, cur[..n], cur[n..], i, Bucket(hash, cur[i].rec.id));
      }
    }
    if Lawful(cur) { LawfulPrefix(cur, n); }
  }

  lemma LinkAfterAppend(hash: Hasher, cur: Log, l: Logged, b: nat)
    ensures Link(hash, cur + [l], |cur| + 1, b) == if Bucket(hash, l.rec.id) == b then Tok(l) else Link(hash, cur, |cur|, b)
  {
    LinkOfPrefix(hash, cur, [l], |cur|, b);
  }

  lemma ChainedAppend(hash: Hasher, heads: seq<nat>, cur: Log, l: Logged)
    requires Chained(hash, heads, cur)
    requires l.rec.next == heads[Bucket(hash, l.rec.id)]
    ensures Chained(hash, heads[Bucket(hash, l.rec.id) := Tok(l)], cur + [l])
  {
    var longer, at := cur + [l], Bucket(hash, l.rec.id);
    forall b | 0 <= b < BUCKETS
      ensures heads[at := Tok(l)][b] == Link(hash, longer, |longer|, b)
    {
      LinkAfterAppend(hash, cur, l, b);
    }
    forall i | 0 <= i < |longer|
      ensures longer[i].rec.next == Link(hash, longer, i, Bucket(hash, longer[i].rec.id))
    {
      LinkOfPrefix(hash, cur, [l], i, Bucket(hash, longer[i].rec.id));
    }
  }

  // Walking a chain skips only records of other buckets.
  lemma {:induction false} ChainSkipsNothing(hash: Hasher, cur: Log, n: nat, id: Bytes, scope: Bytes, own: bool)
    requires n <= |cur|
    ensures var i := Last(hash, cur, n, Bucket(hash, id));
            Newest(cur, n, id, scope, own) == Newest(cur, i + 1, id, scope, own)
    decreases n
  {
    if n > 0 && Bucket(hash, cur[n - 1].rec.id) != Bucket(hash, id) {
      ChainSkipsNothing(hash, cur, n - 1, id, scope, own);
    }
  }

  // ---- lookups ----------------------------------------------------------------

  function Get(m: map<Key, Entry>, k: Key): Option<Entry> {
    if k in m then Some(m[k]) else None
  }

  // The map after one reservation has been answered.
  function Answer(m: map<Key, Entry>, k: Key, response: Bytes): map<Key, Entry> {
    if k in m then m[k := m[k].(response := Some(response))] else m
  }

  // What record i says about its key at the time it was written.
  function Recorded(cur: Log, i: int): Option<Entry>
    requires -1 <= i < |cur|
  {
    if i < 0 then None else Get(Index(cur[..i + 1]), KeyOf(cur[i]))
  }

  lemma RecordedFields(cur: Log, i: nat) returns (r: nat)
    requires Lawful(cur) && i < |cur|
    ensures r <= i && cur[r].rec.kind != COMPLETION && KeyOf(cur[r]) == KeyOf(cur[i])
    ensures cur[i].rec.kind != COMPLETION ==> Recorded(cur, i) == Some(Entry(Tok(cur[i]), cur[i].rec.body, None, cur[i].rec.kind == CLOSING_RESERVATION))
    ensures cur[i].rec.kind == COMPLETION ==>
      cur[i].rec.request == Tok(cur[r]) && Recorded(cur, i) == Some(Entry(Tok(cur[r]), cur[r].rec.body, Some(cur[i].rec.body), cur[r].rec.kind == CLOSING_RESERVATION))
  {
    hide Lawful;
    var m, l := Index(cur[..i]), cur[i];
    assert LawfulNext(m, l) by { LawfulAt(cur, i); }
    IndexStep(cur, i);
    if l.rec.kind == COMPLETION {
      r := ReservationOf(cur, i, KeyOf(l));
    } else {
      r := i;
    }
  }

  // The branch and content record i reports.
  function Remark(cur: Log, i: int): Option<(Bytes, Entry)>
    requires -1 <= i < |cur|
  {
    var e := Recorded(cur, i);
    if e.None? then None else Some((cur[i].rec.scope, e.value))
  }

  // The answer a chain walk has collected once it has visited every record of
  // the bucket at position n or later.
  function Seen(cur: Log, n: nat, id: Bytes, scope: Bytes, own: bool): Option<(Bytes, Entry)>
    requires n <= |cur|
  {
    var i := Newest(cur, |cur|, id, scope, own);
    if i >= n then Remark(cur, i) else None
  }

  lemma {:induction false} NewestBelow(cur: Log, n: nat, m: nat, id: Bytes, scope: Bytes, own: bool)
    requires n <= m <= |cur|
    ensures Newest(cur, m, id, scope, own) < n ==> Newest(cur, n, id, scope, own) == Newest(cur, m, id, scope, own)
    ensures Newest(cur, m, id, scope, own) >= Newest(cur, n, id, scope, own)
    decreases m
  {
    if n < m {
      NewestBelow(cur, n, m - 1, id, scope, own);
    }
  }

  lemma SeenStep(hash: Hasher, cur: Log, n: nat, id: Bytes, scope: Bytes, own: bool)
    requires Lawful(cur) && n <= |cur|
    ensures var j := Last(hash, cur, n, Bucket(hash, id));
      if j < 0 then Seen(cur, 0, id, scope, own) == Seen(cur, n, id, scope, own)
      else
        var matches := cur[j].rec.id == id && (cur[j].rec.scope == scope) == own;
        Seen(cur, j, id, scope, own) ==
          if matches && Seen(cur, n, id, scope, own).None? then Remark(cur, j) else Seen(cur, n, id, scope, own)
  {
    hide Lawful, Index, Last, Recorded;
    ChainSkipsNothing(hash, cur, n, id, scope, own);
    NewestBelow(cur, n, |cur|, id, scope, own);
    var i := Newest(cur, |cur|, id, scope, own);
    if i >= 0 {
      var r := RecordedFields(cur, i);
    }
    var j := Last(hash, cur, n, Bucket(hash, id));
    if j >= 0 {
      NewestBelow(cur, j, j + 1, id, scope, own);
    }
  }

  // A whole walk looks its key up in the plain map.
  lemma SeenIsMapLookup(cur: Log, id: Bytes, scope: Bytes)
    requires Lawful(cur)
    ensures var seen := Seen(cur, 0, id, scope, true); var k := Key(scope, id);
      && (seen.Some? <==> k in Index(cur))
      && (seen.Some? ==> seen.value == (scope, Index(cur)[k]))
  {
    hide Lawful, Index;
    var i := Newest(cur, |cur|, id, scope, true);
    forall j | i < j < |cur|
      ensures KeyOf(cur[j]) != Key(scope, id)
    {
      if cur[j].rec.id == id { NewestIsNewest(cur, |cur|, id, scope, true, j); }
    }
    assert cur[..|cur|] == cur;
    if i == |cur| - 1 {
      assert cur[..i + 1] == cur;
    } else {
      EntryOfNewest(cur, |cur|, i, Key(scope, id));
    }
    if i >= 0 {
      var r := RecordedFields(cur, i);
    } else {
      assert Index(cur[..0]) == map[] by { EmptyIndex(); assert cur[..0] == []; }
    }
  }

  lemma EmptyIndex()
    ensures Index([]) == map[]
  {
  }

  // A foreign report is a true entry of another branch, and is missing only
  // when no other branch ever used the id.
  lemma SeenForeignIsMapEntry(cur: Log, id: Bytes, scope: Bytes)
    requires Lawful(cur)
    ensures var seen := Seen(cur, 0, id, scope, false);
      && (seen.Some? ==> seen.value.0 != scope && Key(seen.value.0, id) in Index(cur) && Index(cur)[Key(seen.value.0, id)] == seen.value.1)
      && (seen.None? ==> forall other: Bytes :: other != scope ==> Key(other, id) !in Index(cur))
  {
    hide Lawful, Index;
    var i := Newest(cur, |cur|, id, scope, false);
    assert cur[..|cur|] == cur;
    if i >= 0 {
      var branch := cur[i].rec.scope;
      forall j | i < j < |cur|
        ensures KeyOf(cur[j]) != Key(branch, id)
      {
        if cur[j].rec.id == id { NewestIsNewest(cur, |cur|, id, scope, false, j); }
      }
      if i == |cur| - 1 {
        assert cur[..i + 1] == cur;
      } else {
        EntryOfNewest(cur, |cur|, i, Key(branch, id));
      }
      var r := RecordedFields(cur, i);
    } else {
      forall other: Bytes | other != scope
        ensures Key(other, id) !in Index(cur)
      {
        if Key(other, id) in Index(cur) {
          var r := ReservationOf(cur, |cur|, Key(other, id));
          NewestIsNewest(cur, |cur|, id, scope, false, r);
        }
      }
    }
  }
}
