// The on-disk record format of runtime/request_journal.hpp: a packed 72-byte
// little-endian header followed by scope, request id and body.
module JournalFormat {
  type Byte = x: int | 0 <= x < 256
  type Bytes = seq<Byte>
  type U64 = x: int | 0 <= x < 0x1_0000_0000_0000_0000
  // The checksum is a parameter: no result below needs it to be collision free.
  type Hasher = Bytes -> U64

  const START: nat := 64
  const HEADER_BYTES: nat := 72
  const BUCKETS: nat := 65536
  const MAX_BODY: nat := 4 * 1024 * 1024
  const MAX_SCOPE: nat := 64
  const MAX_ID: nat := 256
  const RESERVE_BIT: nat := 0x8000_0000_0000_0000
  const RESERVATION: nat := 1
  const COMPLETION: nat := 2
  const CLOSING_RESERVATION: nat := 3

  datatype Option<+T> = None | Some(value: T)

  // One journal record as a value. `next` is the older record of the same
  // bucket, `request` the reservation a completion answers.
  datatype Record = Record(next: U64, request: U64, epoch: U64, kind: nat,
                           scope: Bytes, id: Bytes, body: Bytes)

  // Header fields before the checksum, in file order.
  datatype Header = Header(next: nat, request: nat, epoch: nat, bodyHash: nat, idHash: nat, scopeHash: nat,
                           kind: nat, idBytes: nat, bodyBytes: nat, scopeBytes: nat)

  predicate IsKind(kind: nat) {
    kind == RESERVATION || kind == COMPLETION || kind == CLOSING_RESERVATION
  }

  predicate WellFormed(r: Record) {
    && IsKind(r.kind)
    && 0 < |r.id| <= MAX_ID
    && |r.body| <= MAX_BODY
    && |r.scope| <= MAX_SCOPE
  }

  // ---- little-endian integers -------------------------------------------------

  function Pow256(width: nat): nat {
    if width == 0 then 1 else 256 * Pow256(width - 1)
  }

  function LittleEndian(n: nat, width: nat): (r: Bytes)
    ensures |r| == width
  {
    if width == 0 then [] else [n % 256] + LittleEndian(n / 256, width - 1)
  }

  function FromLittleEndian(s: Bytes): (n: nat)
    ensures n < Pow256(|s|)
  {
    if s == [] then 0 else s[0] + 256 * FromLittleEndian(s[1..])
  }

  lemma {:induction false} LittleEndianRoundTrip(n: nat, width: nat)
    requires n < Pow256(width)
    ensures FromLittleEndian(LittleEndian(n, width)) == n
  {
    if width > 0 {
      LittleEndianRoundTrip(n / 256, width - 1);
      assert LittleEndian(n, width)[1..] == LittleEndian(n / 256, width - 1);
    }
  }

  lemma Pow256Values()
    ensures Pow256(4) == 0x1_0000_0000 && Pow256(8) == 0x1_0000_0000_0000_0000
  {
    assert Pow256(4) == 256 * (256 * (256 * (256 * Pow256(0))));
    assert Pow256(8) == 256 * (256 * (256 * (256 * Pow256(4))));
  }

  // ---- packed field lists -----------------------------------------------------

  // Six 64-bit fields and four 32-bit ones.
  function Repeat(count: nat, width: nat): (r: seq<nat>)
    ensures |r| == count && forall i :: 0 <= i < count ==> r[i] == width
  {
    seq(count, _ => width)
  }

  const WIDTHS: seq<nat> := Repeat(6, 8) + Repeat(4, 4)

  function Sum(widths: seq<nat>): nat {
    if widths == [] then 0 else widths[0] + Sum(widths[1..])
  }

  function Pack(fields: seq<nat>, widths: seq<nat>): (r: Bytes)
    requires |fields| == |widths|
    ensures |r| == Sum(widths)
  {
    if fields == [] then [] else LittleEndian(fields[0], widths[0]) + Pack(fields[1..], widths[1..])
  }

  function Unpack(s: Bytes, widths: seq<nat>): (r: seq<nat>)
    requires |s| == Sum(widths)
    ensures |r| == |widths|
    ensures forall i :: 0 <= i < |r| ==> r[i] < Pow256(widths[i])
  {
    if widths == [] then []
    else [FromLittleEndian(s[..widths[0]])] + Unpack(s[widths[0]..], widths[1..])
  }

  lemma {:induction false} UnpackUndoesPack(fields: seq<nat>, widths: seq<nat>)
    requires |fields| == |widths|
    requires forall i :: 0 <= i < |fields| ==> fields[i] < Pow256(widths[i])
    ensures Unpack(Pack(fields, widths), widths) == fields
  {
    if fields != [] {
      var head := LittleEndian(fields[0], widths[0]);
      var tail := Pack(fields[1..], widths[1..]);
      assert (head + tail)[..widths[0]] == head && (head + tail)[widths[0]..] == tail;
      LittleEndianRoundTrip(fields[0], widths[0]);
      UnpackUndoesPack(fields[1..], widths[1..]);
    }
  }

  // ---- headers ----------------------------------------------------------------

  function Fields(h: Header): (r: seq<nat>)
    ensures |r| == 10
  {
    [h.next, h.request, h.epoch, h.bodyHash, h.idHash, h.scopeHash, h.kind, h.idBytes, h.bodyBytes, h.scopeBytes]
  }

  function FromFields(f: seq<nat>): Header
    requires |f| == 10
  {
    Header(f[0], f[1], f[2], f[3], f[4], f[5], f[6], f[7], f[8], f[9])
  }

  lemma {:induction false} SumOfEqual(count: nat, width: nat)
    ensures Sum(Repeat(count, width)) == count * width
  {
    if count > 0 {
      assert Repeat(count, width)[1..] == Repeat(count - 1, width);
      SumOfEqual(count - 1, width);
    }
  }

  lemma {:induction false} SumConcat(a: seq<nat>, b: seq<nat>)
    ensures Sum(a + b) == Sum(a) + Sum(b)
  {
    if a == [] {
      assert a + b == b;
    } else {
      assert (a + b)[1..] == a[1..] + b;
      SumConcat(a[1..], b);
    }
  }

  lemma WidthsTotal()
    ensures |WIDTHS| == 10 && Sum(WIDTHS) == 64
  {
    SumOfEqual(6, 8);
    SumOfEqual(4, 4);
    SumConcat(Repeat(6, 8), Repeat(4, 4));
  }

  function HeaderOf(hash: Hasher, r: Record): Header {
    Header(r.next, r.request, r.epoch, hash(r.body), hash(r.id), hash(r.scope), r.kind, |r.id|, |r.body|, |r.scope|)
  }

  function PackHeader(h: Header): (s: Bytes)
    ensures |s| == 64
  {
    WidthsTotal();
    Pack(Fields(h), WIDTHS)
  }

  // The 72 header bytes: ten packed fields and their checksum.
  function HeaderBytes(hash: Hasher, r: Record): (s: Bytes)
    ensures |s| == HEADER_BYTES
  {
    var fields := PackHeader(HeaderOf(hash, r));
    fields + LittleEndian(hash(fields), 8)
  }

  function ParseHeader(s: Bytes): (h: Header)
    requires |s| == HEADER_BYTES
    ensures h.next < 0x1_0000_0000_0000_0000 && h.request < 0x1_0000_0000_0000_0000 && h.epoch < 0x1_0000_0000_0000_0000
  {
    WidthsTotal();
    Pow256Values();
    FromFields(Unpack(s[..64], WIDTHS))
  }

  predicate HeaderValid(hash: Hasher, s: Bytes, remaining: int)
    requires |s| == HEADER_BYTES
  {
    var h := ParseHeader(s);
    && FromLittleEndian(s[64..]) == hash(s[..64])
    && IsKind(h.kind)
    && 0 < h.idBytes <= MAX_ID
    && h.bodyBytes <= MAX_BODY
    && h.scopeBytes <= MAX_SCOPE
    && HEADER_BYTES + h.scopeBytes + h.idBytes + h.bodyBytes <= remaining
  }

  lemma ParseUndoesPrintHeader(hash: Hasher, r: Record)
    requires WellFormed(r)
    ensures ParseHeader(HeaderBytes(hash, r)) == HeaderOf(hash, r)
    ensures forall remaining :: HeaderValid(hash, HeaderBytes(hash, r), remaining) <==> Size(r) <= remaining
  {
    WidthsTotal();
    Pow256Values();
    var fields := Fields(HeaderOf(hash, r));
    assert forall i :: 0 <= i < 10 ==> fields[i] < Pow256(WIDTHS[i]);
    UnpackUndoesPack(fields, WIDTHS);
    var packed := PackHeader(HeaderOf(hash, r));
    assert HeaderBytes(hash, r)[..64] == packed;
    assert HeaderBytes(hash, r)[64..] == LittleEndian(hash(packed), 8);
    LittleEndianRoundTrip(hash(packed), 8);
  }

  // ---- whole records ----------------------------------------------------------

  function Size(r: Record): nat {
    HEADER_BYTES + |r.scope| + |r.id| + |r.body|
  }

  function Encode(hash: Hasher, r: Record): (s: Bytes)
    ensures |s| == Size(r)
  {
    HeaderBytes(hash, r) + r.scope + r.id + r.body
  }

  // One validated record of an adopted file, or None at the first byte that no
  // longer starts a complete record.
  function RecordAt(hash: Hasher, file: Bytes, at: nat, end: nat): Option<Record>
    requires at <= end <= |file|
  {
    if end - at < HEADER_BYTES then None
    else
      var head := file[at..at + HEADER_BYTES];
      if !HeaderValid(hash, head, end - at) then None
      else
        var h := ParseHeader(head);
        var scopeAt := at + HEADER_BYTES;
        var idAt := scopeAt + h.scopeBytes;
        var bodyAt := idAt + h.idBytes;
        var scope := file[scopeAt..idAt];
        var id := file[idAt..bodyAt];
        var body := file[bodyAt..bodyAt + h.bodyBytes];
        if hash(scope) != h.scopeHash || hash(id) != h.idHash || hash(body) != h.bodyHash then None
        else Some(Record(h.next, h.request, h.epoch, h.kind, scope, id, body))
  }

  lemma EncodedParts(hash: Hasher, r: Record)
    ensures var s := Encode(hash, r);
      var scopeAt, idAt := HEADER_BYTES, HEADER_BYTES + |r.scope|;
      && s[..HEADER_BYTES] == HeaderBytes(hash, r)
      && s[scopeAt..idAt] == r.scope
      && s[idAt..idAt + |r.id|] == r.id
      && s[idAt + |r.id|..] == r.body
  {
  }

  lemma SliceOfSlice(s: Bytes, at: nat, n: nat, i: nat, j: nat)
    requires at + n <= |s| && i <= j <= n
    ensures s[at..at + n][i..j] == s[at + i..at + j]
  {
    var inner := s[at..at + n];
    assert forall k :: i <= k < j ==> inner[k] == s[at + k];
    assert inner[i..j] == s[at + i..at + j];
  }

  // A stored record is read back exactly, whatever follows it in the file.
  lemma ParserUndoesPrinter(hash: Hasher, file: Bytes, at: nat, end: nat, r: Record)
    requires WellFormed(r) && at + Size(r) <= end <= |file|
    requires file[at..at + Size(r)] == Encode(hash, r)
    ensures RecordAt(hash, file, at, end) == Some(r)
  {
    EncodedParts(hash, r);
    ParseUndoesPrintHeader(hash, r);
    var n, idAt := Size(r), HEADER_BYTES + |r.scope|;
    SliceOfSlice(file, at, n, 0, HEADER_BYTES);
    SliceOfSlice(file, at, n, HEADER_BYTES, idAt);
    SliceOfSlice(file, at, n, idAt, idAt + |r.id|);
    SliceOfSlice(file, at, n, idAt + |r.id|, n);
  }

  // ---- the bytes of a record ----------------------------------------------------

  lemma DivideTwice(n: nat, p: nat)
    requires p > 0
    ensures n / 256 / p == n / (256 * p)
  {
    var q, r := n / 256 / p, n / 256 % p;
    assert n == 256 * (n / 256) + n % 256 && n / 256 == p * q + r;
    assert n == (256 * p) * q + (256 * r + n % 256) by { assert 256 * (p * q) == (256 * p) * q; }
    assert 256 * r + n % 256 < 256 * p by { assert r <= p - 1; }
    QuotientIs(n, 256 * p, q, 256 * r + n % 256);
  }

  lemma QuotientIs(n: nat, d: nat, q: nat, r: nat)
    requires d > 0 && n == d * q + r && r < d
    ensures n / d == q
  {
    var k := n / d - q;
    assert n == d * (n / d) + n % d;
    assert d * k == r - n % d;
  }

  // The lowest byte comes first.
  lemma {:induction false} LittleEndianByte(n: nat, width: nat, k: nat)
    requires k < width
    ensures Pow256(k) > 0 && LittleEndian(n, width)[k] == n / Pow256(k) % 256
  {
    if k > 0 {
      LittleEndianByte(n / 256, width - 1, k - 1);
      DivideTwice(n, Pow256(k - 1));
    }
  }

  lemma {:induction false} PackedAt(fields: seq<nat>, widths: seq<nat>, i: nat)
    requires |fields| == |widths| && i < |fields|
    ensures var at := Sum(widths[..i]); at + widths[i] <= Sum(widths) && Pack(fields, widths)[at..at + widths[i]] == LittleEndian(fields[i], widths[i])
  {
    var head, tail := LittleEndian(fields[0], widths[0]), Pack(fields[1..], widths[1..]);
    if i == 0 {
      assert (head + tail)[..widths[0]] == head;
    } else {
      PackedAt(fields[1..], widths[1..], i - 1);
      assert widths[..i][1..] == widths[1..][..i - 1];
      var at := Sum(widths[1..][..i - 1]);
      assert (head + tail)[widths[0] + at..widths[0] + at + widths[i]] == tail[at..at + widths[i]];
    }
  }

  lemma FieldStarts(i: nat)
    requires i < 10
    ensures |WIDTHS| == 10 && WIDTHS[i] == (if i < 6 then 8 else 4)
    ensures Sum(WIDTHS[..i]) == if i < 6 then 8 * i else 48 + 4 * (i - 6)
  {
    if i <= 6 {
      assert WIDTHS[..i] == Repeat(i, 8);
      SumOfEqual(i, 8);
    } else {
      assert WIDTHS[..i] == Repeat(6, 8) + Repeat(i - 6, 4);
      SumConcat(Repeat(6, 8), Repeat(i - 6, 4));
      SumOfEqual(6, 8);
      SumOfEqual(i - 6, 4);
    }
  }

  // Where each part of a record stands.
  lemma Layout(hash: Hasher, r: Record)
    ensures var s := Encode(hash, r);
      && s[0..8] == LittleEndian(r.next, 8) && s[8..16] == LittleEndian(r.request, 8) && s[16..24] == LittleEndian(r.epoch, 8)
      && s[24..32] == LittleEndian(hash(r.body), 8) && s[32..40] == LittleEndian(hash(r.id), 8) && s[40..48] == LittleEndian(hash(r.scope), 8)
      && s[48..52] == LittleEndian(r.kind, 4) && s[52..56] == LittleEndian(|r.id|, 4)
      && s[56..60] == LittleEndian(|r.body|, 4) && s[60..64] == LittleEndian(|r.scope|, 4)
      && s[64..72] == LittleEndian(hash(s[..64]), 8) && s[72..] == r.scope + r.id + r.body
  {
    var s, h := Encode(hash, r), HeaderOf(hash, r);
    assert s[..64] == PackHeader(h) && s[64..72] == LittleEndian(hash(s[..64]), 8) && s[72..] == r.scope + r.id + r.body;
    hide LittleEndian, Encode, PackHeader;
    HeaderLayout(h);
    Within(s, 0, 8);
    Within(s, 8, 16);
    Within(s, 16, 24);
    Within(s, 24, 32);
    Within(s, 32, 40);
    Within(s, 40, 48);
    Within(s, 48, 52);
    Within(s, 52, 56);
    Within(s, 56, 60);
    Within(s, 60, 64);
  }

  lemma Within(s: Bytes, i: nat, j: nat)
    requires i <= j <= 64 <= |s|
    ensures s[..64][i..j] == s[i..j]
  {
  }

  lemma HeaderLayout(h: Header)
    ensures var s := PackHeader(h);
      && s[0..8] == LittleEndian(h.next, 8) && s[8..16] == LittleEndian(h.request, 8) && s[16..24] == LittleEndian(h.epoch, 8)
      && s[24..32] == LittleEndian(h.bodyHash, 8) && s[32..40] == LittleEndian(h.idHash, 8) && s[40..48] == LittleEndian(h.scopeHash, 8)
      && s[48..52] == LittleEndian(h.kind, 4) && s[52..56] == LittleEndian(h.idBytes, 4)
      && s[56..60] == LittleEndian(h.bodyBytes, 4) && s[60..64] == LittleEndian(h.scopeBytes, 4)
  {
    hide LittleEndian, PackHeader;
    FieldAt(h, 0);
    FieldAt(h, 1);
    FieldAt(h, 2);
    FieldAt(h, 3);
    FieldAt(h, 4);
    FieldAt(h, 5);
    FieldAt(h, 6);
    FieldAt(h, 7);
    FieldAt(h, 8);
    FieldAt(h, 9);
  }

  lemma FieldAt(h: Header, i: nat)
    requires i < 10
    ensures var at, width := if i < 6 then 8 * i else 48 + 4 * (i - 6), if i < 6 then 8 else 4;
      PackHeader(h)[at..at + width] == LittleEndian(Fields(h)[i], width)
  {
    WidthsTotal();
    PackedAt(Fields(h), WIDTHS, i);
    FieldStarts(i);
  }

  lemma {:induction false} BytesOfNumber(s: Bytes)
    ensures LittleEndian(FromLittleEndian(s), |s|) == s
  {
    if s != [] { BytesOfNumber(s[1..]); }
  }

  lemma {:induction false} PackUndoesUnpack(s: Bytes, widths: seq<nat>)
    requires |s| == Sum(widths)
    ensures Pack(Unpack(s, widths), widths) == s
  {
    if widths != [] {
      var w := widths[0];
      BytesOfNumber(s[..w]);
      PackUndoesUnpack(s[w..], widths[1..]);
      assert s == s[..w] + s[w..];
    }
  }

  // Whatever is read as a record is one: its bytes stand in the file.
  lemma PrinterUndoesParser(hash: Hasher, file: Bytes, at: nat, end: nat)
    requires at <= end <= |file| && RecordAt(hash, file, at, end).Some?
    ensures var r := RecordAt(hash, file, at, end).value;
      WellFormed(r) && at + Size(r) <= end && file[at..at + Size(r)] == Encode(hash, r)
  {
    var r := RecordAt(hash, file, at, end).value;
    var head := file[at..at + HEADER_BYTES];
    var h := ParseHeader(head);
    assert h == HeaderOf(hash, r);
    HeaderIsPrinted(hash, head);
    assert HeaderBytes(hash, r) == head;
    var scopeAt := at + HEADER_BYTES;
    var idAt := scopeAt + |r.scope|;
    var bodyAt := idAt + |r.id|;
    assert r.scope == file[scopeAt..idAt] && r.id == file[idAt..bodyAt] && r.body == file[bodyAt..bodyAt + |r.body|];
    hide HeaderBytes, HeaderValid, ParseHeader, RecordAt;
    FourSlices(file, at, scopeAt, idAt, bodyAt, bodyAt + |r.body|);
  }

  lemma FourSlices(s: Bytes, a: nat, b: nat, c: nat, d: nat, e: nat)
    requires a <= b <= c <= d <= e <= |s|
    ensures s[a..b] + s[b..c] + s[c..d] + s[d..e] == s[a..e]
  {
  }

  lemma HeaderIsPrinted(hash: Hasher, head: Bytes)
    requires |head| == HEADER_BYTES && FromLittleEndian(head[64..]) == hash(head[..64])
    ensures head == PackHeader(ParseHeader(head)) + LittleEndian(hash(head[..64]), 8) && PackHeader(ParseHeader(head)) == head[..64]
  {
    WidthsTotal();
    PackUndoesUnpack(head[..64], WIDTHS);
    BytesOfNumber(head[64..]);
    assert Fields(ParseHeader(head)) == Unpack(head[..64], WIDTHS);
    assert head == head[..64] + head[64..];
  }
}
