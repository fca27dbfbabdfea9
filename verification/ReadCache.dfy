// determinism/memory.hpp: checked reads of process memory, with a cache of
// readable regions that lives as long as one snapshot.
module ReadCaches {
  const SPACE: nat := 0x1_0000_0000

  datatype Option<+T> = None | Some(value: T)

  // What VirtualQuery says about the pages around one address.
  datatype Info = Info(base: nat, size: nat, committed: bool, guarded: bool, readable: bool, writable: bool)
  datatype Region = Region(begin: nat, end: nat)

  // The memory map: None where the query fails.
  type MemoryMap = nat -> Option<Info>

  // A query describes its own address, and the same stretch of memory from every
  // address in it; only the start depends on where one asks.
  ghost predicate Consistent(m: MemoryMap) {
    forall a: nat :: a < SPACE && m(a).Some? ==>
      && m(a).value.base <= a < m(a).value.base + m(a).value.size <= SPACE
      && forall b: nat :: m(a).value.base <= b < m(a).value.base + m(a).value.size ==> SameStretch(m(a), m(b))
  }

  predicate SameStretch(x: Option<Info>, y: Option<Info>) {
    && x.Some? && y.Some?
    && y.value.(base := 0, size := 0) == x.value.(base := 0, size := 0)
    && y.value.base + y.value.size == x.value.base + x.value.size
  }

  // One stretch of pages, asked from any address in it: the answer starts at the page
  // of that address.
  function Pages(lo: nat, hi: nat, flags: Info): MemoryMap {
    a => if lo <= a < hi then Some(flags.(base := a - a % 4096, size := hi - (a - a % 4096))) else None
  }

  lemma PagesAreConsistent(lo: nat, hi: nat, flags: Info)
    requires lo % 4096 == 0 && hi <= SPACE
    ensures Consistent(Pages(lo, hi, flags))
  {
    var m := Pages(lo, hi, flags);
    forall a: nat, b: nat | a < SPACE && m(a).Some? && m(a).value.base <= b < m(a).value.base + m(a).value.size
      ensures SameStretch(m(a), m(b))
    {
      assert lo <= a - a % 4096;
    }
  }

  predicate Admits(i: Info, writable: bool) {
    i.committed && !i.guarded && i.readable && (writable ==> i.writable)
  }

  // The end of the region as a 32-bit word.
  function NextOf(i: Info): nat {
    (i.base + i.size) % SPACE
  }

  // Every address from `address` up to `limit` may be read (written).
  function Walk(m: MemoryMap, address: nat, limit: nat, writable: bool): bool
    requires limit < SPACE
    decreases if address < limit then limit - address else 0
  {
    if address >= limit then true
    else match m(address)
      case None => false
      case Some(i) => Admits(i, writable) && NextOf(i) > address && Walk(m, NextOf(i), limit, writable)
  }

  // What a checked read demands.
  predicate Demands(m: MemoryMap, address: nat, count: nat, writable: bool) {
    address != 0 && count != 0 && address + count < SPACE && Walk(m, address, address + count, writable)
  }

  method Accessible(m: MemoryMap, address: nat, count: nat, writable: bool) returns (ok: bool)
    requires address < SPACE && count < SPACE
    ensures ok == (address != 0 && count != 0 && address + count < 0x1_0000_0000 && Walk(m, address, address + count, writable))
  {
    if address == 0 || count == 0 || address > SPACE - 1 - count { return false; }
    var limit, at := address + count, address;
    while at < limit
      invariant Walk(m, address, limit, writable) == Walk(m, at, limit, writable)
      decreases limit - at
    {
      var info := m(at);
      if info.None? || !Admits(info.value, writable) { return false; }
      var next := NextOf(info.value);
      if next <= at { return false; }
      at := next;
    }
    ok := true;
  }

  // Reading is possible exactly where every single byte is.
  lemma {:induction false} WalkIsBytewise(m: MemoryMap, address: nat, limit: nat, writable: bool)
    requires Consistent(m) && limit < SPACE
    ensures Walk(m, address, limit, writable) <==>
      forall b :: address <= b < limit ==> (m(b).Some? &&
        var i := m(b).value; i.committed && !i.guarded && i.readable && (writable ==> i.writable) && i.base + i.size < 0x1_0000_0000)
    decreases if address < limit then limit - address else 0
  {
    if address < limit && m(address).Some? {
      var i := m(address).value;
      var end := i.base + i.size;
      assert SameStretch(m(address), m(address));
      if end < SPACE {
        assert NextOf(i) == end;
        WalkIsBytewise(m, end, limit, writable);
        forall b | address <= b < end
          ensures m(b).Some? && Admits(m(b).value, writable) == Admits(i, writable) && m(b).value.base + m(b).value.size < SPACE
        {
          assert SameStretch(m(address), m(b));
        }
      } else {
        assert NextOf(i) == 0;
      }
    }
  }

  // A cached region holds the whole range.
  ghost predicate Covered(regions: seq<Region>, address: nat, size: nat) {
    exists r :: r in regions && r.begin <= address && address + size <= r.end
  }

  // The one stretch of memory that holds the whole range.
  ghost function RegionAt(m: MemoryMap, address: nat, size: nat): Option<Region> {
    if m(address).Some? && m(address).value.base + m(address).value.size < 0x1_0000_0000
      && address + size <= m(address).value.base + m(address).value.size
    then Some(Region(m(address).value.base, m(address).value.base + m(address).value.size)) else None
  }

  class ReadCache {
    var regions: seq<Region>
    var depth: nat

    // Outside every scope nothing is cached; inside, every cached region lies in
    // one readable stretch.
    ghost predicate Valid(m: MemoryMap)
      reads this
    {
      && (depth == 0 ==> regions == [])
      && forall r :: r in regions ==> Trusted(m, r)
    }

    constructor ()
      ensures depth == 0 && regions == [] && forall m :: Valid(m)
    {
      regions, depth := [], 0;
    }

    method EnterScope()
      modifies this
      ensures depth == old(depth) + 1 && regions == if old(depth) == 0 then [] else old(regions)
      ensures forall m :: old(Valid(m)) ==> Valid(m)
    {
      if depth == 0 { regions := []; }
      depth := depth + 1;
    }

    method LeaveScope()
      requires depth > 0
      modifies this
      ensures depth == old(depth) - 1 && regions == if depth == 0 then [] else old(regions)
      ensures forall m :: old(Valid(m)) ==> Valid(m)
    {
      depth := depth - 1;
      if depth == 0 { regions := []; }
    }

    method Cached(address: nat, size: nat) returns (hit: bool)
      ensures hit <==> exists r :: r in regions && r.begin <= address && address + size <= r.end
    {
      for i := 0 to |regions|
        invariant forall j :: 0 <= j < i ==> !(regions[j].begin <= address && address + size <= regions[j].end)
      {
        if address >= regions[i].begin && address + size <= regions[i].end { return true; }
      }
      hit := false;
    }

    // Succeeds exactly when the plain check would, unless the cache itself cannot
    // grow. With no scope open nothing is remembered.
    method TryRead(m: MemoryMap, address: nat, size: nat) returns (ok: bool, outOfMemory: bool)
      requires Consistent(m) && Valid(m) && address < SPACE && 0 < size < SPACE
      modifies this`regions
      ensures Valid(m) && old(regions) <= regions && |regions| <= |old(regions)| + 1
      ensures !outOfMemory ==> (ok <==> address != 0 && address + size < 0x1_0000_0000 && Walk(m, address, address + size, false))
      ensures regions == if depth > 0 && !outOfMemory && !Covered(old(regions), address, size) && ok && RegionAt(m, address, size).Some?
                         then old(regions) + [RegionAt(m, address, size).value] else old(regions)
      ensures outOfMemory ==> !Covered(regions, address, size) && RegionAt(m, address, size).Some?
      ensures outOfMemory ==> !ok && depth > 0 && address != 0 && address + size < 0x1_0000_0000 && Walk(m, address, address + size, false)
    {
      outOfMemory := false;
      var valid := false;
      if depth > 0 && address != 0 && address <= SPACE - 1 - size {
        valid := Cached(address, size);
        if valid {
          ghost var r :| r in regions && r.begin <= address && address + size <= r.end;
          TrustedIsAccessible(m, r, address, size);
        } else {
          var info := m(address);
          if info.Some? {
            var region := Region(info.value.base, NextOf(info.value));
            var readable := Accessible(m, address, size, false);
            if region.end > region.begin && address + size <= region.end && readable {
              outOfMemory := *;
              if outOfMemory { return false, true; }
              QueriedIsTrusted(m, address, size);
              regions, valid := regions + [region], true;
            }
          }
        }
      }
      if !valid { valid := Accessible(m, address, size, false); }
      ok := valid;
    }
  }

  ghost predicate Trusted(m: MemoryMap, r: Region) {
    && r.begin < r.end < SPACE
    && forall b :: r.begin <= b < r.end ==> m(b).Some? && Admits(m(b).value, false) && m(b).value.base + m(b).value.size < SPACE
  }

  lemma TrustedIsAccessible(m: MemoryMap, r: Region, address: nat, size: nat)
    requires Consistent(m) && Trusted(m, r) && r.begin <= address && address + size <= r.end && address != 0 && size != 0
    ensures Demands(m, address, size, false)
  {
    WalkIsBytewise(m, address, address + size, false);
  }

  lemma QueriedIsTrusted(m: MemoryMap, address: nat, size: nat)
    requires Consistent(m) && Demands(m, address, size, false) && m(address).Some?
    requires NextOf(m(address).value) > m(address).value.base
    ensures Trusted(m, Region(m(address).value.base, NextOf(m(address).value)))
  {
    var i := m(address).value;
    assert i.base + i.size <= SPACE && NextOf(i) == i.base + i.size;
    forall b | i.base <= b < i.base + i.size
      ensures m(b).Some? && Admits(m(b).value, false) && m(b).value.base + m(b).value.size < SPACE
    {
      assert SameStretch(m(address), m(b));
    }
  }
}
