// determinism/reanimation_audit.cpp: the links of one captured state, in anchor
// order, and the comparable state that holds references in their place.
module ReanimationBindings {
  import opened JsonPointers
  import opened Reanimations

  // One pool entry: `links` are its animation handles by role, `rest` everything
  // that is compared as it is.
  datatype Owner<H> = Owner(id: nat, dead: bool, squished: bool, zombieType: nat, hasObject: nat, links: map<string, H>, rest: Json)
  datatype OwnerState<H> = OwnerState(pools: map<string, map<nat, Owner<H>>>, fwoosh: map<nat, H>, rest: Json)

  datatype Loc = OwnerLink(pool: string, slot: nat, role: string) | Fwoosh(index: nat)

  function RolesOf(pool: string): set<string> {
    if pool == "zombies" then {"body", "boss_fireball", "special_head", "mowered"}
    else if pool == "plants" then {"body", "head", "head2", "head3", "blink", "light", "sleeping"}
    else if pool == "mowers" || pool == "grid_items" then {"body"}
    else {}
  }

  // ---- anchors -------------------------------------------------------------------------

  function HexDigit(d: nat): char
    requires d < 16
  {
    if d < 10 then ('0' as int + d) as char else ('a' as int + (d - 10)) as char
  }

  lemma HexDigits(d: nat)
    requires d < 16
    ensures HexDigit(d) == "0123456789abcdef"[d]
  {
  }

  function FixedHex(n: nat, size: nat): string {
    if size == 0 then "" else FixedHex(n / 16, size - 1) + [HexDigit(n % 16)]
  }

  function Power16(size: nat): nat {
    if size == 0 then 1 else 16 * Power16(size - 1)
  }

  lemma {:induction false} FixedHexIsInjective(n: nat, m: nat, size: nat)
    requires n < Power16(size) && m < Power16(size) && FixedHex(n, size) == FixedHex(m, size)
    ensures n == m
  {
    if size > 0 {
      var a, b := FixedHex(n, size), FixedHex(m, size);
      HexLength(n / 16, size - 1);
      HexLength(m / 16, size - 1);
      assert a[..size - 1] == FixedHex(n / 16, size - 1) && b[..size - 1] == FixedHex(m / 16, size - 1);
      assert a[size - 1] == HexDigit(n % 16) && b[size - 1] == HexDigit(m % 16);
      FixedHexIsInjective(n / 16, m / 16, size - 1);
    }
  }

  lemma {:induction false} HexLength(n: nat, size: nat)
    ensures |FixedHex(n, size)| == size && '/' !in FixedHex(n, size)
  {
    if size > 0 { HexLength(n / 16, size - 1); }
  }

  function Hex(n: nat): string {
    FixedHex(n, 8)
  }

  function OwnerAnchor(pool: string, id: nat, role: string): string {
    pool + "/" + (Hex(id) + "/" + role)
  }

  function FwooshAnchor(index: nat): string {
    "board" + "/" + ("fwoosh" + "/" + Decimal(index))
  }

  lemma {:induction false} DecimalHasNoSlash(n: nat)
    ensures '/' !in Decimal(n)
  {
    if n >= 10 { DecimalHasNoSlash(n / 10); }
  }

  lemma ThreeParts(a: string, b: string, c: string)
    requires '/' !in a && '/' !in b && '/' !in c
    ensures Split(a + "/" + (b + "/" + c)) == [a, b, c]
  {
    hide Split;
    SplitAtSlash(a, b + "/" + c);
    SplitAtSlash(b, c);
    SplitAtSlash(c, "");
  }

  lemma OwnerAnchorIsInjective(p: string, i: nat, r: string, q: string, j: nat, s: string)
    requires r in RolesOf(p) && s in RolesOf(q) && i < 0x1_0000_0000 && j < 0x1_0000_0000
    requires OwnerAnchor(p, i, r) == OwnerAnchor(q, j, s)
    ensures p == q && i == j && r == s
  {
    hide FixedHex, Split;
    HexLength(i, 8);
    HexLength(j, 8);
    PlainNames(p, r);
    PlainNames(q, s);
    ThreeParts(p, Hex(i), r);
    ThreeParts(q, Hex(j), s);
    assert [p, Hex(i), r] == [q, Hex(j), s];
    assert Hex(i) == [p, Hex(i), r][1] && Hex(j) == [q, Hex(j), s][1];
    assert r == [p, Hex(i), r][2] && p == [p, Hex(i), r][0];
    EightDigits();
    FixedHexIsInjective(i, j, 8);
  }

  lemma EightDigits()
    ensures Power16(8) == 0x1_0000_0000
  {
    assert Power16(4) == 0x10000;
    assert Power16(8) == 16 * (16 * (16 * (16 * Power16(4))));
  }

  lemma PlainNames(pool: string, role: string)
    requires role in RolesOf(pool)
    ensures '/' !in pool && '/' !in role && pool != "board"
  {
  }

  lemma FwooshIsApart(p: string, i: nat, r: string, index: nat)
    requires r in RolesOf(p)
    ensures OwnerAnchor(p, i, r) != FwooshAnchor(index)
  {
    hide FixedHex, Split, Decimal;
    HexLength(i, 8);
    PlainNames(p, r);
    DecimalHasNoSlash(index);
    ThreeParts(p, Hex(i), r);
    ThreeParts("board", "fwoosh", Decimal(index));
    assert [p, Hex(i), r][0] != ["board", "fwoosh", Decimal(index)][0];
  }

  lemma FwooshIsInjective(i: nat, j: nat)
    requires FwooshAnchor(i) == FwooshAnchor(j)
    ensures i == j
  {
    hide Split, Decimal;
    DecimalHasNoSlash(i);
    DecimalHasNoSlash(j);
    ThreeParts("board", "fwoosh", Decimal(i));
    ThreeParts("board", "fwoosh", Decimal(j));
    assert ["board", "fwoosh", Decimal(i)][2] == ["board", "fwoosh", Decimal(j)][2];
    IndexRoundTrip(i);
    IndexRoundTrip(j);
  }

  // A name as it is written: its anchor and the number of the lifetime.
  function Text(name: Name): string {
    name.anchor + "#" + Decimal(name.lifetime)
  }

  // Different lifetimes are written differently, whatever the anchors hold.
  lemma TextIsInjective(n: Name, m: Name)
    requires Text(n) == Text(m)
    ensures n == m
  {
    hide Decimal;
    var d, e, text := Decimal(n.lifetime), Decimal(m.lifetime), Text(n);
    DecimalHasNoHash(n.lifetime);
    DecimalHasNoHash(m.lifetime);
    var i, j := |n.anchor|, |m.anchor|;
    assert text[i] == '#' && text[j] == '#';
    LastHash(n.anchor, d);
    LastHash(m.anchor, e);
    assert i == j;
    assert text[i + 1..] == d && text[j + 1..] == e && text[..i] == n.anchor && text[..j] == m.anchor;
    IndexRoundTrip(n.lifetime);
    IndexRoundTrip(m.lifetime);
  }

  lemma LastHash(a: string, d: string)
    requires '#' !in d
    ensures forall k :: |a| < k < |a + "#" + d| ==> (a + "#" + d)[k] != '#'
  {
    var text := a + "#" + d;
    assert forall k :: |a| < k < |text| ==> text[k] == d[k - |a| - 1];
  }

  lemma {:induction false} DecimalHasNoHash(n: nat)
    ensures '#' !in Decimal(n)
  {
    if n >= 10 { DecimalHasNoHash(n / 10); }
  }

  // ---- the links of a state --------------------------------------------------------------

  predicate IsLink<H>(state: OwnerState<H>, loc: Loc) {
    match loc
    case OwnerLink(pool, slot, role) =>
      pool in state.pools && slot in state.pools[pool] && role in state.pools[pool][slot].links && role in RolesOf(pool)
    case Fwoosh(index) => index in state.fwoosh && index < 72
  }

  function AnchorOf<H>(state: OwnerState<H>, loc: Loc): string
    requires IsLink(state, loc)
  {
    match loc
    case OwnerLink(pool, slot, role) => OwnerAnchor(pool, state.pools[pool][slot].id, role)
    case Fwoosh(index) => FwooshAnchor(index)
  }

  function BindingAt(state: OwnerState<nat>, loc: Loc): Binding
    requires IsLink(state, loc)
  {
    match loc
    case Fwoosh(index) => Binding(FwooshAnchor(index), state.fwoosh[index], false, false, false, 0, false)
    case OwnerLink(pool, slot, role) =>
      var o, special := state.pools[pool][slot], pool == "zombies" && role == "special_head";
      Binding(OwnerAnchor(pool, o.id, role), o.links[role], o.dead, pool == "plants" && o.squished, special,
              if special then o.zombieType else 0, special && o.hasObject != 0)
  }

  // What the capture refuses: an owner whose id is free or names another slot, and
  // a zombie's flag byte above one.
  predicate OwnerOk<H>(pool: string, slot: nat, o: Owner<H>) {
    && o.id < 0x1_0000_0000 && o.id / 0x10000 != 0 && o.id % 0x10000 == slot
    && (pool == "zombies" && "special_head" in o.links ==> o.hasObject <= 1)
  }

  predicate StateOk<H>(state: OwnerState<H>) {
    forall pool, slot :: pool in state.pools && slot in state.pools[pool] && RolesOf(pool) != {} ==> OwnerOk(pool, slot, state.pools[pool][slot])
  }

  // No two links share an anchor.
  lemma AnchorsAreUnique<H>(state: OwnerState<H>, a: Loc, b: Loc)
    requires StateOk(state) && IsLink(state, a) && IsLink(state, b) && AnchorOf(state, a) == AnchorOf(state, b)
    ensures a == b
  {
    hide OwnerAnchor, FwooshAnchor, RolesOf;
    match (a, b)
    case (OwnerLink(p, s, r), OwnerLink(q, t, u)) =>
      OwnerAnchorIsInjective(p, state.pools[p][s].id, r, q, state.pools[q][t].id, u);
    case (Fwoosh(i), Fwoosh(j)) => FwooshIsInjective(i, j);
    case (OwnerLink(p, s, r), Fwoosh(j)) => FwooshIsApart(p, state.pools[p][s].id, r, j);
    case (Fwoosh(i), OwnerLink(q, t, u)) => FwooshIsApart(q, state.pools[q][t].id, u, i);
  }

  // ---- anchor order ------------------------------------------------------------------------

  predicate Less(a: string, b: string) {
    b != "" && (a == "" || a[0] < b[0] || (a[0] == b[0] && Less(a[1..], b[1..])))
  }

  lemma {:induction false} LessIsTransitive(a: string, b: string, c: string)
    requires Less(a, b) && Less(b, c)
    ensures Less(a, c)
  {
    if a != "" && a[0] == b[0] && b[0] == c[0] { LessIsTransitive(a[1..], b[1..], c[1..]); }
  }

  lemma {:induction false} LessIsTotal(a: string, b: string)
    ensures Less(a, b) || Less(b, a) || a == b
    ensures !(Less(a, b) && Less(b, a)) && !Less(a, a)
  {
    if a != "" && b != "" {
      LessIsTotal(a[1..], b[1..]);
      assert a == [a[0]] + a[1..] && b == [b[0]] + b[1..];
    }
    if a != "" { NotBelowItself(a); }
  }

  lemma {:induction false} NotBelowItself(a: string)
    ensures !Less(a, a)
  {
    if a != "" { NotBelowItself(a[1..]); }
  }

  // The links in anchor order, each once.
  ghost predicate InOrder<H>(state: OwnerState<H>, locs: seq<Loc>) {
    && (forall i :: 0 <= i < |locs| ==> IsLink(state, locs[i]))
    && (forall i, j :: 0 <= i < j < |locs| ==> Less(AnchorOf(state, locs[i]), AnchorOf(state, locs[j])))
  }

  ghost predicate AllLinks<H>(state: OwnerState<H>, locs: seq<Loc>) {
    forall loc :: IsLink(state, loc) ==> loc in locs
  }

  // There is only one such order.
  lemma {:induction false} OrderIsUnique<H, G>(a: OwnerState<H>, b: OwnerState<G>, s: seq<Loc>, t: seq<Loc>)
    requires InOrder(a, s) && InOrder(b, t)
    requires forall loc :: loc in s <==> loc in t
    requires forall loc :: loc in s ==> IsLink(a, loc) && IsLink(b, loc) && AnchorOf(a, loc) == AnchorOf(b, loc)
    ensures s == t
    decreases |s|
  {
    hide Less, AnchorOf;
    if s == [] {
      assert multiset(t) == multiset{} by { assert forall x :: x !in multiset(t); }
      assert |multiset(t)| == |t|;
    } else {
      var n, m := |s| - 1, |t| - 1;
      assert s[n] in t;
      LastIsSame(a, b, s, t);
      forall loc
        ensures loc in s[..n] <==> loc in t[..m]
      {
        NotTwice(a, s, loc);
        NotTwice(b, t, loc);
      }
      OrderIsUnique(a, b, s[..n], t[..m]);
      assert s == s[..n] + [s[n]] && t == t[..m] + [t[m]];
    }
  }

  lemma NotTwice<H>(a: OwnerState<H>, s: seq<Loc>, loc: Loc)
    requires InOrder(a, s) && s != []
    ensures loc in s[..|s| - 1] <==> loc in s && loc != s[|s| - 1]
  {
    hide Less, AnchorOf;
    if loc in s[..|s| - 1] {
      var i :| 0 <= i < |s| - 1 && s[i] == loc;
      LessIsTotal(AnchorOf(a, s[i]), AnchorOf(a, s[|s| - 1]));
    }
  }

  lemma AtMostLast<H>(a: OwnerState<H>, s: seq<Loc>, x: Loc)
    requires InOrder(a, s) && x in s
    ensures IsLink(a, x) && IsLink(a, s[|s| - 1])
    ensures x == s[|s| - 1] || Less(AnchorOf(a, x), AnchorOf(a, s[|s| - 1]))
  {
    hide Less, AnchorOf;
  }

  lemma LastIsSame<H, G>(a: OwnerState<H>, b: OwnerState<G>, s: seq<Loc>, t: seq<Loc>)
    requires InOrder(a, s) && InOrder(b, t) && s != [] && t != []
    requires forall loc :: loc in s <==> loc in t
    requires forall loc :: loc in s ==> IsLink(a, loc) && IsLink(b, loc) && AnchorOf(a, loc) == AnchorOf(b, loc)
    ensures s[|s| - 1] == t[|t| - 1]
  {
    hide Less, AnchorOf, InOrder, IsLink;
    var x, y := s[|s| - 1], t[|t| - 1];
    assert x in t && y in s;
    AtMostLast(a, s, y);
    AtMostLast(b, t, x);
    LessIsTotal(AnchorOf(a, x), AnchorOf(a, y));
  }

  // ---- collecting and sorting ----------------------------------------------------------

  predicate Once(locs: seq<Loc>) {
    forall i, j :: 0 <= i < j < |locs| ==> locs[i] != locs[j]
  }

  predicate PoolOk<H>(state: OwnerState<H>, pool: string) {
    pool in state.pools ==> forall slot :: slot in state.pools[pool] ==> OwnerOk(pool, slot, state.pools[pool][slot])
  }

  // The links of one pool, None when the capture refuses it. Slots and roles are
  // visited in any order.
  method OwnerBindings(state: OwnerState<nat>, pool: string) returns (r: Option<seq<Loc>>)
    requires RolesOf(pool) != {}
    ensures r.Some? <==> PoolOk(state, pool)
    ensures r.Some? ==> Once(r.value) && forall loc :: loc in r.value <==> loc.OwnerLink? && loc.pool == pool && IsLink(state, loc)
  {
    hide RolesOf, OwnerOk;
    var found: seq<Loc> := [];
    if pool !in state.pools { return Some(found); }
    var slots := state.pools[pool];
    var todo := slots.Keys;
    while todo != {}
      invariant todo <= slots.Keys && Once(found)
      invariant forall slot :: slot in slots && slot !in todo ==> OwnerOk(pool, slot, slots[slot])
      invariant forall loc :: loc in found <==> loc.OwnerLink? && loc.pool == pool && IsLink(state, loc) && loc.slot !in todo
    {
      var slot :| slot in todo;
      if !OwnerOk(pool, slot, slots[slot]) { return None; }
      var more := SlotLinks(state, pool, slot);
      JoinOnce(found, more);
      found, todo := found + more, todo - {slot};
    }
    r := Some(found);
  }

  method SlotLinks(state: OwnerState<nat>, pool: string, slot: nat) returns (found: seq<Loc>)
    requires pool in state.pools && slot in state.pools[pool]
    ensures Once(found) && forall loc :: loc in found <==> loc.OwnerLink? && loc.pool == pool && loc.slot == slot && IsLink(state, loc)
  {
    hide RolesOf;
    found := [];
    var todo := RolesOf(pool) * state.pools[pool][slot].links.Keys;
    while todo != {}
      invariant todo <= RolesOf(pool) * state.pools[pool][slot].links.Keys && Once(found)
      invariant forall loc :: loc in found <==> loc.OwnerLink? && loc.pool == pool && loc.slot == slot && IsLink(state, loc) && loc.role !in todo
    {
      var role :| role in todo;
      found, todo := found + [OwnerLink(pool, slot, role)], todo - {role};
    }
  }

  method FwooshLinks(state: OwnerState<nat>) returns (found: seq<Loc>)
    ensures Once(found) && forall loc :: loc in found <==> loc.Fwoosh? && IsLink(state, loc)
  {
    found := [];
    for index := 0 to 72
      invariant Once(found) && forall loc :: loc in found <==> loc.Fwoosh? && IsLink(state, loc) && loc.index < index
    {
      if index in state.fwoosh { found := found + [Fwoosh(index)]; }
    }
  }

  method SortByAnchor(state: OwnerState<nat>, locs: seq<Loc>) returns (sorted: seq<Loc>)
    requires StateOk(state) && Once(locs) && forall loc :: loc in locs ==> IsLink(state, loc)
    ensures InOrder(state, sorted) && forall loc :: loc in sorted <==> loc in locs
  {
    hide IsLink, AnchorOf, StateOk, Less;
    sorted := [];
    for i := 0 to |locs|
      invariant InOrder(state, sorted) && forall loc :: loc in sorted <==> loc in locs[..i]
    {
      assert locs[i] in locs && locs[i] !in locs[..i];
      sorted := Insert(state, sorted, locs[i]);
    }
  }

  method Insert(state: OwnerState<nat>, sorted: seq<Loc>, x: Loc) returns (r: seq<Loc>)
    requires StateOk(state) && InOrder(state, sorted) && IsLink(state, x) && x !in sorted
    ensures InOrder(state, r) && forall loc :: loc in r <==> loc in sorted || loc == x
  {
    hide IsLink, AnchorOf, StateOk, Less;
    var k := 0;
    while k < |sorted| && Less(AnchorOf(state, sorted[k]), AnchorOf(state, x))
      invariant 0 <= k <= |sorted|
      invariant forall i :: 0 <= i < k ==> Less(AnchorOf(state, sorted[i]), AnchorOf(state, x))
    {
      k := k + 1;
    }
    r := sorted[..k] + [x] + sorted[k..];
    Above(state, sorted, x, k);
    Inserted(state, sorted, x, k);
  }

  lemma Above(state: OwnerState<nat>, sorted: seq<Loc>, x: Loc, k: nat)
    requires StateOk(state) && InOrder(state, sorted) && IsLink(state, x) && x !in sorted && k <= |sorted|
    requires k < |sorted| ==> !Less(AnchorOf(state, sorted[k]), AnchorOf(state, x))
    ensures forall i :: k <= i < |sorted| ==> Less(AnchorOf(state, x), AnchorOf(state, sorted[i]))
  {
    hide IsLink, AnchorOf, StateOk, Less;
    if k < |sorted| {
      LessIsTotal(AnchorOf(state, sorted[k]), AnchorOf(state, x));
      if AnchorOf(state, sorted[k]) == AnchorOf(state, x) { AnchorsAreUnique(state, sorted[k], x); }
      forall i | k < i < |sorted|
        ensures Less(AnchorOf(state, x), AnchorOf(state, sorted[i]))
      {
        LessIsTransitive(AnchorOf(state, x), AnchorOf(state, sorted[k]), AnchorOf(state, sorted[i]));
      }
    }
  }

  lemma Inserted(state: OwnerState<nat>, sorted: seq<Loc>, x: Loc, k: nat)
    requires InOrder(state, sorted) && IsLink(state, x) && k <= |sorted|
    requires forall i :: 0 <= i < k ==> Less(AnchorOf(state, sorted[i]), AnchorOf(state, x))
    requires forall i :: k <= i < |sorted| ==> Less(AnchorOf(state, x), AnchorOf(state, sorted[i]))
    ensures var r := sorted[..k] + [x] + sorted[k..];
      InOrder(state, r) && forall loc :: loc in r <==> loc in sorted || loc == x
  {
    hide IsLink, AnchorOf, Less;
    var r := sorted[..k] + [x] + sorted[k..];
    assert forall i :: 0 <= i < |r| ==> r[i] == if i < k then sorted[i] else if i == k then x else sorted[i - 1];
    assert sorted == sorted[..k] + sorted[k..];
  }

  predicate IsPool(pool: string) {
    pool == "zombies" || pool == "plants" || pool == "mowers" || pool == "grid_items"
  }

  // What a state must meet: every owner's ID fits 32 bits, is allocated and names its
  // own slot, and a zombie with a special head has a flag byte of at most one.
  lemma StateOkMeans(state: OwnerState<nat>)
    ensures StateOk(state) <==> forall pool, slot :: pool in {"zombies", "plants", "mowers", "grid_items"} && pool in state.pools && slot in state.pools[pool] ==>
      (var o := state.pools[pool][slot];
       0x1_0000 <= o.id < 0x1_0000_0000 && o.id % 0x1_0000 == slot
       && (pool == "zombies" && "special_head" in o.links ==> o.hasObject == 0 || o.hasObject == 1))
  {
    PoolsAreThese();
    hide RolesOf;
  }

  // Every link of the state in anchor order, None for a refused state.
  method Bindings(state: OwnerState<nat>) returns (r: Option<seq<Loc>>)
    ensures r.Some? <==> StateOk(state)
    ensures r.Some? ==> InOrder(state, r.value) && AllLinks(state, r.value)
  {
    hide IsLink, OwnerOk, Less, AnchorOf;
    PoolsAreThese();
    var zombies := OwnerBindings(state, "zombies");
    var plants := OwnerBindings(state, "plants");
    var mowers := OwnerBindings(state, "mowers");
    var grid := OwnerBindings(state, "grid_items");
    hide RolesOf;
    if zombies.None? || plants.None? || mowers.None? || grid.None? { return None; }
    var fwoosh := FwooshLinks(state);
    var all := zombies.value + plants.value + mowers.value + grid.value + fwoosh;
    LinksAreInPools(state);
    assert Once(all) by { JoinedOnce(zombies.value, plants.value, mowers.value, grid.value, fwoosh); }
    var sorted := SortByAnchor(state, all);
    r := Some(sorted);
  }

  lemma PoolsAreThese()
    ensures forall pool :: RolesOf(pool) != {} <==> IsPool(pool)
  {
    assert "body" in RolesOf("zombies") && "body" in RolesOf("plants") && "body" in RolesOf("mowers") && "body" in RolesOf("grid_items");
  }

  lemma LinksAreInPools<H>(state: OwnerState<H>)
    ensures forall loc :: IsLink(state, loc) && loc.OwnerLink? ==> IsPool(loc.pool)
  {
    PoolsAreThese();
  }

  lemma JoinedOnce(a: seq<Loc>, b: seq<Loc>, c: seq<Loc>, d: seq<Loc>, e: seq<Loc>)
    requires Once(a) && Once(b) && Once(c) && Once(d) && Once(e)
    requires forall x :: x in a ==> x.OwnerLink? && x.pool == "zombies"
    requires forall x :: x in b ==> x.OwnerLink? && x.pool == "plants"
    requires forall x :: x in c ==> x.OwnerLink? && x.pool == "mowers"
    requires forall x :: x in d ==> x.OwnerLink? && x.pool == "grid_items"
    requires forall x :: x in e ==> x.Fwoosh?
    ensures Once(a + b + c + d + e)
  {
    JoinOnce(a, b);
    JoinOnce(a + b, c);
    JoinOnce(a + b + c, d);
    JoinOnce(a + b + c + d, e);
  }

  lemma JoinOnce(a: seq<Loc>, b: seq<Loc>)
    requires Once(a) && Once(b) && forall x, y :: x in a && y in b ==> x != y
    ensures Once(a + b)
  {
    var all := a + b;
    forall i, j | 0 <= i < j < |all|
      ensures all[i] != all[j]
    {
      assert i < |a| ==> all[i] in a;
      assert j >= |a| ==> all[j] in b;
    }
  }

  // ---- the comparable state ----------------------------------------------------------------

  datatype Comparable = Comparable(owners: OwnerState<Reference>, valid: bool, nodes: map<Name, Node>, issues: seq<(string, Problem)>)

  function MapLinks<H, G>(o: Owner<H>, f: map<string, G>): Owner<G>
    requires o.links.Keys <= f.Keys
  {
    Owner(o.id, o.dead, o.squished, o.zombieType, o.hasObject, map r | r in o.links :: f[r], o.rest)
  }

  function Look<G>(m: map<Loc, G>, loc: Loc, none: G): G {
    if loc in m then m[loc] else none
  }

  // The state with `value` of each link in its place.
  function Fill<H, G>(state: OwnerState<H>, values: map<Loc, G>, none: G): OwnerState<G> {
    OwnerState(
      map pool | pool in state.pools :: FillPool(state.pools[pool], pool, values, none),
      map index | index in state.fwoosh :: Look(values, Fwoosh(index), none),
      state.rest)
  }

  function FillPool<H, G>(slots: map<nat, Owner<H>>, pool: string, values: map<Loc, G>, none: G): map<nat, Owner<G>> {
    map slot | slot in slots :: MapLinks(slots[slot], map role | role in slots[slot].links :: Look(values, OwnerLink(pool, slot, role), none))
  }

  // Two states that differ only in their handles.
  ghost predicate SameButLinks<H, G>(a: OwnerState<H>, b: OwnerState<G>) {
    && a.rest == b.rest && a.fwoosh.Keys == b.fwoosh.Keys && a.pools.Keys == b.pools.Keys
    && forall pool :: pool in a.pools ==> SameSlots(a.pools[pool], b.pools[pool])
  }

  ghost predicate SameSlots<H, G>(a: map<nat, Owner<H>>, b: map<nat, Owner<G>>) {
    a.Keys == b.Keys && forall slot :: slot in a ==> SameOwner(a[slot], b[slot])
  }

  predicate SameOwner<H, G>(a: Owner<H>, b: Owner<G>) {
    && a.id == b.id && a.dead == b.dead && a.squished == b.squished && a.zombieType == b.zombieType && a.hasObject == b.hasObject
    && a.links.Keys == b.links.Keys && a.rest == b.rest
  }

  // The rewritten state shows nothing of the old handles.
  lemma FillForgets<H, K, G>(a: OwnerState<H>, b: OwnerState<K>, values: map<Loc, G>, none: G)
    requires SameButLinks(a, b)
    ensures Fill(a, values, none) == Fill(b, values, none)
  {
    forall pool | pool in a.pools
      ensures FillPool(a.pools[pool], pool, values, none) == FillPool(b.pools[pool], pool, values, none)
    {
      FillPoolForgets(a.pools[pool], b.pools[pool], pool, values, none);
    }
    assert Fill(a, values, none).fwoosh == Fill(b, values, none).fwoosh;
    assert Fill(a, values, none).pools == Fill(b, values, none).pools;
  }

  lemma FillPoolForgets<H, K, G>(a: map<nat, Owner<H>>, b: map<nat, Owner<K>>, pool: string, values: map<Loc, G>, none: G)
    requires SameSlots(a, b)
    ensures FillPool(a, pool, values, none) == FillPool(b, pool, values, none)
  {
    forall slot | slot in a
      ensures FillPool(a, pool, values, none)[slot] == FillPool(b, pool, values, none)[slot]
    {
      assert FillPool(a, pool, values, none)[slot].links == FillPool(b, pool, values, none)[slot].links;
    }
  }

  function ReferenceMap(locs: seq<Loc>, references: seq<Reference>): map<Loc, Reference>
    requires |locs| == |references|
  {
    if locs == [] then map[] else ReferenceMap(locs[..|locs| - 1], references[..|locs| - 1])[locs[|locs| - 1] := references[|locs| - 1]]
  }

  function BindingsAt(state: OwnerState<nat>, locs: seq<Loc>): seq<Binding>
    requires forall i :: 0 <= i < |locs| ==> IsLink(state, locs[i])
  {
    seq(|locs|, i requires 0 <= i < |locs| => BindingAt(state, locs[i]))
  }

  function Compare(state: OwnerState<nat>, locs: seq<Loc>, report: Report): Comparable
    requires |locs| == |report.references|
  {
    Comparable(Fill(state, ReferenceMap(locs, report.references), Unset), report.issues == [], report.nodes, report.issues)
  }

  // ---- what a comparable state shows ---------------------------------------------------

  // What stands at a link.
  function At<H>(state: OwnerState<H>, loc: Loc): H
    requires IsLink(state, loc)
  {
    match loc
    case OwnerLink(pool, slot, role) => state.pools[pool][slot].links[role]
    case Fwoosh(index) => state.fwoosh[index]
  }

  // Filling in the links replaces what stands there and nothing else.
  lemma FillKeeps<H, G>(state: OwnerState<H>, values: map<Loc, G>, none: G)
    ensures SameButLinks(state, Fill(state, values, none))
  {
    forall pool | pool in state.pools
      ensures SameSlots(state.pools[pool], FillPool(state.pools[pool], pool, values, none))
    {
    }
  }

  lemma FillShows<H, G>(state: OwnerState<H>, values: map<Loc, G>, none: G, loc: Loc)
    requires IsLink(state, loc) && loc in values
    ensures IsLink(Fill(state, values, none), loc) && At(Fill(state, values, none), loc) == values[loc]
  {
    hide RolesOf;
    if loc.OwnerLink? {
      assert Fill(state, values, none).pools[loc.pool] == FillPool(state.pools[loc.pool], loc.pool, values, none);
    }
  }

  lemma {:induction false} ReferenceMapShows(locs: seq<Loc>, references: seq<Reference>)
    requires |locs| == |references| && forall i, j :: 0 <= i < j < |locs| ==> locs[i] != locs[j]
    ensures forall i :: 0 <= i < |locs| ==> locs[i] in ReferenceMap(locs, references) && ReferenceMap(locs, references)[locs[i]] == references[i]
  {
    if locs != [] {
      var n := |locs| - 1;
      ReferenceMapShows(locs[..n], references[..n]);
      assert forall i :: 0 <= i < n ==> locs[i] == locs[..n][i] && references[i] == references[..n][i];
    }
  }

  // The owner no longer answers for the animation: it is dead, a squished plant, or
  // a flag zombie without its object, whose old handle names an observed slot.
  predicate GivenUp(state: OwnerState<nat>, pool: Pool, loc: Loc)
    requires IsLink(state, loc)
  {
    loc.OwnerLink? &&
    var o := state.pools[loc.pool][loc.slot];
    || o.dead || (loc.pool == "plants" && o.squished)
    || (loc.pool == "zombies" && loc.role == "special_head" && o.zombieType == 1 && o.hasObject == 0
        && At(state, loc) >= 0x10000 && At(state, loc) % 0x10000 < pool.used)
  }

  // ---- captures over a run --------------------------------------------------------------------

  datatype Memory = Memory(identities: map<nat, Identity>, next: map<string, nat>)

  // One attempt to capture: the auditor before and after it, and what it compared,
  // or nothing when it was refused.
  datatype Shot = Shot(state: OwnerState<nat>, pool: Pool, locs: seq<Loc>, before: Memory, after: Memory, out: Option<Comparable>)

  ghost predicate Captured(s: Shot) {
    && Reanimations.PoolOk(s.pool) && StateOk(s.state) && InOrder(s.state, s.locs) && AllLinks(s.state, s.locs)
    && Distinct(s.before.identities, s.before.next)
    && var f := BindAll(StartFrame(s.before.identities, s.before.next, s.pool), s.pool, BindingsAt(s.state, s.locs));
       && |f.report.references| == |s.locs|
       && s.after == Memory(f.identities, f.next) && s.out == Some(Compare(s.state, s.locs, f.report))
  }

  // A malformed pool changes nothing; a malformed owner is noticed only after the
  // handles that vanished were retired.
  ghost predicate Refused(s: Shot) {
    && s.out.None? && Distinct(s.before.identities, s.before.next)
    && if Reanimations.PoolOk(s.pool) then !StateOk(s.state) && s.after == Memory(Retire(s.before.identities, Ids(s.pool)), s.before.next)
       else s.after == s.before
  }

  ghost predicate Attempted(s: Shot) {
    Captured(s) || Refused(s)
  }

  method Capture(auditor: ReanimationAuditor, state: OwnerState<nat>, pool: Pool) returns (r: Option<Comparable>, ghost shot: Shot)
    requires auditor.Valid()
    modifies auditor
    ensures auditor.Valid() && (r.Some? <==> Reanimations.PoolOk(pool) && StateOk(state))
    ensures Attempted(shot) && shot.state == state && shot.pool == pool && shot.out == r
    ensures shot.before == Memory(old(auditor.identities), old(auditor.nextLifetime))
    ensures shot.after == Memory(auditor.identities, auditor.nextLifetime)
  {
    hide BindAll, Retire, Reanimations.PoolOk, Distinct, StateOk, Fill, IsLink;
    ghost var before := Memory(auditor.identities, auditor.nextLifetime);
    shot := Shot(state, pool, [], before, before, None);
    var ok := auditor.Begin(pool);
    if !ok { return None, shot; }
    shot := shot.(after := Memory(auditor.identities, auditor.nextLifetime));
    var locs := Bindings(state);
    if locs.None? { return None, shot; }
    var bindings := BindingsAt(state, locs.value);
    ghost var start := Frame(auditor.identities, auditor.nextLifetime, EMPTY);
    BindAllKeeps(start, pool, bindings);
    var report := auditor.NameLinks(bindings, pool);
    r := Some(Compare(state, locs.value, report));
    shot := Shot(state, pool, locs.value, before, Memory(auditor.identities, auditor.nextLifetime), r);
  }

  // The anchors of the links of a capture that hold one handle, in order.
  function OwnersOf(state: OwnerState<nat>, locs: seq<Loc>, h: nat): seq<string>
    requires forall i :: 0 <= i < |locs| ==> IsLink(state, locs[i])
  {
    if locs == [] then []
    else
      var last := locs[|locs| - 1];
      OwnersOf(state, locs[..|locs| - 1], h) + if At(state, last) == h then [AnchorOf(state, last)] else []
  }

  lemma {:induction false} OwnersAreLinks(state: OwnerState<nat>, locs: seq<Loc>, h: nat)
    requires forall i :: 0 <= i < |locs| ==> IsLink(state, locs[i])
    ensures LinksTo(BindingsAt(state, locs), h) == OwnersOf(state, locs, h)
  {
    hide IsLink, AnchorOf;
    if locs != [] {
      var n := |locs| - 1;
      OwnersAreLinks(state, locs[..n], h);
      assert BindingsAt(state, locs)[..n] == BindingsAt(state, locs[..n]);
      BindingIs(state, locs[n]);
    }
  }

  lemma BindingIs(state: OwnerState<nat>, loc: Loc)
    requires IsLink(state, loc)
    ensures var b := BindingAt(state, loc); b.handle == At(state, loc) && b.anchor == AnchorOf(state, loc)
    ensures forall pool :: Retired(pool, BindingAt(state, loc)) <==> GivenUp(state, pool, loc)
  {
  }

  // What a link shows: nothing for an unset handle; for the handle of an allocated
  // animation whether that animation is dying, and a node with its state and with
  // the anchors of all links to it; for any other handle whether its owner has given
  // it up, else why it dangles.
  ghost predicate ShownAt(t: Shot, loc: Loc)
    requires t.out.Some? && IsLink(t.state, loc) && IsLink(t.out.value.owners, loc)
    requires forall i :: 0 <= i < |t.locs| ==> IsLink(t.state, t.locs[i])
  {
    var h, r, nodes := At(t.state, loc), At(t.out.value.owners, loc), t.out.value.nodes;
    && (h == 0 ==> r == Unset)
    && (h != 0 && h !in Ids(t.pool) && GivenUp(t.state, t.pool, loc) ==> r == Expired)
    && (h != 0 && h !in Ids(t.pool) && !GivenUp(t.state, t.pool, loc) ==> DanglesAs(t.pool, h, r))
    && (forall s :: s in t.pool.slots.Values && s.id == h ==>
          && (if s.dead then r.Retiring? else r.Live?)
          && r.node in nodes && nodes[r.node] == Node(s.semantic, OwnersOf(t.state, t.locs, h)))
  }

  predicate DanglesAs(pool: Pool, h: nat, r: Reference) {
    && r.Dangling? && r.handle == h
    && (r.reason.OutOfRange? <==> h % 0x10000 >= pool.capacity)
    && (r.reason.NotAllocated? <==> h % 0x10000 < pool.capacity && h % 0x10000 !in pool.slots)
    && r.actual == if h % 0x10000 in pool.slots then Some(pool.slots[h % 0x10000].id) else None
  }

  lemma ReferShows(t: Shot, g: Frame, i: nat)
    requires Captured(t) && i < |t.locs| && IsLink(t.out.value.owners, t.locs[i])
    requires Refers(g, t.pool, BindingAt(t.state, t.locs[i]), At(t.out.value.owners, t.locs[i]))
    requires ShowsNodes(g, t.pool, BindingsAt(t.state, t.locs)) && g.report.nodes == t.out.value.nodes
    ensures ShownAt(t, t.locs[i])
  {
    hide BindAll, Compare, Distinct, AllLinks, StateOk, AnchorOf, Less, IsLink, OwnersOf, LinksTo, GivenUp, Retired, BindingAt;
    var loc := t.locs[i];
    var h := At(t.state, loc);
    BindingIs(t.state, loc);
    OwnersAreLinks(t.state, t.locs, h);
    ResolvedIsAllocated(t.pool, h);
    HoldsItself(t.state, t.locs, i);
    hide ShowsNodes, Ids, IsLink, At;
    var bindings, r := BindingsAt(t.state, t.locs), At(t.out.value.owners, loc);
    assert BindingAt(t.state, loc).handle == h;
    forall s | s in t.pool.slots.Values && s.id == h
      ensures (if s.dead then r.Retiring? else r.Live?) && r.node in t.out.value.nodes && t.out.value.nodes[r.node] == Node(s.semantic, OwnersOf(t.state, t.locs, h))
    {
      assert Resolve(t.pool, h) == Some(s);
      assert Linked(t.pool, bindings, h);
      LinkedShows(g, t.pool, bindings, h);
      assert r == if s.dead then Retiring(g.identities[h].logical) else Live(g.identities[h].logical);
    }
    assert h == 0 ==> r == Unset;
    assert h != 0 && h !in Ids(t.pool) && GivenUp(t.state, t.pool, loc) ==> r == Expired;
    assert h != 0 && h !in Ids(t.pool) && !GivenUp(t.state, t.pool, loc) ==> DanglesAs(t.pool, h, r);
  }

  lemma LinkedShows(g: Frame, pool: Pool, bindings: seq<Binding>, h: nat)
    requires ShowsNodes(g, pool, bindings) && Linked(pool, bindings, h)
    ensures ShowsNode(g, pool, bindings, h)
  {
  }

  lemma {:induction false} HoldsItself(state: OwnerState<nat>, locs: seq<Loc>, i: nat)
    requires i < |locs| && forall j :: 0 <= j < |locs| ==> IsLink(state, locs[j])
    ensures OwnersOf(state, locs, At(state, locs[i])) != []
  {
    hide IsLink, At, AnchorOf;
    if i < |locs| - 1 { HoldsItself(state, locs[..|locs| - 1], i); }
  }

  // What every link of a capture shows; the rest of the state is left as it was.
  lemma CaptureShows(t: Shot)
    requires Captured(t)
    ensures SameButLinks(t.state, t.out.value.owners)
    ensures forall i :: 0 <= i < |t.locs| ==> IsLink(t.out.value.owners, t.locs[i]) && ShownAt(t, t.locs[i])
  {
    hide BindAll, Distinct, AllLinks, StateOk, AnchorOf, IsLink, Less, Fill, ReferenceMap, BindingAt, ShownAt, Refers, ShowsNodes, SameButLinks, Reanimations.PoolOk, Ids, At, StartFrame;
    var start, bindings := StartFrame(t.before.identities, t.before.next, t.pool), BindingsAt(t.state, t.locs);
    var g := BindAll(start, t.pool, bindings);
    StartKeeps(t);
    ReportShows(start, t.pool, bindings);
    var values := ReferenceMap(t.locs, g.report.references);
    assert t.out.value.owners == Fill(t.state, values, Unset);
    FillKeeps(t.state, values, Unset);
    LocsDiffer(t);
    ReferenceMapShows(t.locs, g.report.references);
    forall i | 0 <= i < |t.locs|
      ensures IsLink(t.out.value.owners, t.locs[i]) && ShownAt(t, t.locs[i])
    {
      FillShows(t.state, values, Unset, t.locs[i]);
      assert Refers(g, t.pool, bindings[i], g.report.references[i]);
      ReferShows(t, g, i);
    }
  }

  lemma StartKeeps(t: Shot)
    requires Captured(t)
    ensures var f := StartFrame(t.before.identities, t.before.next, t.pool); Distinct(f.identities, f.next) && f.report == EMPTY
  {
    hide Distinct, BindAll;
    RetireKeeps(t.before.identities, t.before.next, Ids(t.pool));
  }

  lemma LocsDiffer(t: Shot)
    requires InOrder(t.state, t.locs)
    ensures forall i, j :: 0 <= i < j < |t.locs| ==> t.locs[i] != t.locs[j]
  {
    hide AnchorOf, Less, IsLink;
    forall i, j | 0 <= i < j < |t.locs|
      ensures t.locs[i] != t.locs[j]
    {
      if t.locs[i] == t.locs[j] { LessIsTotal(AnchorOf(t.state, t.locs[i]), AnchorOf(t.state, t.locs[j])); }
    }
  }

  // The animation of a link has the wrong definition.
  predicate Mismatched(t: Shot, loc: Loc)
    requires IsLink(t.state, loc)
  {
    exists s :: s in t.pool.slots.Values && s.id == At(t.state, loc) && !s.definitionValid
  }

  // A link in use has no animation.
  predicate Lost(t: Shot, loc: Loc)
    requires IsLink(t.state, loc)
  {
    At(t.state, loc) != 0 && At(t.state, loc) !in Ids(t.pool) && !GivenUp(t.state, t.pool, loc)
  }

  lemma ProblemsAre(t: Shot, loc: Loc)
    requires Captured(t) && IsLink(t.state, loc)
    ensures var of := ProblemsOf(t.pool, BindingAt(t.state, loc));
      && (forall x :: x in of ==> x.0 == AnchorOf(t.state, loc))
      && ((AnchorOf(t.state, loc), DefinitionMismatch) in of <==> Mismatched(t, loc))
      && ((AnchorOf(t.state, loc), DanglingHandle) in of <==> Lost(t, loc))
  {
    hide BindAll, Compare, Distinct, AllLinks, StateOk, AnchorOf, Less, IsLink, GivenUp, Retired, BindingAt, At;
    BindingIs(t.state, loc);
    ResolvedIsAllocated(t.pool, At(t.state, loc));
  }

  // The issues are what is wrong with each link.
  lemma IssuesAre(t: Shot)
    requires Captured(t)
    ensures t.out.value.valid == (t.out.value.issues == [])
    ensures forall x :: x in t.out.value.issues <==> exists i :: 0 <= i < |t.locs| && x in ProblemsOf(t.pool, BindingAt(t.state, t.locs[i]))
  {
    hide BindAll, Distinct, AllLinks, AnchorOf, IsLink, Less, Fill, ReferenceMap, BindingAt, ProblemsOf, Reanimations.PoolOk, StateOk, Ids, StartFrame;
    var start, bindings := StartFrame(t.before.identities, t.before.next, t.pool), BindingsAt(t.state, t.locs);
    StartKeeps(t);
    ReportShows(start, t.pool, bindings);
    EveryProblem(t.pool, bindings);
    assert forall i :: 0 <= i < |t.locs| ==> bindings[i] == BindingAt(t.state, t.locs[i]);
  }

  // The issues name exactly the links with a wrong definition and the lost links,
  // and the capture is valid exactly when there are none.
  lemma IssuesShow(t: Shot)
    requires Captured(t)
    ensures forall i :: 0 <= i < |t.locs| ==> ((AnchorOf(t.state, t.locs[i]), DefinitionMismatch) in t.out.value.issues <==> Mismatched(t, t.locs[i]))
    ensures forall i :: 0 <= i < |t.locs| ==> ((AnchorOf(t.state, t.locs[i]), DanglingHandle) in t.out.value.issues <==> Lost(t, t.locs[i]))
    ensures t.out.value.valid <==> forall i :: 0 <= i < |t.locs| ==> !Mismatched(t, t.locs[i]) && !Lost(t, t.locs[i])
  {
    IssuesAre(t);
    hide BindAll, Compare, Distinct, AllLinks, AnchorOf, IsLink, Less, BindingAt, ProblemsOf, Reanimations.PoolOk, StateOk, StartFrame, Lost, Mismatched;
    var issues := t.out.value.issues;
    forall i | 0 <= i < |t.locs|
      ensures (AnchorOf(t.state, t.locs[i]), DefinitionMismatch) in issues <==> Mismatched(t, t.locs[i])
      ensures (AnchorOf(t.state, t.locs[i]), DanglingHandle) in issues <==> Lost(t, t.locs[i])
    {
      OwnIssue(t, i, DefinitionMismatch);
      OwnIssue(t, i, DanglingHandle);
      ProblemsAre(t, t.locs[i]);
    }
    if issues != [] {
      var x := issues[0];
      assert x in issues;
      var j :| 0 <= j < |t.locs| && x in ProblemsOf(t.pool, BindingAt(t.state, t.locs[j]));
      ProblemsAre(t, t.locs[j]);
      assert x.1 == DefinitionMismatch || x.1 == DanglingHandle;
      assert x == (AnchorOf(t.state, t.locs[j]), x.1);
      assert Mismatched(t, t.locs[j]) || Lost(t, t.locs[j]);
    }
  }

  // An issue under a link's anchor is that link's.
  lemma OwnIssue(t: Shot, i: nat, problem: Problem)
    requires Captured(t) && i < |t.locs|
    ensures (AnchorOf(t.state, t.locs[i]), problem) in t.out.value.issues <==>
      (AnchorOf(t.state, t.locs[i]), problem) in ProblemsOf(t.pool, BindingAt(t.state, t.locs[i]))
  {
    IssuesAre(t);
    hide BindAll, Compare, Distinct, AllLinks, AnchorOf, IsLink, Less, BindingAt, ProblemsOf, Reanimations.PoolOk, StateOk, StartFrame;
    var x := (AnchorOf(t.state, t.locs[i]), problem);
    if x in t.out.value.issues {
      var j :| 0 <= j < |t.locs| && x in ProblemsOf(t.pool, BindingAt(t.state, t.locs[j]));
      ProblemsAre(t, t.locs[j]);
      AnchorsAreUnique(t.state, t.locs[i], t.locs[j]);
    }
  }

  predicate Named(m: Memory, h: nat) {
    h in m.identities && m.identities[h].present
  }

  // A well-formed pool showed that the handle is gone.
  predicate Vanished(s: Shot, h: nat) {
    Reanimations.PoolOk(s.pool) && h !in Ids(s.pool)
  }

  // The name of `h` was given in this capture, not before it.
  predicate NewlyNamed(s: Shot, h: nat) {
    Named(s.after, h) && !(Named(s.before, h) && !Vanished(s, h))
  }

  // One attempt: a named handle that did not vanish keeps its name even if nothing
  // refers to it, and any other name carries a number its anchor never had.
  lemma AttemptNames(s: Shot)
    requires Attempted(s)
    ensures forall h :: Named(s.before, h) && !Vanished(s, h) ==> Named(s.after, h) && s.after.identities[h].logical == s.before.identities[h].logical
    ensures forall h :: NewlyNamed(s, h) ==>
      s.after.identities[h].logical.lifetime >= Lifetimes(s.before.next, s.after.identities[h].logical.anchor)
    ensures forall a :: Lifetimes(s.before.next, a) <= Lifetimes(s.after.next, a)
    ensures Distinct(s.after.identities, s.after.next)
  {
    hide AnchorOf, IsLink, Less, AllLinks, StateOk, Compare, BindAll, Ids, Resolve, Distinct, BindingAt, Reanimations.PoolOk;
    RetireKeeps(s.before.identities, s.before.next, Ids(s.pool));
    if Captured(s) {
      var start, bindings := StartFrame(s.before.identities, s.before.next, s.pool), BindingsAt(s.state, s.locs);
      var f := BindAll(start, s.pool, bindings);
      BindAllKeeps(start, s.pool, bindings);
      assert forall h :: Named(s.after, h) <==> Present(f, h);
    }
  }

  // In every capture, two valid links show the same written node exactly when they
  // hold the same handle.
  lemma NodesAreHandles(t: Shot, i: nat, j: nat)
    requires Captured(t) && i < |t.locs| && j < |t.locs| && LinkedAt(t, i).Some? && LinkedAt(t, j).Some?
    ensures NodeAt(t, i).Some? && NodeAt(t, j).Some?
    ensures Text(NodeAt(t, i).value) == Text(NodeAt(t, j).value) <==> LinkedAt(t, i) == LinkedAt(t, j)
  {
    hide AnchorOf, IsLink, Less, AllLinks, StateOk, Compare, BindAll, Ids, Resolve, Distinct, BindingAt, Text, Reanimations.PoolOk;
    var start, bindings := StartFrame(t.before.identities, t.before.next, t.pool), BindingsAt(t.state, t.locs);
    var f := BindAll(start, t.pool, bindings);
    RetireKeeps(t.before.identities, t.before.next, Ids(t.pool));
    BindAllKeeps(start, t.pool, bindings);
    SameNodeSameHandle(f, t.pool, bindings[i], bindings[j], f.report.references[i], f.report.references[j]);
    if Text(NodeAt(t, i).value) == Text(NodeAt(t, j).value) { TextIsInjective(NodeAt(t, i).value, NodeAt(t, j).value); }
  }

  // The handle of the i-th link when it resolves, and the node it was given.
  ghost function LinkedAt(t: Shot, i: nat): Option<nat>
    requires Captured(t) && i < |t.locs|
  {
    var h := BindingsAt(t.state, t.locs)[i].handle;
    if Resolve(t.pool, h).Some? then Some(h) else None
  }

  ghost function NodeAt(t: Shot, i: nat): Option<Name>
    requires Captured(t) && i < |t.locs|
  {
    NodeOf(BindAll(StartFrame(t.before.identities, t.before.next, t.pool), t.pool, BindingsAt(t.state, t.locs)).report.references[i])
  }

  // A run starts after a reset and attempts one capture after another.
  ghost predicate IsRun(shots: seq<Shot>) {
    && (forall i :: 0 <= i < |shots| ==> Attempted(shots[i]))
    && (shots != [] ==> shots[0].before == Memory(map[], map[]))
    && (forall i :: 0 < i < |shots| ==> shots[i].before == shots[i - 1].after)
  }

  // The numbers given out for an anchor only grow.
  lemma {:induction false} CountersGrow(shots: seq<Shot>, i: nat, j: nat, a: string)
    requires IsRun(shots) && i <= j < |shots|
    ensures Lifetimes(shots[i].after.next, a) <= Lifetimes(shots[j].after.next, a)
    decreases j
  {
    hide Attempted;
    if i < j {
      CountersGrow(shots, i, j - 1, a);
      AttemptNames(shots[j]);
    }
  }

  // A name as the comparable state shows it.
  function Shown(m: Memory, h: nat): string
    requires h in m.identities
  {
    Text(m.identities[h].logical)
  }

  // A name given at j was used in no attempt before it, not even by a handle whose
  // entry was overwritten since.
  lemma NewNamesAreUnused(shots: seq<Shot>, i: nat, j: nat, h: nat, g: nat)
    requires IsRun(shots) && i < j < |shots| && NewlyNamed(shots[j], h) && g in shots[i].after.identities
    ensures Shown(shots[j].after, h) != Shown(shots[i].after, g)
  {
    hide Attempted, Text;
    var name, older := shots[j].after.identities[h].logical, shots[i].after.identities[g].logical;
    AttemptNames(shots[j]);
    AttemptNames(shots[i]);
    CountersGrow(shots, i, j - 1, older.anchor);
    if Text(name) == Text(older) { TextIsInjective(name, older); }
  }

  // A handle that never vanishes keeps its name over any number of attempts.
  lemma {:induction false} StayingKeepsTheName(shots: seq<Shot>, i: nat, j: nat, h: nat)
    requires IsRun(shots) && i <= j < |shots| && Named(shots[i].after, h)
    requires forall k :: i < k <= j ==> !Vanished(shots[k], h)
    ensures Named(shots[j].after, h) && Shown(shots[j].after, h) == Shown(shots[i].after, h)
    decreases j
  {
    hide Attempted, Vanished, Text;
    if i < j {
      StayingKeepsTheName(shots, i, j - 1, h);
      AttemptNames(shots[j]);
    }
  }

  // A handle that vanished since attempt i has a name that no handle had at i or
  // before.
  lemma {:induction false} ReturningGetsANewName(shots: seq<Shot>, i: nat, k: nat, j: nat, h: nat, g: nat, u: nat)
    requires IsRun(shots) && u <= i < k <= j < |shots| && Vanished(shots[k], h) && Named(shots[j].after, h)
    requires g in shots[u].after.identities
    ensures Shown(shots[j].after, h) != Shown(shots[u].after, g)
    decreases j
  {
    hide Attempted, Vanished, Text;
    if NewlyNamed(shots[j], h) {
      NewNamesAreUnused(shots, u, j, h, g);
    } else {
      AttemptNames(shots[j]);
      ReturningGetsANewName(shots, i, k, j - 1, h, g, u);
    }
  }

  // Names are lifetimes, over every run and any two attempts i < j of it, captured
  // or refused: a name given at j was never used before; a handle that was never
  // seen to vanish kept its name; one that vanished and came back has a name never
  // used up to i.
  lemma NamesAreLifetimes(shots: seq<Shot>, i: nat, j: nat)
    requires IsRun(shots) && i < j < |shots|
    ensures forall h, g :: NewlyNamed(shots[j], h) && g in shots[i].after.identities ==>
      Shown(shots[j].after, h) != Shown(shots[i].after, g)
    ensures forall h :: Named(shots[i].after, h) && (forall k :: i < k <= j ==> !Vanished(shots[k], h)) ==>
      Named(shots[j].after, h) && Shown(shots[j].after, h) == Shown(shots[i].after, h)
    ensures forall h, k, g, u :: Named(shots[j].after, h) && i < k <= j && Vanished(shots[k], h) && 0 <= u <= i && g in shots[u].after.identities ==>
      Shown(shots[j].after, h) != Shown(shots[u].after, g)
  {
    hide Attempted, Vanished, IsRun, NewlyNamed, Shown;
    forall h, g | NewlyNamed(shots[j], h) && g in shots[i].after.identities
      ensures h in shots[j].after.identities && Shown(shots[j].after, h) != Shown(shots[i].after, g)
    {
      NewlyNamedIsNamed(shots[j], h);
      NewNamesAreUnused(shots, i, j, h, g);
    }
    forall h | Named(shots[i].after, h) && forall k :: i < k <= j ==> !Vanished(shots[k], h)
      ensures Named(shots[j].after, h) && Shown(shots[j].after, h) == Shown(shots[i].after, h)
    {
      StayingKeepsTheName(shots, i, j, h);
    }
    forall h, k, g, u | Named(shots[j].after, h) && i < k <= j && Vanished(shots[k], h) && 0 <= u <= i && g in shots[u].after.identities
      ensures Shown(shots[j].after, h) != Shown(shots[u].after, g)
    {
      ReturningGetsANewName(shots, i, k, j, h, g, u);
    }
  }

  lemma NewlyNamedIsNamed(s: Shot, h: nat)
    requires NewlyNamed(s, h)
    ensures h in s.after.identities
  {
  }

  // Two attempts that agree up to a renaming of animation handles, without a live
  // link that dangles. A malformed pool is malformed in both and renames nothing.
  ghost predicate SameFrame(a: Shot, b: Shot, earlier: Pairing, pairs: Pairing) {
    && OneToOne(pairs) && Reanimations.PoolOk(a.pool) == Reanimations.PoolOk(b.pool)
    && if !Reanimations.PoolOk(a.pool) then pairs == earlier
       else
         && SameButLinks(a.state, b.state) && Persists(earlier, pairs, a.pool, b.pool)
         && (forall x :: x in pairs ==> x.0 in Ids(a.pool) && x.1 in Ids(b.pool))
         && (StateOk(a.state) ==> forall loc :: IsLink(a.state, loc) && IsLink(b.state, loc) ==>
               SameLink(BindingAt(a.state, loc), BindingAt(b.state, loc), a.pool, b.pool, pairs))
  }

  // The renaming in force before attempt i.
  function Earlier(pairs: seq<Pairing>, i: nat): Pairing
    requires i <= |pairs|
  {
    if i == 0 then {} else pairs[i - 1]
  }

  // The renamings of successive attempts are consistent over every lifetime.
  ghost predicate SameHistory(a: seq<Shot>, b: seq<Shot>, pairs: seq<Pairing>) {
    && |a| == |b| == |pairs|
    && forall i :: 0 <= i < |a| ==> SameFrame(a[i], b[i], Earlier(pairs, i), pairs[i])
  }

  function Memorized(m: Memory): Frame {
    Frame(m.identities, m.next, EMPTY)
  }

  lemma LinksCorrespond(a: Shot, b: Shot, earlier: Pairing, pairs: Pairing)
    requires Captured(a) && Captured(b) && SameFrame(a, b, earlier, pairs)
    ensures a.locs == b.locs
    ensures var s, t := BindingsAt(a.state, a.locs), BindingsAt(b.state, b.locs);
      |s| == |t| && forall i :: 0 <= i < |s| ==> SameLink(s[i], t[i], a.pool, b.pool, pairs)
  {
    hide SameLink, BindAll, Compare, Less, StateOk, AnchorOf, IsLink, SameButLinks, BindingAt;
    SameLocs(a, b);
  }

  lemma SameLocs(a: Shot, b: Shot)
    requires Captured(a) && Captured(b) && SameButLinks(a.state, b.state)
    ensures a.locs == b.locs
  {
    hide BindAll, Compare, Less, StateOk;
    forall loc
      ensures IsLink(a.state, loc) == IsLink(b.state, loc)
      ensures IsLink(a.state, loc) ==> AnchorOf(a.state, loc) == AnchorOf(b.state, loc)
    {
      LinkIsShared(a.state, b.state, loc);
    }
    hide AnchorOf, IsLink, SameButLinks, BindingAt;
    forall loc
      ensures loc in a.locs <==> loc in b.locs
    {
    }
    OrderIsUnique(a.state, b.state, a.locs, b.locs);
  }

  lemma LinkIsShared<H, G>(a: OwnerState<H>, b: OwnerState<G>, loc: Loc)
    requires SameButLinks(a, b)
    ensures IsLink(a, loc) == IsLink(b, loc)
    ensures IsLink(a, loc) ==> AnchorOf(a, loc) == AnchorOf(b, loc)
  {
    hide OwnerAnchor, FwooshAnchor, RolesOf;
    if loc.OwnerLink? && loc.pool in a.pools && loc.slot in a.pools[loc.pool] {
      assert SameOwner(a.pools[loc.pool][loc.slot], b.pools[loc.pool][loc.slot]);
    }
  }

  // Both owner states are well formed or none is.
  lemma StatesAreAlike<H, G>(a: OwnerState<H>, b: OwnerState<G>)
    requires SameButLinks(a, b)
    ensures StateOk(a) == StateOk(b)
  {
    hide RolesOf;
    forall pool, slot | pool in a.pools && slot in a.pools[pool] && RolesOf(pool) != {}
      ensures OwnerOk(pool, slot, a.pools[pool][slot]) == OwnerOk(pool, slot, b.pools[pool][slot])
    {
      assert SameOwner(a.pools[pool][slot], b.pools[pool][slot]);
    }
  }

  // One attempt of renaming invariance.
  lemma FrameInvariance(a: Shot, b: Shot, earlier: Pairing, pairs: Pairing)
    requires Attempted(a) && Attempted(b) && SameFrame(a, b, earlier, pairs) && OneToOne(earlier)
    requires Agree(Memorized(a.before), Memorized(b.before), earlier)
    ensures a.out == b.out && Agree(Memorized(a.after), Memorized(b.after), pairs)
  {
    hide SameLink, BindAll, StateOk, Agree, IsLink, AllLinks, InOrder, Ids, BindingAt, SameButLinks, Distinct, Compare, Persists, Reanimations.PoolOk, Retire;
    if Reanimations.PoolOk(a.pool) {
      StatesAreAlike(a.state, b.state);
      if StateOk(a.state) {
        CaptureInvariance(a, b, earlier, pairs);
      } else {
        RetireAgrees(Memorized(a.before), Memorized(b.before), earlier, pairs, a.pool, b.pool);
      }
    }
  }

  lemma CaptureInvariance(a: Shot, b: Shot, earlier: Pairing, pairs: Pairing)
    requires Captured(a) && Captured(b) && SameFrame(a, b, earlier, pairs) && OneToOne(earlier)
    requires Agree(Memorized(a.before), Memorized(b.before), earlier)
    ensures a.out == b.out && Agree(Memorized(a.after), Memorized(b.after), pairs)
  {
    hide SameLink, BindAll, Less, StateOk, Fill, Agree, AnchorOf, IsLink, AllLinks, Persists, Ids, BindingAt, SameButLinks, Distinct, Reanimations.PoolOk;
    LinksCorrespond(a, b, earlier, pairs);
    RetireAgrees(Memorized(a.before), Memorized(b.before), earlier, pairs, a.pool, b.pool);
    var f, g := StartFrame(a.before.identities, a.before.next, a.pool), StartFrame(b.before.identities, b.before.next, b.pool);
    var s, t := BindingsAt(a.state, a.locs), BindingsAt(b.state, b.locs);
    hide StartFrame;
    StartsEmpty(a.before, a.pool);
    StartsEmpty(b.before, b.pool);
    FramesAgree(f, g, a.pool, b.pool, pairs, s, t);
    ReportAside(BindAll(f, a.pool, s), BindAll(g, b.pool, t), pairs, EMPTY);
    FillForgets(a.state, b.state, ReferenceMap(a.locs, BindAll(f, a.pool, s).report.references), Unset);
  }

  lemma StartsEmpty(m: Memory, pool: Pool)
    ensures StartFrame(m.identities, m.next, pool).report == EMPTY
  {
  }

  // Renaming invariance: two runs whose histories agree up to a lifetime-consistent
  // renaming of handles are refused together and produce equal comparable states at
  // every other attempt.
  lemma {:induction false} RenamingInvariance(a: seq<Shot>, b: seq<Shot>, pairs: seq<Pairing>)
    requires IsRun(a) && IsRun(b) && SameHistory(a, b, pairs)
    ensures forall i :: 0 <= i < |a| ==> a[i].out == b[i].out
    ensures a != [] ==> Agree(Memorized(a[|a| - 1].after), Memorized(b[|b| - 1].after), pairs[|a| - 1])
    decreases |a|
  {
    hide Attempted, SameFrame, Agree;
    if a != [] {
      var n := |a| - 1;
      assert forall i :: 0 <= i < n ==> Earlier(pairs[..n], i) == Earlier(pairs, i);
      RenamingInvariance(a[..n], b[..n], pairs[..n]);
      assert SameFrame(a[n], b[n], Earlier(pairs, n), pairs[n]);
      if n == 0 {
        NothingAgrees();
      } else {
        FramesAreOneToOne(a[n - 1], b[n - 1], Earlier(pairs, n - 1), pairs[n - 1]);
      }
      FrameInvariance(a[n], b[n], Earlier(pairs, n), pairs[n]);
    }
  }

  // Every handle keeps its own number.
  function Unrenamed(s: Shot): Pairing {
    set h | h in Ids(s.pool) :: (h, h)
  }

  function UnrenamedAll(shots: seq<Shot>): seq<Pairing> {
    if shots == [] then []
    else
      var before := UnrenamedAll(shots[..|shots| - 1]);
      before + [if Reanimations.PoolOk(shots[|shots| - 1].pool) then Unrenamed(shots[|shots| - 1]) else Earlier(before, |before|)]
  }

  // Any run without dangling live links corresponds to itself: the condition of
  // renaming invariance asks for no more.
  lemma {:induction false} EveryRunMatchesItself(shots: seq<Shot>)
    requires forall i, loc :: 0 <= i < |shots| && IsLink(shots[i].state, loc) ==> !Lost(shots[i], loc)
    ensures SameHistory(shots, shots, UnrenamedAll(shots))
  {
    hide SameFrame, Lost;
    if shots != [] {
      var n := |shots| - 1;
      var before := UnrenamedAll(shots[..n]);
      EveryRunMatchesItself(shots[..n]);
      forall i | 0 <= i < n
        ensures SameFrame(shots[i], shots[i], Earlier(UnrenamedAll(shots), i), UnrenamedAll(shots)[i])
      {
        assert Earlier(UnrenamedAll(shots), i) == Earlier(before, i);
        assert SameFrame(shots[..n][i], shots[..n][i], Earlier(before, i), before[i]);
      }
      OneToOneBefore(shots[..n]);
      MatchesItself(shots[n], Earlier(before, n));
    }
  }

  lemma {:induction false} OneToOneBefore(shots: seq<Shot>)
    ensures |UnrenamedAll(shots)| == |shots|
    ensures forall x :: x in Earlier(UnrenamedAll(shots), |shots|) ==> x.0 == x.1
  {
    if shots != [] { OneToOneBefore(shots[..|shots| - 1]); }
  }

  lemma MatchesItself(s: Shot, earlier: Pairing)
    requires forall x :: x in earlier ==> x.0 == x.1
    requires forall loc :: IsLink(s.state, loc) ==> !Lost(s, loc)
    ensures SameFrame(s, s, earlier, if Reanimations.PoolOk(s.pool) then Unrenamed(s) else earlier)
  {
    hide Ids, IsLink, StateOk, BindingAt, Retired, At, GivenUp;
    if Reanimations.PoolOk(s.pool) {
      forall loc | IsLink(s.state, loc)
        ensures SameLink(BindingAt(s.state, loc), BindingAt(s.state, loc), s.pool, s.pool, Unrenamed(s))
      {
        BindingIs(s.state, loc);
        ResolvedIsAllocated(s.pool, At(s.state, loc));
      }
    }
  }

  lemma NothingAgrees()
    ensures Agree(Memorized(Memory(map[], map[])), Memorized(Memory(map[], map[])), {}) && OneToOne({})
  {
  }

  lemma FramesAreOneToOne(a: Shot, b: Shot, earlier: Pairing, pairs: Pairing)
    requires SameFrame(a, b, earlier, pairs)
    ensures OneToOne(pairs)
  {
  }

  // ---- the comparison misses nothing ----------------------------------------------------

  lemma SameBoth<H, K, G>(a: OwnerState<H>, b: OwnerState<K>, c: OwnerState<G>)
    requires SameButLinks(a, c) && SameButLinks(b, c)
    ensures SameButLinks(a, b)
  {
    forall pool | pool in a.pools
      ensures SameSlots(a.pools[pool], b.pools[pool])
    {
      forall slot | slot in a.pools[pool]
        ensures SameOwner(a.pools[pool][slot], b.pools[pool][slot])
      {
        assert SameOwner(a.pools[pool][slot], c.pools[pool][slot]) && SameOwner(b.pools[pool][slot], c.pools[pool][slot]);
      }
    }
  }

  // A link's anchor is among the owners of its own handle only.
  lemma {:induction false} OwnersHold(state: OwnerState<nat>, locs: seq<Loc>, loc: Loc, h: nat)
    requires StateOk(state) && IsLink(state, loc) && forall i :: 0 <= i < |locs| ==> IsLink(state, locs[i])
    ensures AnchorOf(state, loc) in OwnersOf(state, locs, h) <==> loc in locs && At(state, loc) == h
  {
    hide StateOk, IsLink, AnchorOf, At;
    if locs != [] {
      var n := |locs| - 1;
      OwnersHold(state, locs[..n], loc, h);
      assert locs == locs[..n] + [locs[n]];
      if AnchorOf(state, loc) == AnchorOf(state, locs[n]) { AnchorsAreUnique(state, loc, locs[n]); }
    }
  }

  // One link shows the same in two captures only when it is unset in both, given up
  // in both, the same lost handle in both, or links to equal animations.
  ghost predicate SameThere(a: Shot, b: Shot, loc: Loc)
    requires IsLink(a.state, loc) && IsLink(b.state, loc)
  {
    var h, k := At(a.state, loc), At(b.state, loc);
    && (h == 0 <==> k == 0) && (h in Ids(a.pool) <==> k in Ids(b.pool))
    && (Lost(a, loc) <==> Lost(b, loc)) && (Lost(a, loc) ==> h == k)
    && (forall s, r :: s in a.pool.slots.Values && r in b.pool.slots.Values && s.id == h && r.id == k ==>
          s.semantic == r.semantic && s.dead == r.dead && s.definitionValid == r.definitionValid)
  }

  lemma ShowsSame(a: Shot, b: Shot, loc: Loc)
    requires Captured(a) && Captured(b) && a.out == b.out
    requires IsLink(a.state, loc) && IsLink(b.state, loc) && IsLink(a.out.value.owners, loc)
    requires ShownAt(a, loc) && ShownAt(b, loc) && (Mismatched(a, loc) <==> Mismatched(b, loc))
    ensures SameThere(a, b, loc)
  {
    hide BindAll, Compare, Distinct, AllLinks, StateOk, AnchorOf, Less, IsLink, InOrder, At, OwnersOf, GivenUp, Reanimations.PoolOk;
    var h, k := At(a.state, loc), At(b.state, loc);
    forall s, r | s in a.pool.slots.Values && r in b.pool.slots.Values && s.id == h && r.id == k
      ensures s.semantic == r.semantic && s.dead == r.dead && s.definitionValid == r.definitionValid
    {
      TheAnimation(a, loc, s);
      TheAnimation(b, loc, r);
    }
  }

  // Only one animation has the link's handle as ID.
  lemma TheAnimation(t: Shot, loc: Loc, s: Sample)
    requires Captured(t) && IsLink(t.state, loc) && s in t.pool.slots.Values && s.id == At(t.state, loc)
    ensures Mismatched(t, loc) <==> !s.definitionValid
  {
    hide BindAll, Compare, Distinct, AllLinks, StateOk, AnchorOf, Less, IsLink, InOrder, At;
  }

  // Equal outputs come from states that are equal but for their links, and whose
  // links show the same animations under one renaming of their handles.
  lemma EqualOutputsMeanEqualAnimations(a: Shot, b: Shot)
    requires Captured(a) && Captured(b) && a.out == b.out
    ensures SameButLinks(a.state, b.state) && a.locs == b.locs
    ensures forall i :: 0 <= i < |a.locs| ==> IsLink(b.state, a.locs[i]) && SameThere(a, b, a.locs[i])
    ensures forall i, j :: 0 <= i < |a.locs| && 0 <= j < |a.locs| && At(a.state, a.locs[i]) in Ids(a.pool) && At(a.state, a.locs[j]) in Ids(a.pool) ==>
      (At(a.state, a.locs[i]) == At(a.state, a.locs[j]) <==> At(b.state, a.locs[i]) == At(b.state, a.locs[j]))
  {
    hide BindAll, Compare, Distinct, AllLinks, StateOk, AnchorOf, Less, IsLink, ShownAt, SameThere, Mismatched, Lost, SameButLinks, Reanimations.PoolOk, At, OwnersOf, Ids;
    CaptureShows(a);
    CaptureShows(b);
    SameBoth(a.state, b.state, a.out.value.owners);
    SameLocs(a, b);
    IssuesShow(a);
    IssuesShow(b);
    forall i | 0 <= i < |a.locs|
      ensures IsLink(b.state, a.locs[i]) && SameThere(a, b, a.locs[i])
    {
      LinkIsShared(a.state, b.state, a.locs[i]);
      ShowsSame(a, b, a.locs[i]);
    }
    forall i, j | 0 <= i < |a.locs| && 0 <= j < |a.locs| && At(a.state, a.locs[i]) in Ids(a.pool)
      ensures At(a.state, a.locs[i]) == At(a.state, a.locs[j]) <==> At(b.state, a.locs[i]) == At(b.state, a.locs[j])
    {
      SharedOwners(a, b, i);
      LinkIsShared(a.state, b.state, a.locs[j]);
      OwnersHold(a.state, a.locs, a.locs[j], At(a.state, a.locs[i]));
      OwnersHold(b.state, b.locs, b.locs[j], At(b.state, b.locs[i]));
    }
  }

  lemma SharedOwners(a: Shot, b: Shot, i: nat)
    requires Captured(a) && Captured(b) && a.out == b.out && a.locs == b.locs && i < |a.locs| && At(a.state, a.locs[i]) in Ids(a.pool)
    requires IsLink(a.out.value.owners, a.locs[i]) && ShownAt(a, a.locs[i]) && ShownAt(b, a.locs[i]) && SameThere(a, b, a.locs[i])
    ensures OwnersOf(a.state, a.locs, At(a.state, a.locs[i])) == OwnersOf(b.state, b.locs, At(b.state, b.locs[i]))
  {
    hide BindAll, Compare, Distinct, AllLinks, StateOk, AnchorOf, Less, IsLink, GivenUp, Lost, Reanimations.PoolOk, At, OwnersOf;
  }
}
