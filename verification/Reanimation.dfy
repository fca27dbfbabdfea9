// determinism/reanimation_audit.cpp: opaque animation handles become stable
// logical names, so that two runs with different handles compare equal.
module Reanimations {
  import opened JsonPointers

  datatype Sample = Sample(id: nat, dead: bool, definitionValid: bool, semantic: Json)
  datatype Pool = Pool(capacity: nat, used: nat, count: nat, slots: map<nat, Sample>)

  datatype Binding = Binding(anchor: string, handle: nat, ownerDead: bool, ownerSquished: bool, specialHead: bool, zombieType: nat, hasObject: bool)

  // The n-th lifetime named after an anchor.
  datatype Name = Name(anchor: string, lifetime: nat)

  datatype Failure = OutOfRange | NotAllocated | GenerationMismatch
  datatype Reference = Unset | Expired | Dangling(handle: nat, reason: Failure, actual: Option<nat>) | Live(node: Name) | Retiring(node: Name)
  datatype Problem = DanglingHandle | DefinitionMismatch
  datatype Node = Node(state: Json, owners: seq<string>)
  datatype Identity = Identity(logical: Name, present: bool)

  // What one frame reports besides the rewritten owner state.
  datatype Report = Report(references: seq<Reference>, nodes: map<Name, Node>, issues: seq<(string, Problem)>)

  // The auditor's memory and the frame in progress.
  datatype Frame = Frame(identities: map<nat, Identity>, next: map<string, nat>, report: Report)

  predicate PoolOk(pool: Pool) {
    && pool.used <= pool.capacity <= 65536 && pool.count == |pool.slots|
    && forall slot :: slot in pool.slots ==> slot < pool.used && pool.slots[slot].id / 0x10000 != 0 && pool.slots[slot].id % 0x10000 == slot
  }

  lemma PoolOkMeans(pool: Pool)
    ensures PoolOk(pool) <==> (pool.used <= pool.capacity && pool.capacity <= 0x1_0000 && pool.count == |pool.slots|
      && forall slot :: slot in pool.slots ==> slot < pool.used && pool.slots[slot].id >= 0x1_0000 && pool.slots[slot].id % 0x1_0000 == slot)
  {
  }

  function Ids(pool: Pool): set<nat> {
    set slot | slot in pool.slots :: pool.slots[slot].id
  }

  // The sample a handle really refers to.
  function Resolve(pool: Pool, handle: nat): Option<Sample> {
    var slot := handle % 0x10000;
    if handle != 0 && slot in pool.slots && pool.slots[slot].id == handle then Some(pool.slots[slot]) else None
  }

  lemma ResolvedIsAllocated(pool: Pool, handle: nat)
    requires PoolOk(pool)
    ensures Resolve(pool, handle).Some? <==> handle in Ids(pool)
    ensures forall slot :: slot in pool.slots && pool.slots[slot].id == handle ==> Resolve(pool, handle) == Some(pool.slots[slot])
  {
  }

  function Lifetimes(next: map<string, nat>, anchor: string): nat {
    if anchor in next then next[anchor] else 0
  }

  function FailureOf(pool: Pool, handle: nat): Failure {
    var slot := handle % 0x10000;
    if slot >= pool.capacity then OutOfRange else if slot !in pool.slots then NotAllocated else GenerationMismatch
  }

  predicate Retired(pool: Pool, b: Binding) {
    b.ownerDead || b.ownerSquished
    || (b.specialHead && b.zombieType == 1 && !b.hasObject && b.handle / 0x10000 != 0 && b.handle % 0x10000 < pool.used)
  }

  // Ids that left the pool end their lifetime.
  function Retire(identities: map<nat, Identity>, ids: set<nat>): map<nat, Identity> {
    map h | h in identities :: if h in ids then identities[h] else identities[h].(present := false)
  }

  predicate Present(f: Frame, h: nat) {
    h in f.identities && f.identities[h].present
  }

  // The handle gets a new name unless its lifetime already has one.
  function Identify(f: Frame, h: nat, anchor: string): Frame {
    if Present(f, h) then f
    else f.(identities := f.identities[h := Identity(Name(anchor, Lifetimes(f.next, anchor)), true)],
            next := f.next[anchor := Lifetimes(f.next, anchor) + 1])
  }

  // Names of one anchor are numbered from zero, one after another.
  lemma NamesAreNumbered(f: Frame, h: nat, anchor: string)
    requires !Present(f, h)
    ensures var g, number := Identify(f, h, anchor), if anchor in f.next then f.next[anchor] else 0;
      g.identities[h] == Identity(Name(anchor, number), true) && g.next == f.next[anchor := number + 1]
  {
  }

  function AddReference(r: Report, reference: Reference): Report {
    r.(references := r.references + [reference])
  }

  function AddOwner(r: Report, name: Name, sample: Sample, anchor: string): Report {
    var node := if name in r.nodes then r.nodes[name] else Node(sample.semantic, []);
    r.(nodes := r.nodes[name := node.(owners := node.owners + [anchor])],
       issues := if sample.definitionValid then r.issues else r.issues + [(anchor, DefinitionMismatch)])
  }

  // One binding.
  function Bind(f: Frame, pool: Pool, b: Binding): Frame {
    if b.handle == 0 then f.(report := AddReference(f.report, Unset))
    else match Resolve(pool, b.handle)
      case None =>
        if Retired(pool, b) then f.(report := AddReference(f.report, Expired))
        else
          var slot := b.handle % 0x10000;
          var actual := if slot in pool.slots then Some(pool.slots[slot].id) else None;
          var dangling := AddReference(f.report, Dangling(b.handle, FailureOf(pool, b.handle), actual));
          f.(report := dangling.(issues := dangling.issues + [(b.anchor, DanglingHandle)]))
      case Some(sample) =>
        var g := Identify(f, b.handle, b.anchor);
        var name := g.identities[b.handle].logical;
        g.(report := AddReference(AddOwner(g.report, name, sample, b.anchor), if sample.dead then Retiring(name) else Live(name)))
  }

  function BindAll(f: Frame, pool: Pool, bindings: seq<Binding>): Frame {
    if bindings == [] then f else Bind(BindAll(f, pool, bindings[..|bindings| - 1]), pool, bindings[|bindings| - 1])
  }

  const EMPTY := Report([], map[], [])

  function StartFrame(identities: map<nat, Identity>, next: map<string, nat>, pool: Pool): Frame {
    Frame(Retire(identities, Ids(pool)), next, EMPTY)
  }

  // ---- names are lifetimes -----------------------------------------------------------

  // Every name in use was issued, and no two handles share a lifetime's name.
  ghost predicate Distinct(identities: map<nat, Identity>, next: map<string, nat>) {
    && (forall h :: h in identities ==> identities[h].logical.lifetime < Lifetimes(next, identities[h].logical.anchor))
    && (forall h, g :: h in identities && g in identities && identities[h].present && identities[g].present && h != g ==>
          identities[h].logical != identities[g].logical)
  }

  lemma RetireKeeps(identities: map<nat, Identity>, next: map<string, nat>, ids: set<nat>)
    requires Distinct(identities, next)
    ensures Distinct(Retire(identities, ids), next)
    ensures forall h :: h in identities && h in ids ==> Retire(identities, ids)[h] == identities[h]
  {
  }

  // A name given now was never used before; names already given stay.
  lemma IdentifyKeeps(f: Frame, h: nat, anchor: string)
    requires Distinct(f.identities, f.next)
    ensures var g := Identify(f, h, anchor);
      && Distinct(g.identities, g.next) && Present(g, h) && g.report == f.report
      && (forall x :: Present(f, x) ==> Present(g, x) && g.identities[x] == f.identities[x])
      && (forall x :: Present(g, x) && !Present(f, x) ==> g.identities[x].logical.lifetime >= Lifetimes(f.next, g.identities[x].logical.anchor))
      && (forall a :: Lifetimes(f.next, a) <= Lifetimes(g.next, a))
  {
  }

  // Over one frame: allocated handles keep their names, new names are fresh, and
  // each reference shows the name of its own handle.
  lemma {:induction false} BindAllKeeps(f: Frame, pool: Pool, bindings: seq<Binding>)
    requires Distinct(f.identities, f.next) && f.report == EMPTY
    ensures var g := BindAll(f, pool, bindings);
      && Distinct(g.identities, g.next)
      && (forall x :: Present(f, x) ==> Present(g, x) && g.identities[x] == f.identities[x])
      && (forall x :: Present(g, x) && !Present(f, x) ==> g.identities[x].logical.lifetime >= Lifetimes(f.next, g.identities[x].logical.anchor))
      && (forall a :: Lifetimes(f.next, a) <= Lifetimes(g.next, a))
      && |g.report.references| == |bindings|
      && (forall i :: 0 <= i < |bindings| ==> Names(g, pool, bindings[i], g.report.references[i]))
  {
    hide Distinct, Identify;
    if bindings != [] {
      var n := |bindings| - 1;
      BindAllKeeps(f, pool, bindings[..n]);
      BindKeeps(BindAll(f, pool, bindings[..n]), pool, bindings[n]);
    }
  }

  // A valid link is named after its handle's lifetime, any other is not named.
  ghost predicate Names(g: Frame, pool: Pool, b: Binding, r: Reference) {
    if Resolve(pool, b.handle).Some? then
      Present(g, b.handle) && (r == Live(g.identities[b.handle].logical) || r == Retiring(g.identities[b.handle].logical))
    else !r.Live? && !r.Retiring?
  }

  lemma BindKeeps(f: Frame, pool: Pool, b: Binding)
    requires Distinct(f.identities, f.next)
    ensures var g := Bind(f, pool, b);
      && Distinct(g.identities, g.next)
      && (forall x :: Present(f, x) ==> Present(g, x) && g.identities[x] == f.identities[x])
      && (forall x :: Present(g, x) && !Present(f, x) ==> g.identities[x].logical.lifetime >= Lifetimes(f.next, g.identities[x].logical.anchor))
      && (forall a :: Lifetimes(f.next, a) <= Lifetimes(g.next, a))
      && |g.report.references| == |f.report.references| + 1 && f.report.references <= g.report.references
      && Names(g, pool, b, g.report.references[|f.report.references|])
  {
    hide Distinct, Identify, Retired, FailureOf;
    IdentifyKeeps(f, b.handle, b.anchor);
  }

  // Two valid links of a frame name the same node exactly when they hold the same
  // handle.
  lemma SameNodeSameHandle(g: Frame, pool: Pool, b: Binding, c: Binding, r: Reference, s: Reference)
    requires Distinct(g.identities, g.next) && Names(g, pool, b, r) && Names(g, pool, c, s)
    requires Resolve(pool, b.handle).Some? && Resolve(pool, c.handle).Some?
    ensures NodeOf(r) == NodeOf(s) <==> b.handle == c.handle
  {
  }

  function NodeOf(r: Reference): Option<Name> {
    if r.Live? || r.Retiring? then Some(r.node) else None
  }

  // ---- what a report shows ------------------------------------------------------------

  // The anchors of the links that hold one handle, in order.
  function LinksTo(bindings: seq<Binding>, h: nat): seq<string> {
    if bindings == [] then []
    else
      var b := bindings[|bindings| - 1];
      LinksTo(bindings[..|bindings| - 1], h) + if b.handle == h then [b.anchor] else []
  }

  // What is wrong with the links, in order: an animation of the wrong definition, or
  // none at all under a handle that is still in use.
  function Problems(pool: Pool, bindings: seq<Binding>): seq<(string, Problem)> {
    if bindings == [] then []
    else Problems(pool, bindings[..|bindings| - 1]) + ProblemsOf(pool, bindings[|bindings| - 1])
  }

  function ProblemsOf(pool: Pool, b: Binding): seq<(string, Problem)> {
    match Resolve(pool, b.handle)
    case Some(s) => if s.definitionValid then [] else [(b.anchor, DefinitionMismatch)]
    case None => if b.handle == 0 || Retired(pool, b) then [] else [(b.anchor, DanglingHandle)]
  }

  lemma {:induction false} EveryProblem(pool: Pool, bindings: seq<Binding>)
    ensures forall x :: x in Problems(pool, bindings) <==> exists i :: 0 <= i < |bindings| && x in ProblemsOf(pool, bindings[i])
  {
    hide ProblemsOf;
    if bindings != [] {
      var n := |bindings| - 1;
      EveryProblem(pool, bindings[..n]);
      assert forall i :: 0 <= i < n ==> bindings[..n][i] == bindings[i];
      forall x | x in Problems(pool, bindings)
        ensures exists i :: 0 <= i < |bindings| && x in ProblemsOf(pool, bindings[i])
      {
        if x in Problems(pool, bindings[..n]) {
          var i :| 0 <= i < n && x in ProblemsOf(pool, bindings[..n][i]);
          assert x in ProblemsOf(pool, bindings[i]);
        } else {
          assert x in ProblemsOf(pool, bindings[n]);
        }
      }
    }
  }

  // The reference of one link.
  ghost predicate Refers(g: Frame, pool: Pool, b: Binding, r: Reference) {
    if b.handle == 0 then r == Unset
    else match Resolve(pool, b.handle)
      case Some(s) => Present(g, b.handle) && r == if s.dead then Retiring(g.identities[b.handle].logical) else Live(g.identities[b.handle].logical)
      case None =>
        if Retired(pool, b) then r == Expired
        else
          var slot := b.handle % 0x10000;
          r == Dangling(b.handle, FailureOf(pool, b.handle), if slot in pool.slots then Some(pool.slots[slot].id) else None)
  }

  predicate Linked(pool: Pool, bindings: seq<Binding>, h: nat) {
    Resolve(pool, h).Some? && LinksTo(bindings, h) != []
  }

  // The nodes are those of the linked handles, each with its animation's state and
  // the anchors of the links to it.
  ghost predicate ShowsNodes(g: Frame, pool: Pool, bindings: seq<Binding>) {
    && (forall h :: Linked(pool, bindings, h) ==> ShowsNode(g, pool, bindings, h))
    && (forall n :: n in g.report.nodes ==> exists h :: Linked(pool, bindings, h) && Present(g, h) && g.identities[h].logical == n)
  }

  ghost predicate ShowsNode(g: Frame, pool: Pool, bindings: seq<Binding>, h: nat)
    requires Resolve(pool, h).Some?
  {
    Present(g, h) &&
    var n := g.identities[h].logical;
    n in g.report.nodes && g.report.nodes[n] == Node(Resolve(pool, h).value.semantic, LinksTo(bindings, h))
  }

  lemma {:induction false} ReportShows(f: Frame, pool: Pool, bindings: seq<Binding>)
    requires Distinct(f.identities, f.next) && f.report == EMPTY
    ensures var g := BindAll(f, pool, bindings);
      && Distinct(g.identities, g.next) && |g.report.references| == |bindings|
      && (forall i :: 0 <= i < |bindings| ==> Refers(g, pool, bindings[i], g.report.references[i]))
      && ShowsNodes(g, pool, bindings) && g.report.issues == Problems(pool, bindings)
  {
    hide Distinct, ShowsNodes, Bind, Refers, ProblemsOf, Present;
    if bindings == [] {
      NoNodes(f, pool);
    } else {
      var n := |bindings| - 1;
      var g := BindAll(f, pool, bindings[..n]);
      ReportShows(f, pool, bindings[..n]);
      BindKeeps(g, pool, bindings[n]);
      BindShows(g, pool, bindings[n]);
      BindNodes(g, pool, bindings[..n], bindings[n]);
      assert bindings == bindings[..n] + [bindings[n]];
      forall i | 0 <= i < n
        ensures Refers(Bind(g, pool, bindings[n]), pool, bindings[i], g.report.references[i])
      {
        RefersStays(g, Bind(g, pool, bindings[n]), pool, bindings[i], g.report.references[i]);
      }
    }
  }

  lemma NoNodes(f: Frame, pool: Pool)
    requires f.report == EMPTY
    ensures ShowsNodes(f, pool, [])
  {
  }

  lemma RefersStays(f: Frame, g: Frame, pool: Pool, b: Binding, r: Reference)
    requires Refers(f, pool, b, r)
    requires forall x :: Present(f, x) ==> Present(g, x) && g.identities[x] == f.identities[x]
    ensures Refers(g, pool, b, r)
  {
    hide Resolve, Retired, FailureOf;
  }

  lemma BindShows(f: Frame, pool: Pool, b: Binding)
    ensures var g := Bind(f, pool, b);
      && |g.report.references| == |f.report.references| + 1 && f.report.references <= g.report.references
      && Refers(g, pool, b, g.report.references[|f.report.references|])
      && g.report.issues == f.report.issues + ProblemsOf(pool, b)
  {
    hide Retired, FailureOf;
  }

  lemma LinksToMore(bindings: seq<Binding>, b: Binding, h: nat)
    ensures LinksTo(bindings + [b], h) == LinksTo(bindings, h) + if b.handle == h then [b.anchor] else []
  {
    assert (bindings + [b])[..|bindings|] == bindings;
  }

  lemma BindNodes(f: Frame, pool: Pool, bindings: seq<Binding>, b: Binding)
    requires Distinct(f.identities, f.next) && ShowsNodes(f, pool, bindings)
    ensures ShowsNodes(Bind(f, pool, b), pool, bindings + [b])
  {
    hide Retired, FailureOf, LinksTo, Identify, Distinct;
    forall h
      ensures LinksTo(bindings + [b], h) == LinksTo(bindings, h) + if b.handle == h then [b.anchor] else []
    {
      LinksToMore(bindings, b, h);
    }
    var g := Bind(f, pool, b);
    if Resolve(pool, b.handle).Some? {
      var named := Identify(f, b.handle, b.anchor);
      IdentifyKeeps(f, b.handle, b.anchor);
      assert ShowsNodes(named, pool, bindings);
      OwnerJoins(named, pool, bindings, b);
      assert g.identities == named.identities;
      assert g.report.nodes == AddOwner(named.report, named.identities[b.handle].logical, Resolve(pool, b.handle).value, b.anchor).nodes;
    } else {
      assert forall h :: Linked(pool, bindings + [b], h) <==> Linked(pool, bindings, h);
    }
  }

  // One more owner of the node of an allocated handle.
  lemma OwnerJoins(f: Frame, pool: Pool, bindings: seq<Binding>, b: Binding)
    requires Distinct(f.identities, f.next) && ShowsNodes(f, pool, bindings) && Resolve(pool, b.handle).Some? && Present(f, b.handle)
    ensures ShowsNodes(f.(report := AddOwner(f.report, f.identities[b.handle].logical, Resolve(pool, b.handle).value, b.anchor)), pool, bindings + [b])
  {
    hide Resolve, LinksTo;
    forall h
      ensures LinksTo(bindings + [b], h) == LinksTo(bindings, h) + if b.handle == h then [b.anchor] else []
    {
      LinksToMore(bindings, b, h);
    }
    var name := f.identities[b.handle].logical;
    var g := f.(report := AddOwner(f.report, name, Resolve(pool, b.handle).value, b.anchor));
    assert name in f.report.nodes ==> Linked(pool, bindings, b.handle);
    forall h | Linked(pool, bindings + [b], h)
      ensures ShowsNode(g, pool, bindings + [b], h)
    {
      if Linked(pool, bindings, h) {
        assert ShowsNode(f, pool, bindings, h);
      } else {
        assert h == b.handle && LinksTo(bindings, h) == [] && name !in f.report.nodes;
        assert g.report.nodes[name] == Node(Resolve(pool, h).value.semantic, [] + [b.anchor]);
      }
    }
    assert Linked(pool, bindings + [b], b.handle);
    forall n | n in g.report.nodes
      ensures exists h :: Linked(pool, bindings + [b], h) && Present(g, h) && g.identities[h].logical == n
    {
      if n != name {
        var h :| Linked(pool, bindings, h) && Present(f, h) && f.identities[h].logical == n;
        assert Linked(pool, bindings + [b], h) && Present(g, h);
      }
    }
  }

  // ---- two runs ------------------------------------------------------------------------

  // The handles of run A and run B that denote the same animation.
  type Pairing = set<(nat, nat)>

  ghost predicate OneToOne(pairs: Pairing) {
    forall p, q :: p in pairs && q in pairs ==> (p.0 == q.0 <==> p.1 == q.1)
  }

  function Lefts(pairs: Pairing): set<nat> {
    set p | p in pairs :: p.0
  }

  function Rights(pairs: Pairing): set<nat> {
    set p | p in pairs :: p.1
  }

  // Both memories name paired handles alike and name nothing else.
  ghost predicate Agree(f: Frame, g: Frame, pairs: Pairing) {
    && (forall a :: Lifetimes(f.next, a) == Lifetimes(g.next, a))
    && (forall p :: p in pairs ==> Present(f, p.0) == Present(g, p.1))
    && (forall p :: p in pairs && Present(f, p.0) ==> f.identities[p.0].logical == g.identities[p.1].logical)
    && (forall h :: Present(f, h) ==> h in Lefts(pairs))
    && (forall h :: Present(g, h) ==> h in Rights(pairs))
  }

  // The same link in both runs: unset in both, paired and equal animations, or
  // retired in both.
  predicate SameLink(a: Binding, b: Binding, p: Pool, q: Pool, pairs: Pairing) {
    && a.anchor == b.anchor
    && (a.handle == 0 <==> b.handle == 0)
    && match (Resolve(p, a.handle), Resolve(q, b.handle))
       case (Some(s), Some(t)) => (a.handle, b.handle) in pairs && s.(id := 0) == t.(id := 0)
       case (None, None) => a.handle == 0 || (Retired(p, a) && Retired(q, b))
       case _ => false
  }

  lemma IdentifyAgrees(f: Frame, g: Frame, pairs: Pairing, h: nat, k: nat, anchor: string)
    requires OneToOne(pairs) && Agree(f, g, pairs) && (h, k) in pairs
    ensures var f', g' := Identify(f, h, anchor), Identify(g, k, anchor);
      Agree(f', g', pairs) && f'.identities[h].logical == g'.identities[k].logical && f'.report == f.report && g'.report == g.report
  {
    hide Lefts, Rights;
    var f', g' := Identify(f, h, anchor), Identify(g, k, anchor);
    var p := (h, k);
    assert Present(f, p.0) == Present(g, p.1);
    PairedEnds(pairs, h, k);
    forall a
      ensures Lifetimes(f'.next, a) == Lifetimes(g'.next, a)
    {
      assert Lifetimes(f.next, a) == Lifetimes(g.next, a) && Lifetimes(f.next, anchor) == Lifetimes(g.next, anchor);
    }
    assert forall x :: Present(f', x) ==> Present(f, x) || x == h;
    assert forall x :: Present(g', x) ==> Present(g, x) || x == k;
  }

  lemma PairedEnds(pairs: Pairing, h: nat, k: nat)
    requires (h, k) in pairs
    ensures h in Lefts(pairs) && k in Rights(pairs)
  {
    assert (h, k).0 == h && (h, k).1 == k;
  }

  lemma BindAgrees(f: Frame, g: Frame, p: Pool, q: Pool, pairs: Pairing, a: Binding, b: Binding)
    requires OneToOne(pairs) && Agree(f, g, pairs) && f.report == g.report && SameLink(a, b, p, q, pairs)
    ensures Agree(Bind(f, p, a), Bind(g, q, b), pairs) && Bind(f, p, a).report == Bind(g, q, b).report
  {
    hide Identify, Retired, FailureOf, Agree;
    if Resolve(p, a.handle).Some? {
      IdentifyAgrees(f, g, pairs, a.handle, b.handle, a.anchor);
      var f', g', r := Identify(f, a.handle, a.anchor), Identify(g, b.handle, b.anchor), Bind(f, p, a).report;
      ReportAside(f', g', pairs, r);
      var s, t := Resolve(p, a.handle).value, Resolve(q, b.handle).value;
      assert s.semantic == t.semantic && s.dead == t.dead && s.definitionValid == t.definitionValid;
      assert Bind(g, q, b).report == r;
      assert Bind(f, p, a) == f'.(report := r) && Bind(g, q, b) == g'.(report := r);
    } else {
      ReportAside(f, g, pairs, Bind(f, p, a).report);
    }
  }

  lemma ReportAside(f: Frame, g: Frame, pairs: Pairing, r: Report)
    requires Agree(f, g, pairs)
    ensures Agree(f.(report := r), g.(report := r), pairs)
  {
    assert forall h :: Present(f.(report := r), h) == Present(f, h);
    assert forall h :: Present(g.(report := r), h) == Present(g, h);
  }

  // Two runs whose links correspond report the same references, nodes and issues.
  lemma {:induction false} FramesAgree(f: Frame, g: Frame, p: Pool, q: Pool, pairs: Pairing, a: seq<Binding>, b: seq<Binding>)
    requires OneToOne(pairs) && Agree(f, g, pairs) && f.report == g.report && |a| == |b|
    requires forall i :: 0 <= i < |a| ==> SameLink(a[i], b[i], p, q, pairs)
    ensures Agree(BindAll(f, p, a), BindAll(g, q, b), pairs) && BindAll(f, p, a).report == BindAll(g, q, b).report
  {
    hide Agree, Bind, SameLink;
    if a != [] {
      var n := |a| - 1;
      FramesAgree(f, g, p, q, pairs, a[..n], b[..n]);
      BindAgrees(BindAll(f, p, a[..n]), BindAll(g, q, b[..n]), p, q, pairs, a[n], b[n]);
    }
  }

  // A lifetime-consistent renaming: pairs stay paired as long as they are
  // allocated, and both ends are freed together.
  ghost predicate Persists(pairs: Pairing, later: Pairing, p: Pool, q: Pool) {
    forall x :: x in pairs ==> (x.0 in Ids(p) <==> x.1 in Ids(q)) && (x.0 in Ids(p) ==> x in later)
  }

  lemma RetireAgrees(f: Frame, g: Frame, pairs: Pairing, later: Pairing, p: Pool, q: Pool)
    requires OneToOne(pairs) && OneToOne(later) && Agree(f, g, pairs) && Persists(pairs, later, p, q)
    requires forall x :: x in later ==> x.0 in Ids(p) && x.1 in Ids(q)
    ensures Agree(StartFrame(f.identities, f.next, p), StartFrame(g.identities, g.next, q), later)
  {
    var f', g' := StartFrame(f.identities, f.next, p), StartFrame(g.identities, g.next, q);
    hide Ids;
    assert forall h :: Present(f', h) <==> Present(f, h) && h in Ids(p);
    assert forall h :: Present(g', h) <==> Present(g, h) && h in Ids(q);
    forall h | Present(f', h)
      ensures h in Lefts(later)
    {
      assert Present(f, h);
      var x :| x in pairs && x.0 == h;
      assert x in later;
    }
    forall h | Present(g', h)
      ensures h in Rights(later)
    {
      assert Present(g, h);
      var x :| x in pairs && x.1 == h;
      assert x in later;
    }
    forall x | x in later
      ensures Present(f', x.0) == Present(g', x.1)
      ensures Present(f', x.0) ==> f'.identities[x.0].logical == g'.identities[x.1].logical
    {
      if Present(f, x.0) {
        var y :| y in pairs && y.0 == x.0;
        assert y in later && y == x;
      }
      if Present(g, x.1) {
        var y :| y in pairs && y.1 == x.1;
        assert y in later && y == x;
      }
    }
  }

  // ---- the auditor ---------------------------------------------------------------------

  class ReanimationAuditor {
    var identities: map<nat, Identity>
    var nextLifetime: map<string, nat>

    ghost predicate Valid()
      reads this
    {
      Distinct(identities, nextLifetime)
    }

    constructor ()
      ensures Valid() && identities == map[] && nextLifetime == map[]
    {
      identities, nextLifetime := map[], map[];
    }

    method Reset()
      modifies this
      ensures Valid() && identities == map[] && nextLifetime == map[]
    {
      identities, nextLifetime := map[], map[];
    }

    // Ids missing from the pool are retired before any link is read.
    method RetireMissing(pool: Pool)
      modifies this`identities
      ensures identities == Retire(old(identities), Ids(pool))
    {
      var ids := Ids(pool);
      var todo := identities.Keys;
      ghost var before := identities;
      while todo != {}
        invariant todo <= identities.Keys == before.Keys
        invariant forall h :: h in before ==>
          identities[h] == if h in todo || h in ids then before[h] else before[h].(present := false)
      {
        var h :| h in todo;
        if h !in ids { identities := identities[h := identities[h].(present := false)]; }
        todo := todo - {h};
      }
      assert identities == Retire(before, ids);
    }

    // The logical name of an allocated handle.
    method NameOf(handle: nat, anchor: string) returns (name: Name)
      modifies this
      ensures var f, g := Frame(old(identities), old(nextLifetime), EMPTY), Frame(identities, nextLifetime, EMPTY);
        g == Identify(f, handle, anchor) && handle in identities && name == identities[handle].logical
    {
      if !(handle in identities && identities[handle].present) {
        var lifetime := Lifetimes(nextLifetime, anchor);
        identities := identities[handle := Identity(Name(anchor, lifetime), true)];
        nextLifetime := nextLifetime[anchor := lifetime + 1];
      }
      name := identities[handle].logical;
    }

    // Names the links of one frame. A malformed pool changes nothing.
    method Begin(pool: Pool) returns (ok: bool)
      requires Valid()
      modifies this`identities
      ensures Valid() && (ok <==> PoolOk(pool))
      ensures identities == if ok then Retire(old(identities), Ids(pool)) else old(identities)
    {
      hide Distinct, Retire;
      ok := PoolOk(pool);
      if ok {
        RetireKeeps(identities, nextLifetime, Ids(pool));
        RetireMissing(pool);
      }
    }

    method NameLinks(bindings: seq<Binding>, pool: Pool) returns (report: Report)
      requires Valid()
      modifies this
      ensures Valid() && Frame(identities, nextLifetime, report) == BindAll(Frame(old(identities), old(nextLifetime), EMPTY), pool, bindings)
    {
      hide Identify, Distinct, Retired, FailureOf;
      ghost var start := Frame(identities, nextLifetime, EMPTY);
      BindAllKeeps(start, pool, bindings);
      report := EMPTY;
      for i := 0 to |bindings|
        invariant Frame(identities, nextLifetime, report) == BindAll(start, pool, bindings[..i])
      {
        assert bindings[..i + 1][..i] == bindings[..i];
        report := BindOne(bindings[i], pool, report);
      }
      assert bindings[..|bindings|] == bindings;
    }

    method BindOne(b: Binding, pool: Pool, report: Report) returns (r: Report)
      modifies this
      ensures Frame(identities, nextLifetime, r) == Bind(Frame(old(identities), old(nextLifetime), report), pool, b)
    {
      hide Retired, FailureOf;
      r := report;
      if b.handle == 0 {
        r := AddReference(r, Unset);
      } else {
        var found := Resolve(pool, b.handle);
        if found.None? {
          if Retired(pool, b) {
            r := AddReference(r, Expired);
          } else {
            var slot := b.handle % 0x10000;
            var actual := if slot in pool.slots then Some(pool.slots[slot].id) else None;
            r := AddReference(r, Dangling(b.handle, FailureOf(pool, b.handle), actual));
            r := r.(issues := r.issues + [(b.anchor, DanglingHandle)]);
          }
        } else {
          IdentifyAside(Frame(identities, nextLifetime, EMPTY), report, b.handle, b.anchor);
          var name := NameOf(b.handle, b.anchor);
          r := AddOwner(r, name, found.value, b.anchor);
          r := AddReference(r, if found.value.dead then Retiring(name) else Live(name));
        }
      }
    }
  }

  lemma IdentifyAside(f: Frame, r: Report, h: nat, anchor: string)
    ensures Identify(f.(report := r), h, anchor) == Identify(f, h, anchor).(report := r)
  {
  }
}
