// tools/compare_worlds.py: the difference set of two replayed streams, refreshed
// only where a patch touched them.
module IncrementalComparisons {
  import opened JsonPointers
  import opened JsonPatches
  import opened WorldComparisons
  import opened StateStreams

  // ---- looking values up -----------------------------------------------------------

  // The lookup accepts any decimal digits as an index.
  function Lookup(doc: Json, token: string): Option<Json> {
    if doc.Obj? then if token in doc.fields then Some(doc.fields[token]) else None
    else if doc.Arr? && IsDigits(token) && NumberOf(token) < |doc.items| then Some(doc.items[NumberOf(token)])
    else None
  }

  function ValueAt(doc: Json, path: Path): Option<Json>
    decreases |path|
  {
    if path == [] then Some(doc)
    else match Lookup(doc, path[0]) case None => None case Some(v) => ValueAt(v, path[1..])
  }

  // Looking a location up finds what a patch put there.
  lemma {:induction false} ReplacedIsFound(doc: Json, at: Path, v: Json)
    requires Apply(doc, Replace(at, v)).Some?
    ensures ValueAt(Apply(doc, Replace(at, v)).value, at) == Some(v)
    decreases |at|
  {
    if |at| > 1 {
      var e, k := Replace(at, v), at[0];
      var c := Child(doc, k).value;
      var d := Apply(c, Replace(at[1..], v)).value;
      ReplacedIsFound(c, at[1..], v);
      assert Apply(doc, e) == Some(WithChild(doc, k, d));
      assert Lookup(WithChild(doc, k, d), k) == Some(d);
    }
  }

  method FindValue(doc: Json, path: Path) returns (r: Option<Json>)
    ensures r == ValueAt(doc, path)
  {
    hide Lookup;
    var node := doc;
    for i := 0 to |path|
      invariant ValueAt(doc, path) == ValueAt(node, path[i..])
    {
      var next := Lookup(node, path[i]);
      assert path[i..][0] == path[i] && path[i..][1..] == path[i + 1..];
      if next.None? { return None; }
      node := next.value;
    }
    r := Some(node);
  }

  // ---- what a difference shows -------------------------------------------------------

  // Every reported item shows what the two states hold at its location, the left
  // state's side first.
  lemma {:induction false} ItemsShowTheStates(a: Json, b: Json, q: Path)
    requires DiffAt(a, b, q).Some?
    ensures var x, y := ValueAt(a, q), ValueAt(b, q);
      match DiffAt(a, b, q).value
      case ValueItem(l, r) => x.Some? && y.Some? && l == Scalar(x.value) && r == Scalar(y.value) && x != y && ScalarsOfOneKind(x.value, y.value)
      case LengthItem(m, n) => x.Some? && y.Some? && x.value.Arr? && y.value.Arr? && m == |x.value.items| && n == |y.value.items| && m != n
      case TypeItem(l, r) => x.Some? && y.Some? && Shown(l, x.value) && Shown(r, y.value) && !ScalarsOfOneKind(x.value, y.value) && !(x.value.Arr? && y.value.Arr?) && !(x.value.Obj? && y.value.Obj?)
      case MissingItem(l, r) =>
        && q != [] && x.Some? != y.Some? && l.Some? == x.Some? && r.Some? == y.Some?
        && (x.Some? ==> Shown(l.value, x.value)) && (y.Some? ==> Shown(r.value, y.value))
    decreases |q|
  {
    if q != [] {
      match StepTo(a, b, q[0])
      case Both(x, y) => ItemsShowTheStates(x, y, q[1..]);
      case One(x, y) => assert q[1..] == [];
      case Neither =>
    }
  }

  predicate Shown(face: Face, v: Json) {
    && (face == List <==> v.Arr?) && (face == Dict <==> v.Obj?)
    && (face == Scalar(v) <==> v.Null? || v.Bool? || v.Num? || v.Str?)
  }

  predicate ScalarsOfOneKind(v: Json, w: Json) {
    (v.Null? && w.Null?) || (v.Bool? && w.Bool?) || (v.Num? && w.Num?) || (v.Str? && w.Str?)
  }

  // One step down both states leads on: both hold an object, or both hold an array
  // with an item there.
  predicate StepsOn(x: Option<Json>, y: Option<Json>, token: string) {
    x.Some? && y.Some? &&
    ( || (x.value.Obj? && y.value.Obj?)
      || (x.value.Arr? && y.value.Arr? && IndexOf(token).Some? && IndexOf(token).value < |x.value.items| && IndexOf(token).value < |y.value.items|))
  }

  // Something to report: only one state has a value there, or both have and these
  // are of different kinds, arrays of different lengths or different scalars.
  predicate Reportable(x: Option<Json>, y: Option<Json>) {
    || x.Some? != y.Some?
    || (x.Some? && y.Some? &&
       if x.value.Arr? && y.value.Arr? then |x.value.items| != |y.value.items|
       else if x.value.Obj? && y.value.Obj? then false
       else x != y)
  }

  ghost predicate InStep(a: Json, b: Json, q: Path) {
    forall i :: 0 <= i < |q| ==> StepsOn(ValueAt(a, q[..i]), ValueAt(b, q[..i]), q[i])
  }

  // A difference is reported at a location exactly when both states can be walked
  // in step to it and there is something to report.
  lemma {:induction false} ReportedExactly(a: Json, b: Json, q: Path)
    ensures DiffAt(a, b, q).Some? <==> InStep(a, b, q) && Reportable(ValueAt(a, q), ValueAt(b, q))
    decreases |q|
  {
    if q != [] {
      assert q[..0] == [];
      if StepsOn(Some(a), Some(b), q[0]) {
        var x, y := Lookup(a, q[0]), Lookup(b, q[0]);
        if x.Some? && y.Some? {
          ReportedExactly(x.value, y.value, q[1..]);
          FirstStep(a, b, q);
        } else if |q| > 1 {
          assert q[..1] == [q[0]];
          assert ValueAt(a, q[..1]) == x && ValueAt(b, q[..1]) == y;
        }
      }
    }
  }

  lemma FirstStep(a: Json, b: Json, q: Path)
    requires q != [] && StepsOn(Some(a), Some(b), q[0]) && Lookup(a, q[0]).Some? && Lookup(b, q[0]).Some?
    ensures InStep(a, b, q) <==> InStep(Lookup(a, q[0]).value, Lookup(b, q[0]).value, q[1..])
  {
    hide StepsOn, Lookup;
    var x, y := Lookup(a, q[0]).value, Lookup(b, q[0]).value;
    forall i | 0 <= i < |q| - 1
      ensures q[1..][i] == q[i + 1] && ValueAt(a, q[..i + 1]) == ValueAt(x, q[1..][..i]) && ValueAt(b, q[..i + 1]) == ValueAt(y, q[1..][..i])
    {
      assert q[..i + 1][1..] == q[1..][..i];
    }
    assert q[..0] == [];
    if InStep(x, y, q[1..]) {
      forall i | 0 <= i < |q|
        ensures StepsOn(ValueAt(a, q[..i]), ValueAt(b, q[..i]), q[i])
      {
        if i > 0 { assert q[1..][i - 1] == q[i]; }
      }
    }
    if InStep(a, b, q) {
      forall i | 0 <= i < |q| - 1
        ensures StepsOn(ValueAt(x, q[1..][..i]), ValueAt(y, q[1..][..i]), q[1..][i])
      {
        assert StepsOn(ValueAt(a, q[..i + 1]), ValueAt(b, q[..i + 1]), q[i + 1]);
      }
    }
  }

  // ---- one refresh -----------------------------------------------------------------

  // What a refresh of `path` records below it.
  function RefreshAt(left: Json, right: Json, path: Path, rest: Path): Option<Item> {
    var a, b := ValueAt(left, path), ValueAt(right, path);
    if a.None? && b.None? then None
    else if a.None? || b.None? then if rest == [] then Some(MissingItem(ShowOption(a), ShowOption(b))) else None
    else DiffAt(a.value, b.value, rest)
  }

  // A refresh of a location that only one state has shows that state's value on its
  // own side.
  lemma RefreshShows(left: Json, right: Json, path: Path)
    requires ValueAt(left, path).Some? != ValueAt(right, path).Some?
    ensures var item := RefreshAt(left, right, path, []);
      && item.Some? && item.value.MissingItem?
      && (ValueAt(left, path).Some? ==> item.value.right == None && item.value.left.Some? && Shown(item.value.left.value, ValueAt(left, path).value))
      && (ValueAt(right, path).Some? ==> item.value.left == None && item.value.right.Some? && Shown(item.value.right.value, ValueAt(right, path).value))
  {
  }

  // Walking down both states in step reaches `path`, or misses only its last
  // member on one side, or what stands there is the same on both sides.
  predicate SoundAt(left: Json, right: Json, path: Path)
    decreases |path|
  {
    path == [] ||
    match StepTo(left, right, path[0])
    case Both(x, y) => SoundAt(x, y, path[1..])
    case One(_, _) => |path| == 1 || ValueAt(left, path) == ValueAt(right, path)
    case Neither => ValueAt(left, path) == ValueAt(right, path)
  }

  // A refresh records exactly the true differences below its path if and only if
  // the path is sound.
  lemma {:induction false} RefreshExact(left: Json, right: Json, path: Path)
    ensures (forall rest :: RefreshAt(left, right, path, rest) == DiffAt(left, right, path + rest)) <==> SoundAt(left, right, path)
    decreases |path|
  {
    hide DiffAt, StepTo;
    if path == [] {
      assert forall rest: Path :: [] + rest == rest;
    } else {
      match StepTo(left, right, path[0])
      case Both(x, y) =>
        RefreshExact(x, y, path[1..]);
        StepsTogether(left, right, path);
      case One(_, _) =>
        if |path| == 1 {
          MissingMember(left, right, path);
        } else {
          NothingBelow(left, right, path);
          EmptyExactly(left, right, path);
        }
      case Neither =>
        NothingBelow(left, right, path);
        EmptyExactly(left, right, path);
    }
  }

  lemma StepsTogether(left: Json, right: Json, path: Path)
    requires path != [] && StepTo(left, right, path[0]).Both?
    ensures var x, y := StepTo(left, right, path[0]).a, StepTo(left, right, path[0]).b; forall rest ::
      && RefreshAt(left, right, path, rest) == RefreshAt(x, y, path[1..], rest)
      && DiffAt(left, right, path + rest) == DiffAt(x, y, path[1..] + rest)
  {
    forall rest: Path
      ensures (path + rest)[0] == path[0] && (path + rest)[1..] == path[1..] + rest
    {
    }
  }

  lemma MissingMember(left: Json, right: Json, path: Path)
    requires |path| == 1 && StepTo(left, right, path[0]).One?
    ensures forall rest :: RefreshAt(left, right, path, rest) == DiffAt(left, right, path + rest)
  {
    forall rest
      ensures RefreshAt(left, right, path, rest) == DiffAt(left, right, path + rest)
    {
      assert (path + rest)[0] == path[0] && ValueAt(left, path) == Lookup(left, path[0]) && ValueAt(right, path) == Lookup(right, path[0]);
    }
  }

  lemma NothingBelow(left: Json, right: Json, path: Path)
    requires path != []
    requires StepTo(left, right, path[0]).Neither? || (StepTo(left, right, path[0]).One? && |path| > 1)
    ensures forall rest :: DiffAt(left, right, path + rest).None?
  {
    hide StepTo;
    assert forall rest: Path :: (path + rest)[0] == path[0];
  }

  lemma EmptyExactly(left: Json, right: Json, path: Path)
    ensures (forall rest :: RefreshAt(left, right, path, rest).None?) <==> ValueAt(left, path) == ValueAt(right, path)
  {
    hide DiffAt, ValueAt;
    var a, b := ValueAt(left, path), ValueAt(right, path);
    if a.Some? && b.Some? { EqualExactlyWhenClean(a.value, b.value); }
    assert a.None? != b.None? ==> RefreshAt(left, right, path, []).Some?;
    if a.Some? && b.Some? && a != b {
      var q := DifferenceExists(a.value, b.value);
      assert RefreshAt(left, right, path, q).Some?;
    }
    if a.Some? && a == b {
      forall rest
        ensures RefreshAt(left, right, path, rest).None?
      {
        SameHasNoDifference(a.value, rest);
      }
    }
  }

  type Table = map<Path, Item>

  function Look(m: Table, q: Path): Option<Item> {
    if q in m then Some(m[q]) else None
  }

  // The table is the full difference of the two states.
  ghost predicate Exact(m: Table, left: Json, right: Json) {
    forall q :: Look(m, q) == DiffAt(left, right, q)
  }

  class DifferenceSet {
    var differences: Table

    constructor (left: Json, right: Json)
      ensures Exact(differences, left, right)
    {
      new;
      hide DiffAt;
      var root: Path := [];
      var items := AllDifferences(left, right, root);
      differences := map[];
      Record(items, left, right, root);
      assert forall q: Path :: q[|root|..] == q;
    }

    // Adds every yielded difference.
    method Record(items: seq<Entry>, a: Json, b: Json, path: Path)
      requires Lists(items, a, b, path, Whole) && forall q :: q in differences ==> !(path <= q)
      modifies this
      ensures forall q :: Look(differences, q) == if path <= q then DiffAt(a, b, q[|path|..]) else Look(old(differences), q)
    {
      hide DiffAt, Sound, Complete;
      for i := 0 to |items|
        invariant forall q :: !(path <= q) ==> Look(differences, q) == Look(old(differences), q)
        invariant forall j :: 0 <= j < i ==> items[j].0 in differences && differences[items[j].0] == items[j].1
        invariant forall q :: q in differences && path <= q ==> exists j :: 0 <= j < i && items[j].0 == q
      {
        MemberBelow(items, a, b, path, i);
        differences := differences[items[i].0 := items[i].1];
      }
      Recorded(differences, items, a, b, path);
    }

    method Forget(path: Path)
      modifies this
      ensures forall q :: Look(differences, q) == if path <= q then None else Look(old(differences), q)
    {
      differences := map q | q in differences && !(path <= q) :: differences[q];
    }

    // Forgets everything at or below `path` and records what is true there now.
    method Refresh(left: Json, right: Json, path: Path)
      modifies this
      ensures forall q :: Look(differences, q) == if path <= q then RefreshAt(left, right, path, q[|path|..]) else Look(old(differences), q)
    {
      hide DiffAt, ValueAt, Lists;
      Forget(path);
      NothingLeft(differences, path);
      var a := FindValue(left, path);
      var b := FindValue(right, path);
      if a.Some? && b.Some? {
        var items := AllDifferences(a.value, b.value, path);
        hide Look;
        Record(items, a.value, b.value, path);
      } else if a.Some? || b.Some? {
        differences := differences[path := MissingItem(ShowOption(a), ShowOption(b))];
        assert forall q: Path :: path <= q && q[|path|..] == [] ==> q == path;
      }
    }
  }

  lemma NothingLeft(m: Table, path: Path)
    requires forall q :: path <= q ==> Look(m, q).None?
    ensures forall q :: q in m ==> !(path <= q)
  {
    forall q | q in m
      ensures !(path <= q)
    {
      assert Look(m, q).Some?;
    }
  }

  lemma MemberBelow(items: seq<Entry>, a: Json, b: Json, path: Path, i: nat)
    requires Sound(items, a, b, path, Whole) && i < |items|
    ensures path <= items[i].0
  {
    hide DiffAt;
    assert items[i] in items;
  }

  lemma Recorded(m: Table, items: seq<Entry>, a: Json, b: Json, path: Path)
    requires Lists(items, a, b, path, Whole)
    requires forall j :: 0 <= j < |items| ==> items[j].0 in m && m[items[j].0] == items[j].1
    requires forall q :: q in m && path <= q ==> exists j :: 0 <= j < |items| && items[j].0 == q
    ensures forall q :: path <= q ==> Look(m, q) == DiffAt(a, b, q[|path|..])
  {
    hide DiffAt;
    forall q: Path | path <= q
      ensures Look(m, q) == DiffAt(a, b, q[|path|..])
    {
      var rest := q[|path|..];
      assert path + rest == q;
      if q in m {
        var j :| 0 <= j < |items| && items[j].0 == q;
        assert items[j] in items;
      }
      assert InScope(rest, Whole);
      if DiffAt(a, b, rest).Some? {
        assert (path + rest, DiffAt(a, b, rest).value) in items;
      }
    }
  }

  // ---- what a patch can change ------------------------------------------------------

  // A value as its ancestors and descendants see it: its kind, and its length or
  // its scalar value.
  datatype View = ListView(length: nat) | DictView | ScalarView(value: Json)

  function ViewOf(v: Json): View {
    if v.Arr? then ListView(|v.items|) else if v.Obj? then DictView else ScalarView(v)
  }

  function ViewAt(doc: Json, path: Path): Option<View>
    decreases |path|
  {
    if path == [] then Some(ViewOf(doc))
    else match Child(doc, path[0]) case None => None case Some(v) => ViewAt(v, path[1..])
  }

  // The difference at one location is decided by the views on the way to it.
  lemma {:induction false} ViewsDecide(a: Json, b: Json, c: Json, d: Json, q: Path)
    requires forall p :: p <= q ==> ViewAt(a, p) == ViewAt(c, p) && ViewAt(b, p) == ViewAt(d, p)
    ensures DiffAt(a, b, q) == DiffAt(c, d, q)
    decreases |q|
  {
    hide Child;
    assert ViewAt(a, []) == ViewAt(c, []) && ViewAt(b, []) == ViewAt(d, []);
    if q != [] {
      StepViews(a, b, c, d, q);
      if StepTo(a, b, q[0]).Both? {
        StepIsChild(a, b, q[0]);
        StepIsChild(c, d, q[0]);
        var x, y, z, w := StepTo(a, b, q[0]).a, StepTo(a, b, q[0]).b, StepTo(c, d, q[0]).a, StepTo(c, d, q[0]).b;
        forall p: Path | p <= q[1..]
          ensures ViewAt(x, p) == ViewAt(z, p) && ViewAt(y, p) == ViewAt(w, p)
        {
          assert [q[0]] + p <= q;
          ViewBelow(a, q[0], p);
          ViewBelow(b, q[0], p);
          ViewBelow(c, q[0], p);
          ViewBelow(d, q[0], p);
        }
        ViewsDecide(x, y, z, w, q[1..]);
      }
    }
  }

  lemma ViewBelow(doc: Json, k: string, p: Path)
    ensures ViewAt(doc, [k] + p) == match Child(doc, k) case None => None case Some(v) => ViewAt(v, p)
  {
    assert ([k] + p)[1..] == p;
  }

  lemma StepIsChild(a: Json, b: Json, k: string)
    ensures StepTo(a, b, k).Both? ==> Child(a, k) == Some(StepTo(a, b, k).a) && Child(b, k) == Some(StepTo(a, b, k).b)
    ensures StepTo(a, b, k).One? ==> StepTo(a, b, k) == One(Child(a, k), Child(b, k))
    ensures StepTo(a, b, k).Both? <==>
      ((a.Obj? && b.Obj?) || (a.Arr? && b.Arr?)) && Child(a, k).Some? && Child(b, k).Some?
    ensures StepTo(a, b, k).One? <==> a.Obj? && b.Obj? && Child(a, k).Some? != Child(b, k).Some?
  {
  }

  lemma StepViews(a: Json, b: Json, c: Json, d: Json, q: Path)
    requires q != [] && forall p :: p <= q ==> ViewAt(a, p) == ViewAt(c, p) && ViewAt(b, p) == ViewAt(d, p)
    ensures StepTo(a, b, q[0]).Both? == StepTo(c, d, q[0]).Both? && StepTo(a, b, q[0]).Neither? == StepTo(c, d, q[0]).Neither?
    ensures StepTo(a, b, q[0]).One? ==>
      && ShowOption(StepTo(a, b, q[0]).left) == ShowOption(StepTo(c, d, q[0]).left)
      && ShowOption(StepTo(a, b, q[0]).right) == ShowOption(StepTo(c, d, q[0]).right)
  {
    hide StepTo, Child;
    var k := q[0];
    StepIsChild(a, b, k);
    StepIsChild(c, d, k);
    assert [] <= q && [k] + [] <= q;
    assert ViewAt(a, []) == ViewAt(c, []) && ViewAt(b, []) == ViewAt(d, []);
    assert ViewAt(a, [k] + []) == ViewAt(c, [k] + []) && ViewAt(b, [k] + []) == ViewAt(d, [k] + []);
    ViewBelow(a, k, []);
    ViewBelow(b, k, []);
    ViewBelow(c, k, []);
    ViewBelow(d, k, []);
    SameFace(Child(a, k), Child(c, k));
    SameFace(Child(b, k), Child(d, k));
  }

  lemma SameFace(v: Option<Json>, w: Option<Json>)
    requires v.Some? == w.Some? && (v.Some? ==> ViewAt(v.value, []) == ViewAt(w.value, []))
    ensures ShowOption(v) == ShowOption(w)
  {
  }

  function Parent(at: Path): Path
    requires at != []
  {
    at[..|at| - 1]
  }

  predicate IsList(v: Option<View>) {
    v.Some? && v.value.ListView?
  }

  // One operation changes a view only at or below its target, or at or below the
  // array that holds its target; and that array stays an array.
  lemma {:induction false} EditViews(doc: Json, e: Edit, p: Path)
    requires Apply(doc, e).Some? && !(e.at <= p)
    requires e.at != [] && !(IsList(ViewAt(doc, Parent(e.at))) && Parent(e.at) <= p)
    ensures ViewAt(Apply(doc, e).value, p) == ViewAt(doc, p)
    decreases |e.at|
  {
    var k := e.at[0];
    if |e.at| == 1 {
      assert Parent(e.at) == [];
      assert p != [] && p[0] == k ==> e.at <= p;
    } else {
      var deeper := e.(at := e.at[1..]);
      var child := Child(doc, k).value;
      var after := Apply(child, deeper).value;
      if p != [] {
        if p[0] == k {
          BelowFirst(e.at, p);
          assert Parent(e.at)[1..] == Parent(e.at[1..]);
          EditViews(child, deeper, p[1..]);
        } else {
          OtherMember(doc, k, after, p[0]);
        }
      }
    }
  }

  lemma BelowFirst(at: Path, p: Path)
    requires |at| > 1 && p != [] && p[0] == at[0]
    ensures at <= p <==> at[1..] <= p[1..]
    ensures Parent(at) <= p <==> Parent(at[1..]) <= p[1..]
  {
    assert at == [at[0]] + at[1..] && p == [p[0]] + p[1..];
    assert Parent(at) == [at[0]] + Parent(at[1..]);
  }

  lemma OtherMember(doc: Json, k: string, after: Json, other: string)
    requires Child(doc, k).Some? && other != k
    ensures Child(WithChild(doc, k, after), other) == Child(doc, other)
  {
    if doc.Arr? && IndexOf(other).Some? {
      IndexIsDecimal(k);
      IndexIsDecimal(other);
    }
  }

  lemma {:induction false} ArrayStays(doc: Json, e: Edit)
    requires Apply(doc, e).Some? && e.at != [] && IsList(ViewAt(doc, Parent(e.at)))
    ensures IsList(ViewAt(Apply(doc, e).value, Parent(e.at)))
    decreases |e.at|
  {
    if |e.at| > 1 {
      var k := e.at[0];
      var deeper := e.(at := e.at[1..]);
      assert Parent(e.at)[1..] == Parent(e.at[1..]) && Parent(e.at)[0] == k;
      ArrayStays(Child(doc, k).value, deeper);
      ChildOfWith(doc, k, Apply(Child(doc, k).value, deeper).value);
    } else {
      assert Parent(e.at) == [];
    }
  }

  // ---- one boundary -------------------------------------------------------------------

  predicate IsArrayAt(doc: Json, path: Path) {
    ValueAt(doc, path).Some? && ValueAt(doc, path).value.Arr?
  }

  // The path to refresh for one operation, judged by both new states: the whole
  // array when the target sits in one.
  function TouchedBy(e: Edit, left: Json, right: Json): Path {
    if e.at == [] then []
    else if IsArrayAt(left, Parent(e.at)) || IsArrayAt(right, Parent(e.at)) then Parent(e.at)
    else e.at
  }

  function TouchedPaths(edits: seq<Edit>, left: Json, right: Json): set<Path> {
    set e | e in edits :: TouchedBy(e, left, right)
  }

  lemma OneMoreTouched(edits: seq<Edit>, e: Edit, left: Json, right: Json)
    ensures TouchedPaths(edits + [e], left, right) == TouchedPaths(edits, left, right) + {TouchedBy(e, left, right)}
  {
    hide TouchedBy;
    assert e in edits + [e];
    forall t
      ensures t in TouchedPaths(edits + [e], left, right) <==> t in TouchedPaths(edits, left, right) + {TouchedBy(e, left, right)}
    {
      assert forall x :: x in edits + [e] <==> x in edits || x == e;
    }
  }

  method RefreshPaths(edits: seq<Edit>, left: Json, right: Json) returns (paths: set<Path>)
    ensures paths == TouchedPaths(edits, left, right)
  {
    hide ValueAt;
    paths := {};
    for i := 0 to |edits|
      invariant paths == TouchedPaths(edits[..i], left, right)
    {
      var at := edits[i].at;
      var touched := at;
      if at != [] {
        var a := FindValue(left, Parent(at));
        var b := FindValue(right, Parent(at));
        if (a.Some? && a.value.Arr?) || (b.Some? && b.value.Arr?) { touched := Parent(at); }
      }
      assert edits[..i + 1] == edits[..i] + [edits[i]];
      assert touched == TouchedBy(edits[i], left, right);
      OneMoreTouched(edits[..i], edits[i], left, right);
      paths := paths + {touched};
    }
    assert edits[..|edits|] == edits;
  }

  lemma {:induction false} ViewIsValue(doc: Json, p: Path)
    requires ViewAt(doc, p).Some?
    ensures ValueAt(doc, p).Some? && ViewOf(ValueAt(doc, p).value) == ViewAt(doc, p).value
    decreases |p|
  {
    if p != [] { ViewIsValue(Child(doc, p[0]).value, p[1..]); }
  }

  lemma RunFirst(doc: Json, edits: seq<Edit>)
    requires edits != [] && Run(doc, edits).Some?
    ensures Apply(doc, edits[0]).Some? && Run(Apply(doc, edits[0]).value, edits[1..]) == Run(doc, edits)
  {
    RunAppend(doc, [edits[0]], edits[1..]);
    RunOne(doc, edits[0]);
    assert [edits[0]] + edits[1..] == edits;
  }

  // Whatever a patch changed lies at or below a path that is refreshed, even when
  // later operations of the same patch replace an array that earlier ones edited.
  lemma {:induction false} ChangesAreTouched(doc: Json, edits: seq<Edit>, left: Json, right: Json, p: Path) returns (e: Edit)
    requires Run(doc, edits) == Some(left) || Run(doc, edits) == Some(right)
    requires ViewAt(doc, p) != ViewAt(Run(doc, edits).value, p)
    ensures e in edits && TouchedBy(e, left, right) <= p
    decreases |edits|
  {
    hide Apply, ValueAt, ViewAt;
    var end := Run(doc, edits).value;
    assert edits != [];
    RunFirst(doc, edits);
    var first := edits[0];
    var mid := Apply(doc, first).value;
    if ViewAt(mid, p) != ViewAt(end, p) {
      e := ChangesAreTouched(mid, edits[1..], left, right, p);
    } else if first.at <= p {
      e := first;
      assert first.at != [] ==> Parent(first.at) <= first.at;
    } else {
      var w := Parent(first.at);
      if !(IsList(ViewAt(doc, w)) && w <= p) { EditViews(doc, first, p); }
      ArrayStays(doc, first);
      if IsList(ViewAt(end, w)) {
        ViewIsValue(end, w);
        e := first;
      } else {
        e := ChangesAreTouched(mid, edits[1..], left, right, w);
      }
    }
  }

  lemma TouchedAbove(e: Edit, edits: seq<Edit>, left: Json, right: Json, p: Path, q: Path)
    requires e in edits && TouchedBy(e, left, right) <= p <= q
    ensures exists t :: t in TouchedPaths(edits, left, right) && t <= q
  {
    hide TouchedBy;
    assert TouchedBy(e, left, right) in TouchedPaths(edits, left, right);
  }

  // Away from every refreshed path nothing changed.
  lemma UntouchedIsSame(l0: Json, r0: Json, l1: Json, r1: Json, le: seq<Edit>, re: seq<Edit>, q: Path)
    requires Run(l0, le) == Some(l1) && Run(r0, re) == Some(r1)
    requires forall t :: t in TouchedPaths(le, l1, r1) ==> !(t <= q)
    requires forall t :: t in TouchedPaths(re, l1, r1) ==> !(t <= q)
    ensures DiffAt(l0, r0, q) == DiffAt(l1, r1, q)
  {
    hide Run, ViewAt, DiffAt, TouchedBy;
    forall p: Path | p <= q
      ensures ViewAt(l0, p) == ViewAt(l1, p) && ViewAt(r0, p) == ViewAt(r1, p)
    {
      if ViewAt(l0, p) != ViewAt(l1, p) {
        var e := ChangesAreTouched(l0, le, l1, r1, p);
        TouchedAbove(e, le, l1, r1, p, q);
        assert false;
      }
      if ViewAt(r0, p) != ViewAt(r1, p) {
        var e := ChangesAreTouched(r0, re, l1, r1, p);
        TouchedAbove(e, re, l1, r1, p, q);
        assert false;
      }
    }
    ViewsDecide(l0, r0, l1, r1, q);
  }

  // The last of `paths` that leads to q, when ancestors are refreshed first.
  function Deepest(paths: set<Path>, q: Path): Option<Path>
    decreases |q|
  {
    if q in paths then Some(q) else if q == [] then None else Deepest(paths, Parent(q))
  }

  lemma {:induction false} DeepestIs(paths: set<Path>, q: Path)
    ensures Deepest(paths, q).Some? <==> exists t :: t in paths && t <= q
    ensures Deepest(paths, q).Some? ==> Deepest(paths, q).value in paths && Deepest(paths, q).value <= q
    ensures forall t :: t in paths && t <= q ==> t <= Deepest(paths, q).value
    decreases |q|
  {
    if q !in paths && q != [] {
      DeepestIs(paths, Parent(q));
      forall t | t in paths && t <= q
        ensures t <= Parent(q)
      {
        ProperPrefix(t, q);
      }
    }
  }

  lemma ProperPrefix(t: Path, q: Path)
    requires t <= q && t != q
    ensures q != [] && t <= Parent(q)
  {
    assert |t| == |q| ==> t == q;
  }

  // What the table holds once the paths in `done` are refreshed, ancestors first.
  function Refreshed(before: Table, done: set<Path>, left: Json, right: Json, q: Path): Option<Item> {
    match Deepest(done, q)
    case None => Look(before, q)
    case Some(t) => if t <= q then RefreshAt(left, right, t, q[|t|..]) else None
  }

  lemma RefreshedStep(before: Table, done: set<Path>, left: Json, right: Json, t: Path, q: Path)
    requires forall u :: u in done ==> !(t <= u)
    ensures Refreshed(before, done + {t}, left, right, q) ==
      if t <= q then RefreshAt(left, right, t, q[|t|..]) else Refreshed(before, done, left, right, q)
  {
    hide RefreshAt;
    DeepestIs(done, q);
    DeepestIs(done + {t}, q);
    var now := Deepest(done + {t}, q);
    if t <= q {
      assert t in done + {t};
      assert t <= now.value && now.value in done + {t};
    } else if now.Some? {
      assert now.value in done;
      PrefixesAgree(now.value, Deepest(done, q).value, q);
    }
  }

  lemma PrefixesAgree(s: Path, t: Path, q: Path)
    requires s <= q && t <= q
    ensures s <= t || t <= s
    ensures s <= t && t <= s ==> s == t
  {
  }

  lemma {:induction false} Topmost(todo: set<Path>) returns (t: Path)
    requires todo != {}
    ensures t in todo && forall u :: u in todo ==> |t| <= |u| && !(u < t)
  {
    var x :| x in todo;
    var rest := todo - {x};
    t := x;
    if rest != {} {
      var y := Topmost(rest);
      if |y| < |x| { t := y; }
    }
    assert forall u :: u in todo ==> u == x || u in rest;
  }

  // ---- exactly when refreshing is enough ---------------------------------------------

  // Refreshing `base` records below `p` what refreshing `p` would.
  ghost predicate Covers(left: Json, right: Json, base: Path, p: Path) {
    base <= p && forall rest :: RefreshAt(left, right, base, p[|base|..] + rest) == RefreshAt(left, right, p, rest)
  }

  // Two values that differ leave a difference in the table below their location,
  // whatever was refreshed there later.
  lemma DifferenceStays(before: Table, done: set<Path>, left: Json, right: Json, base: Path, p: Path) returns (q: Path)
    requires Deepest(done, p) == Some(base) && Covers(left, right, base, p)
    requires ValueAt(left, p) != ValueAt(right, p)
    ensures p <= q && Refreshed(before, done, left, right, q).Some?
  {
    hide ValueAt, Covers;
    var a, b := ValueAt(left, p), ValueAt(right, p);
    if a.Some? && b.Some? {
      q := ValueStays(before, done, left, right, base, p, a.value, b.value);
    } else {
      q := p;
      MissingStays(left, right, base, p);
    }
  }

  lemma MissingStays(left: Json, right: Json, base: Path, p: Path)
    requires Covers(left, right, base, p) && ValueAt(left, p).Some? != ValueAt(right, p).Some?
    ensures base <= p && RefreshAt(left, right, base, p[|base|..]).Some?
  {
    hide ValueAt;
    assert p[|base|..] + [] == p[|base|..];
  }

  lemma {:induction false} ValueStays(before: Table, done: set<Path>, left: Json, right: Json, base: Path, p: Path, a: Json, b: Json) returns (q: Path)
    requires Deepest(done, p) == Some(base) && Covers(left, right, base, p)
    requires ValueAt(left, p) == Some(a) && ValueAt(right, p) == Some(b) && a != b
    ensures p <= q && Refreshed(before, done, left, right, q).Some?
    decreases a
  {
    hide ValueAt, RefreshAt, Covers;
    if Here(a, b).Some? {
      q := p;
      HereStays(left, right, base, p, a, b);
    } else {
      var k := DifferingChild(a, b);
      var below := p + [k];
      BelowValue(left, p, a, k);
      BelowValue(right, p, b, k);
      var next := if below in done then below else base;
      assert Parent(below) == p;
      assert Deepest(done, below) == Some(next);
      CoversBelow(left, right, base, p, a, b, k);
      CoversItself(left, right, below);
      if Child(a, k).Some? && Child(b, k).Some? {
        q := ValueStays(before, done, left, right, next, below, Child(a, k).value, Child(b, k).value);
      } else {
        q := below;
        MissingStays(left, right, next, below);
      }
    }
  }

  lemma HereStays(left: Json, right: Json, base: Path, p: Path, a: Json, b: Json)
    requires Covers(left, right, base, p) && ValueAt(left, p) == Some(a) && ValueAt(right, p) == Some(b) && Here(a, b).Some?
    ensures base <= p && RefreshAt(left, right, base, p[|base|..]).Some?
  {
    hide ValueAt;
    assert p[|base|..] + [] == p[|base|..];
  }

  lemma DifferingChild(a: Json, b: Json) returns (k: string)
    requires a != b && Here(a, b).None?
    ensures Child(a, k) != Child(b, k) && Child(a, k) == Lookup(a, k) && Child(b, k) == Lookup(b, k)
    ensures (StepTo(a, b, k).Both? && Child(a, k).Some? && Child(b, k).Some?) || StepTo(a, b, k).One?
    ensures Child(a, k).Some? ==> Child(a, k).value < a
  {
    if a.Obj? {
      k := MemberDiffers(a.fields, b.fields);
    } else {
      var i :| 0 <= i < |a.items| && a.items[i] != b.items[i];
      IndexRoundTrip(i);
      k := Decimal(i);
    }
  }

  lemma {:induction false} BelowValue(doc: Json, p: Path, v: Json, k: string)
    requires ValueAt(doc, p) == Some(v)
    ensures ValueAt(doc, p + [k]) == Lookup(v, k)
    decreases |p|
  {
    if p == [] {
      assert [] + [k] == [k] && [k][1..] == [];
    } else {
      BelowValue(Lookup(doc, p[0]).value, p[1..], v, k);
      assert (p + [k])[1..] == p[1..] + [k];
    }
  }

  lemma CoversItself(left: Json, right: Json, p: Path)
    ensures Covers(left, right, p, p)
  {
    assert forall rest: Path :: p[|p|..] + rest == rest;
  }

  lemma CoversBelow(left: Json, right: Json, base: Path, p: Path, a: Json, b: Json, k: string)
    requires Covers(left, right, base, p) && ValueAt(left, p) == Some(a) && ValueAt(right, p) == Some(b)
    requires (StepTo(a, b, k).Both? && Child(a, k).Some? && Child(b, k).Some?) || StepTo(a, b, k).One?
    requires Child(a, k) == Lookup(a, k) && Child(b, k) == Lookup(b, k)
    ensures Covers(left, right, base, p + [k])
  {
    hide ValueAt, Lookup, Child;
    BelowValue(left, p, a, k);
    BelowValue(right, p, b, k);
    StepIsChild(a, b, k);
    forall rest: Path
      ensures RefreshAt(left, right, base, (p + [k])[|base|..] + rest) == RefreshAt(left, right, p + [k], rest)
    {
      assert (p + [k])[|base|..] + rest == p[|base|..] + ([k] + rest);
      assert ([k] + rest)[1..] == rest;
    }
  }

  // The tables before and after one boundary of the walk.
  ghost predicate Boundary(before: Table, after: Table, l0: Json, r0: Json, l1: Json, r1: Json, le: seq<Edit>, re: seq<Edit>) {
    && Exact(before, l0, r0) && Run(l0, le) == Some(l1) && Run(r0, re) == Some(r1)
    && Holds(after, before, Touched(le, re, l1, r1), l1, r1)
  }

  function Touched(le: seq<Edit>, re: seq<Edit>, left: Json, right: Json): set<Path> {
    TouchedPaths(le, left, right) + TouchedPaths(re, left, right)
  }

  // After a boundary the maintained table equals the full difference if and only
  // if every refreshed path was sound.
  lemma IncrementalEqualsBruteForce(before: Table, after: Table, l0: Json, r0: Json, l1: Json, r1: Json, le: seq<Edit>, re: seq<Edit>)
    requires Boundary(before, after, l0, r0, l1, r1, le, re)
    ensures Exact(after, l1, r1) <==> forall t :: t in Touched(le, re, l1, r1) ==> SoundAt(l1, r1, t)
  {
    hide RefreshAt, SoundAt, Run, TouchedPaths, DiffAt;
    var touched := Touched(le, re, l1, r1);
    if forall t :: t in touched ==> SoundAt(l1, r1, t) {
      forall q
        ensures Look(after, q) == DiffAt(l1, r1, q)
      {
        SoundTableAt(before, l0, r0, l1, r1, le, re, q);
      }
    } else {
      var t :| t in touched && !SoundAt(l1, r1, t);
      var q := UnsoundShows(before, touched, l1, r1, t);
      assert Look(after, q) == Refreshed(before, touched, l1, r1, q);
    }
  }

  lemma SoundTableAt(before: Table, l0: Json, r0: Json, l1: Json, r1: Json, le: seq<Edit>, re: seq<Edit>, q: Path)
    requires Exact(before, l0, r0) && Run(l0, le) == Some(l1) && Run(r0, re) == Some(r1)
    requires forall t :: t in Touched(le, re, l1, r1) ==> SoundAt(l1, r1, t)
    ensures Refreshed(before, Touched(le, re, l1, r1), l1, r1, q) == DiffAt(l1, r1, q)
  {
    hide RefreshAt, SoundAt, Run, TouchedPaths, DiffAt;
    var touched := Touched(le, re, l1, r1);
    DeepestIs(touched, q);
    match Deepest(touched, q)
    case None => UntouchedIsSame(l0, r0, l1, r1, le, re, q);
    case Some(t) =>
      RefreshExact(l1, r1, t);
      assert t + q[|t|..] == q;
  }

  // An unsound path leaves a difference where there is none.
  lemma UnsoundShows(before: Table, touched: set<Path>, left: Json, right: Json, t: Path) returns (q: Path)
    requires t in touched && !SoundAt(left, right, t)
    ensures Refreshed(before, touched, left, right, q).Some? && DiffAt(left, right, q).None?
  {
    hide RefreshAt, DiffAt, StepTo, ValueAt;
    UnsoundIsSpurious(left, right, t);
    CoversItself(left, right, t);
    q := DifferenceStays(before, touched, left, right, t, t);
    assert t + q[|t|..] == q;
  }

  lemma {:induction false} UnsoundIsSpurious(left: Json, right: Json, t: Path)
    requires !SoundAt(left, right, t)
    ensures ValueAt(left, t) != ValueAt(right, t)
    ensures forall rest :: DiffAt(left, right, t + rest).None?
    decreases |t|
  {
    hide DiffAt, StepTo;
    match StepTo(left, right, t[0])
    case Both(x, y) =>
      UnsoundIsSpurious(x, y, t[1..]);
      StepsTogether(left, right, t);
      BothLookUp(left, right, t[0]);
    case One(_, _) => NothingBelow(left, right, t);
    case Neither => NothingBelow(left, right, t);
  }

  lemma BothLookUp(left: Json, right: Json, k: string)
    requires StepTo(left, right, k).Both?
    ensures Lookup(left, k) == Some(StepTo(left, right, k).a) && Lookup(right, k) == Some(StepTo(left, right, k).b)
  {
  }

  // ---- the whole walk -----------------------------------------------------------------

  ghost predicate Holds(m: Table, before: Table, done: set<Path>, left: Json, right: Json) {
    forall q :: Look(m, q) == Refreshed(before, done, left, right, q)
  }

  // Refreshes every touched path of one boundary, ancestors first.
  method Update(table: DifferenceSet, le: seq<Edit>, re: seq<Edit>, left: Json, right: Json)
    modifies table
    ensures Holds(table.differences, old(table.differences), Touched(le, re, left, right), left, right)
  {
    hide Holds, TouchedPaths;
    var a := RefreshPaths(le, left, right);
    var b := RefreshPaths(re, left, right);
    RefreshAll(table, a + b, left, right);
  }

  method RefreshAll(table: DifferenceSet, paths: set<Path>, left: Json, right: Json)
    modifies table
    ensures Holds(table.differences, old(table.differences), paths, left, right)
  {
    hide Holds, RefreshAt, Look;
    var todo := paths;
    ghost var done: set<Path>, before := {}, table.differences;
    NothingRefreshed(before, left, right);
    while todo != {}
      invariant todo + done == paths
      invariant forall t, u :: t in todo && u in done ==> !(t <= u)
      invariant Holds(table.differences, before, done, left, right)
      decreases |todo|
    {
      ghost var top := Topmost(todo);
      var t :| t in todo && forall u :: u in todo ==> !(u < t);
      ghost var now := table.differences;
      table.Refresh(left, right, t);
      RefreshHolds(now, table.differences, before, done, left, right, t);
      NoneAbove(todo, t);
      todo, done := todo - {t}, done + {t};
    }
    assert done == paths;
  }

  lemma NoneAbove(todo: set<Path>, t: Path)
    requires forall u :: u in todo ==> !(u < t)
    ensures forall x :: x in todo - {t} ==> !(x <= t)
  {
    forall x | x in todo - {t}
      ensures !(x <= t)
    {
      assert x <= t && |x| == |t| ==> x == t;
    }
  }

  lemma RefreshHolds(now: Table, after: Table, before: Table, done: set<Path>, left: Json, right: Json, t: Path)
    requires Holds(now, before, done, left, right) && forall u :: u in done ==> !(t <= u)
    requires forall q :: Look(after, q) == if t <= q then RefreshAt(left, right, t, q[|t|..]) else Look(now, q)
    ensures Holds(after, before, done + {t}, left, right)
  {
    hide RefreshAt, Refreshed, Look;
    forall q
      ensures Look(after, q) == Refreshed(before, done + {t}, left, right, q)
    {
      RefreshedStep(before, done, left, right, t, q);
    }
  }

  lemma NothingRefreshed(before: Table, left: Json, right: Json)
    ensures Holds(before, before, {}, left, right)
  {
    forall q
      ensures Look(before, q) == Refreshed(before, {}, left, right, q)
    {
      DeepestIs({}, q);
    }
  }

  // The patches of one run lead from each state to the next.
  ghost predicate Patches(states: seq<Json>, edits: seq<seq<Edit>>) {
    && (|states| == |edits| + 1 || states == [])
    && forall i :: 0 <= i < |states| - 1 ==> Run(states[i], edits[i]) == Some(states[i + 1])
  }

  // Every path refreshed on entering boundary i was sound.
  ghost predicate SoundBoundary(left: seq<Json>, right: seq<Json>, le: seq<seq<Edit>>, re: seq<seq<Edit>>, i: nat) {
    0 < i < |left| && i < |right| && i <= |le| && i <= |re| ==>
      forall t :: t in Touched(le[i - 1], re[i - 1], left[i], right[i]) ==> SoundAt(left[i], right[i], t)
  }

  // Walks both streams. As long as every refreshed path is sound the table at
  // each boundary is the full difference; the first boundary with an unsound
  // path is the first where it is not.
  method CompareStates(left: seq<Json>, right: seq<Json>, le: seq<seq<Edit>>, re: seq<seq<Edit>>) returns (tables: seq<Table>)
    requires Patches(left, le) && Patches(right, re)
    ensures |tables| == if |left| < |right| then |left| else |right|
    ensures forall i :: 0 <= i < |tables| && (forall j :: 0 <= j < i ==> SoundBoundary(left, right, le, re, j)) ==>
      (Exact(tables[i], left[i], right[i]) <==> SoundBoundary(left, right, le, re, i))
  {
    hide Run, Holds, Touched, SoundAt, Exact;
    if left == [] || right == [] { return []; }
    var table := new DifferenceSet(left[0], right[0]);
    tables := [table.differences];
    var n := if |left| < |right| then |left| else |right|;
    var i := 1;
    while i < n
      invariant 1 <= i <= n && |tables| == i && tables[i - 1] == table.differences
      invariant forall k :: 0 <= k < i && (forall j :: 0 <= j < k ==> SoundBoundary(left, right, le, re, j)) ==>
        (Exact(tables[k], left[k], right[k]) <==> SoundBoundary(left, right, le, re, k))
    {
      ghost var before := table.differences;
      Update(table, le[i - 1], re[i - 1], left[i], right[i]);
      if forall j :: 0 <= j < i ==> SoundBoundary(left, right, le, re, j) {
        assert SoundBoundary(left, right, le, re, i - 1);
        IncrementalEqualsBruteForce(before, table.differences, left[i - 1], right[i - 1], left[i], right[i], le[i - 1], re[i - 1]);
      }
      tables := tables + [table.differences];
      i := i + 1;
    }
  }

  // The shortcut is not enough for nested arrays of different lengths: here one
  // side's patch makes the maintained table report a missing element although the
  // parent of the refreshed path is an array in both states, where the full
  // difference reports only the lengths.
  lemma NestedArraysAreWrong(before: Table, after: Table)
    requires var l0, r := Arr([Arr([Num(0.0)]), Arr([Num(0.0)])]), Arr([Arr([Num(0.0)])]);
      var l1, e := Arr([Arr([Num(0.0)]), Arr([Num(1.0)])]), Replace([Decimal(1), Decimal(0)], Num(1.0));
      Exact(before, l0, r) && Holds(after, before, Touched([e], [], l1, r), l1, r)
    ensures var l0, r := Arr([Arr([Num(0.0)]), Arr([Num(0.0)])]), Arr([Arr([Num(0.0)])]);
      var l1, e, t := Arr([Arr([Num(0.0)]), Arr([Num(1.0)])]), Replace([Decimal(1), Decimal(0)], Num(1.0)), [Decimal(1)];
      && Boundary(before, after, l0, r, l1, r, [e], []) && IsArrayAt(l1, Parent(t)) && IsArrayAt(r, Parent(t))
      && Look(after, t) == Some(MissingItem(ShowOption(Some(Arr([Num(1.0)]))), ShowOption(None))) && DiffAt(l1, r, t).None?
      && !Exact(after, l1, r)
  {
    hide Decimal, Run, TouchedPaths, Deepest, DiffAt, Refreshed;
    var l0, r := Arr([Arr([Num(0.0)]), Arr([Num(0.0)])]), Arr([Arr([Num(0.0)])]);
    var l1, e, t := Arr([Arr([Num(0.0)]), Arr([Num(1.0)])]), Replace([Decimal(1), Decimal(0)], Num(1.0)), [Decimal(1)];
    NestedArraysAreUnsound();
    NothingRun(r);
    IncrementalEqualsBruteForce(before, after, l0, r, l1, r, [e], []);
    UnsoundIsSpurious(l1, r, t);
    assert t + [] == t;
    OnlyRefreshed(before, l1, r, t);
    DigitsOf(1);
    assert t[1..] == [] && ValueAt(l1, t) == Some(Arr([Num(1.0)])) && ValueAt(r, t).None?;
  }

  lemma NothingRun(state: Json)
    ensures Run(state, []) == Some(state)
  {
  }

  lemma OnlyRefreshed(before: Table, left: Json, right: Json, t: Path)
    ensures Refreshed(before, {t}, left, right, t) == RefreshAt(left, right, t, [])
  {
    hide RefreshAt;
    DeepestIs({t}, t);
    assert t[|t|..] == [];
  }

  lemma NestedArraysAreUnsound()
    ensures var l0, r := Arr([Arr([Num(0.0)]), Arr([Num(0.0)])]), Arr([Arr([Num(0.0)])]);
      var l1, e, t := Arr([Arr([Num(0.0)]), Arr([Num(1.0)])]), Replace([Decimal(1), Decimal(0)], Num(1.0)), [Decimal(1)];
      && Run(l0, [e]) == Some(l1)
      && Touched([e], [], l1, r) == {t}
      && IsArrayAt(l1, Parent(t)) && IsArrayAt(r, Parent(t))
      && !SoundAt(l1, r, t)
  {
    hide Decimal, IndexOf;
    var l0, r := Arr([Arr([Num(0.0)]), Arr([Num(0.0)])]), Arr([Arr([Num(0.0)])]);
    var l1, e, t := Arr([Arr([Num(0.0)]), Arr([Num(1.0)])]), Replace([Decimal(1), Decimal(0)], Num(1.0)), [Decimal(1)];
    IndexRoundTrip(0);
    IndexRoundTrip(1);
    DigitsOf(0);
    DigitsOf(1);
    var inner := Replace([Decimal(0)], Num(1.0));
    assert e.at[1..] == inner.at;
    assert [Num(0.0)][0 := Num(1.0)] == [Num(1.0)] && l0.items[1 := Arr([Num(1.0)])] == l1.items;
    assert inner.at != [] && |inner.at| == 1;
    assert Apply(Arr([Num(0.0)]), inner) == AtLeaf(Arr([Num(0.0)]), Decimal(0), inner);
    assert Child(l0, Decimal(1)) == Some(Arr([Num(0.0)]));
    assert Apply(l0, e) == Some(WithChild(l0, Decimal(1), Arr([Num(1.0)])));
    RunOne(l0, e);
    assert Parent(e.at) == t;
    assert t[1..] == [] && ValueAt(l1, t) == Some(Arr([Num(1.0)]));
    OneMoreTouched([], e, l1, r);
    assert [] + [e] == [e];
  }

  lemma DigitsOf(n: nat)
    ensures IsDigits(Decimal(n)) && NumberOf(Decimal(n)) == n
  {
    IndexRoundTrip(n);
  }
}
