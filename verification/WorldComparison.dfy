// tools/compare_worlds.py: the differences of two JSON states, and how they are
// kept up to date from the patches instead of being computed again.
module WorldComparisons {
  import opened JsonPointers
  import opened JsonPatches

  // A value as a difference shows it: scalars by value, containers by reference.
  datatype Face = Scalar(value: Json) | List | Dict
  datatype Item = TypeItem(a: Face, b: Face) | MissingItem(left: Option<Face>, right: Option<Face>) | LengthItem(m: nat, n: nat) | ValueItem(a: Face, b: Face)

  function Show(v: Json): Face {
    if v.Arr? then List else if v.Obj? then Dict else Scalar(v)
  }

  function ShowOption(v: Option<Json>): Option<Face> {
    if v.None? then None else Some(Show(v.value))
  }

  // ---- the full difference, location by location ----------------------------------

  datatype Step = Both(a: Json, b: Json) | One(left: Option<Json>, right: Option<Json>) | Neither

  function StepTo(a: Json, b: Json, token: string): Step {
    if a.Obj? && b.Obj? then
      if token in a.fields && token in b.fields then Both(a.fields[token], b.fields[token])
      else if token in a.fields || token in b.fields then One(Child(a, token), Child(b, token))
      else Neither
    else if a.Arr? && b.Arr? && Child(a, token).Some? && Child(b, token).Some? then Both(Child(a, token).value, Child(b, token).value)
    else Neither
  }

  function Here(a: Json, b: Json): Option<Item> {
    if !SameKind(a, b) then Some(TypeItem(Show(a), Show(b)))
    else if a.Arr? then if |a.items| != |b.items| then Some(LengthItem(|a.items|, |b.items|)) else None
    else if a.Obj? || a == b then None
    else Some(ValueItem(Show(a), Show(b)))
  }

  // The difference reported at one location, if any.
  function DiffAt(a: Json, b: Json, q: Path): Option<Item>
    decreases |q|
  {
    if q == [] then Here(a, b)
    else match StepTo(a, b, q[0])
      case Both(x, y) => DiffAt(x, y, q[1..])
      case One(x, y) => if |q| == 1 then Some(MissingItem(ShowOption(x), ShowOption(y))) else None
      case Neither => None
  }

  lemma {:induction false} SameHasNoDifference(a: Json, q: Path)
    ensures DiffAt(a, a, q).None?
    decreases |q|
  {
    if q != [] {
      match StepTo(a, a, q[0])
      case Both(x, y) => SameHasNoDifference(x, q[1..]);
      case One(x, y) => assert false;
      case Neither =>
    }
  }

  // Different values differ somewhere.
  lemma {:induction false} DifferenceExists(a: Json, b: Json) returns (q: Path)
    requires a != b
    ensures DiffAt(a, b, q).Some?
    decreases a
  {
    if Here(a, b).Some? { return []; }
    if a.Obj? {
      var k := MemberDiffers(a.fields, b.fields);
      if k in a.fields && k in b.fields {
        var rest := DifferenceExists(a.fields[k], b.fields[k]);
        q := [k] + rest;
      } else {
        q := [k];
      }
    } else {
      var i :| 0 <= i < |a.items| && a.items[i] != b.items[i];
      var rest := DifferenceExists(a.items[i], b.items[i]);
      IndexRoundTrip(i);
      q := [Decimal(i)] + rest;
    }
  }

  lemma MemberDiffers(s: map<string, Json>, t: map<string, Json>) returns (k: string)
    requires s != t
    ensures (k in s) != (k in t) || (k in s && k in t && s[k] != t[k])
  {
    if k0 :| k0 in s && (k0 !in t || s[k0] != t[k0]) {
      k := k0;
    } else {
      assert s.Keys <= t.Keys;
      assert t.Keys != s.Keys;
      var k1 :| k1 in t && k1 !in s;
      k := k1;
    }
  }

  // No difference anywhere exactly when the values are equal.
  lemma EqualExactlyWhenClean(a: Json, b: Json)
    ensures (forall q :: DiffAt(a, b, q).None?) <==> a == b
  {
    if a == b {
      forall q
        ensures DiffAt(a, b, q).None?
      {
        SameHasNoDifference(a, q);
      }
    } else {
      var q := DifferenceExists(a, b);
    }
  }

  // ---- the recursive generator ------------------------------------------------------

  type Entry = (Path, Item)

  // Locations below one value: all of them, or its own and those under some
  // members.
  datatype Scope = Whole | Part(here: bool, firsts: set<string>)

  predicate InScope(q: Path, scope: Scope) {
    scope.Whole? || (if q == [] then scope.here else q[0] in scope.firsts)
  }

  // `out` holds exactly the differences in scope, none twice.
  ghost predicate Lists(out: seq<Entry>, a: Json, b: Json, path: Path, scope: Scope) {
    && Sound(out, a, b, path, scope) && Complete(out, a, b, path, scope)
    && (forall i, j :: 0 <= i < j < |out| ==> out[i].0 != out[j].0)
  }

  ghost predicate Sound(out: seq<Entry>, a: Json, b: Json, path: Path, scope: Scope) {
    forall x :: x in out ==> path <= x.0 && InScope(x.0[|path|..], scope) && DiffAt(a, b, x.0[|path|..]) == Some(x.1)
  }

  ghost predicate Complete(out: seq<Entry>, a: Json, b: Json, path: Path, scope: Scope) {
    forall q :: InScope(q, scope) && DiffAt(a, b, q).Some? ==> (path + q, DiffAt(a, b, q).value) in out
  }

  lemma ListsNothing(a: Json, b: Json, path: Path)
    ensures Lists([], a, b, path, Part(false, {}))
  {
  }

  // The differences of one member join those of the members before it.
  lemma ListsMember(out: seq<Entry>, sub: seq<Entry>, a: Json, b: Json, path: Path, firsts: set<string>, k: string)
    requires Lists(out, a, b, path, Part(false, firsts)) && k !in firsts
    requires StepTo(a, b, k).Both? && Lists(sub, StepTo(a, b, k).a, StepTo(a, b, k).b, path + [k], Whole)
    ensures Lists(out + sub, a, b, path, Part(false, firsts + {k}))
  {
    hide StepTo, DiffAt, Sound, Complete;
    MemberSound(sub, a, b, path, k);
    MemberComplete(sub, a, b, path, k);
    MembersBelow(sub, StepTo(a, b, k).a, StepTo(a, b, k).b, path + [k]);
    Apart(out, sub, a, b, path, firsts, k);
    Join(out, sub, a, b, path, firsts, k);
  }

  lemma MembersBelow(out: seq<Entry>, a: Json, b: Json, path: Path)
    requires Sound(out, a, b, path, Whole)
    ensures forall e :: e in out ==> path <= e.0
  {
    hide DiffAt;
  }

  lemma MemberSound(sub: seq<Entry>, a: Json, b: Json, path: Path, k: string)
    requires StepTo(a, b, k).Both? && Sound(sub, StepTo(a, b, k).a, StepTo(a, b, k).b, path + [k], Whole)
    ensures Sound(sub, a, b, path, Part(false, {k}))
  {
    hide StepTo, Here;
    forall e | e in sub
      ensures path <= e.0 && InScope(e.0[|path|..], Part(false, {k})) && DiffAt(a, b, e.0[|path|..]) == Some(e.1)
    {
      assert e.0[|path|..][1..] == e.0[|path + [k]|..];
      assert e.0[|path|] == (path + [k])[|path|];
    }
  }

  lemma MemberComplete(sub: seq<Entry>, a: Json, b: Json, path: Path, k: string)
    requires StepTo(a, b, k).Both? && Complete(sub, StepTo(a, b, k).a, StepTo(a, b, k).b, path + [k], Whole)
    ensures Complete(sub, a, b, path, Part(false, {k}))
  {
    hide StepTo, Here;
    forall q | InScope(q, Part(false, {k})) && DiffAt(a, b, q).Some?
      ensures (path + q, DiffAt(a, b, q).value) in sub
    {
      assert path + q == (path + [k]) + q[1..];
    }
  }

  lemma Join(out: seq<Entry>, sub: seq<Entry>, a: Json, b: Json, path: Path, firsts: set<string>, k: string)
    requires Lists(out, a, b, path, Part(false, firsts)) && k !in firsts
    requires Sound(sub, a, b, path, Part(false, {k})) && Complete(sub, a, b, path, Part(false, {k}))
    requires forall e, f :: e in out && f in sub ==> e.0 != f.0
    requires forall i, j :: 0 <= i < j < |sub| ==> sub[i].0 != sub[j].0
    ensures Lists(out + sub, a, b, path, Part(false, firsts + {k}))
  {
    hide DiffAt, Sound, Complete;
    JoinSound(out, sub, a, b, path, firsts, k);
    JoinComplete(out, sub, a, b, path, firsts, k);
  }

  lemma JoinSound(out: seq<Entry>, sub: seq<Entry>, a: Json, b: Json, path: Path, firsts: set<string>, k: string)
    requires Sound(out, a, b, path, Part(false, firsts)) && Sound(sub, a, b, path, Part(false, {k}))
    ensures Sound(out + sub, a, b, path, Part(false, firsts + {k}))
  {
    hide DiffAt;
    forall x | x in out + sub
      ensures path <= x.0 && InScope(x.0[|path|..], Part(false, firsts + {k})) && DiffAt(a, b, x.0[|path|..]) == Some(x.1)
    {
      assert x in out || x in sub;
    }
  }

  lemma JoinComplete(out: seq<Entry>, sub: seq<Entry>, a: Json, b: Json, path: Path, firsts: set<string>, k: string)
    requires Complete(out, a, b, path, Part(false, firsts)) && Complete(sub, a, b, path, Part(false, {k}))
    ensures Complete(out + sub, a, b, path, Part(false, firsts + {k}))
  {
    hide DiffAt;
    forall q | InScope(q, Part(false, firsts + {k})) && DiffAt(a, b, q).Some?
      ensures (path + q, DiffAt(a, b, q).value) in out + sub
    {
      assert InScope(q, Part(false, firsts)) || InScope(q, Part(false, {k}));
    }
  }

  lemma Apart(out: seq<Entry>, sub: seq<Entry>, a: Json, b: Json, path: Path, firsts: set<string>, k: string)
    requires Lists(out, a, b, path, Part(false, firsts)) && k !in firsts
    requires forall e :: e in sub ==> path + [k] <= e.0
    ensures forall e, f :: e in out && f in sub ==> e.0 != f.0
  {
    hide DiffAt;
    forall e, f | e in out && f in sub
      ensures e.0 != f.0
    {
      assert f.0[|path|] == k;
      assert e.0[|path|..] != [] && e.0[|path|..][0] in firsts;
    }
  }

  lemma ListsOne(out: seq<Entry>, a: Json, b: Json, path: Path, firsts: set<string>, k: string)
    requires Lists(out, a, b, path, Part(false, firsts)) && k !in firsts && StepTo(a, b, k).One?
    ensures Lists(out + [(path + [k], DiffAt(a, b, [k]).value)], a, b, path, Part(false, firsts + {k}))
  {
    var sub := [(path + [k], DiffAt(a, b, [k]).value)];
    assert (path + [k])[|path|..] == [k];
    forall q | InScope(q, Part(false, {k})) && DiffAt(a, b, q).Some?
      ensures (path + q, DiffAt(a, b, q).value) in sub
    {
      assert q == [k];
    }
    Apart(out, sub, a, b, path, firsts, k);
  }

  // Nothing differs under a token neither value can follow.
  lemma ListsWhole(out: seq<Entry>, a: Json, b: Json, path: Path, firsts: set<string>)
    requires Lists(out, a, b, path, Part(false, firsts))
    requires forall k :: k !in firsts ==> StepTo(a, b, k).Neither?
    ensures Here(a, b).None? ==> Lists(out, a, b, path, Whole)
    ensures Here(a, b).Some? ==> Lists(out + [(path, Here(a, b).value)], a, b, path, Whole)
  {
    hide StepTo, Here, DiffAt, Sound, Complete;
    var own := if Here(a, b).Some? then [(path, Here(a, b).value)] else [];
    OwnDifference(a, b);
    NothingBeyond(a, b, firsts);
    WholeSound(out, own, a, b, path, firsts);
    WholeComplete(out, own, a, b, path, firsts);
    BelowOnly(out, a, b, path, firsts);
    assert Here(a, b).None? ==> out + own == out;
  }

  lemma WholeSound(out: seq<Entry>, own: seq<Entry>, a: Json, b: Json, path: Path, firsts: set<string>)
    requires Sound(out, a, b, path, Part(false, firsts)) && DiffAt(a, b, []) == Here(a, b)
    requires own == if Here(a, b).Some? then [(path, Here(a, b).value)] else []
    ensures Sound(out + own, a, b, path, Whole)
  {
    hide DiffAt, Here;
    assert path[|path|..] == [];
    forall x | x in out + own
      ensures path <= x.0 && InScope(x.0[|path|..], Whole) && DiffAt(a, b, x.0[|path|..]) == Some(x.1)
    {
    }
  }

  lemma WholeComplete(out: seq<Entry>, own: seq<Entry>, a: Json, b: Json, path: Path, firsts: set<string>)
    requires Complete(out, a, b, path, Part(false, firsts)) && DiffAt(a, b, []) == Here(a, b)
    requires own == if Here(a, b).Some? then [(path, Here(a, b).value)] else []
    requires forall q :: DiffAt(a, b, q).Some? && q != [] ==> q[0] in firsts
    ensures Complete(out + own, a, b, path, Whole)
  {
    hide DiffAt, Here;
    assert path + [] == path;
  }

  lemma BelowOnly(out: seq<Entry>, a: Json, b: Json, path: Path, firsts: set<string>)
    requires Sound(out, a, b, path, Part(false, firsts))
    ensures forall e :: e in out ==> e.0 != path
  {
    hide DiffAt;
    assert path[|path|..] == [];
    assert forall e :: e in out ==> InScope(e.0[|path|..], Part(false, firsts));
  }

  lemma OwnDifference(a: Json, b: Json)
    ensures DiffAt(a, b, []) == Here(a, b)
  {
  }

  lemma NothingBeyond(a: Json, b: Json, firsts: set<string>)
    requires forall k :: k !in firsts ==> StepTo(a, b, k).Neither?
    ensures forall q :: DiffAt(a, b, q).Some? && q != [] ==> q[0] in firsts
  {
    hide StepTo, Here;
  }

  // Yields every difference once. Members are visited in any order.
  method AllDifferences(a: Json, b: Json, path: Path) returns (out: seq<Entry>)
    ensures Lists(out, a, b, path, Whole)
    decreases a, 1
  {
    hide Lists, DiffAt, StepTo;
    ListsNothing(a, b, path);
    if SameKind(a, b) && a.Obj? {
      out := MemberDifferences(a, b, path);
    } else if SameKind(a, b) && a.Arr? {
      out := ItemDifferences(a, b, path);
    } else {
      NoSteps(a, b);
      ListsWhole([], a, b, path, {});
      out := if !SameKind(a, b) then [(path, TypeItem(Show(a), Show(b)))] else if a != b then [(path, ValueItem(Show(a), Show(b)))] else [];
      assert forall e: Entry :: [] + [e] == [e];
    }
  }

  lemma NoSteps(a: Json, b: Json)
    requires !SameKind(a, b) || !(a.Obj? || a.Arr?)
    ensures forall k :: StepTo(a, b, k).Neither?
  {
  }

  method MemberDifferences(a: Json, b: Json, path: Path) returns (out: seq<Entry>)
    requires a.Obj? && b.Obj?
    ensures Lists(out, a, b, path, Whole)
    decreases a, 0
  {
    hide Lists, DiffAt, ShowOption;
    out := [];
    ListsNothing(a, b, path);
    var todo := a.fields.Keys + b.fields.Keys;
    ghost var done: set<string> := {};
    while todo != {}
      invariant todo !! done && todo + done == a.fields.Keys + b.fields.Keys
      invariant Lists(out, a, b, path, Part(false, done))
    {
      var k :| k in todo;
      if k in a.fields && k in b.fields {
        var sub := AllDifferences(a.fields[k], b.fields[k], path + [k]);
        ListsMember(out, sub, a, b, path, done, k);
        out := out + sub;
      } else {
        ListsOne(out, a, b, path, done, k);
        OneIsMissing(a, b, k);
        out := out + [(path + [k], MissingItem(ShowOption(Child(a, k)), ShowOption(Child(b, k))))];
      }
      todo, done := todo - {k}, done + {k};
    }
    ListsWhole(out, a, b, path, done);
  }

  lemma OneIsMissing(a: Json, b: Json, k: string)
    requires a.Obj? && b.Obj? && (k in a.fields) != (k in b.fields)
    ensures DiffAt(a, b, [k]) == Some(MissingItem(ShowOption(Child(a, k)), ShowOption(Child(b, k))))
  {
  }

  method ItemDifferences(a: Json, b: Json, path: Path) returns (out: seq<Entry>)
    requires a.Arr? && b.Arr?
    ensures Lists(out, a, b, path, Whole)
    decreases a, 0
  {
    hide Lists, DiffAt, Decimal, StepTo;
    out := [];
    ListsNothing(a, b, path);
    var common := if |a.items| < |b.items| then |a.items| else |b.items|;
    ghost var done: set<string> := {};
    for index := 0 to common
      invariant forall k :: k in done <==> IndexOf(k).Some? && IndexOf(k).value < index
      invariant Lists(out, a, b, path, Part(false, done))
    {
      IndexRoundTrip(index);
      ItemStep(a, b, index);
      OnlyDecimal(index);
      var sub := AllDifferences(a.items[index], b.items[index], path + [Decimal(index)]);
      ListsMember(out, sub, a, b, path, done, Decimal(index));
      out, done := out + sub, done + {Decimal(index)};
    }
    BeyondCommon(a, b, common, done);
    ListsWhole(out, a, b, path, done);
    if |a.items| != |b.items| {
      out := out + [(path, LengthItem(|a.items|, |b.items|))];
    }
  }

  lemma ItemStep(a: Json, b: Json, i: nat)
    requires a.Arr? && b.Arr? && i < |a.items| && i < |b.items|
    ensures StepTo(a, b, Decimal(i)) == Both(a.items[i], b.items[i])
  {
    IndexRoundTrip(i);
  }

  lemma OnlyDecimal(i: nat)
    ensures forall k :: IndexOf(k) == Some(i) ==> k == Decimal(i)
  {
    forall k | IndexOf(k) == Some(i)
      ensures k == Decimal(i)
    {
      IndexIsDecimal(k);
    }
  }

  lemma BeyondCommon(a: Json, b: Json, common: nat, done: set<string>)
    requires a.Arr? && b.Arr? && common == if |a.items| < |b.items| then |a.items| else |b.items|
    requires forall k :: k in done <==> IndexOf(k).Some? && IndexOf(k).value < common
    ensures forall k :: k !in done ==> StepTo(a, b, k).Neither?
  {
    hide IndexOf;
  }
}
