// determinism/json_diff.hpp and the patch reader: the exact diff of two JSON
// values as a JSON Patch (RFC 6902 sections 3 and 4), and its application.
module JsonPatches {
  import opened JsonPointers

  // One operation, its target as reference tokens.
  datatype Edit = Add(at: Path, value: Json) | Remove(at: Path) | Replace(at: Path, value: Json)

  // One operation as printed.
  datatype Op = AddOp(path: string, value: Json) | RemoveOp(path: string) | ReplaceOp(path: string, value: Json)

  function Child(doc: Json, token: string): Option<Json> {
    if doc.Obj? then if token in doc.fields then Some(doc.fields[token]) else None
    else if doc.Arr? then
      match IndexOf(token)
      case Some(i) => if i < |doc.items| then Some(doc.items[i]) else None
      case None => None
    else None
  }

  function WithChild(doc: Json, token: string, child: Json): Json
    requires Child(doc, token).Some?
  {
    if doc.Obj? then Obj(doc.fields[token := child]) else Arr(doc.items[IndexOf(token).value := child])
  }

  // The operation on the container that holds its target.
  function AtLeaf(doc: Json, token: string, e: Edit): Option<Json> {
    if doc.Obj? then
      if e.Add? then Some(Obj(doc.fields[token := e.value]))
      else if token !in doc.fields then None
      else if e.Remove? then Some(Obj(doc.fields - {token}))
      else Some(Obj(doc.fields[token := e.value]))
    else if doc.Arr? then
      if e.Add? && token == "-" then Some(Arr(doc.items + [e.value]))
      else match IndexOf(token)
        case None => None
        case Some(i) =>
          if e.Add? then if i <= |doc.items| then Some(Arr(doc.items[..i] + [e.value] + doc.items[i..])) else None
          else if i >= |doc.items| then None
          else if e.Remove? then Some(Arr(doc.items[..i] + doc.items[i + 1..]))
          else Some(Arr(doc.items[i := e.value]))
    else None
  }

  function Apply(doc: Json, e: Edit): Option<Json>
    decreases |e.at|
  {
    if e.at == [] then if e.Remove? then None else Some(e.value)
    else if |e.at| == 1 then AtLeaf(doc, e.at[0], e)
    else
      match Child(doc, e.at[0])
      case None => None
      case Some(c) =>
        match Apply(c, e.(at := e.at[1..]))
        case None => None
        case Some(d) => Some(WithChild(doc, e.at[0], d))
  }

  // Operations on a member and on an item (RFC 6902 section 4).
  lemma MemberEdits(fields: map<string, Json>, k: string, v: Json)
    ensures Apply(Obj(fields), Add([k], v)) == Some(Obj(fields[k := v]))
    ensures Apply(Obj(fields), Remove([k])) == if k in fields then Some(Obj(fields - {k})) else None
    ensures Apply(Obj(fields), Replace([k], v)) == if k in fields then Some(Obj(fields[k := v])) else None
  {
  }

  lemma ItemEdits(items: seq<Json>, i: nat, v: Json)
    ensures Apply(Arr(items), Add([Decimal(i)], v)) == if i <= |items| then Some(Arr(items[..i] + [v] + items[i..])) else None
    ensures Apply(Arr(items), Remove([Decimal(i)])) == if i < |items| then Some(Arr(items[..i] + items[i + 1..])) else None
    ensures Apply(Arr(items), Replace([Decimal(i)], v)) == if i < |items| then Some(Arr(items[i := v])) else None
    ensures Apply(Arr(items), Add(["-"], v)) == Some(Arr(items + [v]))
  {
    IndexRoundTrip(i);
    hide Decimal;
    assert Decimal(i) != "-" by { DecimalForms(); }
  }

  function Run(doc: Json, edits: seq<Edit>): Option<Json> {
    if edits == [] then Some(doc)
    else match Run(doc, edits[..|edits| - 1])
      case None => None
      case Some(d) => Apply(d, edits[|edits| - 1])
  }

  lemma {:induction false} RunAppend(doc: Json, a: seq<Edit>, b: seq<Edit>)
    ensures Run(doc, a + b) == match Run(doc, a) case None => None case Some(d) => Run(d, b)
  {
    if b == [] {
      assert a + b == a;
    } else {
      RunAppend(doc, a, b[..|b| - 1]);
      assert (a + b)[..|a + b| - 1] == a + b[..|b| - 1];
    }
  }

  lemma RunOne(doc: Json, e: Edit)
    ensures Run(doc, [e]) == Apply(doc, e)
  {
    assert Run(doc, [e][..0]) == Some(doc);
  }

  // ---- operations on a child ------------------------------------------------------

  function Under(token: string, e: Edit): Edit {
    e.(at := [token] + e.at)
  }

  function UnderAll(token: string, edits: seq<Edit>): seq<Edit> {
    seq(|edits|, i requires 0 <= i < |edits| => Under(token, edits[i]))
  }

  // Only a replacement may name the whole value.
  predicate Clean(edits: seq<Edit>) {
    forall i :: 0 <= i < |edits| && edits[i].at == [] ==> edits[i].Replace?
  }

  lemma LiftOne(doc: Json, token: string, child: Json, e: Edit)
    requires Child(doc, token) == Some(child) && Apply(child, e).Some? && (e.at == [] ==> e.Replace?)
    ensures Apply(doc, Under(token, e)) == Some(WithChild(doc, token, Apply(child, e).value))
  {
    assert Under(token, e).at[1..] == e.at;
    assert Under(token, e).(at := e.at) == e;
  }

  lemma ChildOfWith(doc: Json, token: string, child: Json)
    requires Child(doc, token).Some?
    ensures Child(WithChild(doc, token, child), token) == Some(child)
    ensures forall d :: WithChild(WithChild(doc, token, child), token, d) == WithChild(doc, token, d)
  {
  }

  // Editing a child in place edits the document.
  lemma {:induction false} Lift(doc: Json, token: string, child: Json, edits: seq<Edit>)
    requires Child(doc, token) == Some(child) && Run(child, edits).Some? && Clean(edits)
    ensures Run(doc, UnderAll(token, edits)) == Some(WithChild(doc, token, Run(child, edits).value))
  {
    if edits == [] {
      assert WithChild(doc, token, child) == doc by { WithSame(doc, token); }
    } else {
      var n := |edits| - 1;
      var before, all := edits[..n], UnderAll(token, edits);
      Lift(doc, token, child, before);
      assert all[..n] == UnderAll(token, before);
      var mid := Run(child, before).value;
      ChildOfWith(doc, token, mid);
      LiftOne(WithChild(doc, token, mid), token, mid, edits[n]);
    }
  }

  lemma WithSame(doc: Json, token: string)
    requires Child(doc, token).Some?
    ensures WithChild(doc, token, Child(doc, token).value) == doc
  {
  }

  // ---- printing and reading -------------------------------------------------------

  function Print(path: string, e: Edit): Op {
    match e
    case Add(at, v) => AddOp(path + Pointer(at), v)
    case Remove(at) => RemoveOp(path + Pointer(at))
    case Replace(at, v) => ReplaceOp(path + Pointer(at), v)
  }

  function Printed(path: string, edits: seq<Edit>): seq<Op> {
    seq(|edits|, i requires 0 <= i < |edits| => Print(path, edits[i]))
  }

  function ReadOp(op: Op): Option<Edit> {
    match Tokens(op.path)
    case None => None
    case Some(at) => Some(match op case AddOp(_, v) => Add(at, v) case RemoveOp(_) => Remove(at) case ReplaceOp(_, v) => Replace(at, v))
  }

  // The reader: every operation in order, None for any refusal.
  function Patch(doc: Json, ops: seq<Op>): Option<Json> {
    if ops == [] then Some(doc)
    else match Patch(doc, ops[..|ops| - 1])
      case None => None
      case Some(d) => match ReadOp(ops[|ops| - 1]) case None => None case Some(e) => Apply(d, e)
  }

  lemma {:induction false} ReadingPrintedOps(doc: Json, edits: seq<Edit>)
    ensures Patch(doc, Printed("", edits)) == Run(doc, edits)
  {
    hide Apply, Tokens, Pointer;
    if edits != [] {
      var n := |edits| - 1;
      ReadingPrintedOps(doc, edits[..n]);
      assert Printed("", edits)[..n] == Printed("", edits[..n]);
      PointerRoundTrip(edits[n].at);
      assert "" + Pointer(edits[n].at) == Pointer(edits[n].at);
    }
  }

  lemma PrintedUnder(path: string, token: string, edits: seq<Edit>)
    ensures Printed(path + "/" + Escape(token), edits) == Printed(path, UnderAll(token, edits))
  {
    hide Escape, Pointer;
    forall i | 0 <= i < |edits|
      ensures Print(path + "/" + Escape(token), edits[i]) == Print(path, Under(token, edits[i]))
    {
      PointerAppend([token], edits[i].at);
      PointerOfOne(token);
      JoinTexts(path, "/" + Escape(token), Pointer(edits[i].at));
      JoinTexts(path, "/", Escape(token));
    }
  }

  lemma JoinTexts(x: string, y: string, z: string)
    ensures (x + y) + z == x + (y + z)
  {
  }

  lemma PrintedAppend(path: string, a: seq<Edit>, b: seq<Edit>)
    ensures Printed(path, a + b) == Printed(path, a) + Printed(path, b)
  {
  }

  // ---- the diff -------------------------------------------------------------------

  predicate SameKind(a: Json, b: Json) {
    || (a.Null? && b.Null?) || (a.Bool? && b.Bool?) || (a.Num? && b.Num?) || (a.Str? && b.Str?)
    || (a.Arr? && b.Arr?) || (a.Obj? && b.Obj?)
  }

  // A half-edited object: members in `todo` are still the source's.
  function HalfEdited(s: map<string, Json>, t: map<string, Json>, todo: set<string>): map<string, Json> {
    map k | k in s && (k in todo || k in t) :: if k in todo then s[k] else t[k]
  }

  lemma MemberStep(s: map<string, Json>, t: map<string, Json>, todo: set<string>, k: string)
    requires k in todo && k in s && todo <= s.Keys
    ensures k in HalfEdited(s, t, todo) && HalfEdited(s, t, todo)[k] == s[k]
    ensures k !in t ==> HalfEdited(s, t, todo - {k}) == HalfEdited(s, t, todo) - {k}
    ensures k in t ==> HalfEdited(s, t, todo - {k}) == HalfEdited(s, t, todo)[k := t[k]]
  {
  }

  // `edits` turn `source` into `doc`, and are printed after `was` under `path`.
  ghost predicate Wrote(was: seq<Op>, out: seq<Op>, path: string, source: Json, edits: seq<Edit>, doc: Json) {
    && out == was + Printed(path, edits) && Clean(edits) && Run(source, edits) == Some(doc)
  }

  lemma WroteNothing(was: seq<Op>, path: string, source: Json)
    ensures Wrote(was, was, path, source, [], source)
  {
  }

  lemma WroteOne(was: seq<Op>, out: seq<Op>, path: string, source: Json, edits: seq<Edit>, doc: Json, token: string, e: Edit)
    requires Wrote(was, out, path, source, edits, doc) && e.at == [token] && AtLeaf(doc, token, e).Some?
    ensures Wrote(was, out + [Print(path, e)], path, source, edits + [e], AtLeaf(doc, token, e).value)
  {
    RunAppend(source, edits, [e]);
    RunOne(doc, e);
    PrintedAppend(path, edits, [e]);
  }

  lemma WroteChild(was: seq<Op>, mid: seq<Op>, out: seq<Op>, path: string, source: Json, edits: seq<Edit>, doc: Json,
                   token: string, child: Json, sub: seq<Edit>, target: Json)
    requires Wrote(was, mid, path, source, edits, doc) && Child(doc, token) == Some(child)
    requires Wrote(mid, out, path + "/" + Escape(token), child, sub, target)
    ensures Wrote(was, out, path, source, edits + UnderAll(token, sub), WithChild(doc, token, target))
  {
    hide Run, Apply, Child, WithChild, Escape, Pointer, Print;
    RunAppend(source, edits, UnderAll(token, sub));
    Lift(doc, token, child, sub);
    PrintedUnder(path, token, sub);
    PrintedAppend(path, edits, UnderAll(token, sub));
  }

  class PatchWriter {
    var out: seq<Op>

    constructor ()
      ensures out == []
    {
      out := [];
    }

    // Appends the operations that turn `source` into `target`. Members are
    // visited in any order.
    method Append(source: Json, target: Json, path: string) returns (ghost edits: seq<Edit>)
      modifies this
      ensures Wrote(old(out), out, path, source, edits, target)
      ensures source == target ==> out == old(out)
      decreases source, 1
    {
      if source == target {
        WroteNothing(out, path, source);
        return [];
      }
      if !SameKind(source, target) || !(source.Obj? || source.Arr?) {
        ghost var e := Replace([], target);
        RunOne(source, e);
        assert path + Pointer([]) == path;
        out := out + [ReplaceOp(path, target)];
        return [e];
      }
      if source.Obj? {
        edits := AppendMembers(source, target, path);
      } else {
        edits := AppendItems(source, target, path);
      }
    }

    method AppendMembers(source: Json, target: Json, path: string) returns (ghost edits: seq<Edit>)
      requires source.Obj? && target.Obj?
      modifies this
      ensures Wrote(old(out), out, path, source, edits, target)
      decreases source, 0
    {
      hide Wrote, AtLeaf, HalfEdited, Escape, Child, WithChild;
      edits := [];
      WroteNothing(out, path, source);
      var s, t := source.fields, target.fields;
      var todo := s.Keys;
      NothingEdited(s, t);
      while todo != {}
        invariant todo <= s.Keys
        invariant Wrote(old(out), out, path, source, edits, Obj(HalfEdited(s, t, todo)))
      {
        var k :| k in todo;
        edits := AppendMember(source, target, path, edits, old(out), todo, k);
        todo := todo - {k};
      }
      AllEdited(s, t);
      edits := AppendNew(source, target, path, edits, old(out));
    }

    // One member of the source: removed, edited in place, or left alone.
    method AppendMember(source: Json, target: Json, path: string, ghost done: seq<Edit>, ghost was: seq<Op>, ghost todo: set<string>, k: string)
      returns (ghost edits: seq<Edit>)
      requires source.Obj? && target.Obj? && k in todo && todo <= source.fields.Keys
      requires Wrote(was, out, path, source, done, Obj(HalfEdited(source.fields, target.fields, todo)))
      modifies this
      ensures Wrote(was, out, path, source, edits, Obj(HalfEdited(source.fields, target.fields, todo - {k})))
      decreases source, 0, 0
    {
      hide Wrote, HalfEdited, Escape;
      ghost var doc, mid := Obj(HalfEdited(source.fields, target.fields, todo)), out;
      MemberStep(source.fields, target.fields, todo, k);
      edits := done;
      if k !in target.fields {
        var token := EscapePointerToken(k);
        ghost var e := Remove([k]);
        WroteOne(was, mid, path, source, done, doc, k, e);
        PointerOfOne(k);
        assert path + Pointer([k]) == path + "/" + token;
        out := out + [RemoveOp(path + "/" + token)];
        edits := done + [e];
      } else if source.fields[k] != target.fields[k] {
        var token := EscapePointerToken(k);
        ghost var sub := Append(source.fields[k], target.fields[k], path + "/" + token);
        WroteChild(was, mid, out, path, source, done, doc, k, source.fields[k], sub, target.fields[k]);
        edits := done + UnderAll(k, sub);
      } else {
        assert HalfEdited(source.fields, target.fields, todo)[k := target.fields[k]] == HalfEdited(source.fields, target.fields, todo);
      }
    }

    // The members only the target has.
    method AppendNew(source: Json, target: Json, path: string, ghost done: seq<Edit>, ghost was: seq<Op>) returns (ghost edits: seq<Edit>)
      requires source.Obj? && target.Obj?
      requires Wrote(was, out, path, source, done, Obj(target.fields - (target.fields.Keys - source.fields.Keys)))
      modifies this
      ensures Wrote(was, out, path, source, edits, target)
    {
      hide Wrote, Escape;
      edits := done;
      var t := target.fields;
      var added := t.Keys - source.fields.Keys;
      while added != {}
        invariant added <= t.Keys
        invariant Wrote(was, out, path, source, edits, Obj(t - added))
      {
        var k :| k in added;
        var token := EscapePointerToken(k);
        ghost var e := Add([k], t[k]);
        WroteOne(was, out, path, source, edits, Obj(t - added), k, e);
        assert (t - added)[k := t[k]] == t - (added - {k});
        PointerOfOne(k);
        assert path + Pointer([k]) == path + "/" + token;
        out := out + [AddOp(path + "/" + token, t[k])];
        edits := edits + [e];
        added := added - {k};
      }
      assert t - {} == t;
    }

    method AppendItems(source: Json, target: Json, path: string) returns (ghost edits: seq<Edit>)
      requires source.Arr? && target.Arr?
      modifies this
      ensures Wrote(old(out), out, path, source, edits, target)
      decreases source, 0
    {
      hide Wrote, Escape, Decimal, IndexOf, Child, WithChild, AtLeaf;
      var s, t := source.items, target.items;
      var common := if |s| < |t| then |s| else |t|;
      edits := [];
      WroteNothing(out, path, source);
      assert t[..0] + s[0..] == s;
      for index := 0 to common
        invariant Wrote(old(out), out, path, source, edits, Arr(t[..index] + s[index..]))
      {
        edits := AppendItem(source, target, path, edits, old(out), index);
      }
      edits := Resize(source, target, path, edits, old(out), common);
    }

    method AppendItem(source: Json, target: Json, path: string, ghost done: seq<Edit>, ghost was: seq<Op>, index: nat)
      returns (ghost edits: seq<Edit>)
      requires source.Arr? && target.Arr? && index < |source.items| && index < |target.items|
      requires Wrote(was, out, path, source, done, Arr(target.items[..index] + source.items[index..]))
      modifies this
      ensures Wrote(was, out, path, source, edits, Arr(target.items[..index + 1] + source.items[index + 1..]))
      decreases source, 0, 0
    {
      hide Wrote, Escape, Decimal, IndexOf;
      ghost var doc, mid, k := Arr(target.items[..index] + source.items[index..]), out, Decimal(index);
      IndexRoundTrip(index);
      assert doc.items[index := target.items[index]] == target.items[..index + 1] + source.items[index + 1..];
      edits := done;
      if source.items[index] != target.items[index] {
        var token := Decimal(index);
        DecimalIsPlain(index);
        ghost var sub := Append(source.items[index], target.items[index], path + "/" + token);
        WroteChild(was, mid, out, path, source, done, doc, k, source.items[index], sub, target.items[index]);
        edits := done + UnderAll(k, sub);
      } else {
        assert doc.items[index := target.items[index]] == doc.items;
      }
    }

    // Removals from the end, then additions at the end.
    method Resize(source: Json, target: Json, path: string, ghost done: seq<Edit>, ghost was: seq<Op>, common: nat)
      returns (ghost edits: seq<Edit>)
      requires source.Arr? && target.Arr?
      requires common == if |source.items| < |target.items| then |source.items| else |target.items|
      requires Wrote(was, out, path, source, done, Arr(target.items[..common] + source.items[common..]))
      modifies this
      ensures Wrote(was, out, path, source, edits, target)
    {
      hide Wrote, Escape, Decimal, IndexOf;
      var s, t := source.items, target.items;
      edits := done;
      var index := |s|;
      assert s[common..index] == s[common..];
      while index > common
        invariant common <= index <= |s|
        invariant Wrote(was, out, path, source, edits, Arr(t[..common] + s[common..index]))
      {
        edits := RemoveItem(source, path, edits, was, t[..common] + s[common..index], index - 1);
        assert (t[..common] + s[common..index])[..index - 1] == t[..common] + s[common..index - 1];
        index := index - 1;
      }
      assert t[..common] + s[common..common] == t[..common];
      for at := common to |t|
        invariant Wrote(was, out, path, source, edits, Arr(t[..at]))
      {
        ghost var e := Add(["-"], t[at]);
        WroteOne(was, out, path, source, edits, Arr(t[..at]), "-", e);
        assert t[..at] + [t[at]] == t[..at + 1];
        DashIsPlain(path);
        out := out + [AddOp(path + "/-", t[at])];
        edits := edits + [e];
      }
      assert t[..|t|] == t;
    }

    method RemoveItem(source: Json, path: string, ghost done: seq<Edit>, ghost was: seq<Op>, ghost items: seq<Json>, index: nat)
      returns (ghost edits: seq<Edit>)
      requires index == |items| - 1 && Wrote(was, out, path, source, done, Arr(items))
      modifies this
      ensures Wrote(was, out, path, source, edits, Arr(items[..index]))
    {
      hide Wrote, Escape, Decimal, IndexOf;
      ghost var k, e := Decimal(index), Remove([Decimal(index)]);
      IndexRoundTrip(index);
      assert items[..index] + items[index + 1..] == items[..index];
      WroteOne(was, out, path, source, done, Arr(items), k, e);
      DecimalIsPlain(index);
      PointerOfOne(k);
      assert path + Pointer([k]) == path + "/" + k;
      out := out + [RemoveOp(path + "/" + Decimal(index))];
      edits := done + [e];
    }
  }

  lemma NothingEdited(s: map<string, Json>, t: map<string, Json>)
    ensures HalfEdited(s, t, s.Keys) == s
  {
  }

  lemma AllEdited(s: map<string, Json>, t: map<string, Json>)
    ensures HalfEdited(s, t, {}) == t - (t.Keys - s.Keys)
  {
  }

  // An index needs no escaping.
  lemma {:induction false} DecimalIsPlain(n: nat)
    ensures Escape(Decimal(n)) == Decimal(n)
  {
    if n < 10 {
      assert Escape([Digit(n)][..0]) == "";
    } else {
      DecimalIsPlain(n / 10);
      assert Decimal(n)[..|Decimal(n)| - 1] == Decimal(n / 10);
    }
  }

  lemma DashIsPlain(path: string)
    ensures path + Pointer(["-"]) == path + "/-"
  {
    PointerOfOne("-");
    assert Escape("-"[..0]) == "";
  }

  // Applying the diff of two documents to the first yields the second.
  method ExactJsonDiff(source: Json, target: Json) returns (ops: seq<Op>)
    ensures Patch(source, ops) == Some(target)
    ensures source == target ==> ops == []
  {
    var writer := new PatchWriter();
    ghost var edits := writer.Append(source, target, "");
    ReadingPrintedOps(source, edits);
    ops := writer.out;
    assert [] + Printed("", edits) == Printed("", edits);
  }
}
