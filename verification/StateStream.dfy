// The state stream of the audit: one full state, then patches. What the native
// writer leaves behind, the offline reader replays.
module StateStreams {
  import opened JsonPointers
  import opened JsonPatches

  datatype Row = Initial(state: Json) | Delta(ops: seq<Op>)

  function Latest(states: seq<Json>): Json {
    if states == [] then Null else states[|states| - 1]
  }

  // Every state the reader yields, None for a malformed stream. A null state and
  // no state are the same to it.
  function Replay(rows: seq<Row>): Option<seq<Json>> {
    if rows == [] then Some([])
    else match Replay(rows[..|rows| - 1])
      case None => None
      case Some(states) =>
        match Next(Latest(states), rows[|rows| - 1])
        case None => None
        case Some(state) => Some(states + [state])
  }

  function Next(current: Json, row: Row): Option<Json> {
    match row
    case Initial(state) => if current == Null then Some(state) else None
    case Delta(ops) => if current == Null then None else Patch(current, ops)
  }

  method ApplyPatch(document: Json, ops: seq<Op>) returns (r: Option<Json>)
    ensures r == Patch(document, ops)
  {
    hide Apply, ReadOp;
    var state := document;
    for i := 0 to |ops|
      invariant Patch(document, ops[..i]) == Some(state)
    {
      assert ops[..i + 1][..i] == ops[..i];
      var edit := ReadOp(ops[i]);
      var after := if edit.Some? then Apply(state, edit.value) else None;
      if after.None? {
        PatchStops(document, ops, i + 1);
        return None;
      }
      state := after.value;
    }
    assert ops[..|ops|] == ops;
    r := Some(state);
  }

  // A refused operation refuses the whole patch.
  lemma {:induction false} PatchStops(document: Json, ops: seq<Op>, n: nat)
    requires n <= |ops| && Patch(document, ops[..n]).None?
    ensures Patch(document, ops).None?
    decreases |ops| - n
  {
    if n == |ops| {
      assert ops[..n] == ops;
    } else {
      assert ops[..n + 1][..n] == ops[..n];
      PatchStops(document, ops, n + 1);
    }
  }

  method IterStates(rows: seq<Row>) returns (r: Option<seq<Json>>)
    ensures r == Replay(rows)
  {
    hide Patch;
    var state, states: seq<Json> := Null, [];
    for i := 0 to |rows|
      invariant Replay(rows[..i]) == Some(states) && state == Latest(states)
    {
      assert rows[..i + 1][..i] == rows[..i];
      match rows[i] {
        case Initial(first) =>
          if state != Null {
            ReplayStops(rows, i + 1);
            return None;
          }
          state := first;
        case Delta(ops) =>
          var patched := None;
          if state != Null { patched := ApplyPatch(state, ops); }
          if patched.None? {
            ReplayStops(rows, i + 1);
            return None;
          }
          state := patched.value;
      }
      states := states + [state];
    }
    assert rows[..|rows|] == rows;
    r := Some(states);
  }

  lemma {:induction false} ReplayStops(rows: seq<Row>, n: nat)
    requires n <= |rows| && Replay(rows[..n]).None?
    ensures Replay(rows).None?
    decreases |rows| - n
  {
    if n == |rows| {
      assert rows[..n] == rows;
    } else {
      assert rows[..n + 1][..n] == rows[..n];
      ReplayStops(rows, n + 1);
    }
  }

  class StateWriter {
    var rows: seq<Row>
    var previous: Json
    ghost var captured: seq<Json>

    // The file replays to every captured state, in order.
    ghost predicate Valid()
      reads this
    {
      Replay(rows) == Some(captured) && previous == Latest(captured)
    }

    constructor ()
      ensures Valid() && captured == []
    {
      rows, previous, captured := [], Null, [];
    }

    method Write(state: Json)
      requires Valid()
      modifies this
      ensures Valid() && captured == old(captured) + [state]
      ensures |rows| == |old(rows)| + 1 && old(rows) <= rows
    {
      hide Patch;
      var row;
      if previous == Null {
        row := Initial(state);
      } else {
        var ops := ExactJsonDiff(previous, state);
        row := Delta(ops);
      }
      rows, previous, captured := rows + [row], state, captured + [state];
      assert rows[..|rows| - 1] == old(rows);
    }
  }

  // Any sequence of states survives the trip through the file.
  method WriteThenRead(states: seq<Json>) returns (r: Option<seq<Json>>)
    ensures r == Some(states)
  {
    var writer := new StateWriter();
    for i := 0 to |states|
      invariant writer.Valid() && writer.captured == states[..i]
    {
      writer.Write(states[i]);
    }
    assert states[..|states|] == states;
    r := IterStates(writer.rows);
  }
}
