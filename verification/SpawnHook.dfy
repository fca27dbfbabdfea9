// determinism/spawn_hook.cpp: nested initializer calls become records with their
// true depth and parent, even past the limit of the saved frames.
module SpawnHooks {
  import opened Measurements

  const CAPACITY: nat := 1024
  const DEPTH_LIMIT: nat := 32

  datatype Entry = Entry(zombie: nat, readable: bool, invocationId: nat, parentInvocationId: nat, depth: nat)
  datatype Record = Record(entry: Entry, sequence: nat, ordinal: nat)

  // A call as it really happened: its enclosing call, or -1, and its nesting.
  datatype Call = Call(parent: int, depth: nat, zombie: nat, invocationId: nat)

  // Calls are listed in entry order; a call's parent entered before it.
  ghost predicate Tree(calls: seq<Call>) {
    forall c :: 0 <= c < |calls| ==>
      && -1 <= calls[c].parent < c
      && calls[c].depth == (if calls[c].parent < 0 then 0 else calls[calls[c].parent].depth + 1)
  }

  // Call `a` encloses call `c`.
  ghost predicate Encloses(calls: seq<Call>, a: int, c: int)
    requires Tree(calls) && -1 <= c < |calls|
    decreases c
  {
    c >= 0 && calls[c].parent >= 0 && (calls[c].parent == a || Encloses(calls, a, calls[c].parent))
  }

  // The open calls, outermost first: each is entered directly from the one before.
  ghost predicate Nested(calls: seq<Call>, open: seq<int>) {
    && (forall i :: 0 <= i < |open| ==> 0 <= open[i] < |calls| && calls[open[i]].depth == i)
    && (forall i :: 0 <= i < |open| ==> calls[open[i]].parent == Above(open, i))
  }

  // The open call directly around the i-th one.
  function Above(open: seq<int>, i: nat): int
    requires i <= |open|
  {
    if i == 0 then -1 else open[i - 1]
  }

  // The saved frames are the entries of the open calls.
  ghost predicate Saved(calls: seq<Call>, open: seq<int>, stack: seq<Entry>) {
    && |stack| == DEPTH_LIMIT && Nested(calls, open)
    && (forall i :: 0 <= i < |open| && i < DEPTH_LIMIT ==> Describes(stack[i], calls, open[i]))
  }

  // An entry tells the truth about one call.
  ghost predicate Describes(e: Entry, calls: seq<Call>, c: int) {
    && 0 <= c < |calls| && e.zombie == calls[c].zombie && e.invocationId == calls[c].invocationId && e.depth == calls[c].depth
    && (calls[c].parent < 0 ==> e.parentInvocationId == 0)
    && (0 <= calls[c].parent < |calls| ==> e.parentInvocationId == calls[calls[c].parent].invocationId)
  }

  ghost predicate Tells(r: Record, calls: seq<Call>, c: int) {
    Describes(r.entry, calls, c)
  }

  // Records of different finished calls, inner calls before the calls around them.
  ghost predicate PostOrder(calls: seq<Call>, recorded: seq<int>)
    requires Tree(calls)
  {
    && (forall i :: 0 <= i < |recorded| ==> 0 <= recorded[i] < |calls|)
    && (forall i, j :: 0 <= i < j < |recorded| ==> recorded[i] != recorded[j] && !Encloses(calls, recorded[i], recorded[j]))
  }

  ghost predicate Story(calls: seq<Call>, open: seq<int>, recorded: seq<int>, history: seq<Record>) {
    && Tree(calls) && Nested(calls, open) && PostOrder(calls, recorded)
    && |history| == |recorded| && (forall i :: 0 <= i < |history| ==> Tells(history[i], calls, recorded[i]))
    && (forall i :: 0 <= i < |open| ==> open[i] !in recorded)
  }

  lemma {:induction false} EnclosesSame(calls: seq<Call>, more: seq<Call>, a: int, c: int)
    requires Tree(calls) && Tree(more) && calls <= more && -1 <= c < |calls|
    ensures Encloses(more, a, c) == Encloses(calls, a, c)
    decreases c
  {
    if c >= 0 { EnclosesSame(calls, more, a, calls[c].parent); }
  }

  // Only open calls enclose an open call.
  lemma {:induction false} EnclosingIsOpen(calls: seq<Call>, open: seq<int>, a: int, i: nat)
    requires Tree(calls) && Nested(calls, open) && i < |open| && Encloses(calls, a, open[i])
    ensures a in open
  {
    var p := calls[open[i]].parent;
    assert p == Above(open, i);
    hide Nested, Tree;
    if p != a { EnclosingIsOpen(calls, open, a, i - 1); }
  }

  lemma EnterKeeps(calls: seq<Call>, open: seq<int>, recorded: seq<int>, history: seq<Record>, zombie: nat, id: nat)
    requires Story(calls, open, recorded, history)
    ensures var parent := if open == [] then -1 else open[|open| - 1];
      Story(calls + [Call(parent, |open|, zombie, id)], open + [|calls|], recorded, history)
  {
    hide PostOrder, Describes;
    var parent := if open == [] then -1 else open[|open| - 1];
    var more := calls + [Call(parent, |open|, zombie, id)];
    TreeMore(calls, open, zombie, id);
    NestedEnter(calls, open, zombie, id);
    RecordedLonger(calls, more, recorded);
    hide Nested, Tree;
    forall i | 0 <= i < |history|
      ensures Tells(history[i], more, recorded[i])
    {
      DescribesLonger(history[i].entry, calls, more, recorded[i]);
    }
    NotRecorded(calls, recorded);
  }

  lemma NotRecorded(calls: seq<Call>, recorded: seq<int>)
    requires Tree(calls) && PostOrder(calls, recorded)
    ensures |calls| !in recorded
  {
    hide Tree, Encloses;
  }

  lemma TreeMore(calls: seq<Call>, open: seq<int>, zombie: nat, id: nat)
    requires Tree(calls) && Nested(calls, open)
    ensures Tree(calls + [Call(if open == [] then -1 else open[|open| - 1], |open|, zombie, id)])
  {
    if open != [] { assert calls[open[|open| - 1]].depth == |open| - 1; }
  }

  lemma RecordedLonger(calls: seq<Call>, more: seq<Call>, recorded: seq<int>)
    requires Tree(calls) && Tree(more) && calls <= more && PostOrder(calls, recorded)
    ensures PostOrder(more, recorded)
  {
    hide Tree;
    forall i, j | 0 <= i < j < |recorded|
      ensures recorded[i] != recorded[j] && !Encloses(more, recorded[i], recorded[j])
    {
      EnclosesSame(calls, more, recorded[i], recorded[j]);
    }
  }

  // The innermost open call finishes without a record.
  lemma LeaveKeeps(calls: seq<Call>, open: seq<int>, recorded: seq<int>, history: seq<Record>)
    requires Story(calls, open, recorded, history) && open != []
    ensures Story(calls, open[..|open| - 1], recorded, history)
  {
    hide Tree, PostOrder, Tells;
    NestedLeave(calls, open);
    hide Nested;
  }

  // It finishes with one.
  lemma RecordKeeps(calls: seq<Call>, open: seq<int>, recorded: seq<int>, history: seq<Record>, r: Record)
    requires Story(calls, open, recorded, history) && open != [] && Tells(r, calls, open[|open| - 1])
    ensures Story(calls, open[..|open| - 1], recorded + [open[|open| - 1]], history + [r])
  {
    var n := |open| - 1;
    var c, all := open[n], recorded + [open[n]];
    forall i, j | 0 <= i < j < |all|
      ensures all[i] != all[j] && !Encloses(calls, all[i], all[j])
    {
      if j == |recorded| && Encloses(calls, all[i], c) {
        EnclosingIsOpen(calls, open, all[i], n);
        assert false;
      }
    }
    assert forall i :: 0 <= i < n ==> open[i] != c by { OpenOnce(calls, open); }
  }

  lemma OpenOnce(calls: seq<Call>, open: seq<int>)
    requires Nested(calls, open)
    ensures forall i, j :: 0 <= i < j < |open| ==> open[i] != open[j]
  {
    forall i, j | 0 <= i < j < |open|
      ensures open[i] != open[j]
    {
      assert calls[open[i]].depth == i && calls[open[j]].depth == j;
    }
  }

  function BlankFrames(): (r: seq<Entry>)
    ensures |r| == DEPTH_LIMIT
  {
    seq(DEPTH_LIMIT, _ => Entry(0, false, 0, 0, 0))
  }

  lemma NothingNumbered(next: nat, nextInvocation: nat)
    ensures Numbered([], nextInvocation) && Waiting([], [], next)
  {
  }

  lemma NothingYet(stack: seq<Entry>)
    requires |stack| == DEPTH_LIMIT
    ensures Story([], [], [], []) && Saved([], [], stack)
  {
    hide Describes;
  }

  lemma StoryParts(calls: seq<Call>, open: seq<int>, recorded: seq<int>, history: seq<Record>)
    requires Story(calls, open, recorded, history)
    ensures Nested(calls, open) && |history| == |recorded| && Tree(calls)
  {
  }

  lemma NestedEnter(calls: seq<Call>, open: seq<int>, zombie: nat, id: nat)
    requires Nested(calls, open)
    ensures var parent := if open == [] then -1 else open[|open| - 1];
      Nested(calls + [Call(parent, |open|, zombie, id)], open + [|calls|])
  {
    var parent := if open == [] then -1 else open[|open| - 1];
    var more, deeper := calls + [Call(parent, |open|, zombie, id)], open + [|calls|];
    assert parent == Above(open, |open|);
    forall i | 0 <= i < |deeper|
      ensures 0 <= deeper[i] < |more| && more[deeper[i]].depth == i && more[deeper[i]].parent == Above(deeper, i)
    {
      assert Above(deeper, i) == Above(open, i);
      assert i < |open| ==> deeper[i] == open[i] && more[deeper[i]] == calls[open[i]];
    }
  }

  lemma DescribesLonger(e: Entry, calls: seq<Call>, more: seq<Call>, c: int)
    requires Describes(e, calls, c) && Tree(calls) && calls <= more
    ensures Describes(e, more, c)
  {
  }

  // Entering saves the frame of the new call, if there is a frame left.
  lemma EnterSaves(calls: seq<Call>, open: seq<int>, stack: seq<Entry>, zombie: nat, readable: bool, id: nat)
    requires Saved(calls, open, stack) && Tree(calls)
    ensures var parent := if open == [] then -1 else open[|open| - 1];
      var more, deeper := calls + [Call(parent, |open|, zombie, id)], open + [|calls|];
      if |open| < DEPTH_LIMIT then
        Saved(more, deeper, stack[|open| := Entry(zombie, readable, id, if |open| > 0 then stack[|open| - 1].invocationId else 0, |open|)])
      else Saved(more, deeper, stack)
  {
    hide Tree, Describes;
    var n := |open|;
    var parent := if open == [] then -1 else open[n - 1];
    var more, deeper := calls + [Call(parent, n, zombie, id)], open + [|calls|];
    NestedEnter(calls, open, zombie, id);
    forall i | 0 <= i < n && i < DEPTH_LIMIT
      ensures Describes(stack[i], more, deeper[i])
    {
      assert deeper[i] == open[i];
      DescribesLonger(stack[i], calls, more, open[i]);
    }
    hide Nested;
    if n < DEPTH_LIMIT { NewFrame(calls, open, stack, more, Entry(zombie, readable, id, if n > 0 then stack[n - 1].invocationId else 0, n)); }
  }

  lemma NewFrame(calls: seq<Call>, open: seq<int>, stack: seq<Entry>, more: seq<Call>, frame: Entry)
    requires Saved(calls, open, stack) && |open| < DEPTH_LIMIT && |more| == |calls| + 1 && calls <= more
    requires more[|calls|] == Call(if open == [] then -1 else open[|open| - 1], |open|, frame.zombie, frame.invocationId)
    requires frame.depth == |open| && frame.parentInvocationId == if |open| > 0 then stack[|open| - 1].invocationId else 0
    ensures Describes(frame, more, |calls|)
  {
    if |open| > 0 {
      var top := |open| - 1;
      assert Describes(stack[top], calls, open[top]);
      assert more[open[top]] == calls[open[top]];
    }
  }

  // The frame on top is that of the call that really leaves.
  lemma TopTells(calls: seq<Call>, open: seq<int>, stack: seq<Entry>, r: Record)
    requires Saved(calls, open, stack) && 0 < |open| <= DEPTH_LIMIT && r.entry == stack[|open| - 1]
    ensures Tells(r, calls, open[|open| - 1])
  {
    hide Nested, Describes;
  }

  lemma LeaveSaves(calls: seq<Call>, open: seq<int>, stack: seq<Entry>)
    requires Saved(calls, open, stack) && open != []
    ensures Saved(calls, open[..|open| - 1], stack)
  {
    hide Describes;
    NestedLeave(calls, open);
    hide Nested;
    var fewer := open[..|open| - 1];
    assert forall i :: 0 <= i < |fewer| ==> fewer[i] == open[i];
  }

  lemma NestedLeave(calls: seq<Call>, open: seq<int>)
    requires Nested(calls, open) && open != []
    ensures Nested(calls, open[..|open| - 1])
  {
    var fewer := open[..|open| - 1];
    forall i | 0 <= i < |fewer|
      ensures calls[fewer[i]].parent == Above(fewer, i)
    {
      assert fewer[i] == open[i] && Above(fewer, i) == Above(open, i);
    }
  }

  // Invocation ids name calls: they grow in entry order.
  ghost predicate Numbered(calls: seq<Call>, next: nat) {
    && (forall c :: 0 <= c < |calls| ==> calls[c].invocationId < next)
    && (forall c, d :: 0 <= c < d < |calls| && calls[d].invocationId != 0 ==> calls[c].invocationId < calls[d].invocationId)
  }

  lemma NumberedMore(calls: seq<Call>, next: nat, c: Call, later: nat)
    requires Numbered(calls, next) && next <= later && c.invocationId < later && (c.invocationId == 0 || c.invocationId >= next)
    ensures Numbered(calls + [c], later)
  {
  }

  lemma NumberedLater(calls: seq<Call>, next: nat, later: nat)
    requires Numbered(calls, next) && next <= later
    ensures Numbered(calls, later)
  {
  }

  // A record's ids name its own call and the call around it.
  lemma IdsNameCalls(calls: seq<Call>, next: nat, r: Record, c: int, d: int)
    requires Numbered(calls, next) && Tree(calls) && Tells(r, calls, c) && 0 <= d < |calls| && calls[d].invocationId != 0
    ensures r.entry.invocationId == calls[d].invocationId ==> d == c
    ensures r.entry.parentInvocationId == calls[d].invocationId ==> d == calls[c].parent
  {
  }

  // Waiting records, in capture order.
  ghost predicate Waiting(queue: seq<Record>, history: seq<Record>, nextSequence: nat) {
    && |queue| <= |history| && queue == history[|history| - |queue|..]
    && (forall i, j :: 0 <= i < j < |history| ==> history[i].sequence < history[j].sequence)
    && (forall i :: 0 <= i < |history| ==> 0 < history[i].sequence < nextSequence)
  }

  lemma WaitingMore(queue: seq<Record>, history: seq<Record>, r: Record)
    requires Waiting(queue, history, r.sequence) && r.sequence > 0
    ensures Waiting(queue + [r], history + [r], r.sequence + 1)
  {
  }

  lemma WaitingLonger(queue: seq<Record>, history: seq<Record>, nextSequence: nat, later: nat)
    requires Waiting(queue, history, nextSequence) && nextSequence <= later
    ensures Waiting(queue, history, later) && Waiting([], history, later)
  {
  }

  class SpawnHook {
    const host: MeasurementHost
    const gameThread: nat
    var stack: seq<Entry>
    var depth: nat
    var queue: seq<Record>
    var ordinal: nat
    var captured: nat
    var faults: nat
    var overflow: nat
    var wrongThread: nat
    ghost var calls: seq<Call>
    ghost var open: seq<int>
    ghost var recorded: seq<int>
    ghost var history: seq<Record>

    // `depth` is the true nesting, the frames and records tell what happened, and
    // records wait in capture order.
    ghost predicate Valid()
      reads this, host
    {
      ValidAt(host.nextSequence, host.nextInvocation)
    }

    // Only the host's next numbers matter, and they only grow.
    lemma ValidLater(next: nat, nextInvocation: nat)
      requires ValidAt(next, nextInvocation) && next <= host.nextSequence && nextInvocation <= host.nextInvocation
      ensures Valid()
    {
      hide Tree, Story, Saved, Waiting, Nested, Numbered;
      WaitingLonger(queue, history, next, host.nextSequence);
      NumberedLater(calls, nextInvocation, host.nextInvocation);
    }

    ghost predicate ValidAt(next: nat, nextInvocation: nat)
      reads this
    {
      && depth == |open| && Saved(calls, open, stack) && Story(calls, open, recorded, history)
      && |queue| <= CAPACITY && captured == |history| && Waiting(queue, history, next)
      && next > 0 && nextInvocation > 0 && Numbered(calls, nextInvocation)
    }

    constructor (host: MeasurementHost, gameThread: nat)
      requires host.nextSequence > 0 && host.nextInvocation > 0
      ensures Valid() && this.host == host && this.gameThread == gameThread && queue == [] && history == [] && depth == 0
      ensures faults == 0 && overflow == 0 && wrongThread == 0
    {
      hide Saved, Story, BlankFrames, Numbered, Waiting;
      NothingYet(BlankFrames());
      NothingNumbered(host.nextSequence, host.nextInvocation);
      this.host, this.gameThread := host, gameThread;
      stack, depth, queue, ordinal, captured := BlankFrames(), 0, [], 0, 0;
      faults, overflow, wrongThread := 0, 0, 0;
      calls, open, recorded, history := [], [], [], [];
    }

    // An initializer is entered on `thread`.
    method Enter(thread: nat, zombie: nat, readable: bool)
      requires Valid()
      modifies this`stack, this`depth, this`faults, this`overflow, this`wrongThread, this`calls, this`open
      modifies host`nextInvocation, host`refused, host`wrongThread, host`overflow
      ensures Valid() && old(calls) <= calls
      ensures thread != gameThread ==> calls == old(calls) && open == old(open)
      ensures thread == gameThread ==> |calls| == |old(calls)| + 1 && open == old(open) + [|old(calls)|] && calls[|old(calls)|].zombie == zombie
      ensures wrongThread == (if thread != gameThread then old(wrongThread) + 1 else old(wrongThread))
      ensures overflow == (if thread == gameThread && |old(open)| >= DEPTH_LIMIT then old(overflow) + 1 else old(overflow))
      ensures faults == (if thread == gameThread && |old(open)| < DEPTH_LIMIT && !readable then old(faults) + 1 else old(faults))
      ensures host.state == State.Open && thread == gameThread ==> host.overflow == old(host.overflow) + (overflow - old(overflow))
      ensures host.state == State.Open && thread != gameThread ==> host.wrongThread == old(host.wrongThread) + 1
    {
      hide Tree, Story, Saved, Waiting, Nested, Numbered;
      if thread != gameThread {
        wrongThread := wrongThread + 1;
        host.OnWrongThread();
        return;
      }
      if depth >= DEPTH_LIMIT {
        overflow := overflow + 1;
        Nest(zombie, readable, 0);
        host.OnOverflow();
      } else {
        ghost var next := host.nextInvocation;
        var id := host.NextInvocationId(thread);
        NumberedLater(calls, next, host.nextInvocation);
        Nest(zombie, readable, id);
        if !readable { faults := faults + 1; }
      }
    }

    // The call goes one level deeper; its frame is saved while one is left.
    method Nest(zombie: nat, readable: bool, id: nat)
      requires Valid() && (id == 0 || (id < host.nextInvocation && Numbered(calls, id)))
      modifies this`stack, this`depth, this`calls, this`open
      ensures Valid() && old(calls) <= calls && |calls| == |old(calls)| + 1
      ensures open == old(open) + [|old(calls)|] && calls[|old(calls)|].zombie == zombie
    {
      hide Tree, Story, Saved, Waiting, Nested, CAPACITY, DEPTH_LIMIT, Above, Numbered;
      StoryParts(calls, open, recorded, history);
      FrameCount(calls, open, stack);
      ghost var parent := if open == [] then -1 else open[|open| - 1];
      EnterKeeps(calls, open, recorded, history, zombie, id);
      EnterSaves(calls, open, stack, zombie, readable, id);
      NumberedMore(calls, if id == 0 then host.nextInvocation else id, Call(parent, |open|, zombie, id), host.nextInvocation);
      if depth < DEPTH_LIMIT {
        stack := stack[depth := Entry(zombie, readable, id, if depth > 0 then stack[depth - 1].invocationId else 0, depth)];
      }
      depth := depth + 1;
      calls, open := calls + [Call(parent, |open|, zombie, id)], open + [|calls|];
    }

    lemma FrameCount(calls: seq<Call>, open: seq<int>, stack: seq<Entry>)
      requires Saved(calls, open, stack)
      ensures |stack| == DEPTH_LIMIT
    {
    }

    predicate Healthy()
      reads this
    {
      faults == 0 && overflow == 0 && wrongThread == 0
    }

    // The initializer of `zombie` leaves. In a well-nested run it is the innermost
    // open call. Only a complete observation becomes a record.
    method Leave(thread: nat, zombie: nat, complete: bool) returns (ghost kept: bool)
      requires Valid()
      modifies this`depth, this`queue, this`ordinal, this`captured, this`faults, this`overflow, this`wrongThread
      modifies this`open, this`recorded, this`history
      modifies host`nextSequence, host`refused, host`wrongThread, host`overflow, host`nestingMismatch, host`incomplete, host`captured
      ensures Valid()
      ensures thread == gameThread && old(open) != [] ==> open == old(open)[..|old(open)| - 1]
      ensures thread != gameThread || old(open) == [] ==> open == old(open) && !kept && !Healthy()
      ensures kept ==> |history| == |old(history)| + 1 && history[..|old(history)|] == old(history)
      ensures kept ==> recorded == old(recorded) + [old(open)[|old(open)| - 1]] && queue == old(queue) + [history[|old(history)|]]
      ensures kept ==> history[|old(history)|].sequence == old(host.nextSequence) && host.state == State.Open && host.captured == old(host.captured) + 1
      ensures !kept ==> history == old(history) && queue == old(queue) && recorded == old(recorded) && host.captured == old(host.captured)
      ensures host.nextSequence >= old(host.nextSequence)
      ensures wrongThread == (if thread != gameThread then old(wrongThread) + 1 else old(wrongThread))
      ensures thread == gameThread && old(open) == [] ==> faults == old(faults) + 1 && overflow == old(overflow)
      ensures thread == gameThread && |old(open)| > DEPTH_LIMIT ==> !kept && faults == old(faults) && overflow == old(overflow)
      ensures thread == gameThread && 0 < |old(open)| <= DEPTH_LIMIT ==>
        (var item := stack[|old(open)| - 1];
         var observed := item.readable && item.zombie == zombie;
         && (kept ==> history[|old(history)|] == Record(item, old(host.nextSequence), old(ordinal)))
         && (kept <==> observed && |old(queue)| < CAPACITY && host.state == State.Open && thread == host.owner && complete)
         && overflow == (if observed && |old(queue)| >= CAPACITY then old(overflow) + 1 else old(overflow))
         && faults == (if kept || (observed && |old(queue)| >= CAPACITY) then old(faults) else old(faults) + 1))
    {
      hide Tree, Story, Saved, Waiting, Nested, Tells, Numbered;
      kept := false;
      if thread != gameThread {
        wrongThread := wrongThread + 1;
        host.OnWrongThread();
        return;
      }
      if depth == 0 {
        faults := faults + 1;
        host.OnNestingMismatch();
        return;
      }
      LeaveKeeps(calls, open, recorded, history);
      LeaveSaves(calls, open, stack);
      ghost var top := open;
      depth, open := depth - 1, open[..|open| - 1];
      if depth >= DEPTH_LIMIT { return; }
      FrameCount(calls, open, stack);
      var item := stack[depth];
      if !item.readable || zombie != item.zombie {
        faults := faults + 1;
        host.OnIncomplete();
        return;
      }
      if |queue| == CAPACITY {
        overflow := overflow + 1;
        host.OnOverflow();
        return;
      }
      kept := RecordExit(thread, item, complete, top);
    }

    method RecordExit(thread: nat, item: Entry, complete: bool, ghost top: seq<int>) returns (kept: bool)
      requires Valid() && |queue| < CAPACITY && 0 < |top| <= DEPTH_LIMIT && open == top[..|top| - 1] && item == stack[|top| - 1]
      requires Saved(calls, top, stack) && Story(calls, top, recorded, history)
      modifies this`queue, this`ordinal, this`captured, this`faults, this`recorded, this`history
      modifies host`nextSequence, host`refused, host`wrongThread, host`incomplete, host`captured
      ensures Valid() && host.nextSequence >= old(host.nextSequence)
      ensures kept ==> |history| == |old(history)| + 1 && history[..|old(history)|] == old(history)
      ensures kept ==> recorded == old(recorded) + [top[|top| - 1]] && queue == old(queue) + [history[|old(history)|]]
      ensures kept ==> history[|old(history)|].sequence == old(host.nextSequence) && host.state == State.Open && host.captured == old(host.captured) + 1
      ensures !kept ==> history == old(history) && queue == old(queue) && recorded == old(recorded) && host.captured == old(host.captured)
      ensures faults == (if kept then old(faults) else old(faults) + 1)
      ensures kept <==> host.state == State.Open && thread == host.owner && complete
      ensures kept ==> history[|old(history)|] == Record(item, old(host.nextSequence), old(ordinal)) && ordinal == old(ordinal) + 1
    {
      hide Tree, Story, Saved, Waiting, Nested, Tells, Numbered;
      ordinal := ordinal + 1;
      var sequence := host.NextSequence(thread);
      WaitingLonger(queue, history, old(host.nextSequence), host.nextSequence);
      if sequence == 0 {
        faults := faults + 1;
        return false;
      }
      if !complete {
        faults := faults + 1;
        host.OnIncomplete();
        return false;
      }
      var record := Record(item, sequence, ordinal - 1);
      StoryParts(calls, top, recorded, history);
      TopTells(calls, top, stack, record);
      RecordKeeps(calls, top, recorded, history, record);
      WaitingMore(queue, history, record);
      queue, captured := queue + [record], captured + 1;
      recorded, history := recorded + [top[|top| - 1]], history + [record];
      host.OnCaptured();
      kept := true;
    }

    // Hands out the waiting records; refused while an initializer runs.
    method Drain() returns (batch: seq<Record>)
      requires Valid() && depth == 0
      modifies this`queue, host`delivered, host`refused
      ensures Valid() && batch == old(queue) && queue == []
      ensures host.delivered == if host.state == State.Open then old(host.delivered) + |batch| else old(host.delivered)
    {
      hide Tree, Story, Saved, Nested, Numbered;
      WaitingLonger(queue, history, host.nextSequence, host.nextSequence);
      batch := queue;
      queue := [];
      host.OnDelivered(|batch|);
    }
  }
}
