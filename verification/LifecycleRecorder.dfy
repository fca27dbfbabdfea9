// determinism/lifecycle_record.cpp: the evidence file of one session. Lines are
// appended in capture order; a receipt is written only after a clean close.
module LifecycleRecorders {
  import Spawn = SpawnHooks
  import Probe = LifecycleProbes

  datatype Event = Initialized(spawn: Spawn.Record) | Probed(probe: Probe.Record)

  function SequenceOf(e: Event): nat {
    if e.Initialized? then e.spawn.sequence else e.probe.sequence
  }

  // Strictly increasing capture sequences, so no event occurs twice.
  ghost predicate Ascending(events: seq<Event>) {
    && (forall i :: 0 <= i < |events| ==> SequenceOf(events[i]) > 0)
    && (forall i, j :: 0 <= i < j < |events| ==> SequenceOf(events[i]) < SequenceOf(events[j]))
  }

  // The next line may only be newer than the last.
  predicate Follows(lines: seq<Event>, e: Event) {
    SequenceOf(e) > 0 && (lines == [] || SequenceOf(lines[|lines| - 1]) < SequenceOf(e))
  }

  // The lines that come from the initializer hook.
  function Initializations(events: seq<Event>): nat {
    if events == [] then 0
    else Initializations(events[..|events| - 1]) + if events[|events| - 1].Initialized? then 1 else 0
  }

  datatype Receipt = Receipt(records: nat, first: nat, last: nat, initializations: nat, probes: nat)

  datatype Outcome = Succeeded | Threw

  class LifecycleRecorder {
    var begun: bool
    var finished: bool
    var streamOk: bool
    var count: nat
    var firstSequence: nat
    var lastSequence: nat
    var initializations: nat
    var probes: nat
    // What is on disk.
    var lines: seq<Event>
    var receipt: Probe.Option<Receipt>

    // While the stream is sound its counters describe the file.
    ghost predicate Valid()
      reads this
    {
      && Ascending(lines) && (receipt.Some? ==> Certifies(receipt.value, lines)) && (Opened() ==> receipt.None?)
      && (begun ==> |lines| == count && (count > 0 ==> lastSequence == SequenceOf(lines[count - 1])))
      && (begun && streamOk ==> Certifies(Receipt(count, firstSequence, lastSequence, initializations, probes), lines))
    }

    predicate Opened()
      reads this
    {
      begun && !finished
    }

    constructor ()
      ensures Valid() && !begun && !finished && !streamOk && lines == [] && receipt.None?
      ensures count == firstSequence == lastSequence == initializations == probes == 0
    {
      begun, finished, streamOk, count, firstSequence, lastSequence := false, false, false, 0, 0, 0;
      initializations, probes, lines, receipt := 0, 0, [], Probe.Option.None;
    }

    // A new file in a directory whose receipt file is missing or empty: the audit
    // checked that before it opened the recorder.
    method Open(identityOk: bool, created: bool) returns (r: Outcome)
      requires Valid()
      modifies this
      ensures Valid()
      ensures r.Succeeded? <==> !old(begun) && !old(finished) && identityOk && created
      ensures r.Succeeded? ==> Opened() && streamOk && lines == [] && receipt.None?
      ensures r.Threw? ==> Opened() == old(Opened()) && lines == old(lines) && receipt == old(receipt)
    {
      hide Ascending, Certifies, SequenceOf;
      NothingWritten();
      if begun || finished || !identityOk || !created { return Threw; }
      lines, receipt := [], Probe.Option.None;
      count, firstSequence, lastSequence, initializations, probes := 0, 0, 0, 0, 0;
      begun, streamOk := true, true;
      r := Succeeded;
    }

    // Appends one event, unless its sequence does not exceed the last one's or the
    // stream fails.
    method Write(e: Event, accepted: bool) returns (r: Outcome)
      requires Valid()
      modifies this`streamOk, this`count, this`firstSequence, this`lastSequence, this`initializations, this`probes, this`lines
      ensures Valid() && receipt == old(receipt)
      ensures r.Succeeded? <==> Opened() && Follows(old(lines), e) && old(streamOk) && accepted
      ensures r.Succeeded? ==> lines == old(lines) + [e] && streamOk
      ensures r.Threw? ==> lines == old(lines) && streamOk == (old(streamOk) && !(Opened() && Follows(lines, e)))
    {
      hide Ascending, Certifies, SequenceOf, Initializations;
      if !Opened() || SequenceOf(e) == 0 || (count > 0 && SequenceOf(e) <= lastSequence) { return Threw; }
      if e.Initialized? { initializations := initializations + 1; } else { probes := probes + 1; }
      streamOk := streamOk && accepted;
      if !streamOk { return Threw; }
      LineMore(lines, e, Receipt(count, firstSequence, lastSequence, old(initializations), old(probes)));
      lines := lines + [e];
      if count == 0 { firstSequence := SequenceOf(e); }
      lastSequence, count := SequenceOf(e), count + 1;
      r := Succeeded;
    }

    // Closes the file; only a complete session whose stream never failed gets a
    // receipt, and only after the close.
    method Finish(complete: bool, closed: bool, receiptWritten: bool) returns (r: Outcome)
      requires Valid()
      modifies this`begun, this`finished, this`receipt
      ensures Valid() && lines == old(lines)
      ensures r.Succeeded? <==> old(Opened()) && streamOk && closed && (complete ==> receiptWritten)
      ensures receipt != old(receipt) ==> complete && r.Succeeded? && receipt.Some?
      ensures complete && r.Succeeded? ==> receipt.Some?
      ensures if old(Opened()) && streamOk && closed then !begun && finished else begun == old(begun) && finished == old(finished)
    {
      if !Opened() || !streamOk || !closed { return Threw; }
      begun, finished := false, true;
      if !complete { return Succeeded; }
      if !receiptWritten { return Threw; }
      receipt := Probe.Option.Some(Receipt(count, firstSequence, lastSequence, initializations, probes));
      r := Succeeded;
    }

    // Releases the recorder; what is on disk stays.
    method Abandon()
      requires Valid()
      modifies this
      ensures Valid() && !begun && !finished && lines == old(lines) && receipt == old(receipt)
      ensures count == firstSequence == lastSequence == initializations == probes == 0
    {
      begun, finished, count, initializations, probes, firstSequence, lastSequence := false, false, 0, 0, 0, 0, 0;
    }
  }

  // A receipt that describes exactly these lines.
  ghost predicate Certifies(r: Receipt, lines: seq<Event>) {
    && r.records == |lines| && r.initializations == Initializations(lines) && r.initializations + r.probes == r.records
    && (lines != [] ==> r.first == SequenceOf(lines[0]) && r.last == SequenceOf(lines[|lines| - 1]))
  }

  lemma NothingWritten()
    ensures Ascending([]) && Certifies(Receipt(0, 0, 0, 0, 0), [])
  {
  }

  lemma LineMore(lines: seq<Event>, e: Event, r: Receipt)
    requires Ascending(lines) && Certifies(r, lines) && Follows(lines, e)
    ensures Ascending(lines + [e])
    ensures Certifies(Receipt(r.records + 1, if lines == [] then SequenceOf(e) else r.first, SequenceOf(e),
      if e.Initialized? then r.initializations + 1 else r.initializations,
      if e.Initialized? then r.probes else r.probes + 1), lines + [e])
  {
    hide SequenceOf;
    assert (lines + [e])[..|lines|] == lines;
  }
}
