// determinism/lifecycle_probes.cpp: the table of code patches and its ownership
// marks, under arbitrary failures to change or restore page protection.
module PatchTables {
  import opened JournalFormat

  // A patched site: where, the displaced instruction, and the handler's address.
  datatype Site = Site(at: nat, original: Bytes, shim: nat)

  function Window(s: Site): nat {
    |s.original|
  }

  // A near jump to the handler, padded to the displaced instruction.
  function Jump(s: Site): (r: Bytes)
    requires 5 <= Window(s)
    ensures |r| == Window(s)
  {
    [0xe9] + LittleEndian((s.shim - (s.at + 5)) % 0x1_0000_0000, 4) + seq(Window(s) - 5, _ => 0x90)
  }

  // The jump leads to the handler: its displacement counts from its own end.
  lemma JumpLands(s: Site)
    requires 5 <= Window(s)
    ensures Jump(s)[0] == 0xe9
    ensures (s.at + 5 + FromLittleEndian(Jump(s)[1..5])) % 0x1_0000_0000 == s.shim % 0x1_0000_0000
  {
    hide LittleEndian, FromLittleEndian, Pow256;
    var displacement := (s.shim - (s.at + 5)) % 0x1_0000_0000;
    Pow256Values();
    LittleEndianRoundTrip(displacement, 4);
    assert Jump(s)[1..5] == LittleEndian(displacement, 4);
  }

  predicate Covers(s: Site, a: nat) {
    s.at <= a < s.at + Window(s)
  }

  // Sites lie in the code and do not overlap.
  predicate Disjoint(sites: seq<Site>, size: nat) {
    && (forall i :: 0 <= i < |sites| ==> 5 <= Window(sites[i]) && sites[i].at + Window(sites[i]) <= size)
    && (forall i, j :: 0 <= i < j < |sites| ==> sites[i].at + Window(sites[i]) <= sites[j].at || sites[j].at + Window(sites[j]) <= sites[i].at)
  }

  // Every byte of the code: jumps in owned windows, the original everywhere else.
  ghost predicate Truthful(sites: seq<Site>, code: Bytes, initial: Bytes, owned: seq<bool>)
    requires Disjoint(sites, |initial|)
  {
    && |code| == |initial| && |owned| == |sites|
    && (forall i :: 0 <= i < |sites| && owned[i] ==> Holds(code, sites[i], Jump(sites[i])) && Holds(initial, sites[i], sites[i].original))
    && (forall a :: 0 <= a < |code| && (forall i :: 0 <= i < |sites| && owned[i] ==> !Covers(sites[i], a)) ==> code[a] == initial[a])
  }

  predicate Holds(code: Bytes, s: Site, bytes: Bytes)
    requires s.at + Window(s) <= |code|
  {
    code[s.at..s.at + Window(s)] == bytes
  }

  function Written(code: Bytes, at: nat, bytes: Bytes): (r: Bytes)
    requires at + |bytes| <= |code|
    ensures |r| == |code|
  {
    code[..at] + bytes + code[at + |bytes|..]
  }

  // Patching a clear site that holds its displaced instruction.
  lemma PatchKeeps(sites: seq<Site>, code: Bytes, initial: Bytes, owned: seq<bool>, i: nat)
    requires Disjoint(sites, |initial|) && Truthful(sites, code, initial, owned) && i < |sites| && !owned[i]
    requires Holds(code, sites[i], sites[i].original)
    ensures Truthful(sites, Written(code, sites[i].at, Jump(sites[i])), initial, owned[i := true])
  {
    hide Jump;
    var after, now := Written(code, sites[i].at, Jump(sites[i])), owned[i := true];
    ClearIsInitial(sites, code, initial, owned, i);
    forall j | 0 <= j < |sites| && now[j]
      ensures Holds(after, sites[j], Jump(sites[j])) && Holds(initial, sites[j], sites[j].original)
    {
      if j == i { WrittenHere(code, sites[i].at, Jump(sites[i])); } else { WrittenElsewhere(sites, code, initial, i, j, Jump(sites[i])); }
    }
    forall a | 0 <= a < |after| && forall j :: 0 <= j < |sites| && now[j] ==> !Covers(sites[j], a)
      ensures after[a] == initial[a]
    {
      assert now[i] && !Covers(sites[i], a);
    }
  }

  lemma WrittenHere(code: Bytes, at: nat, bytes: Bytes)
    requires at + |bytes| <= |code|
    ensures Written(code, at, bytes)[at..at + |bytes|] == bytes
  {
  }

  lemma WrittenElsewhere(sites: seq<Site>, code: Bytes, initial: Bytes, i: nat, j: nat, bytes: Bytes)
    requires |code| == |initial| && Disjoint(sites, |initial|) && i < |sites| && j < |sites| && i != j && |bytes| == Window(sites[i])
    ensures var after := Written(code, sites[i].at, bytes);
      after[sites[j].at..sites[j].at + Window(sites[j])] == code[sites[j].at..sites[j].at + Window(sites[j])]
  {
    assert i < j || j < i;
  }

  // A clear site's window still holds what it held before any patch.
  lemma ClearIsInitial(sites: seq<Site>, code: Bytes, initial: Bytes, owned: seq<bool>, i: nat)
    requires Disjoint(sites, |initial|) && Truthful(sites, code, initial, owned) && i < |sites| && !owned[i]
    ensures code[sites[i].at..sites[i].at + Window(sites[i])] == initial[sites[i].at..sites[i].at + Window(sites[i])]
  {
    hide Jump;
    forall a | sites[i].at <= a < sites[i].at + Window(sites[i])
      ensures code[a] == initial[a]
    {
      forall j | 0 <= j < |sites| && owned[j]
        ensures !Covers(sites[j], a)
      {
        assert i < j || j < i;
      }
    }
  }

  // Writing the displaced instruction back.
  lemma RestoreKeeps(sites: seq<Site>, code: Bytes, initial: Bytes, owned: seq<bool>, i: nat)
    requires Disjoint(sites, |initial|) && Truthful(sites, code, initial, owned) && i < |sites| && owned[i]
    ensures Truthful(sites, Written(code, sites[i].at, sites[i].original), initial, owned[i := false])
  {
    hide Jump;
    var after, now := Written(code, sites[i].at, sites[i].original), owned[i := false];
    forall j | 0 <= j < |sites| && now[j]
      ensures Holds(after, sites[j], Jump(sites[j])) && Holds(initial, sites[j], sites[j].original)
    {
      WrittenElsewhere(sites, code, initial, i, j, sites[i].original);
    }
    forall a | 0 <= a < |after| && forall j :: 0 <= j < |sites| && now[j] ==> !Covers(sites[j], a)
      ensures after[a] == initial[a]
    {
      if Covers(sites[i], a) {
        assert after[a] == sites[i].original[a - sites[i].at];
        assert initial[a] == initial[sites[i].at..sites[i].at + Window(sites[i])][a - sites[i].at];
      } else {
        assert forall j :: 0 <= j < |sites| && owned[j] ==> now[j] || j == i;
      }
    }
  }

  // Truthful marks say everything about the code.
  lemma AllClearIsOriginal(sites: seq<Site>, code: Bytes, initial: Bytes, owned: seq<bool>)
    requires Disjoint(sites, |initial|) && Truthful(sites, code, initial, owned)
    requires forall i :: 0 <= i < |owned| ==> !owned[i]
    ensures code == initial
  {
  }

  class PatchTable {
    const sites: seq<Site>
    const code: array<Byte>
    var owned: seq<bool>
    var readerProtected: bool
    var captureActive: bool
    var faults: nat
    ghost const initial: Bytes

    ghost predicate Valid()
      reads this, code
    {
      Disjoint(sites, |initial|) && Truthful(sites, code[..], initial, owned)
    }

    constructor (sites: seq<Site>, code: array<Byte>)
      requires Disjoint(sites, code.Length)
      ensures Valid() && this.sites == sites && this.code == code && initial == code[..]
      ensures forall i :: 0 <= i < |owned| ==> !owned[i]
      ensures !readerProtected && !captureActive && faults == 0
    {
      this.sites, this.code, this.initial := sites, code, code[..];
      owned, readerProtected, captureActive, faults := seq(|sites|, _ => false), false, false, 0;
    }

    predicate Installed()
      reads this
    {
      exists i :: 0 <= i < |owned| && owned[i]
    }

    // In fair weather no change of the page protection fails.
    method Matches(at: nat, bytes: Bytes, fair: bool) returns (r: bool)
      requires at + |bytes| <= code.Length
      ensures r ==> code[at..at + |bytes|] == bytes
      ensures fair ==> (r <==> code[at..at + |bytes|] == bytes)
    {
      var readable: bool := *;
      r := (fair || readable) && code[at..at + |bytes|] == bytes;
    }

    method Overwrite(at: nat, bytes: Bytes)
      requires at + |bytes| <= code.Length
      modifies code
      ensures code[..] == Written(old(code[..]), at, bytes)
    {
      forall k | 0 <= k < |bytes| { code[at + k] := bytes[k]; }
    }

    // Writes the jump when the site is clear, untouched and writable. A failure to
    // restore the protection leaves the site owned.
    method ApplyPatch(i: nat, fair: bool) returns (ok: bool)
      requires Valid() && i < |sites|
      modifies this`owned, this`faults, code
      ensures Valid() && |owned| == |old(owned)| && forall j :: 0 <= j < |owned| && j != i ==> owned[j] == old(owned[j])
      ensures ok ==> owned[i] && !old(owned[i])
      ensures old(owned[i]) ==> owned[i]
      ensures fair && !old(owned[i]) ==> (ok <==> Holds(initial, sites[i], sites[i].original))
      ensures faults == (if owned[i] && !old(owned[i]) && !ok then old(faults) + 1 else old(faults))
    {
      hide Truthful, Jump;
      OwnedHasSites();
      if owned[i] { return false; }
      ClearReadsOriginal(i);
      ok := Matches(sites[i].at, sites[i].original, fair);
      if !ok { return; }
      var writable: bool := *;
      if !fair && !writable { return false; }
      PatchKeeps(sites, code[..], initial, owned, i);
      Overwrite(sites[i].at, Jump(sites[i]));
      owned := owned[i := true];
      var protected: bool := *;
      ok := fair || protected;
      if !ok { faults := faults + 1; }
    }

    // Writes the displaced instruction back over our own jump only.
    method RestorePatch(i: nat, fair: bool) returns (ok: bool)
      requires Valid() && i < |sites|
      modifies this`owned, this`faults, code
      ensures Valid() && |owned| == |old(owned)| && forall j :: 0 <= j < |owned| && j != i ==> owned[j] == old(owned[j])
      ensures ok ==> !owned[i]
      ensures !old(owned[i]) ==> ok && !owned[i]
      ensures fair ==> ok
      ensures old(faults) <= faults <= old(faults) + 1 && (ok ==> faults == old(faults)) && (!ok ==> owned[i] || faults > old(faults))
    {
      hide Truthful, Jump;
      OwnedHasSites();
      if !owned[i] { return true; }
      OwnedReadsJump(i);
      ok := Matches(sites[i].at, Jump(sites[i]), fair);
      if !ok { return; }
      var writable: bool := *;
      if !fair && !writable { faults := faults + 1; return false; }
      RestoreKeeps(sites, code[..], initial, owned, i);
      Overwrite(sites[i].at, sites[i].original);
      owned := owned[i := false];
      var protected: bool := *;
      ok := fair || protected;
      if !ok { faults := faults + 1; }
    }

    lemma ClearReadsOriginal(i: nat)
      requires Valid() && i < |sites| && !owned[i] && sites[i].at + |sites[i].original| <= code.Length
      ensures Holds(initial, sites[i], sites[i].original) <==> code[sites[i].at..sites[i].at + |sites[i].original|] == sites[i].original
    {
      ClearIsInitial(sites, code[..], initial, owned, i);
      hide Truthful;
      assert code[..][sites[i].at..sites[i].at + |sites[i].original|] == code[sites[i].at..sites[i].at + |sites[i].original|];
    }

    lemma OwnedReadsJump(i: nat)
      requires Valid() && i < |sites| && owned[i]
      ensures sites[i].at + |Jump(sites[i])| <= code.Length && code[sites[i].at..sites[i].at + |Jump(sites[i])|] == Jump(sites[i])
    {
    }

    lemma OwnedHasSites()
      requires Valid()
      ensures |owned| == |sites| && code.Length == |initial|
    {
    }

    // Restores sites `from - 1` down to 0; the first failure is remembered, the
    // rest is still tried.
    method RestoreDown(from: nat, fair: bool) returns (ok: bool)
      requires Valid() && from <= |sites|
      modifies this`owned, this`faults, code
      ensures Valid() && |owned| == |old(owned)|
      ensures forall j :: from <= j < |owned| ==> owned[j] == old(owned[j])
      ensures ok ==> forall j :: 0 <= j < from ==> !owned[j]
      ensures (fair ==> ok) && (ok ==> faults == old(faults)) && old(faults) <= faults
      ensures !ok ==> faults > old(faults) || exists j :: 0 <= j < from && owned[j]
    {
      hide Truthful, Jump;
      OwnedHasSites();
      ok := true;
      var i := from;
      while i > 0
        invariant Valid() && 0 <= i <= from && |owned| == |old(owned)|
        invariant forall j :: from <= j < |owned| ==> owned[j] == old(owned[j])
        invariant ok ==> forall j :: i <= j < from ==> !owned[j]
        invariant (fair ==> ok) && (ok ==> faults == old(faults)) && old(faults) <= faults
        invariant !ok ==> faults > old(faults) || exists j :: i <= j < from && owned[j]
      {
        i := i - 1;
        var restored := RestorePatch(i, fair);
        ok := ok && restored;
      }
    }

    // All sites or none: a failed installation rolls back what it applied. It is
    // stuck when a site cannot be rolled back, which then stays marked.
    method Install(bound: bool, protects: bool, fair: bool) returns (ok: bool, stuck: bool)
      requires Valid()
      modifies this`owned, this`faults, this`readerProtected, this`captureActive, code
      ensures Valid()
      ensures ok ==> forall i :: 0 <= i < |sites| ==> owned[i]
      ensures ok ==> bound && protects && captureActive && readerProtected
      ensures old(Installed()) ==> !ok && owned == old(owned) && code[..] == old(code[..])
      ensures !ok && !stuck && !old(Installed()) ==> !Installed() && code[..] == initial
      ensures old(Installed()) || !bound || !protects ==> !ok && !stuck && readerProtected == old(readerProtected) && faults == old(faults)
      ensures !ok ==> captureActive == old(captureActive)
      ensures stuck ==> Installed() || readerProtected || faults > 0
      ensures !old(Installed()) && bound && protects && !ok && !stuck ==> !readerProtected
      ensures fair && !old(Installed()) && bound && protects ==> (ok <==> forall i :: 0 <= i < |sites| ==> Holds(initial, sites[i], sites[i].original))
    {
      hide Truthful, Jump;
      OwnedHasSites();
      stuck := false;
      if Installed() || !bound || !protects {
        if !Installed() { AllClearIsOriginal(sites, code[..], initial, owned); }
        return false, false;
      }
      readerProtected, faults := true, 0;
      for i := 0 to |sites|
        invariant Valid() && |owned| == |sites| && readerProtected && !stuck && captureActive == old(captureActive)
        invariant fair ==> forall j :: 0 <= j < i ==> Holds(initial, sites[j], sites[j].original)
        invariant forall j :: 0 <= j < i ==> owned[j]
        invariant forall j :: i <= j < |owned| ==> !owned[j]
      {
        ok := ApplyPatch(i, fair);
        if !ok {
          var rolledBack := RestoreDown(i + 1, fair);
          var released: bool := *;
          if released { readerProtected := false; }
          OwnedHasSites();
          if rolledBack { AllClearIsOriginal(sites, code[..], initial, owned); }
          return false, !rolledBack || !released;
        }
      }
      captureActive := true;
      ok := true;
    }

    // Refuses off the game thread, while a recycle candidate or a callback is open,
    // and when an owned site does not read as our jump; a refusal touches nothing.
    method Remove(onOwner: bool, candidateOpen: bool, inFlight: bool, fair: bool) returns (ok: bool, refused: bool)
      requires Valid()
      modifies this`owned, this`faults, this`readerProtected, this`captureActive, code
      ensures Valid()
      ensures ok ==> code[..] == initial && !Installed() && !refused
      ensures old(Installed() || readerProtected) && (!onOwner || candidateOpen || inFlight) ==> refused
      ensures refused ==> !ok && owned == old(owned) && code[..] == old(code[..])
      ensures refused ==> captureActive == old(captureActive) && readerProtected == old(readerProtected) && faults == old(faults)
      ensures !ok && !refused ==> !captureActive && readerProtected == old(readerProtected)
      ensures ok ==> !readerProtected && (old(Installed() || readerProtected) ==> !captureActive)
      ensures fair && onOwner && !candidateOpen && !inFlight ==> ok
    {
      hide Truthful, Jump;
      OwnedHasSites();
      refused := false;
      if !Installed() && !readerProtected {
        AllClearIsOriginal(sites, code[..], initial, owned);
        return true, false;
      }
      if !onOwner || candidateOpen || inFlight { return false, true; }
      for i := 0 to |sites|
        invariant Valid() && |owned| == |sites|
        modifies {}
      {
        if owned[i] {
          OwnedReadsJump(i);
          ok := Matches(sites[i].at, Jump(sites[i]), fair);
          if !ok { return false, true; }
        }
      }
      captureActive := false;
      ok := RestoreDown(|sites|, fair);
      if !ok { return; }
      OwnedHasSites();
      AllClearIsOriginal(sites, code[..], initial, owned);
      var released: bool := *;
      ok := fair || released;
      if ok { readerProtected := false; }
    }
  }

  // ---- the real table -----------------------------------------------------------------

  // The eight sites of the engine, as offsets from its image base.
  const IMAGE_BASE: nat := 0x400000
  const IMAGE_END: nat := 0x75e000

  function RealSites(shims: seq<nat>): seq<Site>
    requires |shims| == 8
  {
    [Site(0x533377 - IMAGE_BASE, [0xc7, 0x47, 0x28, 0x01, 0x00, 0x00, 0x00], shims[0]),
     Site(0x532f5f - IMAGE_BASE, [0xc7, 0x46, 0x28, 0x02, 0x00, 0x00, 0x00], shims[1]),
     Site(0x532a62 - IMAGE_BASE, [0xc7, 0x47, 0x28, 0x03, 0x00, 0x00, 0x00], shims[2]),
     Site(0x52ec92 - IMAGE_BASE, [0xc7, 0x47, 0x28, 0x01, 0x00, 0x00, 0x00], shims[3]),
     Site(0x52ea38 - IMAGE_BASE, [0x89, 0x5f, 0x28, 0xd9, 0x47, 0x2c], shims[4]),
     Site(0x530602 - IMAGE_BASE, [0xc6, 0x87, 0xec, 0x00, 0x00, 0x00, 0x01], shims[5]),
     Site(0x41bba9 - IMAGE_BASE, [0x38, 0x9f, 0xec, 0x00, 0x00, 0x00], shims[6]),
     Site(0x41bc23 - IMAGE_BASE, [0xe9, 0x30, 0xff, 0xff, 0xff], shims[7])]
  }

  // The real windows are disjoint, so the marks of the real table are truthful.
  lemma RealSitesAreDisjoint(shims: seq<nat>)
    requires |shims| == 8
    ensures Disjoint(RealSites(shims), IMAGE_END - IMAGE_BASE)
  {
    var s := RealSites(shims);
    assert |s| == 8;
    assert forall i :: 0 <= i < 8 ==> 5 <= Window(s[i]) <= 7;
  }
}
