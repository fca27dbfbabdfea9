// tools/giant_fork_diff.py: the MT19937 generator's work on the bits of a word.
module MersenneWords {
  type Word = bv32

  const MATRIX_A: Word := 0x9908B0DF
  const UPPER_MASK: Word := 0x80000000
  const LOWER_MASK: Word := 0x7FFFFFFF

  // One step of the recurrence, from x(k), x(k+1) and x(k+m).
  function Mix(upper: Word, lower: Word, middle: Word): Word {
    var y := Join(upper, lower);
    middle ^ (y >> 1) ^ (if y & 1 != 0 then MATRIX_A else 0)
  }

  function Join(upper: Word, lower: Word): Word {
    (upper & UPPER_MASK) | (lower & LOWER_MASK)
  }

  // Which bits of which word a step takes: the top bit of one word and the other
  // 31 of the next, and the matrix exactly when the lowest bit of the next is set.
  lemma MixBits(upper: Word, lower: Word, middle: Word)
    ensures Join(upper, lower) >> 31 == upper >> 31 && Join(upper, lower) & 0x7FFFFFFF == lower & 0x7FFFFFFF
    ensures lower & 1 != 0 ==> Mix(upper, lower, middle) == middle ^ (Join(upper, lower) >> 1) ^ 0x9908B0DF
    ensures lower & 1 == 0 ==> Mix(upper, lower, middle) == middle ^ (Join(upper, lower) >> 1)
  {
    JoinBits(upper, lower);
    hide Join;
  }

  lemma JoinBits(upper: Word, lower: Word)
    ensures Join(upper, lower) >> 31 == upper >> 31 && Join(upper, lower) & 0x7FFFFFFF == lower & 0x7FFFFFFF
    ensures Join(upper, lower) & 1 == lower & 1
  {
  }

  function Temper(x: Word): Word {
    var a := Xor(x, Down11(x));
    var b := Xor(a, Up7(a));
    var c := Xor(b, Up15(b));
    Xor(c, Down18(c))
  }

  function Xor(x: Word, y: Word): Word { x ^ y }

  function Down11(x: Word): Word { x >> 11 }

  function Up7(x: Word): Word { (x << 7) & 0x9D2C5680 }

  function Up15(x: Word): Word { (x << 15) & 0xEFC60000 }

  function Down18(x: Word): Word { x >> 18 }

  // Tempering is linear over exclusive or ...
  lemma TemperIsLinear(x: Word, y: Word)
    ensures Temper(x ^ y) == Temper(x) ^ Temper(y)
  {
    hide Xor, Down11, Up7, Up15, Down18;
    var a, a' := Xor(x, Down11(x)), Xor(y, Down11(y));
    var b, b' := Xor(a, Up7(a)), Xor(a', Up7(a'));
    var c, c' := Xor(b, Up15(b)), Xor(b', Up15(b'));
    Down11IsLinear(x, y);
    Swap(x, y, Down11(x), Down11(y));
    Up7IsLinear(a, a');
    Swap(a, a', Up7(a), Up7(a'));
    Up15IsLinear(b, b');
    Swap(b, b', Up15(b), Up15(b'));
    Down18IsLinear(c, c');
    Swap(c, c', Down18(c), Down18(c'));
    XorIs(x, y);
    XorIs(Temper(x), Temper(y));
  }

  // ... and takes the words with a single bit set to these, which determines it for
  // every word.
  lemma TemperedBits()
    ensures Temper(0x1) == 0x400091 && Temper(0x2) == 0x2 && Temper(0x4) == 0x1020244 && Temper(0x8) == 0x2040489
    ensures Temper(0x10) == 0x10 && Temper(0x20) == 0x8001220 && Temper(0x40) == 0x40 && Temper(0x80) == 0x20404890
    ensures Temper(0x100) == 0x800120 && Temper(0x200) == 0x1000240 && Temper(0x400) == 0x2000480 && Temper(0x800) == 0x4440990
    ensures Temper(0x1000) == 0x8081200 && Temper(0x2000) == 0x1022244 && Temper(0x4000) == 0x22244C81 && Temper(0x8000) == 0x40009010
    ensures Temper(0x10000) == 0x88013220 && Temper(0x20000) == 0x1020000 && Temper(0x40000) == 0x20444891 && Temper(0x80000) == 0x4880022
    ensures Temper(0x100000) == 0x9100044 && Temper(0x200000) == 0x12200088 && Temper(0x400000) == 0x4440911 && Temper(0x800000) == 0x8881222
    ensures Temper(0x1000000) == 0x81000040 && Temper(0x2000000) == 0x22204888 && Temper(0x4000000) == 0x44009100 && Temper(0x8000000) == 0x88012200
    ensures Temper(0x10000000) == 0x11020440 && Temper(0x20000000) == 0x20040801 && Temper(0x40000000) == 0x44081102 && Temper(0x80000000) == 0x88102204
  {
  }

  lemma XorIs(x: Word, y: Word)
    ensures Xor(x, y) == x ^ y
  {
  }

  lemma Swap(a: Word, b: Word, c: Word, d: Word)
    ensures Xor(Xor(a, b), Xor(c, d)) == Xor(Xor(a, c), Xor(b, d))
  {
    hide *;
    Associates(a, b, Xor(c, d));
    Associates(b, c, d);
    Commutes(b, c);
    Associates(c, b, d);
    Associates(a, c, Xor(b, d));
  }

  lemma Associates(a: Word, b: Word, c: Word)
    ensures Xor(Xor(a, b), c) == Xor(a, Xor(b, c))
  {
    hide *;
    XorIs(a, b);
    XorIs(b, c);
    XorIs(a ^ b, c);
    XorIs(a, b ^ c);
  }

  lemma Commutes(a: Word, b: Word)
    ensures Xor(a, b) == Xor(b, a)
  {
    hide *;
    XorIs(a, b);
    XorIs(b, a);
  }

  lemma Down11Is(x: Word)
    ensures Down11(x) == x >> 11
  {
  }

  lemma Down11IsLinear(x: Word, y: Word)
    ensures Down11(Xor(x, y)) == Xor(Down11(x), Down11(y))
  {
    hide *;
    XorIs(x, y);
    Down11Is(x);
    Down11Is(y);
    Down11Is(x ^ y);
    XorIs(x >> 11, y >> 11);
    assert (x ^ y) >> 11 == (x >> 11) ^ (y >> 11);
  }

  lemma Up7Is(x: Word)
    ensures Up7(x) == (x << 7) & 0x9D2C5680
  {
  }

  lemma Up7IsLinear(x: Word, y: Word)
    ensures Up7(Xor(x, y)) == Xor(Up7(x), Up7(y))
  {
    hide *;
    XorIs(x, y);
    Up7Is(x);
    Up7Is(y);
    Up7Is(x ^ y);
    XorIs((x << 7) & 0x9D2C5680, (y << 7) & 0x9D2C5680);
    assert ((x ^ y) << 7) & 0x9D2C5680 == ((x << 7) & 0x9D2C5680) ^ ((y << 7) & 0x9D2C5680);
  }

  lemma Up15Is(x: Word)
    ensures Up15(x) == (x << 15) & 0xEFC60000
  {
  }

  lemma Up15IsLinear(x: Word, y: Word)
    ensures Up15(Xor(x, y)) == Xor(Up15(x), Up15(y))
  {
    hide *;
    XorIs(x, y);
    Up15Is(x);
    Up15Is(y);
    Up15Is(x ^ y);
    XorIs((x << 15) & 0xEFC60000, (y << 15) & 0xEFC60000);
    assert ((x ^ y) << 15) & 0xEFC60000 == ((x << 15) & 0xEFC60000) ^ ((y << 15) & 0xEFC60000);
  }

  lemma Down18Is(x: Word)
    ensures Down18(x) == x >> 18
  {
  }

  lemma Down18IsLinear(x: Word, y: Word)
    ensures Down18(Xor(x, y)) == Xor(Down18(x), Down18(y))
  {
    hide *;
    XorIs(x, y);
    Down18Is(x);
    Down18Is(y);
    Down18Is(x ^ y);
    XorIs(x >> 18, y >> 18);
    assert (x ^ y) >> 18 == (x >> 18) ^ (y >> 18);
  }
}

// tools/giant_fork_diff.py: the engine's MT19937 generator, reloaded in place.
// The recurrence is that of [rand.eng.mers], section 29.6.3.2 of ISO/IEC 14882:2017.
module MersenneTwister {
  import opened MersenneWords

  const MT_N: nat := 624
  const MT_M: nat := 397

  // The infinite sequence that continues the given n words.
  function X(words: seq<Word>, k: nat): Word
    requires |words| == MT_N
  {
    if k < MT_N then words[k] else Mix(X(words, k - MT_N), X(words, k - MT_N + 1), X(words, k - MT_N + MT_M))
  }

  // The sequence starts with the given words, and every later term comes from those
  // 624, 623 and 227 places before it.
  lemma Recurrence(words: seq<Word>, k: nat)
    requires |words| == MT_N
    ensures X(words, k) == if k < 624 then words[k] else Mix(X(words, k - 624), X(words, k - 623), X(words, k - 227))
  {
    hide Mix;
  }

  // The next n terms of the sequence.
  function Block(words: seq<Word>): (r: seq<Word>)
    requires |words| == MT_N
    ensures |r| == MT_N
  {
    seq(MT_N, i requires 0 <= i < MT_N => X(words, MT_N + i))
  }

  // The sequence of a block is the old sequence, n terms on.
  lemma {:induction false} BlockContinues(words: seq<Word>, k: nat)
    requires |words| == MT_N
    ensures X(Block(words), k) == X(words, MT_N + k)
  {
    hide Mix;
    if k >= MT_N {
      BlockContinues(words, k - MT_N);
      BlockContinues(words, k - MT_N + 1);
      BlockContinues(words, k - MT_N + MT_M);
    }
  }

  // The first kk words are already n terms on.
  ghost predicate Halfway(state: seq<Word>, words: seq<Word>, kk: nat) {
    && |state| == |words| == MT_N
    && (forall j :: 0 <= j < MT_N && j < kk ==> state[j] == X(words, MT_N + j))
    && (forall j :: 0 <= j < MT_N && kk <= j ==> state[j] == X(words, j))
  }

  lemma HalfwayStarts(words: seq<Word>)
    requires |words| == MT_N
    ensures Halfway(words, words, 0)
  {
  }

  lemma HalfwayEnds(state: seq<Word>, words: seq<Word>)
    requires Halfway(state, words, MT_N)
    ensures state == Block(words)
  {
    hide X;
  }

  // The word to replace and its neighbours, whichever of them moved on already.
  lemma HalfwayStep(state: seq<Word>, words: seq<Word>, kk: nat)
    requires Halfway(state, words, kk) && kk < MT_N
    ensures var lower := state[if kk + 1 < MT_N then kk + 1 else 0];
      var middle := state[if kk < MT_N - MT_M then kk + MT_M else kk + MT_M - MT_N];
      Halfway(state[kk := Mix(state[kk], lower, middle)], words, kk + 1)
  {
    hide Mix;
    var lower := state[if kk + 1 < MT_N then kk + 1 else 0];
    var middle := state[if kk < MT_N - MT_M then kk + MT_M else kk + MT_M - MT_N];
    assert X(words, MT_N + kk) == Mix(X(words, kk), X(words, kk + 1), X(words, kk + MT_M));
    assert lower == X(words, kk + 1) && middle == X(words, kk + MT_M) && state[kk] == X(words, kk);
    hide X;
  }

  // The three-part reload overwrites every word with the term n places later,
  // although later parts read words the earlier ones replaced.
  method Twist(state: array<Word>)
    requires state.Length == MT_N
    modifies state
    ensures state[..] == Block(old(state[..]))
  {
    hide Mix, X, Halfway;
    ghost var words := state[..];
    HalfwayStarts(words);
    for kk := 0 to MT_N - MT_M
      invariant Halfway(state[..], words, kk)
    {
      HalfwayStep(state[..], words, kk);
      ghost var after := state[..][kk := Mix(state[kk], state[kk + 1], state[kk + MT_M])];
      state[kk] := Mix(state[kk], state[kk + 1], state[kk + MT_M]);
      assert state[..] == after;
    }
    for kk := MT_N - MT_M to MT_N - 1
      invariant Halfway(state[..], words, kk)
    {
      HalfwayStep(state[..], words, kk);
      ghost var after := state[..][kk := Mix(state[kk], state[kk + 1], state[kk + MT_M - MT_N])];
      state[kk] := Mix(state[kk], state[kk + 1], state[kk + MT_M - MT_N]);
      assert state[..] == after;
    }
    HalfwayStep(state[..], words, MT_N - 1);
    ghost var after := state[..][MT_N - 1 := Mix(state[MT_N - 1], state[0], state[MT_M - 1])];
    state[MT_N - 1] := Mix(state[MT_N - 1], state[0], state[MT_M - 1]);
    assert state[..] == after;
    HalfwayEnds(state[..], words);
  }

  // The position of the first draw: a cursor at or past the end reloads first.
  function Start(cursor: nat): nat {
    if cursor < MT_N then cursor else MT_N
  }

  // `state` holds the terms of `first` from `base` on.
  ghost predicate Continues(state: seq<Word>, first: seq<Word>, base: nat) {
    |state| == |first| == MT_N && forall k: nat :: X(state, k) == X(first, base + k)
  }

  lemma ContinuesAfterBlock(state: seq<Word>, first: seq<Word>, base: nat)
    requires Continues(state, first, base)
    ensures Continues(Block(state), first, base + MT_N)
  {
    hide X;
    forall k: nat
      ensures X(Block(state), k) == X(first, base + MT_N + k)
    {
      BlockContinues(state, k);
      assert X(state, MT_N + k) == X(first, base + (MT_N + k));
    }
  }

  lemma TermOf(state: seq<Word>, first: seq<Word>, base: nat, k: nat)
    requires Continues(state, first, base) && k < MT_N
    ensures state[k] == X(first, base + k)
  {
    assert X(state, k) == X(first, base + k);
  }

  method Copy(words: seq<Word>) returns (state: array<Word>)
    requires |words| >= MT_N
    ensures fresh(state) && state.Length == MT_N && state[..] == words[..MT_N]
  {
    state := new Word[MT_N](i requires 0 <= i < MT_N => words[i]);
  }

  // The untempered word at the cursor, reloading first when the block is used up.
  method NextWord(state: array<Word>, cursor: nat, ghost first: seq<Word>, ghost base: nat) returns (y: Word, index: nat, ghost start: nat)
    requires state.Length == MT_N && Continues(state[..], first, base)
    modifies state
    ensures Continues(state[..], first, start) && 0 < index <= MT_N && start + index == base + Start(cursor) + 1
    ensures y == X(first, base + Start(cursor))
  {
    hide Mix, X, Continues, Block;
    index, start := cursor, base;
    if index >= MT_N {
      ContinuesAfterBlock(state[..], first, base);
      Twist(state);
      index, start := 0, base + MT_N;
    }
    TermOf(state[..], first, start, index);
    y := state[index];
    index := index + 1;
  }

  // Draws `count` values from any cursor, across any number of reloads.
  method Draws(words: seq<Word>, cursor: nat, count: nat) returns (values: seq<Word>)
    requires |words| >= MT_N
    ensures |values| == count
    ensures forall k :: 0 <= k < count ==> values[k] == Temper(X(words[..624], (if cursor < 624 then cursor else 624) + k)) & 0x7FFFFFFF
  {
    hide Mix, Temper, X, Continues, Block;
    var state := Copy(words);
    ghost var first, base: nat := words[..MT_N], 0;
    Itself(first);
    var index: nat := cursor;
    values := [];
    for drawn := 0 to count
      invariant |values| == drawn && base + Start(index) == Start(cursor) + drawn
      invariant Continues(state[..], first, base)
      invariant forall k :: 0 <= k < drawn ==> values[k] == Temper(X(first, Start(cursor) + k)) & LOWER_MASK
    {
      var y;
      y, index, base := NextWord(state, index, first, base);
      values := values + [Temper(y) & LOWER_MASK];
    }
  }

  lemma Itself(words: seq<Word>)
    requires |words| == MT_N
    ensures Continues(words, words, 0)
  {
  }
}
