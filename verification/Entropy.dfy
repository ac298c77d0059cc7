/** The pseudo-random generator of the node platform (entropy.c): one 32-bit state word,
    stepped without a division, and the byte-filling loop around it. */
module Entropy {
  import opened SimTypes

  // The Lehmer modulus 2^31 - 1.
  const M := 0x7fff_ffff
  const MULTIPLIER := 16807

  /** One step of the generator, in the shape of the source: the 64-bit product of the state
      with twice the multiplier is split into a high and a shifted low half, which are added
      and folded once at bit 31. */
  function Step(s: Word32): (r: Word32) {
    var product := 33614 * s;
    var q := (product % 0x1_0000_0000) / 2;
    var p := product / 0x1_0000_0000;
    var mlcg := p + q;
    if mlcg >= 0x8000_0000 then mlcg % 0x8000_0000 + 1 else mlcg
  }

  /** The state after n steps, which is also the n-th output. */
  function Iterate(s: Word32, n: nat): Word32 {
    if n == 0 then s else Step(Iterate(s, n - 1))
  }

  function Power(b: int, n: nat): int {
    if n == 0 then 1 else b * Power(b, n - 1)
  }

  /** The seeds the command line accepts besides 0, which selects /dev/urandom instead. */
  predicate AcceptedSeed(seed: int) {
    -0x8000_0000 < seed < 0x7fff_ffff && seed != 0
  }

  /** The C conversion from int32_t to uint32_t. */
  function ToWord(seed: int): Word32
    requires -0x8000_0000 <= seed <= 0x7fff_ffff
  {
    if seed < 0 then seed + 0x1_0000_0000 else seed
  }

  // ---------- one step is multiplication modulo M ----------

  lemma StepCongruence(s: Word32)
    ensures 0 <= Step(s) <= M
    ensures Step(s) % M == MULTIPLIER * s % M
    ensures Step(s) == 0 <==> s == 0
  {
    var p, q := 33614 * s / 0x1_0000_0000, 33614 * s % 0x1_0000_0000 / 2;
    assert MULTIPLIER * s == p * 0x8000_0000 + q;
  }

  lemma ModOfProduct(a: int, b: int)
    ensures a * (b % M) % M == a * b % M
  {
    var k := b / M;
    assert b == k * M + b % M;
    assert a * b == (a * k) * M + a * (b % M) by {
      assert a * (k * M) == (a * k) * M;
    }
    RemoveMultiple(a * k, a * (b % M));
  }

  lemma RemoveMultiple(k: int, x: int)
    ensures (k * M + x) % M == x % M
  {
  }

  /** The multiplier has an inverse modulo M, so it maps no residue but 0 to 0. */
  lemma MultiplierIsInvertible(s: int)
    requires MULTIPLIER * s % M == 0
    ensures s % M == 0
  {
    var k := MULTIPLIER * s / M;
    assert MULTIPLIER * s == k * M;
    assert 1407677000 * MULTIPLIER == 11017 * M + 1;
    assert s == (1407677000 * k - 11017 * s) * M;
    RemoveMultiple(1407677000 * k - 11017 * s, 0);
  }

  // ---------- whole runs ----------

  /** For every seed word the n-th output is congruent to 16807^n times the seed. */
  lemma {:induction false} OutputCongruence(s: Word32, n: nat)
    ensures Iterate(s, n) % M == Power(MULTIPLIER, n) * s % M
  {
    hide Step;
    if n > 0 {
      var prev := Iterate(s, n - 1);
      OutputCongruence(s, n - 1);
      StepCongruence(prev);
      ModOfProduct(MULTIPLIER, prev);
      ModOfProduct(MULTIPLIER, Power(MULTIPLIER, n - 1) * s);
      assert MULTIPLIER * (Power(MULTIPLIER, n - 1) * s) == Power(MULTIPLIER, n) * s;
    }
  }

  /** A word that is no multiple of M never leads to one. */
  lemma {:induction false} NeverZeroResidue(s: Word32, n: nat)
    requires s % M != 0
    ensures Iterate(s, n) % M != 0
    ensures n > 0 ==> 1 <= Iterate(s, n) <= M - 1
  {
    hide Step;
    if n > 0 {
      NeverZeroResidue(s, n - 1);
      StepCongruence(Iterate(s, n - 1));
      if MULTIPLIER * Iterate(s, n - 1) % M == 0 {
        MultiplierIsInvertible(Iterate(s, n - 1));
      }
    }
  }

  /** A nonzero multiple of M is caught at M from the first output on. */
  lemma {:induction false} MultiplesAreStuck(s: Word32, n: nat)
    requires s % M == 0 && s != 0 && n > 0
    ensures Iterate(s, n) == M
  {
    hide Step;
    var prev := Iterate(s, n - 1);
    if n > 1 {
      MultiplesAreStuck(s, n - 1);
    }
    ModOfProduct(MULTIPLIER, prev);
    StepCongruence(prev);
  }

  ghost predicate IsLehmerSequence(s: Word32) {
    forall n: nat :: n > 0 ==>
      1 <= Iterate(s, n) <= M - 1 && Iterate(s, n) == Power(MULTIPLIER, n) * s % M
  }

  /** The division-free generator is the Lehmer generator exactly when the seed is not -2.
      That seed is accepted, and makes every output equal to M. */
  lemma LehmerSequence(seed: int)
    requires AcceptedSeed(seed)
    ensures IsLehmerSequence(ToWord(seed)) <==> seed != -2
  {
    hide Step;
    var s := ToWord(seed);
    if seed == -2 {
      MultiplesAreStuck(s, 1);
    } else {
      forall n: nat | n > 0
        ensures 1 <= Iterate(s, n) <= M - 1 && Iterate(s, n) == Power(MULTIPLIER, n) * s % M
      {
        NeverZeroResidue(s, n);
        OutputCongruence(s, n);
      }
    }
  }

  // ---------- the generator object ----------

  class Generator {
    var state: Word32
    var seed: int

    /** Static initialisation followed by platformRandomInit. */
    constructor (randomSeed: int)
      requires AcceptedSeed(randomSeed) || randomSeed == 0
      ensures seed == randomSeed
      ensures state == if randomSeed == 0 then 1 else ToWord(randomSeed)
    {
      seed := randomSeed;
      state := if randomSeed != 0 then ToWord(randomSeed) else 1;
    }

    method RandomUint32Get() returns (mlcg: Word32)
      modifies this`state
      ensures mlcg == state == Step(old(state))
    {
      var tmpstate := 33614 * state;
      var q := tmpstate % 0x1_0000_0000;
      q := q / 2;
      var p := tmpstate / 0x1_0000_0000;
      mlcg := p + q;
      if mlcg >= 0x8000_0000 {
        mlcg := mlcg % 0x8000_0000;
        mlcg := mlcg + 1;
      }
      state := mlcg;
    }

    /** Fills the buffer with the low bytes of consecutive outputs. */
    method EntropyGet(output: array<Byte>)
      requires seed != 0
      modifies this`state, output
      ensures forall k :: 0 <= k < output.Length ==> output[k] == Iterate(old(state), k + 1) % 256
      ensures state == Iterate(old(state), output.Length)
    {
      var length := 0;
      while length < output.Length
        invariant 0 <= length <= output.Length
        invariant state == Iterate(old(state), length)
        invariant forall k :: 0 <= k < length ==> output[k] == Iterate(old(state), k + 1) % 256
      {
        var r := RandomUint32Get();
        output[length] := r % 256;
        length := length + 1;
      }
    }
  }
}
