/** The pseudo-random words behind payloads, and the seeds they start from (`zakuro/src/data_channel.rs`). */
module Xorshift {
  import opened Arithmetic

  /** A 32-bit word, the lowest bit first. */
  type Word = w: seq<bool> | |w| == 32 witness seq(32, _ => false)

  function Zero(): Word {
    seq(32, _ => false)
  }

  function One(): Word {
    seq(32, i => i == 0)
  }

  function Xor(a: Word, b: Word): Word {
    seq(32, i requires 0 <= i < 32 => a[i] != b[i])
  }

  function Left(x: Word, k: nat): Word {
    seq(32, i requires 0 <= i < 32 => i >= k && x[i - k])
  }

  function Right(x: Word, k: nat): Word {
    seq(32, i requires 0 <= i < 32 => i + k < 32 && x[i + k])
  }

  function MixLeft(x: Word, k: nat): Word {
    Xor(x, Left(x, k))
  }

  function MixRight(x: Word, k: nat): Word {
    Xor(x, Right(x, k))
  }

  /** `xorshift32`: the next word. */
  function Next(x: Word): Word {
    MixLeft(MixRight(MixLeft(x, 13), 17), 5)
  }

  /** The word with one bit. */
  function Bit(k: nat): Word {
    seq(32, i => i == k)
  }

  /** The words behind 1 and behind 2^31 are 270369 and 2148024320. */
  lemma NextOfBits()
    ensures forall i :: 0 <= i < 32 ==> (Next(Bit(0))[i] <==> i in {0, 5, 13, 18})
    ensures forall i :: 0 <= i < 32 ==> (Next(Bit(31))[i] <==> i in {14, 19, 31})
  {
  }

  // ----- laws of mixing -----

  /** Mixing twice is mixing once, with a shift of double width. */
  lemma MixTwice(x: Word, k: nat)
    ensures MixLeft(MixLeft(x, k), k) == MixLeft(x, 2 * k)
    ensures MixRight(MixRight(x, k), k) == MixRight(x, 2 * k)
  {
  }

  lemma MixSwap(x: Word, j: nat, k: nat)
    ensures MixLeft(MixLeft(x, j), k) == MixLeft(MixLeft(x, k), j)
  {
    forall i | 0 <= i < 32 ensures MixLeft(MixLeft(x, j), k)[i] == MixLeft(MixLeft(x, k), j)[i] {
      assert i >= j + k ==> (i - j) - k == (i - k) - j;
    }
  }

  lemma MixNothing(x: Word, k: nat)
    requires k >= 32
    ensures MixLeft(x, k) == x && MixRight(x, k) == x
  {
    assert forall i :: 0 <= i < 32 ==> MixLeft(x, k)[i] == x[i] && MixRight(x, k)[i] == x[i];
  }

  // ----- one step permutes the words -----

  /** Undoes mixing with a shift by 5: 5 + 5 = 10, 10 + 10 = 20, and 20 + 20 is out of the word. */
  function UndoLeft5(y: Word): Word {
    MixLeft(MixLeft(MixLeft(y, 5), 10), 20)
  }

  function UndoLeft13(y: Word): Word {
    MixLeft(MixLeft(y, 13), 26)
  }

  /** The word before. */
  function Previous(y: Word): Word {
    UndoLeft13(MixRight(UndoLeft5(y), 17))
  }

  lemma Undone(x: Word)
    ensures UndoLeft5(MixLeft(x, 5)) == x && MixLeft(UndoLeft5(x), 5) == x
    ensures UndoLeft13(MixLeft(x, 13)) == x && MixLeft(UndoLeft13(x), 13) == x
    ensures MixRight(MixRight(x, 17), 17) == x
  {
    hide MixLeft, MixRight;
    MixTwice(x, 5);
    MixTwice(x, 10);
    MixTwice(x, 20);
    MixTwice(x, 13);
    MixTwice(x, 26);
    MixTwice(x, 17);
    MixNothing(x, 40);
    MixNothing(x, 52);
    MixNothing(x, 34);
    MixSwap(MixLeft(MixLeft(x, 5), 10), 20, 5);
    MixSwap(MixLeft(x, 5), 10, 5);
    MixSwap(MixLeft(x, 13), 26, 13);
  }

  lemma ZeroStays()
    ensures Next(Zero()) == Zero()
  {
  }

  /** One step permutes the 32-bit words, and only zero steps to zero. */
  lemma NextPermutes(x: Word)
    ensures Previous(Next(x)) == x && Next(Previous(x)) == x
    ensures Next(x) == Zero() <==> x == Zero()
  {
    ZeroStays();
    hide MixLeft, MixRight, UndoLeft5, UndoLeft13;
    StepUndone(x);
    StepUndone(Zero());
    Undone(x);
    Undone(UndoLeft5(x));
    Undone(MixRight(UndoLeft5(x), 17));
  }

  lemma StepUndone(x: Word)
    ensures Previous(Next(x)) == x
  {
    hide MixLeft, MixRight, UndoLeft5, UndoLeft13;
    Undone(x);
    Undone(MixLeft(x, 13));
    Undone(MixRight(MixLeft(x, 13), 17));
  }

  function Steps(x: Word, n: nat): Word {
    if n == 0 then x else Next(Steps(x, n - 1))
  }

  /** A generator that does not start at zero never reaches it. */
  lemma {:induction false} NeverZero(x: Word, n: nat)
    requires x != Zero()
    ensures Steps(x, n) != Zero()
  {
    hide Next;
    if n > 0 {
      NeverZero(x, n - 1);
      NextPermutes(Steps(x, n - 1));
    }
  }

  // ----- numbers and words -----

  const MODULUS: nat := 0x1_0000_0000

  function Bits(n: nat, k: nat): (b: seq<bool>)
    ensures |b| == k
  {
    if k == 0 then [] else [n % 2 == 1] + Bits(n / 2, k - 1)
  }

  function Value(b: seq<bool>): nat {
    if b == [] then 0 else (if b[0] then 1 else 0) + 2 * Value(b[1..])
  }

  function Pow2(k: nat): nat {
    if k == 0 then 1 else 2 * Pow2(k - 1)
  }

  lemma {:induction false} ValueOfBits(n: nat, k: nat)
    requires n < Pow2(k)
    ensures Value(Bits(n, k)) == n
  {
    if k > 0 {
      ValueOfBits(n / 2, k - 1);
      assert Bits(n, k)[1..] == Bits(n / 2, k - 1);
    }
  }

  function ToWord(n: nat): Word {
    Bits(n, 32)
  }

  lemma {:induction false} Pow2Doubles(k: nat, j: nat)
    ensures Pow2(k + j) == Pow2(k) * Pow2(j)
  {
    if k > 0 {
      Pow2Doubles(k - 1, j);
    }
  }

  lemma Pow2Is()
    ensures Pow2(32) == MODULUS
  {
    assert Pow2(1) == 2 * Pow2(0) && Pow2(2) == 2 * Pow2(1);
    Pow2Doubles(2, 2);
    Pow2Doubles(4, 4);
    Pow2Doubles(8, 8);
    Pow2Doubles(16, 16);
  }

  lemma WordsDiffer(n: nat, m: nat)
    requires n < MODULUS && m < MODULUS && ToWord(n) == ToWord(m)
    ensures n == m
  {
    Pow2Is();
    ValueOfBits(n, 32);
    ValueOfBits(m, 32);
  }

  lemma XorInjective(a: Word, x: Word, y: Word)
    ensures Xor(a, x) == Xor(a, y) ==> x == y
    ensures Xor(x, a) == Xor(y, a) ==> x == y
  {
    if Xor(a, x) == Xor(a, y) {
      forall i | 0 <= i < 32 ensures x[i] == y[i] {
        assert Xor(a, x)[i] == Xor(a, y)[i];
      }
    }
    if Xor(x, a) == Xor(y, a) {
      forall i | 0 <= i < 32 ensures x[i] == y[i] {
        assert Xor(x, a)[i] == Xor(y, a)[i];
      }
    }
  }

  // ----- seeds -----

  const BY_CLIENT: nat := 2654435761
  const BY_INSTANCE: nat := 0x9E37_79B9

  /** `wrapping_mul` */
  function Spread(n: nat, factor: nat): (r: nat)
    ensures r < MODULUS
  {
    n * factor % MODULUS
  }

  /** The instance's and the client's number, spread and mixed. */
  function MixIds(instance: nat, client: nat): Word {
    Xor(Xor(ToWord(0xDEAD_BEEF), ToWord(Spread(client, BY_CLIENT))), ToWord(Spread(instance, BY_INSTANCE)))
  }

  /** `compute_seed` */
  function Seed(instance: nat, client: nat): Word {
    var mixed := MixIds(instance, client);
    if mixed == Zero() then One() else mixed
  }

  /** A factor that has an inverse spreads different numbers to different numbers. */
  lemma SpreadInjective(i: nat, j: nat, factor: nat, inverse: nat, t: nat)
    requires i < MODULUS && j < MODULUS && factor * inverse == 1 + t * MODULUS
    requires Spread(i, factor) == Spread(j, factor)
    ensures i == j
  {
    var p, q := i * factor / MODULUS, j * factor / MODULUS;
    var d := p - q;
    assert i * factor - j * factor == d * MODULUS;
    assert (i - j) * (factor * inverse) == (i * factor - j * factor) * inverse;
    assert (i - j) * (1 + t * MODULUS) == (i - j) + (i - j) * t * MODULUS;
    assert d * MODULUS * inverse == d * inverse * MODULUS;
    var m := d * inverse - (i - j) * t;
    assert i - j == m * MODULUS;
    assert m > 0 ==> m * MODULUS >= MODULUS;
    assert m < 0 ==> m * MODULUS + MODULUS <= 0;
  }

  /** Before zero is corrected, the instances of one client number have different seeds, and so have the client numbers
      of one instance. */
  lemma MixInjective(i: nat, j: nat, other: nat)
    requires i < MODULUS && j < MODULUS && i != j
    ensures MixIds(i, other) != MixIds(j, other) && MixIds(other, i) != MixIds(other, j)
  {
    hide Spread, Bits, ToWord, Xor;
    var salt := ToWord(0xDEAD_BEEF);
    if MixIds(i, other) == MixIds(j, other) {
      XorInjective(Xor(salt, ToWord(Spread(other, BY_CLIENT))),
        ToWord(Spread(i, BY_INSTANCE)), ToWord(Spread(j, BY_INSTANCE)));
      WordsDiffer(Spread(i, BY_INSTANCE), Spread(j, BY_INSTANCE));
      InstancesSpread(i, j);
    }
    if MixIds(other, i) == MixIds(other, j) {
      XorInjective(ToWord(Spread(other, BY_INSTANCE)),
        Xor(salt, ToWord(Spread(i, BY_CLIENT))), Xor(salt, ToWord(Spread(j, BY_CLIENT))));
      XorInjective(salt, ToWord(Spread(i, BY_CLIENT)), ToWord(Spread(j, BY_CLIENT)));
      WordsDiffer(Spread(i, BY_CLIENT), Spread(j, BY_CLIENT));
      ClientsSpread(i, j);
    }
  }

  lemma InstancesSpread(i: nat, j: nat)
    requires i < MODULUS && j < MODULUS && Spread(i, BY_INSTANCE) == Spread(j, BY_INSTANCE)
    ensures i == j
  {
    hide Spread;
    SpreadInjective(i, j, BY_INSTANCE, 0x144C_BC89, 210485888);
  }

  lemma ClientsSpread(i: nat, j: nat)
    requires i < MODULUS && j < MODULUS && Spread(i, BY_CLIENT) == Spread(j, BY_CLIENT)
    ensures i == j
  {
    hide Spread;
    SpreadInjective(i, j, BY_CLIENT, 0x0E8B_2F51, 150801925);
  }

  /** No seed is zero. Two instances of one client number share a seed exactly when one has the corrected zero and the
      other the word it is corrected to. */
  lemma SeedsDiffer(i: nat, j: nat, client: nat)
    requires i < MODULUS && j < MODULUS && i != j
    ensures Seed(i, client) != Zero()
    ensures Seed(i, client) == Seed(j, client) <==>
              || (MixIds(i, client) == Zero() && MixIds(j, client) == One())
              || (MixIds(i, client) == One() && MixIds(j, client) == Zero())
  {
    MixInjective(i, j, client);
    assert One()[0] && !Zero()[0];
    hide MixIds, ToWord;
  }
}
