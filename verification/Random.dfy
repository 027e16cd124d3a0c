// The pseudo-random generator, with 64-bit integers and with pairs of 32-bit integers.

module Random {
  import opened Words

  const M32: nat := 0x1_0000_0000
  const M64: nat := 0x1_0000_0000_0000_0000

  type Word32 = x: nat | x < 0x1_0000_0000
  type Word64 = x: nat | x < 0x1_0000_0000_0000_0000

  // ----- 64-bit integers -----

  datatype State = State(s0: Word64, s1: Word64, s2: Word64, s3: Word64)

  function Xor64(x: Word64, y: Word64): Word64 {
    Powers();
    XorBound(x, y, 64);
    Xor(x, y)
  }

  function Shl17(x: Word64): Word64 {
    (x * 0x20000) % M64
  }

  lemma Rotl45Bound(x: Word64)
    ensures (x * 0x2000_0000_0000) % M64 == (x % 0x80000) * 0x2000_0000_0000 && x / 0x80000 < 0x2000_0000_0000
  {
    assert x * 0x2000_0000_0000 == (x / 0x80000) * M64 + (x % 0x80000) * 0x2000_0000_0000;
  }

  lemma Rotl7Bound(x: Word64)
    ensures (x * 0x80) % M64 == (x % 0x200_0000_0000_0000) * 0x80 && x / 0x200_0000_0000_0000 < 0x80
  {
    assert x * 0x80 == (x / 0x200_0000_0000_0000) * M64 + (x % 0x200_0000_0000_0000) * 0x80;
  }

  // `rotl`, by 45 and by 7. The two parts have no bits in common: their union is their sum.
  function Rotl45(x: Word64): Word64 {
    Rotl45Bound(x);
    (x * 0x2000_0000_0000) % M64 + x / 0x80000
  }

  function Rotl7(x: Word64): Word64 {
    Rotl7Bound(x);
    (x * 0x80) % M64 + x / 0x200_0000_0000_0000
  }

  function Scramble(x: Word64): Word64 {
    (Rotl7((x * 5) % M64) * 9) % M64
  }

  // One step of xoshiro256**, on values.
  function Next(s: State): State {
    var s2, s3 := Xor64(s.s2, s.s0), Xor64(s.s3, s.s1);
    State(Xor64(s.s0, s3), Xor64(s.s1, s2), Xor64(s2, Shl17(s.s1)), Rotl45(s3))
  }

  ghost function Contents(state: array<Word64>): State
    requires state.Length == 4
    reads state
  {
    State(state[0], state[1], state[2], state[3])
  }

  /** `nextrand` on 64-bit integers */
  method NextRand(state: array<Word64>) returns (res: Word64)
    requires state.Length == 4
    modifies state
    ensures Contents(state) == Next(old(Contents(state))) && res == Scramble(old(state[1]))
  {
    hide Xor64, Shl17, Rotl45, Rotl7;
    var state0 := state[0];
    var state1 := state[1];
    var state2 := Xor64(state[2], state0);
    var state3 := Xor64(state[3], state1);
    res := (Rotl7((state1 * 5) % M64) * 9) % M64;
    state[0] := Xor64(state0, state3);
    state[1] := Xor64(state1, state2);
    state[2] := Xor64(state2, Shl17(state1));
    state[3] := Rotl45(state3);
  }

  lemma SmallXors()
    ensures Xor64(3, 1) == 2 && Xor64(4, 2) == 6 && Xor64(1, 6) == 7 && Xor64(2, 2) == 0
  {
  }

  lemma HighBit(a: nat, c: nat, b: nat, d: nat)
    requires a < 2 && c < 2 && b < 8 && d < 8
    ensures Xor(a * 0x40000 + b, c * 0x40000 + d) == Xor(a, c) * 0x40000 + Xor(b, d)
  {
    hide Xor;
    Powers();
    assert Pow2(18) == 2 * Pow2(17);
    XorSplit(a, b, c, d, 18);
  }

  lemma LargerXors()
    ensures Xor64(2, 0x40000) == 0x40002 && Xor64(0x40002, 7) == 0x40005 && Xor64(0, 0x40005) == 0x40005
  {
    FewXors();
    hide Xor;
    HighBit(0, 1, 2, 0);
    HighBit(1, 0, 2, 7);
    HighBit(0, 1, 0, 5);
  }

  lemma FewXors()
    ensures Xor(0, 1) == 1 && Xor(1, 0) == 1 && Xor(2, 0) == 2 && Xor(2, 7) == 5 && Xor(0, 5) == 5
  {
  }

  lemma SecondState()
    ensures var s := Next(State(1, 2, 3, 4)); s.s0 == 7 && s.s1 == 0 && s.s2 == 0x40002
  {
    hide Xor64, Rotl45;
    SmallXors();
    LargerXors();
  }

  lemma ThirdState(s: State)
    requires s.s0 == 7 && s.s1 == 0 && s.s2 == 0x40002
    ensures Next(s).s1 == 0x40005
  {
    hide Xor64, Rotl45, Shl17;
    LargerXors();
  }

  lemma Scrambled()
    ensures Scramble(2) == 11520 && Scramble(0) == 0 && Scramble(0x40005) == 1509978240
  {
  }

  // The first outputs from a state of small numbers are those of xoshiro256**.
  lemma FirstOutputs()
    ensures var s := State(1, 2, 3, 4);
      && Scramble(s.s1) == 11520
      && Scramble(Next(s).s1) == 0
      && Scramble(Next(Next(s)).s1) == 1509978240
  {
    hide Next, Scramble;
    SecondState();
    ThirdState(Next(State(1, 2, 3, 4)));
    Scrambled();
  }

  // ----- every output can be undone -----

  function Rotr7(x: Word64): Word64 {
    x / 0x80 + (x % 0x80) * 0x200_0000_0000_0000
  }

  // The factors are the inverses of 9 and of 5 modulo 2^64.
  function Unscramble(y: Word64): Word64 {
    (Rotr7((y * 0x8E38_E38E_38E3_8E39) % M64) * 0xCCCC_CCCC_CCCC_CCCD) % M64
  }

  // Multiplying by `a` and then by `b` gives the number back if `a * b` is 1 modulo 2^64.
  lemma TimesBack(x: Word64, a: nat, b: nat, k: nat)
    requires a * b == k * M64 + 1
    ensures (((x * a) % M64) * b) % M64 == x
  {
    var q, r := x * a / M64, x * a % M64;
    assert x * a == q * M64 + r;
    assert r * b + q * b * M64 == x * a * b == x * (a * b) == x * k * M64 + x by {
      assert (q * M64 + r) * b == q * M64 * b + r * b;
      assert x * a * b == x * (a * b);
      assert x * (k * M64 + 1) == x * k * M64 + x;
      assert q * M64 * b == q * b * M64;
    }
    assert r * b == (x * k - q * b) * M64 + x;
    BackAt(r * b, x * k - q * b, x);
  }

  lemma BackAt(n: nat, d: int, x: Word64)
    requires n == d * M64 + x
    ensures n % M64 == x
  {
  }

  lemma Rotr7Parts(y: Word64, a: nat, b: nat)
    requires y == a * 0x80 + b && b < 0x80
    ensures Rotr7(y) == a + b * 0x200_0000_0000_0000
  {
  }

  lemma Rotl7Whole(x: Word64, a: nat, b: nat)
    requires x == b * 0x200_0000_0000_0000 + a && a < 0x200_0000_0000_0000
    ensures Rotl7(x) == a * 0x80 + b
  {
    Rotl7Bound(x);
  }

  lemma RotatedBack(x: Word64)
    ensures Rotr7(Rotl7(x)) == x && Rotl7(Rotr7(x)) == x
  {
    hide Rotl7, Rotr7;
    var a, b := x % 0x200_0000_0000_0000, x / 0x200_0000_0000_0000;
    Rotl7Whole(x, a, b);
    Rotr7Parts(Rotl7(x), a, b);
    var c, d := x / 0x80, x % 0x80;
    Rotr7Parts(x, c, d);
    Rotl7Whole(Rotr7(x), c, d);
  }

  /** The output is a permutation of the 64-bit integers, with this inverse: no output is lost or more likely. */
  lemma ScrambleUndone(x: Word64)
    ensures Unscramble(Scramble(x)) == x && Scramble(Unscramble(x)) == x
  {
    hide Rotl7, Rotr7;
    var five, nine := 0xCCCC_CCCC_CCCC_CCCD, 0x8E38_E38E_38E3_8E39;
    TimesBack(x, 5, five, 4);
    TimesBack(Rotl7((x * 5) % M64), 9, nine, 5);
    RotatedBack((x * 5) % M64);
    TimesBack(x, nine, 9, 5);
    TimesBack(Rotr7((x * nine) % M64), five, 5, 4);
    RotatedBack((x * nine) % M64);
  }

  // ----- every step can be undone -----

  function Rotr45(x: Word64): Word64 {
    x / 0x2000_0000_0000 + (x % 0x2000_0000_0000) * 0x80000
  }

  // The solution of `x ^ (x << 17) == y`.
  function Unshift(y: Word64): Word64 {
    var t := Xor64(y, Shl17(y));
    Xor64(t, Shl17(Shl17(t)))
  }

  function Previous(s: State): State {
    var s3 := Rotr45(s.s3);
    var s0, s1 := Xor64(s.s0, s3), Unshift(Xor64(s.s1, s.s2));
    var s2 := Xor64(s.s1, s1);
    State(s0, s1, Xor64(s2, s0), Xor64(s3, s1))
  }

  lemma XorBack(x: Word64, y: Word64)
    ensures Xor64(Xor64(x, y), y) == x && Xor64(Xor64(x, y), x) == y
  {
    XorXor(x, y);
    XorXor(y, x);
    XorCommutes(x, y);
  }

  lemma XorBetween(x: Word64, y: Word64, z: Word64)
    ensures Xor64(Xor64(x, y), Xor64(y, z)) == Xor64(x, z)
  {
    hide Xor;
    XorAssociates(Xor(x, y), y, z);
    XorXor(x, y);
  }

  lemma Shl17Low(x: Word64)
    ensures Shl17(x) == (x % 0x8000_0000_0000) * 0x20000
  {
  }

  lemma ShlXor(x: Word64, y: Word64)
    ensures Shl17(Xor64(x, y)) == Xor64(Shl17(x), Shl17(y))
  {
    hide Xor, Pow2, Shl17;
    Powers();
    var a, b, c, d := x / 0x8000_0000_0000, x % 0x8000_0000_0000, y / 0x8000_0000_0000, y % 0x8000_0000_0000;
    XorSplit(a, b, c, d, 47);
    XorBound(b, d, 47);
    Shl17Low(x);
    Shl17Low(y);
    Shl17Low(Xor64(x, y));
    XorSplit(b, 0, d, 0, 17);
    XorZero(0);
  }

  // What is shifted four times is shifted out.
  lemma ShlFour(x: Word64)
    ensures Shl17(Shl17(Shl17(Shl17(x)))) == 0
  {
    hide Shl17;
    var y := Shl17(x);
    var z := Shl17(y);
    Shl17Low(x);
    ShlTwo(y, x % 0x8000_0000_0000);
    ShlThree(z, y % 0x8000_0000_0000 / 0x20000);
    ShlLast(Shl17(z), z % 0x8000_0000_0000 / 0x4_0000_0000);
  }

  lemma ShlTwo(y: Word64, q: nat)
    requires y == q * 0x20000
    ensures Shl17(y) == (y % 0x8000_0000_0000 / 0x20000) * 0x4_0000_0000
  {
    hide Shl17;
    Shl17Low(y);
  }

  lemma ShlThree(z: Word64, q: nat)
    requires z == q * 0x4_0000_0000
    ensures Shl17(z) == (z % 0x8000_0000_0000 / 0x4_0000_0000) * 0x8_0000_0000_0000
  {
    hide Shl17;
    Shl17Low(z);
  }

  lemma ShlLast(w: Word64, q: nat)
    requires w == q * 0x8_0000_0000_0000
    ensures Shl17(w) == 0
  {
    hide Shl17;
    Shl17Low(w);
  }

  lemma UnshiftBack(x: Word64)
    ensures Unshift(Xor64(x, Shl17(x))) == x
  {
    hide Xor64, Shl17;
    var s := Shl17(x);
    var r := Shl17(s);
    var t := Xor64(x, r);
    ShlXor(x, s);
    XorBetween(x, s, r);
    ShlXor(x, r);
    ShlXor(s, Shl17(r));
    XorBetween(x, r, Shl17(Shl17(r)));
    ShlFour(x);
    XorNone(x);
  }

  lemma XorNone(x: Word64)
    ensures Xor64(x, 0) == x
  {
    XorZero(x);
  }

  lemma Rotl45Parts(x: Word64)
    ensures Rotl45(x) == (x % 0x80000) * 0x2000_0000_0000 + x / 0x80000 && x / 0x80000 < 0x2000_0000_0000
  {
    Rotl45Bound(x);
  }

  lemma Rotr45Parts(y: Word64, a: nat, b: nat)
    requires y == b * 0x2000_0000_0000 + a && a < 0x2000_0000_0000
    ensures Rotr45(y) == b + a * 0x80000
  {
  }

  lemma RotrRotl(x: Word64)
    ensures Rotr45(Rotl45(x)) == x
  {
    hide Rotl45, Rotr45;
    Rotl45Parts(x);
    Rotr45Parts(Rotl45(x), x / 0x80000, x % 0x80000);
  }

  /** Every step can be undone, so no two states have the same next one. */
  lemma NextUndone(s: State)
    ensures Previous(Next(s)) == s
  {
    hide Xor64, Shl17, Rotl45, Rotr45, Unshift;
    var s2, s3 := Xor64(s.s2, s.s0), Xor64(s.s3, s.s1);
    RotrRotl(s3);
    XorBack(s.s0, s3);
    XorBetween(s.s1, s2, Shl17(s.s1));
    UnshiftBack(s.s1);
    XorBack(s.s1, s2);
    XorBack(s.s2, s.s0);
    XorBack(s.s3, s.s1);
  }

  function Run(s: State, n: nat): State {
    if n == 0 then s else Next(Run(s, n - 1))
  }

  predicate IsZero(s: State) {
    s.s0 == 0 && s.s1 == 0 && s.s2 == 0 && s.s3 == 0
  }

  // The one state that is its own next for ever.
  lemma NextZero(s: State)
    requires IsZero(s)
    ensures Next(s) == s
  {
    hide Xor64;
    XorNone(s.s0);
  }

  // The start of `setseed`, before the first values are thrown away.
  function Seed(n1: Word64, n2: Word64): State {
    State(n1, 0xFF, n2, 0)
  }

  /** From no seed does a run reach the zero state. */
  lemma {:induction false} NeverZero(n1: Word64, n2: Word64, n: nat)
    ensures !IsZero(Run(Seed(n1, n2), n))
  {
    hide Next, Previous;
    if n > 0 {
      var s := Run(Seed(n1, n2), n - 1);
      NeverZero(n1, n2, n - 1);
      NextUndone(s);
      if IsZero(Next(s)) {
        NextZero(Next(s));
        NextUndone(Next(s));
      }
    }
  }

  /** `setseed` */
  method SetSeed(state: array<Word64>, n1: Word64, n2: Word64)
    requires state.Length == 4
    modifies state
    ensures Contents(state) == Run(Seed(n1, n2), 16)
  {
    hide Next;
    state[0], state[1], state[2], state[3] := n1, 0xFF, n2, 0;
    for i := 0 to 16
      invariant Contents(state) == Run(Seed(n1, n2), i)
    {
      var res := NextRand(state);
    }
  }

  // ----- pairs of 32-bit integers -----

  datatype Rand64 = Rand64(h: Word32, l: Word32)

  // The integer that a pair stands for.
  function Join(x: Rand64): Word64 {
    x.h * M32 + x.l
  }

  // `Int2I`
  function Int2I(n: Word64): Rand64 {
    Rand64(n / 0x8000_0000 / 2, n % M32)
  }

  // `Ishl`, by 2, by 3 and by 17
  function Ishl2(i: Rand64): Rand64 {
    Rand64((i.h * 4) % M32 + i.l / 0x4000_0000, (i.l * 4) % M32)
  }

  function Ishl3(i: Rand64): Rand64 {
    Rand64((i.h * 8) % M32 + i.l / 0x2000_0000, (i.l * 8) % M32)
  }

  function Ishl17(i: Rand64): Rand64 {
    Rand64((i.h * 0x20000) % M32 + i.l / 0x8000, (i.l * 0x20000) % M32)
  }

  function Xor32(x: Word32, y: Word32): Word32 {
    Powers();
    XorBound(x, y, 32);
    Xor(x, y)
  }

  // `Ixor`
  function Ixor(i: Rand64, j: Rand64): Rand64 {
    Rand64(Xor32(i.h, j.h), Xor32(i.l, j.l))
  }

  // `Iadd`, with the carry
  function Iadd(i: Rand64, j: Rand64): Rand64 {
    var h, l := (i.h + j.h) % M32, (i.l + j.l) % M32;
    Rand64(if l < i.l then (h + 1) % M32 else h, l)
  }

  function Times5(i: Rand64): Rand64 {
    Iadd(Ishl2(i), i)
  }

  function Times9(i: Rand64): Rand64 {
    Iadd(Ishl3(i), i)
  }

  // `rotl` by 7, and `rotl1` by 45
  function PairRotl7(i: Rand64): Rand64 {
    Rand64((i.h * 0x80) % M32 + i.l / 0x200_0000, i.h / 0x200_0000 + (i.l * 0x80) % M32)
  }

  function PairRotl45(i: Rand64): Rand64 {
    Rand64(i.h / 0x80000 + (i.l * 0x2000) % M32, (i.h * 0x2000) % M32 + i.l / 0x80000)
  }

  lemma JoinInt2I(n: Word64)
    ensures Join(Int2I(n)) == n
  {
  }

  lemma JoinIxor(i: Rand64, j: Rand64)
    ensures Join(Ixor(i, j)) == Xor64(Join(i), Join(j))
  {
    hide Xor, Pow2;
    Powers();
    XorSplit(i.h, i.l, j.h, j.l, 32);
  }

  // What a shift leaves of 32 bits.
  lemma ShlWord17(x: Word32)
    ensures (x * 0x20000) % M32 == (x % 0x8000) * 0x20000
  {
    assert x * 0x20000 == (x / 0x8000) * M32 + (x % 0x8000) * 0x20000;
  }

  lemma ShlWord2(x: Word32)
    ensures (x * 4) % M32 == (x % 0x4000_0000) * 4
  {
    assert x * 4 == (x / 0x4000_0000) * M32 + (x % 0x4000_0000) * 4;
  }

  lemma ShlWord3(x: Word32)
    ensures (x * 8) % M32 == (x % 0x2000_0000) * 8
  {
    assert x * 8 == (x / 0x2000_0000) * M32 + (x % 0x2000_0000) * 8;
  }

  lemma Ishl17Parts(i: Rand64)
    ensures Join(Ishl17(i)) == (i.h % 0x8000) * 0x2_0000_0000_0000 + i.l * 0x20000
    ensures Join(i) % 0x8000_0000_0000 == (i.h % 0x8000) * M32 + i.l
  {
    ShlWord17(i.h);
    ShlWord17(i.l);
  }

  lemma JoinIshl17(i: Rand64)
    ensures Join(Ishl17(i)) == Shl17(Join(i))
  {
    hide Join, Ishl17, Shl17;
    Ishl17Parts(i);
    Shl17Low(Join(i));
  }

  lemma JoinParts(i: Rand64)
    ensures Join(i) / 0x80000 == i.h * 0x2000 + i.l / 0x80000 && Join(i) % 0x80000 == i.l % 0x80000
  {
  }

  lemma PairRotl45Parts(i: Rand64)
    ensures Join(PairRotl45(i)) == (i.l % 0x80000) * 0x2000_0000_0000 + i.h * 0x2000 + i.l / 0x80000
  {
    assert (i.l * 0x2000) % M32 == (i.l % 0x80000) * 0x2000;
    assert (i.h * 0x2000) % M32 == (i.h % 0x80000) * 0x2000;
  }

  lemma JoinRotl45(i: Rand64)
    ensures Join(PairRotl45(i)) == Rotl45(Join(i))
  {
    hide Join, PairRotl45, Rotl45;
    JoinParts(i);
    PairRotl45Parts(i);
    Rotl45Parts(Join(i));
  }

  lemma Rotl7Parts(x: Word64)
    ensures Rotl7(x) == (x % 0x200_0000_0000_0000) * 0x80 + x / 0x200_0000_0000_0000
  {
    Rotl7Bound(x);
  }

  lemma JoinParts7(i: Rand64)
    ensures Join(i) / 0x200_0000_0000_0000 == i.h / 0x200_0000
    ensures Join(i) % 0x200_0000_0000_0000 == (i.h % 0x200_0000) * M32 + i.l
  {
  }

  lemma PairRotl7Parts(i: Rand64)
    ensures Join(PairRotl7(i)) == ((i.h % 0x200_0000) * M32 + i.l) * 0x80 + i.h / 0x200_0000
  {
    assert (i.l * 0x80) % M32 == (i.l % 0x200_0000) * 0x80;
    assert (i.h * 0x80) % M32 == (i.h % 0x200_0000) * 0x80;
  }

  lemma JoinRotl7(i: Rand64)
    ensures Join(PairRotl7(i)) == Rotl7(Join(i))
  {
    hide Join, PairRotl7, Rotl7;
    JoinParts7(i);
    PairRotl7Parts(i);
    Rotl7Parts(Join(i));
  }

  lemma WordSum(x: Word32, y: Word32)
    ensures (x + y) % M32 == if x + y < M32 then x + y else x + y - M32
  {
  }

  lemma JoinIadd(i: Rand64, j: Rand64)
    ensures Join(Iadd(i, j)) == (Join(i) + Join(j)) % M64
  {
    WordSum(i.h, j.h);
    WordSum(i.l, j.l);
    WordSum((i.h + j.h) % M32, 1);
    var carry := if i.l + j.l < M32 then 0 else 1;
    var over := if i.h + j.h + carry < M32 then 0 else 1;
    Remainder(Join(i) + Join(j), over, Join(Iadd(i, j)));
  }

  lemma JoinTimes5(i: Rand64)
    ensures Join(Times5(i)) == (Join(i) * 5) % M64
  {
    JoinIshl2(i);
    hide Iadd, Join, Ishl2;
    JoinIadd(Ishl2(i), i);
  }

  lemma Remainder(x: nat, q: nat, r: Word64)
    requires x == q * M64 + r
    ensures x % M64 == r
  {
  }

  lemma Ishl2Parts(i: Rand64)
    ensures Join(Ishl2(i)) == (i.h % 0x4000_0000) * 0x4_0000_0000 + i.l * 4
  {
    ShlWord2(i.h);
    ShlWord2(i.l);
  }

  lemma JoinIshl2(i: Rand64)
    ensures Join(Ishl2(i)) == (Join(i) * 4) % M64
  {
    hide Ishl2;
    Ishl2Parts(i);
    Remainder(Join(i) * 4, i.h / 0x4000_0000, Join(Ishl2(i)));
  }

  lemma Ishl3Parts(i: Rand64)
    ensures Join(Ishl3(i)) == (i.h % 0x2000_0000) * 0x8_0000_0000 + i.l * 8
  {
    ShlWord3(i.h);
    ShlWord3(i.l);
  }

  lemma JoinIshl3(i: Rand64)
    ensures Join(Ishl3(i)) == (Join(i) * 8) % M64
  {
    hide Ishl3;
    Ishl3Parts(i);
    Remainder(Join(i) * 8, i.h / 0x2000_0000, Join(Ishl3(i)));
  }

  lemma JoinTimes9(i: Rand64)
    ensures Join(Times9(i)) == (Join(i) * 9) % M64
  {
    JoinIshl3(i);
    hide Iadd, Join, Ishl3;
    JoinIadd(Ishl3(i), i);
  }

  function PairScramble(i: Rand64): Rand64 {
    Times9(PairRotl7(Times5(i)))
  }

  lemma JoinScramble(i: Rand64)
    ensures Join(PairScramble(i)) == Scramble(Join(i))
  {
    hide Join, Times5, Times9, PairRotl7, Rotl7;
    JoinTimes5(i);
    JoinRotl7(Times5(i));
    JoinTimes9(PairRotl7(Times5(i)));
  }

  // ----- the generator on pairs -----

  ghost function Pairs(state: array<Rand64>): State
    requires state.Length == 4
    reads state
  {
    State(Join(state[0]), Join(state[1]), Join(state[2]), Join(state[3]))
  }

  /** `nextrand` on pairs: the same step and the same result as on 64-bit integers, from every state. */
  method PairNextRand(state: array<Rand64>) returns (res: Rand64)
    requires state.Length == 4
    modifies state
    ensures Pairs(state) == Next(old(Pairs(state))) && Join(res) == Scramble(Join(old(state[1])))
  {
    hide Join, Times5, Times9, PairRotl7, Scramble, Ixor, Xor64, Ishl17, Shl17, PairRotl45, Rotl45;
    JoinScramble(state[1]);
    JoinIshl17(state[1]);
    res := Times9(PairRotl7(Times5(state[1])));
    var t := Ishl17(state[1]);
    JoinIxor(state[2], state[0]);
    state[2] := Ixor(state[2], state[0]);
    JoinIxor(state[3], state[1]);
    state[3] := Ixor(state[3], state[1]);
    JoinIxor(state[1], state[2]);
    state[1] := Ixor(state[1], state[2]);
    JoinIxor(state[0], state[3]);
    state[0] := Ixor(state[0], state[3]);
    JoinIxor(state[2], t);
    state[2] := Ixor(state[2], t);
    JoinRotl45(state[3]);
    state[3] := PairRotl45(state[3]);
  }

  /** `setseed` on pairs */
  method PairSetSeed(state: array<Rand64>, n1: Word64, n2: Word64)
    requires state.Length == 4
    modifies state
    ensures Pairs(state) == Run(Seed(n1, n2), 16)
  {
    hide Next, Join, Int2I;
    JoinInt2I(n1);
    JoinInt2I(0xFF);
    JoinInt2I(n2);
    JoinInt2I(0);
    state[0], state[1], state[2], state[3] := Int2I(n1), Int2I(0xFF), Int2I(n2), Int2I(0);
    for i := 0 to 16
      invariant Pairs(state) == Run(Seed(n1, n2), i)
    {
      var res := PairNextRand(state);
    }
  }
}
