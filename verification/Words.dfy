// Unsigned machine words as numbers, with exclusive or.

module Words {
  function Pow2(k: nat): (p: nat)
    ensures p > 0
  {
    if k == 0 then 1 else 2 * Pow2(k - 1)
  }

  lemma Power4(k: nat)
    ensures Pow2(k + 4) == 16 * Pow2(k)
  {
    assert Pow2(k + 2) == 4 * Pow2(k);
    assert Pow2(k + 4) == 4 * Pow2(k + 2);
  }

  lemma Power16(k: nat)
    ensures Pow2(k + 16) == 0x10000 * Pow2(k)
  {
    hide Pow2;
    Power4(k);
    Power4(k + 4);
    Power4(k + 8);
    Power4(k + 12);
  }

  lemma Powers()
    ensures Pow2(17) == 0x20000 && Pow2(32) == 0x1_0000_0000 && Pow2(47) == 0x8000_0000_0000
      && Pow2(64) == 0x1_0000_0000_0000_0000
  {
    Power16(0);
    Power16(16);
    Power16(32);
    Power16(48);
    assert Pow2(48) == 2 * Pow2(47);
  }

  // Exclusive or, bit by bit from the lowest.
  function Xor(x: nat, y: nat): nat {
    if x == 0 && y == 0 then 0 else (x + y) % 2 + 2 * Xor(x / 2, y / 2)
  }

  lemma {:induction false} XorZero(x: nat)
    ensures Xor(x, 0) == x
  {
    if x > 0 {
      XorZero(x / 2);
    }
  }

  lemma {:induction false} XorCommutes(x: nat, y: nat)
    ensures Xor(x, y) == Xor(y, x)
  {
    if x > 0 || y > 0 {
      XorCommutes(x / 2, y / 2);
    }
  }

  lemma XorHalves(x: nat, y: nat)
    ensures Xor(x, y) / 2 == Xor(x / 2, y / 2) && Xor(x, y) % 2 == (x + y) % 2
  {
  }

  lemma SameHalves(x: nat, y: nat)
    requires x / 2 == y / 2 && x % 2 == y % 2
    ensures x == y
  {
  }

  lemma SameParities(x: nat, y: nat, b: nat, d: nat)
    requires x % 2 == b % 2 && y % 2 == d % 2
    ensures (x + y) % 2 == (b + d) % 2
  {
  }

  lemma XorXorStep(x: nat, y: nat)
    requires Xor(Xor(x / 2, y / 2), y / 2) == x / 2
    ensures Xor(Xor(x, y), y) == x
  {
    hide Xor;
    XorHalves(x, y);
    XorHalves(Xor(x, y), y);
    SameParities(Xor(x, y), y, x + y, y);
    SameHalves(Xor(Xor(x, y), y), x);
  }

  lemma {:induction false} XorXor(x: nat, y: nat)
    ensures Xor(Xor(x, y), y) == x
  {
    if x > 0 || y > 0 {
      XorXor(x / 2, y / 2);
      XorXorStep(x, y);
    }
  }

  lemma AssociatesStep(x: nat, y: nat, z: nat)
    requires Xor(Xor(x / 2, y / 2), z / 2) == Xor(x / 2, Xor(y / 2, z / 2))
    ensures Xor(Xor(x, y), z) == Xor(x, Xor(y, z))
  {
    hide Xor;
    XorHalves(x, y);
    XorHalves(y, z);
    XorHalves(Xor(x, y), z);
    XorHalves(x, Xor(y, z));
    SameParities(Xor(x, y), z, x + y, z);
    SameParities(x, Xor(y, z), x, y + z);
    SameHalves(Xor(Xor(x, y), z), Xor(x, Xor(y, z)));
  }

  lemma {:induction false} XorAssociates(x: nat, y: nat, z: nat)
    ensures Xor(Xor(x, y), z) == Xor(x, Xor(y, z))
    decreases x + y + z
  {
    if x > 0 || y > 0 || z > 0 {
      XorAssociates(x / 2, y / 2, z / 2);
      AssociatesStep(x, y, z);
    }
  }

  lemma {:induction false} XorBound(x: nat, y: nat, k: nat)
    requires x < Pow2(k) && y < Pow2(k)
    ensures Xor(x, y) < Pow2(k)
  {
    if k > 0 {
      XorBound(x / 2, y / 2, k - 1);
    }
  }

  // A number of higher bits `a` and lower bits `b`.
  function Bits(a: nat, b: nat, k: nat): nat {
    a * Pow2(k) + b
  }

  lemma BitsHalves(a: nat, b: nat, k: nat)
    requires k > 0
    ensures Bits(a, b, k) / 2 == Bits(a, b / 2, k - 1) && Bits(a, b, k) % 2 == b % 2
  {
    assert a * Pow2(k) == 2 * (a * Pow2(k - 1));
  }

  // The bits below the lowest `k` and those above do not meet.
  lemma {:induction false} XorSplit(a: nat, b: nat, c: nat, d: nat, k: nat)
    requires b < Pow2(k) && d < Pow2(k)
    ensures Xor(Bits(a, b, k), Bits(c, d, k)) == Bits(Xor(a, c), Xor(b, d), k)
    decreases k
  {
    if k > 0 {
      SplitHalves(b, d, k);
      hide Bits, Xor, Pow2;
      BitsHalves(a, b, k);
      BitsHalves(c, d, k);
      BitsHalves(Xor(a, c), Xor(b, d), k);
      XorSplit(a, b / 2, c, d / 2, k - 1);
      XorHalves(Bits(a, b, k), Bits(c, d, k));
      XorHalves(b, d);
      SameParities(Bits(a, b, k), Bits(c, d, k), b, d);
      SameHalves(Xor(Bits(a, b, k), Bits(c, d, k)), Bits(Xor(a, c), Xor(b, d), k));
    } else {
      XorZero(0);
    }
  }

  lemma SplitHalves(b: nat, d: nat, k: nat)
    requires k > 0 && b < Pow2(k) && d < Pow2(k)
    ensures b / 2 < Pow2(k - 1) && d / 2 < Pow2(k - 1)
  {
  }
}
