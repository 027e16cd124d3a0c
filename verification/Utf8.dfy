// UTF-8 sequences of up to six bytes: the encoder of escape sequences and the decoder of the `utf8` library.

module Utf8 {
  import opened Options

  const MAXUTF: bv32 := 0x7FFFFFFF
  const UTF8BUFFSZ: nat := 8

  // ----- the table of section 2 of RFC 2279 -----

  function Cont(x: bv32): bv8 {
    (0x80 | (x & 0x3F)) as bv8
  }

  // Without the lowest `k` groups of six bits.
  function Part(x: bv32, k: nat): bv32 {
    match k
    case 0 => x
    case 1 => x >> 6
    case 2 => x >> 12
    case 3 => x >> 18
    case 4 => x >> 24
    case _ => x >> 30
  }

  // The continuation bytes for the lowest `k` groups.
  function Tail(x: bv32, k: nat): (s: seq<bv8>)
    ensures |s| == k
  {
    if k == 0 then [] else [Cont(Part(x, k - 1))] + Tail(x, k - 1)
  }

  // The first byte in front of `k` continuation bytes.
  function Lead(x: bv32, k: nat): bv8 {
    match k
    case 0 => (x & 0x7F) as bv8
    case 1 => (0xC0 | ((x >> 6) & 0x1F)) as bv8
    case 2 => (0xE0 | ((x >> 12) & 0xF)) as bv8
    case 3 => (0xF0 | ((x >> 18) & 7)) as bv8
    case 4 => (0xF8 | ((x >> 24) & 3)) as bv8
    case _ => (0xFC | ((x >> 30) & 1)) as bv8
  }

  // The least value that needs `k` continuation bytes.
  function Least(k: nat): bv32 {
    match k
    case 0 => 0
    case 1 => 0x80
    case 2 => 0x800
    case 3 => 0x10000
    case 4 => 0x200000
    case _ => 0x4000000
  }

  // The number of continuation bytes of the shortest form.
  function Count(x: bv32): (k: nat)
    ensures k <= 5 && Least(k) <= x && forall j :: k < j <= 5 ==> x < Least(j)
  {
    if x < 0x80 then 0 else if x < 0x800 then 1 else if x < 0x10000 then 2 else if x < 0x200000 then 3
      else if x < 0x4000000 then 4 else 5
  }

  function Encode(x: bv32): seq<bv8>
    requires x <= MAXUTF
  {
    [Lead(x, Count(x))] + Tail(x, Count(x))
  }

  // The rows of the table, with the bits of the value shared out to the bytes.
  lemma Short(x: bv32)
    requires 0x80 <= x < 0x800
    ensures Encode(x) == [(0xC0 + (x >> 6)) as bv8, (0x80 + (x & 63)) as bv8]
  {
    hide Part;
    assert Part(x, 0) == x by { Parts(x); }
  }

  lemma Parts(x: bv32)
    ensures Part(x, 0) == x && Part(x, 1) == x >> 6
  {
  }

  lemma Known()
    ensures Encode(0x20AC) == [0xE2, 0x82, 0xAC] && Encode(0x10FFFF) == [0xF4, 0x8F, 0xBF, 0xBF]
    ensures Encode(0x3FFFFFF) == [0xFB, 0xBF, 0xBF, 0xBF, 0xBF]
    ensures Encode(0x7FFFFFFF) == [0xFD, 0xBF, 0xBF, 0xBF, 0xBF, 0xBF]
  {
  }

  // ----- the encoder -----

  // After `k` continuation bytes: what is left of the value, and the most that fits in a first byte now.
  predicate Partial(x0: bv32, x: bv32, mfb: bv32, k: nat) {
    k <= Count(x0) && x == Part(x0, k) && mfb == Fits(k)
  }

  function Fits(k: nat): bv32 {
    match k
    case 0 => 0x3F
    case 1 => 0x1F
    case 2 => 0xF
    case 3 => 7
    case 4 => 3
    case _ => 1
  }

  lemma PartialStep(x0: bv32, x: bv32, mfb: bv32, k: nat)
    requires Partial(x0, x, mfb, k) && k < Count(x0) && x0 <= MAXUTF
    ensures Partial(x0, x >> 6, mfb >> 1, k + 1)
  {
  }

  lemma PartialMore(x0: bv32, x: bv32, mfb: bv32, k: nat)
    requires Partial(x0, x, mfb, k) && k > 0 && x0 <= MAXUTF
    ensures x > mfb <==> k < Count(x0)
  {
  }

  lemma PartialCont(x0: bv32, x: bv32, mfb: bv32, k: nat)
    requires Partial(x0, x, mfb, k)
    ensures (0x80 | (x & 0x3F)) as bv8 == Cont(Part(x0, k))
  {
  }

  lemma PartialLead(x0: bv32, x: bv32, mfb: bv32, k: nat)
    requires Partial(x0, x, mfb, k) && k == Count(x0) > 0 && x0 <= MAXUTF
    ensures (((!mfb << 1) | x) & 0xFF) as bv8 == Lead(x0, k)
  {
  }

  lemma First(buff: array<bv8>, i: nat)
    requires i < buff.Length
    ensures buff[i..] == [buff[i]] + buff[i + 1..]
  {
  }

  /** `luaO_utf8esc`: the encoding ends at the end of the buffer. */
  method Utf8Esc(buff: array<bv8>, x0: bv32) returns (n: nat)
    requires buff.Length == UTF8BUFFSZ && x0 <= MAXUTF
    modifies buff
    ensures 1 <= n <= 6 && buff[UTF8BUFFSZ - n..] == Encode(x0)
    ensures forall i :: 0 <= i < UTF8BUFFSZ - n ==> buff[i] == old(buff[i])
  {
    hide Part, Lead, Cont, Fits, Count, Partial, Least, Tail, Encode;
    Assembled(x0);
    var x := x0;
    n := 1;
    if x < 0x80 {
      Ascii(x);
      buff[UTF8BUFFSZ - 1] := x as bv8;
    } else {
      var mfb: bv32 := 0x3F;
      Start(x);
      while true
        invariant 1 <= n <= 5 && Partial(x0, x, mfb, n - 1) && n - 1 < Count(x0)
        invariant buff[UTF8BUFFSZ - n + 1..] == Tail(x0, n - 1)
        invariant forall i :: 0 <= i <= UTF8BUFFSZ - n ==> buff[i] == old(buff[i])
        decreases 7 - n
      {
        PartialStep(x0, x, mfb, n - 1);
        PartialCont(x0, x, mfb, n - 1);
        buff[UTF8BUFFSZ - n] := (0x80 | (x & 0x3F)) as bv8;
        First(buff, UTF8BUFFSZ - n);
        OneMore(x0, n - 1);
        n := n + 1;
        x := x >> 6;
        mfb := mfb >> 1;
        PartialMore(x0, x, mfb, n - 1);
        if !(x > mfb) {
          break;
        }
      }
      PartialLead(x0, x, mfb, n - 1);
      buff[UTF8BUFFSZ - n] := (((!mfb << 1) | x) & 0xFF) as bv8;
      First(buff, UTF8BUFFSZ - n);
    }
  }

  lemma Assembled(x: bv32)
    requires x <= MAXUTF
    ensures Encode(x) == [Lead(x, Count(x))] + Tail(x, Count(x)) && Tail(x, 0) == []
  {
  }

  lemma OneMore(x: bv32, k: nat)
    ensures Tail(x, k + 1) == [Cont(Part(x, k))] + Tail(x, k)
  {
  }

  lemma Ascii(x: bv32)
    requires x < 0x80
    ensures Encode(x) == [x as bv8]
  {
  }

  lemma Start(x: bv32)
    requires x >= 0x80
    ensures Partial(x, x, 0x3F, 0) && Count(x) > 0
  {
  }

  // ----- the decoder -----

  // The byte at `i`; a zero stands behind the text.
  function At(s: seq<bv8>, i: nat): bv32 {
    if i < |s| then s[i] as bv32 else 0
  }

  // `iscont`
  predicate IsCont(c: bv32) {
    c & 0xC0 == 0x80
  }

  // The first byte has `k` ones behind the highest, which is one too.
  predicate Ones(c: bv32, k: nat) {
    match k
    case 0 => c & 0x80 == 0x80
    case 1 => c & 0xC0 == 0xC0
    case 2 => c & 0xE0 == 0xE0
    case 3 => c & 0xF0 == 0xF0
    case 4 => c & 0xF8 == 0xF8
    case 5 => c & 0xFC == 0xFC
    case 6 => c & 0xFE == 0xFE
    case _ => c & 0xFF == 0xFF
  }

  // The first byte announces `k` continuation bytes.
  predicate Announces(c: bv32, k: nat) {
    if k == 0 then c < 0x80 else Ones(c, k) && !Ones(c, k + 1)
  }

  // The bits of the first `k` continuation bytes.
  function Bits(s: seq<bv8>, k: nat): bv32 {
    if k == 0 then 0 else (Bits(s, k - 1) << 6) | (At(s, k) & 0x3F)
  }

  function Up(c: bv32, k: nat): bv32 {
    match k
    case 0 => c
    case 1 => c << 1
    case 2 => c << 2
    case 3 => c << 3
    case 4 => c << 4
    case 5 => c << 5
    case 6 => c << 6
    case _ => c << 7
  }

  // The first byte's bits, in place above `k` continuation bytes.
  function Top(c: bv32, k: nat): bv32 {
    match k
    case 0 => Up(c, 0) & 0x7F
    case 1 => (Up(c, 1) & 0x7F) << 5
    case 2 => (Up(c, 2) & 0x7F) << 10
    case 3 => (Up(c, 3) & 0x7F) << 15
    case 4 => (Up(c, 4) & 0x7F) << 20
    case _ => (Up(c, 5) & 0x7F) << 25
  }

  // The value of a first byte and the bits of `k` continuation bytes.
  function Whole(c: bv8, k: nat, bits: bv32): bv32 {
    bits | Top(c as bv32, k)
  }

  ghost predicate Conts(s: seq<bv8>, k: nat) {
    forall i :: 1 <= i <= k ==> IsCont(At(s, i))
  }

  lemma TailAt(x: bv32, k: nat, i: nat)
    requires i < k
    ensures Tail(x, k)[i] == Cont(Part(x, k - 1 - i))
  {
    if i > 0 {
      TailAt(x, k - 1, i - 1);
    }
  }

  lemma PartNext(x: bv32, k: nat)
    requires k < 5
    ensures Part(x, k + 1) == Part(x, k) >> 6
  {
    if k == 0 {
    } else if k == 1 {
    } else if k == 2 {
    } else if k == 3 {
    } else {
    }
  }

  // The lowest `i` groups.
  function Keep(y: bv32, i: nat): bv32 {
    match i
    case 0 => 0
    case 1 => y & 0x3F
    case 2 => y & 0xFFF
    case 3 => y & 0x3FFFF
    case 4 => y & 0xFFFFFF
    case _ => y & 0x3FFFFFFF
  }

  lemma KeepStep(y: bv32, i: nat)
    requires i < 5
    ensures Keep(y, i + 1) == (Keep(y >> 6, i) << 6) | (Cont(y) as bv32 & 0x3F)
  {
    if i == 0 {
    } else if i == 1 {
    } else if i == 2 {
    } else if i == 3 {
    } else {
    }
  }

  // The value has no more than `k` continuation bytes.
  predicate Small(x: bv32, k: nat) {
    match k
    case 0 => x < 0x80
    case 1 => x < 0x800
    case 2 => x < 0x10000
    case 3 => x < 0x200000
    case 4 => x < 0x4000000
    case _ => x <= MAXUTF
  }

  // The first byte announces its continuation bytes.
  lemma LeadAnnounces(x: bv32, k: nat)
    requires k <= 5
    ensures Announces(Lead(x, k) as bv32, k)
  {
    if k == 0 {
    } else if k == 1 {
    } else if k == 2 {
    } else if k == 3 {
    } else if k == 4 {
    } else {
    }
  }

  // The first byte and the groups make the value.
  lemma Recombined0(x: bv32)
    requires Small(x, 0)
    ensures Whole(Lead(x, 0), 0, Keep(x, 0)) == x
  {
  }

  lemma Recombined1(x: bv32)
    requires Small(x, 1)
    ensures Whole(Lead(x, 1), 1, Keep(x, 1)) == x
  {
  }

  lemma Recombined2(x: bv32)
    requires Small(x, 2)
    ensures Whole(Lead(x, 2), 2, Keep(x, 2)) == x
  {
  }

  lemma Recombined3(x: bv32)
    requires Small(x, 3)
    ensures Whole(Lead(x, 3), 3, Keep(x, 3)) == x
  {
  }

  lemma Recombined4(x: bv32)
    requires Small(x, 4)
    ensures Whole(Lead(x, 4), 4, Keep(x, 4)) == x
  {
  }

  lemma Recombined5(x: bv32)
    requires Small(x, 5)
    ensures Whole(Lead(x, 5), 5, Keep(x, 5)) == x
  {
  }

  lemma Recombined(x: bv32, k: nat)
    requires Small(x, k) && k <= 5
    ensures Whole(Lead(x, k), k, Keep(x, k)) == x
  {
    hide Whole, Lead, Keep, Small;
    if k == 0 { Recombined0(x); return; }
    if k == 1 { Recombined1(x); return; }
    if k == 2 { Recombined2(x); return; }
    if k == 3 { Recombined3(x); return; }
    if k == 4 { Recombined4(x); return; }
    Recombined5(x);
  }

  // One count only is announced.
  lemma AnnouncedOnce(c: bv32, k: nat, j: nat)
    requires c < 0x100 && k <= 5 && Announces(c, k) && j <= 7
    ensures Ones(c, j) <==> 0 < k && j <= k
  {
    if k == 0 {
    } else if k == 1 {
    } else if k == 2 {
    } else if k == 3 {
    } else if k == 4 {
    } else {
    }
  }

  // ----- what an encoding decodes to -----

  lemma EncodedAt(x: bv32, s: seq<bv8>, i: nat)
    requires x <= MAXUTF && Encode(x) <= s && i <= Count(x)
    ensures i < |s| && s[i] == if i == 0 then Lead(x, Count(x)) else Cont(Part(x, Count(x) - i))
  {
    hide Lead, Part, Cont, Count;
    assert s[i] == Encode(x)[i];
    if i > 0 {
      TailAt(x, Count(x), i - 1);
    }
  }

  lemma BitsStep(s: seq<bv8>, y: bv32, i: nat)
    requires i < 5 && Bits(s, i) == Keep(y >> 6, i) && i + 1 < |s| && s[i + 1] == Cont(y)
    ensures Bits(s, i + 1) == Keep(y, i + 1)
  {
    hide Keep, Cont;
    KeepStep(y, i);
  }

  lemma ContIsCont(x: bv32)
    ensures IsCont(Cont(x) as bv32)
  {
  }

  lemma {:induction false} EncodedBits(x: bv32, s: seq<bv8>, i: nat)
    requires x <= MAXUTF && Encode(x) <= s && i <= Count(x)
    ensures Bits(s, i) == Keep(Part(x, Count(x) - i), i) && Conts(s, i)
  {
    hide Part, Cont, Keep, Count, Encode, IsCont;
    if i == 0 {
      KeepNone(Part(x, Count(x)));
    } else {
      EncodedBits(x, s, i - 1);
      EncodedAt(x, s, i);
      ContIsCont(Part(x, Count(x) - i));
      PartNext(x, Count(x) - i);
      BitsStep(s, Part(x, Count(x) - i), i - 1);
    }
  }

  lemma KeepNone(y: bv32)
    ensures Keep(y, 0) == 0
  {
  }

  lemma CountSmall(x: bv32)
    requires x <= MAXUTF
    ensures Small(x, Count(x)) && Part(x, 0) == x
  {
  }

  /** An encoding announces its length, and the value is what its bytes hold. */
  lemma Encoded(x: bv32, s: seq<bv8>)
    requires x <= MAXUTF && Encode(x) <= s
    ensures var k := Count(x); k < |s| && Announces(At(s, 0), k) && Conts(s, k) && Whole(s[0], k, Bits(s, k)) == x
  {
    hide Part, Cont, Keep, Count, Encode, Announces, Conts, Whole, Small, Lead;
    var k := Count(x);
    EncodedAt(x, s, 0);
    EncodedAt(x, s, k);
    EncodedBits(x, s, k);
    LeadAnnounces(x, k);
    CountSmall(x);
    Recombined(x, k);
  }

  /** No encoding begins another. */
  lemma PrefixFree(x: bv32, y: bv32)
    requires x <= MAXUTF && y <= MAXUTF && Encode(x) <= Encode(y)
    ensures x == y
  {
    hide Encode, Announces, Conts, Whole, Count, Ones;
    Encoded(x, Encode(y));
    Encoded(y, Encode(y));
    SameCount(At(Encode(y), 0), Count(x), Count(y));
  }

  lemma SameCount(c: bv32, j: nat, k: nat)
    requires c < 0x100 && j <= 5 && k <= 5 && Announces(c, j) && Announces(c, k)
    ensures j == k
  {
    AnnouncedOnce(c, k, j);
    AnnouncedOnce(c, j, k);
    AnnouncedOnce(c, k, 1);
    AnnouncedOnce(c, j, 1);
  }

  // ----- what is decoded is an encoding -----

  predicate InBits(bits: bv32, k: nat) {
    Keep(bits, k) == bits
  }

  // One byte more than `bits` makes the lowest groups of `y`.
  predicate Grown(y: bv32, i: nat, bits: bv32, b: bv8) {
    Keep(y, i + 1) == (bits << 6) | (b as bv32 & 0x3F) && InBits(bits, i) && IsCont(b as bv32)
  }

  // So the byte and the bits are the groups.
  predicate Taken(y: bv32, i: nat, bits: bv32, b: bv8) {
    Cont(y) == b && Keep(y >> 6, i) == bits
  }

  lemma KeepBack0(y: bv32, bits: bv32, b: bv8)
    requires Grown(y, 0, bits, b)
    ensures Taken(y, 0, bits, b)
  {
  }

  lemma KeepBack1(y: bv32, bits: bv32, b: bv8)
    requires Grown(y, 1, bits, b)
    ensures Taken(y, 1, bits, b)
  {
  }

  lemma KeepBack2(y: bv32, bits: bv32, b: bv8)
    requires Grown(y, 2, bits, b)
    ensures Taken(y, 2, bits, b)
  {
  }

  lemma KeepBack3(y: bv32, bits: bv32, b: bv8)
    requires Grown(y, 3, bits, b)
    ensures Taken(y, 3, bits, b)
  {
  }

  lemma KeepBack4(y: bv32, bits: bv32, b: bv8)
    requires Grown(y, 4, bits, b)
    ensures Taken(y, 4, bits, b)
  {
  }

  lemma KeepBack(y: bv32, i: nat, bits: bv32, b: bv8)
    requires i < 5 && Grown(y, i, bits, b)
    ensures Taken(y, i, bits, b)
  {
    hide Grown, Taken;
    if i == 0 { KeepBack0(y, bits, b); return; }
    if i == 1 { KeepBack1(y, bits, b); return; }
    if i == 2 { KeepBack2(y, bits, b); return; }
    if i == 3 { KeepBack3(y, bits, b); return; }
    KeepBack4(y, bits, b);
  }

  // Bits of `k` bytes take `k` groups.
  lemma BitsFit(s: seq<bv8>, k: nat)
    requires k <= 5
    ensures InBits(Bits(s, k), k)
  {
    hide InBits;
    if k == 0 {
      NoBits();
    } else {
      BitsFit(s, k - 1);
      Pushed(Bits(s, k - 1), At(s, k), k - 1);
    }
  }

  lemma NoBits()
    ensures InBits(0, 0)
  {
  }

  predicate Longer(bits: bv32, b: bv32, k: nat) {
    InBits((bits << 6) | (b & 0x3F), k + 1)
  }

  lemma Pushed0(bits: bv32, b: bv32)
    requires InBits(bits, 0)
    ensures Longer(bits, b, 0)
  {
  }

  lemma Pushed1(bits: bv32, b: bv32)
    requires InBits(bits, 1)
    ensures Longer(bits, b, 1)
  {
  }

  lemma Pushed2(bits: bv32, b: bv32)
    requires InBits(bits, 2)
    ensures Longer(bits, b, 2)
  {
  }

  lemma Pushed3(bits: bv32, b: bv32)
    requires InBits(bits, 3)
    ensures Longer(bits, b, 3)
  {
  }

  lemma Pushed4(bits: bv32, b: bv32)
    requires InBits(bits, 4)
    ensures Longer(bits, b, 4)
  {
  }

  lemma Pushed(bits: bv32, b: bv32, k: nat)
    requires k < 5 && InBits(bits, k)
    ensures Longer(bits, b, k)
  {
    hide InBits, Longer;
    if k == 0 { Pushed0(bits, b); return; }
    if k == 1 { Pushed1(bits, b); return; }
    if k == 2 { Pushed2(bits, b); return; }
    if k == 3 { Pushed3(bits, b); return; }
    Pushed4(bits, b);
  }

  // What the first byte and the bits make.
  predicate Made(x: bv32, c: bv8, k: nat, bits: bv32) {
    Small(x, k) && Lead(x, k) == c && Keep(x, k) == bits
  }

  lemma Making1(c: bv8, bits: bv32)
    requires Announces(c as bv32, 1) && InBits(bits, 1)
    ensures Made(Whole(c, 1, bits), c, 1, bits)
  {
  }

  lemma Making2(c: bv8, bits: bv32)
    requires Announces(c as bv32, 2) && InBits(bits, 2)
    ensures Made(Whole(c, 2, bits), c, 2, bits)
  {
  }

  lemma Making3(c: bv8, bits: bv32)
    requires Announces(c as bv32, 3) && InBits(bits, 3)
    ensures Made(Whole(c, 3, bits), c, 3, bits)
  {
  }

  lemma Making4(c: bv8, bits: bv32)
    requires Announces(c as bv32, 4) && InBits(bits, 4)
    ensures Made(Whole(c, 4, bits), c, 4, bits)
  {
  }

  lemma Making5(c: bv8, bits: bv32)
    requires Announces(c as bv32, 5) && InBits(bits, 5)
    ensures Made(Whole(c, 5, bits), c, 5, bits)
  {
    Making5Small(c, bits);
    Making5Lead(c, bits);
    Making5Keep(c, bits);
    hide Announces, InBits, Whole, Small, Lead, Keep;
  }

  lemma Making5Small(c: bv8, bits: bv32)
    requires Announces(c as bv32, 5) && InBits(bits, 5)
    ensures Small(Whole(c, 5, bits), 5)
  {
  }

  lemma Making5Lead(c: bv8, bits: bv32)
    requires Announces(c as bv32, 5) && InBits(bits, 5)
    ensures Lead(Whole(c, 5, bits), 5) == c
  {
  }

  lemma Making5Keep(c: bv8, bits: bv32)
    requires Announces(c as bv32, 5) && InBits(bits, 5)
    ensures Keep(Whole(c, 5, bits), 5) == bits
  {
  }

  lemma Making(c: bv8, k: nat, bits: bv32)
    requires 1 <= k <= 5 && Announces(c as bv32, k) && InBits(bits, k)
    ensures Made(Whole(c, k, bits), c, k, bits)
  {
    hide Announces, InBits, Made, Whole;
    if k == 1 { Making1(c, bits); return; }
    if k == 2 { Making2(c, bits); return; }
    if k == 3 { Making3(c, bits); return; }
    if k == 4 { Making4(c, bits); return; }
    Making5(c, bits);
  }

  // Back from the bits of `k` bytes to those of `i`, and to the byte behind them.
  lemma {:induction false} BitsBack(s: seq<bv8>, x: bv32, k: nat, i: nat)
    requires i <= k <= 5 && k < |s| && Conts(s, k) && Keep(x, k) == Bits(s, k)
    ensures Keep(Part(x, k - i), i) == Bits(s, i) && (i < k ==> Cont(Part(x, k - i - 1)) == s[i + 1])
    decreases k - i
  {
    hide Part, Cont, IsCont, Grown, Taken;
    if i == k {
      PartNone(x);
    } else {
      BitsBack(s, x, k, i + 1);
      var y := Part(x, k - i - 1);
      BitsFit(s, i);
      PartNext(x, k - i - 1);
      BackStep(s, y, i);
    }
  }

  lemma PartNone(x: bv32)
    ensures Part(x, 0) == x
  {
  }

  lemma BackStep(s: seq<bv8>, y: bv32, i: nat)
    requires i < 5 && i + 1 < |s| && IsCont(At(s, i + 1)) && Keep(y, i + 1) == Bits(s, i + 1) && InBits(Bits(s, i), i)
    ensures Cont(y) == s[i + 1] && Keep(y >> 6, i) == Bits(s, i)
  {
    hide Keep, Cont, IsCont, InBits;
    KeepBack(y, i, Bits(s, i), s[i + 1]);
  }

  lemma CountOf(x: bv32, k: nat)
    requires k <= 5 && Small(x, k) && x >= Least(k)
    ensures x <= MAXUTF && Count(x) == k
  {
  }

  /** If the first byte announces its continuation bytes and the value needs so many, the bytes are its encoding. */
  lemma Decoded(s: seq<bv8>, k: nat)
    requires k <= 5 && k < |s| && Announces(s[0] as bv32, k) && Conts(s, k)
    requires Whole(s[0], k, Bits(s, k)) >= Least(k)
    ensures var x := Whole(s[0], k, Bits(s, k)); x <= MAXUTF && Encode(x) == s[..k + 1]
  {
    hide Part, Cont, Keep, Announces, Conts, Whole, Small, Lead, InBits, Bits, Least, Count;
    var x := Whole(s[0], k, Bits(s, k));
    if k == 0 {
      DecodedAscii(s);
    } else {
      BitsFit(s, k);
      Making(s[0], k, Bits(s, k));
      CountOf(x, k);
      forall i | 0 <= i < k ensures Tail(x, k)[i] == s[1..k + 1][i] {
        TailAt(x, k, i);
        BitsBack(s, x, k, i);
      }
      assert s[..k + 1] == [s[0]] + s[1..k + 1];
    }
  }

  lemma DecodedAscii(s: seq<bv8>)
    requires 0 < |s| && Announces(s[0] as bv32, 0)
    ensures var x := Whole(s[0], 0, Bits(s, 0)); x == s[0] as bv32 && x < 0x80 && Encode(x) == s[..1]
  {
  }

  // The test of the loop: one more bit of the first byte.
  predicate Goes(c: bv32) {
    c & 0x40 != 0
  }

  lemma OnesStep(c: bv32, k: nat)
    requires c < 0x100 && Ones(c, k) && k <= 7
    ensures Goes(Up(c, k)) <==> k < 7 && Ones(c, k + 1)
    ensures Up(c, k + 1) == Up(c, k) << 1 || k == 7
  {
    if k == 0 {
    } else if k == 1 {
    } else if k == 2 {
    } else if k == 3 {
    } else if k == 4 {
    } else if k == 5 {
    } else if k == 6 {
    } else {
    }
  }

  lemma TopShift(c: bv32, k: nat)
    requires k <= 5
    ensures (Up(c, k) & 0x7F) << (5 * k) == Top(c, k)
  {
    if k == 0 {
    } else if k == 1 {
    } else if k == 2 {
    } else if k == 3 {
    } else if k == 4 {
    } else {
    }
  }

  // Nothing is encoded here: a continuation byte is missing, or too many are announced, or none, or fewer would do.
  ghost predicate NoEncoding(s: seq<bv8>) {
    forall x :: x <= MAXUTF ==> !(Encode(x) <= s)
  }

  lemma Missing(s: seq<bv8>, k: nat)
    requires k <= 7 && Ones(At(s, 0), k) && k > 0 && (k <= 5 ==> !IsCont(At(s, k)))
    ensures NoEncoding(s)
  {
    hide Encode, Announces, Ones, Whole, Count;
    forall x | x <= MAXUTF ensures !(Encode(x) <= s) {
      if Encode(x) <= s {
        Encoded(x, s);
        AnnouncedOnce(At(s, 0), Count(x), k);
        assert false;
      }
    }
  }

  lemma Unannounced(s: seq<bv8>)
    requires Ones(At(s, 0), 0) && !Ones(At(s, 0), 1)
    ensures NoEncoding(s)
  {
    hide Encode, Announces, Ones, Whole, Count;
    forall x | x <= MAXUTF ensures !(Encode(x) <= s) {
      if Encode(x) <= s {
        Encoded(x, s);
        AnnouncedOnce(At(s, 0), Count(x), 0);
        AnnouncedOnce(At(s, 0), Count(x), 1);
        assert false;
      }
    }
  }

  lemma Overlong(s: seq<bv8>, k: nat)
    requires 0 < k <= 5 && 0 < |s| && Announces(s[0] as bv32, k) && Whole(s[0], k, Bits(s, k)) < Least(k)
    ensures NoEncoding(s)
  {
    hide Encode, Announces, Ones, Whole, Least;
    forall x | x <= MAXUTF ensures !(Encode(x) <= s) {
      if Encode(x) <= s {
        Encoded(x, s);
        SameCount(At(s, 0), Count(x), k);
        assert false;
      }
    }
  }

  // A continuation byte is no zero, so the text goes on.
  lemma ContInside(s: seq<bv8>, k: nat)
    requires Conts(s, k) && s != []
    ensures k < |s|
  {
    assert k >= |s| ==> !IsCont(At(s, k));
  }

  // After `k` continuation bytes.
  ghost predicate Reading(s: seq<bv8>, k: nat, c: bv32, res: bv32) {
    k <= 7 && Conts(s, k) && res == Bits(s, k) && c == Up(At(s, 0), k) && Ones(At(s, 0), k) && At(s, 0) < 0x100
  }

  lemma ReadingOn(s: seq<bv8>, k: nat, c: bv32, res: bv32)
    requires Reading(s, k, c, res)
    ensures Goes(c) <==> k < 7 && Ones(At(s, 0), k + 1)
    ensures Goes(c) && IsCont(At(s, k + 1)) ==> Reading(s, k + 1, c << 1, (res << 6) | (At(s, k + 1) & 0x3F))
    ensures Goes(c) && !IsCont(At(s, k + 1)) ==> NoEncoding(s)
  {
    hide Up, Goes, Ones, NoEncoding, IsCont, At;
    OnesStep(At(s, 0), k);
    if Goes(c) && !IsCont(At(s, k + 1)) {
      Missing(s, k + 1);
    }
  }

  /** The loop of `utf8_decode` over the continuation bytes. */
  method ReadConts(s: seq<bv8>) returns (ok: bool, count: nat, c: bv32, res: bv32)
    requires s != [] && At(s, 0) >= 0x80
    ensures !ok ==> NoEncoding(s)
    ensures ok ==> Reading(s, count, c, res) && (count < 7 ==> !Ones(At(s, 0), count + 1))
  {
    hide Reading, Ones, NoEncoding, At, IsCont, Goes;
    Beginning(s);
    c, count, res := At(s, 0), 0, 0;
    ReadingOn(s, count, c, res);
    while Goes(c)
      invariant Reading(s, count, c, res) && (Goes(c) <==> count < 7 && Ones(At(s, 0), count + 1))
      decreases 7 - count
    {
      ReadingOn(s, count, c, res);
      count := count + 1;
      var cc := At(s, count);
      if !IsCont(cc) {
        return false, count, c, res;
      }
      res := (res << 6) | (cc & 0x3F);
      c := c << 1;
      ReadingOn(s, count, c, res);
    }
    ok := true;
  }

  lemma Beginning(s: seq<bv8>)
    requires At(s, 0) >= 0x80
    ensures Reading(s, 0, At(s, 0), 0)
  {
  }

  predicate Enough(x: bv32, k: nat) {
    x >= Least(k)
  }

  // `res < limits[count]`
  predicate BelowLimit(x: bv32, k: nat) {
    if k == 0 then x < 0xFFFFFFFF else !Enough(x, k)
  }

  // The last test.
  predicate Passes(x: bv32, k: nat) {
    x <= MAXUTF && !BelowLimit(x, k)
  }

  lemma PassesAlone(x: bv32)
    ensures !Passes(x, 0)
  {
  }

  // What is read is an encoding, if it passes the last test; otherwise there is none.
  lemma Finished(s: seq<bv8>, k: nat, x: bv32)
    requires k <= 5 && k < |s| && Conts(s, k) && Ones(At(s, 0), k) && !Ones(At(s, 0), k + 1)
      && x == Whole(s[0], k, Bits(s, k))
    ensures if Passes(x, k) then x <= MAXUTF && Encode(x) == s[..k + 1] else NoEncoding(s)
  {
    hide Ones, Conts, Whole, Bits, NoEncoding, Encode, Least, Passes;
    if k == 0 {
      PassesAlone(x);
      Unannounced(s);
    } else if Enough(x, k) {
      EnoughPasses(x, k);
      Decoded(s, k);
    } else {
      EnoughPasses(x, k);
      Overlong(s, k);
    }
  }

  lemma EnoughPasses(x: bv32, k: nat)
    requires 0 < k <= 5
    ensures Passes(x, k) <==> x <= MAXUTF && Enough(x, k)
  {
    hide Enough;
  }

  // What the code makes of the first byte and the rest.
  function Combined(c: bv32, k: nat, res: bv32): bv32
    requires k <= 5
  {
    res | ((c & 0x7F) << (5 * k))
  }

  lemma CombinedWhole(c: bv8, k: nat, bits: bv32)
    requires k <= 5
    ensures Combined(Up(c as bv32, k), k, bits) == Whole(c, k, bits)
  {
    hide Up, Top;
    TopShift(c as bv32, k);
  }

  lemma WholeRead(s: seq<bv8>, k: nat, c: bv32, res: bv32)
    requires s != [] && Reading(s, k, c, res) && k <= 5
    ensures k < |s| && Combined(c, k, res) == Whole(s[0], k, Bits(s, k))
  {
    hide Up, Ones, Conts, Bits, Top, Whole, Combined;
    ContInside(s, k);
    CombinedWhole(s[0], k, res);
  }

  lemma DecodedOne(s: seq<bv8>)
    requires s != [] && At(s, 0) < 0x80
    ensures At(s, 0) <= MAXUTF && Encode(At(s, 0)) == s[..1]
  {
    DecodedAscii(s);
  }

  // More continuation bytes are announced than there may be.
  lemma TooMany(s: seq<bv8>, k: nat)
    requires 5 < k <= 7 && Ones(At(s, 0), k)
    ensures NoEncoding(s)
  {
    Missing(s, k);
  }

  /** `utf8_decode`, not strict: it finds the value whose encoding stands at the start of the text, if there is one. By
      `PrefixFree` there is only one. */
  method Utf8Decode(s: seq<bv8>) returns (r: Option<(bv32, nat)>)
    requires s != []
    ensures r.Some? ==> r.value.0 <= MAXUTF && r.value.1 <= |s| && Encode(r.value.0) == s[..r.value.1]
    ensures r.None? ==> forall x :: x <= MAXUTF ==> !(Encode(x) <= s)
  {
    hide Encode, Conts, Ones, Whole, Bits, Up, At, Combined;
    if At(s, 0) < 0x80 {
      DecodedOne(s);
      return Some((At(s, 0), 1));
    }
    var ok, count, c, res := ReadConts(s);
    if !ok {
      return None;
    }
    if count > 5 {
      TooMany(s, count);
      return None;
    }
    WholeRead(s, count, c, res);
    res := Combined(c, count, res);
    Finished(s, count, res);
    return if !Passes(res, count) then None else Some((res, count + 1));
  }
}
