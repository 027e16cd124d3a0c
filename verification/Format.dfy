// The format of precompiled chunks, said without the dumper and the loader.

module Format {
  import opened Options
  import opened Chunk

  // ----- sizes -----

  // The number that groups of seven bits stand for, the highest group first; marks do not count.
  function Number7(s: seq<byte>): nat {
    if s == [] then 0 else Number7(s[..|s| - 1]) * 128 + s[|s| - 1] % 128
  }

  // Only the last byte is marked, and there are no more groups than the number needs.
  ghost predicate OneSize(s: seq<byte>) {
    && |s| >= 1 && s[|s| - 1] >= 128 && (forall i :: 0 <= i < |s| - 1 ==> s[i] < 128) && (|s| > 1 ==> s[0] != 0)
  }

  lemma LowBits(a: nat, b: nat)
    requires b < 128
    ensures (a * 128 + b) / 128 == a && (a * 128 + b) % 128 == b && (b + 128) % 128 == b
  {
  }

  lemma LastGroup(a: nat, b: byte)
    requires b < 128
    ensures a + b > 0 ==> Groups(a * 128 + b) == Groups(a) + [b]
    ensures SizeBytes(a * 128 + b) == Groups(a) + [b + 128]
  {
    LowBits(a, b);
  }

  lemma Number7Append(s: seq<byte>, b: byte)
    ensures Number7(s + [b]) == Number7(s) * 128 + b % 128
  {
    assert (s + [b])[..|s|] == s;
  }

  // Groups without marks and without a leading zero.
  ghost predicate Plain(s: seq<byte>) {
    (forall i :: 0 <= i < |s| ==> s[i] < 128) && (s != [] ==> s[0] != 0)
  }

  lemma {:induction false} GroupsMean(x: nat)
    ensures Number7(Groups(x)) == x && Plain(Groups(x)) && (x > 0 ==> Groups(x) != [])
  {
    if x > 0 {
      GroupsMean(x / 128);
      GroupsMore(x, Groups(x / 128), x % 128);
    }
  }

  lemma GroupsMore(x: nat, front: seq<byte>, last: byte)
    requires x > 0 && x / 128 == Number7(front) && x % 128 == last && Plain(front) && (x / 128 > 0 ==> front != [])
    ensures Number7(front + [last]) == x && Plain(front + [last])
  {
    Number7Append(front, last);
    hide Number7;
    assert front == [] ==> last == x;
  }

  /** A number is written in groups of seven bits, the highest first, as few as it needs; the last is marked. */
  lemma SizeMeans(x: nat)
    ensures OneSize(SizeBytes(x)) && Number7(SizeBytes(x)) == x
  {
    GroupsMean(x / 128);
    Number7Append(Groups(x / 128), x % 128 + 128);
    LowBits(0, x % 128);
    hide Number7, Groups;
  }

  // A number has only one such form, so these are its bytes.
  lemma SizeUnique(s: seq<byte>)
    requires OneSize(s)
    ensures s == SizeBytes(Number7(s))
  {
    var front, last: nat := s[..|s| - 1], s[|s| - 1] % 128;
    FrontGroups(front);
    assert s == front + [last + 128];
    assert Number7(s) == Number7(front) * 128 + last;
    hide Number7, Groups, OneSize, SizeBytes;
    LastGroup(Number7(front), last);
  }

  lemma {:induction false} FrontGroups(s: seq<byte>)
    requires Plain(s)
    ensures s == Groups(Number7(s)) && (s != [] ==> Number7(s) > 0)
  {
    if s != [] {
      var front, last := s[..|s| - 1], s[|s| - 1];
      FrontGroups(front);
      assert s == front + [last];
      assert Number7(s) == Number7(front) * 128 + last;
      assert front == [] ==> last > 0;
      hide Plain, Number7, Groups;
      LastGroup(Number7(front), last);
    }
  }

  // ----- constants -----

  // The types of values and their variants, as the header files number them.
  function TypeOf(c: Constant): byte {
    if c.Nil? then 0 else if c.False? || c.True? then 1 else if c.Integer? || c.Float? then 3 else 4
  }

  function VariantOf(c: Constant): byte {
    if c.True? || c.Float? || (c.Str? && |c.text| > 40) then 1 else 0
  }

  /** A constant's first byte is its type and, from the fifth bit on, the variant; what follows is the representation of
      a number, the size and the characters of a string, or nothing. */
  lemma ConstantMeans(c: Constant)
    ensures ConstantBytes(c) == [TypeOf(c) + 16 * VariantOf(c)] +
      (if c.Float? || c.Integer? then c.bits else if c.Str? then SizeBytes(|c.text| + 1) + c.text else [])
  {
    hide SizeBytes;
  }

  // ----- the order of the parts -----

  lemma SmallSize(x: nat)
    requires x < 128
    ensures SizeBytes(x) == [x + 128]
  {
  }

  lemma VectorOne<T>(x: T, enc: T -> seq<byte>)
    ensures Vector([x], enc) == [129] + enc(x)
  {
    SmallSize(1);
    assert [x][1..] == [];
    assert Each([x], enc) == enc(x) + [];
  }

  lemma VectorTwo<T>(x: T, y: T, enc: T -> seq<byte>)
    ensures Vector([x, y], enc) == [130] + (enc(x) + enc(y))
  {
    SmallSize(2);
    assert [x, y][1..] == [y] && [y][1..] == [];
    assert Each([y], enc) == enc(y) + [];
    assert Each([x, y], enc) == enc(x) + Each([y], enc);
  }

  lemma OneString(b: byte)
    ensures StringBytes(Some([b])) == [130, b]
  {
    SmallSize(2);
  }

  lemma OneHeader(h: Header)
    requires h.linedefined < 128 && h.lastlinedefined < 128
    ensures HeaderBytes(h) == [h.linedefined + 128, h.lastlinedefined + 128, h.numparams, h.isVararg, h.maxstacksize]
  {
    hide SizeBytes;
    SmallSize(h.linedefined);
    SmallSize(h.lastlinedefined);
  }

  lemma TwoConstants(d: Number, b: byte)
    ensures Vector([Integer(d), Str([b])], ConstantBytes) == [130, 3] + (d + [4, 130, b])
  {
    hide StringBytes, Vector;
    VectorTwo(Integer(d), Str([b]), ConstantBytes);
    OneString(b);
    assert ConstantBytes(Str([b])) == [4, 130, b];
    hide ConstantBytes;
    assert ConstantBytes(Integer(d)) == [3] + d by { ConstantMeans(Integer(d)); }
    assert [130] + (([3] + d) + [4, 130, b]) == [130, 3] + (d + [4, 130, b]);
  }

  lemma OneDebug(d: Debug, u: Upvaldesc, li: byte, pc: byte, ln: byte, v: byte, v0: byte, v1: byte, b: byte)
    requires pc < 128 && ln < 128 && v0 < 128 && v1 < 128
    requires d == Debug([li], [AbsLineInfo(pc, ln)], [LocVar(Some([v]), v0, v1)]) && u.name == Some([b])
    ensures DebugBytes(d, [u], false) ==
      [129, li] + ([129, pc + 128, ln + 128] + ([129, 130, v, v0 + 128, v1 + 128] + [129, 130, b]))
  {
    hide SizeBytes, StringBytes, Vector;
    VectorOne(li, OneByte);
    VectorOne(AbsLineInfo(pc, ln), AbsBytes);
    VectorOne(LocVar(Some([v]), v0, v1), LocVarBytes);
    VectorOne(u, NameBytes);
    OneString(v);
    OneString(b);
    SmallSize(pc);
    SmallSize(ln);
    SmallSize(v0);
    SmallSize(v1);
    assert [129] + AbsBytes(AbsLineInfo(pc, ln)) == [129, pc + 128, ln + 128];
    assert [129] + LocVarBytes(LocVar(Some([v]), v0, v1)) == [129, 130, v, v0 + 128, v1 + 128];
    assert [129] + NameBytes(u) == [129, 130, b];
    assert [129] + OneByte(li) == [129, li];
  }

  /** A function written out, with one thing of each sort in it and any small numbers. A size is the number itself and
      the mark 128. */
  lemma OneFunction(f: Proto<TString>, s: byte, i: Instruction, d: Number, t: byte, u: Upvaldesc, b: byte, li: byte,
                    pc: byte, ln: byte, v: byte, v0: byte, v1: byte)
    requires f.header.linedefined < 128 && f.header.lastlinedefined < 128 && pc < 128 && ln < 128 && v0 < 128
      && v1 < 128
    requires u.name == Some([b])
    requires f.debug == Debug([li], [AbsLineInfo(pc, ln)], [LocVar(Some([v]), v0, v1)])
    requires f == Proto(Some(TString(0, [s])), f.header, [i], [Integer(d), Str([t])], [u], [], f.debug)
    ensures FunctionBytes(f, false, None) ==
      [130, s] +
      ([f.header.linedefined + 128, f.header.lastlinedefined + 128, f.header.numparams, f.header.isVararg,
        f.header.maxstacksize] +
       (([129] + i) +
        (([130, 3] + (d + [4, 130, t])) +
         ([129, u.instack, u.idx, u.kind] +
          ([128] +
           ([129, li] + ([129, pc + 128, ln + 128] + ([129, 130, v, v0 + 128, v1 + 128] + [129, 130, b]))))))))
  {
    hide SizeBytes, StringBytes, Vector, HeaderBytes, DebugBytes;
    OneString(s);
    OneHeader(f.header);
    VectorOne(i, CodeBytes);
    TwoConstants(d, t);
    VectorOne(u, UpvalueBytes);
    assert [129] + UpvalueBytes(u) == [129, u.instack, u.idx, u.kind];
    SmallSize(0);
    OneDebug(f.debug, u, li, pc, ln, v, v0, v1, b);
    assert [] + DebugBytes(f.debug, [u], false) == DebugBytes(f.debug, [u], false);
  }

  // ----- stripped bytes -----

  // The same instructions, constants and variables, whatever the sources, lines and names.
  ghost predicate SameCode(f: Proto<TString>, g: Proto<TString>)
    decreases f
  {
    && f.header == g.header && f.code == g.code && f.k == g.k && SameUpvalues(f.upvalues, g.upvalues)
    && SameCodes(f.p, g.p)
  }

  ghost predicate SameUpvalues(us: seq<Upvaldesc>, ws: seq<Upvaldesc>) {
    && |us| == |ws|
    && forall i :: 0 <= i < |us| ==> us[i].instack == ws[i].instack && us[i].idx == ws[i].idx
                                     && us[i].kind == ws[i].kind
  }

  ghost predicate SameCodes(fs: seq<Proto<TString>>, gs: seq<Proto<TString>>)
    decreases fs
  {
    if fs == [] then gs == [] else gs != [] && SameCode(fs[0], gs[0]) && SameCodes(fs[1..], gs[1..])
  }

  lemma {:induction false} UpvaluesSame(us: seq<Upvaldesc>, ws: seq<Upvaldesc>)
    requires SameUpvalues(us, ws)
    ensures Each(us, UpvalueBytes) == Each(ws, UpvalueBytes)
  {
    if us != [] { UpvaluesSame(us[1..], ws[1..]); }
  }

  lemma {:induction false} StrippedForth(f: Proto<TString>, g: Proto<TString>, p: Option<TString>, q: Option<TString>)
    requires SameCode(f, g)
    ensures FunctionBytes(f, true, p) == FunctionBytes(g, true, q)
    decreases f
  {
    hide SizeBytes, Each, SameUpvalues;
    UpvaluesSame(f.upvalues, g.upvalues);
    SameCounts(f, g);
    StrippedAll(f.p, g.p, f.source, g.source);
  }

  lemma SameCounts(f: Proto<TString>, g: Proto<TString>)
    requires SameCode(f, g)
    ensures |f.upvalues| == |g.upvalues| && |f.p| == |g.p|
  {
    CountCodes(f.p, g.p);
  }

  lemma {:induction false} CountCodes(fs: seq<Proto<TString>>, gs: seq<Proto<TString>>)
    requires SameCodes(fs, gs)
    ensures |fs| == |gs|
    decreases fs
  {
    hide SameCode;
    if fs != [] { CountCodes(fs[1..], gs[1..]); }
  }

  lemma {:induction false} StrippedAll(fs: seq<Proto<TString>>, gs: seq<Proto<TString>>, p: Option<TString>,
                                       q: Option<TString>)
    requires SameCodes(fs, gs)
    ensures ProtosBytes(fs, true, p) == ProtosBytes(gs, true, q)
    decreases fs
  {
    hide FunctionBytes;
    if fs != [] {
      StrippedForth(fs[0], gs[0], p, q);
      StrippedAll(fs[1..], gs[1..], p, q);
    }
  }

  lemma {:induction false} BareSame(us: seq<Upvaldesc>, ws: seq<Upvaldesc>)
    requires Images(Bare, us) == Images(Bare, ws)
    ensures SameUpvalues(us, ws)
  {
    if us != [] {
      assert Images(Bare, us)[0] == Bare(us[0]) && Images(Bare, ws)[0] == Bare(ws[0]);
      assert Images(Bare, us)[1..] == Images(Bare, us[1..]) && Images(Bare, ws)[1..] == Images(Bare, ws[1..]);
      BareSame(us[1..], ws[1..]);
      forall i | 0 <= i < |us|
        ensures us[i].instack == ws[i].instack && us[i].idx == ws[i].idx && us[i].kind == ws[i].kind {
        if i > 0 { assert us[i] == us[1..][i - 1] && ws[i] == ws[1..][i - 1]; }
      }
    }
  }

  lemma {:induction false} StrippedBack(f: Proto<TString>, g: Proto<TString>, p: Option<TString>, q: Option<TString>,
                                        name: Option<seq<byte>>)
    requires ReadBack(f, true, p, name) == ReadBack(g, true, q, name)
    ensures SameCode(f, g)
    decreases f
  {
    hide SameUpvalues, Images;
    BareSame(f.upvalues, g.upvalues);
    StrippedBackAll(f.p, g.p, f.source, g.source, name);
  }

  lemma {:induction false} StrippedBackAll(fs: seq<Proto<TString>>, gs: seq<Proto<TString>>, p: Option<TString>,
                                           q: Option<TString>, name: Option<seq<byte>>)
    requires AllReadBack(fs, true, p, name) == AllReadBack(gs, true, q, name)
    ensures SameCodes(fs, gs)
    decreases fs
  {
    hide ReadBack, SameCode;
    if fs != [] {
      var r, z := AllReadBack(fs, true, p, name), AllReadBack(gs, true, q, name);
      assert r[0] == ReadBack(fs[0], true, p, name) && z[0] == ReadBack(gs[0], true, q, name);
      assert r[1..] == AllReadBack(fs[1..], true, p, name) && z[1..] == AllReadBack(gs[1..], true, q, name);
      StrippedBack(fs[0], gs[0], p, q, name);
      StrippedBackAll(fs[1..], gs[1..], p, q, name);
    }
  }

  /** Stripped, functions have the same bytes if and only if they have the same code: sources, lines and names are not
      in the bytes, and everything else is. */
  lemma StrippedSame(f: Proto<TString>, g: Proto<TString>)
    ensures FunctionBytes(f, true, None) == FunctionBytes(g, true, None) <==> SameCode(f, g)
  {
    hide *;
    if SameCode(f, g) { StrippedForth(f, g, None, None); }
    if FunctionBytes(f, true, None) == FunctionBytes(g, true, None) {
      assert FunctionBytes(f, true, None) + [] == FunctionBytes(g, true, None) + [];
      UniquelyDecodable(f, g, true, [], [], None);
      StrippedBack(f, g, None, None, None);
    }
  }
}
