// The dumper of precompiled chunks.

module Dump {
  import opened Chunk
  import Format
  import opened Options

  // The size of the buffer of `dumpSize`: room for 64 bits in groups of seven.
  const DIBS: nat := 10

  // The groups of a number, zero too.
  function Digits(x: nat): (s: seq<byte>)
    ensures |s| >= 1 && s[|s| - 1] < 128 && SizeBytes(x) == s[..|s| - 1] + [s[|s| - 1] + 128]
  {
    Groups(x / 128) + [x % 128]
  }

  lemma DigitsShift(x: nat, s: seq<byte>)
    ensures Digits(x) + s == (if x / 128 == 0 then [] else Digits(x / 128)) + ([x % 128] + s)
  {
  }

  lemma GroupsLength(x: nat)
    ensures x < 0x1_0000_0000_0000_0000 ==> |Digits(x)| <= DIBS
  {
    var x1 := x / 128;
    var x2 := x1 / 128;
    var x3 := x2 / 128;
    var x4 := x3 / 128;
    var x5 := x4 / 128;
    var x6 := x5 / 128;
    var x7 := x6 / 128;
    var x8 := x7 / 128;
    var x9 := x8 / 128;
    assert |Groups(x8)| <= 1 + |Groups(x9)| && |Groups(x7)| <= 1 + |Groups(x8)| && |Groups(x6)| <= 1 + |Groups(x7)|;
    assert |Groups(x5)| <= 1 + |Groups(x6)| && |Groups(x4)| <= 1 + |Groups(x5)| && |Groups(x3)| <= 1 + |Groups(x4)|;
    assert |Groups(x2)| <= 1 + |Groups(x3)| && |Groups(x1)| <= 1 + |Groups(x2)|;
    assert x < 0x1_0000_0000_0000_0000 ==> x9 < 2;
    assert |Groups(x9)| <= 1 || x9 >= 128;
  }

  // ----- writing -----

  /** What came out from state (`o`, `st`) to state (`p`, `su`), where `b` was to be written: all of it, or, when the
      writer failed on the way, some of it; nothing after an earlier failure. */
  predicate Written(o: seq<byte>, st: int, p: seq<byte>, su: int, b: seq<byte>) {
    if st != 0 then p == o && su == st
    else if su == 0 then p == o + b
    else o <= p <= o + b
  }

  lemma WrittenThen(o: seq<byte>, st: int, p: seq<byte>, su: int, b: seq<byte>, q: seq<byte>, sv: int, c: seq<byte>)
    requires Written(o, st, p, su, b) && Written(p, su, q, sv, c)
    ensures Written(o, st, q, sv, b + c)
  {
    Assoc(o, b, c);
  }

  lemma EachAppend<T>(xs: seq<T>, i: nat, enc: T -> seq<byte>)
    requires i < |xs|
    ensures Each(xs[..i + 1], enc) == Each(xs[..i], enc) + enc(xs[i])
  {
    if i == 0 {
      assert Each(xs[..1], enc) == enc(xs[0]) + Each(xs[..1][1..], enc);
    } else {
      assert xs[..i + 1][1..] == xs[1..][..i] && xs[..i][1..] == xs[1..][..i - 1];
      EachAppend(xs[1..], i - 1, enc);
      Assoc(enc(xs[0]), Each(xs[1..][..i - 1], enc), enc(xs[i]));
    }
  }

  lemma EachByte(s: seq<byte>)
    ensures Each(s, OneByte) == s
  {
    if s != [] {
      EachByte(s[1..]);
    }
  }

  // The last `n` places of the buffer hold the last groups of `x0`; those of `x` are missing before them.
  predicate Filling(x: nat, b: seq<byte>, n: nat, x0: nat) {
    |b| == DIBS && n <= DIBS && |Digits(x0)| <= DIBS && Digits(x) + b[DIBS - n..] == Digits(x0)
  }

  lemma FillStart(x0: nat, b: seq<byte>)
    requires x0 < 0x1_0000_0000_0000_0000 && |b| == DIBS
    ensures Filling(x0, b, 0, x0)
  {
    GroupsLength(x0);
  }

  lemma FillStep(x: nat, b: seq<byte>, n: nat, x0: nat)
    requires Filling(x, b, n, x0)
    ensures n < DIBS == |b|
    ensures var b' := b[DIBS - (n + 1) := x % 128];
      if x / 128 == 0 then b'[DIBS - (n + 1)..] == Digits(x0) else Filling(x / 128, b', n + 1, x0)
  {
    hide Digits, SizeBytes;
    assert |Digits(x)| >= 1;
    var b' := b[DIBS - (n + 1) := x % 128];
    DigitsShift(x, b[DIBS - n..]);
    assert b'[DIBS - (n + 1)..] == [x % 128] + b[DIBS - n..];
  }

  lemma FillEnd(b: seq<byte>, n: nat, x0: nat)
    requires |b| == DIBS && 0 < n <= DIBS && b[DIBS - n..] == Digits(x0)
    ensures b[DIBS - 1] < 128 && b[DIBS - 1 := b[DIBS - 1] + 128][DIBS - n..] == SizeBytes(x0)
  {
    hide SizeBytes;
    assert b[DIBS - 1] == Digits(x0)[n - 1];
  }

  class DumpState {
    const strip: bool
    // What the writer has taken, and what it last returned.
    var out: seq<byte>
    var status: int

    constructor (strip: bool)
      ensures this.strip == strip && out == [] && status == 0
    {
      this.strip, out, status := strip, [], 0;
    }

    // Some writer: it takes a block, or fails and takes a part of it.
    method Writer(b: seq<byte>) returns (error: int)
      modifies `out
      ensures Written(old(out), 0, out, error, b)
    {
      if * {
        out := out + b;
        error := 0;
      } else {
        var k: nat :| k <= |b|;
        out := out + b[..k];
        error := *;
        if error == 0 {
          error := 1;
        }
      }
    }

    // `dumpBlock`
    method DumpBlock(b: seq<byte>)
      modifies `out, `status
      ensures Written(old(out), old(status), out, status, b)
    {
      if status == 0 && |b| > 0 {
        status := Writer(b);
      }
    }

    /** `dumpSize`: the groups are put into a buffer from its end. */
    method DumpSize(x0: nat)
      requires x0 < 0x1_0000_0000_0000_0000
      modifies `out, `status
      ensures Written(old(out), old(status), out, status, SizeBytes(x0))
    {
      hide Written, Filling, Digits, SizeBytes;
      var buff := new byte[DIBS](i => 0);
      var x: nat, n := x0, 0;
      FillStart(x0, buff[..]);
      while true
        invariant Filling(x, buff[..], n, x0)
        invariant out == old(out) && status == old(status)
        decreases x
      {
        FillStep(x, buff[..], n, x0);
        n := n + 1;
        buff[DIBS - n] := x % 128;
        x := x / 128;
        if x == 0 {
          break;
        }
      }
      FillEnd(buff[..], n, x0);
      buff[DIBS - 1] := buff[DIBS - 1] + 128;
      assert buff[DIBS - n..] == buff[..][DIBS - n..];
      DumpBlock(buff[DIBS - n..]);
    }

    method DumpByte(b: byte)
      modifies `out, `status
      ensures Written(old(out), old(status), out, status, [b])
    {
      DumpBlock([b]);
    }

    /** `dumpString`; no string is a size of zero. */
    method DumpString(t: Option<seq<byte>>)
      requires StringFits(t, SIZE_T)
      modifies `out, `status
      ensures Written(old(out), old(status), out, status, StringBytes(t))
    {
      hide Written, SizeBytes;
      match t {
        case None => DumpSize(0);
        case Some(text) =>
          WhatFits(|text| + 1);
          DumpSize(|text| + 1);
          ghost var o, st := out, status;
          DumpBlock(text);
          WrittenThen(old(out), old(status), o, st, SizeBytes(|text| + 1), out, status, text);
      }
    }

    // A size and then a block.
    method DumpCounted(n: nat, block: seq<byte>)
      requires Fits(n, SIZE_T.ints)
      modifies `out, `status
      ensures Written(old(out), old(status), out, status, SizeBytes(n) + block)
    {
      hide Written, SizeBytes;
      WhatFits(n);
      DumpSize(n);
      ghost var o, st := out, status;
      DumpBlock(block);
      WrittenThen(old(out), old(status), o, st, SizeBytes(n), out, status, block);
    }

    // One round of `dumpConstants`. The first byte is the type of the constant and its variant.
    method DumpConstant(c: Constant)
      requires ConstantFits(c, SIZE_T)
      modifies `out, `status
      ensures Written(old(out), old(status), out, status, ConstantBytes(c))
      ensures old(status) == 0 && status == 0 ==>
        |out| > |old(out)| && out[|old(out)|] == Format.TypeOf(c) + 16 * Format.VariantOf(c)
    {
      hide Written, StringBytes;
      DumpByte(Tag(c));
      ghost var o, st := out, status;
      match c {
        case Float(bits) =>
          DumpBlock(bits);
          WrittenThen(old(out), old(status), o, st, [Tag(c)], out, status, bits);
        case Integer(bits) =>
          DumpBlock(bits);
          WrittenThen(old(out), old(status), o, st, [Tag(c)], out, status, bits);
        case Str(text) =>
          DumpString(Some(text));
          WrittenThen(old(out), old(status), o, st, [Tag(c)], out, status, StringBytes(Some(text)));
        case _ =>
      }
      if old(status) == 0 && status == 0 { FirstByte(old(out), old(status), c); }
    }

    lemma FirstByte(o: seq<byte>, st: int, c: Constant)
      requires Written(o, st, out, status, ConstantBytes(c)) && st == 0 && status == 0
      ensures |out| > |o| && out[|o|] == Format.TypeOf(c) + 16 * Format.VariantOf(c)
    {
      Format.ConstantMeans(c);
    }

    /** `dumpConstants` */
    method DumpConstants(k: seq<Constant>)
      requires VectorFits(Constants(SIZE_T), k, SIZE_T)
      modifies `out, `status
      ensures Written(old(out), old(status), out, status, Vector(k, ConstantBytes))
    {
      hide Written, SizeBytes, ConstantBytes;
      WhatFits(|k|);
      DumpSize(|k|);
      ghost var o, st := out, status;
      WrittenNone(o, st);
      for i := 0 to |k|
        invariant Written(o, st, out, status, Each(k[..i], ConstantBytes))
      {
        ghost var p, su := out, status;
        assert Constants(SIZE_T).fits(k[i]);
        DumpConstant(k[i]);
        WrittenThen(o, st, p, su, Each(k[..i], ConstantBytes), out, status, ConstantBytes(k[i]));
        EachAppend(k, i, ConstantBytes);
      }
      assert k[..|k|] == k;
      WrittenThen(old(out), old(status), o, st, SizeBytes(|k|), out, status, Each(k, ConstantBytes));
    }

    /** `dumpUpvalues` */
    method DumpUpvalues(us: seq<Upvaldesc>)
      requires VectorFits(UPVALUES, us, SIZE_T)
      modifies `out, `status
      ensures Written(old(out), old(status), out, status, Vector(us, UpvalueBytes))
    {
      hide Written, SizeBytes;
      WhatFits(|us|);
      DumpSize(|us|);
      ghost var o, st := out, status;
      WrittenNone(o, st);
      for i := 0 to |us|
        invariant Written(o, st, out, status, Each(us[..i], UpvalueBytes))
      {
        ghost var p, su := out, status;
        DumpThree(us[i].instack, us[i].idx, us[i].kind);
        WrittenThen(o, st, p, su, Each(us[..i], UpvalueBytes), out, status, UpvalueBytes(us[i]));
        EachAppend(us, i, UpvalueBytes);
      }
      assert us[..|us|] == us;
      WrittenThen(old(out), old(status), o, st, SizeBytes(|us|), out, status, Each(us, UpvalueBytes));
    }

    // Three bytes, one after the other.
    method DumpThree(a: byte, b: byte, c: byte)
      modifies `out, `status
      ensures Written(old(out), old(status), out, status, [a, b, c])
    {
      hide Written;
      DumpByte(a);
      ghost var o1, s1 := out, status;
      DumpByte(b);
      ghost var o2, s2 := out, status;
      DumpByte(c);
      WrittenThen(o1, s1, o2, s2, [b], out, status, [c]);
      WrittenThen(old(out), old(status), o1, s1, [a], out, status, [b] + [c]);
      assert [a] + ([b] + [c]) == [a, b, c];
    }

    method DumpAbsLineInfo(xs: seq<AbsLineInfo>)
      requires VectorFits(AbsLineInfos(SIZE_T), xs, SIZE_T)
      modifies `out, `status
      ensures Written(old(out), old(status), out, status, Vector(xs, AbsBytes))
    {
      hide Written, SizeBytes, Fits, AbsBytes;
      WhatFits(|xs|);
      DumpSize(|xs|);
      ghost var o, st := out, status;
      WrittenNone(o, st);
      for i := 0 to |xs|
        invariant Written(o, st, out, status, Each(xs[..i], AbsBytes))
      {
        ghost var p, su := out, status;
        assert AbsLineInfos(SIZE_T).fits(xs[i]);
        DumpAbs(xs[i]);
        WrittenThen(o, st, p, su, Each(xs[..i], AbsBytes), out, status, AbsBytes(xs[i]));
        EachAppend(xs, i, AbsBytes);
      }
      assert xs[..|xs|] == xs;
      WrittenThen(old(out), old(status), o, st, SizeBytes(|xs|), out, status, Each(xs, AbsBytes));
    }

    method DumpAbs(a: AbsLineInfo)
      requires AbsFits(a, SIZE_T)
      modifies `out, `status
      ensures Written(old(out), old(status), out, status, AbsBytes(a))
    {
      hide Written, SizeBytes;
      WhatFits(a.pc);
      WhatFits(a.line);
      DumpSize(a.pc);
      ghost var o, st := out, status;
      DumpSize(a.line);
      WrittenThen(old(out), old(status), o, st, SizeBytes(a.pc), out, status, SizeBytes(a.line));
    }

    method DumpLocVars(xs: seq<LocVar>)
      requires VectorFits(LocVars(SIZE_T), xs, SIZE_T)
      modifies `out, `status
      ensures Written(old(out), old(status), out, status, Vector(xs, LocVarBytes))
    {
      hide Written, SizeBytes, Fits, LocVarBytes;
      WhatFits(|xs|);
      DumpSize(|xs|);
      ghost var o, st := out, status;
      WrittenNone(o, st);
      for i := 0 to |xs|
        invariant Written(o, st, out, status, Each(xs[..i], LocVarBytes))
      {
        ghost var p, su := out, status;
        assert LocVars(SIZE_T).fits(xs[i]);
        DumpLocVar(xs[i]);
        WrittenThen(o, st, p, su, Each(xs[..i], LocVarBytes), out, status, LocVarBytes(xs[i]));
        EachAppend(xs, i, LocVarBytes);
      }
      assert xs[..|xs|] == xs;
      WrittenThen(old(out), old(status), o, st, SizeBytes(|xs|), out, status, Each(xs, LocVarBytes));
    }

    method DumpLocVar(v: LocVar)
      requires LocVarFits(v, SIZE_T)
      modifies `out, `status
      ensures Written(old(out), old(status), out, status, LocVarBytes(v))
    {
      hide Written, SizeBytes, StringBytes;
      WhatFits(v.startpc);
      WhatFits(v.endpc);
      DumpString(v.varname);
      ghost var o1, s1 := out, status;
      DumpSize(v.startpc);
      ghost var o2, s2 := out, status;
      DumpSize(v.endpc);
      WrittenThen(o1, s1, o2, s2, SizeBytes(v.startpc), out, status, SizeBytes(v.endpc));
      WrittenThen(old(out), old(status), o1, s1, StringBytes(v.varname), out, status,
                  SizeBytes(v.startpc) + SizeBytes(v.endpc));
    }

    method DumpNames(us: seq<Upvaldesc>)
      requires VectorFits(Names(SIZE_T), us, SIZE_T)
      modifies `out, `status
      ensures Written(old(out), old(status), out, status, Vector(us, NameBytes))
    {
      hide Written, SizeBytes, Fits, StringBytes;
      WhatFits(|us|);
      DumpSize(|us|);
      ghost var o, st := out, status;
      WrittenNone(o, st);
      for i := 0 to |us|
        invariant Written(o, st, out, status, Each(us[..i], NameBytes))
      {
        ghost var p, su := out, status;
        assert Names(SIZE_T).fits(us[i]);
        DumpString(us[i].name);
        WrittenThen(o, st, p, su, Each(us[..i], NameBytes), out, status, NameBytes(us[i]));
        EachAppend(us, i, NameBytes);
      }
      assert us[..|us|] == us;
      WrittenThen(old(out), old(status), o, st, SizeBytes(|us|), out, status, Each(us, NameBytes));
    }

    /** `dumpDebug` */
    method DumpDebug(d: Debug, us: seq<Upvaldesc>)
      requires DebugFits(d, us, strip, SIZE_T)
      modifies `out, `status
      ensures Written(old(out), old(status), out, status, DebugBytes(d, us, strip))
    {
      hide Written, SizeBytes, Each, AllFit, Fits, Kept;
      ghost var b0, b1, b2, b3 := Vector(Kept(strip, d.lineinfo), OneByte),
        Vector(Kept(strip, d.abslineinfo), AbsBytes),
        Vector(Kept(strip, d.locvars), LocVarBytes), Vector(Kept(strip, us), NameBytes);
      EachByte(Kept(strip, d.lineinfo));
      DumpCounted(|Kept(strip, d.lineinfo)|, Kept(strip, d.lineinfo));
      ghost var o1, s1 := out, status;
      DumpAbsLineInfo(Kept(strip, d.abslineinfo));
      ghost var o2, s2 := out, status;
      DumpLocVars(Kept(strip, d.locvars));
      ghost var o3, s3 := out, status;
      DumpNames(Kept(strip, us));
      WrittenThen(o2, s2, o3, s3, b2, out, status, b3);
      WrittenThen(o1, s1, o2, s2, b1, out, status, b2 + b3);
      WrittenThen(old(out), old(status), o1, s1, b0, out, status, b1 + (b2 + b3));
    }

    method DumpHeader(h: Header)
      requires HeaderFits(h, SIZE_T)
      modifies `out, `status
      ensures Written(old(out), old(status), out, status, HeaderBytes(h))
    {
      hide Written, SizeBytes;
      WhatFits(h.linedefined);
      WhatFits(h.lastlinedefined);
      DumpSize(h.linedefined);
      ghost var o1, s1 := out, status;
      DumpSize(h.lastlinedefined);
      ghost var o2, s2 := out, status;
      DumpThree(h.numparams, h.isVararg, h.maxstacksize);
      ghost var three := [h.numparams, h.isVararg, h.maxstacksize];
      WrittenThen(o1, s1, o2, s2, SizeBytes(h.lastlinedefined), out, status, three);
      WrittenThen(old(out), old(status), o1, s1, SizeBytes(h.linedefined), out, status,
                  SizeBytes(h.lastlinedefined) + three);
    }

    /** `dumpFunction` */
    method DumpFunction(f: Proto<TString>, parent: Option<TString>)
      requires FunctionFits(f, strip, parent, SIZE_T)
      modifies `out, `status
      ensures Written(old(out), old(status), out, status, FunctionBytes(f, strip, parent))
      decreases f
    {
      hide Written, SizeBytes, StringBytes, HeaderBytes, DebugBytes, ProtosBytes, DebugFits, VectorFits,
           ProtosFit, Each;
      DumpString(SourceText(f.source, strip, parent));
      ghost var o1, s1 := out, status;
      DumpHeader(f.header);
      ghost var o2, s2 := out, status;
      CodeFits(f);
      DumpCounted(|f.code|, Each(f.code, CodeBytes));
      ghost var o3, s3 := out, status;
      DumpConstants(f.k);
      ghost var o4, s4 := out, status;
      DumpUpvalues(f.upvalues);
      ghost var o5, s5 := out, status;
      WhatFits(|f.p|);
      DumpSize(|f.p|);
      ghost var o6, s6 := out, status;
      DumpProtos(f.p, f.source);
      ghost var o7, s7 := out, status;
      DumpDebug(f.debug, f.upvalues);
      ghost var b7 := DebugBytes(f.debug, f.upvalues, strip);
      ghost var b6 := ProtosBytes(f.p, strip, f.source) + b7;
      ghost var b5 := SizeBytes(|f.p|) + b6;
      ghost var b4 := Vector(f.upvalues, UpvalueBytes) + b5;
      ghost var b3 := Vector(f.k, ConstantBytes) + b4;
      ghost var b2 := Vector(f.code, CodeBytes) + b3;
      WrittenThen(o6, s6, o7, s7, ProtosBytes(f.p, strip, f.source), out, status, b7);
      WrittenThen(o5, s5, o6, s6, SizeBytes(|f.p|), out, status, b6);
      WrittenThen(o4, s4, o5, s5, Vector(f.upvalues, UpvalueBytes), out, status, b5);
      WrittenThen(o3, s3, o4, s4, Vector(f.k, ConstantBytes), out, status, b4);
      WrittenThen(o2, s2, o3, s3, Vector(f.code, CodeBytes), out, status, b3);
      WrittenThen(o1, s1, o2, s2, HeaderBytes(f.header), out, status, b2);
      WrittenThen(old(out), old(status), o1, s1, StringBytes(SourceText(f.source, strip, parent)), out, status,
                  HeaderBytes(f.header) + b2);
    }

    // The loop of `dumpProtos`
    method DumpProtos(ps: seq<Proto<TString>>, parent: Option<TString>)
      requires ProtosFit(ps, strip, parent, SIZE_T)
      modifies `out, `status
      ensures Written(old(out), old(status), out, status, ProtosBytes(ps, strip, parent))
      decreases ps
    {
      hide Written, FunctionBytes, FunctionFits;
      WrittenNone(out, status);
      for i := 0 to |ps|
        invariant Written(old(out), old(status), out, status, ProtosBytes(ps[..i], strip, parent))
      {
        ghost var o, st := out, status;
        ProtoFits(ps, i, strip, parent);
        DumpFunction(ps[i], parent);
        WrittenThen(old(out), old(status), o, st, ProtosBytes(ps[..i], strip, parent), out, status,
                    FunctionBytes(ps[i], strip, parent));
        ProtosAppend(ps, i, strip, parent);
      }
      assert ps[..|ps|] == ps;
    }

    /** `luaU_dump`, with the header's bytes given: what has come out, unless the writer failed, is the header, the
        number of upvalues and the function. */
    method Dump(f: Proto<TString>, header: seq<byte>) returns (error: int)
      requires FunctionFits(f, strip, None, SIZE_T) && |f.upvalues| < 256
      requires out == [] && status == 0
      modifies `out, `status
      ensures error == 0 ==> out == header + ([|f.upvalues|] + FunctionBytes(f, strip, None))
      ensures error != 0 ==> out <= header + ([|f.upvalues|] + FunctionBytes(f, strip, None))
    {
      hide FunctionBytes, FunctionFits;
      DumpBlock(header);
      ghost var o1, s1 := out, status;
      DumpByte(|f.upvalues|);
      ghost var o2, s2 := out, status;
      DumpFunction(f, None);
      WrittenThen(o1, s1, o2, s2, [|f.upvalues|], out, status, FunctionBytes(f, strip, None));
      WrittenThen([], 0, o1, s1, header, out, status, [|f.upvalues|] + FunctionBytes(f, strip, None));
      return status;
    }
  }

  lemma {:induction false} ProtoFits(ps: seq<Proto<TString>>, i: nat, strip: bool, parent: Option<TString>)
    requires i < |ps| && ProtosFit(ps, strip, parent, SIZE_T)
    ensures FunctionFits(ps[i], strip, parent, SIZE_T)
  {
    hide FunctionFits;
    if i > 0 {
      ProtoFits(ps[1..], i - 1, strip, parent);
    }
  }

  lemma {:induction false} ProtosAppend(ps: seq<Proto<TString>>, i: nat, strip: bool, parent: Option<TString>)
    requires i < |ps|
    ensures ProtosBytes(ps[..i + 1], strip, parent) == ProtosBytes(ps[..i], strip, parent)
      + FunctionBytes(ps[i], strip, parent)
  {
    hide FunctionBytes;
    if i == 0 {
      assert ps[..1][1..] == [];
    } else {
      assert ps[..i + 1][1..] == ps[1..][..i] && ps[..i][1..] == ps[1..][..i - 1];
      ProtosAppend(ps[1..], i - 1, strip, parent);
      Assoc(FunctionBytes(ps[0], strip, parent), ProtosBytes(ps[1..][..i - 1], strip, parent),
            FunctionBytes(ps[i], strip, parent));
    }
  }

  lemma CodeFits(f: Proto<TString>)
    requires VectorFits(CODE, f.code, SIZE_T)
    ensures Fits(|f.code|, SIZE_T.ints)
  {
  }

  lemma WrittenNone(o: seq<byte>, st: int)
    ensures Written(o, st, o, st, [])
  {
  }
}
