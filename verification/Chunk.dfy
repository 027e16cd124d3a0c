// Precompiled chunks: function prototypes, their bytes, and how they are read back.

module Chunk {
  import opened Options

  type byte = x: nat | x < 256

  // Machine representations that are copied as they are.
  type Instruction = s: seq<byte> | |s| == 4 witness [0, 0, 0, 0]
  type Number = s: seq<byte> | |s| == 8 witness [0, 0, 0, 0, 0, 0, 0, 0]

  // A string object: one address, one text.
  datatype TString = TString(address: nat, text: seq<byte>)

  datatype Constant = Nil | False | True | Float(bits: Number) | Integer(bits: Number) | Str(text: seq<byte>)

  datatype Upvaldesc = Upvaldesc(name: Option<seq<byte>>, instack: byte, idx: byte, kind: byte)

  datatype AbsLineInfo = AbsLineInfo(pc: nat, line: nat)

  datatype LocVar = LocVar(varname: Option<seq<byte>>, startpc: nat, endpc: nat)

  datatype Header = Header(linedefined: nat, lastlinedefined: nat, numparams: byte, isVararg: byte, maxstacksize: byte)

  datatype Debug = Debug(lineinfo: seq<byte>, abslineinfo: seq<AbsLineInfo>, locvars: seq<LocVar>)

  // A function; `S` is how the name of its source is known.
  datatype Proto<S> = Proto(source: Option<S>, header: Header, code: seq<Instruction>, k: seq<Constant>,
                            upvalues: seq<Upvaldesc>,
    p: seq<Proto<S>>, debug: Debug)

  // ----- bytes -----

  // Groups of seven bits, the highest first.
  function Groups(x: nat): seq<byte> {
    if x == 0 then [] else Groups(x / 128) + [x % 128]
  }

  // The last group is marked.
  function SizeBytes(x: nat): (s: seq<byte>)
    ensures |s| >= 1
  {
    Groups(x / 128) + [x % 128 + 128]
  }

  function StringBytes(t: Option<seq<byte>>): seq<byte> {
    match t
    case None => SizeBytes(0)
    case Some(text) => SizeBytes(|text| + 1) + text
  }

  function Each<T>(xs: seq<T>, enc: T -> seq<byte>): seq<byte> {
    if xs == [] then [] else enc(xs[0]) + Each(xs[1..], enc)
  }

  // A number of things and then the things.
  function Vector<T>(xs: seq<T>, enc: T -> seq<byte>): seq<byte> {
    SizeBytes(|xs|) + Each(xs, enc)
  }

  const MAXSHORTLEN: nat := 40

  // The tag of a constant; the strings have two.
  function Tag(c: Constant): byte {
    match c
    case Nil => 0
    case False => 1
    case True => 17
    case Float(_) => 19
    case Integer(_) => 3
    case Str(text) => if |text| <= MAXSHORTLEN then 4 else 20
  }

  function ConstantBytes(c: Constant): seq<byte> {
    match c
    case Float(bits) => [Tag(c)] + bits
    case Integer(bits) => [Tag(c)] + bits
    case Str(text) => [Tag(c)] + StringBytes(Some(text))
    case _ => [Tag(c)]
  }

  function UpvalueBytes(u: Upvaldesc): seq<byte> {
    [u.instack, u.idx, u.kind]
  }

  function AbsBytes(a: AbsLineInfo): seq<byte> {
    SizeBytes(a.pc) + SizeBytes(a.line)
  }

  function LocVarBytes(v: LocVar): seq<byte> {
    StringBytes(v.varname) + (SizeBytes(v.startpc) + SizeBytes(v.endpc))
  }

  function NameBytes(u: Upvaldesc): seq<byte> {
    StringBytes(u.name)
  }

  function HeaderBytes(h: Header): seq<byte> {
    SizeBytes(h.linedefined) + (SizeBytes(h.lastlinedefined) + [h.numparams, h.isVararg, h.maxstacksize])
  }

  function CodeBytes(i: Instruction): seq<byte> {
    i
  }

  function OneByte(b: byte): seq<byte> {
    [b]
  }

  // What is left of the debug information when it is stripped.
  function Kept<T>(strip: bool, xs: seq<T>): seq<T> {
    if strip then [] else xs
  }

  function DebugBytes(d: Debug, upvalues: seq<Upvaldesc>, strip: bool): seq<byte> {
    Vector(Kept(strip, d.lineinfo), OneByte) + (Vector(Kept(strip, d.abslineinfo), AbsBytes) +
    (Vector(Kept(strip, d.locvars), LocVarBytes) + Vector(Kept(strip, upvalues), NameBytes)))
  }

  // The source is left out if it is the parent's.
  function SourceText(source: Option<TString>, strip: bool, parent: Option<TString>): Option<seq<byte>> {
    if strip || source == parent || source.None? then None else Some(source.value.text)
  }

  function FunctionBytes(f: Proto<TString>, strip: bool, parent: Option<TString>): seq<byte>
    decreases f
  {
    StringBytes(SourceText(f.source, strip, parent)) + (HeaderBytes(f.header) + (Vector(f.code, CodeBytes) +
    (Vector(f.k, ConstantBytes) + (Vector(f.upvalues, UpvalueBytes)
                                   + (SizeBytes(|f.p|) + (ProtosBytes(f.p, strip, f.source) +
    DebugBytes(f.debug, f.upvalues, strip)))))))
  }

  function ProtosBytes(ps: seq<Proto<TString>>, strip: bool, parent: Option<TString>): seq<byte>
    decreases ps
  {
    if ps == [] then [] else FunctionBytes(ps[0], strip, parent) + ProtosBytes(ps[1..], strip, parent)
  }

  // ----- reading -----

  // What a reader finds, with the rest of the bytes; or an error.
  datatype Loaded<+T> = Bad | Got(value: T, rest: seq<byte>) {
    predicate IsFailure() {
      Bad?
    }

    function PropagateFailure<U>(): Loaded<U>
      requires Bad?
    {
      Bad
    }

    function Extract(): (T, seq<byte>)
      requires Got?
    {
      (value, rest)
    }
  }

  // Readers do not go back.
  predicate Onward<T>(r: Loaded<T>, s: seq<byte>) {
    r.Got? ==> |r.rest| <= |s|
  }

  const INT_MAX: nat := 0x7FFF_FFFF
  const MAX_SIZET: nat := 0xFFFF_FFFF_FFFF_FFFF

  // Strings are shorter than this.
  const MAX_SIZE: nat := 0x7FFF_FFFF_FFFF_FFFF

  // The limits of a reader, for integers and for sizes.
  datatype Limits = Limits(ints: Option<nat>, sizes: Option<nat>) {
    predicate Ok() {
      (ints.Some? ==> ints.value >= 128) && (sizes.Some? ==> sizes.value >= 128)
    }
  }

  // Those of `loadInt` and `loadSize`, and those of a reader that knows no limits.
  const LUA: Limits := Limits(Some(INT_MAX), Some(MAX_SIZET))
  const NONE: Limits := Limits(None, None)

  function LoadByte(s: seq<byte>): (r: Loaded<byte>)
    ensures r.Got? ==> |r.rest| < |s|
  {
    if s == [] then Bad else Got(s[0], s[1..])
  }

  // The loop of `loadUnsigned`; `limit` is the shifted one.
  function LoadGroups(s: seq<byte>, x: nat, limit: Option<nat>): (r: Loaded<nat>)
    ensures r.Got? ==> |r.rest| < |s|
    decreases |s|
  {
    if s == [] || (limit.Some? && x >= limit.value) then Bad
    else if s[0] >= 128 then Got(x * 128 + s[0] % 128, s[1..])
    else LoadGroups(s[1..], x * 128 + s[0], limit)
  }

  function Shifted(limit: Option<nat>): Option<nat> {
    if limit.Some? then Some(limit.value / 128) else None
  }

  function LoadUnsigned(s: seq<byte>, limit: Option<nat>): (r: Loaded<nat>)
    ensures r.Got? ==> |r.rest| < |s|
  {
    LoadGroups(s, 0, Shifted(limit))
  }

  function LoadInt(s: seq<byte>, m: Limits): (r: Loaded<nat>)
    ensures r.Got? ==> |r.rest| < |s|
  {
    LoadUnsigned(s, m.ints)
  }

  function LoadBlock(s: seq<byte>, n: nat): (r: Loaded<seq<byte>>)
    ensures Onward(r, s)
  {
    if n > |s| then Bad else Got(s[..n], s[n..])
  }

  function LoadStringN(s: seq<byte>, m: Limits): (r: Loaded<Option<seq<byte>>>)
    ensures r.Got? ==> |r.rest| < |s|
  {
    var size :- LoadUnsigned(s, m.sizes);
    if size.0 == 0 then Got(None, size.1)
    else
      var text :- LoadBlock(size.1, size.0 - 1);
      Got(Some(text.0), text.1)
  }

  function LoadEach<T>(s: seq<byte>, n: nat, dec: seq<byte> -> Loaded<T>): (r: Loaded<seq<T>>)
    requires forall t :: Onward(dec(t), t)
    ensures Onward(r, s) && (r.Got? ==> |r.value| == n)
    decreases n
  {
    if n == 0 then Got([], s)
    else
      var x :- dec(s);
      assert Onward(dec(s), s);
      var xs :- LoadEach(x.1, n - 1, dec);
      Got([x.0] + xs.0, xs.1)
  }

  function LoadVector<T>(s: seq<byte>, m: Limits, dec: seq<byte> -> Loaded<T>): (r: Loaded<seq<T>>)
    requires forall t :: Onward(dec(t), t)
    ensures Onward(r, s)
  {
    var n :- LoadInt(s, m);
    LoadEach(n.1, n.0, dec)
  }

  // An unknown tag leaves the constant as it was made: nil.
  function LoadConstant(s: seq<byte>, m: Limits): (r: Loaded<Constant>)
    ensures Onward(r, s)
  {
    var tag :- LoadByte(s);
    match tag.0
    case 1 => Got(False, tag.1)
    case 17 => Got(True, tag.1)
    case 19 => (var bits :- LoadBlock(tag.1, 8); Got(Float(bits.0), bits.1))
    case 3 => (var bits :- LoadBlock(tag.1, 8); Got(Integer(bits.0), bits.1))
    case _ =>
      if tag.0 == 4 || tag.0 == 20 then
        var text :- LoadStringN(tag.1, m);
        if text.0.None? then Bad else Got(Str(text.0.value), text.1)
      else Got(Nil, tag.1)
  }

  function LoadInstruction(s: seq<byte>): (r: Loaded<Instruction>)
    ensures Onward(r, s)
  {
    var b :- LoadBlock(s, 4);
    Got(b.0, b.1)
  }

  function LoadOne(s: seq<byte>): (r: Loaded<byte>)
    ensures Onward(r, s)
  {
    LoadByte(s)
  }

  function LoadUpvalue(s: seq<byte>): (r: Loaded<Upvaldesc>)
    ensures Onward(r, s)
  {
    var b :- LoadBlock(s, 3);
    Got(Upvaldesc(None, b.0[0], b.0[1], b.0[2]), b.1)
  }

  function LoadAbs(s: seq<byte>, m: Limits): (r: Loaded<AbsLineInfo>)
    ensures Onward(r, s)
  {
    var pc :- LoadInt(s, m);
    var line :- LoadInt(pc.1, m);
    Got(AbsLineInfo(pc.0, line.0), line.1)
  }

  function LoadLocVar(s: seq<byte>, m: Limits): (r: Loaded<LocVar>)
    ensures Onward(r, s)
  {
    var name :- LoadStringN(s, m);
    var startpc :- LoadInt(name.1, m);
    var endpc :- LoadInt(startpc.1, m);
    Got(LocVar(name.0, startpc.0, endpc.0), endpc.1)
  }

  function LoadName(s: seq<byte>, m: Limits): (r: Loaded<Option<seq<byte>>>)
    ensures Onward(r, s)
  {
    LoadStringN(s, m)
  }

  function LoadHeader(s: seq<byte>, m: Limits): (r: Loaded<Header>)
    ensures Onward(r, s)
  {
    var line :- LoadInt(s, m);
    var last :- LoadInt(line.1, m);
    var b :- LoadBlock(last.1, 3);
    Got(Header(line.0, last.0, b.0[0], b.0[1], b.0[2]), b.1)
  }

  // ----- numbers are read back, if they are not too near the limit -----

  predicate Fits(x: nat, limit: Option<nat>) {
    limit.Some? ==> x / 128 < limit.value / 128
  }

  lemma GroupsAppend(x: nat, t: seq<byte>)
    requires x > 0
    ensures Groups(x) + t == Groups(x / 128) + ([x % 128] + t)
  {
  }

  lemma {:induction false} GroupsLoad(x: nat, t: seq<byte>, limit: Option<nat>)
    requires limit.Some? ==> limit.value > 0
    ensures LoadGroups(Groups(x) + t, 0, limit) ==
              if limit.Some? ==> x / 128 < limit.value then LoadGroups(t, x, limit) else Bad
  {
    if x == 0 {
      assert Groups(0) + t == t;
    } else {
      GroupsAppend(x, t);
      GroupsLoad(x / 128, [x % 128] + t, limit);
      assert ([x % 128] + t)[1..] == t;
    }
  }

  /** A number is read back exactly if it is less than the limit without its last seven bits; else reading it is an
      error. */
  lemma SizeLoads(x: nat, t: seq<byte>, limit: Option<nat>)
    requires limit.Some? ==> limit.value >= 128
    ensures LoadUnsigned(SizeBytes(x) + t, limit) == if Fits(x, limit) then Got(x, t) else Bad
  {
    var last := [x % 128 + 128];
    GroupsLoad(x / 128, last + t, Shifted(limit));
    assert SizeBytes(x) + t == Groups(x / 128) + (last + t);
    assert (last + t)[1..] == t;
  }

  // Those of numbers of 64 bits.
  const SIZE_T: Limits := Limits(Some(0x1_0000_0000_0000_0000), Some(0x1_0000_0000_0000_0000))

  // What fits the limits.
  lemma WhatFits(x: nat)
    ensures Fits(x, LUA.ints) <==> x < 0x7FFF_FF80
    ensures Fits(x, LUA.sizes) <==> x < 0xFFFF_FFFF_FFFF_FF80
    ensures Fits(x, NONE.ints) && Fits(x, NONE.sizes) && (Fits(x, SIZE_T.ints) <==> x < 0x1_0000_0000_0000_0000)
  {
  }

  /** An `int` that was written is read back if and only if it is not one of the last 128; those are an error. */
  lemma IntLoads(x: nat, t: seq<byte>)
    requires x <= INT_MAX
    ensures LoadInt(SizeBytes(x) + t, LUA) == if x < 0x7FFF_FF80 then Got(x, t) else Bad
  {
    hide LoadUnsigned, SizeBytes;
    SizeLoads(x, t, LUA.ints);
    WhatFits(x);
  }

  /** No number's bytes begin another's. */
  lemma SizePrefixFree(x: nat, y: nat, t: seq<byte>, u: seq<byte>)
    requires SizeBytes(x) + t == SizeBytes(y) + u
    ensures x == y && t == u
  {
    SizeLoads(x, t, None);
    SizeLoads(y, u, None);
  }

  predicate StringFits(t: Option<seq<byte>>, m: Limits) {
    t.Some? ==> Fits(|t.value| + 1, m.sizes)
  }

  lemma Assoc(a: seq<byte>, b: seq<byte>, c: seq<byte>)
    ensures (a + b) + c == a + (b + c)
  {
  }

  lemma StringLoads(x: Option<seq<byte>>, t: seq<byte>, m: Limits)
    requires m.Ok()
    ensures LoadStringN(StringBytes(x) + t, m) == if StringFits(x, m) then Got(x, t) else Bad
  {
    hide LoadUnsigned, SizeBytes;
    match x {
      case None => SizeLoads(0, t, m.sizes);
      case Some(text) =>
        Assoc(SizeBytes(|text| + 1), text, t);
        SizeLoads(|text| + 1, text + t, m.sizes);
        assert (text + t)[..|text|] == text && (text + t)[|text|..] == t;
    }
  }

  /** Every string that there can be is read back. */
  lemma HeldStringLoads(x: Option<seq<byte>>, t: seq<byte>)
    requires x.Some? ==> |x.value| < MAX_SIZE
    ensures LoadStringN(StringBytes(x) + t, LUA) == Got(x, t)
  {
    hide StringBytes, LoadStringN;
    StringLoads(x, t, LUA);
    if x.Some? { WhatFits(|x.value| + 1); }
  }

  // ----- things are read back, if their numbers are -----

  // How a thing is written and read, when it can be read, and what is read then.
  datatype Codec<!T(!new), !U> = Codec(enc: T -> seq<byte>, dec: seq<byte> -> Loaded<U>, fits: T -> bool, img: T -> U) {
    ghost predicate Ok() {
      && (forall t :: Onward(dec(t), t))
      && forall x, t :: dec(enc(x) + t) == if fits(x) then Got(img(x), t) else Bad
    }
  }

  ghost predicate AllFit<T(!new), U>(c: Codec<T, U>, xs: seq<T>) {
    forall i :: 0 <= i < |xs| ==> c.fits(xs[i])
  }

  function Images<T, U>(img: T -> U, xs: seq<T>): seq<U> {
    if xs == [] then [] else [img(xs[0])] + Images(img, xs[1..])
  }

  lemma {:induction false} EachLoads<T(!new), U>(c: Codec<T, U>, xs: seq<T>, t: seq<byte>)
    requires c.Ok()
    ensures LoadEach(Each(xs, c.enc) + t, |xs|, c.dec) == if AllFit(c, xs) then Got(Images(c.img, xs), t) else Bad
  {
    if xs == [] {
      assert Each(xs, c.enc) + t == t;
    } else {
      var later := Each(xs[1..], c.enc) + t;
      Assoc(c.enc(xs[0]), Each(xs[1..], c.enc), t);
      assert c.dec(c.enc(xs[0]) + later) == if c.fits(xs[0]) then Got(c.img(xs[0]), later) else Bad;
      EachLoads(c, xs[1..], t);
      assert AllFit(c, xs) <==> c.fits(xs[0]) && AllFit(c, xs[1..]);
    }
  }

  ghost predicate VectorFits<T(!new), U>(c: Codec<T, U>, xs: seq<T>, m: Limits) {
    Fits(|xs|, m.ints) && AllFit(c, xs)
  }

  lemma VectorLoads<T(!new), U>(c: Codec<T, U>, xs: seq<T>, t: seq<byte>, m: Limits)
    requires c.Ok() && m.Ok()
    ensures LoadVector(Vector(xs, c.enc) + t, m, c.dec) == if VectorFits(c, xs, m) then Got(Images(c.img, xs), t)
      else Bad
  {
    hide SizeBytes, LoadUnsigned, Each, LoadEach;
    Assoc(SizeBytes(|xs|), Each(xs, c.enc), t);
    SizeLoads(|xs|, Each(xs, c.enc) + t, m.ints);
    EachLoads(c, xs, t);
  }

  function Same<T>(x: T): T {
    x
  }

  predicate Always<T>(x: T) {
    true
  }

  lemma ImagesSame<T>(xs: seq<T>)
    ensures Images(Same, xs) == xs
  {
    if xs != [] {
      ImagesSame(xs[1..]);
    }
  }

  const BYTES: Codec<byte, byte> := Codec(OneByte, LoadOne, Always, Same)
  const CODE: Codec<Instruction, Instruction> := Codec(CodeBytes, LoadInstruction, Always, Same)

  lemma BytesOk()
    ensures BYTES.Ok()
  {
    forall x: byte, t ensures BYTES.dec(BYTES.enc(x) + t) == Got(x, t) {
      assert ([x] + t)[1..] == t;
    }
    assert forall t :: BYTES.dec(t) == LoadOne(t);
  }

  lemma BlockLoads(b: seq<byte>, t: seq<byte>)
    ensures LoadBlock(b + t, |b|) == Got(b, t)
  {
    assert (b + t)[..|b|] == b && (b + t)[|b|..] == t;
  }

  lemma CodeOk()
    ensures CODE.Ok()
  {
    forall x: Instruction, t ensures CODE.dec(CODE.enc(x) + t) == Got(x, t) {
      BlockLoads(x, t);
    }
    assert forall t :: CODE.dec(t) == LoadInstruction(t);
  }

  predicate ConstantFits(c: Constant, m: Limits) {
    c.Str? ==> StringFits(Some(c.text), m)
  }

  function LoadConstantWith(m: Limits): seq<byte> -> Loaded<Constant> {
    s => LoadConstant(s, m)
  }

  function Constants(m: Limits): Codec<Constant, Constant> {
    Codec(ConstantBytes, LoadConstantWith(m), x => ConstantFits(x, m), Same)
  }

  lemma ConstantLoads(c: Constant, t: seq<byte>, m: Limits)
    requires m.Ok()
    ensures LoadConstant(ConstantBytes(c) + t, m) == if ConstantFits(c, m) then Got(c, t) else Bad
  {
    hide LoadStringN, StringBytes, LoadBlock;
    match c {
      case Str(text) =>
        Assoc([Tag(c)], StringBytes(Some(text)), t);
        StringLoads(Some(text), t, m);
        TagLoads(Tag(c), StringBytes(Some(text)) + t);
      case Float(bits) =>
        Assoc([Tag(c)], bits, t);
        BlockLoads(bits, t);
        TagLoads(Tag(c), bits + t);
      case Integer(bits) =>
        Assoc([Tag(c)], bits, t);
        BlockLoads(bits, t);
        TagLoads(Tag(c), bits + t);
      case _ =>
        TagLoads(Tag(c), t);
    }
  }

  lemma TagLoads(b: byte, t: seq<byte>)
    ensures LoadByte([b] + t) == Got(b, t)
  {
    assert ([b] + t)[1..] == t;
  }

  lemma ConstantsOk(m: Limits)
    requires m.Ok()
    ensures Constants(m).Ok()
  {
    hide ConstantBytes;
    forall c: Constant, t
      ensures Constants(m).dec(Constants(m).enc(c) + t) == if Constants(m).fits(c) then Got(c, t) else Bad {
      ConstantLoads(c, t, m);
    }
    assert forall t :: Constants(m).dec(t) == LoadConstant(t, m);
  }

  function Bare(u: Upvaldesc): Upvaldesc {
    u.(name := None)
  }

  const UPVALUES: Codec<Upvaldesc, Upvaldesc> := Codec(UpvalueBytes, LoadUpvalue, Always, Bare)

  lemma UpvaluesOk()
    ensures UPVALUES.Ok()
  {
    forall u: Upvaldesc, t ensures UPVALUES.dec(UPVALUES.enc(u) + t) == Got(Bare(u), t) {
      BlockLoads(UpvalueBytes(u), t);
    }
    assert forall t :: UPVALUES.dec(t) == LoadUpvalue(t);
  }

  predicate AbsFits(a: AbsLineInfo, m: Limits) {
    Fits(a.pc, m.ints) && Fits(a.line, m.ints)
  }

  function LoadAbsWith(m: Limits): seq<byte> -> Loaded<AbsLineInfo> {
    s => LoadAbs(s, m)
  }

  function AbsLineInfos(m: Limits): Codec<AbsLineInfo, AbsLineInfo> {
    Codec(AbsBytes, LoadAbsWith(m), x => AbsFits(x, m), Same)
  }

  lemma AbsLoads(a: AbsLineInfo, t: seq<byte>, m: Limits)
    requires m.Ok()
    ensures LoadAbs(AbsBytes(a) + t, m) == if AbsFits(a, m) then Got(a, t) else Bad
  {
    hide LoadUnsigned, SizeBytes, Fits;
    Assoc(SizeBytes(a.pc), SizeBytes(a.line), t);
    SizeLoads(a.pc, SizeBytes(a.line) + t, m.ints);
    SizeLoads(a.line, t, m.ints);
  }

  lemma AbsOk(m: Limits)
    requires m.Ok()
    ensures AbsLineInfos(m).Ok()
  {
    hide AbsBytes, AbsFits;
    forall a: AbsLineInfo, t
      ensures AbsLineInfos(m).dec(AbsLineInfos(m).enc(a) + t) == if AbsLineInfos(m).fits(a) then Got(a, t) else Bad {
      AbsLoads(a, t, m);
    }
    assert forall t :: AbsLineInfos(m).dec(t) == LoadAbs(t, m);
  }

  predicate LocVarFits(v: LocVar, m: Limits) {
    StringFits(v.varname, m) && Fits(v.startpc, m.ints) && Fits(v.endpc, m.ints)
  }

  function LoadLocVarWith(m: Limits): seq<byte> -> Loaded<LocVar> {
    s => LoadLocVar(s, m)
  }

  function LocVars(m: Limits): Codec<LocVar, LocVar> {
    Codec(LocVarBytes, LoadLocVarWith(m), x => LocVarFits(x, m), Same)
  }

  lemma LocVarLoads(v: LocVar, t: seq<byte>, m: Limits)
    requires m.Ok()
    ensures LoadLocVar(LocVarBytes(v) + t, m) == if LocVarFits(v, m) then Got(v, t) else Bad
  {
    hide LoadUnsigned, SizeBytes, Fits, StringBytes, LoadStringN, StringFits;
    var tail := SizeBytes(v.startpc) + SizeBytes(v.endpc);
    Assoc(StringBytes(v.varname), tail, t);
    Assoc(SizeBytes(v.startpc), SizeBytes(v.endpc), t);
    StringLoads(v.varname, tail + t, m);
    SizeLoads(v.startpc, SizeBytes(v.endpc) + t, m.ints);
    SizeLoads(v.endpc, t, m.ints);
  }

  lemma LocVarsOk(m: Limits)
    requires m.Ok()
    ensures LocVars(m).Ok()
  {
    hide LocVarBytes, LocVarFits;
    forall v: LocVar, t ensures LocVars(m).dec(LocVars(m).enc(v) + t) == if LocVars(m).fits(v) then Got(v, t) else Bad {
      LocVarLoads(v, t, m);
    }
    assert forall t :: LocVars(m).dec(t) == LoadLocVar(t, m);
  }

  function NameOf(u: Upvaldesc): Option<seq<byte>> {
    u.name
  }

  predicate NameFits(u: Upvaldesc, m: Limits) {
    StringFits(u.name, m)
  }

  function LoadNameWith(m: Limits): seq<byte> -> Loaded<Option<seq<byte>>> {
    s => LoadName(s, m)
  }

  function Names(m: Limits): Codec<Upvaldesc, Option<seq<byte>>> {
    Codec(NameBytes, LoadNameWith(m), x => NameFits(x, m), NameOf)
  }

  lemma NamesOk(m: Limits)
    requires m.Ok()
    ensures Names(m).Ok()
  {
    hide StringBytes, LoadStringN, StringFits;
    forall u: Upvaldesc, t
      ensures Names(m).dec(Names(m).enc(u) + t) == if Names(m).fits(u) then Got(NameOf(u), t) else Bad {
      StringLoads(u.name, t, m);
    }
    assert forall t :: Names(m).dec(t) == LoadName(t, m);
  }

  predicate HeaderFits(h: Header, m: Limits) {
    Fits(h.linedefined, m.ints) && Fits(h.lastlinedefined, m.ints)
  }

  lemma HeaderLoads(h: Header, t: seq<byte>, m: Limits)
    requires m.Ok()
    ensures LoadHeader(HeaderBytes(h) + t, m) == if HeaderFits(h, m) then Got(h, t) else Bad
  {
    hide LoadUnsigned, SizeBytes, Fits;
    var three := [h.numparams, h.isVararg, h.maxstacksize];
    Assoc(SizeBytes(h.linedefined), SizeBytes(h.lastlinedefined) + three, t);
    Assoc(SizeBytes(h.lastlinedefined), three, t);
    SizeLoads(h.linedefined, SizeBytes(h.lastlinedefined) + (three + t), m.ints);
    SizeLoads(h.lastlinedefined, three + t, m.ints);
    BlockLoads(three, t);
  }

  // ----- functions -----

  // The names are filled in later.
  function Named(us: seq<Upvaldesc>, names: seq<Option<seq<byte>>>): seq<Upvaldesc>
    requires |names| == |us| || names == []
  {
    if names == [] then us else [us[0].(name := names[0])] + Named(us[1..], names[1..])
  }

  lemma NamedBare(us: seq<Upvaldesc>)
    ensures |Images(Bare, us)| == |us| && |Images(NameOf, us)| == |us|
    ensures Named(Images(Bare, us), Images(NameOf, us)) == us
  {
    if us != [] {
      NamedBare(us[1..]);
    }
  }

  function LoadDebug(s: seq<byte>, m: Limits, us: seq<Upvaldesc>): (r: Loaded<(Debug, seq<Upvaldesc>)>)
    ensures Onward(r, s)
  {
    var lineinfo :- LoadVector(s, m, LoadOne);
    var abslineinfo :- LoadVector(lineinfo.1, m, LoadAbsWith(m));
    var locvars :- LoadVector(abslineinfo.1, m, LoadLocVarWith(m));
    var n :- LoadInt(locvars.1, m);
    var names :- LoadEach(n.1, if n.0 != 0 then |us| else 0, LoadNameWith(m));
    Got((Debug(lineinfo.0, abslineinfo.0, locvars.0), Named(us, names.0)), names.1)
  }

  function LoadFunction(s: seq<byte>, m: Limits, parent: Option<seq<byte>>): (r: Loaded<Proto<seq<byte>>>)
    ensures r.Got? ==> |r.rest| < |s|
    decreases |s|, 0
  {
    var source :- LoadStringN(s, m);
    var name := if source.0.None? then parent else source.0;
    var header :- LoadHeader(source.1, m);
    var code :- LoadVector(header.1, m, LoadInstruction);
    var k :- LoadVector(code.1, m, LoadConstantWith(m));
    var upvalues :- LoadVector(k.1, m, LoadUpvalue);
    var n :- LoadInt(upvalues.1, m);
    var p :- LoadProtos(n.1, m, n.0, name);
    var debug :- LoadDebug(p.1, m, upvalues.0);
    Got(Proto(name, header.0, code.0, k.0, debug.0.1, p.0, debug.0.0), debug.1)
  }

  function LoadProtos(s: seq<byte>, m: Limits, n: nat, parent: Option<seq<byte>>): (r: Loaded<seq<Proto<seq<byte>>>>)
    ensures Onward(r, s)
    decreases |s|, 1
  {
    if n == 0 then Got([], s)
    else
      var f :- LoadFunction(s, m, parent);
      var fs :- LoadProtos(f.1, m, n - 1, parent);
      Got([f.0] + fs.0, fs.1)
  }

  // ----- a function is read back as it was written -----

  function KeptDebug(d: Debug, strip: bool): Debug {
    Debug(Kept(strip, d.lineinfo), Kept(strip, d.abslineinfo), Kept(strip, d.locvars))
  }

  function KeptNames(us: seq<Upvaldesc>, strip: bool): seq<Upvaldesc> {
    if strip then Images(Bare, us) else us
  }

  ghost predicate DebugFits(d: Debug, us: seq<Upvaldesc>, strip: bool, m: Limits) {
    && VectorFits(BYTES, Kept(strip, d.lineinfo), m) && VectorFits(AbsLineInfos(m), Kept(strip, d.abslineinfo), m)
    && VectorFits(LocVars(m), Kept(strip, d.locvars), m) && VectorFits(Names(m), Kept(strip, us), m)
  }

  lemma NamesLoad(us: seq<Upvaldesc>, strip: bool, t: seq<byte>, m: Limits)
    requires m.Ok()
    ensures var kept := Kept(strip, us);
      && LoadInt(Vector(kept, NameBytes) + t, m)
         == (if Fits(|kept|, m.ints) then Got(|kept|, Each(kept, NameBytes) + t) else Bad)
      && LoadEach(Each(kept, NameBytes) + t, if |kept| != 0 then |us| else 0, LoadNameWith(m)) ==
           if AllFit(Names(m), kept) then Got(Images(NameOf, kept), t) else Bad
  {
    hide SizeBytes, LoadUnsigned, Each, LoadEach, LoadName, Codec.Ok, Fits;
    var kept := Kept(strip, us);
    NamesOk(m);
    Assoc(SizeBytes(|kept|), Each(kept, NameBytes), t);
    SizeLoads(|kept|, Each(kept, NameBytes) + t, m.ints);
    EachLoads(Names(m), kept, t);
  }

  lemma NamesKept(us: seq<Upvaldesc>, strip: bool)
    ensures |Images(Bare, us)| == |us| && |Images(NameOf, Kept(strip, us))| == |Kept(strip, us)|
    ensures Named(Images(Bare, us), Images(NameOf, Kept(strip, us))) == KeptNames(us, strip)
  {
    NamedBare(us);
  }

  lemma DebugLoads(d: Debug, us: seq<Upvaldesc>, strip: bool, t: seq<byte>, m: Limits)
    requires m.Ok()
    ensures LoadDebug(DebugBytes(d, us, strip) + t, m, Images(Bare, us)) ==
      if DebugFits(d, us, strip, m) then Got((KeptDebug(d, strip), KeptNames(us, strip)), t) else Bad
  {
    var v0, v1, v2, v3 := Vector(Kept(strip, d.lineinfo), OneByte), Vector(Kept(strip, d.abslineinfo), AbsBytes),
      Vector(Kept(strip, d.locvars), LocVarBytes), Vector(Kept(strip, us), NameBytes);
    hide SizeBytes, LoadUnsigned, Each, LoadEach, LoadName, Codec.Ok, Fits, Images, Named, KeptNames, Vector,
         LoadVector, LoadInt, Kept, AllFit;
    BytesOk();
    AbsOk(m);
    LocVarsOk(m);
    Assoc(v0, v1 + (v2 + v3), t);
    Assoc(v1, v2 + v3, t);
    Assoc(v2, v3, t);
    VectorLoads(BYTES, Kept(strip, d.lineinfo), v1 + (v2 + (v3 + t)), m);
    VectorLoads(AbsLineInfos(m), Kept(strip, d.abslineinfo), v2 + (v3 + t), m);
    VectorLoads(LocVars(m), Kept(strip, d.locvars), v3 + t, m);
    ImagesSame(Kept(strip, d.lineinfo));
    ImagesSame(Kept(strip, d.abslineinfo));
    ImagesSame(Kept(strip, d.locvars));
    NamesLoad(us, strip, t, m);
    NamesKept(us, strip);
  }

  // A function as it is read back: without what is stripped, and with a source that is left out taken from its parent.
  function ReadBack(f: Proto<TString>, strip: bool, parent: Option<TString>, name: Option<seq<byte>>): Proto<seq<byte>>
    decreases f
  {
    var source := SourceText(f.source, strip, parent);
    var named := if source.None? then name else source;
    Proto(named, f.header, f.code, f.k, KeptNames(f.upvalues, strip), AllReadBack(f.p, strip, f.source, named),
          KeptDebug(f.debug, strip))
  }

  function AllReadBack(ps: seq<Proto<TString>>, strip: bool, parent: Option<TString>,
                       name: Option<seq<byte>>): seq<Proto<seq<byte>>>
    decreases ps
  {
    if ps == [] then [] else [ReadBack(ps[0], strip, parent, name)] + AllReadBack(ps[1..], strip, parent, name)
  }

  // The numbers of the function's own parts fit.
  ghost predicate PartsFit(f: Proto<TString>, strip: bool, parent: Option<TString>, m: Limits) {
    && StringFits(SourceText(f.source, strip, parent), m) && HeaderFits(f.header, m) && VectorFits(CODE, f.code, m)
    && VectorFits(Constants(m), f.k, m) && VectorFits(UPVALUES, f.upvalues, m) && Fits(|f.p|, m.ints)
    && DebugFits(f.debug, f.upvalues, strip, m)
  }

  ghost predicate FunctionFits(f: Proto<TString>, strip: bool, parent: Option<TString>, m: Limits)
    decreases f
  {
    PartsFit(f, strip, parent, m) && ProtosFit(f.p, strip, f.source, m)
  }

  ghost predicate ProtosFit(ps: seq<Proto<TString>>, strip: bool, parent: Option<TString>, m: Limits)
    decreases ps
  {
    ps == [] || (FunctionFits(ps[0], strip, parent, m) && ProtosFit(ps[1..], strip, parent, m))
  }

  lemma CodeLoads(f: Proto<TString>, t: seq<byte>, m: Limits)
    requires m.Ok()
    ensures LoadVector(Vector(f.code, CodeBytes) + t, m, LoadInstruction) == if VectorFits(CODE, f.code, m)
      then Got(f.code, t) else Bad
    ensures LoadVector(Vector(f.k, ConstantBytes) + t, m, LoadConstantWith(m)) ==
      if VectorFits(Constants(m), f.k, m) then Got(f.k, t) else Bad
    ensures LoadVector(Vector(f.upvalues, UpvalueBytes) + t, m, LoadUpvalue) ==
      if VectorFits(UPVALUES, f.upvalues, m) then Got(Images(Bare, f.upvalues), t) else Bad
  {
    hide Codec.Ok, LoadVector, Vector, VectorFits;
    CodeOk();
    ConstantsOk(m);
    UpvaluesOk();
    VectorLoads(CODE, f.code, t, m);
    VectorLoads(Constants(m), f.k, t, m);
    VectorLoads(UPVALUES, f.upvalues, t, m);
    ImagesSame(f.code);
    ImagesSame(f.k);
  }

  /** A function, with all the functions in it, is read back as it was written, and nothing of what follows is touched;
      it cannot be read just if one of its numbers is too near the limit. */
  lemma {:induction false} FunctionLoads(f: Proto<TString>, strip: bool, parent: Option<TString>,
                                         name: Option<seq<byte>>, t: seq<byte>, m: Limits)
    requires m.Ok()
    ensures LoadFunction(FunctionBytes(f, strip, parent) + t, m, name) ==
      if FunctionFits(f, strip, parent, m) then Got(ReadBack(f, strip, parent, name), t) else Bad
    decreases f
  {
    hide SizeBytes, StringBytes, HeaderBytes, Vector, DebugBytes, ProtosBytes, LoadStringN, LoadHeader, LoadVector,
         LoadUnsigned, LoadProtos,
      LoadDebug, VectorFits, DebugFits, ProtosFit, StringFits, HeaderFits, Fits, SourceText, AllReadBack, KeptNames,
        KeptDebug, Images;
    var source := SourceText(f.source, strip, parent);
    var named := if source.None? then name else source;
    var b7 := DebugBytes(f.debug, f.upvalues, strip);
    var b6 := ProtosBytes(f.p, strip, f.source) + b7;
    var b5 := SizeBytes(|f.p|) + b6;
    var b4 := Vector(f.upvalues, UpvalueBytes) + b5;
    var b3 := Vector(f.k, ConstantBytes) + b4;
    var b2 := Vector(f.code, CodeBytes) + b3;
    var b1 := HeaderBytes(f.header) + b2;
    Assoc(StringBytes(source), b1, t);
    Assoc(HeaderBytes(f.header), b2, t);
    Assoc(Vector(f.code, CodeBytes), b3, t);
    Assoc(Vector(f.k, ConstantBytes), b4, t);
    Assoc(Vector(f.upvalues, UpvalueBytes), b5, t);
    Assoc(SizeBytes(|f.p|), b6, t);
    Assoc(ProtosBytes(f.p, strip, f.source), b7, t);
    StringLoads(source, b1 + t, m);
    HeaderLoads(f.header, b2 + t, m);
    CodeLoads(f, b3 + t, m);
    CodeLoads(f, b4 + t, m);
    CodeLoads(f, b5 + t, m);
    SizeLoads(|f.p|, b6 + t, m.ints);
    ProtosLoad(f.p, strip, f.source, named, b7 + t, m);
    DebugLoads(f.debug, f.upvalues, strip, t, m);
  }

  lemma {:induction false} ProtosLoad(ps: seq<Proto<TString>>, strip: bool, parent: Option<TString>,
                                      name: Option<seq<byte>>, t: seq<byte>, m: Limits)
    requires m.Ok()
    ensures LoadProtos(ProtosBytes(ps, strip, parent) + t, m, |ps|, name) ==
      if ProtosFit(ps, strip, parent, m) then Got(AllReadBack(ps, strip, parent, name), t) else Bad
    decreases ps
  {
    hide FunctionBytes, LoadFunction, FunctionFits, ReadBack;
    if ps == [] {
      assert ProtosBytes(ps, strip, parent) + t == t;
    } else {
      var later := ProtosBytes(ps[1..], strip, parent);
      Assoc(FunctionBytes(ps[0], strip, parent), later, t);
      FunctionLoads(ps[0], strip, parent, name, later + t, m);
      ProtosLoad(ps[1..], strip, parent, name, t, m);
    }
  }

  // `function () end`, in one line of a source: a RETURN0, in the line in which the function begins.
  function InLine(source: TString, line: nat): Proto<TString> {
    Proto(Some(source), Header(line, line, 0, 0, 2), [[0x47, 0, 1, 0]], [], [], [], Debug([0], [], []))
  }

  /** A function that can be dumped and not loaded: any, if it stands in one of the last lines that a source can have.
      In the lines before, it can be loaded. */
  lemma LateFunction(source: TString, line: nat, t: seq<byte>)
    requires line < INT_MAX && |source.text| < MAX_SIZE
    ensures FunctionFits(InLine(source, line), false, None, SIZE_T)
    ensures LoadFunction(FunctionBytes(InLine(source, line), false, None) + t, LUA, None) ==
      if line < 0x7FFF_FF80 then Got(ReadBack(InLine(source, line), false, None, None), t) else Bad
  {
    hide LoadFunction, FunctionBytes, ReadBack;
    FunctionLoads(InLine(source, line), false, None, None, t, LUA);
    WhatFits(line);
    InLineFits(source, line, LUA);
    InLineFits(source, line, SIZE_T);
  }

  lemma InLineFits(source: TString, line: nat, m: Limits)
    requires (m == LUA || m == SIZE_T) && |source.text| < MAX_SIZE
    ensures FunctionFits(InLine(source, line), false, None, m) <==> Fits(line, m.ints)
  {
    WhatFits(0);
    WhatFits(1);
    WhatFits(|source.text| + 1);
  }

  // ----- chunks are uniquely decodable -----

  lemma {:induction false} AllFitNone(f: Proto<TString>, strip: bool, parent: Option<TString>)
    ensures FunctionFits(f, strip, parent, NONE)
    decreases f
  {
    AllProtosFitNone(f.p, strip, f.source);
  }

  lemma {:induction false} AllProtosFitNone(ps: seq<Proto<TString>>, strip: bool, parent: Option<TString>)
    ensures ProtosFit(ps, strip, parent, NONE)
    decreases ps
  {
    if ps != [] {
      AllFitNone(ps[0], strip, parent);
      AllProtosFitNone(ps[1..], strip, parent);
    }
  }

  /** Two functions whose bytes begin the same text are read back as the same function, whatever their numbers; so
      different functions, but for how a source is left out, have different bytes, and none of them begins the
      other's. */
  lemma UniquelyDecodable(f: Proto<TString>, g: Proto<TString>, strip: bool, t: seq<byte>, u: seq<byte>,
                          name: Option<seq<byte>>)
    requires FunctionBytes(f, strip, None) + t == FunctionBytes(g, strip, None) + u
    ensures ReadBack(f, strip, None, name) == ReadBack(g, strip, None, name) && t == u
  {
    hide FunctionBytes, LoadFunction, FunctionFits, ReadBack;
    FunctionLoads(f, strip, None, name, t, NONE);
    FunctionLoads(g, strip, None, name, u, NONE);
    AllFitNone(f, strip, None);
    AllFitNone(g, strip, None);
  }

  // A function without the names of its sources.
  function Sourceless<S>(f: Proto<S>): Proto<seq<byte>>
    decreases f
  {
    Proto(None, f.header, f.code, f.k, f.upvalues, AllSourceless(f.p), f.debug)
  }

  function AllSourceless<S>(ps: seq<Proto<S>>): seq<Proto<seq<byte>>>
    decreases ps
  {
    if ps == [] then [] else [Sourceless(ps[0])] + AllSourceless(ps[1..])
  }

  lemma {:induction false} ReadBackWhole(f: Proto<TString>, parent: Option<TString>, name: Option<seq<byte>>)
    ensures Sourceless(ReadBack(f, false, parent, name)) == Sourceless(f)
    decreases f
  {
    var source := SourceText(f.source, false, parent);
    AllReadBackWhole(f.p, f.source, if source.None? then name else source);
  }

  lemma {:induction false} AllReadBackWhole(ps: seq<Proto<TString>>, parent: Option<TString>, name: Option<seq<byte>>)
    ensures AllSourceless(AllReadBack(ps, false, parent, name)) == AllSourceless(ps)
    decreases ps
  {
    if ps != [] {
      ReadBackWhole(ps[0], parent, name);
      AllReadBackWhole(ps[1..], parent, name);
      assert AllReadBack(ps, false, parent, name)[1..] == AllReadBack(ps[1..], false, parent, name);
    }
  }

  /** What is not stripped is in the bytes: functions with the same bytes are the same but for the names of their
      sources. */
  lemma NothingLost(f: Proto<TString>, g: Proto<TString>, t: seq<byte>, u: seq<byte>)
    requires FunctionBytes(f, false, None) + t == FunctionBytes(g, false, None) + u
    ensures Sourceless(f) == Sourceless(g)
  {
    hide *;
    UniquelyDecodable(f, g, false, t, u, None);
    ReadBackWhole(f, None, None);
    ReadBackWhole(g, None, None);
  }
}
