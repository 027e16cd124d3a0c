// Line information: one byte for each instruction, with absolute entries now and then.

module LineInfo {
  const LIMLINEDIFF := 0x80
  const ABSLINEINFO := -0x80
  const MAXIWTHABS := 128

  datatype Abs = Abs(pc: nat, line: int)

  // The debug information of a finished function; a stripped function has none.
  datatype Proto = Proto(linedefined: int, stripped: bool, lineinfo: seq<int>, abslineinfo: seq<Abs>)

  // ----- what the information stands for -----

  // The line of the instruction at `pc`; before the first one, the line where the function was defined.
  function LineAt(defined: int, lines: seq<int>, pc: int): int
    requires -1 <= pc < |lines|
  {
    if pc < 0 then defined else lines[pc]
  }

  // The entry of one instruction: the difference from the line before, or the mark of an absolute entry.
  ghost predicate EntryOk(defined: int, lineinfo: seq<int>, abs: seq<Abs>, lines: seq<int>, pc: nat)
    requires pc < |lines| <= |lineinfo|
  {
    if lineinfo[pc] == ABSLINEINFO then exists i :: 0 <= i < |abs| && abs[i] == Abs(pc, lines[pc])
    else -LIMLINEDIFF < lineinfo[pc] < LIMLINEDIFF && lines[pc] == LineAt(defined, lines, pc - 1) + lineinfo[pc]
  }

  // How far the `i`-th absolute entry is from the one before, or from the start.
  ghost predicate GapOk(abs: seq<Abs>, i: nat)
    requires i < |abs|
  {
    if i == 0 then abs[i].pc <= MAXIWTHABS else abs[i - 1].pc < abs[i].pc <= abs[i - 1].pc + MAXIWTHABS
  }

  ghost predicate AbsOk(lineinfo: seq<int>, abs: seq<Abs>, lines: seq<int>)
    requires |lines| <= |lineinfo|
  {
    && (forall i :: 0 <= i < |abs| ==> abs[i].pc < |lines| && lineinfo[abs[i].pc] == ABSLINEINFO
                                       && abs[i].line == lines[abs[i].pc])
    && (forall i :: 0 <= i < |abs| ==> GapOk(abs, i))
  }

  // Instructions since the last absolute entry, or since the start.
  function SinceAbs(abs: seq<Abs>, n: nat): int {
    if abs == [] then n else n - abs[|abs| - 1].pc
  }

  /** The information describes the lines of all instructions, and no two absolute entries are too far apart. */
  ghost predicate Describes(defined: int, lineinfo: seq<int>, abs: seq<Abs>, lines: seq<int>) {
    && |lines| <= |lineinfo| && AbsOk(lineinfo, abs, lines) && SinceAbs(abs, |lines|) <= MAXIWTHABS
    && (forall pc :: 0 <= pc < |lines| ==> EntryOk(defined, lineinfo, abs, lines, pc))
  }

  // Each entry fits a signed byte, and -128 is no difference.
  lemma DescribesBytes(defined: int, lineinfo: seq<int>, abs: seq<Abs>, lines: seq<int>)
    requires Describes(defined, lineinfo, abs, lines)
    ensures forall pc :: 0 <= pc < |lines| ==> -128 <= lineinfo[pc] <= 127
    ensures forall pc :: 0 <= pc < |lines| && lineinfo[pc] != -128 ==>
      lines[pc] == (if pc == 0 then defined else lines[pc - 1]) + lineinfo[pc]
  {
    hide AbsOk;
    forall pc | 0 <= pc < |lines|
      ensures -128 <= lineinfo[pc] <= 127
      ensures lineinfo[pc] != -128 ==> lines[pc] == (if pc == 0 then defined else lines[pc - 1]) + lineinfo[pc] {
      assert EntryOk(defined, lineinfo, abs, lines, pc);
    }
  }

  // ----- the lower bound -----

  lemma {:induction false} AbsAt(lineinfo: seq<int>, abs: seq<Abs>, lines: seq<int>, i: nat)
    requires |lines| <= |lineinfo| && AbsOk(lineinfo, abs, lines) && i < |abs|
    ensures abs[i].pc <= MAXIWTHABS * (i + 1)
  {
    assert GapOk(abs, i);
    if i > 0 { AbsAt(lineinfo, abs, lines, i - 1); }
  }

  lemma {:induction false} AbsSorted(lineinfo: seq<int>, abs: seq<Abs>, lines: seq<int>, i: nat, j: nat)
    requires |lines| <= |lineinfo| && AbsOk(lineinfo, abs, lines) && i < j < |abs|
    ensures abs[i].pc < abs[j].pc
    decreases j
  {
    assert GapOk(abs, j);
    if i < j - 1 { AbsSorted(lineinfo, abs, lines, i, j - 1); }
  }

  /** The estimate of `getbaseline`: the entry of that number exists and is not past the instruction. */
  lemma EstimateBelow(defined: int, lineinfo: seq<int>, abs: seq<Abs>, lines: seq<int>, pc: nat)
    requires Describes(defined, lineinfo, abs, lines) && pc < |lines| && abs != [] && abs[0].pc <= pc
    ensures var i := pc / MAXIWTHABS - 1; i < 0 || (i < |abs| && abs[i].pc <= pc)
  {
    var i := pc / MAXIWTHABS - 1;
    if i >= 0 {
      AbsAt(lineinfo, abs, lines, |abs| - 1);
      if i < |abs| { AbsAt(lineinfo, abs, lines, i); }
    }
  }

  // An instruction between two absolute entries has a relative entry.
  lemma RelativeBetween(defined: int, lineinfo: seq<int>, abs: seq<Abs>, lines: seq<int>, i: int, pc: nat)
    requires Describes(defined, lineinfo, abs, lines) && pc < |lines| && -1 <= i < |abs|
    requires (i >= 0 ==> abs[i].pc < pc) && (i + 1 < |abs| ==> pc < abs[i + 1].pc)
    ensures lineinfo[pc] != ABSLINEINFO && lines[pc] == LineAt(defined, lines, pc - 1) + lineinfo[pc]
  {
    assert EntryOk(defined, lineinfo, abs, lines, pc);
    if lineinfo[pc] == ABSLINEINFO {
      var j :| 0 <= j < |abs| && abs[j] == Abs(pc, lines[pc]);
      if j < i { AbsSorted(lineinfo, abs, lines, j, i); }
      if i + 1 < j { AbsSorted(lineinfo, abs, lines, i + 1, j); }
    }
  }

  // ----- decoding -----

  ghost predicate Decodes(p: Proto, lines: seq<int>) {
    !p.stripped ==> |p.lineinfo| == |lines| && Describes(p.linedefined, p.lineinfo, p.abslineinfo, lines)
  }

  /** `getbaseline`: the last absolute entry that is not past the instruction, or the start of the function. */
  method GetBaseLine(p: Proto, pc: nat, ghost lines: seq<int>) returns (line: int, basepc: int, ghost i: int)
    requires Decodes(p, lines) && !p.stripped && pc < |lines|
    ensures -1 <= basepc <= pc && line == LineAt(p.linedefined, lines, basepc)
    ensures -1 <= i < |p.abslineinfo| && (if i < 0 then basepc == -1 else basepc == p.abslineinfo[i].pc)
    ensures i + 1 < |p.abslineinfo| ==> pc < p.abslineinfo[i + 1].pc
  {
    if |p.abslineinfo| == 0 || pc < p.abslineinfo[0].pc {
      return p.linedefined, -1, -1;
    }
    EstimateBelow(p.linedefined, p.lineinfo, p.abslineinfo, lines, pc);
    var k := pc / MAXIWTHABS - 1;
    while k + 1 < |p.abslineinfo| && pc >= p.abslineinfo[k + 1].pc
      invariant -1 <= k < |p.abslineinfo| && (k >= 0 ==> p.abslineinfo[k].pc <= pc)
      decreases |p.abslineinfo| - k
    {
      k := k + 1;
    }
    return p.abslineinfo[k].line, p.abslineinfo[k].pc, k;
  }

  /** `luaG_getfuncline`: the line saved last for the instruction, or -1 without debug information. */
  method GetFuncLine(p: Proto, pc: nat, ghost lines: seq<int>) returns (line: int)
    requires Decodes(p, lines) && pc < |lines|
    ensures line == if p.stripped then -1 else lines[pc]
  {
    if p.stripped { return -1; }
    var basepc;
    ghost var i;
    line, basepc, i := GetBaseLine(p, pc, lines);
    while basepc < pc
      invariant -1 <= basepc <= pc && line == LineAt(p.linedefined, lines, basepc)
      invariant i >= 0 ==> p.abslineinfo[i].pc <= basepc
    {
      basepc := basepc + 1;
      RelativeBetween(p.linedefined, p.lineinfo, p.abslineinfo, lines, i, basepc);
      line := line + p.lineinfo[basepc];
    }
  }

  // `nextline`
  method NextLine(p: Proto, currentline: int, pc: nat, ghost lines: seq<int>) returns (line: int)
    requires Decodes(p, lines) && !p.stripped && pc < |lines| && currentline == LineAt(p.linedefined, lines, pc - 1)
    ensures line == lines[pc]
  {
    assert EntryOk(p.linedefined, p.lineinfo, p.abslineinfo, lines, pc);
    if p.lineinfo[pc] != ABSLINEINFO {
      line := currentline + p.lineinfo[pc];
    } else {
      line := GetFuncLine(p, pc, lines);
    }
  }

  /** `collectvalidlines`: the lines that have an instruction; the first instruction of a vararg function does not
      count. */
  method CollectValidLines(p: Proto, isVararg: bool, ghost lines: seq<int>) returns (active: set<int>)
    requires Decodes(p, lines) && (!p.stripped && isVararg ==> lines != [])
    ensures p.stripped ==> active == {}
    ensures !p.stripped ==> forall l :: l in active <==> l in lines[if isVararg then 1 else 0..]
  {
    active := {};
    if p.stripped { return; }
    var currentline := p.linedefined;
    var i: nat := 0;
    if isVararg {
      currentline := NextLine(p, currentline, 0, lines);
      i := 1;
    }
    ghost var first := i;
    while i < |p.lineinfo|
      invariant first <= i <= |lines| && currentline == LineAt(p.linedefined, lines, i - 1)
      invariant forall l :: l in active <==> l in lines[first..i]
    {
      currentline := NextLine(p, currentline, i, lines);
      active := active + {currentline};
      assert lines[first..i + 1] == lines[first..i] + [lines[i]];
      i := i + 1;
    }
    assert lines[first..i] == lines[first..];
  }

  /** `changedline`: whether two instructions are in different lines; without debug information they never are. */
  method ChangedLine(p: Proto, oldpc: nat, newpc: nat, ghost lines: seq<int>) returns (changed: bool)
    requires Decodes(p, lines) && oldpc < newpc < |lines|
    ensures changed <==> !p.stripped && lines[oldpc] != lines[newpc]
  {
    if p.stripped { return false; }
    if newpc - oldpc < MAXIWTHABS / 2 {
      var delta := 0;
      var pc := oldpc;
      while pc < newpc
        invariant oldpc <= pc <= newpc && delta == lines[pc] - lines[oldpc]
      {
        pc := pc + 1;
        assert EntryOk(p.linedefined, p.lineinfo, p.abslineinfo, lines, pc);
        if p.lineinfo[pc] == ABSLINEINFO { break; }
        delta := delta + p.lineinfo[pc];
        if pc == newpc { return delta != 0; }
      }
    }
    var l0 := GetFuncLine(p, oldpc, lines);
    var l1 := GetFuncLine(p, newpc, lines);
    changed := l0 != l1;
  }

  // ----- encoding -----

  lemma DropRelative(defined: int, lineinfo: seq<int>, abs: seq<Abs>, lines: seq<int>)
    requires Describes(defined, lineinfo, abs, lines) && lines != [] && lineinfo[|lines| - 1] != ABSLINEINFO
    ensures Describes(defined, lineinfo, abs, lines[..|lines| - 1])
  {
    var n := |lines| - 1;
    var less := lines[..n];
    assert AbsOk(lineinfo, abs, less) by { hide EntryOk, GapOk; }
    hide AbsOk, GapOk;
    forall pc | 0 <= pc < n ensures EntryOk(defined, lineinfo, abs, less, pc) {
      assert EntryOk(defined, lineinfo, abs, lines, pc);
    }
  }

  lemma DescribesPrefix(defined: int, lineinfo: seq<int>, abs: seq<Abs>, lines: seq<int>)
    requires Describes(defined, lineinfo, abs, lines) && lines != []
    ensures var less := lines[..|lines| - 1]; var rel := lineinfo[|lines| - 1] != ABSLINEINFO;
      (!rel ==> abs != [] && abs[|abs| - 1].pc == |lines| - 1)
      && Describes(defined, lineinfo, if rel then abs else abs[..|abs| - 1], less)
  {
    var n := |lines| - 1;
    var less := lines[..n];
    var rel := lineinfo[n] != ABSLINEINFO;
    assert EntryOk(defined, lineinfo, abs, lines, n);
    if !rel {
      var j :| 0 <= j < |abs| && abs[j] == Abs(n, lines[n]);
      if j < |abs| - 1 { AbsSorted(lineinfo, abs, lines, j, |abs| - 1); }
      DropAbs(defined, lineinfo, abs, lines);
    } else {
      DropRelative(defined, lineinfo, abs, lines);
    }
  }

  lemma LastEntry(defined: int, lineinfo: seq<int>, abs: seq<Abs>, lines: seq<int>)
    requires Describes(defined, lineinfo, abs, lines) && lines != []
    ensures |lines| <= |lineinfo| && SinceAbs(abs, |lines|) <= MAXIWTHABS
    ensures var n := |lines| - 1; lineinfo[n] != ABSLINEINFO ==>
      lines[n] == LineAt(defined, lines, n - 1) + lineinfo[n] && SinceAbs(abs, n) >= 0
        && Describes(defined, lineinfo, abs, lines[..n])
    ensures var n := |lines| - 1; lineinfo[n] == ABSLINEINFO ==>
      abs != [] && abs[|abs| - 1].pc == n && Describes(defined, lineinfo, abs[..|abs| - 1], lines[..n])
  {
    DescribesPrefix(defined, lineinfo, abs, lines);
    assert EntryOk(defined, lineinfo, abs, lines, |lines| - 1);
  }

  lemma DropAbs(defined: int, lineinfo: seq<int>, abs: seq<Abs>, lines: seq<int>)
    requires Describes(defined, lineinfo, abs, lines) && lines != [] && abs != [] && abs[|abs| - 1].pc == |lines| - 1
    ensures Describes(defined, lineinfo, abs[..|abs| - 1], lines[..|lines| - 1])
  {
    var n := |lines| - 1;
    var less, fewer := lines[..n], abs[..|abs| - 1];
    assert GapOk(abs, |abs| - 1);
    forall i | 0 <= i < |fewer| ensures fewer[i].pc < n && GapOk(fewer, i) {
      assert GapOk(abs, i);
      AbsSorted(lineinfo, abs, lines, i, |abs| - 1);
    }
    forall pc | 0 <= pc < n ensures EntryOk(defined, lineinfo, fewer, less, pc) {
      DropEntry(defined, lineinfo, abs, lines, pc);
    }
    hide EntryOk;
  }

  lemma DropEntry(defined: int, lineinfo: seq<int>, abs: seq<Abs>, lines: seq<int>, pc: nat)
    requires pc < |lines| - 1 < |lineinfo| && abs != [] && abs[|abs| - 1].pc == |lines| - 1
      && EntryOk(defined, lineinfo, abs, lines, pc)
    ensures EntryOk(defined, lineinfo, abs[..|abs| - 1], lines[..|lines| - 1], pc)
  {
    var fewer := abs[..|abs| - 1];
    if lineinfo[pc] == ABSLINEINFO {
      var j :| 0 <= j < |abs| && abs[j] == Abs(pc, lines[pc]);
      assert fewer[j] == Abs(pc, lines[pc]);
    }
  }

  lemma DescribesLength(defined: int, lineinfo: seq<int>, abs: seq<Abs>, lines: seq<int>)
    requires Describes(defined, lineinfo, abs, lines)
    ensures |lines| <= |lineinfo| && 0 <= SinceAbs(abs, |lines|) <= MAXIWTHABS
  {
  }

  // What lies behind the described part does not matter.
  lemma DescribesTail(defined: int, lineinfo: seq<int>, lineinfo': seq<int>, abs: seq<Abs>, lines: seq<int>)
    requires Describes(defined, lineinfo, abs, lines) && |lines| <= |lineinfo'|
      && lineinfo'[..|lines|] == lineinfo[..|lines|]
    ensures Describes(defined, lineinfo', abs, lines)
  {
    forall pc | 0 <= pc < |lines| ensures lineinfo'[pc] == lineinfo[pc] {
      assert lineinfo'[pc] == lineinfo'[..|lines|][pc] == lineinfo[..|lines|][pc];
    }
    forall pc | 0 <= pc < |lines| ensures EntryOk(defined, lineinfo', abs, lines, pc) {
      assert EntryOk(defined, lineinfo, abs, lines, pc);
    }
  }

  // One more instruction with a relative entry.
  lemma DescribesRelative(defined: int, lineinfo: seq<int>, abs: seq<Abs>, lines: seq<int>, line: int)
    requires Describes(defined, lineinfo, abs, lines) && |lines| < |lineinfo| && SinceAbs(abs, |lines|) < MAXIWTHABS
    requires -LIMLINEDIFF < lineinfo[|lines|] < LIMLINEDIFF
      && line == LineAt(defined, lines, |lines| - 1) + lineinfo[|lines|]
    ensures Describes(defined, lineinfo, abs, lines + [line])
  {
    var more := lines + [line];
    forall pc | 0 <= pc < |more| ensures EntryOk(defined, lineinfo, abs, more, pc) {
      if pc < |lines| { assert EntryOk(defined, lineinfo, abs, lines, pc); }
    }
  }

  // One more instruction with an absolute entry.
  lemma DescribesAbsolute(defined: int, lineinfo: seq<int>, abs: seq<Abs>, lines: seq<int>, line: int)
    requires Describes(defined, lineinfo, abs, lines) && |lines| < |lineinfo| && lineinfo[|lines|] == ABSLINEINFO
    ensures Describes(defined, lineinfo, abs + [Abs(|lines|, line)], lines + [line])
  {
    var more, abs' := lines + [line], abs + [Abs(|lines|, line)];
    forall i | 0 <= i < |abs'| ensures GapOk(abs', i) {
      if i < |abs| { assert GapOk(abs, i); }
    }
    forall pc | 0 <= pc < |more| ensures EntryOk(defined, lineinfo, abs', more, pc) {
      if pc < |lines| {
        assert EntryOk(defined, lineinfo, abs, lines, pc);
        if lineinfo[pc] == ABSLINEINFO {
          var j :| 0 <= j < |abs| && abs[j] == Abs(pc, lines[pc]);
          assert abs'[j] == Abs(pc, more[pc]);
        }
      } else {
        assert abs'[|abs|] == Abs(pc, more[pc]);
      }
    }
  }

  class FuncState {
    const linedefined: int
    var pc: nat
    var lineinfo: seq<int>
    var abslineinfo: seq<Abs>
    var nabslineinfo: nat
    var previousline: int
    var iwthabs: int              // a byte
    ghost var lines: seq<int>     // the line saved last for each instruction

    // An absolute entry was removed and nothing was saved since: the next entry must be absolute.
    ghost predicate Forced()
      reads `iwthabs
    {
      iwthabs == MAXIWTHABS + 1
    }

    ghost predicate Valid()
      reads this
    {
      && |lines| == pc && nabslineinfo <= |abslineinfo|
      && Describes(linedefined, lineinfo, abslineinfo[..nabslineinfo], lines)
      && (!Forced() ==> iwthabs == SinceAbs(abslineinfo[..nabslineinfo], pc)
                        && previousline == LineAt(linedefined, lines, pc - 1))
    }

    // The part of `open_func` that concerns lines.
    constructor (defined: int)
      ensures Valid() && !Forced() && lines == [] && linedefined == defined
    {
      linedefined := defined;
      pc, lineinfo, abslineinfo, nabslineinfo := 0, [], [], 0;
      previousline, iwthabs, lines := defined, 0, [];
    }

    // The state between the new instruction and its line.
    ghost predicate Counted()
      reads this
    {
      && pc > 0 && |lines| == pc - 1 && nabslineinfo <= |abslineinfo|
      && Describes(linedefined, lineinfo, abslineinfo[..nabslineinfo], lines)
      && (!Forced() ==> iwthabs == SinceAbs(abslineinfo[..nabslineinfo], pc - 1)
                        && previousline == LineAt(linedefined, lines, pc - 2))
    }

    /** `savelineinfo`. An entry is absolute if the difference does not fit a byte, or if 128 instructions have gone by
        since the last. */
    method SaveLineInfo(line: int)
      requires Counted()
      modifies this
      ensures Valid() && !Forced() && lines == old(lines) + [line] && pc == old(pc)
      ensures -128 < line - old(previousline) < 128 && old(iwthabs) < 128 ==> nabslineinfo == old(nabslineinfo)
      ensures !(-128 < line - old(previousline) < 128 && old(iwthabs) < 128) ==> nabslineinfo == old(nabslineinfo) + 1
    {
      hide Describes, AbsOk, EntryOk, GapOk;
      DescribesLength(linedefined, lineinfo, abslineinfo[..nabslineinfo], lines);
      var linedif := line - previousline;
      var p := pc - 1;
      var far := linedif >= LIMLINEDIFF || -linedif >= LIMLINEDIFF;
      var many := false;
      if !far {
        many := iwthabs >= MAXIWTHABS;
        iwthabs := (iwthabs + 1) % 256;
      }
      ghost var abs0, info0 := abslineinfo[..nabslineinfo], lineinfo;
      if far || many {
        abslineinfo := if nabslineinfo < |abslineinfo| then abslineinfo[nabslineinfo := Abs(p, line)]
          else abslineinfo + [Abs(p, line)];
        nabslineinfo := nabslineinfo + 1;
        assert abslineinfo[..nabslineinfo] == abs0 + [Abs(p, line)];
        linedif := ABSLINEINFO;
        iwthabs := 1;
      }
      lineinfo := if p < |lineinfo| then lineinfo[p := linedif] else lineinfo + [linedif];
      assert lineinfo[..p] == info0[..p];
      DescribesTail(linedefined, info0, lineinfo, abs0, lines);
      if linedif == ABSLINEINFO {
        DescribesAbsolute(linedefined, lineinfo, abs0, lines, line);
      } else {
        DescribesRelative(linedefined, lineinfo, abs0, lines, line);
      }
      previousline := line;
      lines := lines + [line];
    }

    // The part of `luaK_code` that concerns lines.
    method Code(line: int)
      requires Valid()
      modifies this
      ensures Valid() && !Forced() && lines == old(lines) + [line] && pc == old(pc) + 1
    {
      pc := pc + 1;
      SaveLineInfo(line);
    }

    /** `removelastlineinfo`; the instruction counter stays. */
    method RemoveLastLineInfo()
      requires Valid() && !Forced() && pc > 0
      modifies this
      ensures Counted() && lines == old(lines)[..old(pc) - 1] && pc == old(pc)
    {
      var p := pc - 1;
      ghost var abs := abslineinfo[..nabslineinfo];
      LastEntry(linedefined, lineinfo, abs, lines);
      hide Describes;
      if lineinfo[p] != ABSLINEINFO {
        previousline := previousline - lineinfo[p];
        iwthabs := (iwthabs - 1) % 256;
      } else {
        assert abslineinfo[nabslineinfo - 1] == abs[|abs| - 1];
        assert abs[..|abs| - 1] == abslineinfo[..nabslineinfo - 1];
        nabslineinfo := nabslineinfo - 1;
        iwthabs := MAXIWTHABS + 1;
      }
      lines := lines[..p];
    }

    // `removelastinstruction`
    method RemoveLastInstruction()
      requires Valid() && !Forced() && pc > 0
      modifies this
      ensures Valid() && lines == old(lines)[..old(pc) - 1] && pc == old(pc) - 1
    {
      RemoveLastLineInfo();
      pc := pc - 1;
    }

    /** `luaK_fixline`: only the line of the last instruction changes. */
    method FixLine(line: int)
      requires Valid() && !Forced() && pc > 0
      modifies this
      ensures Valid() && !Forced() && pc == old(pc) && lines == old(lines)[old(pc) - 1 := line]
    {
      RemoveLastLineInfo();
      SaveLineInfo(line);
    }

    /** The part of `close_func` that concerns lines: the finished function finds, for each of its instructions, the
        line saved last. */
    method CloseFunc() returns (p: Proto)
      requires Valid()
      ensures Decodes(p, lines) && !p.stripped && p.linedefined == linedefined && |p.lineinfo| == pc
      ensures forall i :: 0 <= i < pc ==> -128 <= p.lineinfo[i] <= 127
    {
      p := Proto(linedefined, false, lineinfo[..pc], abslineinfo[..nabslineinfo]);
      assert p.lineinfo[..|lines|] == lineinfo[..|lines|];
      DescribesTail(linedefined, lineinfo, p.lineinfo, p.abslineinfo, lines);
      DescribesBytes(linedefined, p.lineinfo, p.abslineinfo, lines);
    }
  }
}
