// The bare path of a `use` statement: the generated automaton and the language it is to accept.

module UsePath {
  import opened Options

  // ----- the automaton -----

  datatype Move = Advance(state: nat) | Skip | Stop

  predicate IsLetter(c: char) {
    'A' <= c <= 'Z' || c == '_' || 'a' <= c <= 'z'
  }

  predicate IsIdent(c: char) {
    IsLetter(c) || '0' <= c <= '9'
  }

  // The last test of every state but the first: what a path may have besides `.` and `/`, which are tested before.
  predicate Rest(c: char) {
    c != '\0' && (c < '\t' || '\r' < c) && c != ' ' && c != '"' && c != '\U{17F}' && c != '\U{212A}'
  }

  // The tests of one state, in order; `l` is the letter that goes on towards `.lua`, to a state of its own.
  function Inner(c: char, dot: nat, l: Option<(char, nat)>): Move {
    if c == '.' then Advance(dot)
    else if c == '/' then Advance(16)
    else if l.Some? && c == l.value.0 then Advance(l.value.1)
    else if Rest(c) then Advance(21) else Stop
  }

  // `ts_lex` in the states 3, 16 to 22, 63 and 89. The states 29 and 58 belong to other tokens.
  function Step(state: nat, c: char): Move {
    match state
    case 3 =>
      if c == '\n' then Advance(58)
      else if c == '"' then Advance(29)
      else if c == '.' then Advance(17)
      else if c == '\t' || c == '\r' || c == ' ' then Skip
      else if IsLetter(c) then Advance(63)
      else if c != '\0' && (c < '\t' || '\r' < c) && c != '.' && c != '/' && c != '\U{17F}'
        && c != '\U{212A}' then Advance(21)
      else Stop
    case 16 => Inner(c, 17, None)
    case 17 => Inner(c, 22, Some(('l', 20)))
    case 18 => Inner(c, 19, Some(('a', 89)))
    case 19 => Inner(c, 19, Some(('l', 20)))
    case 20 => Inner(c, 19, Some(('u', 18)))
    case 21 => Inner(c, 19, None)
    case 22 =>
      if c == '.' then Advance(19)
      else if c == 'l' then Advance(20)
      else if Rest(c) && c != '.' && c != '/' then Advance(21) else Stop
    case 63 => if c != '.' && c != '/' && IsIdent(c) then Advance(63) else Inner(c, 19, None)
    case 89 => Inner(c, 19, None)
    case _ => Stop
  }

  // The state after a text that begins at the start state, if the automaton gets through it.
  function Run(s: string): Option<nat> {
    if s == "" then Some(3)
    else
      var before := Run(s[..|s| - 1]);
      if before.None? then None
      else match Step(before.value, s[|s| - 1])
        case Advance(state) => Some(state)
        case _ => None
  }

  predicate Accepts(s: string) {
    Run(s) == Some(89)
  }

  // ----- the language, in words -----

  predicate Allowed(c: char) {
    c == '/' || Rest(c)
  }

  // How a text ends, looking for `.lua`.
  predicate EndsDot(s: string) {
    |s| >= 1 && s[|s| - 1] == '.'
  }

  predicate EndsL(s: string) {
    |s| >= 2 && s[|s| - 2] == '.' && s[|s| - 1] == 'l'
  }

  predicate EndsLu(s: string) {
    |s| >= 3 && s[|s| - 3] == '.' && s[|s| - 2] == 'l' && s[|s| - 1] == 'u'
  }

  predicate EndsLua(s: string) {
    |s| >= 4 && s[|s| - 4] == '.' && s[|s| - 3] == 'l' && s[|s| - 2] == 'u' && s[|s| - 1] == 'a'
  }

  // A segment `..` begins at `i`.
  predicate DotDotAt(s: string, i: nat) {
    i + 2 <= |s| && s[i] == '.' && s[i + 1] == '.' && (i == 0 || s[i - 1] == '/') && (i + 2 == |s| || s[i + 2] == '/')
  }

  // Only allowed characters, no `/` in front, no `..` segment, `.lua` at the end.
  ghost predicate IsPath(s: string) {
    && (forall i :: 0 <= i < |s| ==> Allowed(s[i]))
    && s != "" && s[0] != '/'
    && (forall i :: 0 <= i < |s| ==> !DotDotAt(s, i))
    && EndsLua(s)
  }

  // `[A-Za-z_]` and `[A-Za-z0-9_]`, by the codes of the characters
  predicate NameStart(c: char) {
    65 <= c as int <= 90 || c as int == 95 || 97 <= c as int <= 122
  }

  predicate NamePart(c: char) {
    NameStart(c) || 48 <= c as int <= 57
  }

  // A name: the other token that the automaton accepts here.
  ghost predicate IsName(s: string) {
    s != "" && NameStart(s[0]) && forall i :: 0 <= i < |s| ==> NamePart(s[i])
  }

  // ----- the automaton accepts the language -----

  // The start of the last segment.
  function Last(s: string): (i: nat)
    ensures i <= |s| && (i == 0 || s[i - 1] == '/') && forall k :: i <= k < |s| ==> s[k] != '/'
  {
    if s == "" || s[|s| - 1] == '/' then |s| else Last(s[..|s| - 1])
  }

  // What can still become a path: the same, but `..` only counts when a `/` follows, and the end is open.
  ghost predicate Viable(s: string) {
    && (forall i :: 0 <= i < |s| ==> Allowed(s[i]))
    && (s != "" ==> s[0] != '/')
    && (forall i :: 0 <= i < |s| - 2 ==> !DotDotAt(s, i))
  }

  // How a text ends: what its last segment is, how that ends, and whether all is one name.
  datatype Shape = Shape(none: bool, dot: bool, dots: bool, lua: bool, lu: bool, l: bool, end: bool, name: bool) {
    // At most one holds, but that a segment of dots ends with a dot.
    predicate Ok() {
      && (none ==> !dot && !dots && !lua && !lu && !l && !end && !name)
      && (dot ==> end && !dots) && (dots ==> end)
      && (lua ==> !lu && !l && !end && !name) && (lu ==> !l && !end && !name) && (l ==> !end && !name)
      && (end ==> !name)
    }

    function State(): nat {
      if none then 16 else if dot then 17 else if dots then 22 else if lua then 89 else if lu then 18 else if l then 20
      else if end then 19 else if name then 63 else 21
    }

    function Grow(c: char): Shape {
      if c == '/' then Shape(true, false, false, false, false, false, false, false)
      else Shape(false, none && c == '.', dot && c == '.', lu && c == 'a', l && c == 'u', end && c == 'l', c == '.',
                 name && IsIdent(c))
    }
  }

  ghost function ShapeOf(s: string): Shape {
    var f, n := Last(s), |s|;
    Shape(f == n, f + 1 == n && s[f] == '.', f + 2 == n && s[f] == '.' && s[f + 1] == '.', EndsLua(s), EndsLu(s),
          EndsL(s), EndsDot(s), IsName(s))
  }

  // The automaton on shapes.
  lemma ShapeStep(h: Shape, c: char)
    requires h.Ok()
    ensures h.Grow(c).Ok()
    ensures Step(h.State(), c) == if Allowed(c) && !(c == '/' && h.dots) then Advance(h.Grow(c).State()) else Stop
  {
  }

  lemma NameAppend(t: string, c: char)
    requires t != ""
    ensures IsName(t + [c]) <==> IsName(t) && NamePart(c)
  {
    if IsName(t + [c]) {
      assert forall i :: 0 <= i < |t| ==> t[i] == (t + [c])[i];
      assert (t + [c])[|t|] == c;
    }
  }

  lemma LastAppend(t: string, c: char)
    ensures Last(t + [c]) == if c == '/' then |t| + 1 else Last(t)
  {
    assert (t + [c])[..|t|] == t;
  }

  lemma ShapeAppend(t: string, c: char)
    requires t != ""
    ensures ShapeOf(t + [c]) == ShapeOf(t).Grow(c)
  {
    hide IsName, Last;
    NameAppend(t, c);
    LastAppend(t, c);
  }

  lemma ShapeOne(c: char)
    requires Allowed(c) && c != '/'
    ensures ShapeOf([c]).Ok() && Step(3, c) == Advance(ShapeOf([c]).State())
  {
    assert [c][..0] == "";
  }

  lemma ViableOne(c: char)
    ensures Viable([c]) <==> Allowed(c) && c != '/'
    ensures !Viable([c]) ==> Step(3, c) == Skip || Step(3, c) == Stop || Step(3, c) == Advance(29)
                             || Step(3, c) == Advance(58)
  {
    assert [c][0] == c;
  }

  lemma ViablePrefix(t: string, c: char)
    requires t != "" && Viable(t + [c])
    ensures Viable(t)
  {
    var s := t + [c];
    assert forall i :: 0 <= i < |t| ==> t[i] == s[i];
    forall i | 0 <= i < |t| - 2 ensures !DotDotAt(t, i) {
      assert !DotDotAt(s, i);
    }
  }

  lemma ViableAppend(t: string, c: char)
    requires Viable(t) && t != ""
    ensures Viable(t + [c]) <==> Allowed(c) && !(c == '/' && ShapeOf(t).dots)
  {
    hide IsName, EndsLua, EndsLu, EndsL, EndsDot;
    var s := t + [c];
    if c == '/' && ShapeOf(t).dots {
      assert DotDotAt(s, |t| - 2);
    } else if Allowed(c) {
      forall i | 0 <= i < |s| - 2 ensures !DotDotAt(s, i) {
        if i < |t| - 2 {
          assert !DotDotAt(t, i);
        }
      }
    }
    assert s[|t|] == c;
  }

  lemma Stuck(c: char)
    ensures Step(29, c) == Stop && Step(58, c) == Stop
  {
  }

  /** The automaton gets through a text just when it is viable, and then its state says how the text ends. */
  lemma {:induction false} RunAgrees(s: string)
    requires s != ""
    ensures Viable(s) ==> ShapeOf(s).Ok() && Run(s) == Some(ShapeOf(s).State())
    ensures !Viable(s) ==> Run(s) == None || Run(s) == Some(29) || Run(s) == Some(58)
    decreases |s|
  {
    hide Viable, ShapeOf, Shape.Ok, Shape.State, Shape.Grow, Allowed, Step;
    Stuck(s[|s| - 1]);
    var t, c := s[..|s| - 1], s[|s| - 1];
    assert s == t + [c];
    if t == "" {
      assert s == [c];
      ViableOne(c);
      if Viable(s) {
        ShapeOne(c);
      }
    } else {
      RunAgrees(t);
      if Viable(t) {
        ViableAppend(t, c);
        ShapeAppend(t, c);
        ShapeStep(ShapeOf(t), c);
      } else if Viable(s) {
        ViablePrefix(t, c);
      }
    }
  }

  /** The automaton accepts exactly the paths. */
  lemma AcceptsPaths(s: string)
    ensures Accepts(s) <==> IsPath(s)
  {
    if s != "" {
      hide Run, Last, IsName;
      RunAgrees(s);
      forall i | |s| - 2 <= i < |s| && EndsLua(s) ensures !DotDotAt(s, i) {
      }
    }
  }

  /** And a text leads to the name's state just when it is a name. */
  lemma AcceptsNames(s: string)
    ensures Run(s) == Some(63) <==> IsName(s)
  {
    if s != "" {
      hide Run, Last;
      RunAgrees(s);
    }
  }

  // ----- the regular expression -----

  // `USE_PATH_CHAR`, `[^\s/"]`, by the codes of the characters, without two that other cases fold to.
  predicate PathChar(c: char) {
    var code := c as int;
    code != 0 && !(9 <= code <= 13) && code != 32 && code != 34 && code != 47 && code != 0x17F && code != 0x212A
  }

  predicate PathChars(s: string) {
    forall i :: 0 <= i < |s| ==> PathChar(s[i])
  }

  // `USE_PATH_SEG`
  predicate Segment(s: string) {
    || (|s| == 1 && PathChar(s[0]))
    || (|s| >= 2 && s[0] != '.' && PathChar(s[0]) && PathChars(s[1..]))
    || (|s| >= 2 && s[0] == '.' && s[1] != '.' && PathChar(s[1]) && PathChars(s[2..]))
    || (|s| >= 3 && s[0] == '.' && s[1] == '.' && PathChars(s[2..]))
  }

  // `USE_PATH_BODY`: segments, each with slashes behind it, and then some characters and `.lua`.
  ghost predicate Body(s: string)
    decreases |s|
  {
    || (EndsLua(s) && PathChars(s[..|s| - 4]))
    || exists k, m :: 0 < k < m <= |s| && Segment(s[..k]) && Slashes(s, k, m) && Body(s[m..])
  }

  predicate Slashes(s: string, k: nat, m: nat)
    requires m <= |s|
  {
    forall i :: k <= i < m ==> s[i] == '/'
  }

  // A segment is what has no slash and is not `..`.
  lemma Segments(s: string)
    ensures Segment(s) <==> s != "" && PathChars(s) && s != ".."
  {
    if s != "" && PathChars(s) && s != ".." && |s| == 2 {
      assert s == [s[0], s[1]];
    }
  }

  lemma {:induction false} BodyIsPath(s: string)
    requires Body(s)
    ensures IsPath(s)
    decreases |s|
  {
    if EndsLua(s) && PathChars(s[..|s| - 4]) {
      forall i | 0 <= i < |s| ensures PathChar(s[i]) {
        if i < |s| - 4 {
          assert s[..|s| - 4][i] == s[i];
        }
      }
    } else {
      var k, m :| 0 < k < m <= |s| && Segment(s[..k]) && Slashes(s, k, m) && Body(s[m..]);
      BodyIsPath(s[m..]);
      Segments(s[..k]);
      Joined(s, k, m);
    }
  }

  lemma Joined(s: string, k: nat, m: nat)
    requires 0 < k < m <= |s| && PathChars(s[..k]) && s[..k] != ".." && Slashes(s, k, m) && IsPath(s[m..])
    ensures IsPath(s)
  {
    forall i | 0 <= i < |s| ensures Allowed(s[i]) {
      assert if i < k then s[i] == s[..k][i] else if i < m then s[i] == '/' else s[i] == s[m..][i - m];
    }
    assert s[0] == s[..k][0];
    forall i | 0 <= i < |s| ensures !DotDotAt(s, i) {
      if m <= i {
        assert !DotDotAt(s[m..], i - m);
      }
    }
  }

  lemma {:induction false} PathIsBody(s: string)
    requires IsPath(s)
    ensures Body(s)
    decreases |s|
  {
    if at: nat :| at < |s| && s[at] == '/' {
      var k, m := FirstSlashes(s, at);
      assert !DotDotAt(s, 0);
      Segments(s[..k]);
      assert IsPath(s[m..]) by {
        forall i | 0 <= i < |s[m..]| ensures Allowed(s[m..][i]) && !DotDotAt(s[m..], i) {
          assert Allowed(s[m + i]) && !DotDotAt(s, m + i);
        }
      }
      PathIsBody(s[m..]);
    }
  }

  // The first run of slashes; the text begins and ends with something else.
  lemma FirstSlashes(s: string, at: nat) returns (k: nat, m: nat)
    requires IsPath(s) && at < |s| && s[at] == '/'
    ensures 0 < k < m <= |s| - 4 && Slashes(s, k, m) && s[m] != '/' && PathChars(s[..k]) && s[k] == '/'
  {
    k := 0;
    while s[k] != '/'
      invariant k <= at && PathChars(s[..k])
      decreases at - k
    {
      assert Allowed(s[k]);
      k := k + 1;
    }
    m := k;
    while s[m] == '/'
      invariant k <= m < |s| && Slashes(s, k, m)
      decreases |s| - m
    {
      m := m + 1;
    }
  }

  // ----- the lexer -----

  datatype Token = Token(path: bool, end: nat)

  ghost predicate IsToken(s: string) {
    IsPath(s) || IsName(s)
  }

  lemma RunTokens(s: string)
    ensures Run(s) == Some(89) <==> IsPath(s)
    ensures Run(s) == Some(63) <==> IsName(s)
  {
    AcceptsPaths(s);
    AcceptsNames(s);
  }

  lemma RunOn(s: string, start: nat, pos: nat)
    requires start <= pos < |s| && Run(s[start..pos]).Some?
    ensures Run(s[start..pos + 1]) ==
      match Step(Run(s[start..pos]).value, s[pos]) case Advance(state) => Some(state) case _ => None
  {
    assert s[start..pos + 1][..pos - start] == s[start..pos];
  }

  lemma RunStuck(s: string, start: nat, pos: nat, e: nat)
    requires start < pos <= e <= |s| && Run(s[start..pos]).None?
    ensures Run(s[start..e]).None?
    decreases e
  {
    if pos < e {
      RunStuck(s, start, pos, e - 1);
      assert s[start..e][..e - 1 - start] == s[start..e - 1];
    }
  }

  // When the automaton stops, no longer text is a token.
  lemma NoneLonger(s: string, start: nat, pos: nat)
    requires start <= pos <= |s| && Run(s[start..pos]).Some?
    requires pos < |s| ==> Step(Run(s[start..pos]).value, s[pos]).Stop?
    ensures forall e :: pos < e <= |s| ==> !IsToken(s[start..e])
  {
    hide Run, IsPath, IsName;
    forall e | pos < e <= |s| ensures !IsToken(s[start..e]) {
      RunOn(s, start, pos);
      RunStuck(s, start, pos + 1, e);
      RunTokens(s[start..e]);
    }
  }

  lemma RunEmpty()
    ensures Run("") == Some(3)
  {
  }

  lemma StepFacts(state: nat, c: char)
    ensures Step(state, '\0').Stop? && (Step(state, c).Skip? <==> state == 3 && IsBlank(c))
    ensures Step(state, c).Advance? ==> Step(state, c).state != 3
  {
  }

  predicate IsBlank(c: char) {
    c == ' ' || c == '\t' || c == '\r'
  }

  /** `ts_lex` from the state 3: behind white space it finds the longest path or name. */
  method Lex(s: string, i: nat) returns (start: nat, token: Option<Token>)
    requires i <= |s|
    ensures i <= start <= |s| && (forall k :: i <= k < start ==> IsBlank(s[k])) && (start < |s| ==> !IsBlank(s[start]))
    ensures token.Some? ==> start < token.value.end <= |s| && IsToken(s[start..token.value.end])
    ensures token.Some? ==> (token.value.path <==> IsPath(s[start..token.value.end]))
    ensures forall e :: (if token.Some? then token.value.end else start) < e <= |s| ==> !IsToken(s[start..e])
  {
    hide Run, Step, IsPath, IsName, IsBlank;
    RunEmpty();
    start, token := i, None;
    var pos, state := i, 3;
    while true
      invariant i <= start <= pos <= |s| && (forall k :: i <= k < start ==> IsBlank(s[k]))
        && (start < pos ==> !IsBlank(s[start]))
      invariant s[start..start] == "" && Run(s[start..pos]) == Some(state) && (state == 3 <==> pos == start)
      invariant token.Some? ==> start < token.value.end <= pos && IsToken(s[start..token.value.end])
      invariant token.Some? ==> (token.value.path <==> IsPath(s[start..token.value.end]))
      invariant forall e :: (if token.Some? then token.value.end else start) < e < pos ==> !IsToken(s[start..e])
      decreases |s| - pos
    {
      RunTokens(s[start..pos]);
      StepFacts(state, if pos < |s| then s[pos] else '\0');
      if state == 63 || state == 89 {
        token := Some(Token(state == 89, pos));
      }
      var lookahead := if pos < |s| then s[pos] else '\0';
      match Step(state, lookahead) {
        case Advance(t) =>
          RunOn(s, start, pos);
          state := t;
          pos := pos + 1;
        case Skip =>
          pos := pos + 1;
          start := pos;
        case Stop =>
          NoneLonger(s, start, pos);
          return;
      }
    }
  }
}
