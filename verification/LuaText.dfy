// The lexical structure of Lua text, as the Lua lexer reads it.

module LuaText {
  import opened Options

  // The character at `i`; past the end no character that means anything.
  function At(s: string, i: nat): char {
    if i < |s| then s[i] else '\0'
  }

  predicate IsDigit(c: char) {
    '0' <= c <= '9'
  }

  predicate IsXDigit(c: char) {
    IsDigit(c) || 'a' <= c <= 'f' || 'A' <= c <= 'F'
  }

  predicate IsAlpha(c: char) {
    'a' <= c <= 'z' || 'A' <= c <= 'Z' || c == '_'
  }

  predicate IsAlnum(c: char) {
    IsAlpha(c) || IsDigit(c)
  }

  predicate IsNewline(c: char) {
    c == '\n' || c == '\r'
  }

  predicate IsSpace(c: char) {
    IsNewline(c) || c == ' ' || c == '\t' || c == '\U{0B}' || c == '\U{0C}'
  }

  // ----- spans -----

  // `inclinenumber`: a line break is one character, or two different ones.
  function LineBreak(s: string, i: nat): (e: nat)
    requires i < |s|
    ensures i < e <= |s|
  {
    if IsNewline(At(s, i + 1)) && At(s, i + 1) != s[i] then i + 2 else i + 1
  }

  // The end of a run of `=`.
  function SkipEq(s: string, i: nat): (e: nat)
    ensures i <= e && (i <= |s| ==> e <= |s|) && At(s, e) != '=' && forall k :: i <= k < e ==> At(s, k) == '='
    decreases |s| - i
  {
    if At(s, i) == '=' then SkipEq(s, i + 1) else i
  }

  // The end of the closing long bracket of a level, from inside; none if the text ends first.
  function LongClose(s: string, i: nat, level: nat): (e: Option<nat>)
    ensures e.Some? ==> i < e.value <= |s|
    decreases |s| - i
  {
    if i >= |s| then None
    else if s[i] == ']' then
      var k := SkipEq(s, i + 1);
      if At(s, k) == ']' && k - (i + 1) == level then Some(k + 1) else LongClose(s, k, level)
    else LongClose(s, i + 1, level)
  }

  // The end of the line.
  function LineEnd(s: string, i: nat): (e: nat)
    ensures i <= e && (i <= |s| ==> e <= |s|) && (e < |s| ==> IsNewline(s[e]))
      && forall k :: i <= k < e && k < |s| ==> !IsNewline(s[k])
    decreases |s| - i
  {
    if i < |s| && !IsNewline(s[i]) then LineEnd(s, i + 1) else i
  }

  // What follows `--`: a long comment, or a comment to the end of the line; none if a long comment does not end.
  function CommentEnd(s: string, i: nat): (e: Option<nat>)
    requires i <= |s|
    ensures e.Some? ==> i <= e.value <= |s|
  {
    if At(s, i) == '[' then
      var k := SkipEq(s, i + 1);
      if At(s, k) == '[' then LongClose(s, k + 1, k - (i + 1)) else Some(LineEnd(s, k))
    else Some(LineEnd(s, i))
  }

  // The end of the white space after `\z`.
  function SpaceEnd(s: string, i: nat): (e: nat)
    ensures i <= e && (i <= |s| ==> e <= |s|) && forall k :: i <= k < e && k < |s| ==> IsSpace(s[k])
    decreases |s| - i
  {
    if i < |s| && IsSpace(s[i]) then SpaceEnd(s, i + 1) else i
  }

  function HexValue(c: char): nat
    requires IsXDigit(c)
  {
    if IsDigit(c) then c as int - '0' as int else if c <= 'F' then c as int - 'A' as int + 10
      else c as int - 'a' as int + 10
  }

  // The digits of `\u{...}` after the first, with the value so far; none if the value gets too large.
  function HexRun(s: string, i: nat, r: nat): (e: Option<nat>)
    ensures e.Some? && i <= |s| ==> i <= e.value <= |s| && forall k :: i <= k < e.value ==> IsXDigit(s[k])
    decreases |s| - i
  {
    if i < |s| && IsXDigit(s[i]) then
      if r <= 0x7FFFFFF then HexRun(s, i + 1, r * 16 + HexValue(s[i])) else None
    else Some(i)
  }

  // The digits of a decimal escape, three at most.
  function DecRun(s: string, i: nat, n: nat): (e: nat)
    ensures i <= e && (i <= |s| ==> e <= |s|) && forall k :: i <= k < e && k < |s| ==> IsDigit(s[k])
    decreases n
  {
    if n > 0 && i < |s| && IsDigit(s[i]) then DecRun(s, i + 1, n - 1) else i
  }

  function DecValue(s: string, i: nat, e: nat): nat
    requires i <= e <= |s| && forall k :: i <= k < e ==> IsDigit(s[k])
    decreases e - i
  {
    if i == e then 0 else 10 * DecValue(s, i, e - 1) + HexValue(s[e - 1])
  }

  // The end of an escape sequence, from behind the backslash; none if it is not valid.
  function EscapeEnd(s: string, i: nat): (e: Option<nat>)
    requires i < |s|
    ensures e.Some? ==> i < e.value <= |s|
  {
    var c := s[i];
    if c in "abfnrtv\\\"'" then Some(i + 1)
    else if c == 'x' then if IsXDigit(At(s, i + 1)) && IsXDigit(At(s, i + 2)) then Some(i + 3) else None
    else if c == 'u' then
      if At(s, i + 1) == '{' && IsXDigit(At(s, i + 2)) then
        var r := HexRun(s, i + 3, HexValue(s[i + 2]));
        if r.Some? && At(s, r.value) == '}' then Some(r.value + 1) else None
      else None
    else if IsNewline(c) then Some(LineBreak(s, i))
    else if c == 'z' then Some(SpaceEnd(s, i + 1))
    else if IsDigit(c) then
      var e := DecRun(s, i, 3);
      if DecValue(s, i, e) <= 255 then Some(e) else None
    else None
  }

  // The end of a short string, from inside; none if it is not finished on its line or has a bad escape.
  function StringEnd(s: string, i: nat, del: char): (e: Option<nat>)
    ensures e.Some? ==> i < e.value <= |s|
    decreases |s| - i
  {
    if i >= |s| || (IsNewline(s[i]) && s[i] != del) then None
    else if s[i] == del then Some(i + 1)
    else if s[i] == '\\' then
      if i + 1 >= |s| then None else
        var k := EscapeEnd(s, i + 1);
        if k.None? then None else StringEnd(s, k.value, del)
    else StringEnd(s, i + 1, del)
  }

  // ----- numerals and names -----

  predicate IsSign(c: char) {
    c == '-' || c == '+'
  }

  // An exponent mark.
  predicate IsExpo(c: char, hex: bool) {
    if hex then c == 'P' || c == 'p' else c == 'E' || c == 'e'
  }

  // The loop of `read_numeral`.
  function NumRun(s: string, i: nat, hex: bool): (e: nat)
    ensures i <= e && (i <= |s| ==> e <= |s|)
    decreases |s| - i
  {
    if i < |s| && IsExpo(s[i], hex) then if IsSign(At(s, i + 1)) then NumRun(s, i + 2, hex) else NumRun(s, i + 1, hex)
    else if i < |s| && (IsXDigit(s[i]) || s[i] == '.') then NumRun(s, i + 1, hex)
    else i
  }

  function NumEnd(s: string, i: nat): (e: nat)
    requires i < |s|
    ensures i < e <= |s|
  {
    if s[i] == '0' && (At(s, i + 1) == 'x' || At(s, i + 1) == 'X') then NumRun(s, i + 2, true)
      else NumRun(s, i + 1, false)
  }

  /** A numeral that touches a letter or ends with a sign is malformed. Others may be too, for reasons that do not
      matter here. */
  predicate NumOk(s: string, i: nat)
    requires i < |s|
  {
    !IsAlpha(At(s, NumEnd(s, i))) && !IsSign(s[NumEnd(s, i) - 1])
  }

  function NameEnd(s: string, i: nat): (e: nat)
    ensures i <= e && (i <= |s| ==> e <= |s|) && (forall k :: i <= k < e && k < |s| ==> IsAlnum(s[k]))
      && !IsAlnum(At(s, e))
    decreases |s| - i
  {
    if i < |s| && IsAlnum(s[i]) then NameEnd(s, i + 1) else i
  }

  // ----- one round of the lexer -----

  datatype Kind = Open | Close | Other

  // What the lexer finds at a character: something to skip, a token, or an error.
  datatype Step = Skip(end: nat) | Tok(kind: Kind, end: nat) | Bad

  function Skipping(e: Option<nat>): Step {
    if e.Some? then Skip(e.value) else Bad
  }

  function Tokened(e: Option<nat>): Step {
    if e.Some? then Tok(Other, e.value) else Bad
  }

  function Numeral(s: string, i: nat): Step
    requires i < |s|
  {
    if NumOk(s, i) then Tok(Other, NumEnd(s, i)) else Bad
  }

  // The end of an operator that may have a second character.
  function Double(s: string, i: nat, second: string): nat {
    if i + 1 < |s| && s[i + 1] in second then i + 2 else i + 1
  }

  function LexStep(s: string, i: nat): (r: Step)
    requires i < |s|
    ensures !r.Bad? ==> i < r.end <= |s|
  {
    var c := s[i];
    if IsNewline(c) then Skip(LineBreak(s, i))
    else if IsSpace(c) then Skip(i + 1)
    else if c == '-' then if At(s, i + 1) == '-' then Skipping(CommentEnd(s, i + 2)) else Tok(Other, i + 1)
    else if c == '[' then
      var k := SkipEq(s, i + 1);
      if At(s, k) == '[' then Tokened(LongClose(s, k + 1, k - (i + 1)))
      else if k == i + 1 then Tok(Other, i + 1) else Bad
    else if c == '=' || c == '~' then Tok(Other, Double(s, i, "="))
    else if c == '<' then Tok(Other, Double(s, i, "=<"))
    else if c == '>' then Tok(Other, Double(s, i, "=>"))
    else if c == '/' then Tok(Other, Double(s, i, "/"))
    else if c == ':' then Tok(Other, Double(s, i, ":"))
    else if c == '"' || c == '\'' then Tokened(StringEnd(s, i + 1, c))
    else if c == '.' then
      if At(s, i + 1) == '.' then Tok(Other, if At(s, i + 2) == '.' then i + 3 else i + 2)
      else if IsDigit(At(s, i + 1)) then Numeral(s, i + 1) else Tok(Other, i + 1)
    else if IsDigit(c) then Numeral(s, i)
    else if IsAlpha(c) then Tok(Other, NameEnd(s, i + 1))
    else Tok(if c == '{' then Open else if c == '}' then Close else Other, i + 1)
  }

  // ----- tokens -----

  datatype Token = Token(kind: Kind, start: nat, end: nat) | Eos | Error

  // The next token: what one call of `llex` finds.
  function NextToken(s: string, i: nat): (t: Token)
    ensures t.Token? ==> i <= t.start < t.end <= |s|
    decreases |s| - i
  {
    if i >= |s| then Eos
    else match LexStep(s, i)
      case Bad => Error
      case Tok(k, e) => Token(k, i, e)
      case Skip(e) => NextToken(s, e)
  }
}
