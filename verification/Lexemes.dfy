// The lexical elements of Lua (section 3.1 of the Lua 5.4 Reference Manual), said without the lexer.

module Lexemes {
  import opened Options
  import opened LuaText

  // ----- characters, by their codes -----

  predicate Letter(c: char) {
    65 <= c as int <= 90 || c as int == 95 || 97 <= c as int <= 122
  }

  predicate Decimal(c: char) {
    48 <= c as int <= 57
  }

  predicate Hexadecimal(c: char) {
    48 <= c as int <= 57 || 65 <= c as int <= 70 || 97 <= c as int <= 102
  }

  predicate Break(c: char) {
    c as int == 10 || c as int == 13
  }

  predicate White(c: char) {
    9 <= c as int <= 13 || c as int == 32
  }

  lemma Classes(c: char)
    ensures IsAlpha(c) == Letter(c) && IsDigit(c) == Decimal(c) && IsXDigit(c) == Hexadecimal(c)
    ensures IsNewline(c) == Break(c) && IsSpace(c) == White(c)
  {
  }

  // What stands at a place, if anything does.
  predicate Is(s: string, i: nat, c: char) {
    i < |s| && s[i] == c
  }

  predicate BeginsAt(s: string, i: nat, w: string) {
    i + |w| <= |s| && s[i..i + |w|] == w
  }

  // ----- line breaks and other white space -----

  ghost predicate BreakAt(s: string, i: nat, e: nat) {
    && i < |s| && Break(s[i])
    && if i + 1 < |s| && Break(s[i + 1]) && s[i + 1] != s[i] then e == i + 2 else e == i + 1
  }

  lemma BreakMeans(s: string, i: nat, e: nat)
    requires i < |s| && IsNewline(s[i])
    ensures LineBreak(s, i) == e <==> BreakAt(s, i, e)
  {
  }

  // ----- long brackets -----

  ghost predicate OpensAt(s: string, p: nat, n: nat) {
    Is(s, p, '[') && Is(s, p + n + 1, '[') && forall k :: p < k <= p + n ==> s[k] == '='
  }

  ghost predicate ClosesAt(s: string, p: nat, n: nat) {
    Is(s, p, ']') && Is(s, p + n + 1, ']') && forall k :: p < k <= p + n ==> s[k] == '='
  }

  // `e` is the end of the first closing bracket of the level from `i` on.
  ghost predicate ClosedAt(s: string, i: nat, n: nat, e: nat) {
    i + n + 2 <= e && ClosesAt(s, e - n - 2, n) && forall p :: i <= p < e - n - 2 ==> !ClosesAt(s, p, n)
  }

  lemma SkipEqIs(s: string, i: nat, n: nat)
    requires i <= |s| && forall k :: i <= k < i + n ==> Is(s, k, '=')
    requires !Is(s, i + n, '=')
    ensures SkipEq(s, i) == i + n
    decreases n
  {
    assert n > 0 ==> Is(s, i, '=');
    if n > 0 { SkipEqIs(s, i + 1, n - 1); }
  }

  // Between a bracket that does not close the level and the end of the `=` behind it nothing closes it.
  lemma NoneCloses(s: string, i: nat, n: nat, p: nat)
    requires Is(s, i, ']') && i <= p < SkipEq(s, i + 1)
    requires !(At(s, SkipEq(s, i + 1)) == ']' && SkipEq(s, i + 1) - (i + 1) == n)
    ensures !ClosesAt(s, p, n)
  {
    if p > i {
      assert At(s, p) == '=';
    } else if ClosesAt(s, p, n) {
      SkipEqIs(s, i + 1, n);
    }
  }

  lemma ClosesHere(s: string, i: nat, n: nat)
    requires Is(s, i, ']') && At(s, SkipEq(s, i + 1)) == ']' && SkipEq(s, i + 1) == i + 1 + n
    ensures ClosesAt(s, i, n)
  {
    forall k | i < k <= i + n ensures s[k] == '=' { assert At(s, k) == '='; }
  }

  lemma {:induction false} LongCloseMeans(s: string, i: nat, n: nat, e: nat)
    ensures LongClose(s, i, n) == Some(e) <==> ClosedAt(s, i, n, e)
    decreases |s| - i
  {
    if i < |s| {
      if s[i] == ']' {
        var k := SkipEq(s, i + 1);
        if At(s, k) == ']' && k - (i + 1) == n {
          ClosesHere(s, i, n);
        } else {
          LongCloseMeans(s, k, n, e);
          forall p | i <= p < k ensures !ClosesAt(s, p, n) { NoneCloses(s, i, n, p); }
        }
      } else {
        LongCloseMeans(s, i + 1, n, e);
      }
    }
  }

  // ----- escape sequences -----

  function Digit(c: char): nat
    requires Hexadecimal(c)
  {
    if c as int <= 57 then c as int - 48 else if c as int <= 70 then c as int - 55 else c as int - 87
  }

  // The number that the digits from `i` to `e` stand for, behind `r`.
  function NumberOf(s: string, i: nat, e: nat, base: nat, r: nat): nat
    requires i <= e <= |s| && forall k :: i <= k < e ==> Hexadecimal(s[k])
    decreases e - i
  {
    if i == e then r else NumberOf(s, i + 1, e, base, r * base + Digit(s[i]))
  }

  /** The escape sequence behind a backslash extends from `p` to `e`: a letter or a quote, two hexadecimal digits, a
      code point in braces below 2^31, a line break, white space as far as it goes, or up to three decimal digits, as
      many as there are, that stand for a byte. */
  ghost predicate EscapeAt(s: string, p: nat, e: nat) {
    && p < e <= |s|
    && (|| (e == p + 1 && s[p] in ['a', 'b', 'f', 'n', 'r', 't', 'v', '\\', '\"', '\''])
        || (e == p + 3 && s[p] == 'x' && Hexadecimal(s[p + 1]) && Hexadecimal(s[p + 2]))
        || CodePointAt(s, p, e)
        || BreakAt(s, p, e)
        || (s[p] == 'z' && (forall k :: p < k < e ==> White(s[k])) && (e < |s| ==> !White(s[e])))
        || ByteAt(s, p, e))
  }

  ghost predicate CodePointAt(s: string, p: nat, e: nat) {
    && p + 4 <= e <= |s| && s[p] == 'u' && s[p + 1] == '{' && s[e - 1] == '}'
    && (forall k :: p + 2 <= k < e - 1 ==> Hexadecimal(s[k])) && NumberOf(s, p + 2, e - 1, 16, 0) < 0x8000_0000
  }

  ghost predicate ByteAt(s: string, p: nat, e: nat) {
    && p < e <= p + 3 && e <= |s| && (forall k :: p <= k < e ==> Decimal(s[k]))
    && (e < p + 3 && e < |s| ==> !Decimal(s[e])) && NumberOf(s, p, e, 10, 0) <= 255
  }

  lemma {:induction false} HexRunMeans(s: string, i: nat, r: nat, e: nat)
    requires r <= 0x7FFF_FFFF && i <= |s|
    ensures HexRun(s, i, r) == Some(e) <==>
      && i <= e <= |s| && (forall k :: i <= k < e ==> Hexadecimal(s[k])) && (e < |s| ==> !Hexadecimal(s[e]))
      && NumberOf(s, i, e, 16, r) <= 0x7FFF_FFFF
    decreases |s| - i
  {
    if i < |s| {
      Classes(s[i]);
      if IsXDigit(s[i]) {
        if r <= 0x7FF_FFFF {
          HexRunMeans(s, i + 1, r * 16 + HexValue(s[i]), e);
        } else if i < e <= |s| && forall k :: i <= k < e ==> Hexadecimal(s[k]) {
          NumberGrows(s, i + 1, e, 16, r * 16 + Digit(s[i]));
        }
      }
    }
  }

  lemma {:induction false} NumberGrows(s: string, i: nat, e: nat, base: nat, r: nat)
    requires i <= e <= |s| && base >= 1 && forall k :: i <= k < e ==> Hexadecimal(s[k])
    ensures NumberOf(s, i, e, base, r) >= r
    decreases e - i
  {
    if i < e {
      NumberGrows(s, i + 1, e, base, r * base + Digit(s[i]));
      assert r * base >= r;
    }
  }

  lemma {:induction false} SpaceEndMeans(s: string, i: nat, e: nat)
    requires i <= |s|
    ensures SpaceEnd(s, i) == e <==>
      i <= e <= |s| && (forall k :: i <= k < e ==> White(s[k])) && (e < |s| ==> !White(s[e]))
    decreases |s| - i
  {
    if i < |s| && IsSpace(s[i]) { SpaceEndMeans(s, i + 1, e); }
  }

  lemma DecRunMeans(s: string, p: nat, e: nat)
    requires p < |s| && IsDigit(s[p])
    ensures DecRun(s, p, 3) == e <==>
      && p < e <= p + 3 && e <= |s| && (forall k :: p <= k < e ==> Decimal(s[k]))
      && (e < p + 3 && e < |s| ==> !Decimal(s[e]))
  {
    assert DecRun(s, p, 3) == DecRun(s, p + 1, 2);
    if p + 1 < |s| && IsDigit(s[p + 1]) { assert DecRun(s, p, 3) == DecRun(s, p + 2, 1); }
  }

  lemma {:induction false} LastDigit(s: string, i: nat, e: nat, base: nat, r: nat)
    requires i <= e < |s| && forall k :: i <= k <= e ==> Hexadecimal(s[k])
    ensures NumberOf(s, i, e + 1, base, r) == NumberOf(s, i, e, base, r) * base + Digit(s[e])
    decreases e - i
  {
    if i < e { LastDigit(s, i + 1, e, base, r * base + Digit(s[i])); }
  }

  lemma {:induction false} DecValueMeans(s: string, p: nat, e: nat)
    requires p <= e <= |s| && forall k :: p <= k < e ==> IsDigit(s[k]) && Hexadecimal(s[k])
    ensures DecValue(s, p, e) == NumberOf(s, p, e, 10, 0)
    decreases e - p
  {
    if p < e {
      DecValueMeans(s, p, e - 1);
      LastDigit(s, p, e - 1, 10, 0);
    }
  }

  lemma CodePointRun(s: string, p: nat, e: nat)
    requires p + 2 < |s| && s[p] == 'u' && s[p + 1] == '{' && IsXDigit(s[p + 2])
    ensures EscapeEnd(s, p) == Some(e) <==> CodePointAt(s, p, e)
  {
    hide HexRun, NumberOf;
    var first := HexValue(s[p + 2]);
    var r := HexRun(s, p + 3, first);
    if r.Some? { HexRunMeans(s, p + 3, first, r.value); }
    if p + 4 <= e {
      HexRunMeans(s, p + 3, first, e - 1);
      if e <= |s| && forall k :: p + 2 <= k < e - 1 ==> Hexadecimal(s[k]) { FirstDigit(s, p + 2, e - 1); }
    }
  }

  lemma FirstDigit(s: string, i: nat, e: nat)
    requires i < e <= |s| && forall k :: i <= k < e ==> Hexadecimal(s[k])
    ensures NumberOf(s, i, e, 16, 0) == NumberOf(s, i + 1, e, 16, HexValue(s[i]))
  {
    Classes(s[i]);
  }

  lemma CodePointMeans(s: string, p: nat, e: nat)
    requires p < |s| && s[p] == 'u'
    ensures EscapeEnd(s, p) == Some(e) <==> CodePointAt(s, p, e)
  {
    if Is(s, p + 1, '{') && p + 2 < |s| && Hexadecimal(s[p + 2]) {
      Classes(s[p + 2]);
      CodePointRun(s, p, e);
    }
  }

  lemma EscapeMeans(s: string, p: nat, e: nat)
    requires p < |s|
    ensures EscapeEnd(s, p) == Some(e) <==> EscapeAt(s, p, e)
  {
    hide HexRun, NumberOf, DecValue, DecRun;
    Classes(s[p]);
    if s[p] == 'u' {
      CodePointMeans(s, p, e);
    } else if s[p] == 'z' {
      SpaceEndMeans(s, p + 1, e);
    } else if Decimal(s[p]) {
      DecRunMeans(s, p, DecRun(s, p, 3));
      DecRunMeans(s, p, e);
      DecValueMeans(s, p, DecRun(s, p, 3));
    } else if Break(s[p]) {
      BreakMeans(s, p, e);
    }
  }

  // ----- strings in quotes -----

  // A backslash and its escape.
  ghost predicate Escaped(s: string, i: nat, e: nat) {
    Is(s, i, '\\') && i + 1 < e <= |s| && EscapeAt(s, i + 1, e)
  }

  // From `i` to `e` inside a string: characters other than backslashes, line breaks and the quote, and escapes.
  ghost predicate InString(s: string, i: nat, e: nat, del: char)
    decreases e - i
  {
    i == e
    || (i < e <= |s| && s[i] != del && s[i] != '\\' && !Break(s[i]) && InString(s, i + 1, e, del))
    || (i < e <= |s| && exists k: nat :: i < k <= e && Escaped(s, i, k) && InString(s, k, e, del))
  }

  lemma InPlain(s: string, i: nat, e: nat, del: char)
    requires i < e <= |s| && s[i] != '\\'
    ensures InString(s, i, e, del) <==> s[i] != del && !IsNewline(s[i]) && InString(s, i + 1, e, del)
  {
    Classes(s[i]);
  }

  lemma InEscape(s: string, i: nat, e: nat, del: char)
    requires i < e <= |s| && s[i] == '\\'
    ensures InString(s, i, e, del) <==>
      i + 1 < |s| && EscapeEnd(s, i + 1).Some? && EscapeEnd(s, i + 1).value <= e
      && InString(s, EscapeEnd(s, i + 1).value, e, del)
  {
    hide EscapeEnd, EscapeAt;
    if i + 1 < |s| && EscapeEnd(s, i + 1).Some? {
      EscapeMeans(s, i + 1, EscapeEnd(s, i + 1).value);
      assert Escaped(s, i, EscapeEnd(s, i + 1).value);
    }
    if InString(s, i, e, del) {
      var k: nat :| i < k <= e && Escaped(s, i, k) && InString(s, k, e, del);
      EscapeMeans(s, i + 1, k);
    }
  }

  /** A string is accepted if and only if it is in the grammar: characters and escapes up to the first quote that is not
      in an escape. */
  lemma {:induction false} StringEndMeans(s: string, i: nat, del: char, e: nat)
    requires del == '"' || del == '\''
    ensures StringEnd(s, i, del) == Some(e + 1) <==> i <= e < |s| && s[e] == del && InString(s, i, e, del)
    decreases |s| - i
  {
    hide EscapeEnd, EscapeAt, InString;
    if i <= e < |s| {
      if i == e {
        assert InString(s, i, e, del) by { InNothing(s, i, del); }
      } else if s[i] != '\\' {
        InPlain(s, i, e, del);
      } else {
        InEscape(s, i, e, del);
      }
    }
    if i < |s| && s[i] != del && !IsNewline(s[i]) {
      if s[i] != '\\' {
        StringEndMeans(s, i + 1, del, e);
      } else if i + 1 < |s| && EscapeEnd(s, i + 1).Some? {
        StringEndMeans(s, EscapeEnd(s, i + 1).value, del, e);
      }
    }
  }

  lemma InNothing(s: string, i: nat, del: char)
    ensures InString(s, i, i, del)
  {
  }

  // ----- numerals and names -----

  // `%x`, `.`, and exponent marks with or without a sign, one after the other.
  ghost predicate Items(s: string, i: nat, e: nat, marks: seq<char>)
    decreases e - i
  {
    i == e
    || (i < e <= |s| && (Hexadecimal(s[i]) || s[i] == '.' || s[i] in marks) && Items(s, i + 1, e, marks))
    || (i + 1 < e <= |s| && s[i] in marks && (s[i + 1] == '-' || s[i + 1] == '+') && Items(s, i + 2, e, marks))
  }

  // The pattern of numerals: `%d(%x|%.|([Ee][+-]?))* | 0[Xx](%x|%.|([Pp][+-]?))*`
  ghost predicate NumeralText(s: string, i: nat, e: nat) {
    && i < e <= |s|
    && ((Decimal(s[i]) && Items(s, i + 1, e, ['E', 'e']))
        || (i + 1 < e && s[i] == '0' && (s[i + 1] == 'x' || s[i + 1] == 'X') && Items(s, i + 2, e, ['P', 'p'])))
  }

  function Marks(hex: bool): seq<char> {
    if hex then ['P', 'p'] else ['E', 'e']
  }

  lemma MarkIs(c: char, hex: bool)
    ensures IsExpo(c, hex) <==> c in Marks(hex)
    ensures IsXDigit(c) == Hexadecimal(c)
  {
  }

  lemma NumStep(s: string, i: nat, hex: bool)
    requires i < |s|
    ensures NumRun(s, i, hex) ==
      if s[i] in Marks(hex) && i + 1 < |s| && (s[i + 1] == '-' || s[i + 1] == '+') then NumRun(s, i + 2, hex)
      else if s[i] in Marks(hex) || Hexadecimal(s[i]) || s[i] == '.' then NumRun(s, i + 1, hex)
      else i
  {
    MarkIs(s[i], hex);
  }

  lemma ItemsStep(s: string, i: nat, e: nat, hex: bool)
    requires i < e <= |s|
    ensures Items(s, i, e, Marks(hex)) <==>
      ((Hexadecimal(s[i]) || s[i] == '.' || s[i] in Marks(hex)) && Items(s, i + 1, e, Marks(hex)))
      || (i + 1 < e && s[i] in Marks(hex) && (s[i + 1] == '-' || s[i + 1] == '+') && Items(s, i + 2, e, Marks(hex)))
  {
  }

  lemma NoSign(s: string, i: nat, e: nat, hex: bool)
    requires i < e <= |s| && (s[i] == '-' || s[i] == '+')
    ensures !Items(s, i, e, Marks(hex))
  {
  }

  lemma NoItems(s: string, i: nat, hex: bool)
    ensures Items(s, i, i, Marks(hex))
  {
  }

  // The longest run of items.
  lemma {:induction false} NumRunMeans(s: string, i: nat, hex: bool)
    requires i <= |s|
    ensures Items(s, i, NumRun(s, i, hex), Marks(hex))
    ensures forall e: nat :: NumRun(s, i, hex) < e <= |s| ==> !Items(s, i, e, Marks(hex))
    decreases |s| - i
  {
    hide Items, Marks, NumRun, IsExpo;
    NoItems(s, i, hex);
    if i == |s| {
      NumAll(s, hex);
    } else {
      var r := NumRun(s, i, hex);
      NumStep(s, i, hex);
      if s[i] in Marks(hex) && i + 1 < |s| && (s[i + 1] == '-' || s[i + 1] == '+') {
        NumRunMeans(s, i + 2, hex);
        ItemsStep(s, i, r, hex);
        forall e: nat | r < e <= |s| ensures !Items(s, i, e, Marks(hex)) {
          ItemsStep(s, i, e, hex);
          NoSign(s, i + 1, e, hex);
        }
      } else {
        if s[i] in Marks(hex) || Hexadecimal(s[i]) || s[i] == '.' {
          NumRunMeans(s, i + 1, hex);
          ItemsStep(s, i, r, hex);
        }
        forall e: nat | r < e <= |s| ensures !Items(s, i, e, Marks(hex)) { ItemsStep(s, i, e, hex); }
      }
    }
  }

  lemma NumAll(s: string, hex: bool)
    ensures NumRun(s, |s|, hex) == |s|
  {
  }

  /** A numeral is the longest text of its pattern. */
  lemma NumEndMeans(s: string, i: nat)
    requires i < |s| && IsDigit(s[i])
    ensures NumeralText(s, i, NumEnd(s, i))
    ensures forall e: nat :: NumEnd(s, i) < e ==> !NumeralText(s, i, e)
  {
    hide Items, NumRun;
    Classes(s[i]);
    NumRunMeans(s, i + 1, false);
    assert Marks(false) == ['E', 'e'] && Marks(true) == ['P', 'p'];
    if s[i] == '0' && i + 1 < |s| && (s[i + 1] == 'x' || s[i + 1] == 'X') {
      NumRunMeans(s, i + 2, true);
      NoX(s, i + 1);
    }
  }

  lemma NoX(s: string, i: nat)
    requires i < |s| && (s[i] == 'x' || s[i] == 'X')
    ensures forall e: nat :: i < e <= |s| ==> !Items(s, i, e, Marks(false))
  {
  }

  // ----- operators -----

  // Section 3.1: the tokens that are no names, keywords, numerals or strings.
  const OPERATORS: set<string> := {
    "+", "-", "*", "/", "%", "^", "#",
    "&", "~", "|", "<<", ">>", "//",
    "==", "~=", "<=", ">=", "<", ">", "=",
    "(", ")", "{", "}", "[", "]", "::",
    ";", ":", ",", ".", "..", "..."}

  /** The longest operator that begins at `i`; a character with which none begins is a token by itself, to be refused by
      the parser. */
  ghost predicate OperatorAt(s: string, i: nat, e: nat) {
    LongestOf(OPERATORS, s, i, e)
  }

  ghost predicate LongestOf(words: set<string>, s: string, i: nat, e: nat) {
    && i < e <= |s| && (s[i..e] in words || (e == i + 1 && forall w :: w in words ==> !BeginsAt(s, i, w)))
    && forall w :: w in words && BeginsAt(s, i, w) ==> |w| <= e - i
  }

  // Where other tokens, white space and comments begin.
  predicate OtherBegins(s: string, i: nat)
    requires i < |s|
  {
    || White(s[i]) || Letter(s[i]) || Decimal(s[i]) || s[i] == '"' || s[i] == '\''
    || (s[i] == '-' && Is(s, i + 1, '-')) || (s[i] == '[' && (Is(s, i + 1, '[') || Is(s, i + 1, '=')))
    || (s[i] == '.' && i + 1 < |s| && Decimal(s[i + 1]))
  }

  // The characters that are operators.
  predicate Single(c: char) {
    c in "+-*/%^#&~|<>=(){}[];:,."
  }

  // The operators of two characters.
  predicate Pair(c: char, d: char) {
    || (c in "=~<>" && d == '=') || (c == '<' && d == '<') || (c == '>' && d == '>') || (c == '/' && d == '/')
    || (c == ':' && d == ':') || (c == '.' && d == '.')
  }

  lemma InOperators(w: string)
    requires w in OPERATORS
    ensures 1 <= |w| <= 3 && Single(w[0]) && (|w| == 2 ==> Pair(w[0], w[1])) && (|w| == 3 ==> w == "...")
  {
  }

  lemma SingleIn(c: char)
    requires Single(c)
    ensures [c] in OPERATORS
  {
  }

  lemma PairIn(c: char, d: char)
    requires Pair(c, d)
    ensures [c, d] in OPERATORS
  {
  }

  lemma LongestUnique(words: set<string>, s: string, i: nat, d: nat, e: nat)
    requires LongestOf(words, s, i, d) && LongestOf(words, s, i, e)
    ensures d == e
  {
    if s[i..d] in words { assert BeginsAt(s, i, s[i..d]); }
    if s[i..e] in words { assert BeginsAt(s, i, s[i..e]); }
  }

  // Nothing longer than `e` begins.
  lemma NoneLonger(s: string, i: nat, e: nat)
    requires i < e <= |s|
    requires e < i + 2 <= |s| ==> !Pair(s[i], s[i + 1])
    requires e < i + 3 <= |s| ==> !(s[i] == '.' && s[i + 1] == '.' && s[i + 2] == '.')
    ensures forall w :: w in OPERATORS && BeginsAt(s, i, w) ==> |w| <= e - i
  {
    hide Pair, Single;
    forall w | w in OPERATORS && BeginsAt(s, i, w) ensures |w| <= e - i {
      InOperators(w);
      assert forall k :: 0 <= k < |w| ==> s[i..i + |w|][k] == w[k];
    }
  }

  lemma FirstCharacter(s: string, i: nat, w: string)
    requires BeginsAt(s, i, w) && w != ""
    ensures s[i] == w[0]
  {
    assert s[i..i + |w|][0] == s[i];
  }

  lemma OneCharacter(s: string, i: nat)
    requires i < |s| && (i + 2 <= |s| ==> !Pair(s[i], s[i + 1]))
    ensures OperatorAt(s, i, i + 1)
  {
    hide Single;
    NoneLonger(s, i, i + 1);
    assert s[i..i + 1] == [s[i]];
    if Single(s[i]) {
      SingleIn(s[i]);
    } else {
      forall w | w in OPERATORS ensures !BeginsAt(s, i, w) {
        InOperators(w);
        if BeginsAt(s, i, w) { FirstCharacter(s, i, w); }
      }
    }
  }

  lemma TwoCharacters(s: string, i: nat)
    requires i + 2 <= |s| && Pair(s[i], s[i + 1])
    requires i + 3 <= |s| ==> !(s[i] == '.' && s[i + 1] == '.' && s[i + 2] == '.')
    ensures OperatorAt(s, i, i + 2)
  {
    hide Pair;
    NoneLonger(s, i, i + 2);
    assert s[i..i + 2] == [s[i], s[i + 1]];
    PairIn(s[i], s[i + 1]);
  }

  lemma ThreeCharacters(s: string, i: nat)
    requires i + 3 <= |s| && s[i] == '.' && s[i + 1] == '.' && s[i + 2] == '.'
    ensures OperatorAt(s, i, i + 3)
  {
    hide Pair;
    NoneLonger(s, i, i + 3);
    assert s[i..i + 3] == "...";
  }

  /** An operator is the longest member of the list of operators that begins there. */
  lemma OperatorMeans(s: string, i: nat, e: nat)
    requires i < |s| && !OtherBegins(s, i)
    ensures LexStep(s, i).Tok? && (LexStep(s, i).end == e <==> OperatorAt(s, i, e))
  {
    hide LongestOf;
    Classes(s[i]);
    if i + 1 < |s| { Classes(s[i + 1]); }
    if i + 3 <= |s| && s[i] == '.' && s[i + 1] == '.' && s[i + 2] == '.' {
      ThreeCharacters(s, i);
    } else if i + 2 <= |s| && Pair(s[i], s[i + 1]) {
      TwoCharacters(s, i);
    } else {
      OneCharacter(s, i);
    }
    assert OperatorAt(s, i, LexStep(s, i).end);
    if OperatorAt(s, i, e) { LongestUnique(OPERATORS, s, i, LexStep(s, i).end, e); }
  }

  // ----- long strings and comments -----

  ghost predicate Opens(s: string, p: nat) {
    exists n: nat :: OpensAt(s, p, n)
  }

  ghost predicate LongAt(s: string, p: nat, e: nat) {
    exists n: nat :: OpensAt(s, p, n) && ClosedAt(s, p + n + 2, n, e)
  }

  lemma OpensIs(s: string, p: nat, n: nat)
    requires OpensAt(s, p, n)
    ensures SkipEq(s, p + 1) == p + 1 + n && At(s, p + 1 + n) == '['
  {
    SkipEqIs(s, p + 1, n);
  }

  lemma OpensHere(s: string, p: nat)
    requires Is(s, p, '[') && At(s, SkipEq(s, p + 1)) == '['
    ensures OpensAt(s, p, SkipEq(s, p + 1) - (p + 1))
  {
    forall k | p < k < SkipEq(s, p + 1) ensures s[k] == '=' { assert At(s, k) == '='; }
  }

  lemma LongMeans(s: string, p: nat, e: nat)
    requires Is(s, p, '[')
    ensures var k := SkipEq(s, p + 1);
      && (Opens(s, p) <==> At(s, k) == '[')
      && (LongAt(s, p, e) <==> At(s, k) == '[' && LongClose(s, k + 1, k - (p + 1)) == Some(e))
  {
    hide OpensAt, ClosedAt;
    var k := SkipEq(s, p + 1);
    if At(s, k) == '[' {
      OpensHere(s, p);
      LongCloseMeans(s, k + 1, k - (p + 1), e);
    }
    if n: nat :| OpensAt(s, p, n) { OpensIs(s, p, n); }
    if LongAt(s, p, e) {
      var n: nat :| OpensAt(s, p, n) && ClosedAt(s, p + n + 2, n, e);
      OpensIs(s, p, n);
    }
  }

  ghost predicate LineAt(s: string, i: nat, e: nat) {
    i <= e <= |s| && (forall k :: i <= k < e ==> !Break(s[k])) && (e < |s| ==> Break(s[e]))
  }

  lemma LineMeans(s: string, i: nat, e: nat)
    requires i <= |s|
    ensures LineEnd(s, i) == e <==> LineAt(s, i, e)
  {
    var d := LineEnd(s, i);
    forall k | i <= k < d ensures !Break(s[k]) { assert !IsNewline(s[k]); }
    if d < |s| { assert IsNewline(s[d]); }
  }

  // `--` and a long bracket up to its end, or else the rest of the line.
  ghost predicate CommentAt(s: string, i: nat, e: nat) {
    Is(s, i, '-') && Is(s, i + 1, '-') && if Opens(s, i + 2) then LongAt(s, i + 2, e) else LineAt(s, i + 2, e)
  }

  // The line goes on behind `=`.
  lemma LineBehind(s: string, i: nat, e: nat)
    requires Is(s, i, '[')
    ensures LineAt(s, SkipEq(s, i + 1), e) <==> LineAt(s, i, e)
  {
    var d := SkipEq(s, i + 1);
    forall k | i < k < d ensures k < |s| && s[k] == '=' { assert At(s, k) == '='; }
  }

  lemma CommentMeans(s: string, i: nat, e: nat)
    requires Is(s, i, '-') && Is(s, i + 1, '-')
    ensures CommentEnd(s, i + 2) == Some(e) <==> CommentAt(s, i, e)
  {
    hide LongAt, LineAt, LongClose, OpensAt;
    if Is(s, i + 2, '[') {
      LongMeans(s, i + 2, e);
      LineBehind(s, i + 2, e);
      LineMeans(s, SkipEq(s, i + 3), e);
    } else {
      NotOpen(s, i + 2);
      LineMeans(s, i + 2, e);
    }
  }

  lemma NotOpen(s: string, p: nat)
    requires !Is(s, p, '[')
    ensures !Opens(s, p)
  {
  }

  // ----- one element -----

  ghost predicate BlankAt(s: string, i: nat, e: nat) {
    || BreakAt(s, i, e) || (i < |s| && White(s[i]) && !Break(s[i]) && e == i + 1) || CommentAt(s, i, e)
  }

  predicate InName(c: char) {
    Letter(c) || Decimal(c)
  }

  ghost predicate NameAt(s: string, i: nat, e: nat) {
    && i < e <= |s| && Letter(s[i]) && (forall k :: i < k < e ==> InName(s[k])) && (e < |s| ==> !InName(s[e]))
  }

  // Where the pattern of a numeral begins.
  function NumeralStart(s: string, i: nat): nat {
    if Is(s, i, '.') then i + 1 else i
  }

  // A numeral, perhaps behind a point, that neither touches a letter nor ends with a sign.
  ghost predicate NumeralAt(s: string, i: nat, e: nat) {
    var b := NumeralStart(s, i);
    && NumeralText(s, b, e) && (forall d: nat :: e < d ==> !NumeralText(s, b, d))
    && (e < |s| ==> !Letter(s[e])) && s[e - 1] != '-' && s[e - 1] != '+'
  }

  ghost predicate QuotedAt(s: string, i: nat, e: nat) {
    i + 2 <= e <= |s| && (s[i] == '"' || s[i] == '\'') && s[e - 1] == s[i] && InString(s, i + 1, e - 1, s[i])
  }

  ghost predicate TokenAt(s: string, i: nat, e: nat) {
    || NameAt(s, i, e) || NumeralAt(s, i, e) || QuotedAt(s, i, e) || LongAt(s, i, e)
    || (i < |s| && !OtherBegins(s, i) && OperatorAt(s, i, e))
  }

  lemma NameMeans(s: string, i: nat, e: nat)
    requires i < |s| && Letter(s[i])
    ensures NameEnd(s, i + 1) == e <==> NameAt(s, i, e)
  {
    var d := NameEnd(s, i + 1);
    forall k | i < k < d ensures InName(s[k]) { assert IsAlnum(s[k]); }
    if d < |s| { assert !IsAlnum(At(s, d)); }
  }

  lemma QuotedMeans(s: string, i: nat, e: nat)
    requires i < |s| && (s[i] == '"' || s[i] == '\'')
    ensures StringEnd(s, i + 1, s[i]) == Some(e) <==> QuotedAt(s, i, e)
  {
    hide StringEnd, InString;
    if e > 0 { StringEndMeans(s, i + 1, s[i], e - 1); }
  }

  lemma NumeralMeans(s: string, i: nat, e: nat)
    requires i < |s| && (Decimal(s[i]) || (s[i] == '.' && i + 1 < |s| && Decimal(s[i + 1])))
    ensures Numeral(s, NumeralStart(s, i)) == Tok(Other, e) <==> NumeralAt(s, i, e)
    ensures var r := Numeral(s, NumeralStart(s, i)); !r.Skip? && (r.Tok? ==> r.kind.Other?)
  {
    hide NumeralText, NumEnd;
    var b := NumeralStart(s, i);
    NumEndMeans(s, b);
    var d := NumEnd(s, b);
    if d < |s| { Classes(s[d]); }
    if NumeralAt(s, i, e) { assert d == e; }
  }

  // How each begins.
  lemma Begin(s: string, i: nat, e: nat)
    requires i < |s|
    ensures NameAt(s, i, e) ==> Letter(s[i])
    ensures NumeralAt(s, i, e) ==> Decimal(s[i]) || (s[i] == '.' && i + 1 < |s| && Decimal(s[i + 1]))
    ensures QuotedAt(s, i, e) ==> s[i] == '"' || s[i] == '\''
    ensures LongAt(s, i, e) ==> s[i] == '[' && (Is(s, i + 1, '[') || Is(s, i + 1, '='))
    ensures BreakAt(s, i, e) ==> Break(s[i])
    ensures CommentAt(s, i, e) ==> s[i] == '-' && Is(s, i + 1, '-')
  {
    hide Items, ClosedAt;
  }

  /** One round of the lexer is exactly the description: it skips what is blank, finds what is a token, and fails where
      there is neither. */
  lemma StepMeans(s: string, i: nat, e: nat)
    requires i < |s|
    ensures LexStep(s, i) == Skip(e) <==> BlankAt(s, i, e)
    ensures LexStep(s, i).Tok? && LexStep(s, i).end == e <==> TokenAt(s, i, e)
    ensures LexStep(s, i).Tok? ==>
      LexStep(s, i).kind == if s[i] == '{' then Open else if s[i] == '}' then Close else Other
  {
    hide NameAt, NumeralAt, QuotedAt, LongAt, BreakAt, CommentAt, OperatorAt, Numeral, StringEnd, LongClose, CommentEnd,
         NameEnd, SkipEq, LineBreak;
    Classes(s[i]);
    if i + 1 < |s| { Classes(s[i + 1]); }
    Begin(s, i, e);
    if Break(s[i]) {
      BreakMeans(s, i, e);
    } else if s[i] == '-' && Is(s, i + 1, '-') {
      CommentMeans(s, i, e);
    } else if s[i] == '[' && (Is(s, i + 1, '[') || Is(s, i + 1, '=')) {
      LongMeans(s, i, e);
    } else if s[i] == '"' || s[i] == '\'' {
      QuotedMeans(s, i, e);
    } else if Letter(s[i]) {
      NameMeans(s, i, e);
    } else if Decimal(s[i]) || (s[i] == '.' && i + 1 < |s| && Decimal(s[i + 1])) {
      NumeralMeans(s, i, e);
    } else if !White(s[i]) {
      OperatorMeans(s, i, e);
    }
  }

  // ----- the next token -----

  // White space and comments from `i` to `a`.
  ghost predicate Blanks(s: string, i: nat, a: nat)
    decreases a - i
  {
    i == a || exists e: nat :: i < e <= a && BlankAt(s, i, e) && Blanks(s, e, a)
  }

  // Neither a blank nor a token begins at `a`.
  ghost predicate Stray(s: string, a: nat) {
    a < |s| && forall e: nat :: !BlankAt(s, a, e) && !TokenAt(s, a, e)
  }

  // What is found from `i` on.
  ghost predicate Found(s: string, i: nat, t: Token) {
    match t
    case Token(kind, a, b) =>
      && a < |s| && Blanks(s, i, a) && TokenAt(s, a, b)
      && kind == if s[a] == '{' then Open else if s[a] == '}' then Close else Other
    case Eos => Blanks(s, i, |s|)
    case Error => exists a: nat :: Blanks(s, i, a) && Stray(s, a)
  }

  /** The next token is the first token behind white space and comments; there is none just if these go on to the end,
      and an error if something else is in the way. */
  lemma {:induction false} NextTokenMeans(s: string, i: nat)
    requires i <= |s|
    ensures Found(s, i, NextToken(s, i))
    decreases |s| - i
  {
    hide LexStep, BlankAt, TokenAt;
    if i < |s| {
      var r := LexStep(s, i);
      if r.Skip? {
        StepMeans(s, i, r.end);
        NextTokenMeans(s, r.end);
        FoundBehind(s, i, r.end, NextToken(s, r.end));
      } else if r.Tok? {
        StepMeans(s, i, r.end);
      } else {
        forall e: nat ensures !BlankAt(s, i, e) && !TokenAt(s, i, e) { StepMeans(s, i, e); }
        assert Blanks(s, i, i) && Stray(s, i);
      }
    }
  }

  lemma FoundBehind(s: string, i: nat, e: nat, t: Token)
    requires i < e <= |s| && BlankAt(s, i, e) && Found(s, e, t)
    ensures Found(s, i, t)
  {
    hide BlankAt, TokenAt, Stray;
    BlanksForward(s, e);
    if t.Error? {
      var a: nat :| Blanks(s, e, a) && Stray(s, a);
      assert Blanks(s, i, a);
    }
  }

  lemma BlanksForward(s: string, i: nat)
    ensures forall a: nat :: Blanks(s, i, a) ==> i <= a
  {
  }
}
