// The Lua lexer.

module Llex {
  import opened LuaText
  import Lexemes

  class LexState {
    const text: string
    // The current character is the one at `pos`; there is none behind the text.
    var pos: nat

    ghost predicate Valid()
      reads `pos
    {
      pos <= |text|
    }

    constructor (s: string)
      ensures Valid() && text == s && pos == 0
    {
      text, pos := s, 0;
    }

    function Current(): char
      reads `pos
    {
      At(text, pos)
    }

    predicate AtEnd()
      reads `pos
    {
      pos >= |text|
    }

    method Next()
      requires Valid() && !AtEnd()
      modifies `pos
      ensures Valid() && pos == old(pos) + 1
    {
      pos := pos + 1;
    }

    method CheckNext1(c: char) returns (b: bool)
      requires Valid() && c != '\0'
      modifies `pos
      ensures Valid() && b == (At(text, old(pos)) == c) && pos == old(pos) + if b then 1 else 0
    {
      b := Current() == c;
      if b {
        Next();
      }
    }

    method CheckNext2(c: char, d: char) returns (b: bool)
      requires Valid() && c != '\0' && d != '\0'
      modifies `pos
      ensures Valid() && b == (At(text, old(pos)) == c || At(text, old(pos)) == d)
        && pos == old(pos) + if b then 1 else 0
    {
      b := Current() == c || Current() == d;
      if b {
        Next();
      }
    }

    // `inclinenumber`
    method IncLineNumber()
      requires Valid() && !AtEnd() && IsNewline(Current())
      modifies `pos
      ensures Valid() && pos == LineBreak(text, old(pos))
    {
      var first := Current();
      Next();
      if IsNewline(Current()) && Current() != first {
        Next();
      }
    }

    /** `read_numeral`. Of the conversion that follows only this is modelled: what touches a letter or ends with a sign
        does not convert. */
    method ReadNumeral() returns (ok: bool)
      requires Valid() && !AtEnd() && IsDigit(Current())
      modifies `pos
      ensures Valid() && ok == NumOk(text, old(pos)) && pos == NumEnd(text, old(pos))
    {
      hide HexRun, DecRun, LexStep, EscapeEnd, StringEnd, LongClose, NextToken;
      var hex := false;
      var first := Current();
      Next();
      if first == '0' {
        hex := CheckNext2('x', 'X');
      }
      ghost var i := pos;
      while true
        invariant Valid() && old(pos) < pos && NumRun(text, pos, hex) == NumRun(text, i, hex)
        decreases |text| - pos
      {
        var expo := CheckNext2(if hex then 'P' else 'E', if hex then 'p' else 'e');
        if expo {
          var sign := CheckNext2('-', '+');
        } else if !AtEnd() && (IsXDigit(Current()) || Current() == '.') {
          Next();
        } else {
          break;
        }
      }
      ok := !IsAlpha(Current()) && !IsSign(text[pos - 1]);
    }

    /** `skip_sep`: from a bracket to the next such bracket, or to what stands there instead; the number of `=` plus 2,
        1 for a single bracket, 0 if the second one is missing. */
    method SkipSep() returns (sep: nat)
      requires Valid() && !AtEnd() && (Current() == '[' || Current() == ']')
      modifies `pos
      ensures Valid() && pos == SkipEq(text, old(pos) + 1)
      ensures sep == if At(text, pos) == text[old(pos)] then pos - old(pos) + 1 else if pos == old(pos) + 1 then 1
        else 0
    {
      var count := 0;
      var s := Current();
      Next();
      while Current() == '='
        invariant Valid() && pos == old(pos) + 1 + count && SkipEq(text, pos) == SkipEq(text, old(pos) + 1)
        decreases |text| - pos
      {
        Next();
        count := count + 1;
      }
      return if Current() == s then count + 2 else if count == 0 then 1 else 0;
    }

    // `read_long_string`, from the second bracket on.
    method ReadLongString(sep: nat) returns (ok: bool)
      requires Valid() && !AtEnd() && sep >= 2
      modifies `pos
      ensures Valid() && ok == LongClose(text, old(pos) + 1, sep - 2).Some?
      ensures ok ==> pos == LongClose(text, old(pos) + 1, sep - 2).value
    {
      Next();
      ghost var i := pos;
      if IsNewline(Current()) {
        IncLineNumber();
      }
      while true
        invariant Valid() && LongClose(text, pos, sep - 2) == LongClose(text, i, sep - 2)
        decreases |text| - pos
      {
        if AtEnd() {
          return false;
        } else if Current() == ']' {
          var n := SkipSep();
          if n == sep {
            Next();
            return true;
          }
        } else if IsNewline(Current()) {
          IncLineNumber();
        } else {
          Next();
        }
      }
    }

    // `gethexa`: passes one character and looks at the next.
    method GetHexa() returns (ok: bool, value: nat)
      requires Valid() && !AtEnd()
      modifies `pos
      ensures Valid() && pos == old(pos) + 1 && ok == IsXDigit(At(text, pos))
      ensures ok ==> pos < |text| && value == HexValue(text[pos])
    {
      Next();
      ok := IsXDigit(Current());
      value := if ok then HexValue(Current()) else 0;
    }

    // `readhexaesc`, up to the last digit.
    method ReadHexEsc() returns (ok: bool)
      requires Valid() && !AtEnd()
      modifies `pos
      ensures Valid() && ok == (IsXDigit(At(text, old(pos) + 1)) && IsXDigit(At(text, old(pos) + 2)))
      ensures ok ==> pos == old(pos) + 2 < |text|
    {
      var v;
      ok, v := GetHexa();
      if ok {
        ok, v := GetHexa();
      }
    }

    // `readutf8esc`
    method ReadUtf8Esc() returns (ok: bool)
      requires Valid() && !AtEnd() && Current() == 'u'
      modifies `pos
      ensures Valid() && ok == EscapeEnd(text, old(pos)).Some?
      ensures ok ==> pos == EscapeEnd(text, old(pos)).value
    {
      Next();
      if Current() != '{' {
        return false;
      }
      var r: nat;
      ok, r := GetHexa();
      if !ok {
        return false;
      }
      Next();
      ghost var i, first := pos, r;
      while !AtEnd() && IsXDigit(Current())
        invariant Valid() && HexRun(text, pos, r) == HexRun(text, i, first)
        decreases |text| - pos
      {
        if r > 0x7FFFFFF {
          return false;
        }
        r := r * 16 + HexValue(Current());
        Next();
      }
      if Current() != '}' {
        return false;
      }
      Next();
      return true;
    }

    // `readdecesc`
    method ReadDecEsc() returns (ok: bool)
      requires Valid() && !AtEnd() && IsDigit(Current())
      modifies `pos
      ensures Valid() && pos == DecRun(text, old(pos), 3) && ok == (DecValue(text, old(pos), pos) <= 255)
    {
      var i, r := 0, 0;
      while i < 3 && !AtEnd() && IsDigit(Current())
        invariant Valid() && 0 <= i <= 3 && pos == old(pos) + i && DecRun(text, pos, 3 - i) == DecRun(text, old(pos), 3)
        invariant forall k :: old(pos) <= k < pos ==> IsDigit(text[k])
        invariant r == DecValue(text, old(pos), pos)
      {
        r := 10 * r + HexValue(Current());
        Next();
        i := i + 1;
      }
      return r <= 255;
    }

    // The escape sequence behind a backslash.
    method ReadEscape() returns (ok: bool)
      requires Valid() && !AtEnd()
      modifies `pos
      ensures Valid() && ok == EscapeEnd(text, old(pos)).Some?
      ensures ok ==> pos == EscapeEnd(text, old(pos)).value
    {
      var c := Current();
      if c in "abfnrtv\\\"'" {
        Next();
        ok := true;
      } else if c == 'x' {
        ok := ReadHexEsc();
        if ok {
          Next();
        }
      } else if c == 'u' {
        ok := ReadUtf8Esc();
      } else if IsNewline(c) {
        IncLineNumber();
        ok := true;
      } else if c == 'z' {
        Next();
        SkipSpaces();
        ok := true;
      } else if IsDigit(c) {
        ok := ReadDecEsc();
      } else {
        ok := false;
      }
    }

    method SkipSpaces()
      requires Valid()
      modifies `pos
      ensures Valid() && pos == SpaceEnd(text, old(pos))
    {
      while !AtEnd() && IsSpace(Current())
        invariant Valid() && SpaceEnd(text, pos) == SpaceEnd(text, old(pos))
        decreases |text| - pos
      {
        if IsNewline(Current()) {
          IncLineNumber();
        } else {
          Next();
        }
      }
    }

    // `read_string`
    method ReadString(del: char) returns (ok: bool)
      requires Valid() && !AtEnd() && Current() == del && (del == '"' || del == '\'')
      modifies `pos
      ensures Valid() && ok == StringEnd(text, old(pos) + 1, del).Some?
      ensures ok ==> pos == StringEnd(text, old(pos) + 1, del).value
    {
      Next();
      while Current() != del
        invariant Valid() && StringEnd(text, pos, del) == StringEnd(text, old(pos) + 1, del)
        decreases |text| - pos
      {
        if AtEnd() || IsNewline(Current()) {
          return false;
        } else if Current() == '\\' {
          Next();
          if !AtEnd() {
            ok := ReadEscape();
            if !ok {
              return false;
            }
          }
        } else {
          Next();
        }
      }
      Next();
      return true;
    }

    // The end of a short comment.
    method SkipLine()
      requires Valid()
      modifies `pos
      ensures Valid() && pos == LineEnd(text, old(pos))
    {
      while !AtEnd() && !IsNewline(Current())
        invariant Valid() && LineEnd(text, pos) == LineEnd(text, old(pos))
        decreases |text| - pos
      {
        Next();
      }
    }

    // What follows `--`.
    method SkipComment() returns (ok: bool)
      requires Valid()
      modifies `pos
      ensures Valid() && ok == CommentEnd(text, old(pos)).Some?
      ensures ok ==> pos == CommentEnd(text, old(pos)).value
    {
      if Current() == '[' {
        var sep := SkipSep();
        if sep >= 2 {
          ok := ReadLongString(sep);
          return;
        }
      }
      SkipLine();
      return true;
    }

    method ReadName()
      requires Valid() && !AtEnd()
      modifies `pos
      ensures Valid() && pos == NameEnd(text, old(pos) + 1)
    {
      Next();
      while !AtEnd() && IsAlnum(Current())
        invariant Valid() && NameEnd(text, pos) == NameEnd(text, old(pos) + 1)
        decreases |text| - pos
      {
        Next();
      }
    }

    // The arms of `llex` for a token.
    method LexToken() returns (ok: bool)
      requires Valid() && !AtEnd() && !IsSpace(Current())
      requires !(Current() == '-' && At(text, pos + 1) == '-')
      modifies `pos
      ensures Valid() && ok == !LexStep(text, old(pos)).Bad?
      ensures ok ==> LexStep(text, old(pos)).Tok? && pos == LexStep(text, old(pos)).end
    {
      var c := Current();
      ok := true;
      if c == '[' {
        var sep := SkipSep();
        if sep >= 2 {
          ok := ReadLongString(sep);
        } else if sep == 0 {
          ok := false;
        }
      } else if c == '"' || c == '\'' {
        ok := ReadString(c);
      } else if c == '.' {
        Next();
        var second := CheckNext1('.');
        if second {
          var third := CheckNext1('.');
        } else if !AtEnd() && IsDigit(Current()) {
          ok := ReadNumeral();
        }
      } else if IsDigit(c) {
        ok := ReadNumeral();
      } else if IsAlpha(c) {
        ReadName();
      } else {
        LexOperator();
      }
    }

    // The tokens of one or two characters.
    method LexOperator()
      requires Valid() && !AtEnd() && !IsSpace(Current()) && !IsAlnum(Current()) && Current() !in "[\"'."
      requires !(Current() == '-' && At(text, pos + 1) == '-')
      modifies `pos
      ensures Valid() && LexStep(text, old(pos)).Tok? && pos == LexStep(text, old(pos)).end
    {
      var c := Current();
      Next();
      if c == '=' || c == '~' {
        var second := CheckNext1('=');
      } else if c == '<' {
        var second := CheckNext1('=');
        if !second {
          second := CheckNext1('<');
        }
      } else if c == '>' {
        var second := CheckNext1('=');
        if !second {
          second := CheckNext1('>');
        }
      } else if c == '/' || c == ':' {
        var second := CheckNext1(c);
      }
    }

    /** `llex`: the first token behind white space and comments, as the lexical elements of Lua are described. */
    method Lex() returns (t: Token)
      requires Valid()
      modifies `pos
      ensures Valid() && t == NextToken(text, old(pos)) && Lexemes.Found(text, old(pos), t)
      ensures t.Token? ==> pos == t.end
    {
      hide Lexemes.Found, LongClose, StringEnd, NumEnd, NumOk, NameEnd, CommentEnd, Double, SkipEq;
      Lexemes.NextTokenMeans(text, pos);
      while !AtEnd()
        invariant Valid() && NextToken(text, pos) == NextToken(text, old(pos))
        decreases |text| - pos
      {
        var start := pos;
        var c := Current();
        if IsNewline(c) {
          IncLineNumber();
        } else if IsSpace(c) {
          Next();
        } else if c == '-' && At(text, pos + 1) == '-' {
          Next();
          Next();
          var ok := SkipComment();
          if !ok {
            return Error;
          }
        } else {
          var ok := LexToken();
          return if ok then Token(if c == '{' then Open else if c == '}' then Close else Other, start, pos) else Error;
        }
      }
      return Eos;
    }
  }
}
