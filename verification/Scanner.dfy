// The brace-balancing scanner of the grammar, which knows Lua's strings and comments by itself.

module Scanner {
  import opened LuaText

  // ----- what the scanner skips -----

  // The end of a quoted string, from inside: behind the next such quote that no backslash precedes, or the end of the
  // text.
  function Quoted(s: string, i: nat, del: char): (e: nat)
    requires i <= |s|
    ensures i <= e <= |s|
    decreases |s| - i
  {
    if i == |s| then i
    else if s[i] == del then i + 1
    else if s[i] == '\\' then if i + 1 == |s| then i + 1 else Quoted(s, i + 2, del)
    else Quoted(s, i + 1, del)
  }

  function LongEnd(s: string, i: nat, level: nat): (e: nat)
    requires i <= |s|
    ensures i <= e <= |s|
  {
    var c := LongClose(s, i, level);
    if c.Some? then c.value else |s|
  }

  // The next line feed, or the end of the text.
  function FeedEnd(s: string, i: nat): (e: nat)
    requires i <= |s|
    ensures i <= e <= |s|
    decreases |s| - i
  {
    if i < |s| && s[i] != '\n' then FeedEnd(s, i + 1) else i
  }

  // What follows `--`.
  function Commented(s: string, i: nat): (e: nat)
    requires i <= |s|
    ensures i <= e <= |s|
  {
    if At(s, i) == '[' then
      var k := SkipEq(s, i + 1);
      if At(s, k) == '[' then LongEnd(s, k + 1, k - (i + 1)) else FeedEnd(s, k)
    else FeedEnd(s, i)
  }

  // The end of what begins at `i`: a string, a comment, or one character.
  function SpanEnd(s: string, i: nat): (e: nat)
    requires i < |s|
    ensures i < e <= |s|
  {
    if s[i] == '"' || s[i] == '\'' then Quoted(s, i + 1, s[i])
    else if s[i] == '[' then
      var k := SkipEq(s, i + 1);
      if At(s, k) == '[' then LongEnd(s, k + 1, k - (i + 1)) else k
    else if s[i] == '-' && At(s, i + 1) == '-' then Commented(s, i + 2)
    else i + 1
  }

  // Where a scan stops: at a character, at the end of the text inside so many braces, or not at all.
  datatype Outcome = Found(at: nat) | Ended(depth: nat) | Failed

  // The scan for the brace that closes a block.
  function Block(s: string, i: nat, depth: nat): Outcome
    requires i <= |s|
    decreases |s| - i
  {
    if i == |s| then Ended(depth)
    else if s[i] == '{' then Block(s, i + 1, depth + 1)
    else if s[i] == '}' then if depth == 0 then Found(i) else Block(s, i + 1, depth - 1)
    else Block(s, SpanEnd(s, i), depth)
  }

  // The scan for the line feed that ends a statement.
  function Statement(s: string, i: nat, depth: nat): Outcome
    requires i <= |s|
    decreases |s| - i
  {
    if i == |s| then Ended(depth)
    else if s[i] == '{' then Statement(s, i + 1, depth + 1)
    else if s[i] == '}' then Statement(s, i + 1, if depth > 0 then depth - 1 else 0)
    else if s[i] == '\n' && depth == 0 then Found(i)
    else Statement(s, SpanEnd(s, i), depth)
  }

  // ----- the scanner -----

  // The cursor that the parser hands to the scanner, with the end last marked for the token.
  class Lexer {
    const text: string
    var pos: nat
    var mark: nat

    ghost predicate Valid()
      reads `pos
    {
      pos <= |text|
    }

    constructor (s: string)
      ensures Valid() && text == s && pos == 0 && mark == 0
    {
      text, pos, mark := s, 0, 0;
    }

    function Eof(): bool
      reads `pos
    {
      pos >= |text|
    }

    function Lookahead(): char
      reads `pos
    {
      At(text, pos)
    }

    // Past the end the cursor stays.
    method Advance()
      requires Valid()
      modifies `pos
      ensures Valid() && pos == if old(pos) < |text| then old(pos) + 1 else old(pos)
    {
      if pos < |text| {
        pos := pos + 1;
      }
    }

    method MarkEnd()
      modifies `mark
      ensures mark == pos
    {
      mark := pos;
    }

    /** `try_long_string_opener`: the level of the long bracket that opens here, or -1; then only the `[` and the `=`
        are passed. */
    method TryLongStringOpener() returns (level: int)
      requires Valid()
      modifies `pos
      ensures Valid()
      ensures old(Lookahead()) != '[' ==> level == -1 && pos == old(pos)
      ensures old(Lookahead()) == '[' ==>
        var k := SkipEq(text, old(pos) + 1);
        if At(text, k) == '[' then level == k - (old(pos) + 1) && pos == k + 1 else level == -1 && pos == k
    {
      if Lookahead() != '[' {
        return -1;
      }
      Advance();
      level := 0;
      while Lookahead() == '='
        invariant Valid() && old(pos) + 1 <= pos && level == pos - (old(pos) + 1)
        invariant SkipEq(text, pos) == SkipEq(text, old(pos) + 1)
        decreases |text| - pos
      {
        level := level + 1;
        Advance();
      }
      if Lookahead() != '[' {
        return -1;
      }
      Advance();
    }

    // `skip_long_string_body`
    method SkipLongStringBody(level: nat)
      requires Valid()
      modifies `pos
      ensures Valid() && pos == LongEnd(text, old(pos), level)
    {
      while !Eof()
        invariant Valid() && LongEnd(text, pos, level) == LongEnd(text, old(pos), level)
        decreases |text| - pos
      {
        if Lookahead() == ']' {
          ghost var i := pos;
          Advance();
          var eq := 0;
          while Lookahead() == '='
            invariant Valid() && i + 1 <= pos && eq == pos - (i + 1)
            invariant SkipEq(text, pos) == SkipEq(text, i + 1)
            decreases |text| - pos
          {
            eq := eq + 1;
            Advance();
          }
          if eq == level && Lookahead() == ']' {
            Advance();
            return;
          }
        } else {
          Advance();
        }
      }
    }

    // The loop over a quoted string.
    method SkipQuoted(del: char)
      requires Valid()
      modifies `pos
      ensures Valid() && pos == Quoted(text, old(pos), del)
    {
      while !Eof() && Lookahead() != del
        invariant Valid() && Quoted(text, pos, del) == Quoted(text, old(pos), del)
        decreases |text| - pos
      {
        if Lookahead() == '\\' {
          Advance();
        }
        if !Eof() {
          Advance();
        }
      }
      if !Eof() {
        Advance();
      }
    }

    // The loop over a comment to the end of the line.
    method SkipLine()
      requires Valid()
      modifies `pos
      ensures Valid() && pos == FeedEnd(text, old(pos))
    {
      while !Eof() && Lookahead() != '\n'
        invariant Valid() && FeedEnd(text, pos) == FeedEnd(text, old(pos))
        decreases |text| - pos
      {
        Advance();
      }
    }

    // At `-`.
    method SkipDash()
      requires Valid() && !Eof() && Lookahead() == '-'
      modifies `pos
      ensures Valid() && pos == SpanEnd(text, old(pos))
    {
      Advance();
      if !Eof() && Lookahead() == '-' {
        Advance();
        if Lookahead() == '[' {
          var level := TryLongStringOpener();
          if level >= 0 {
            SkipLongStringBody(level);
            return;
          }
        }
        SkipLine();
      }
    }

    // At `[`.
    method SkipBracket()
      requires Valid() && !Eof() && Lookahead() == '['
      modifies `pos
      ensures Valid() && pos == SpanEnd(text, old(pos))
    {
      var level := TryLongStringOpener();
      if level >= 0 {
        SkipLongStringBody(level);
      }
    }

    /** `scan_lua_block_content`: at a block's closing brace, or, if there is none, at the end of the text unless
        nothing is left. */
    method ScanLuaBlockContent() returns (ok: bool)
      requires Valid()
      modifies `pos, `mark
      ensures Valid() && ok == (Block(text, old(pos), 0).Found? || old(pos) < |text|)
      ensures ok ==> mark == if Block(text, old(pos), 0).Found? then Block(text, old(pos), 0).at else |text|
      ensures !ok ==> mark == old(mark)
    {
      var depth: nat := 0;
      var hasContent := false;
      while !Eof()
        invariant Valid() && old(pos) <= pos && mark == old(mark)
        invariant Block(text, old(pos), 0) == Block(text, pos, depth)
        invariant hasContent == (old(pos) < pos)
        decreases |text| - pos
      {
        var c := Lookahead();
        if c == '{' {
          depth := depth + 1;
          hasContent := true;
          Advance();
        } else if c == '}' {
          if depth == 0 {
            MarkEnd();
            return true;
          }
          depth := depth - 1;
          hasContent := true;
          Advance();
        } else if c == '"' || c == '\'' {
          hasContent := true;
          Advance();
          SkipQuoted(c);
        } else if c == '[' {
          SkipBracket();
          hasContent := true;
        } else if c == '-' {
          hasContent := true;
          SkipDash();
        } else {
          hasContent := true;
          Advance();
        }
      }
      if hasContent {
        MarkEnd();
        return true;
      }
      return false;
    }

    /** `scan_module_call_tail`: behind a name, a `.`, a letter, and then all up to the end of the statement. What
        `iswalpha` takes for a letter is a parameter. */
    method ScanModuleCallTail(isWideAlpha: char -> bool) returns (ok: bool)
      requires Valid()
      modifies `pos, `mark
      ensures Valid()
      ensures var i := old(pos);
        if At(text, i) == '.' && (isWideAlpha(At(text, i + 1)) || At(text, i + 1) == '_') then
          match Statement(text, i + 1, 0)
          case Found(p) => ok && mark == p
          case Ended(depth) => ok == (depth == 0) && mark == (if ok then |text| else old(mark))
          case Failed => false
        else !ok && mark == old(mark)
    {
      if Lookahead() != '.' {
        return false;
      }
      Advance();
      if !isWideAlpha(Lookahead()) && Lookahead() != '_' {
        return false;
      }
      ghost var i := pos;
      var depth: nat := 0;
      var inDq, inSq := false, false;
      while !Eof()
        invariant Valid() && i == old(pos) + 1 <= pos && mark == old(mark) && !(inDq && inSq)
        invariant Statement(text, i, 0) ==
                  Statement(text, if inDq then Quoted(text, pos, '"') else if inSq then Quoted(text, pos, '\'')
                            else pos, depth)
        decreases |text| - pos
      {
        var c := Lookahead();
        if inDq || inSq {
          if c == '\\' {
            Advance();
            if !Eof() {
              Advance();
            }
          } else {
            if c == if inDq then '"' else '\'' {
              inDq, inSq := false, false;
            }
            Advance();
          }
        } else if c == '"' {
          inDq := true;
          Advance();
        } else if c == '\'' {
          inSq := true;
          Advance();
        } else if c == '[' {
          SkipBracket();
        } else if c == '-' {
          SkipDash();
        } else if c == '{' {
          depth := depth + 1;
          Advance();
        } else if c == '}' {
          if depth > 0 {
            depth := depth - 1;
          }
          Advance();
        } else if c == '\n' && depth == 0 {
          MarkEnd();
          return true;
        } else {
          Advance();
        }
      }
      if depth == 0 {
        MarkEnd();
        return true;
      }
      return false;
    }
  }
}
