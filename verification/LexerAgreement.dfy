// The grammar's scanner and the Lua lexer see the same braces.

module LexerAgreement {
  import opened LuaText
  import opened Scanner

  // ----- what the lexer's tokens say -----

  // The `}` token that closes a block of so many open braces.
  function Closing(s: string, i: nat, depth: nat): (r: Outcome)
    decreases |s| - i
  {
    match NextToken(s, i)
    case Eos => Ended(depth)
    case Error => Failed
    case Token(Open, _, e) => Closing(s, e, depth + 1)
    case Token(Close, start, e) => if depth == 0 then Found(start) else Closing(s, e, depth - 1)
    case Token(Other, _, e) => Closing(s, e, depth)
  }

  // The first line feed that is in no token, no comment and no braces; a `}` too many counts for nothing.
  function Ending(s: string, i: nat, depth: nat): Outcome
    decreases |s| - i
  {
    if i >= |s| then Ended(depth)
    else match LexStep(s, i)
      case Bad => Failed
      case Tok(Open, e) => Ending(s, e, depth + 1)
      case Tok(Close, e) => Ending(s, e, if depth > 0 then depth - 1 else 0)
      case Tok(Other, e) => Ending(s, e, depth)
      case Skip(e) =>
        if depth == 0 && s[i] == '\n' then Found(i)
        else if depth == 0 && s[i] == '\r' && At(s, i + 1) == '\n' then Found(i + 1)
        else Ending(s, e, depth)
  }

  // ----- strings -----

  lemma QuotedRun(s: string, i: nat, e: nat, del: char)
    requires i <= e <= |s| && forall k :: i <= k < e ==> s[k] != del && s[k] != '\\'
    ensures Quoted(s, i, del) == Quoted(s, e, del)
    decreases e - i
  {
    if i < e {
      QuotedRun(s, i + 1, e, del);
    }
  }

  // Behind its first character an escape has no quote and no backslash.
  lemma EscapePlain(s: string, i: nat)
    requires i < |s| && EscapeEnd(s, i).Some?
    ensures forall k :: i < k < EscapeEnd(s, i).value ==> s[k] != '"' && s[k] != '\'' && s[k] != '\\'
  {
  }

  lemma {:induction false} StringAgrees(s: string, i: nat, del: char)
    requires i <= |s| && (del == '"' || del == '\'') && StringEnd(s, i, del).Some?
    ensures Quoted(s, i, del) == StringEnd(s, i, del).value
    decreases |s| - i
  {
    if s[i] == '\\' {
      var k := EscapeEnd(s, i + 1).value;
      EscapePlain(s, i + 1);
      QuotedRun(s, i + 2, k, del);
      StringAgrees(s, k, del);
    } else if s[i] != del {
      StringAgrees(s, i + 1, del);
    }
  }

  // ----- comments -----

  // The same place, or the two characters of one line break.
  predicate Beside(s: string, e: nat, f: nat) {
    f == e || (At(s, e) == '\r' && f == e + 1)
  }

  // A line that a carriage return ends, for the lexer, ends there for the scanner too: a line feed follows, or nothing.
  predicate LineOk(s: string, i: nat)
    requires i <= |s|
  {
    var e := LineEnd(s, i);
    At(s, e) == '\r' ==> e + 1 == |s| || At(s, e + 1) == '\n'
  }

  lemma {:induction false} FeedAgrees(s: string, i: nat)
    requires i <= |s|
    ensures Beside(s, LineEnd(s, i), FeedEnd(s, i)) <==> LineOk(s, i)
    decreases |s| - i
  {
    if i < |s| && !IsNewline(s[i]) {
      FeedAgrees(s, i + 1);
    } else if At(s, i) == '\r' {
      assert FeedEnd(s, i) == FeedEnd(s, i + 1);
    }
  }

  // What follows `--` is a long comment, or a line that ends for both.
  predicate CommentOk(s: string, i: nat)
    requires i <= |s|
  {
    if At(s, i) == '[' then
      var k := SkipEq(s, i + 1);
      At(s, k) == '[' || LineOk(s, k)
    else LineOk(s, i)
  }

  /** A comment ends at the same place for both, exactly when no carriage return without a line feed ends it. */
  lemma CommentAgrees(s: string, i: nat)
    requires i <= |s| && CommentEnd(s, i).Some?
    ensures Beside(s, CommentEnd(s, i).value, Commented(s, i)) <==> CommentOk(s, i)
  {
    FeedAgrees(s, if At(s, i) == '[' then SkipEq(s, i + 1) else i);
  }

  // All the comments that the lexer meets before `end` end at the same place for both.
  predicate CommentsOk(s: string, i: nat, end: nat)
    decreases |s| - i
  {
    i >= |s| || i >= end ||
    match LexStep(s, i)
    case Bad => true
    case Tok(_, e) => CommentsOk(s, e, end)
    case Skip(e) => (s[i] == '-' ==> CommentOk(s, i + 2)) && CommentsOk(s, e, end)
  }

  // ----- tokens -----

  // Nothing begins here that the scanner would not pass as one character.
  predicate PlainAt(s: string, k: nat)
    requires k < |s|
  {
    s[k] !in "{}\"'[\n" && (s[k] == '-' ==> At(s, k + 1) != '-')
  }

  ghost predicate Plain(s: string, i: nat, e: nat) {
    forall k :: i <= k < e && k < |s| ==> PlainAt(s, k)
  }

  lemma BlockPlain(s: string, i: nat, e: nat, depth: nat)
    requires i <= e <= |s| && Plain(s, i, e)
    ensures Block(s, i, depth) == Block(s, e, depth)
    decreases e - i
  {
    if i < e {
      assert PlainAt(s, i);
      BlockPlain(s, i + 1, e, depth);
    }
  }

  lemma StatementPlain(s: string, i: nat, e: nat, depth: nat)
    requires i <= e <= |s| && Plain(s, i, e)
    ensures Statement(s, i, depth) == Statement(s, e, depth)
    decreases e - i
  {
    if i < e {
      assert PlainAt(s, i);
      StatementPlain(s, i + 1, e, depth);
    }
  }

  // In a numeral a sign stands only behind an exponent mark, and two never stand together.
  lemma {:induction false} NumRunPlain(s: string, i: nat, hex: bool)
    requires i <= |s|
    ensures var e := NumRun(s, i, hex); forall k :: i <= k < e - 1 ==> PlainAt(s, k)
    ensures var e := NumRun(s, i, hex); i < e ==> (PlainAt(s, e - 1) || IsSign(s[e - 1])) && s[i] != '-'
    decreases |s| - i
  {
    if i < |s| && IsExpo(s[i], hex) && IsSign(At(s, i + 1)) {
      NumRunPlain(s, i + 2, hex);
    } else if i < |s| && (IsExpo(s[i], hex) || IsXDigit(s[i]) || s[i] == '.') {
      NumRunPlain(s, i + 1, hex);
    }
  }

  lemma NumeralPlain(s: string, i: nat)
    requires i < |s| && IsDigit(s[i]) && NumOk(s, i)
    ensures Plain(s, i, NumEnd(s, i))
  {
    NumRunPlain(s, i + 1, false);
    if At(s, i + 1) == 'x' || At(s, i + 1) == 'X' {
      NumRunPlain(s, i + 2, true);
    }
  }

  // A token that is no brace: the scanner passes it in one step, or character by character.
  lemma TokenPlain(s: string, i: nat)
    requires i < |s| && LexStep(s, i).Tok? && LexStep(s, i).kind.Other?
    ensures var e := LexStep(s, i).end; (s[i] in "[\"'" && SpanEnd(s, i) == e) || Plain(s, i, e)
  {
    var e := LexStep(s, i).end;
    if s[i] == '"' || s[i] == '\'' {
      StringAgrees(s, i + 1, s[i]);
    } else if IsDigit(s[i]) {
      NumeralPlain(s, i);
    } else if s[i] == '.' && IsDigit(At(s, i + 1)) {
      NumeralPlain(s, i + 1);
    } else if IsAlpha(s[i]) {
      assert forall k :: i < k < e ==> IsAlnum(s[k]);
    }
  }

  // ----- steps -----

  lemma BlockBeside(s: string, e: nat, f: nat, depth: nat)
    requires e <= |s| && f <= |s| && Beside(s, e, f)
    ensures Block(s, e, depth) == Block(s, f, depth)
  {
  }

  lemma BlockSkip(s: string, i: nat, depth: nat)
    requires i < |s| && LexStep(s, i).Skip? && (s[i] == '-' ==> CommentOk(s, i + 2))
    ensures Block(s, i, depth) == Block(s, LexStep(s, i).end, depth)
  {
    if s[i] == '-' {
      CommentAgrees(s, i + 2);
      BlockBeside(s, CommentEnd(s, i + 2).value, Commented(s, i + 2), depth);
    }
  }

  lemma BlockToken(s: string, i: nat, depth: nat)
    requires i < |s| && LexStep(s, i).Tok? && LexStep(s, i).kind.Other?
    ensures Block(s, i, depth) == Block(s, LexStep(s, i).end, depth)
  {
    TokenPlain(s, i);
    if Plain(s, i, LexStep(s, i).end) {
      BlockPlain(s, i, LexStep(s, i).end, depth);
    }
  }

  lemma StatementBeside(s: string, e: nat, f: nat, depth: nat)
    requires e <= |s| && f <= |s| && Beside(s, e, f)
    ensures Statement(s, e, depth) == Statement(s, f, depth)
  {
  }

  lemma StatementSkip(s: string, i: nat, depth: nat)
    requires i < |s| && LexStep(s, i).Skip? && (s[i] == '-' ==> CommentOk(s, i + 2))
    requires depth == 0 ==> s[i] != '\n' && !(s[i] == '\r' && At(s, i + 1) == '\n')
    ensures Statement(s, i, depth) == Statement(s, LexStep(s, i).end, depth)
  {
    if s[i] == '-' {
      CommentAgrees(s, i + 2);
      StatementBeside(s, CommentEnd(s, i + 2).value, Commented(s, i + 2), depth);
    }
  }

  lemma StatementToken(s: string, i: nat, depth: nat)
    requires i < |s| && LexStep(s, i).Tok? && LexStep(s, i).kind.Other?
    ensures Statement(s, i, depth) == Statement(s, LexStep(s, i).end, depth)
  {
    TokenPlain(s, i);
    if Plain(s, i, LexStep(s, i).end) {
      StatementPlain(s, i, LexStep(s, i).end, depth);
    }
  }

  // The tokens from here on, by what the lexer finds here.
  lemma ClosingStep(s: string, i: nat, depth: nat)
    requires i < |s|
    ensures match LexStep(s, i)
      case Bad => Closing(s, i, depth).Failed?
      case Skip(e) => Closing(s, i, depth) == Closing(s, e, depth)
      case Tok(Other, e) => Closing(s, i, depth) == Closing(s, e, depth)
      case Tok(Open, e) => Closing(s, i, depth) == Closing(s, e, depth + 1)
      case Tok(Close, e) => Closing(s, i, depth) == if depth == 0 then Found(i) else Closing(s, e, depth - 1)
  {
    hide LexStep;
  }

  lemma BraceStep(s: string, i: nat)
    requires i < |s| && LexStep(s, i).Tok? && !LexStep(s, i).kind.Other?
    ensures s[i] == (if LexStep(s, i).kind.Open? then '{' else '}') && LexStep(s, i).end == i + 1
  {
  }

  // ----- the theorems -----

  // Where the lexer's reading of a text ends.
  function Reach(s: string, r: Outcome): nat {
    if r.Found? then r.at else |s|
  }

  lemma {:induction false} ClosingAfter(s: string, i: nat, depth: nat)
    ensures Closing(s, i, depth).Found? ==> i <= Closing(s, i, depth).at < |s|
    decreases |s| - i
  {
    match NextToken(s, i) {
      case Token(Open, _, e) => ClosingAfter(s, e, depth + 1);
      case Token(Close, _, e) =>
        if depth > 0 {
          ClosingAfter(s, e, depth - 1);
        }
      case Token(Other, _, e) => ClosingAfter(s, e, depth);
      case _ =>
    }
  }

  /** Wherever the lexer reads the text up to the brace that closes the block, the scanner stops at that very brace; and
      if the lexer reads on to the end of the text, so does the scanner, with as many braces open. */
  lemma {:induction false} BlockAgrees(s: string, i: nat, depth: nat)
    requires i <= |s| && !Closing(s, i, depth).Failed? && CommentsOk(s, i, Reach(s, Closing(s, i, depth)))
    ensures Block(s, i, depth) == Closing(s, i, depth)
    decreases |s| - i
  {
    hide LexStep, CommentOk, SpanEnd;
    if i < |s| {
      ClosingStep(s, i, depth);
      ClosingAfter(s, i, depth);
      var step := LexStep(s, i);
      match step {
        case Skip(e) =>
          ClosingAfter(s, e, depth);
          BlockSkip(s, i, depth);
          BlockAgrees(s, e, depth);
        case Tok(Other, e) =>
          ClosingAfter(s, e, depth);
          BlockToken(s, i, depth);
          BlockAgrees(s, e, depth);
        case Tok(Open, e) =>
          ClosingAfter(s, e, depth + 1);
          BraceStep(s, i);
          BlockAgrees(s, e, depth + 1);
        case Tok(Close, e) =>
          BraceStep(s, i);
          if depth > 0 {
            ClosingAfter(s, e, depth - 1);
            BlockAgrees(s, e, depth - 1);
          }
      }
    }
  }

  lemma {:induction false} EndingAfter(s: string, i: nat, depth: nat)
    ensures Ending(s, i, depth).Found? ==> i <= Ending(s, i, depth).at < |s|
    decreases |s| - i
  {
    if i < |s| {
      match LexStep(s, i) {
        case Skip(e) => EndingAfter(s, e, depth);
        case Tok(Other, e) => EndingAfter(s, e, depth);
        case Tok(Open, e) => EndingAfter(s, e, depth + 1);
        case Tok(Close, e) => EndingAfter(s, e, if depth > 0 then depth - 1 else 0);
        case Bad =>
      }
    }
  }

  /** The same of the line feed that ends a statement. */
  lemma {:induction false} StatementAgrees(s: string, i: nat, depth: nat)
    requires i <= |s| && !Ending(s, i, depth).Failed? && CommentsOk(s, i, Reach(s, Ending(s, i, depth)))
    ensures Statement(s, i, depth) == Ending(s, i, depth)
    decreases |s| - i
  {
    if i < |s| {
      EndingAfter(s, i, depth);
      var step := LexStep(s, i);
      match step {
        case Skip(e) =>
          if depth == 0 && s[i] == '\r' && At(s, i + 1) == '\n' {
            assert Statement(s, i, depth) == Statement(s, i + 1, depth);
          } else if !(depth == 0 && s[i] == '\n') {
            EndingAfter(s, e, depth);
            StatementSkip(s, i, depth);
            StatementAgrees(s, e, depth);
          }
        case Tok(Other, e) =>
          EndingAfter(s, e, depth);
          StatementToken(s, i, depth);
          StatementAgrees(s, e, depth);
        case Tok(Open, e) =>
          EndingAfter(s, e, depth + 1);
          StatementAgrees(s, e, depth + 1);
        case Tok(Close, e) =>
          EndingAfter(s, e, if depth > 0 then depth - 1 else 0);
          StatementAgrees(s, e, if depth > 0 then depth - 1 else 0);
      }
    }
  }

  /** Text without carriage returns, and text in which each has a line feed behind it, agrees everywhere. */
  lemma {:induction false} PlainLines(s: string, i: nat, end: nat)
    requires forall k :: 0 <= k < |s| && s[k] == '\r' ==> At(s, k + 1) == '\n'
    ensures CommentsOk(s, i, end)
    decreases |s| - i
  {
    if i < |s| && i < end {
      match LexStep(s, i) {
        case Skip(e) => PlainLines(s, e, end);
        case Tok(_, e) => PlainLines(s, e, end);
        case Bad =>
      }
    }
  }

  /** A carriage return alone ends a comment for the lexer and not for the scanner, which then misses the brace. */
  lemma BareReturn(s: string)
    requires s == "--\r}"
    ensures !CommentsOk(s, 0, 3) && Closing(s, 0, 0) == Found(3) && Block(s, 0, 0) == Ended(0)
  {
    assert LineEnd(s, 2) == 2 && LexStep(s, 0) == Skip(2) && LexStep(s, 2) == Skip(3);
    assert LexStep(s, 3) == Tok(Close, 4);
    assert NextToken(s, 2) == NextToken(s, 3);
    assert FeedEnd(s, 2) == FeedEnd(s, 3) == 4;
  }
}
