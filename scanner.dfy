/** The scanner as the source writes it: a cursor over the source text that appends tokens
    to a list as it goes. Each method is proved to do exactly what the functions of ScanSpec
    describe, so the lexical rules proved there hold of this class. */
module Scanning {
  import opened Wrappers
  import opened Tokens
  import opened ScanSpec

  class Scanner {
    const source: string
    /** Which of the two scanner versions this object is (keyword lookup or not). */
    const dialect: Dialect
    var tokens: seq<Token>
    /** The diagnostics this scanner has handed to `Lox.error`, in order. */
    var errors: seq<LexError>
    var start: nat
    var current: nat
    var line: nat

    /** Between two `scanToken` calls the cursor is inside the text and `line` counts the
        newlines before it. */
    ghost predicate Valid()
      reads this
    {
      start <= current <= |source| && line == Lines(source, current)
    }

    constructor (source: string, dialect: Dialect)
      ensures this.source == source && this.dialect == dialect
      ensures tokens == [] && errors == [] && start == 0 && current == 0 && line == 0
      ensures Valid()
    {
      this.source := source;
      this.dialect := dialect;
      tokens := [];
      errors := [];
      start := 0;
      current := 0;
      line := 0;
    }

    /** `scanTokens`: scan from the cursor to the end, then append the EOF token. On a fresh
        scanner the result is `ScanTokens(source, dialect)`. */
    method ScanTokens() returns (result: seq<Token>)
      requires Valid()
      modifies this
      ensures Valid() && current == |source|
      ensures tokens == old(tokens) + ScanFrom(source, old(current), dialect).tokens + [EofToken(source)]
      ensures errors == old(errors) + ScanFrom(source, old(current), dialect).errors
      ensures result == tokens
    {
      while !IsAtEnd()
        invariant Valid()
        invariant tokens + ScanFrom(source, current, dialect).tokens
                  == old(tokens) + ScanFrom(source, old(current), dialect).tokens
        invariant errors + ScanFrom(source, current, dialect).errors
                  == old(errors) + ScanFrom(source, old(current), dialect).errors
        decreases |source| - current
      {
        ScanNext();
      }
      tokens := tokens + [Token(EOF, "", Nil, line)];
      result := tokens;
    }

    /** One turn of the `scanTokens` loop, `start = current; scanToken()`: what has been
        collected plus what the rest of the text yields does not change. */
    method ScanNext()
      requires Valid() && current < |source|
      modifies this`tokens, this`errors, this`start, this`current, this`line
      ensures Valid() && old(current) < current
      ensures tokens + ScanFrom(source, current, dialect).tokens == old(tokens + ScanFrom(source, current, dialect).tokens)
      ensures errors + ScanFrom(source, current, dialect).errors == old(errors + ScanFrom(source, current, dialect).errors)
    {
      start := current;
      ghost var tokensBefore, errorsBefore := tokens, errors;
      ScanToken();
      ScanFromAdvance(source, start, dialect, tokensBefore, errorsBefore, tokens, errors);
    }

    /** `scanToken`: consume one lexeme starting at `start` and add its token or report its
        error, exactly as `Step` says. */
    method ScanToken()
      requires Valid() && start == current < |source|
      modifies this`tokens, this`errors, this`current, this`line
      ensures Valid()
      ensures current == Step(source, old(current), dialect).end
      ensures tokens == old(tokens) + OptionToSeq(Step(source, old(current), dialect).token)
      ensures errors == old(errors) + OptionToSeq(Step(source, old(current), dialect).error)
    {
      var c := Advance();
      match Classify(c) {
        case Single => AddToken(SingleCharKind(c), Nil);
        case Operator => ScanOperator(c);
        case Slash => ScanSlash();
        case Blank =>
        case Newline => line := line + 1;
        case Quote => String();
        case Digit => Number();
        case Alpha => Identifier();
        case Other => Report(line, UnexpectedCharacter);
      }
    }

    /** The branch for `!`, `=`, `<` and `>`: a two-character operator when `=` follows. */
    method ScanOperator(c: char)
      requires start + 1 == current <= |source| && c == source[start] && IsOperatorStart(c)
      requires line == Lines(source, current)
      modifies this`tokens, this`current
      ensures current == OperatorToken(source, start).end && line == Lines(source, current)
      ensures tokens == old(tokens) + OptionToSeq(OperatorToken(source, start).token)
    {
      var m := Match('=');
      AddToken(if m then TwoCharKind(c) else OneCharKind(c), Nil);
    }

    /** The branch for `/`: a line comment when another `/` follows, else SLASH. */
    method ScanSlash()
      requires start + 1 == current <= |source| && line == Lines(source, current)
      modifies this`tokens, this`current
      ensures current == SlashToken(source, start).end && line == Lines(source, current)
      ensures tokens == old(tokens) + OptionToSeq(SlashToken(source, start).token)
    {
      var m := Match('/');
      if m {
        SkipComment();
      } else {
        AddToken(SLASH, Nil);
      }
    }

    /** The body of a line comment: advance up to, not over, the next newline. */
    method SkipComment()
      requires start + 2 == current <= |source| && line == Lines(source, current)
      modifies this`current
      ensures current == StopAt(source, old(current), '\n') && line == Lines(source, current)
    {
      while !IsAtEnd() && Peek() != '\n'
        invariant start + 2 <= current <= |source| && line == Lines(source, current)
        invariant StopAt(source, current, '\n') == StopAt(source, old(current), '\n')
        decreases |source| - current
      {
        var _ := Advance();
      }
    }

    /** `identifier()`: consume letters, digits and underscores, then add the token, looking
        the text up in the keyword table in the current version. */
    method Identifier()
      requires start + 1 == current <= |source| && line == Lines(source, current)
      modifies this`tokens, this`current
      ensures current == IdentifierToken(source, start, dialect).end && line == Lines(source, current)
      ensures tokens == old(tokens) + OptionToSeq(IdentifierToken(source, start, dialect).token)
    {
      AdvanceAlphaNumeric();
      var text := source[start..current];
      var kind := if dialect == Current && text in Keywords then Keywords[text] else IDENTIFIER;
      AddToken(kind, Nil);
    }

    /** `while (isAlphaNumeric(peek())) advance()`, the loop of `identifier()`. */
    method AdvanceAlphaNumeric()
      requires current <= |source| && line == Lines(source, current)
      modifies this`current
      ensures current == AlphaNumericEnd(source, old(current)) && line == Lines(source, current)
    {
      while IsAlphaNumeric(Peek())
        invariant old(current) <= current <= |source| && line == Lines(source, current)
        invariant AlphaNumericEnd(source, current) == AlphaNumericEnd(source, old(current))
        decreases |source| - current
      {
        var _ := Advance();
      }
    }

    /** `number()`: consume the integer digits, then a dot and the fraction digits when a
        digit follows the dot, and add the token with the lexeme's value. */
    method Number()
      requires start + 1 == current <= |source| && IsDigit(source[start])
      requires line == Lines(source, current)
      modifies this`tokens, this`current
      ensures current == NumberToken(source, start).end && line == Lines(source, current)
      ensures tokens == old(tokens) + OptionToSeq(NumberToken(source, start).token)
    {
      AdvanceDigits();
      ghost var whole := current;
      if Peek() == '.' && IsDigit(PeekNext()) {
        var _ := Advance();
        AdvanceDigits();
      }
      assert current == NumberEnd(source, start);
      NumberTokenValue(source, start);
      AddToken(NUMBER, Num(DecimalValue(source[start..current])));
      assert OptionToSeq(NumberToken(source, start).token) == [tokens[|tokens| - 1]];
    }

    /** `while (isDigit(peek())) advance()`, which `number()` runs for the integer and for
        the fraction digits. */
    method AdvanceDigits()
      requires current <= |source| && line == Lines(source, current)
      modifies this`current
      ensures current == DigitsEnd(source, old(current)) && line == Lines(source, current)
    {
      while IsDigit(Peek())
        invariant old(current) <= current <= |source| && line == Lines(source, current)
        invariant DigitsEnd(source, current) == DigitsEnd(source, old(current))
        decreases |source| - current
      {
        var _ := Advance();
      }
    }

    /** `string()`: consume up to the closing quote, counting newlines; at the end of the
        text report an unterminated string, otherwise consume the quote and add the token
        whose value is the text between the quotes. */
    method String()
      requires start + 1 == current <= |source| && line == Lines(source, current)
      modifies this`tokens, this`errors, this`current, this`line
      ensures current == StringToken(source, start).end && line == Lines(source, current)
      ensures tokens == old(tokens) + OptionToSeq(StringToken(source, start).token)
      ensures errors == old(errors) + OptionToSeq(StringToken(source, start).error)
    {
      AdvanceStringBody();
      StringTokenCases(source, start);
      if IsAtEnd() {
        Report(line, UnterminatedString);
        return;
      }
      ghost var close := current;
      var _ := Advance();
      assert source[start + 1..current - 1] == source[start + 1..close];
      AddToken(STRING, Str(source[start + 1..current - 1]));
    }

    /** The loop of `string()`: advance to the closing quote or the end, counting the newlines
        passed over. */
    method AdvanceStringBody()
      requires current <= |source| && line == Lines(source, current)
      modifies this`current, this`line
      ensures current == StopAt(source, old(current), '"') && line == Lines(source, current)
    {
      while !IsAtEnd() && Peek() != '"'
        invariant old(current) <= current <= |source| && line == Lines(source, current)
        invariant StopAt(source, current, '"') == StopAt(source, old(current), '"')
        decreases |source| - current
      {
        if Peek() == '\n' {
          line := line + 1;
        }
        var _ := Advance();
      }
    }

    /** `match(expected)`: consume the next character exactly when it is `expected`. */
    method Match(expected: char) returns (matched: bool)
      modifies this`current
      ensures matched == MatchAt(source, old(current), expected)
      ensures current == if matched then old(current) + 1 else old(current)
    {
      if IsAtEnd() {
        return false;
      }
      if source[current] != expected {
        return false;
      }
      current := current + 1;
      return true;
    }

    /** `peek()`: the next character, or NUL at the end. */
    function Peek(): (c: char)
      reads this
      ensures current < |source| ==> c == source[current]
      ensures current >= |source| ==> c == '\0'
    {
      if IsAtEnd() then '\0' else source[current]
    }

    /** `peekNext()`: the character after the next one, or NUL past the end. */
    function PeekNext(): (c: char)
      reads this
      ensures current + 1 < |source| ==> c == source[current + 1]
      ensures current + 1 >= |source| ==> c == '\0'
    {
      if current + 1 >= |source| then '\0' else source[current + 1]
    }

    predicate IsAtEnd()
      reads this
    {
      current >= |source|
    }

    /** `advance()`: consume and return the next character. */
    method Advance() returns (c: char)
      requires current < |source|
      modifies this`current
      ensures current == old(current) + 1 && c == source[old(current)]
      ensures Lines(source, current) == Lines(source, old(current)) + if c == '\n' then 1 else 0
    {
      current := current + 1;
      c := source[current - 1];
    }

    /** `addToken(kind, literal)`: the lexeme is the text from `start` to the cursor. */
    method AddToken(kind: TokenType, literal: Value)
      requires start <= current <= |source|
      modifies this`tokens
      ensures tokens == old(tokens) + [Token(kind, source[start..current], literal, line)]
    {
      tokens := tokens + [Token(kind, source[start..current], literal, line)];
    }

    /** `Lox.error(line, message)`, recorded on the scanner. */
    method Report(line: nat, message: LexMessage)
      modifies this`errors
      ensures errors == old(errors) + [LexError(line, message)]
    {
      errors := errors + [LexError(line, message)];
    }
  }
}
