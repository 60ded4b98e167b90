/**
 * The scanner as the imperative object it is: a single forward cursor over
 * the source with the fields `start`, `current` and `line`, a token list that
 * grows in place, and the recorded scan errors. Every method is proved to
 * have exactly the effect the corresponding function of module Lexical
 * describes.
 */
module Scanner {
  import opened Tokens
  import opened Lexical

  class Scanner {
    const source: string
    var tokens: seq<Token>
    /** The `(line, message)` pairs handed to the error reporter, in order. */
    var errors: seq<ScanError>
    var start: nat
    var current: nat
    var line: int

    ghost predicate Valid()
      reads this
    {
      start <= current <= |source|
    }

    /**
     * The state after a `scanToken` call whose effect is `st`, started from
     * the token list `tokens0` and error list `errors0`.
     */
    ghost predicate Took(st: Step, tokens0: seq<Token>, errors0: seq<ScanError>)
      reads this
    {
      current == st.next && line == st.line
      && tokens == tokens0 + TokenSeq(st) && errors == errors0 + ErrorSeq(st)
    }

    constructor (source: string)
      ensures Valid() && this.source == source
      ensures tokens == [] && errors == [] && start == 0 && current == 0 && line == 1
    {
      this.source := source;
      tokens, errors := [], [];
      start, current, line := 0, 0, 1;
    }

    /**
     * Scans the rest of the source and appends the EOF token. On a fresh
     * scanner the tokens and errors are those of `ScanSource(source)`.
     */
    method ScanTokens() returns (result: seq<Token>)
      requires Valid()
      modifies this
      ensures Valid() && current == |source|
      ensures var rest := ScanFrom(source, old(current), old(line));
        line == rest.line
        && tokens == old(tokens) + rest.tokens + [EofToken(line)]
        && errors == old(errors) + rest.errors
      ensures old(current) == 0 && old(line) == 1 && old(tokens) == [] && old(errors) == [] ==>
        tokens == ScanSource(source).tokens && errors == ScanSource(source).errors
      ensures result == tokens
    {
      ghost var all := ScanFrom(source, current, line);
      while !IsAtEnd()
        invariant Valid()
        invariant tokens + ScanFrom(source, current, line).tokens == old(tokens) + all.tokens
        invariant errors + ScanFrom(source, current, line).errors == old(errors) + all.errors
        invariant ScanFrom(source, current, line).line == all.line
        decreases |source| - current
      {
        start := current;
        ScanOne();
      }
      tokens := tokens + [EofToken(line)];
      result := tokens;
    }

    /**
     * One turn of the `scanTokens` loop, stated against the rest of the scan:
     * what has been recorded plus what remains to be scanned is unchanged.
     */
    method ScanOne()
      requires Valid() && start == current < |source|
      modifies this
      ensures Valid() && old(current) < current
      ensures old(tokens) + ScanFrom(source, old(current), old(line)).tokens
           == tokens + ScanFrom(source, current, line).tokens
      ensures old(errors) + ScanFrom(source, old(current), old(line)).errors
           == errors + ScanFrom(source, current, line).errors
      ensures ScanFrom(source, old(current), old(line)).line == ScanFrom(source, current, line).line
    {
      ScanFromStep(source, current, line, ScanStep(source, current, line), tokens, errors);
      ScanToken();
    }

    /** One token (or none) from the character at `current`, which is consumed first. */
    method ScanToken()
      requires Valid() && start == current < |source|
      modifies this
      ensures Valid() && start == old(start)
      ensures Took(ScanStep(source, old(current), old(line)), old(tokens), old(errors))
    {
      var c := Advance();
      var single := SingleCharKind(c);
      var operator := OperatorKinds(c);
      if single.Some? {
        AddToken(single.value, NoLiteral);
      } else if operator.Some? {
        var twoChars := Match('=');
        AddToken(if twoChars then operator.value.1 else operator.value.0, NoLiteral);
      } else if c == '/' {
        Slash();
      } else if c == '"' || c == '\'' {
        StringLiteral(c);
      } else if c == ' ' || c == '\r' || c == '\t' {
      } else if c == '\n' {
        line := line + 1;
      } else if IsDigit(c) {
        Number();
      } else if IsAlpha(c) {
        Identifier();
      } else {
        ReportError("Unexpected character.");
      }
    }

    /** The '/' case of the main switch: a line comment, a block comment, or SLASH. */
    method Slash()
      requires Valid() && start + 1 == current && start < |source|
      modifies this
      ensures Valid() && start == old(start)
      ensures Took(SlashStep(source, start, old(line)), old(tokens), old(errors))
    {
      var lineComment := Match('/');
      if lineComment {
        SkipLineComment();
        return;
      }
      var blockComment := Match('*');
      if blockComment {
        SkipBlockComment();
        return;
      }
      AddToken(Tokens.Slash, NoLiteral);
    }

    /** The line-comment loop: up to the next newline, which is left for the main switch. */
    method SkipLineComment()
      requires Valid()
      modifies this`current
      ensures Valid() && current == LineCommentEnd(source, old(current))
    {
      ghost var from := current;
      while Peek() != '\n' && !IsAtEnd()
        invariant Valid() && from <= current
        invariant LineCommentEnd(source, current) == LineCommentEnd(source, from)
        decreases |source| - current
      {
        var _ := Advance();
      }
    }

    /**
     * The block-comment loop as written: it stops when EITHER half of the
     * closer is present, and consumes the closer only when both are.
     */
    method SkipBlockComment()
      requires Valid()
      modifies this`current
      ensures Valid() && current == BlockCommentEnd(source, old(current))
    {
      ghost var from := current;
      while Peek() != '*' && PeekNext() != '/' && !IsAtEnd()
        invariant Valid() && from <= current
        invariant BlockCommentStop(source, current) == BlockCommentStop(source, from)
        decreases |source| - current
      {
        var _ := Advance();
      }
      if Peek() == '*' && PeekNext() == '/' {
        var _ := Advance();
        var _ := Advance();
      }
    }

    /** `string(marker)`: a literal delimited by `marker`, whose opening quote is consumed. */
    method StringLiteral(marker: char)
      requires Valid() && start + 1 == current && start < |source|
      modifies this
      ensures Valid() && start == old(start)
      ensures Took(StringStep(source, start, old(line), marker), old(tokens), old(errors))
    {
      while Peek() != marker && !IsAtEnd()
        invariant Valid() && start + 1 <= current
        invariant start == old(start) && tokens == old(tokens) && errors == old(errors)
        invariant StringEnd(source, current, marker) == StringEnd(source, start + 1, marker)
        invariant line == old(line) + Newlines(source, start + 1, current)
        decreases |source| - current
      {
        if Peek() == '\n' {
          line := line + 1;
        }
        var _ := Advance();
      }
      if IsAtEnd() {
        ReportError("Unterminated string.");
        return;
      }
      var _ := Advance();
      AddToken(String, StringValue(source[start + 1..current - 1]));
    }

    /** `number()`: digits, then a fraction only when a digit follows the '.'. */
    method Number()
      requires Valid() && start + 1 == current && start < |source|
      modifies this
      ensures Valid() && start == old(start)
      ensures Took(NumberStep(source, start, old(line)), old(tokens), old(errors))
    {
      SkipDigits();
      if Peek() == '.' && IsDigit(PeekNext()) {
        var _ := Advance();
        SkipDigits();
      }
      AddToken(Tokens.Number, NumberText(source[start..current]));
    }

    /** `while (isDigit(peek())) advance();` */
    method SkipDigits()
      requires Valid()
      modifies this`current
      ensures Valid() && current == DigitsEnd(source, old(current))
    {
      ghost var from := current;
      while IsDigit(Peek())
        invariant Valid() && from <= current
        invariant DigitsEnd(source, current) == DigitsEnd(source, from)
        decreases |source| - current
      {
        var _ := Advance();
      }
    }

    /** `identifier()`: a maximal alphanumeric run, typed through the keyword table. */
    method Identifier()
      requires Valid() && start + 1 == current && start < |source|
      modifies this
      ensures Valid() && start == old(start)
      ensures Took(IdentifierStep(source, start, old(line)), old(tokens), old(errors))
    {
      while IsAlphaNumeric(Peek())
        invariant Valid() && start + 1 <= current
        invariant start == old(start) && line == old(line)
        invariant tokens == old(tokens) && errors == old(errors)
        invariant IdentifierEnd(source, current) == IdentifierEnd(source, start + 1)
        decreases |source| - current
      {
        var _ := Advance();
      }
      var text := source[start..current];
      AddToken(IdentifierKind(text), NoLiteral);
    }

    function IsAtEnd(): bool
      reads this
    {
      current >= |source|
    }

    /** Consumes and returns the character at `current`. */
    method Advance() returns (c: char)
      requires Valid() && current < |source|
      modifies this`current
      ensures Valid() && current == old(current) + 1 && c == source[old(current)]
    {
      current := current + 1;
      c := source[current - 1];
    }

    /** Consumes the character at `current` only when it is `expected`. */
    method Match(expected: char) returns (matched: bool)
      requires Valid()
      modifies this`current
      ensures Valid()
      ensures matched == MatchesAt(source, old(current), expected)
      ensures current == if matched then old(current) + 1 else old(current)
    {
      if IsAtEnd() {
        return false;
      }
      if source[current] != expected {
        return false;
      }
      current := current + 1;
      return true;
    }

    function Peek(): char
      reads this
    {
      PeekAt(source, current)
    }

    function PeekNext(): char
      reads this
    {
      PeekAt(source, current + 1)
    }

    /** `addToken`: the lexeme is the source text between `start` and `current`. */
    method AddToken(kind: TokenType, literal: Literal)
      requires Valid()
      modifies this`tokens
      ensures tokens == old(tokens) + [Token(kind, source[start..current], literal, line)]
    {
      tokens := tokens + [Token(kind, source[start..current], literal, line)];
    }

    /** The error reporter's `error(line, message)`, recorded instead of printed. */
    method ReportError(message: string)
      modifies this`errors
      ensures errors == old(errors) + [ScanError(line, message)]
    {
      errors := errors + [ScanError(line, message)];
    }
  }
}
