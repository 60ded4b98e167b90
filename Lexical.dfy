/**
 * The scanner's behaviour as pure functions over the source text: what one
 * call of `scanToken` does from a given cursor and line counter (`ScanStep`),
 * and what `scanTokens` produces for a whole source (`ScanSource`).  The
 * class in module Scanner is proved to compute exactly these functions; the
 * lemmas here state what the scanner promises about them.
 */
module Lexical {
  import opened Results
  import opened Tokens

  /** The half-open range [start, end) of the source a token was cut from. */
  datatype Span = Span(start: nat, end: nat)

  /** A recorded scan error: the line counter at the time, and the message. */
  datatype ScanError = ScanError(line: int, message: string)

  /**
   * The effect of one `scanToken` call started at some cursor: the cursor and
   * line counter it leaves behind, and the token it added or the error it
   * recorded (at most one of each).
   */
  datatype Step = Step(next: nat, line: int, token: Option<Token>, error: Option<ScanError>)

  /** What `scanTokens` accumulates: tokens with their spans, errors, and the final line counter. */
  datatype Scan = Scan(tokens: seq<Token>, spans: seq<Span>, errors: seq<ScanError>, line: int)

  // ---------------------------------------------------------------------
  // Character classes and lookahead

  predicate IsDigit(c: char) { '0' <= c <= '9' }

  predicate IsAlpha(c: char) { 'a' <= c <= 'z' || 'A' <= c <= 'Z' || c == '_' }

  predicate IsAlphaNumeric(c: char) { IsAlpha(c) || IsDigit(c) }

  /** `peek()` with the cursor at `i`: the character there, or '\0' past the end. */
  function PeekAt(src: string, i: nat): char
  {
    if i >= |src| then '\0' else src[i]
  }

  /** `match(expected)` with the cursor at `i` succeeds. */
  predicate MatchesAt(src: string, i: nat, expected: char)
  {
    i < |src| && src[i] == expected
  }

  /** The number of newlines in src[a..b]. */
  function Newlines(src: string, a: nat, b: nat): nat
    requires a <= b <= |src|
    decreases b - a
  {
    if a == b then 0 else Newlines(src, a, b - 1) + (if src[b - 1] == '\n' then 1 else 0)
  }

  // ---------------------------------------------------------------------
  // The scanner's inner loops, as the position where each stops

  /** Where `while (isDigit(peek())) advance();` stops when started at `i`. */
  function DigitsEnd(src: string, i: nat): (j: nat)
    requires i <= |src|
    ensures i <= j <= |src|
    ensures forall k | i <= k < j :: IsDigit(src[k])
    ensures !IsDigit(PeekAt(src, j))
    decreases |src| - i
  {
    if IsDigit(PeekAt(src, i)) then DigitsEnd(src, i + 1) else i
  }

  /** Where `while (isAlphaNumeric(peek())) advance();` stops when started at `i`. */
  function IdentifierEnd(src: string, i: nat): (j: nat)
    requires i <= |src|
    ensures i <= j <= |src|
    ensures forall k | i <= k < j :: IsAlphaNumeric(src[k])
    ensures !IsAlphaNumeric(PeekAt(src, j))
    decreases |src| - i
  {
    if IsAlphaNumeric(PeekAt(src, i)) then IdentifierEnd(src, i + 1) else i
  }

  /** Where the line-comment loop stops: at the next newline (left unconsumed) or the end. */
  function LineCommentEnd(src: string, i: nat): (j: nat)
    requires i <= |src|
    ensures i <= j <= |src|
    ensures forall k | i <= k < j :: src[k] != '\n'
    ensures j == |src| || src[j] == '\n'
    decreases |src| - i
  {
    if PeekAt(src, i) != '\n' && i < |src| then LineCommentEnd(src, i + 1) else i
  }

  /**
   * The condition that ends the block-comment loop as written: the current
   * character is '*', OR the next one is '/', or the input is exhausted.
   */
  predicate StopsBlockComment(src: string, j: nat)
  {
    PeekAt(src, j) == '*' || PeekAt(src, j + 1) == '/' || j >= |src|
  }

  /** The closer test applied after the loop: '*' here AND '/' next. */
  predicate ClosesAt(src: string, j: nat)
  {
    PeekAt(src, j) == '*' && PeekAt(src, j + 1) == '/'
  }

  /** Where the block-comment loop stops when started at `i`. */
  function BlockCommentStop(src: string, i: nat): (j: nat)
    requires i <= |src|
    ensures i <= j <= |src|
    ensures StopsBlockComment(src, j)
    ensures forall k | i <= k < j :: !StopsBlockComment(src, k)
    decreases |src| - i
  {
    if PeekAt(src, i) != '*' && PeekAt(src, i + 1) != '/' && i < |src| then
      BlockCommentStop(src, i + 1)
    else
      i
  }

  /** Where a block comment whose body starts at `i` leaves the cursor, as written. */
  function BlockCommentEnd(src: string, i: nat): (j: nat)
    requires i <= |src|
    ensures i <= j <= |src|
  {
    var stop := BlockCommentStop(src, i);
    if ClosesAt(src, stop) then stop + 2 else stop
  }

  /** Where the string loop stops: at the next `marker` (left unconsumed) or the end. */
  function StringEnd(src: string, i: nat, marker: char): (j: nat)
    requires i <= |src|
    ensures i <= j <= |src|
    ensures forall k | i <= k < j :: src[k] != marker
    ensures j == |src| || src[j] == marker
    decreases |src| - i
  {
    if PeekAt(src, i) != marker && i < |src| then StringEnd(src, i + 1, marker) else i
  }

  // ---------------------------------------------------------------------
  // One scanToken call

  /** `addToken(kind, literal)` with cursors `start` and `next`. */
  function Emit(src: string, start: nat, next: nat, line: int, kind: TokenType, literal: Literal): Step
    requires start <= next <= |src|
  {
    Step(next, line, Some(Token(kind, src[start..next], literal, line)), None)
  }

  /** A step that consumes up to `next` and records nothing. */
  function Skip(next: nat, line: int): Step
  {
    Step(next, line, None, None)
  }

  /** The eleven characters that are always a token on their own. */
  function SingleCharKind(c: char): Option<TokenType>
  {
    match c
    case '(' => Some(LeftPar)
    case ')' => Some(RightPar)
    case '{' => Some(LeftBrace)
    case '}' => Some(RightBrace)
    case ',' => Some(Comma)
    case '.' => Some(Dot)
    case '-' => Some(Minus)
    case '+' => Some(Plus)
    case ';' => Some(Semicolon)
    case '*' => Some(Star)
    case '%' => Some(Modulo)
    case _ => None
  }

  /** The operators that become two-character tokens when followed by '=': (alone, with '='). */
  function OperatorKinds(c: char): Option<(TokenType, TokenType)>
  {
    match c
    case '!' => Some((Bang, BangEqual))
    case '=' => Some((Equal, EqualEqual))
    case '<' => Some((Less, LessEqual))
    case '>' => Some((Greater, GreaterEqual))
    case _ => None
  }

  function OperatorStep(src: string, start: nat, line: int, kinds: (TokenType, TokenType)): Step
    requires start < |src|
  {
    if MatchesAt(src, start + 1, '=') then Emit(src, start, start + 2, line, kinds.1, NoLiteral)
    else Emit(src, start, start + 1, line, kinds.0, NoLiteral)
  }

  /** The '/' case: a line comment, a block comment, or the SLASH token. */
  function SlashStep(src: string, start: nat, line: int): Step
    requires start < |src|
  {
    if MatchesAt(src, start + 1, '/') then Skip(LineCommentEnd(src, start + 2), line)
    else if MatchesAt(src, start + 1, '*') then Skip(BlockCommentEnd(src, start + 2), line)
    else Emit(src, start, start + 1, line, Slash, NoLiteral)
  }

  /** `string(marker)`: the opening quote at `start` has been consumed. */
  function StringStep(src: string, start: nat, line: int, marker: char): Step
    requires start < |src|
  {
    var close := StringEnd(src, start + 1, marker);
    var line' := line + Newlines(src, start + 1, close);
    if close >= |src| then
      Step(close, line', None, Some(ScanError(line', "Unterminated string.")))
    else
      Emit(src, start, close + 1, line', String, StringValue(src[start + 1..close]))
  }

  /** `number()`: the first digit at `start` has been consumed. */
  function NumberStep(src: string, start: nat, line: int): Step
    requires start < |src|
  {
    var whole := DigitsEnd(src, start + 1);
    var end := if PeekAt(src, whole) == '.' && IsDigit(PeekAt(src, whole + 1))
               then DigitsEnd(src, whole + 1) else whole;
    Emit(src, start, end, line, Number, NumberText(src[start..end]))
  }

  /** `identifier()`: the first letter at `start` has been consumed. */
  function IdentifierStep(src: string, start: nat, line: int): Step
    requires start < |src|
  {
    var end := IdentifierEnd(src, start + 1);
    Emit(src, start, end, line, IdentifierKind(src[start..end]), NoLiteral)
  }

  /** One `scanToken` call with `start == current`; it always consumes at least one character. */
  function ScanStep(src: string, start: nat, line: int): (s: Step)
    requires start < |src|
    ensures start < s.next <= |src|
  {
    var c := src[start];
    if SingleCharKind(c).Some? then Emit(src, start, start + 1, line, SingleCharKind(c).value, NoLiteral)
    else if OperatorKinds(c).Some? then OperatorStep(src, start, line, OperatorKinds(c).value)
    else if c == '/' then SlashStep(src, start, line)
    else if c == '"' || c == '\'' then StringStep(src, start, line, c)
    else if c == ' ' || c == '\r' || c == '\t' then Skip(start + 1, line)
    else if c == '\n' then Skip(start + 1, line + 1)
    else if IsDigit(c) then NumberStep(src, start, line)
    else if IsAlpha(c) then IdentifierStep(src, start, line)
    else Step(start + 1, line, None, Some(ScanError(line, "Unexpected character.")))
  }

  // ---------------------------------------------------------------------
  // The whole scan

  function TokenSeq(s: Step): seq<Token> { if s.token.Some? then [s.token.value] else [] }

  function ErrorSeq(s: Step): seq<ScanError> { if s.error.Some? then [s.error.value] else [] }

  /** The `scanTokens` loop from cursor `cur`, without the EOF token. */
  function ScanFrom(src: string, cur: nat, line: int): Scan
    requires cur <= |src|
    decreases |src| - cur
  {
    if cur == |src| then Scan([], [], [], line)
    else
      var s := ScanStep(src, cur, line);
      var rest := ScanFrom(src, s.next, s.line);
      Scan(TokenSeq(s) + rest.tokens,
           (if s.token.Some? then [Span(cur, s.next)] else []) + rest.spans,
           ErrorSeq(s) + rest.errors,
           rest.line)
  }

  /** One turn of the `scanTokens` loop: the step's token and error come before the rest. */
  lemma ScanFromStep(src: string, cur: nat, line: int, s: Step, tokens: seq<Token>, errors: seq<ScanError>)
    requires cur < |src| && s == ScanStep(src, cur, line)
    ensures var r := ScanFrom(src, cur, line);
      var rest := ScanFrom(src, s.next, s.line);
      tokens + r.tokens == (tokens + TokenSeq(s)) + rest.tokens
      && errors + r.errors == (errors + ErrorSeq(s)) + rest.errors
      && r.line == rest.line
  {
  }

  /** The EOF sentinel `scanTokens` appends. */
  function EofToken(line: int): Token { Token(Eof, "", NoLiteral, line) }

  /** `scanTokens` on a fresh scanner: the loop from cursor 0 and line 1, then the EOF token. */
  function ScanSource(src: string): Scan
  {
    var s := ScanFrom(src, 0, 1);
    Scan(s.tokens + [EofToken(s.line)], s.spans, s.errors, s.line)
  }

  // ---------------------------------------------------------------------
  // Properties of the whole scan

  /**
   * The tokens of a scan from `cur`, paired with their spans: each lexeme is
   * the source text of its span, the spans lie after `cur`, in source order,
   * without overlap, and no token is EOF.
   */
  ghost predicate WellSpanned(src: string, cur: nat, r: Scan)
  {
    |r.tokens| == |r.spans|
    && (forall i | 0 <= i < |r.spans| ::
          cur <= r.spans[i].start < r.spans[i].end <= |src|
          && r.tokens[i].lexeme == src[r.spans[i].start..r.spans[i].end]
          && r.tokens[i].kind != Eof)
    && (forall i, j | 0 <= i < j < |r.spans| :: r.spans[i].end <= r.spans[j].start)
  }

  lemma {:induction false} ScanFromWellSpanned(src: string, cur: nat, line: int)
    requires cur <= |src|
    ensures WellSpanned(src, cur, ScanFrom(src, cur, line))
    decreases |src| - cur
  {
    if cur < |src| {
      var s := ScanStep(src, cur, line);
      var rest := ScanFrom(src, s.next, s.line);
      var r := ScanFrom(src, cur, line);
      ScanFromWellSpanned(src, s.next, s.line);
      ScanStepTokenShape(src, cur, line);
      if s.token.Some? {
        assert r.tokens == [s.token.value] + rest.tokens;
        assert r.spans == [Span(cur, s.next)] + rest.spans;
        forall i | 0 <= i < |r.spans|
          ensures cur <= r.spans[i].start < r.spans[i].end <= |src|
          ensures r.tokens[i].lexeme == src[r.spans[i].start..r.spans[i].end]
          ensures r.tokens[i].kind != Eof
        {
          if i > 0 {
            assert r.spans[i] == rest.spans[i - 1] && r.tokens[i] == rest.tokens[i - 1];
          }
        }
        forall i, j | 0 <= i < j < |r.spans|
          ensures r.spans[i].end <= r.spans[j].start
        {
          assert r.spans[j] == rest.spans[j - 1];
          if i > 0 {
            assert r.spans[i] == rest.spans[i - 1];
          }
        }
      } else {
        assert r.tokens == rest.tokens && r.spans == rest.spans;
      }
    }
  }

  /** One step's token, if any, is cut from [start, next) and is not EOF. */
  lemma ScanStepTokenShape(src: string, start: nat, line: int)
    requires start < |src|
    ensures var s := ScanStep(src, start, line);
      s.token.Some? ==> s.token.value.lexeme == src[start..s.next] && s.token.value.kind != Eof
  {
  }

  /**
   * The result ends with exactly one EOF token, which has an empty lexeme and
   * the final line counter; every other token has a span whose text is its
   * lexeme, and the spans are in source order without overlap.
   */
  lemma EofSentinel(src: string)
    ensures var r := ScanSource(src);
      |r.tokens| >= 1
      && r.tokens[|r.tokens| - 1] == EofToken(r.line)
      && r.tokens[|r.tokens| - 1].kind == Eof && r.tokens[|r.tokens| - 1].lexeme == ""
      && (forall i | 0 <= i < |r.tokens| - 1 :: r.tokens[i].kind != Eof)
      && WellSpanned(src, 0, Scan(r.tokens[..|r.tokens| - 1], r.spans, r.errors, r.line))
  {
    var s := ScanFrom(src, 0, 1);
    ScanFromWellSpanned(src, 0, 1);
    assert ScanSource(src).tokens[..|s.tokens|] == s.tokens;
  }

  // ---------------------------------------------------------------------
  // Properties of one step

  /**
   * `!`, `=`, `<`, `>` followed by '=' give the two-character token; otherwise
   * the one-character token, and only that character is consumed.
   */
  lemma TwoCharOperators(src: string, start: nat, line: int)
    requires start < |src| && src[start] in {'!', '=', '<', '>'}
    ensures var s := ScanStep(src, start, line);
      s.token.Some? && s.error.None? && s.line == line
      && s.token.value.lexeme == src[start..s.next]
      && (s.next == start + 2 <==> MatchesAt(src, start + 1, '='))
      && (s.next == start + 1 <==> !MatchesAt(src, start + 1, '='))
      && (s.token.value.kind in {BangEqual, EqualEqual, LessEqual, GreaterEqual} <==> s.next == start + 2)
      && (src[start] == '!' ==> s.token.value.kind in {Bang, BangEqual})
      && (src[start] == '=' ==> s.token.value.kind in {Equal, EqualEqual})
      && (src[start] == '<' ==> s.token.value.kind in {Less, LessEqual})
      && (src[start] == '>' ==> s.token.value.kind in {Greater, GreaterEqual})
  {
  }

  /**
   * A letter or '_' starts a maximal run of letters, digits and '_'; its kind
   * is the keyword when the text is in the table and IDENTIFIER otherwise.
   */
  lemma IdentifierRun(src: string, start: nat, line: int)
    requires start < |src| && IsAlpha(src[start])
    ensures var s := ScanStep(src, start, line);
      s.token.Some? && s.error.None? && s.line == line
      && s.token.value.lexeme == src[start..s.next]
      && (forall k | start <= k < s.next :: IsAlphaNumeric(src[k]))
      && (s.next == |src| || !IsAlphaNumeric(src[s.next]))
      && (s.token.value.lexeme in Keywords <==> s.token.value.kind != Identifier)
      && (s.token.value.lexeme in Keywords ==> s.token.value.kind == Keywords[s.token.value.lexeme])
  {
  }

  /** `digits(.digits)?` */
  predicate IsNumberLexeme(s: string)
  {
    |s| > 0 && IsDigit(s[0]) && IsDigit(s[|s| - 1])
    && (forall k | 0 <= k < |s| :: IsDigit(s[k]) || s[k] == '.')
    && (forall k, m | 0 <= k < m < |s| :: s[k] == '.' ==> s[m] != '.')
  }

  /**
   * A digit starts a NUMBER token whose lexeme is `digits(.digits)?`; the run
   * ends before a non-digit, and a '.' is consumed only when a digit follows,
   * so a '.' after the integer part with no digit after it is left unconsumed.
   */
  lemma NumberShape(src: string, start: nat, line: int)
    requires start < |src| && IsDigit(src[start])
    ensures var s := ScanStep(src, start, line);
      s.token.Some? && s.error.None? && s.line == line
      && s.token.value.kind == Number
      && s.token.value.lexeme == src[start..s.next]
      && s.token.value.literal == NumberText(s.token.value.lexeme)
      && IsNumberLexeme(s.token.value.lexeme)
      && !IsDigit(PeekAt(src, s.next))
      && ('.' !in s.token.value.lexeme ==> !(PeekAt(src, s.next) == '.' && IsDigit(PeekAt(src, s.next + 1))))
  {
    var s := ScanStep(src, start, line);
    assert s == NumberStep(src, start, line);
    var whole := DigitsEnd(src, start + 1);
    var lex := src[start..s.next];
    if s.next != whole {
      assert lex[whole - start] == '.';
      forall k, m | 0 <= k < m < |lex| && lex[k] == '.' ensures lex[m] != '.' {
        assert k == whole - start;
      }
    }
  }

  /**
   * A quote starts a string literal that ends at the first later occurrence of
   * the same quote; the value is the lexeme without its first and last
   * characters. Without such a quote no token is added, the rest of the
   * source is consumed, and an error is recorded at the line counter's value
   * after the newlines inside the literal.
   */
  lemma StringLiteral(src: string, start: nat, line: int)
    requires start < |src| && (src[start] == '"' || src[start] == '\'')
    ensures var s := ScanStep(src, start, line);
      var q := src[start];
      (s.token.Some? <==> exists k | start < k < |src| :: src[k] == q)
      && (s.token.Some? ==>
            s.error.None?
            && s.token.value.kind == String
            && s.token.value.lexeme == src[start..s.next]
            && src[s.next - 1] == q
            && (forall k | start < k < s.next - 1 :: src[k] != q)
            && s.token.value.literal == StringValue(s.token.value.lexeme[1..|s.token.value.lexeme| - 1])
            && s.line == line + Newlines(src, start + 1, s.next - 1)
            && s.token.value.line == s.line)
      && (s.token.None? ==>
            s.next == |src|
            && s.line == line + Newlines(src, start + 1, |src|)
            && s.error == Some(ScanError(s.line, "Unterminated string.")))
  {
    var s := ScanStep(src, start, line);
    var q := src[start];
    var close := StringEnd(src, start + 1, q);
    assert s == StringStep(src, start, line, q);
    if close < |src| {
      assert src[close] == q && s.next == close + 1;
      assert s.token.value.lexeme == src[start..close + 1];
      var body := src[start..close + 1][1..close - start];
      assert forall k | 0 <= k < |body| :: body[k] == src[start + 1 + k];
      assert body == src[start + 1..close];
    } else {
      assert s.token.None?;
    }
  }

  /**
   * The line counter moves only on a newline consumed by the main switch (by
   * one) or on the newlines inside a string literal; comments, including
   * newlines inside a block comment, leave it unchanged.
   */
  lemma LineCounting(src: string, start: nat, line: int)
    requires start < |src|
    ensures var s := ScanStep(src, start, line);
      (src[start] == '\n' ==> s.line == line + 1)
      && (src[start] != '\n' && src[start] != '"' && src[start] != '\'' ==> s.line == line)
      && (src[start] == '"' || src[start] == '\'' ==>
            s.line == line + Newlines(src, start + 1, StringEnd(src, start + 1, src[start])))
  {
  }

  /** Space, '\r' and '\t' consume one character and record nothing. */
  lemma Whitespace(src: string, start: nat, line: int)
    requires start < |src| && src[start] in {' ', '\r', '\t'}
    ensures ScanStep(src, start, line) == Step(start + 1, line, None, None)
  {
  }

  /** The characters the main switch recognises. */
  predicate Recognised(c: char)
  {
    c in "(){},.-+;*%!=<>/\"' \r\t\n" || IsDigit(c) || IsAlpha(c)
  }

  /** An unrecognised character is skipped with an error and no token. */
  lemma UnexpectedCharacter(src: string, start: nat, line: int)
    requires start < |src| && !Recognised(src[start])
    ensures ScanStep(src, start, line)
         == Step(start + 1, line, None, Some(ScanError(line, "Unexpected character.")))
  {
  }

  /**
   * A block comment as written: the loop stops at the first position where
   * the current character is '*' OR the next is '/' (or at the end); the two
   * closing characters are consumed only when BOTH match, and otherwise
   * scanning resumes at the stop position, inside the comment.
   */
  lemma BlockCommentAsWritten(src: string, start: nat, line: int)
    requires start + 1 < |src| && src[start] == '/' && src[start + 1] == '*'
    ensures var s := ScanStep(src, start, line);
      var stop := BlockCommentStop(src, start + 2);
      s.token.None? && s.error.None? && s.line == line
      && start + 2 <= stop <= |src|
      && StopsBlockComment(src, stop)
      && (forall k | start + 2 <= k < stop :: !StopsBlockComment(src, k))
      && (ClosesAt(src, stop) ==> s.next == stop + 2)
      && (!ClosesAt(src, stop) ==> s.next == stop)
  {
  }

  // ---------------------------------------------------------------------
  // The block-comment defect

  // The evidently intended block comment: it ends just after the first
  // star-slash pair at or after `i`, or at the end of the source when there
  // is none.
  function IntendedBlockCommentEnd(src: string, i: nat): (j: nat)
    requires i <= |src|
    ensures i <= j <= |src|
    ensures (i + 2 <= j && ClosesAt(src, j - 2) && forall k | i <= k < j - 2 :: !ClosesAt(src, k))
         || (j == |src| && forall k | i <= k < |src| :: !ClosesAt(src, k))
    decreases |src| - i
  {
    if i >= |src| then |src|
    else if ClosesAt(src, i) then i + 2
    else IntendedBlockCommentEnd(src, i + 1)
  }

  /**
   * As written, a block comment never extends past its intended end, and it
   * ends there exactly when the loop's first stop is the intended closer or
   * the end of a comment that has no closer.
   */
  lemma BlockCommentNeverPastIntended(src: string, i: nat)
    requires i <= |src|
    ensures BlockCommentEnd(src, i) <= IntendedBlockCommentEnd(src, i)
    ensures BlockCommentEnd(src, i) == IntendedBlockCommentEnd(src, i)
        <==> ClosesAt(src, BlockCommentStop(src, i)) || BlockCommentStop(src, i) == |src|
  {
    var stop := BlockCommentStop(src, i);
    var intended := IntendedBlockCommentEnd(src, i);
    // every closer satisfies the loop's stop condition, so none lies before `stop`
    assert forall k | i <= k < stop :: !ClosesAt(src, k) by {
      forall k | i <= k < stop ensures !ClosesAt(src, k) {
        assert !StopsBlockComment(src, k);
      }
    }
    if ClosesAt(src, stop) {
      assert intended == stop + 2;
    } else if stop == |src| {
      assert intended == |src|;
    } else {
      if i + 2 <= intended && ClosesAt(src, intended - 2) {
        assert intended - 2 != stop;
      }
      assert stop < intended;
    }
  }

  // The defect on a concrete input: in the six characters / * a / * / the
  // comment body "a/" is followed by a closer, yet the loop stops at 'a'
  // because the next character is '/', the closer test fails there, and
  // scanning resumes at 'a', giving an IDENTIFIER token; the '/' and '*' that
  // follow open a second block comment that runs to the end. The intended
  // comment would swallow all six characters.
  lemma BlockCommentDefect()
    ensures IntendedBlockCommentEnd("/*a/*/", 2) == 6
    ensures BlockCommentEnd("/*a/*/", 2) == 2
    ensures ScanSource("/*a/*/").tokens
         == [Token(Identifier, "a", NoLiteral, 1), EofToken(1)]
  {
    var src := "/*a/*/";
    assert IntendedBlockCommentEnd(src, 4) == 6;
    assert IntendedBlockCommentEnd(src, 3) == 6;
    assert BlockCommentStop(src, 2) == 2;
    assert ScanStep(src, 0, 1) == Step(2, 1, None, None);
    assert IdentifierEnd(src, 3) == 3;
    assert src[2..3] == "a";
    assert ScanStep(src, 2, 1) == Step(3, 1, Some(Token(Identifier, "a", NoLiteral, 1)), None);
    assert BlockCommentStop(src, 5) == 6;
    assert ScanStep(src, 3, 1) == Step(6, 1, None, None);
    assert ScanFrom(src, 6, 1) == Scan([], [], [], 1);
    assert ScanFrom(src, 3, 1) == Scan([], [], [], 1);
    assert ScanFrom(src, 2, 1).tokens == [Token(Identifier, "a", NoLiteral, 1)];
  }
}
