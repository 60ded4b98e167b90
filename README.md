# RoundTable interpreter core: scanner, user functions, instances

A Dafny model of three parts of the RoundTable interpreter, a tree-walking
interpreter for a small class-based scripting language written in Java:

- **The lexical scanner** (`Scanner`). It makes one forward pass over the
  source text. It keeps the cursors `start` and `current` and a `line`
  counter. It appends tokens to a list and hands errors to the error reporter.
  Module `Lexical` states what one `scanToken` call does (`ScanStep`) and what
  a whole `scanTokens` run produces (`ScanSource`), as pure functions. The
  class `Scanner.Scanner` keeps the Java fields and loops. Each of its methods
  is proved to have exactly the effect the matching `Lexical` function gives.
  The scanner's properties are lemmas about those functions: the EOF sentinel,
  lexemes matching their source spans, maximal munch for identifiers, numbers
  and two-character operators, the keyword table, string delimiters, line
  counting, and block comments.
- **User functions** (`RoTalFunction`), in module `Functions`. Arity is the
  parameter count. `bind` builds a new function whose closure is a new frame
  that defines `self`. `call` defines the parameters in a new frame and picks
  the result by the initializer and return rules. Environments are frames,
  each a map from names to values with a reference to its enclosing frame.
- **Instances** (`RoundTableInstance`), in module `Instances`. An instance
  has a mutable field map. `get` tries the fields, then the class's methods,
  then raises "Undefined property". `set` puts or overwrites one field.

Shared modules: `Tokens` holds token kinds, tokens and the reserved-word
table. `Results` holds `Option` and `Result`.

Three behaviours of the code are modelled as written:

- The block-comment loop ends as soon as EITHER the current character is `*`
  OR the next one is `/`. A comment is evidently meant to end only at a `*`
  immediately followed by `/`. The model keeps the code's loop. The
  consequence is proved (`Lexical.BlockCommentDefect`), and the intended
  comment end is defined alongside it (see Findings).
- An unterminated string is reported at the line counter's value after the
  newlines inside the literal have been counted, not at the line of the
  opening quote.
- `get` on an instance in the `compiler` package returns a class method as
  the class holds it, without binding it to the instance.

## Model

| member | source | states |
|---|---|---|
| `Tokens.IdentifierKind` | src/compiler/Scanner.java:20-38 | with the reserved-word table of lines 20-38, looked up as lines 215-216 do, a run's kind is not IDENTIFIER exactly when its text is in the reserved-word table, and then it is that word's kind; never EOF |
| `Lexical.DigitsEnd` | src/compiler/Scanner.java:197 | the digit loop stops at the first non-digit (or the end); everything it passed over is a digit |
| `Lexical.IdentifierEnd` | src/compiler/Scanner.java:212 | the identifier loop stops at the first character that is not a letter, digit or `_`; everything before it is one |
| `Lexical.LineCommentEnd` | src/compiler/Scanner.java:84-86 | a line comment runs up to the next newline, which it leaves unconsumed, or to the end |
| `Lexical.BlockCommentStop` | src/compiler/Scanner.java:90-92 | the block-comment loop stops at the first position where the character is `*` or the next is `/` or the input is exhausted |
| `Lexical.StringEnd` | src/compiler/Scanner.java:178-181 | the string loop stops at the first later occurrence of the opening delimiter, or at the end |
| `Lexical.ScanStep` | src/compiler/Scanner.java:54-125 | every `scanToken` call consumes at least one character and stays inside the source, so `scanTokens` terminates |
| `Lexical.ScanFromWellSpanned` | src/compiler/Scanner.java:44-48 | every token's lexeme is the source text of its span; spans are in source order and do not overlap; no token before the end is EOF |
| `Lexical.EofSentinel` | src/compiler/Scanner.java:44-52 | the token list ends with exactly one EOF token with an empty lexeme and the final line counter; all other tokens have well-formed spans |
| `Lexical.TwoCharOperators` | src/compiler/Scanner.java:69-80 | `!`, `=`, `<`, `>` give their two-character token exactly when followed by `=`; otherwise the one-character token, consuming one character |
| `Lexical.IdentifierRun` | src/compiler/Scanner.java:211-218 | a letter or `_` (the `isAlpha` test of lines 135-143) starts a maximal run of letters, digits and `_`; it is a keyword exactly when its text is in the table, else IDENTIFIER (the loop and lookup of lines 211-218) |
| `Lexical.NumberShape` | src/compiler/Scanner.java:196-209 | a NUMBER lexeme is `digits(.digits)?`, is not followed by a digit, and a `.` not followed by a digit is left unconsumed |
| `Lexical.StringLiteral` | src/compiler/Scanner.java:177-194 | a string ends at the first later occurrence of its own opening quote, and its value is the lexeme minus its first and last characters; without one, no token is added, the rest of the source is consumed, and "Unterminated string." is recorded at the current line counter |
| `Lexical.LineCounting` | src/compiler/Scanner.java:84-112 | the line counter grows by one on a newline taken by the main switch; for a string literal it grows by exactly the number of newlines up to the closing quote (or the end); every other character, comments included, leaves it unchanged |
| `Lexical.Whitespace` | src/compiler/Scanner.java:107-110 | space, `\r` and `\t` consume one character and record nothing |
| `Lexical.UnexpectedCharacter` | src/compiler/Scanner.java:114-122 | an unrecognised character records "Unexpected character." at the current line, adds no token, and scanning continues after it |
| `Lexical.BlockCommentAsWritten` | src/compiler/Scanner.java:88-96 | a block comment adds nothing and leaves the line counter alone; it stops where the loop stops and consumes the two closing characters only when both match |
| `Lexical.BlockCommentNeverPastIntended` | src/compiler/Scanner.java:90-96 | as written, a block comment never ends after its intended end; it ends exactly there only when the loop's first stop is a real closer or the end of the source |
| `Lexical.BlockCommentDefect` | src/compiler/Scanner.java:90-96 | on `/*a/*/` the comment as written ends after two characters where the intended one ends after six, and the scan yields IDENTIFIER `a` and EOF |
| `Lexical.IntendedBlockCommentEnd` | src/compiler/Scanner.java:90-96 | the intended comment ends right after the first star-slash closer, with none earlier, or at the end of the source if there is none |
| `Scanner.Scanner.constructor` | src/compiler/Scanner.java:40-42 | a new scanner holds the source, no tokens or errors, both cursors at 0 and the line counter at 1 |
| `Scanner.Scanner.ScanTokens` | src/compiler/Scanner.java:44-52 | the tokens and errors appended are those of the whole scan from the current cursor, followed by the EOF token; on a fresh scanner they are `ScanSource(source)` |
| `Scanner.Scanner.ScanOne` | src/compiler/Scanner.java:45-47 | one loop turn moves the cursor forward and keeps "recorded so far + still to scan" unchanged |
| `Scanner.Scanner.ScanToken` | src/compiler/Scanner.java:54-125 | one `scanToken` call has exactly the effect `ScanStep` gives on the cursor, line counter, token list and error list |
| `Scanner.Scanner.Slash` | src/compiler/Scanner.java:82-101 | the `/` case skips a line comment or a block comment, or adds SLASH |
| `Scanner.Scanner.SkipLineComment` | src/compiler/Scanner.java:84-86 | the loop leaves the cursor at `LineCommentEnd` |
| `Scanner.Scanner.SkipBlockComment` | src/compiler/Scanner.java:90-96 | the loop and the closer test leave the cursor at the as-written comment end |
| `Scanner.Scanner.StringLiteral` | src/compiler/Scanner.java:177-194 | `string` adds the STRING token or records the error exactly as `StringStep` says, counting the newlines it passes |
| `Scanner.Scanner.Number` | src/compiler/Scanner.java:196-209 | `number` adds the NUMBER token `NumberStep` gives |
| `Scanner.Scanner.SkipDigits` | src/compiler/Scanner.java:204 | the digit loop leaves the cursor at `DigitsEnd` |
| `Scanner.Scanner.Identifier` | src/compiler/Scanner.java:211-218 | `identifier` adds the keyword or IDENTIFIER token `IdentifierStep` gives |
| `Scanner.Scanner.Advance` | src/compiler/Scanner.java:145-148 | consumes and returns the character at the cursor |
| `Scanner.Scanner.Match` | src/compiler/Scanner.java:159-165 | consumes one character exactly when one is left and it is the expected one, and says whether it did |
| `Scanner.Scanner.AddToken` | src/compiler/Scanner.java:150-157 | appends a token whose lexeme is the source between `start` and `current`, at the current line |
| `Scanner.Scanner.ReportError` | src/compiler/Scanner.java:121 | records the error at the current line counter |
| `Functions.Environment.constructor` | src/lexer/RoTalFunction.java:33 | a new frame is empty and enclosed by the given environment |
| `Functions.Environment.Define` | src/lexer/RoTalFunction.java:35-36 | `define` binds or rebinds one name in this frame and changes nothing else |
| `Functions.ParameterFrameKeys` | src/lexer/RoTalFunction.java:34-37 | the call frame binds exactly the parameter names |
| `Functions.ParameterFrameLastWins` | src/lexer/RoTalFunction.java:34-37 | a parameter whose name does not reappear later is bound to the argument at its own position |
| `Functions.DistinctParametersBindPositionally` | src/lexer/RoTalFunction.java:34-37 | with distinct parameter names, parameter i is bound to `arguments[i]` for every i |
| `Functions.RoTalFunction.constructor` | src/lexer/RoTalFunction.java:11-16 | a function holds its declaration, closure and initializer flag |
| `Functions.FrameSizeAtMostArity` | src/lexer/RoTalFunction.java:26-37 | the frame a call builds holds at most `arity()` bindings, one per parameter name, and exactly `arity()` when the parameter names are distinct |
| `Functions.RoTalFunction.Bind` | src/lexer/RoTalFunction.java:18-23 | a new function with the same declaration and flag; its closure is a new frame enclosed by the old closure binding only `self` to the instance; the original is unchanged |
| `Functions.RoTalFunction.Call` | src/lexer/RoTalFunction.java:30-48 | the body runs in a new frame enclosed by the closure holding the parameters, at most `arity()` bindings; an initializer yields `self` from the closure's frame whether the body returned or not; otherwise the returned value, or nil |
| `Functions.CallBound` | src/lexer/RoTalFunction.java:18-48 | binding then calling an initializer yields the bound instance whatever the body does; any other function yields its returned value or nil |
| `Instances.RoundTableInstance.constructor` | src/compiler/RoundTableInstance.java:10-12 | a new instance refers to its class and has no fields |
| `Instances.RoundTableInstance.Get` | src/compiler/RoundTableInstance.java:14-24 | `get` gives the field, else the class's method, else the error, and changes nothing |
| `Instances.RoundTableInstance.Set` | src/compiler/RoundTableInstance.java:26-28 | `set` changes only the entry for the name; the class is unchanged and no field key is lost |
| `Instances.FieldShadowsMethod` | src/compiler/RoundTableInstance.java:14-17 | a field's value is returned even when the class has a method of that name |
| `Instances.MethodReturnedUnbound` | src/compiler/RoundTableInstance.java:19-20 | without such a field, the class's method is returned exactly as the class holds it, not bound |
| `Instances.UndefinedProperty` | src/compiler/RoundTableInstance.java:22-23 | neither a field nor a method: a runtime error on the name's token with "Undefined property '<name>'." |
| `Instances.SetThenGet` | src/compiler/RoundTableInstance.java:26-28 | after `set(name, v)`, `get(name)` yields `v`, and `get` of any other name is as before |

## Left out

- `src/compiler/RoundTable.java` is not part of this model. It holds argument dispatch, the REPL loop, file reading, exit codes, diagnostic printing and the global error flags.
- Error reporting: the scanner's calls to the error reporter become `(line, message)` entries appended to the scanner's `errors` list. Printing and the "had error" flag are not modelled.
- Number values: `Double.parseDouble` is not modelled. A NUMBER token carries its lexeme as its literal (`NumberText`).
- Running a body: `Interpreter.executeBlock` and the `Return` exception are replaced by a parameter `executeBlock` of `Call`. It maps the frame the call sets up to an outcome, `Normal` or `Returned(v)`. It stands for the whole run of the body and is chosen per call: in Java the body also reads the closure chain (including `self`) and the heap, which the model does not represent, so a fixed `executeBlock` does not mean that two calls with the same parameter frame give the same result. The model does not capture the body changing environments while it runs.
- Environments: only `define` and `getAt(0, name)` are modelled, since those are the only operations the core uses. A missing name at distance 0 yields nil. `get`, `assign` and lookups at other distances are not part of this model.
- `RoundTableClass.findMethod` is modelled as lookup in a finite method table. Any walk up the superclass chain is taken to be already folded into that table.
- Field values and methods of instances are abstract type parameters. Runtime values in `Functions` are cut down to nil, booleans, numbers as text, strings and instance identities.
- `toString` methods are display only and are not modelled.
- Characters: the source is modelled as a sequence of Unicode scalar values, not of Java's UTF-16 code units. A character outside the Basic Multilingual Plane is one character in the model but two code units in Java. So where the Java scanner records "Unexpected character." once per surrogate (twice for such a character), the model records it once. Cursor positions and token spans also count scalar values, not code units, after such a character. A lone surrogate, which a Java `String` can hold, cannot occur in the model.
- Integer widths: cursors and the line counter are unbounded integers. Java's 32-bit `int` cannot overflow on any source a `String` can hold.
- `Functions.RoTalFunction.Call` requires at least `arity()` arguments, which is what the Java code reads. With fewer, the Java code would throw an index error. The interpreter's exact-arity check is not part of this model.

## Findings

| source | as written | input that shows it | evidently intended | confidence | as-written member | corrected member |
|---|---|---|---|---|---|---|
| src/compiler/Scanner.java:90 | the block-comment loop stops when the current character is `*` OR the next is `/`; unless both hold it then consumes nothing, and scanning resumes inside the comment | `/*a/*/` gives IDENTIFIER `a` then EOF; the comment ends after two characters | the comment ends only after the first `*` immediately followed by `/` (here after all six characters, giving only EOF) | not executed; proved on the model | `Lexical.BlockCommentDefect` | `Lexical.IntendedBlockCommentEnd` |

The scanner model keeps the as-written loop, because it models what the code
does. `Lexical.BlockCommentNeverPastIntended` relates the two ends on every
input. As written, a comment ends at or before its intended end. It ends
exactly there only when the loop's first stop is a real closer or the end of
the source.
