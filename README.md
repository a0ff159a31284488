# Green, modelled in Dafny

Green is a small scripting language implemented in Rust. The crate holds several
generations of the same pipeline side by side, and this project models each of them as
the source writes it:

- two lexers: the early `tokenize` of `src/lexical_analyzer.rs` and the `Lexer` object
  of `src/lexer/lexical_analyzer.rs`;
- three parsers: the earliest `src/parser.rs`, the fail-fast `src/parser/ast.rs`, which
  stops at the first error, and the error-collecting `src/parser/parser.rs`, which
  records an error and goes on;
- the semantic analyzer `src/analyzer/semantic.rs` with its variable, function,
  coroutine and task tables;
- the tree-walking interpreter `src/interpreter/execute.rs`, with its scope stacks
  (`environment.rs`, `variable.rs`), its function table and its coroutine tasks;
- the JSON summary of a program in `src/utils/ast_to_json.rs`;
- the shared vocabulary: keywords, operators, types, tokens, error codes, error
  contexts and message templates, and the command-line options.

Code that changes state step by step is modelled the way the source writes it. A Dafny
class has the Rust struct's fields and methods, and the loops keep their loops. Each
such method is proved equal to a pure function over the same state, and the properties
are lemmas about those functions. Pure code (keyword tables, printing, message
substitution) is written as functions directly. Revisions that disagree are not
merged: each has its own datatypes, named after the file that uses them.

Integers are unbounded in Dafny. The `i32` ranges, the decimal printing of integers and
`str::parse::<i32>` are written out in module `Decimal`. Arithmetic overflow in the
interpreter is modelled as the panic a debug build raises.

## Model

| member | source | states |
|---|---|---|
| Decimal.NatToString | src/common/types.rs:33 | The decimal text of a number is non-empty, all ASCII digits, and has no leading zero unless it is the single digit `0`. |
| Decimal.ParseI32 | src/parser/parser.rs:994 | `str::parse::<i32>` accepts only values inside the `i32` range. |
| Decimal.DigitsValueOfNatToString | src/common/types.rs:33 | The digits printed for a number denote that number. |
| Decimal.ParseI32OfIntToString | src/common/types.rs:33 | Reading back what `i32::to_string` printed gives the same integer. |
| Decimal.IntToStringInjective | src/common/types.rs:33 | Two `i32` values print alike only when they are equal. |
| Types.LiteralType | src/common/types.rs:22-28 | A literal has no type exactly when it is `Null`; each other literal has the type of its own kind. |
| Types.TypeToStringInjective | src/common/types.rs:10-17 | `Type::to_string` gives each of the four types its own name. |
| Types.BlockTypeToStringInjective | src/common/types.rs:68-75 | `BlockType::to_string` gives each block kind its own name. |
| Types.LiteralToStringArms | src/common/types.rs:31-39 | Strings print unchanged, booleans as `true`/`false`, `Null` as `Null`, and an integer so that parsing the text back gives the same integer. |
| Types.IntLiteralToStringInjective | src/common/types.rs:33 | Two integer literals print alike only when they are equal. |
| Keywords.ControlRoundTrip | src/common/keyword.rs:10-30 | `ControlKeyword::from_str(s)` returns `k` exactly when `k.to_string()` is `s`. |
| Keywords.DeclarationRoundTrip | src/common/keyword.rs:39-53 | `DeclarationKeyword::from_str` and `to_string` are inverse, in both directions. |
| Keywords.TypeNameRoundTrip | src/common/keyword.rs:64-82 | `TypeName::from_str` and `to_string` are inverse, in both directions. |
| Keywords.LoopControlRoundTrip | src/common/keyword.rs:91-105 | `LoopControl::from_str` and `to_string` are inverse, in both directions. |
| Keywords.FunctionControlRoundTrip | src/common/keyword.rs:113-125 | `FunctionControl::from_str` and `to_string` are inverse, in both directions. |
| Keywords.BoolRoundTrip | src/common/keyword.rs:134-148 | `BoolKeyword::from_str` and `to_string` are inverse, in both directions. |
| LexerKeyword.KeywordToStringInjective | src/lexer/keyword.rs:18-34 | Each flat keyword has its own spelling. |
| LexerKeyword.KeywordSpellingFamily | src/lexer/keyword.rs:18-34 | Each flat keyword's spelling is recognised by exactly one keyword family of `src/common/keyword.rs`, and says which one. |
| Operators.LogicalToStringInjective | src/common/operator.rs:49-66 | The logical operators print distinct spellings. |
| Operators.ComparisonToStringInjective | src/common/operator.rs:91-102 | The six comparisons print distinct spellings. |
| Operators.ArithmeticToStringCollisions | src/common/operator.rs:69-88 | The binary arithmetic operators print as exactly `+ - * /`, one each; unary plus and minus share the spellings of addition and subtraction. |
| Tokens.OperatorFromStrRoundTrip | src/lexer/lexical_analyzer.rs:41-44 | The operator `from_str` lookups the lexer calls are the inverses of the operators' printing. |
| Tokens.TokenToStringSpec | src/lexer/token.rs:53-88 | Payload tokens print their payload unchanged, keyword and operator tokens print a spelling their family reads back as the same value, and comments print nothing. |
| ErrorCodes.ErrorCodeFromStringOfToString | src/error/error_code.rs:57-94 | Every printed code name reads back as the code it came from. |
| ErrorCodes.ErrorCodeToStringInjective | src/error/error_code.rs:57-94 | Distinct codes print distinct names. |
| ErrorCodes.RuntimeCodeToString | src/error/error_code.rs:73-91 | `Runtime00k` prints as `RUNTIME` followed by its three-digit number, and `ALL` prints as `ALL`. |
| Text.ReplaceAbsent | src/error/error_message.rs:27 | `str::replace` leaves a text without the pattern unchanged. |
| Text.ReplaceFirst | src/error/error_message.rs:27 | `str::replace` replaces the first occurrence and resumes scanning right after it. |
| Text.TrimStart | src/parser/parser.rs:1046 | `trim_start` drops exactly the leading whitespace. |
| Text.TrimEnd | src/parser/parser.rs:1046 | `trim_end` drops exactly the trailing whitespace. |
| Text.FindFrom | src/parser/parser.rs:1044-1045 | The result is the first position at or after the start where the pattern occurs, or none when it occurs nowhere after the start. |
| ErrorContexts.NewErrorContext | src/error/error_context.rs:11-17 | `ErrorContext::new` keeps the code and the location, and its i-th parameter pair is the i-th pair given. |
| ErrorMessages.GetErrorMessage | src/error/error_message.rs:22-33 | A known code yields its template with every parameter substituted in order; an unknown code yields the "unknown code" error naming it. |
| ErrorMessages.GetErrorMessageWithLocation | src/error/error_message.rs:36-41 | The message is the substituted template with `{row}` and then `{col}` filled in; a failed lookup passes through unchanged. |
| ErrorMessages.SubstituteNothing | src/error/error_message.rs:26-28 | With no parameters the template is returned unchanged. |
| ErrorMessages.SubstituteOne | src/error/error_message.rs:26-28 | One parameter replaces its placeholder, and a value that itself spells the placeholder is not expanded again. |
| ErrorMessages.LocationFilledAfterParameters | src/error/error_message.rs:37-39 | The location is filled in after the parameters, so a parameter value `{row}` ends up showing the row number. |
| Utils.GetErrorMessage | src/utils.rs:5-16 | The older lookup by code string: a known code gives the substituted template, an unknown one the error naming it. |
| Utils.GetErrorMessageWithLocation | src/utils.rs:19-24 | The older lookup with `{row}` and `{col}` filled in after the parameters; a failed lookup passes through. |
| CliArgs.RunModeFromStr | src/cli_arg_parse.rs:13-19 | `-exe` selects Execute and `-ana` selects Analysis, and any other option is the "invalid option" error naming it. |
| CliArgs.NewConfigCases | src/cli_arg_parse.rs:23-33 | With three arguments the option and path come from the command line. With two arguments only the path does, with one the path defaults to `main.grn`, and any other count is an error. |
| LateSyntax.TypeFromKeyword | src/parser/parser.rs:236 | Each type keyword names the type of the same name. |
| EarlyLexing.StringRun | src/lexical_analyzer.rs:56-60 | The string loop reads no more than the input; `StringRunSpec` gives its exact result. |
| EarlyLexing.SkipLine | src/lexical_analyzer.rs:90-92 | The line-comment loop leaves a suffix of the input; `SkipLineSpec` says which. |
| EarlyLexing.BlockSkip | src/lexical_analyzer.rs:98-105 | The block-comment loop leaves a suffix of the input; `BlockSkipSpec` says which. |
| EarlyLexing.AlphaRun | src/lexical_analyzer.rs:131-136 | The word loop reads at least one character when the first is alphabetic, and never more than the input. |
| EarlyLexing.NumberRun | src/lexical_analyzer.rs:145-162 | The number loop reads at least the first numeric character; its only error is "Unexpected '.' in number". |
| EarlyLexing.Slash | src/lexical_analyzer.rs:70-115 | The `/` arm pushes at most one token, and that token is the division operator. |
| EarlyLexing.StringLiteral | src/lexical_analyzer.rs:53-66 | A successful string arm consumes the closing quote and pushes exactly one string token. |
| EarlyLexing.Word | src/lexical_analyzer.rs:130-143 | A successful word arm consumes at least one character and pushes exactly one token. |
| EarlyLexing.Number | src/lexical_analyzer.rs:144-177 | A successful number arm pushes one token, and an integer token always holds an `i32`. |
| EarlyLexing.Step | src/lexical_analyzer.rs:48-179 | One round of the outer loop consumes at least one character and pushes at most one token, which is never EOF or a doc comment. |
| EarlyLexing.Scan | src/lexical_analyzer.rs:47-182 | On success the earlier tokens are kept and the list ends with EOF. No other token added is EOF or a doc comment. |
| EarlyLexing.Tokenize | src/lexical_analyzer.rs:39-43 | Empty input is the error "Input text is empty". |
| EarlyLexing.TokenizeIntended | src/lexical_analyzer.rs:107-110 | The corrected `tokenize`, in which a lone `/` consumes only itself, also refuses empty input. |
| EarlyLexer.Tokenize | src/lexical_analyzer.rs:39-183 | The loop over the peekable iterator returns exactly what `EarlyLexing.Tokenize` describes. |
| EarlyLexer.Round | src/lexical_analyzer.rs:48-179 | One pass through the `match` on the peeked character leaves the characters and tokens `EarlyLexing.Step` gives. |
| EarlyLexer.LexString | src/lexical_analyzer.rs:53-66 | The string arm as a loop equals `EarlyLexing.StringLiteral`. |
| EarlyLexer.LexSlash | src/lexical_analyzer.rs:70-115 | The `/` arm as written, which consumes the character after a lone slash, equals `EarlyLexing.Slash`. |
| EarlyLexer.LexWord | src/lexical_analyzer.rs:130-143 | The word arm as a loop equals `EarlyLexing.Word`. |
| EarlyLexer.LexNumber | src/lexical_analyzer.rs:144-177 | The number arm with its `is_float` flag equals `EarlyLexing.Number`. |
| EarlyLexingProperties.BeforeSpec | src/lexical_analyzer.rs:56-57 | `Before(s, c)` is the index of the first `c`, or the length when there is none. |
| EarlyLexingProperties.StringRunSpec | src/lexical_analyzer.rs:56-60 | The string loop takes exactly the characters before the next quote and stops at it. |
| EarlyLexingProperties.SkipLineSpec | src/lexical_analyzer.rs:90-92 | A line comment ends just after the first newline, or at the end of the input. |
| EarlyLexingProperties.BlockSkipSpec | src/lexical_analyzer.rs:96-106 | A block comment ends just after the first `*/`; an unclosed one silently takes the rest of the input. |
| EarlyLexingProperties.AlphaLengthSpec | src/lexical_analyzer.rs:132-133 | `AlphaLength` counts exactly the leading alphabetic characters. |
| EarlyLexingProperties.AlphaRunSpec | src/lexical_analyzer.rs:131-136 | The word loop takes exactly the leading alphabetic run. |
| EarlyLexingProperties.NumeralLengthSpec | src/lexical_analyzer.rs:148-161 | `NumeralLength` counts exactly the leading run of numeric characters and points. |
| EarlyLexingProperties.NumberRunSpec | src/lexical_analyzer.rs:145-162 | The number loop takes the whole run of digits and points, unless the run holds a second point, which is an error. |
| EarlyLexingProperties.I32Numeral | src/lexical_analyzer.rs:171 | For ASCII digits, `parse::<i32>` gives their decimal value exactly when it fits. |
| EarlyLexingProperties.EmptyInputRejected | src/lexical_analyzer.rs:40-42 | Empty input is refused before anything is read. |
| EarlyLexingProperties.EndsWithSingleEof | src/lexical_analyzer.rs:181-182 | A successful result ends with exactly one EOF and holds no doc comment. |
| EarlyLexingProperties.CommentsEmitNothing | src/lexical_analyzer.rs:49-106 | Blanks and all three comment forms push nothing. `//` and `///` read through the first newline, and a block comment reads through the first `*/` or to the end. |
| EarlyLexingProperties.StringSpec | src/lexical_analyzer.rs:53-66 | A string takes every character up to the next quote, line breaks included. Without a closing quote it is the error "Unclosed string literal". |
| EarlyLexingProperties.EqualitySpec | src/lexical_analyzer.rs:116-129 | `=` and `!` succeed exactly when followed by `=`, giving `==` or `!=`; otherwise the error message is empty. |
| EarlyLexingProperties.WordSpec | src/lexical_analyzer.rs:130-143 | A word is the longest alphabetic run. Only `print`, `true` and `false` are known; any other word is an error naming it. |
| EarlyLexingProperties.NumberSpec | src/lexical_analyzer.rs:144-177 | A number is the longest run of digits and points. A second point is an error, one point makes a float, and none makes an `i32`; each failure gives its own message. |
| EarlyLexingProperties.IntegerSpec | src/lexical_analyzer.rs:170-176 | A run of digits is an `Int` token exactly when its value fits in an `i32`. |
| EarlyLexingProperties.SlashAtEnd | src/lexical_analyzer.rs:111-113 | A `/` at the very end of the input is the error "Unexpected end of input". |
| EarlyLexingProperties.UnknownCharacter | src/lexical_analyzer.rs:178 | Any character no arm takes, a tab among them, ends the scan with an error naming it. |
| EarlyLexingProperties.ScanStep | src/lexical_analyzer.rs:47-180 | The outer loop is one round followed by the loop on what that round left. |
| EarlyLexingProperties.DivisionDropsNextCharacter | src/lexical_analyzer.rs:107-110 | As written, a lone `/` also consumes the character after it. |
| EarlyLexingProperties.DivisionExample | src/lexical_analyzer.rs:107-110 | As written, `1/2` lexes to `1`, `/`, EOF, losing its divisor. |
| EarlyLexingProperties.DivisionKeepsNextCharacter | src/lexical_analyzer.rs:107-110 | With the corrected arm, a lone `/` leaves the next character for the next round. |
| EarlyLexingProperties.DivisionExampleIntended | src/lexical_analyzer.rs:107-110 | With the corrected arm, `1/2` lexes to `1`, `/`, `2`, EOF. |
| Lexing.NextChar | src/lexer/lexical_analyzer.rs:345-355 | `next_char` consumes exactly one character when there is one, and only moves the lexer forward. |
| Lexing.ReadsTwice | src/lexer/lexical_analyzer.rs:345-355 | Reading twice is reading: the lexer state only moves forward. |
| Lexing.ReadExtends | src/lexer/lexical_analyzer.rs:345-355 | Reading characters never changes the tokens already pushed. |
| Lexing.ReadThenPush | src/lexer/lexical_analyzer.rs:328-335 | Reading and then pushing one token keeps every earlier token and adds exactly one. |
| Lexing.PeekChar | src/lexer/lexical_analyzer.rs:357-366 | `peek_char` succeeds exactly when a character remains and returns it; at the end of input it is Lex004 at the current location. |
| Lexing.Punctuation | src/lexer/lexical_analyzer.rs:32-46 | Every one-character token is a kind the lexer may push. |
| Lexing.StringBody | src/lexer/lexical_analyzer.rs:71-75 | The string loop only reads; `StringBodySpec` says how far. |
| Lexing.LexString | src/lexer/lexical_analyzer.rs:68-83 | A successful string pushes exactly one token after the earlier ones; the only failures are Lex003 and Lex004. |
| Lexing.SkipLine | src/lexer/lexical_analyzer.rs:116-119 | The `//` loop only reads; `SkipLineSpec` says how far. |
| Lexing.DocLine | src/lexer/lexical_analyzer.rs:104-111 | The `///` loop only reads; `DocLineReadsLikeComment` says what. |
| Lexing.LineComment | src/lexer/lexical_analyzer.rs:98-123 | The `//` branch only reads and pushes nothing. |
| Lexing.BlockComment | src/lexer/lexical_analyzer.rs:124-137 | The block-comment loop only reads, and its only failure is Lex004. |
| Lexing.LexSlash | src/lexer/lexical_analyzer.rs:86-153 | `lex_slash` pushes at most one token and consumes at least the slash; its only failure is Lex004. |
| Lexing.LexEqual | src/lexer/lexical_analyzer.rs:156-175 | `lex_equal` pushes exactly one token; its only failure is Lex004. |
| Lexing.LexExclamation | src/lexer/lexical_analyzer.rs:178-202 | `lex_exclamation` pushes exactly one token; it fails only with Lex004 or Lex005. |
| Lexing.AngleEquals | src/lexer/lexical_analyzer.rs:210-221 | The `=` loop of `lex_angle` only reads, and running out of input is Lex004. |
| Lexing.LexAngle | src/lexer/lexical_analyzer.rs:205-237 | `lex_angle` pushes exactly one token; it fails only with Lex004 or Lex005. |
| Lexing.WordRun | src/lexer/lexical_analyzer.rs:243-249 | The word loop only reads and consumes the first word character; the end of input is Lex004. |
| Lexing.WordKind | src/lexer/lexical_analyzer.rs:250-294 | Every word becomes a token kind the lexer may push. |
| Lexing.LexIdentifier | src/lexer/lexical_analyzer.rs:240-297 | `lex_identifier` pushes exactly one token and consumes the word; its only failure is Lex004. |
| Lexing.DigitRun | src/lexer/lexical_analyzer.rs:304-311 | The digit loop only reads. |
| Lexing.LexNumber | src/lexer/lexical_analyzer.rs:300-315 | `lex_number` never fails, pushes exactly one token and consumes the first digit. |
| Lexing.Step | src/lexer/lexical_analyzer.rs:30-55 | One round consumes at least one character and pushes at most one token; every failure is a lexical code. |
| Lexing.Tokenize | src/lexer/lexical_analyzer.rs:28-59 | On success the earlier tokens are kept and the list ends with EOF. No other token added is a comment or EOF, and every failure is a lexical code. |
| Lexing.TokenizeFrom | src/lexer/lexical_analyzer.rs:29-58 | The rest of the loop after one round keeps the same guarantees as `Tokenize`. |
| Lexing.TokenizeStep | src/lexer/lexical_analyzer.rs:29-56 | The loop is one round followed by the loop; a failing round ends it with that round's error (the `?`). |
| Lexers.Lexer.constructor | src/lexer/lexical_analyzer.rs:18-26 | `Lexer::new` starts at row 1, column 1 with no tokens. |
| Lexers.Lexer.NextChar | src/lexer/lexical_analyzer.rs:345-355 | The fields after `next_char` are those `Lexing.NextChar` gives. |
| Lexers.Lexer.PeekChar | src/lexer/lexical_analyzer.rs:357-366 | `peek_char` changes nothing and gives what `Lexing.PeekChar` gives. |
| Lexers.Lexer.PushToken | src/lexer/lexical_analyzer.rs:328-330 | `push_token` appends one token at the current location. |
| Lexers.Lexer.PushTokenWithLocation | src/lexer/lexical_analyzer.rs:333-335 | `push_token_with_location` appends one token at the given location. |
| Lexers.Lexer.LexString | src/lexer/lexical_analyzer.rs:68-83 | The loop leaves the state `Lexing.LexString` describes. |
| Lexers.Lexer.LineComment | src/lexer/lexical_analyzer.rs:98-123 | Both comment loops leave the state `Lexing.LineComment` describes. |
| Lexers.Lexer.BlockComment | src/lexer/lexical_analyzer.rs:124-137 | The block-comment loop leaves the state `Lexing.BlockComment` describes. |
| Lexers.Lexer.LexSlash | src/lexer/lexical_analyzer.rs:86-153 | `lex_slash` leaves the state `Lexing.LexSlash` describes. |
| Lexers.Lexer.LexEqual | src/lexer/lexical_analyzer.rs:156-175 | `lex_equal` leaves the state `Lexing.LexEqual` describes. |
| Lexers.Lexer.LexExclamation | src/lexer/lexical_analyzer.rs:178-202 | `lex_exclamation` leaves the state `Lexing.LexExclamation` describes. |
| Lexers.Lexer.LexAngle | src/lexer/lexical_analyzer.rs:205-237 | `lex_angle` with its loop leaves the state `Lexing.LexAngle` describes. |
| Lexers.Lexer.LexIdentifier | src/lexer/lexical_analyzer.rs:240-297 | `lex_identifier` with its loop leaves the state `Lexing.LexIdentifier` describes. |
| Lexers.Lexer.LexNumber | src/lexer/lexical_analyzer.rs:300-315 | `lex_number` with its loop leaves the state `Lexing.LexNumber` describes. |
| Lexers.Lexer.Tokenize | src/lexer/lexical_analyzer.rs:28-59 | The `while let` loop returns what `Lexing.Tokenize` gives. |
| Lexers.Lex | src/lexer/lexical_analyzer.rs:390-393 | `lex` returns what `Lexing.Lex` gives for a fresh lexer. |
| LexingProperties.LexEndsWithSingleEof | src/lexer/lexical_analyzer.rs:28-58 | A successful list ends with the end marker, which occurs nowhere else, and holds no comment or doc-comment token. |
| LexingProperties.NextCharKeepsLocation | src/lexer/lexical_analyzer.rs:345-355 | Reading one more character moves the row and column exactly as counting the characters read says. |
| LexingProperties.NewlineCountAppend | src/lexer/lexical_analyzer.rs:347-349 | One more character adds a row exactly when it is a newline. |
| LexingProperties.LocateCounts | src/lexer/lexical_analyzer.rs:345-355 | The row is one more than the newlines read, and before the first newline the column is one more than the characters read. |
| LexingProperties.SkipLineSpec | src/lexer/lexical_analyzer.rs:116-119 | A `//` comment reads through the first newline, or to the end when there is none. |
| LexingProperties.DocLineReadsLikeComment | src/lexer/lexical_analyzer.rs:104-111 | A `///` comment reads exactly what a plain comment reads, and its text gains no line break or carriage return. |
| LexingProperties.FirstCloseSpec | src/lexer/lexical_analyzer.rs:126-135 | `FirstClose` is the position of the first `*/`. |
| LexingProperties.BlockCommentReads | src/lexer/lexical_analyzer.rs:124-137 | A block comment succeeds exactly when a `*/` follows, and reading resumes right after the first one. |
| LexingProperties.BlockCommentSpec | src/lexer/lexical_analyzer.rs:124-137 | A block comment succeeds exactly when some `*/` follows and then reads through the first one; otherwise it is Lex004. |
| LexingProperties.CommentsEmitNothing | src/lexer/lexical_analyzer.rs:86-153 | Blanks, `//` and `///` comments and block comments push no token. |
| LexingProperties.WordKindSpec | src/lexer/lexical_analyzer.rs:250-294 | Exactly the reserved spellings become keyword, boolean or logical tokens, and every word token prints back as its word. |
| LexingProperties.WordLengthSpec | src/lexer/lexical_analyzer.rs:246 | `WordLength` is the longest run of letters, digits and `_`. |
| LexingProperties.WordRunSpec | src/lexer/lexical_analyzer.rs:243-249 | The word loop takes the longest run, and fails exactly when that run reaches the end of input. |
| LexingProperties.IdentifierSpec | src/lexer/lexical_analyzer.rs:240-297 | A word token is the longest run of word characters, classified by `WordKind`, at the row where it ends and the column where it began; a word reaching the end of input is Lex004. |
| LexingProperties.NumeralLengthSpec | src/lexer/lexical_analyzer.rs:305 | `NumeralLength` is the longest run of numeric characters. |
| LexingProperties.DigitRunSpec | src/lexer/lexical_analyzer.rs:304-311 | The digit loop takes exactly the longest numeric run. |
| LexingProperties.NumberSpec | src/lexer/lexical_analyzer.rs:300-315 | A number token is the longest numeric run, kept as text, at its starting column. |
| LexingProperties.DotIsSeparate | src/lexer/lexical_analyzer.rs:300-315 | A `.` is always a token of its own, so `1.5` is three tokens. |
| LexingProperties.EqualSpec | src/lexer/lexical_analyzer.rs:156-175 | `==` reads both characters and is the equality comparison. A lone `=` reads itself only and is assignment, and `=` at the end of input is Lex004. |
| LexingProperties.ExclamationSpec | src/lexer/lexical_analyzer.rs:178-202 | `!=` is the inequality comparison, and a `!` followed by anything else is Lex005 naming `!`. |
| LexingProperties.EqualsLengthSpec | src/lexer/lexical_analyzer.rs:213 | `EqualsLength` counts the leading `=`. |
| LexingProperties.AngleEqualsSpec | src/lexer/lexical_analyzer.rs:210-221 | The `=` loop of `lex_angle` takes every following `=`, and fails exactly when they reach the end of input. |
| LexingProperties.AngleEqualsStep | src/lexer/lexical_analyzer.rs:213-216 | One round of that loop adds one `=` and reads one character. |
| LexingProperties.AngleAlone | src/lexer/lexical_analyzer.rs:205-237 | `<` or `>` not followed by `=` is the strict comparison, and only it is read. |
| LexingProperties.AngleWithEqual | src/lexer/lexical_analyzer.rs:205-237 | `<=` or `>=` not followed by another `=` is the non-strict comparison, and both characters are read. |
| LexingProperties.AngleRejects | src/lexer/lexical_analyzer.rs:223-234 | Two or more `=` make the whole run Lex005 naming it, at the column where it began; a run reaching the end of input is Lex004. |
| LexingProperties.BodyLengthSpec | src/lexer/lexical_analyzer.rs:72 | `BodyLength` counts the characters before the first quote, newline or carriage return. |
| LexingProperties.StringBodySpec | src/lexer/lexical_analyzer.rs:71-75 | The string loop takes exactly those characters. |
| LexingProperties.StringSpec | src/lexer/lexical_analyzer.rs:68-83 | A string succeeds exactly when the first quote or line break after the opening quote is a quote, and holds the characters in between. A line break first is Lex003, and no end at all is Lex004. |
| LexingProperties.StringLiteralPlain | src/lexer/lexical_analyzer.rs:72 | The characters of a literal contain no quote, newline or carriage return. |
| LexingProperties.UnknownCharacter | src/lexer/lexical_analyzer.rs:54 | A character outside every class stops the lexer with Lex002 naming it, at its location. |
| EarlyParsing.SumForm | src/parser.rs:190-202 | A tree of sum shape is an addition, a product or a unary node. |
| EarlyParsing.ProductForm | src/parser.rs:205-217 | A tree of product shape is a multiplication or a unary node. |
| EarlyParsing.StringLit | src/parser.rs:271-281 | `parse_string` succeeds exactly on a string token, giving its leaf and consuming only that token. |
| EarlyParsing.NumberLit | src/parser.rs:284-294 | `parse_number` succeeds exactly on a number token, giving its leaf and consuming only that token. |
| EarlyParsing.BoolLit | src/parser.rs:297-307 | `parse_bool` succeeds exactly on a bool token, giving its leaf and consuming only that token. |
| EarlyParsing.AddSub | src/parser.rs:190-202 | `parse_add_and_sub` leaves a suffix of its input and builds a left-leaning sum. |
| EarlyParsing.AddSubLoop | src/parser.rs:192-200 | Each `+`/`-` round takes the tree so far as its left operand, so the result keeps the sum shape. |
| EarlyParsing.MulDiv | src/parser.rs:205-217 | `parse_mul_and_div` leaves a suffix of its input and builds a left-leaning product. |
| EarlyParsing.MulDivLoop | src/parser.rs:207-215 | Each `*`/`/` round takes the tree so far as its left operand, so the result keeps the product shape. |
| EarlyParsing.UnaryExpr | src/parser.rs:220-240 | `parse_unary` builds a unary node over a primary. |
| EarlyParsing.PrimaryExpr | src/parser.rs:243-268 | `parse_primary` builds a number or a parenthesised sum. |
| EarlyParsing.Value | src/parser.rs:174-187 | `parse_value` builds a sum or a string, never a bool. |
| EarlyParsing.CompareExpr | src/parser.rs:153-171 | `parse_compare` builds a comparison node with one value, or two values around one operator. |
| EarlyParsing.ExpressionNode | src/parser.rs:144-150 | `parse_expression` wraps one comparison. |
| EarlyParsing.ArgumentNode | src/parser.rs:122-141 | `parse_argument` wraps an expression or a lone bool. |
| EarlyParsing.Call | src/parser.rs:90-119 | `parse_function_call` builds a call node with a name and exactly one argument. |
| EarlyParsing.ProgramLoop | src/parser.rs:66-77 | The program loop keeps the calls read so far in order, adding only well-formed calls. |
| EarlyParsing.ProgramNode | src/parser.rs:63-83 | `parse_program` builds a program of well-formed calls. |
| EarlyParsing.Parse | src/parser.rs:331-335 | Every successful parse has the shape of the grammar. |
| EarlyParsers.Parser.constructor | src/parser.rs:56-60 | `Parser::new` holds the whole token list. |
| EarlyParsers.Parser.Peek | src/parser.rs:66 | `peek` sees the first remaining token, or nothing at the end. |
| EarlyParsers.Parser.Next | src/parser.rs:72 | `next` returns what `peek` saw and drops it from the iterator. |
| EarlyParsers.Parser.ParseProgram | src/parser.rs:63-83 | The `while let` loop leaves the result and the tokens `EarlyParsing.ProgramNode` gives. |
| EarlyParsers.Parser.ParseFunctionCall | src/parser.rs:90-119 | The method leaves the result and tokens `EarlyParsing.Call` gives. |
| EarlyParsers.Parser.ParseArgument | src/parser.rs:122-141 | The method leaves the result and tokens `EarlyParsing.ArgumentNode` gives. |
| EarlyParsers.Parser.ParseExpression | src/parser.rs:144-150 | The method leaves the result and tokens `EarlyParsing.ExpressionNode` gives. |
| EarlyParsers.Parser.ParseCompare | src/parser.rs:153-171 | The method leaves the result and tokens `EarlyParsing.CompareExpr` gives. |
| EarlyParsers.Parser.ParseValue | src/parser.rs:174-187 | The method leaves the result and tokens `EarlyParsing.Value` gives. |
| EarlyParsers.Parser.ParseAddAndSub | src/parser.rs:190-202 | The loop that rebinds `left` leaves the result and tokens `EarlyParsing.AddSub` gives. |
| EarlyParsers.Parser.ParseMulAndDiv | src/parser.rs:205-217 | The loop leaves the result and tokens `EarlyParsing.MulDiv` gives. |
| EarlyParsers.Parser.ParseUnary | src/parser.rs:220-240 | The method leaves the result and tokens `EarlyParsing.UnaryExpr` gives. |
| EarlyParsers.Parser.ParsePrimary | src/parser.rs:243-268 | The method leaves the result and tokens `EarlyParsing.PrimaryExpr` gives. |
| EarlyParsers.Parser.ParseString | src/parser.rs:271-281 | The method leaves the result and tokens `EarlyParsing.StringLit` gives. |
| EarlyParsers.Parser.ParseNumber | src/parser.rs:284-294 | The method leaves the result and tokens `EarlyParsing.NumberLit` gives. |
| EarlyParsers.Parser.ParseBool | src/parser.rs:297-307 | The method leaves the result and tokens `EarlyParsing.BoolLit` gives. |
| EarlyParsers.Parse | src/parser.rs:331-335 | `parse` on a fresh parser returns what `EarlyParsing.Parse` gives. |
| EarlyParsingProperties.PrimaryRoundTrip | src/parser.rs:243-268 | Every primary is read back from its spelling, whatever follows. |
| EarlyParsingProperties.UnaryRoundTrip | src/parser.rs:220-240 | Every unary node is read back from its spelling. |
| EarlyParsingProperties.MulChain | src/parser.rs:205-217 | Reading a product's spelling continues the `*`/`/` loop from the whole product. |
| EarlyParsingProperties.MulLink | src/parser.rs:207-215 | One round of the `*`/`/` loop reads an operator and the factor spelled after it. |
| EarlyParsingProperties.MulRoundTrip | src/parser.rs:205-217 | Every product is read back from its spelling when no `*` or `/` follows. |
| EarlyParsingProperties.AddChain | src/parser.rs:190-202 | Reading a sum's spelling continues the `+`/`-` loop from the whole sum. |
| EarlyParsingProperties.SumRoundTrip | src/parser.rs:190-202 | Every sum is read back from its spelling when no operator follows. |
| EarlyParsingProperties.PrimaryStart | src/parser.rs:245-253 | A primary is spelled from a number or an opening parenthesis. |
| EarlyParsingProperties.SumStart | src/parser.rs:177 | A sum is spelled from a sign, a number or an opening parenthesis. |
| EarlyParsingProperties.ValueRoundTrip | src/parser.rs:174-187 | Every value is read back from its spelling, and that spelling never starts with a bool or a function name. |
| EarlyParsingProperties.CompareRoundTrip | src/parser.rs:153-171 | Every comparison is read back from its spelling. |
| EarlyParsingProperties.SingleRoundTrip | src/parser.rs:155-164 | Without a comparison operator the node holds the one value and the empty operator. |
| EarlyParsingProperties.PairRoundTrip | src/parser.rs:156-170 | With an operator the node holds both values and that operator. |
| EarlyParsingProperties.PairSpelling | src/parser.rs:166-170 | A comparison with an operator is spelled left value, operator, right value. |
| EarlyParsingProperties.ArgumentRoundTrip | src/parser.rs:122-141 | Every argument is read back from its spelling. |
| EarlyParsingProperties.CallRoundTrip | src/parser.rs:90-119 | Every call is read back from its spelling. |
| EarlyParsingProperties.ProgramStep | src/parser.rs:66-70 | One round of the program loop reads one call and keeps it. |
| EarlyParsingProperties.ProgramPrefix | src/parser.rs:66-77 | A run of calls in front of any tokens is read as those calls, and the parse then goes on as it would have without them. |
| EarlyParsingProperties.CallsSplit | src/parser.rs:66-70 | A run of calls is spelled as its first call followed by the others. |
| EarlyParsingProperties.ParsePrinted | src/parser.rs:63-83 | Every well-formed program is read back from its spelling, with or without the final EOF, and whatever follows the EOF is left unread. |
| EarlyParsingProperties.Reparse | src/parser.rs:331-335 | Parsing, printing and parsing again gives the same tree. |
| EarlyParsingProperties.StrayToken | src/parser.rs:75 | After any run of calls, a token that is neither a function name nor EOF ends the parse with the program error naming it. |
| EarlyParsingProperties.SemicolonRequired | src/parser.rs:110-113 | A call without its `;` fails with "';' missing" at the end of the tokens, or with "';' required" before another token. |
| EarlyParsingProperties.CloseRequired | src/parser.rs:105-108 | An argument followed by anything but `)` fails with "')' required". |
| EarlyParsingProperties.RParenRequired | src/parser.rs:105-108 | A call whose argument is followed by `;` instead of `)` fails with "')' required". |
| EarlyParsingProperties.LParenRequired | src/parser.rs:98-101 | A function name followed by nothing, or by anything but `(`, fails with the matching message. |
| EarlyParsingProperties.ChainedArgument | src/parser.rs:153-171 | A second comparison operator ends the argument in front of it. |
| EarlyParsingProperties.ChainedComparisonRejected | src/parser.rs:153-171 | `a < b < c` as an argument fails with "')' required". |
| EarlyParsingProperties.SumSpelling | src/parser.rs:192-200 | `a op1 b op2 c` grouped to the left is a sum, spelled left to right. |
| EarlyParsingProperties.SumLeftAssociative | src/parser.rs:192-200 | `+` and `-` group to the left. |
| EarlyParsingProperties.ProductSpelling | src/parser.rs:207-215 | `a op1 b op2 c` grouped to the left is a product, spelled left to right. |
| EarlyParsingProperties.ProductLeftAssociative | src/parser.rs:207-215 | `*` and `/` group to the left. |
| EarlyParsingProperties.TighterSpelling | src/parser.rs:190-217 | A sum whose right operand is a product is spelled left to right. |
| EarlyParsingProperties.ProductBindsTighter | src/parser.rs:190-217 | `*` and `/` bind tighter than a `+` or `-` on their left. |
| EarlyParsingProperties.ProductBindsTighterLeft | src/parser.rs:190-217 | `*` and `/` bind tighter than a `+` or `-` on their right. |
| EarlyParsingProperties.UnarySigns | src/parser.rs:220-240 | A bare primary becomes unary `+`, and a sign in front becomes the operator, so an explicit `+` and none give the same tree. |
| EarlyParsingProperties.ParenthesisMustClose | src/parser.rs:253-264 | An unclosed parenthesis fails with "empty tokens" at the end, or with "')' required" before another token. |
| EarlyParsingProperties.BoolNotOperand | src/parser.rs:238 | A bool is never an operand: `+ true` fails in the unary rule, naming the token. |
| EarlyParsingProperties.BoolOnlyWhole | src/parser.rs:132-138 | A bool is only a whole argument: one followed by an operator leaves the call without its `)`. |
| FailFastParsing.PeekToken | src/parser/ast.rs:666-671 | `peek_token` succeeds exactly when a token remains, gives the first one, and otherwise fails with Parse003. |
| FailFastParsing.NextToken | src/parser/ast.rs:673-678 | `next_token` consumes one token when there is one and gives it; with no token left it fails with Parse003. |
| FailFastParsing.CheckNextToken | src/parser/ast.rs:680-694 | `check_next_token` always consumes the next token. It succeeds exactly when that token has the expected kind. A mismatch is Parse005 at that token, naming its text. No token at all is Parse003. |
| FailFastParsing.PeekN | src/parser/ast.rs:699-704 | `peek_n(n)` succeeds exactly when at least n+1 tokens remain and gives the token at offset n, consuming nothing. |
| FailFastParsing.LiteralExpr | src/parser/ast.rs:611-664 | A bool token gives its bool and a string token its text, each consuming one token. A numeral outside i32 is Parse004 naming the digits. An integer result is exactly the i32 value of the digits. Every other outcome is an expression error code. |
| FailFastParsing.FloatTail | src/parser/ast.rs:621-636 | After `integer.` exactly one token is consumed. The result is a float literal or an expression error. |
| FailFastParsing.VariableExpr | src/parser/ast.rs:597-608 | `parse_variable` consumes one token and succeeds exactly on an identifier, giving a Variable node of that name. |
| FailFastParsing.AddSub | src/parser/ast.rs:512-527 | `parse_add_and_sub` never grows the input, and every failure carries an expression error code. |
| FailFastParsing.AddSubLoop | src/parser/ast.rs:514-525 | With no `+` or `-` next, the loop returns the left tree and consumes nothing; failures are expression errors. |
| FailFastParsing.MulDiv | src/parser/ast.rs:530-546 | `parse_mul_and_div` never grows the input, and every failure carries an expression error code. |
| FailFastParsing.MulDivLoop | src/parser/ast.rs:532-544 | With no `*` or `/` next, the loop returns the left tree and consumes nothing. As written, the loop skips one extra token after the operator. |
| FailFastParsing.UnaryExpr | src/parser/ast.rs:549-572 | `parse_unary` never grows the input, and its failures are expression errors. |
| FailFastParsing.PrimaryExpr | src/parser/ast.rs:575-594 | `parse_primary` never grows the input, and its failures are expression errors. A missing `)` is reported in preference to the inner error. |
| FailFastParsing.ValueExpr | src/parser/ast.rs:495-509 | `parse_value` never grows the input, and its failures are expression errors. |
| FailFastParsing.CompareExpr | src/parser/ast.rs:477-492 | `parse_compare` never grows the input, and its failures are expression errors. |
| FailFastParsing.NotExpr | src/parser/ast.rs:460-474 | `parse_not_expr` diverges exactly when the next token is `not`, because the source recurses without consuming. Every other failure is an expression error. |
| FailFastParsing.AndExpr | src/parser/ast.rs:439-457 | `parse_and_expr` never grows the input. Its failures are expression errors or the divergence of `not`. |
| FailFastParsing.AndLoop | src/parser/ast.rs:441-455 | With no `and`/`xor` next, the loop returns the left tree unchanged and consumes nothing. |
| FailFastParsing.OrExpr | src/parser/ast.rs:424-436 | `parse_or_expr` never grows the input. Its failures are expression errors or divergence. |
| FailFastParsing.OrLoop | src/parser/ast.rs:426-434 | With no `or` next, the loop returns the left tree unchanged and consumes nothing. |
| FailFastParsing.Expression | src/parser/ast.rs:414-421 | `parse_expression` never grows the input. Its failures are expression errors or divergence. |
| FailFastParsing.Assignable | src/parser/ast.rs:378-411 | `parse_assignable` never grows the input. Its failures are expression errors or divergence. |
| FailFastParsing.Arguments | src/parser/ast.rs:356-375 | On success the arguments read so far are a prefix of the result, and the next token is an unconsumed `)`. |
| FailFastParsing.Parameters | src/parser/ast.rs:293-336 | On success the parameters read so far are a prefix of the result, and the next token is an unconsumed `)`. Failures are expression errors. |
| FailFastParsing.Declaration | src/parser/ast.rs:114-156 | The `let` arm consumes at least one token whenever any remain. Its failures are expression errors or divergence. |
| FailFastParsing.Statements | src/parser/ast.rs:35-60 | `parse_statements` gives a block of the requested kind, and every statement in it is legal for the block stack. |
| FailFastParsing.StatementsLoop | src/parser/ast.rs:41-54 | The children read so far are a prefix of the block. When they are legal, the whole block is legal for the stack. |
| FailFastParsing.CallOrAssignment | src/parser/ast.rs:64-98 | After a name, the result is a call statement or an assignment, and at least one token is consumed. |
| FailFastParsing.Statement | src/parser/ast.rs:62-207 | A successful statement consumes at least one token and is legal for the block stack: `return` only in a function, `break`/`continue` only in a loop, a definition only at global level. |
| FailFastParsing.Return | src/parser/ast.rs:160-181 | A successful `return` consumes tokens, only happens with a function on the stack, and gives a return node. |
| FailFastParsing.Jump | src/parser/ast.rs:182-200 | A successful `break`/`continue` consumes tokens, only happens with a loop on the stack, and gives a Break or Continue node. |
| FailFastParsing.Condition | src/parser/ast.rs:212-216 | The parenthesised condition consumes tokens on success. |
| FailFastParsing.Body | src/parser/ast.rs:217-223 | A braced body gives a block of the requested kind that is legal with that kind pushed on the stack. |
| FailFastParsing.IfElse | src/parser/ast.rs:209-246 | `parse_if_statement` always consumes the `if` token. On success it gives an if statement that is legal for the stack. |
| FailFastParsing.ElseBranch | src/parser/ast.rs:225-239 | An else block is read exactly when `else` follows. Otherwise nothing is consumed. An else block is legal inside a conditional. |
| FailFastParsing.While | src/parser/ast.rs:248-266 | `parse_loop_statement` always consumes the `while` token. On success its node is legal for the stack. |
| FailFastParsing.Definition | src/parser/ast.rs:268-353 | `parse_function_definition` always consumes a token. On success the definition is legal: at global level, with a legal function block. |
| FailFastParsing.DefinitionBlock | src/parser/ast.rs:338-352 | After the parameters, the result is a function definition of the given name whose block is legal inside a function. |
| FailFastParsing.Program | src/parser/ast.rs:28-33 | `parse_program` gives a global block whose statements are all legal at global level. |
| FailFastParsing.Parse | src/parser/ast.rs:708-712 | `parse` gives a global block whose statements are all legal at global level, or the first error. |
| FailFastParsers.FailFastParser.constructor | src/parser/ast.rs:20-25 | A new parser holds all the tokens and an empty block stack. |
| FailFastParsers.FailFastParser.Peek | src/parser/ast.rs:667 | Peeking at the iterator gives the first token exactly when one remains. |
| FailFastParsers.FailFastParser.Next | src/parser/ast.rs:674 | Advancing the iterator gives what a peek would have given and drops that token. |
| FailFastParsers.FailFastParser.ParseProgram | src/parser/ast.rs:28-33 | The result and the tokens left over are those of `Statements` on the global block. On success the block stack is restored. |
| FailFastParsers.FailFastParser.ParseStatements | src/parser/ast.rs:35-60 | The loop over statements computes exactly `Statements`. On success the block stack is back to its old value. |
| FailFastParsers.FailFastParser.ParseStatement | src/parser/ast.rs:62-207 | The dispatch on the peeked token computes exactly `Statement`, restoring the block stack on success. |
| FailFastParsers.FailFastParser.ParseReturn | src/parser/ast.rs:160-181 | The `return` arm computes exactly `Return`. |
| FailFastParsers.FailFastParser.ParseJump | src/parser/ast.rs:182-200 | The `break`/`continue` arm computes exactly `Jump`. |
| FailFastParsers.FailFastParser.ParseCallOrAssignment | src/parser/ast.rs:64-98 | The identifier arm computes exactly `CallOrAssignment`. |
| FailFastParsers.FailFastParser.ParseDeclaration | src/parser/ast.rs:114-156 | The `let` arm computes exactly `Declaration`. |
| FailFastParsers.FailFastParser.ParseCondition | src/parser/ast.rs:212-216 | Reading `(condition)` computes exactly `Condition`. |
| FailFastParsers.FailFastParser.ParseBody | src/parser/ast.rs:217-223 | Reading a braced body computes exactly `Body`. It pushes and pops the block kind, so the stack is restored on success. |
| FailFastParsers.FailFastParser.ParseIfStatement | src/parser/ast.rs:209-246 | The method computes exactly `IfElse`, restoring the block stack on success. |
| FailFastParsers.FailFastParser.ParseElseBranch | src/parser/ast.rs:225-239 | The method computes exactly `ElseBranch`. |
| FailFastParsers.FailFastParser.ParseLoopStatement | src/parser/ast.rs:248-266 | The method computes exactly `While`, restoring the block stack on success. |
| FailFastParsers.FailFastParser.ParseFunctionDefinition | src/parser/ast.rs:268-353 | The method computes exactly `Definition`, restoring the block stack on success. |
| FailFastParsers.FailFastParser.ParseParameters | src/parser/ast.rs:293-336 | The parameter loop computes exactly `Parameters`, starting from no parameters. |
| FailFastParsers.FailFastParser.ParseArgument | src/parser/ast.rs:356-375 | The argument loop computes exactly `Arguments`, starting from no arguments. |
| FailFastParsers.FailFastParser.ParseAssignable | src/parser/ast.rs:378-411 | The method computes exactly `Assignable`. |
| FailFastParsers.FailFastParser.ParseExpression | src/parser/ast.rs:414-421 | The method computes exactly `Expression`. |
| FailFastParsers.FailFastParser.ParseOrExpr | src/parser/ast.rs:424-436 | The `or` loop computes exactly `OrExpr`. |
| FailFastParsers.FailFastParser.ParseAndExpr | src/parser/ast.rs:439-457 | The `and`/`xor` loop computes exactly `AndExpr`. |
| FailFastParsers.FailFastParser.ParseNotExpr | src/parser/ast.rs:460-474 | The method computes exactly `NotExpr`. The endless recursion on `not` appears as `Diverges`. |
| FailFastParsers.FailFastParser.ParseCompare | src/parser/ast.rs:477-492 | The method computes exactly `CompareExpr`. |
| FailFastParsers.FailFastParser.ParseValue | src/parser/ast.rs:495-509 | The method computes exactly `ValueExpr`. |
| FailFastParsers.FailFastParser.ParseAddAndSub | src/parser/ast.rs:512-527 | The `+`/`-` loop computes exactly `AddSub` of the as-written reading. |
| FailFastParsers.FailFastParser.ParseMulAndDiv | src/parser/ast.rs:530-546 | The `*`/`/` loop computes exactly `MulDiv` of the as-written reading, which drops the token after each operator. |
| FailFastParsers.FailFastParser.ParseUnary | src/parser/ast.rs:549-572 | The method computes exactly `UnaryExpr`. |
| FailFastParsers.FailFastParser.ParsePrimary | src/parser/ast.rs:575-594 | The method computes exactly `PrimaryExpr`. |
| FailFastParsers.FailFastParser.ParseVariable | src/parser/ast.rs:597-608 | The method computes exactly `VariableExpr`. |
| FailFastParsers.FailFastParser.ParseLiteral | src/parser/ast.rs:611-664 | The method computes exactly `LiteralExpr`. |
| FailFastParsers.FailFastParser.PeekToken | src/parser/ast.rs:666-671 | The method computes `PeekToken` and leaves the tokens as they were. |
| FailFastParsers.FailFastParser.NextToken | src/parser/ast.rs:673-678 | The method computes `NextToken`. |
| FailFastParsers.FailFastParser.CheckNextToken | src/parser/ast.rs:680-694 | The method computes `CheckNextToken`. |
| FailFastParsers.FailFastParser.PeekN | src/parser/ast.rs:699-704 | The method computes `PeekN` and consumes nothing. |
| FailFastParsers.Parse | src/parser/ast.rs:708-712 | `parse` on a fresh parser returns exactly `FailFastParsing.Parse` of the tokens. |
| FailFastParsingProperties.BlockEnds | src/parser/ast.rs:36-50 | A block ends with the children read so far when the tokens run out. A non-global block ends before `}`, which it leaves. Any block ends at EOF, which it consumes. In the global block, `}` is an unexpected token. |
| FailFastParsingProperties.FirstFailureAborts | src/parser/ast.rs:52 | The first statement that fails ends the block with its error and remaining tokens, because of the `?`. |
| FailFastParsingProperties.StatementAppended | src/parser/ast.rs:51-53 | A statement that succeeds is appended, and the loop goes on from the tokens after it. |
| FailFastParsingProperties.ParseFailsFast | src/parser/ast.rs:708-712 | `parse` fails exactly when the global block fails, and with that block's error. |
| FailFastParsingProperties.ReturnNeedsFunction | src/parser/ast.rs:160-170 | `return` is rejected exactly when no enclosing block is a function. The rejection is Parse006 at the keyword, which stays unconsumed. |
| FailFastParsingProperties.LoopControlNeedsLoop | src/parser/ast.rs:182-192 | `break`/`continue` are rejected exactly when no enclosing block is a loop. The rejection is Parse006 at the keyword. |
| FailFastParsingProperties.NestedDefinitionRejected | src/parser/ast.rs:268-279 | A `function` definition directly inside any non-global block is Parse006 at its keyword, which is consumed. |
| FailFastParsingProperties.ReturnInNestedBlock | src/parser/ast.rs:161 | `return` is accepted at any depth below a function body. |
| FailFastParsingProperties.DeclarationsStep | src/parser/ast.rs:319-324 | Each round of the parameter loop appends exactly one declaration without initializer. |
| FailFastParsingProperties.SpelledHead | src/parser/ast.rs:295-335 | A spelled parameter list starts with `name : type`, followed by `)` for the last parameter or `,` before the rest. |
| FailFastParsingProperties.ParameterRound | src/parser/ast.rs:298-335 | One round reads `name : type`, appends its declaration, and either goes on after `,` or stops at `)`, which it leaves. |
| FailFastParsingProperties.ParametersInOrder | src/parser/ast.rs:293-336 | A parameter list, with or without a trailing comma, becomes one declaration per parameter, in order. Exactly its tokens are read, and the `)` is left. |
| FailFastParsingProperties.NameOperand | src/parser/ast.rs:549-555 | A name is read by `parse_unary` as a Variable, leaving the tokens after it. |
| FailFastParsingProperties.MulDivRound | src/parser/ast.rs:532-544 | One round of the `*`/`/` loop makes the tree so far the left operand and the next unary the right operand. |
| FailFastParsingProperties.AddSubRound | src/parser/ast.rs:514-525 | One round of the `+`/`-` loop makes the tree so far the left operand and the next product the right operand. |
| FailFastParsingProperties.ProductLink | src/parser/ast.rs:532-544 | With the operand kept, one `op name` link extends the tree by one left-nested node. |
| FailFastParsingProperties.ProductLeftAssociative | src/parser/ast.rs:530-546 | With the token after the operator kept, `*` and `/` chains fold to the left. |
| FailFastParsingProperties.ProductDropsToken | src/parser/ast.rs:537 | As written, any token after each `*` or `/` is dropped. A chain padded that way gives the tree of the unpadded chain. |
| FailFastParsingProperties.SumLeftAssociative | src/parser/ast.rs:512-527 | `+` and `-` chains fold to the left, whichever way `*` and `/` are read. |
| FailFastParsingProperties.ProductOfTwoNames | src/parser/ast.rs:530-546 | As written, `a * b;` fails at the `;`. With the operand kept it is the product of `a` and `b`. |
| FailFastParsingProperties.UnaryPlusRejected | src/parser/ast.rs:552-554 | A unary `+` is passed unconsumed to `parse_primary`, which rejects it as an unexpected token. |
| FailFastParsingProperties.UnaryMinus | src/parser/ast.rs:556-564 | A unary `-` gives a Minus node with the primary as left operand and no right operand. |
| FailFastParsingProperties.NotDiverges | src/parser/ast.rs:463-464 | An expression that starts with `not` never returns. |
| FailFastParsingProperties.ComparisonRightErrorWins | src/parser/ast.rs:478-489 | When both values of a comparison fail, the right value's error is the one reported. |
| FailFastParsingProperties.ComparisonOfOneValue | src/parser/ast.rs:478-483 | Without a comparison operator after it, a value's own result is the comparison's, errors included. |
| FailFastParsingProperties.MissingParenthesisWins | src/parser/ast.rs:579-584 | A missing `)` is reported as Parse005 at the token found, even over an error inside the parentheses. |
| FailFastParsingProperties.IntegerLiteral | src/parser/ast.rs:617-637 | An i32 numeral followed by anything but `.` is an Int literal of its value. |
| FailFastParsingProperties.IntegerAtEnd | src/parser/ast.rs:618-619 | An i32 numeral that is the very last token is Parse003, because of the peek for `.`. |
| FailFastParsingProperties.FloatNumeral | src/parser/ast.rs:621-629 | A numeral, `.`, and a numeral of digits form a float literal of the joined text. |
| FailFastParsingProperties.ConditionRead | src/parser/ast.rs:212-216 | `(`, an expression, and `)` are read as that condition. |
| FailFastParsingProperties.BodyRead | src/parser/ast.rs:217-223 | `{`, statements, and `}` are read as that block. |
| FailFastParsingProperties.IfThenRead | src/parser/ast.rs:209-246 | An `if` whose condition and then-block are read gives its node with whatever else branch follows the `}`. |
| FailFastParsingProperties.ElseOptional | src/parser/ast.rs:225-245 | The else block is present exactly when `else` follows. Without it, nothing after the `}` is read. |
| FailFastParsingProperties.ElseRead | src/parser/ast.rs:226-236 | With `else {`, a block, and `}`, the else branch is that block. |
| LateParsing.Record | src/parser/parser.rs:48 | Recording an error appends it to the error list and changes nothing else. |
| LateParsing.PeekToken | src/parser/parser.rs:1072-1084 | `peek_token` leaves the state unchanged. It succeeds exactly when a token remains and gives that token. Otherwise it fails with Parse003 without a location. |
| LateParsing.NextToken | src/parser/parser.rs:1086-1106 | `next_token` consumes one token. It succeeds exactly when that token exists and is not EOF. An EOF is consumed and reported as Parse003 at its location. An empty iterator gives Parse003 without one. |
| LateParsing.CheckNextToken | src/parser/parser.rs:1108-1124 | `check_next_token` consumes a matching token. Any other token stays unread and Parse005 is recorded at it. With no token left, nothing happens. |
| LateParsing.PeekN | src/parser/parser.rs:1129-1139 | `peek_n(n)` leaves the state unchanged. It succeeds exactly when at least n+1 tokens remain, giving the token at offset n. Otherwise it fails with Parse003: at the next token if there is one, else without a location. |
| LateParsing.PushBlock | src/parser/parser.rs:1141-1144 | `push_block` appends the kind to the stack, clears the doc comment, and leaves tokens and errors alone. |
| LateParsing.PopBlock | src/parser/parser.rs:1146-1149 | `pop_block` removes the innermost kind, if any, and clears the doc comment. |
| LateParsing.GetDocComment | src/parser/parser.rs:1064-1070 | `get_doc_comment` gives none exactly when the pending comment is empty, and otherwise that comment. |
| LateParsing.Recovered | src/parser/parser.rs:399-405 | A sub-rule that succeeds is passed through. A reported failure is recorded and replaced by an `Error` node. Only divergence stays a failure. |
| LateParsing.Named | src/parser/parser.rs:149-159 | A name token gives its identifier. Any other token gives `"None"` and records the given code at it. |
| LateParsing.LiteralExpr | src/parser/parser.rs:987-1039 | `parse_literal` never diverges and leaves errors, stack and doc comment alone. Success consumes a token and gives a Literal. Failure is a reported expression error. |
| LateParsing.FloatTail | src/parser/parser.rs:987-1039 | At `.`, the float branch consumes tokens and gives a Float literal or a reported expression error. |
| LateParsing.VariableExpr | src/parser/parser.rs:974-984 | `parse_variable` succeeds exactly on an identifier, consuming only that token and giving its Variable node. Failure is a reported expression error. |
| LateParsing.AddSub | src/parser/parser.rs:891-906 | `parse_add_and_sub` yields only arithmetic trees of literals and variables. It keeps errors, stack and doc. Its failures are reported expression errors. |
| LateParsing.AddSubLoop | src/parser/parser.rs:893-904 | The `+`/`-` loop keeps an arithmetic tree arithmetic. With no `+`/`-` next, it returns the left tree and consumes nothing. |
| LateParsing.MulDiv | src/parser/parser.rs:909-925 | `parse_mul_and_div` yields only arithmetic trees. It keeps errors, stack and doc. Its failures are reported expression errors. |
| LateParsing.MulDivLoop | src/parser/parser.rs:911-923 | The `*`/`/` loop keeps an arithmetic tree arithmetic. With no `*`/`/` next, it returns the left tree and consumes nothing. |
| LateParsing.UnaryExpr | src/parser/parser.rs:928-950 | `parse_unary` yields only arithmetic trees, and its failures are reported expression errors. |
| LateParsing.PrimaryExpr | src/parser/parser.rs:953-971 | `parse_primary` yields only arithmetic trees, and its failures are reported expression errors. |
| LateParsing.ValueExpr | src/parser/parser.rs:874-888 | `parse_value` yields only arithmetic trees, and its failures are reported expression errors. |
| LateParsing.CompareExpr | src/parser/parser.rs:856-871 | `parse_compare` yields an arithmetic tree or a single comparison of two arithmetic trees. Its failures are reported expression errors. |
| LateParsing.NotExpr | src/parser/parser.rs:839-853 | `parse_not_expr` diverges exactly when the next token is `not`. Other failures are expression errors. |
| LateParsing.AndExpr | src/parser/parser.rs:813-836 | `parse_and_expr` keeps errors, stack and doc, and fails only with expression errors. Without `not` it never diverges. |
| LateParsing.AndLoop | src/parser/parser.rs:815-834 | When a token other than `and`/`xor` is next, the loop returns the left tree and consumes nothing. |
| LateParsing.OrExpr | src/parser/parser.rs:793-810 | `parse_or_expr` keeps errors, stack and doc, and fails only with expression errors. |
| LateParsing.OrLoop | src/parser/parser.rs:795-808 | When a token other than `or` is next, the loop returns the left tree and consumes nothing. |
| LateParsing.Expression | src/parser/parser.rs:783-790 | `parse_expression` keeps errors, stack and doc, and fails only with expression errors. |
| LateParsing.Assignable | src/parser/parser.rs:745-780 | `parse_assignable` keeps errors, stack and doc, and fails only with expression errors. |
| LateParsing.Arguments | src/parser/parser.rs:689-742 | `parse_argument` never fails. Only divergence escapes, and errors are only ever added. |
| LateParsing.ArgumentsLoop | src/parser/parser.rs:692-739 | The arguments read so far are a prefix of the result. Only divergence escapes. |
| LateParsing.ProcessCapture | src/parser/parser.rs:1044-1046 | The `@process(.*)` capture exists exactly when `@process` occurs in the comment. |
| LateParsing.DocLoop | src/parser/parser.rs:1047-1057 | The doc-comment loop only consumes tokens, and its result extends the first comment. It stops before a token that is not a doc comment. Running out of tokens is Parse003. |
| LateParsing.DocComment | src/parser/parser.rs:1041-1062 | A doc-comment run is consumed without recording errors. If the first comment holds `@process`, the run becomes a ProcessComment node. Otherwise it becomes the pending doc comment. |
| LateParsing.OutOfContext | src/parser/parser.rs:386-395 | Parse006 is recorded at the token exactly when no enclosing block has the required kind. |
| LateParsing.Block | src/parser/parser.rs:493-497 | A block gives a block of its kind, with the stack restored and the doc comment cleared. Only divergence escapes. |
| LateParsing.StatementsLoop | src/parser/parser.rs:312-367 | `parse_statements` never fails. Only divergence escapes. Its result has the requested kind, keeps the statements read so far as a prefix, and restores the stack. |
| LateParsing.Statement | src/parser/parser.rs:369-475 | A successful statement consumes a token. Unless it diverges, the block stack is unchanged. |
| LateParsing.CallOrAssignment | src/parser/parser.rs:550-585 | The identifier arm keeps errors, stack and doc, and on success consumes a token. |
| LateParsing.Return | src/parser/parser.rs:385-412 | The `return` arm gives a return node and consumes a token. It fails only on a missing token (Parse003) or divergence. |
| LateParsing.Jump | src/parser/parser.rs:413-434 | The `break`/`continue` arm gives `Break` for break and `Continue` for continue. It fails only with Parse003. |
| LateParsing.CoroutineStatement | src/parser/parser.rs:435-467 | `yield` gives Yield. `resume` gives a resume node. Both consume tokens. |
| LateParsing.Condition | src/parser/parser.rs:478-491 | The keyword, `(`, condition, `)` and `{` are read. Failure is only Parse003 or divergence. |
| LateParsing.IfElse | src/parser/parser.rs:477-520 | `parse_if_statement` gives an if statement, consuming tokens and restoring the stack. |
| LateParsing.ElseBranch | src/parser/parser.rs:499-513 | With no `else` next, there is no else branch and nothing is read. |
| LateParsing.While | src/parser/parser.rs:522-548 | `parse_loop_statement` gives a loop statement, consuming tokens and restoring the stack. |
| LateParsing.Declaration | src/parser/parser.rs:587-686 | A `function` or `coroutine` keyword inside a block is Parse006 at the keyword, with nothing consumed. `let` and `coro` consume tokens on success. |
| LateParsing.LetDeclaration | src/parser/parser.rs:589-643 | The `let` arm gives a variable declaration carrying the pending doc comment. |
| LateParsing.LetHead | src/parser/parser.rs:590-617 | `let name: type` keeps errors, stack and doc, and consumes tokens on success. |
| LateParsing.Initializer | src/parser/parser.rs:619-635 | The end of a `let` keeps errors, stack and doc, and consumes tokens on success. |
| LateParsing.CoroDeclaration | src/parser/parser.rs:644-677 | The `coro` arm gives a coroutine instantiation and consumes tokens. |
| LateParsing.Instantiation | src/parser/parser.rs:660-676 | The right-hand side names a coroutine by identifier, giving `CoroutineInstantiation(task, name)`. |
| LateParsing.DefinitionHead | src/parser/parser.rs:134-159 | The head of a definition carries the pending doc comment. Outside the global block it records Parse006 at the keyword. |
| LateParsing.Parameter | src/parser/parser.rs:168-194 | One `name: type` parameter consumes tokens. It fails only with Parse003. |
| LateParsing.Parameters | src/parser/parser.rs:163-222 | The parameter loop keeps the parameters so far as a prefix and stops at an unread `)`. It fails only with Parse003. |
| LateParsing.Separator | src/parser/parser.rs:196-215 | After a parameter, `)` ends the list unread and with nothing changed. Anything else is consumed and the list goes on. |
| LateParsing.Signature | src/parser/parser.rs:160-224 | The parenthesised parameters consume tokens on success. They fail only with Parse002 or Parse003. |
| LateParsing.ReturnType | src/parser/parser.rs:226-254 | `{` gives no return type and consumes just that token. `-> type` gives that type and then checks for `{`. After `->`, a token that is not a type fails with Parse002 at that token, and so does any other token in place of `{` or `->`. Every failure is Parse002 or Parse003. |
| LateParsing.FunctionDefinition | src/parser/parser.rs:133-270 | A definition carries the pending doc comment and a Function block, and restores the stack. |
| LateParsing.CoroutineDefinition | src/parser/parser.rs:272-310 | A coroutine definition carries the pending doc comment and a Coroutine block, and restores the stack. |
| LateParsing.GlobalItem | src/parser/parser.rs:45-127 | One turn of `parse_global` either goes on, having consumed tokens and kept the definitions so far as prefixes, or ends with the root of the definitions so far. Without `not` it never diverges. |
| LateParsing.DefinitionTurn | src/parser/parser.rs:81-114 | A turn on `function` or `coroutine` goes on with definitions kept as prefixes, or ends with the root so far. |
| LateParsing.GlobalLoop | src/parser/parser.rs:40-131 | `parse_global` keeps the definitions read so far as prefixes of each list and restores the stack. |
| LateParsing.Program | src/parser/parser.rs:33-38 | `parse_program` restores the block stack and leaves the doc comment cleared. |
| LateParsing.Parse | src/parser/parser.rs:1153-1157 | Any token list without `not` parses to a tree and a list of errors. The errors are exactly those recorded on the way. |
| LateParsers.Parser.constructor | src/parser/parser.rs:23-30 | A new parser holds all the tokens, with no block open, no error and no doc comment. |
| LateParsers.Parser.PeekToken | src/parser/parser.rs:1072-1084 | The method computes `PeekToken` and leaves the state unchanged. |
| LateParsers.Parser.NextToken | src/parser/parser.rs:1086-1106 | The method computes `NextToken`. |
| LateParsers.Parser.CheckNextToken | src/parser/parser.rs:1108-1124 | The new parser state is `CheckNextToken` of the old one. |
| LateParsers.Parser.PeekN | src/parser/parser.rs:1129-1139 | The method computes `PeekN` and consumes nothing. |
| LateParsers.Parser.PushBlock | src/parser/parser.rs:1141-1144 | The new state is `PushBlock` of the old one. |
| LateParsers.Parser.PopBlock | src/parser/parser.rs:1146-1149 | The new state is `PopBlock` of the old one. |
| LateParsers.Parser.GetDocComment | src/parser/parser.rs:1064-1070 | The method returns `GetDocComment` of the state. |
| LateParsers.Parser.ParseDocComment | src/parser/parser.rs:1041-1062 | The method computes exactly `DocComment`. |
| LateParsers.Parser.ParseProgram | src/parser/parser.rs:33-38 | The method computes exactly `Program`. |
| LateParsers.Parser.ParseGlobal | src/parser/parser.rs:40-131 | The loop computes exactly `GlobalLoop`, starting with no definitions. |
| LateParsers.Parser.ParseGlobalItem | src/parser/parser.rs:45-127 | One turn computes exactly `GlobalItem`. |
| LateParsers.Parser.ParseDefinitionTurn | src/parser/parser.rs:81-114 | The turn on a definition keyword computes exactly `DefinitionTurn`. |
| LateParsers.Parser.ParseDefinitionHead | src/parser/parser.rs:134-159 | The method computes exactly `DefinitionHead`. |
| LateParsers.Parser.ParseFunctionDefinition | src/parser/parser.rs:133-270 | The method computes exactly `FunctionDefinition`. |
| LateParsers.Parser.ParseCoroutineDefinition | src/parser/parser.rs:272-310 | The method computes exactly `CoroutineDefinition`. |
| LateParsers.Parser.ParseSignature | src/parser/parser.rs:160-224 | The method computes exactly `Signature`. |
| LateParsers.Parser.ParseParameters | src/parser/parser.rs:163-222 | The loop computes exactly `Parameters`, starting from none. |
| LateParsers.Parser.ParseParameter | src/parser/parser.rs:168-194 | The method computes exactly `Parameter`. |
| LateParsers.Parser.ParseSeparator | src/parser/parser.rs:196-215 | The method computes exactly `Separator`. |
| LateParsers.Parser.ParseReturnType | src/parser/parser.rs:226-254 | The method computes exactly `ReturnType`. |
| LateParsers.Parser.ParseBlock | src/parser/parser.rs:256-260 | The method computes exactly `Block`. |
| LateParsers.Parser.ParseStatements | src/parser/parser.rs:312-367 | The loop computes exactly `StatementsLoop`, starting from no statements. |
| LateParsers.Parser.ParseStatement | src/parser/parser.rs:369-475 | The dispatch computes exactly `Statement`. |
| LateParsers.Parser.ParseIdentifier | src/parser/parser.rs:550-585 | The method computes exactly `CallOrAssignment`. |
| LateParsers.Parser.ParseReturn | src/parser/parser.rs:385-412 | The method computes exactly `Return`. |
| LateParsers.Parser.ParseJump | src/parser/parser.rs:413-434 | The method computes exactly `Jump`. |
| LateParsers.Parser.ParseCoroutineControl | src/parser/parser.rs:435-467 | The method computes exactly `CoroutineStatement`. |
| LateParsers.Parser.ParseCondition | src/parser/parser.rs:478-491 | The method computes exactly `Condition`. |
| LateParsers.Parser.ParseIfStatement | src/parser/parser.rs:477-520 | The method computes exactly `IfElse`. |
| LateParsers.Parser.ParseElseBranch | src/parser/parser.rs:499-513 | The method computes exactly `ElseBranch`. |
| LateParsers.Parser.ParseLoopStatement | src/parser/parser.rs:522-548 | The method computes exactly `While`. |
| LateParsers.Parser.ParseDeclarationKeyword | src/parser/parser.rs:587-686 | The method computes exactly `Declaration`. |
| LateParsers.Parser.ParseLet | src/parser/parser.rs:589-643 | The method computes exactly `LetDeclaration`. |
| LateParsers.Parser.ParseLetHead | src/parser/parser.rs:590-617 | The method computes exactly `LetHead`. |
| LateParsers.Parser.ParseInitializer | src/parser/parser.rs:619-635 | The method computes exactly `Initializer`. |
| LateParsers.Parser.ParseCoro | src/parser/parser.rs:644-677 | The method computes exactly `CoroDeclaration`. |
| LateParsers.Parser.ParseArgument | src/parser/parser.rs:689-742 | The loop computes exactly `Arguments`. |
| LateParsers.Parser.ParseAssignable | src/parser/parser.rs:745-780 | The method computes exactly `Assignable`. |
| LateParsers.Parser.ParseExpression | src/parser/parser.rs:783-790 | The method computes exactly `Expression`. |
| LateParsers.Parser.ParseOrExpr | src/parser/parser.rs:793-810 | The loop computes exactly `OrExpr`. |
| LateParsers.Parser.ParseAndExpr | src/parser/parser.rs:813-836 | The loop computes exactly `AndExpr`. |
| LateParsers.Parser.ParseNotExpr | src/parser/parser.rs:839-853 | The method computes exactly `NotExpr`. |
| LateParsers.Parser.ParseCompare | src/parser/parser.rs:856-871 | The method computes exactly `CompareExpr`. |
| LateParsers.Parser.ParseValue | src/parser/parser.rs:874-888 | The method computes exactly `ValueExpr`. |
| LateParsers.Parser.ParseAddAndSub | src/parser/parser.rs:891-906 | The loop computes exactly `AddSub`. |
| LateParsers.Parser.ParseMulAndDiv | src/parser/parser.rs:909-925 | The loop computes exactly `MulDiv`, including the extra `next_token` after the operator. |
| LateParsers.Parser.ParseUnary | src/parser/parser.rs:928-950 | The method computes exactly `UnaryExpr`. |
| LateParsers.Parser.ParsePrimary | src/parser/parser.rs:953-971 | The method computes exactly `PrimaryExpr`. |
| LateParsers.Parser.ParseVariable | src/parser/parser.rs:974-984 | The method computes exactly `VariableExpr`. |
| LateParsers.Parser.ParseLiteral | src/parser/parser.rs:987-1039 | The method computes exactly `LiteralExpr`. |
| LateParsers.Parse | src/parser/parser.rs:1153-1157 | `parse` on a fresh parser returns exactly `LateParsing.Parse` of the tokens. |
| LateParsingProperties.FailingStatementRecorded | src/parser/parser.rs:352-358 | A statement failing with a reported error has it recorded. The block then ends with the statements read before it. |
| LateParsingProperties.StatementAppended | src/parser/parser.rs:352-360 | A statement that is read is appended, and the doc comment is cleared before the next one. |
| LateParsingProperties.ParseReturnsTree | src/parser/parser.rs:1153-1157 | Without a `not` token, `parse` always returns a tree, and its errors are exactly those recorded. |
| LateParsingProperties.TopLevelRejects | src/parser/parser.rs:103-124 | At top level, any token other than a doc comment, a definition or EOF records an error at it and ends the program with the definitions so far. A declaration keyword records Parse006; anything else records Parse002. |
| LateParsingProperties.FunctionAppended | src/parser/parser.rs:83-92 | A read function definition goes to the end of the function list, and the loop continues with the doc comment cleared. |
| LateParsingProperties.CoroutineAppended | src/parser/parser.rs:93-102 | A read coroutine definition goes to the end of the coroutine list, and the loop continues. |
| LateParsingProperties.FailingDefinitionRecorded | src/parser/parser.rs:84-90 | A failing function definition has its error recorded and ends the program with the definitions read so far. |
| LateParsingProperties.ProcessCommentAtTopLevel | src/parser/parser.rs:56-72 | A `@process` comment at top level records Parse006 at it and is dropped, and the loop continues. |
| LateParsingProperties.DocCommentKinds | src/parser/parser.rs:1045-1059 | A doc-comment run becomes a node exactly when its first comment contains `@process`. |
| LateParsingProperties.ReturnArm | src/parser/parser.rs:385-412 | `parse_statement` hands `return` to its own arm. |
| LateParsingProperties.JumpArm | src/parser/parser.rs:413-434 | `parse_statement` hands `break` and `continue` to their own arm. |
| LateParsingProperties.CoroutineArm | src/parser/parser.rs:435-467 | `parse_statement` hands `resume` and `yield` to their own arm. |
| LateParsingProperties.ReturnOutsideFunction | src/parser/parser.rs:386-410 | `return` outside a function records Parse006 at the keyword and is still read as a return statement. |
| LateParsingProperties.JumpOutsideLoop | src/parser/parser.rs:414-433 | `break`/`continue` outside a loop record Parse006 at the keyword and still give that statement. |
| LateParsingProperties.YieldOutsideCoroutine | src/parser/parser.rs:452-465 | `yield` outside a coroutine records Parse006 at the keyword and still gives Yield. |
| LateParsingProperties.DefinitionInBlock | src/parser/parser.rs:678-684 | Inside a block, a `function` or `coroutine` keyword ends the statement with Parse006 at the keyword. |
| LateParsingProperties.NameOperand | src/parser/parser.rs:928-934 | A name is read by `parse_unary` as a Variable, leaving the tokens after it. |
| LateParsingProperties.PaddedLink | src/parser/parser.rs:911-922 | As written, one link of a `*`/`/` chain drops the token after the operator, and the name after that becomes the right operand. |
| LateParsingProperties.ProductDropsToken | src/parser/parser.rs:916 | As written, a chain padded with a non-EOF token after each `*` or `/` gives the left-folded tree of the unpadded chain. |
| LateParsingProperties.SumLink | src/parser/parser.rs:893-903 | One `+`/`-` link extends the tree by one left-nested node. |
| LateParsingProperties.SumLeftAssociative | src/parser/parser.rs:891-906 | `+` and `-` chains fold to the left. |
| LateParsingProperties.SemicolonOperand | src/parser/parser.rs:944-948 | `parse_unary` rejects `;` with Parse002 at it. |
| LateParsingProperties.ProductOfTwoNames | src/parser/parser.rs:909-925 | As written, `a * b;` drops `b` and fails with Parse002 at the `;`. |
| LateParsingProperties.AtMostOneComparison | src/parser/parser.rs:856-871 | A comparison is either a value or a single comparison of two values, neither of which contains a comparison. |
| LateParsingProperties.IntegerLiteral | src/parser/parser.rs:993-1030 | An i32 numeral followed by anything but `.` is an Int literal of its value. |
| LateParsingProperties.IntegerOutOfRange | src/parser/parser.rs:993-1035 | A numeral outside the i32 range is Parse004 at it. |
| LateParsingProperties.FloatNumeral | src/parser/parser.rs:997-1010 | A numeral, `.`, and a numeral of digits form a float literal of the joined text. |
| LateParsingProperties.DocRunJoined | src/parser/parser.rs:1054-1057 | The doc-comment loop consumes a whole run of doc comments and joins their texts with newlines. |
| LateParsingProperties.PendingDocComment | src/parser/parser.rs:1052-1059 | A run without `@process` in its first comment becomes the pending doc comment, joined. |
| LateParsingProperties.ProcessDocComment | src/parser/parser.rs:1045-1051 | A run with `@process` becomes a ProcessComment holding the trimmed text after `@process`, joined with the rest of the run. The pending doc comment is kept. |
| Semantics.ExtendsTransitive | src/analyzer/semantic.rs:58-355 | Reaching a state without losing recorded errors or names is transitive. |
| Semantics.RecordExtends | src/analyzer/semantic.rs:70-76 | Recording an error only appends to the error list. |
| Semantics.StatementExtends | src/analyzer/semantic.rs:58-355 | Analysing a statement that does not panic only appends errors and never removes a known function, coroutine or task. |
| Semantics.OperandExtends | src/analyzer/semantic.rs:66-80 | Analysing a unary operand only extends the state. |
| Semantics.BinaryExtends | src/analyzer/semantic.rs:357-402 | `semantic_binary` only extends the state. |
| Semantics.AgainstExtends | src/analyzer/semantic.rs:272-304 | Checking a value against a variable's type only extends the state. |
| Semantics.CallExtends | src/analyzer/semantic.rs:110-189 | The call arm only extends the state. |
| Semantics.ArgumentsExtends | src/analyzer/semantic.rs:128-160 | Checking the arguments only extends the state. |
| Semantics.StatementsExtends | src/analyzer/semantic.rs:52-56 | `semantic_block` only extends the state. |
| Semantics.LiteralStatement | src/analyzer/semantic.rs:196-204 | A literal changes nothing and has its own type. Null has no type. |
| Semantics.BinaryTyping | src/analyzer/semantic.rs:357-402 | A binary operation has a type exactly when both operands have one and the two types are equal. That type is then the left operand's, and the operation records nothing of its own. Otherwise the last recorded error is Semantic003 or Semantic002. |
| Semantics.AgainstTyping | src/analyzer/semantic.rs:272-304 | The value check has a type exactly when the value's type is the variable's. Otherwise it records Semantic006 naming the variable, its type, and the value's type, or "none". |
| Semantics.AssignmentRules | src/analyzer/semantic.rs:252-305 | Assigning to an undeclared variable records Semantic007 without looking at the value. Assigning to a declared one is the value check against its declared type. |
| Semantics.DeclarationBeforeInitialiser | src/analyzer/semantic.rs:306-350 | `let` declares the variable before checking its initialiser, so a fresh variable initialised from itself passes with no error. |
| Semantics.VariableOutsideFunction | src/analyzer/semantic.rs:232-236 | Reading a variable while the name under analysis is not a function panics. |
| Semantics.CallRules | src/analyzer/semantic.rs:110-189 | An unknown function records Semantic004 and its arguments are not analysed. An arity mismatch on a non-variadic function records Semantic008 before any argument is analysed. A variadic function's arguments are never analysed. |
| Semantics.CallValue | src/analyzer/semantic.rs:110-189 | A call has a value exactly when it is used as a value, is known, passes its argument checks and declares a return type. The value is that return type. |
| Semantics.ArgumentsFailure | src/analyzer/semantic.rs:128-160 | The argument check fails only by recording Semantic006 for one of the parameters. |
| Semantics.InstantiationRules | src/analyzer/semantic.rs:90-105 | Instantiating a known coroutine adds a fresh task over its body, replaces any task of that name, and records nothing. An unknown coroutine records Semantic004 and adds no task. |
| Semantics.RegisterFunctionsSpec | src/analyzer/semantic.rs:31-33 | Registration adds exactly the defined names and changes nothing else. An entry comes from the last definition of its name. Other entries are kept. |
| Semantics.RegisterCoroutinesSpec | src/analyzer/semantic.rs:35-37 | Coroutine registration adds exactly the defined names and changes nothing else. |
| Semantics.BodyExtends | src/analyzer/semantic.rs:39-49 | Analysing one body under its name only extends the state. |
| Semantics.FunctionsExtend | src/analyzer/semantic.rs:39-43 | Analysing every function body only extends the state. |
| Semantics.CoroutinesExtend | src/analyzer/semantic.rs:45-49 | Analysing every coroutine body only extends the state. |
| Semantics.ProgramNames | src/analyzer/semantic.rs:28-50 | Every definition is registered before any body is analysed. The known functions are `print` and those defined, and the known coroutines are those defined, with no error yet. Analysis only extends that state. |
| Semantics.PublicSemantic | src/analyzer/semantic.rs:405-415 | `semantic` returns the analyser exactly when nothing was recorded, and otherwise all recorded errors. A panic aborts. |
| SemanticAnalyzers.Semantic.constructor | src/analyzer/semantic.rs:15-25 | A new analyser has the initial state: the `print` function only, no coroutine or task, no error, and an empty analysis name. |
| SemanticAnalyzers.Semantic.SemanticStatement | src/analyzer/semantic.rs:58-355 | The method's new state and type are exactly `CheckStatement` of the old state, or a panic. |
| SemanticAnalyzers.Semantic.SemanticOperand | src/analyzer/semantic.rs:66-80 | The method computes `CheckOperand`. |
| SemanticAnalyzers.Semantic.SemanticBinary | src/analyzer/semantic.rs:357-402 | The method computes `CheckBinary`. |
| SemanticAnalyzers.Semantic.SemanticAgainst | src/analyzer/semantic.rs:272-304 | The method computes `CheckAgainst`. |
| SemanticAnalyzers.Semantic.SemanticCall | src/analyzer/semantic.rs:110-189 | The method computes `CheckCall`. |
| SemanticAnalyzers.Semantic.SemanticBlock | src/analyzer/semantic.rs:52-56 | The method computes `CheckStatements` over the block. |
| SemanticAnalyzers.Semantic.Run | src/analyzer/semantic.rs:28-50 | The method computes `CheckProgram`. |
| SemanticAnalyzers.SemanticCheck | src/analyzer/semantic.rs:405-415 | It panics exactly when `PublicSemantic` aborts. It returns the analyser exactly when accepted, with the accepted state. Otherwise it returns the recorded errors. |
| VariableTables.FirstIndex | src/analyzer/variable_table.rs:33-41 | The index found holds the first declaration of the name. None means no declaration has that name. |
| VariableTables.Declare | src/analyzer/variable_table.rs:23-30 | `variable_declare` appends one declaration and keeps the parent. |
| VariableTables.VariableScope.GetType | src/analyzer/variable_table.rs:33-41 | The forward scan returns the scope's `TypeOf`. |
| VariableTables.FirstIndexAt | src/analyzer/variable_table.rs:33-41 | A declaration with no earlier one of the same name is what the scan finds. |
| VariableTables.TypeOfFirst | src/analyzer/variable_table.rs:33-41 | A scope reports a type exactly when it declares the name, and reports the type of the first declaration. |
| VariableTables.DeclareThenType | src/analyzer/variable_table.rs:23-41 | Redeclaring a name keeps its reported type. Declaring a new name makes it report the declared type. Other names are unaffected. |
| VariableTables.Ancestors | src/analyzer/variable_table.rs:67-84 | The scopes visited start at the given scope, stay in the table, and end at a root. |
| VariableTables.ChainTypeNone | src/analyzer/variable_table.rs:67-84 | The chain lookup finds nothing exactly when no scope on the path to the root declares the name. |
| VariableTables.ChainTypeNearest | src/analyzer/variable_table.rs:67-84 | A type found by the chain lookup is the one from the nearest scope on the path that declares the name. |
| VariableTables.VariableTable.constructor | src/analyzer/variable_table.rs:53-59 | A new table has one root scope with no parent, and the current and maximum scope indices both 0. |
| VariableTables.VariableTable.VariableDeclare | src/analyzer/variable_table.rs:62-64 | Only the current scope changes, by that declaration. |
| VariableTables.VariableTable.GetType | src/analyzer/variable_table.rs:67-84 | The parent-chain walk returns `ChainType` from the current scope. |
| VariableTables.VariableTable.PushScope | src/analyzer/variable_table.rs:86-90 | A new scope with the given parent is appended and becomes current. The maximum index grows by one. |
| VariableTables.VariableTable.PopScope | src/analyzer/variable_table.rs:92-103 | The current scope becomes its parent, and nothing is removed. |
| FunctionTables.DocOrEmpty | src/analyzer/function_table.rs:50-66 | A missing doc comment is stored as the empty string. |
| FunctionTables.PrintInfoShape | src/analyzer/function_table.rs:35-48 | `print` is variadic, with no declared parameters, no return type, an empty body and no locals. |
| FunctionTables.FunctionTable.constructor | src/analyzer/function_table.rs:35-48 | A new function table has exactly one entry, `print`. |
| FunctionTables.FunctionTable.FunctionDefinition | src/analyzer/function_table.rs:50-66 | The entry for the name is inserted or overwritten. |
| FunctionTables.FunctionTable.GetFunctionInfo | src/analyzer/function_table.rs:68-70 | The lookup gives the stored entry exactly when the name is present. |
| FunctionTables.FunctionTable.GetFunctionInfoMut | src/analyzer/function_table.rs:72-74 | Changes through the mutable reference are stored back when the name is present. |
| FunctionTables.DefineThenLookup | src/analyzer/function_table.rs:50-70 | A definition is what the next lookup of its name returns. Other names are unaffected. |
| FunctionTables.MutateThenLookup | src/analyzer/function_table.rs:68-74 | A change made through the mutable reference is what the next lookup returns. |
| CoroutineTables.CoroutineTable.constructor | src/analyzer/coroutine_table.rs:32-36 | A new coroutine table is empty. |
| CoroutineTables.CoroutineTable.CoroutineDefinition | src/analyzer/coroutine_table.rs:38-51 | The entry for the name is inserted or overwritten. |
| CoroutineTables.CoroutineTable.GetCoroutineInfo | src/analyzer/coroutine_table.rs:53-55 | The lookup gives the stored entry exactly when the name is present. |
| CoroutineTables.CoroutineTable.GetCoroutineInfoMut | src/analyzer/coroutine_table.rs:57-59 | Changes through the mutable reference are stored back when the name is present. |
| CoroutineTables.DefineThenLookup | src/analyzer/coroutine_table.rs:38-55 | A definition is visible to the next lookup, with its body, its doc defaulted to empty, and no locals. Other names are unaffected. |
| TaskTables.NewTask | src/analyzer/task_table.rs:25-34 | A new task has the given names, a fresh cursor, and the coroutine's statements. |
| TaskTables.CoroutineTask.constructor | src/analyzer/task_table.rs:25-34 | `CoroutineTask::new` builds `NewTask`. |
| TaskTables.CoroutineTask.Step | src/analyzer/task_table.rs:36-41 | `step` advances only the cursor. |
| TaskTables.TaskTable.constructor | src/analyzer/task_table.rs:49-53 | A new task table is empty. |
| TaskTables.TaskTable.AddTask | src/analyzer/task_table.rs:56-59 | A fresh task is stored under the task name, replacing any previous one. |
| TaskTables.TaskTable.SetTask | src/analyzer/task_table.rs:62-64 | The task's value is stored under the name. |
| TaskTables.TaskTable.GetTask | src/analyzer/task_table.rs:66-72 | A fresh copy of the stored task is returned exactly when the name is present. |
| TaskTables.SetThenGet | src/analyzer/task_table.rs:62-72 | `get_task` after `set_task` returns the task just set. Other names are unaffected. |
| Execution.ParameterList | src/interpreter/execute.rs:68-80 | A parameter list is accepted exactly when every entry is a declaration. It then gives each name and type in order. |
| Execution.ValueTexts | src/interpreter/execute.rs:98 | One text per value, in order, each the value's display text. |
| Execution.ToGreen | src/interpreter/execute.rs:228-234 | Tagging succeeds exactly when the step completed with a non-Null value. The tag is that value's type. |
| Execution.Unit | src/interpreter/execute.rs:49 | Dropping a step's value keeps its state and its error. |
| Execution.NoValue | src/interpreter/execute.rs:63-66 | A completed statement of this kind yields no value, keeping state and error. |
| Execution.BindParameters | src/interpreter/execute.rs:124-139 | Binding succeeds exactly when every zipped parameter/value pair has matching types. Otherwise it fails with Runtime013 naming the parameter type, the argument type, the function name and the parameter name of the first mismatched pair. It touches only the innermost scope, and never the functions or the output. |
| Execution.Execute | src/interpreter/execute.rs:28-44 | `execute` only appends output and never forgets a function. A completed block leaves the scope stack as deep, with every outer scope's names and types kept. |
| Execution.ExecuteStatements | src/interpreter/execute.rs:31-36 | The statement loop keeps the same invariant as `execute`. |
| Execution.Statement | src/interpreter/execute.rs:46-93 | `statement` keeps the same invariant. |
| Execution.ExecuteFunction | src/interpreter/execute.rs:103-163 | `execute_function` keeps the same invariant. |
| Execution.Call | src/interpreter/execute.rs:105-156 | Every call keeps the invariant. A completed user call leaves every caller scope with the same names and types. |
| Execution.Invoke | src/interpreter/execute.rs:121-153 | A completed user function's call proper pops the scope it pushed, leaving every caller scope with the same names and types. |
| Execution.PrintFunction | src/interpreter/execute.rs:96-101 | `print_function` keeps the invariant. |
| Execution.EvaluateArguments | src/interpreter/execute.rs:202-208 | On success there is one value per argument, and the invariant is kept. |
| Execution.EvaluateIf | src/interpreter/execute.rs:165-181 | `evaluate_if_statement` keeps the invariant. A condition that is not a boolean is Runtime014 (see `ExecutionProperties.ConditionMustBeBool`). |
| Execution.EvaluateLoop | src/interpreter/execute.rs:183-199 | `evaluate_loop_statement` keeps the invariant. A first condition that is not a boolean is Runtime014 (see `ExecutionProperties.ConditionMustBeBool`). |
| Execution.LoopFrom | src/interpreter/execute.rs:185-191 | The `while let` loop keeps the invariant. |
| Execution.EvaluateAssignable | src/interpreter/execute.rs:212-235 | A successful value is never Null and is tagged with its own type. The invariant is kept. |
| Execution.EvaluateExpression | src/interpreter/execute.rs:238-431 | `evaluate_expression` changes no state. |
| Execution.Run | src/interpreter/execute.rs:471-475 | `execute` reports success exactly when the run from the initial state completes. The lines printed are that run's output. |
| ExecutionProperties.StatementsAppend | src/interpreter/execute.rs:31-36 | Running `s1 + s2` runs `s1`, then runs `s2` only if `s1` completed without a value. |
| ExecutionProperties.StatementsAfterValueSkipped | src/interpreter/execute.rs:33-35 | Once a prefix of a block yields a value, nothing after it runs. |
| ExecutionProperties.StatementValueOnlyFromReturn | src/interpreter/execute.rs:46-93 | Only a return statement yields a value. |
| ExecutionProperties.BlockValueFromOwnReturn | src/interpreter/execute.rs:28-44 | A block yields a value only if one of its own statements is a return. A return inside an `if` or a loop is not seen. |
| ExecutionProperties.OnlyBlocksExecute | src/interpreter/execute.rs:38-41 | `execute` on anything but a block is Runtime003. |
| ExecutionProperties.IfDropsReturnedValue | src/interpreter/execute.rs:166-168 | A true `if` has the outcome of its then-branch with any returned value dropped. |
| ExecutionProperties.LoopDropsReturnedValue | src/interpreter/execute.rs:185-187 | A loop round whose body returns a value drops it and goes on to the next round. |
| ExecutionProperties.LoopEndsUnlessTrue | src/interpreter/execute.rs:185-191 | After the first check, a condition that is not `true` ends the loop without an error. |
| ExecutionProperties.ConditionMustBeBool | src/interpreter/execute.rs:165-199 | A condition of an `if` or the first condition of a `while` that is not a boolean is Runtime014 naming the condition node, in the state the condition left. A boolean first condition starts the rounds. |
| ExecutionProperties.PrintIsBuiltIn | src/interpreter/execute.rs:106-107 | A call to `print` never consults the function table. |
| ExecutionProperties.CallErrors | src/interpreter/execute.rs:109-151 | An unknown function is Runtime002, and an arity mismatch is Runtime012 with both counts. Both are detected before any scope is pushed or any argument evaluated. |
| ExecutionProperties.BindKeepsOtherNames | src/interpreter/execute.rs:124-139 | Binding parameters leaves every other name resolving as before. |
| ExecutionProperties.BindBindsParameters | src/interpreter/execute.rs:124-127 | With distinct names and matching types, each parameter resolves to its own argument after binding. |
| ExecutionProperties.CalleeSeesCallerBindings | src/interpreter/execute.rs:121-127 | Scoping is dynamic: in the called function, a name that is not a parameter resolves to the caller's nearest binding. |
| ExecutionProperties.CompletedCallKeepsCallerNames | src/interpreter/execute.rs:121-153 | A completed user call leaves the caller's stack as deep as it was, with the same names and types in every scope. |
| ExecutionProperties.TruncDivRemainder | src/interpreter/execute.rs:358 | `i32` division leaves the remainder of the magnitudes, with the dividend's sign. |
| ExecutionProperties.TruncDivRoundsTowardZero | src/interpreter/execute.rs:358 | `i32` division rounds toward zero. The remainder is smaller than the divisor and has the dividend's sign. |
| ExecutionProperties.ArithmeticOverflowRules | src/interpreter/execute.rs:355-357 | `+`, `-` and `*` on `i32` panic exactly when the exact result leaves the `i32` range, and otherwise give it. |
| ExecutionProperties.DivisionPanics | src/interpreter/execute.rs:358 | Division by zero panics. The only other failing `i32` division is `i32::MIN / -1`. |
| ExecutionProperties.NegationRules | src/interpreter/execute.rs:405-410 | Negation (`-1 * value`) panics only on `i32::MIN`. Unary `+` changes nothing. |
| ExecutionProperties.LogicalTruthTable | src/interpreter/execute.rs:434-447 | `xor` is true exactly when its operands differ. `and`, `or` and `not` are the usual ones. |
| ExecutionProperties.NoShortCircuit | src/interpreter/execute.rs:262-287 | The right operand of a binary logical operator is always evaluated, and its failure fails the expression. Two booleans give the operator's value. Any other pair is Runtime015 naming both values and the operator. A missing right operand is Runtime009. |
| ExecutionProperties.NotNeedsBool | src/interpreter/execute.rs:247-261 | `not` of a boolean is its negation. `not` of any other value is Runtime008 naming the operator and the operand node. |
| ExecutionProperties.ComparisonRules | src/interpreter/execute.rs:291-336 | Two integers compare under any operator, as integers. Two strings compare only under `==` and `!=`; under any other operator they are Runtime006 naming the operator. Any other pair of non-float values, two booleans included, is Runtime016. |
| ExecutionProperties.CallInsideOperatorRejected | src/interpreter/execute.rs:426-429 | A call inside an operator is Runtime003 on the call node. |
| Interpreters.Interpreter.constructor | src/interpreter/execute.rs:20-25 | A new interpreter has the initial state: one empty scope, no function, no output. |
| Interpreters.Interpreter.Execute | src/interpreter/execute.rs:28-44 | The method's outcome and new state are exactly `Execution.Execute`. |
| Interpreters.Interpreter.Statement | src/interpreter/execute.rs:46-93 | The method computes exactly `Execution.Statement`. |
| Interpreters.Interpreter.PrintFunction | src/interpreter/execute.rs:96-101 | The method computes exactly `Execution.PrintFunction`. |
| Interpreters.Interpreter.ExecuteFunction | src/interpreter/execute.rs:103-163 | The method computes exactly `Execution.ExecuteFunction`. |
| Interpreters.Interpreter.Invoke | src/interpreter/execute.rs:121-153 | The method computes exactly `Execution.Invoke`. |
| Interpreters.Interpreter.BindArguments | src/interpreter/execute.rs:124-139 | The `zip` loop computes exactly `BindParameters`. |
| Interpreters.Interpreter.EvaluateIfStatement | src/interpreter/execute.rs:165-181 | The method computes exactly `EvaluateIf`. |
| Interpreters.Interpreter.EvaluateLoopStatement | src/interpreter/execute.rs:183-199 | The method computes exactly `EvaluateLoop`. |
| Interpreters.Interpreter.EvaluateArgument | src/interpreter/execute.rs:202-208 | The loop computes exactly `EvaluateArguments`. |
| Interpreters.Interpreter.EvaluateAssignable | src/interpreter/execute.rs:212-235 | The method computes exactly `Execution.EvaluateAssignable`. |
| Interpreters.Interpreter.EvaluateExpression | src/interpreter/execute.rs:238-431 | The method returns the result of `Execution.EvaluateExpression`. |
| Interpreters.ExecuteProgram | src/interpreter/execute.rs:471-475 | A fresh interpreter's printed lines and completion are those of `Run`. |
| Scopes.Innermost | src/interpreter/environment.rs:30-36 | A found index is in range, and that scope binds the name. |
| Scopes.Define | src/interpreter/environment.rs:22-26 | `set_variable` adds or overwrites the name in the innermost scope only. The stack keeps its length, the outer scopes are untouched, and an empty stack stays empty. |
| Scopes.InnermostSpec | src/interpreter/environment.rs:28-38 | The reverse scan finds the highest-indexed scope that binds the name. It finds nothing exactly when no scope binds it. |
| Scopes.InnermostSkip | src/interpreter/environment.rs:30-36 | Scopes above index `k` that do not bind the name make no difference to the scan. |
| Scopes.LookupAfterDefine | src/interpreter/environment.rs:22-38 | After `set_variable`, `get_variable` of that name gives the new value. Every other name reads as before. |
| Scopes.LookupShadowing | src/interpreter/environment.rs:30-36 | A binding in an inner scope shadows every outer binding of the same name. |
| Scopes.PushPop | src/interpreter/environment.rs:64-70 | `pop_scope` after `push_scope` restores the stack, whatever was defined in between. The pushed scope hides no outer binding. |
| Scopes.ChangeSpec | src/interpreter/environment.rs:40-62 | A successful change keeps every scope's names and stored types. It updates only the nearest binding, to the new value. It fails with Runtime007 exactly when the name is unbound, and with Runtime010 exactly when the types differ. A failure changes nothing. |
| Environments.Environment.constructor | src/interpreter/environment.rs:16-20 | A new environment holds one empty scope. |
| Environments.Environment.SetVariable | src/interpreter/environment.rs:22-26 | The new stack is `Define` of the old one. |
| Environments.Environment.GetVariable | src/interpreter/environment.rs:28-38 | The reverse scan returns the nearest binding's value, or Runtime007. |
| Environments.Environment.ChangeVariable | src/interpreter/environment.rs:40-62 | On success the stack becomes `Change` of the old one. On failure the method returns `Change`'s error and leaves the stack unchanged. |
| Environments.Environment.PushScope | src/interpreter/environment.rs:64-66 | One empty scope is appended. |
| Environments.Environment.PopScope | src/interpreter/environment.rs:68-70 | The innermost scope is removed, if there is one. |
| VariableManagers.VariableManager.constructor | src/interpreter/variable.rs:15-19 | A new manager holds one empty scope. |
| VariableManagers.VariableManager.SetVariable | src/interpreter/variable.rs:21-25 | The new stack is `Define` of the old one. |
| VariableManagers.VariableManager.GetVariable | src/interpreter/variable.rs:27-40 | The reverse scan returns the nearest binding's value, or Runtime007. |
| VariableManagers.VariableManager.ChangeVariable | src/interpreter/variable.rs:42-70 | On success the stack becomes `Change` of the old one. On failure the method returns the error and leaves the stack unchanged. |
| VariableManagers.VariableManager.PushScope | src/interpreter/variable.rs:72-74 | One empty scope is appended. |
| VariableManagers.VariableManager.PopScope | src/interpreter/variable.rs:76-78 | The innermost scope is removed, if there is one. |
| FunctionManagers.FunctionManager.constructor | src/interpreter/function.rs:9-11 | A new manager holds no definition. |
| FunctionManagers.FunctionManager.AddDef | src/interpreter/function.rs:13-22 | `add_def` inserts or overwrites exactly the one definition. |
| FunctionManagers.FunctionManager.GetFunction | src/interpreter/function.rs:24-26 | A definition is found exactly when the name was added, and it is the stored one. |
| FunctionManagers.AddThenGet | src/interpreter/function.rs:13-26 | After `add_def`, `get_function` of that name gives the new definition. Every other name resolves as before. |
| FunctionManagers.NewHasNone | src/interpreter/function.rs:9-11 | A fresh manager knows no function. |
| Cursors.StepSpec | src/interpreter/coroutine.rs:40-45 | `step` advances the position by one. It marks the task Completed exactly when the new position reaches the body's length, and otherwise keeps the status. |
| Cursors.CompletedAbsorbing | src/interpreter/coroutine.rs:40-45 | A Completed task stays Completed and keeps advancing. |
| Cursors.StepsSpec | src/analyzer/task_table.rs:36-41 | After `n` steps the position moved by `n`. The task is Completed when it already was, or when at least one step was taken and the position reached the length. |
| Cursors.FreshCompletesAfterLength | src/interpreter/coroutine.rs:25-45 | A fresh task over `len >= 1` statements is Ready for fewer than `len` steps, and Completed from the `len`-th step on. |
| Cursors.EmptyBodyReadyUntilFirstStep | src/interpreter/coroutine.rs:40-45 | A task over an empty body stays Ready until the first step completes it. |
| InterpreterCoroutines.NewTask | src/interpreter/coroutine.rs:25-38 | A new task is Ready at position 0, and holds the block's statements. |
| InterpreterCoroutines.CoroutineTask.constructor | src/interpreter/coroutine.rs:25-38 | The constructed task is `NewTask`. A non-Block node panics in the source, so it is excluded. |
| InterpreterCoroutines.CoroutineTask.FromRecord | src/interpreter/coroutine.rs:84 | The task's clone equals the stored value. |
| InterpreterCoroutines.CoroutineTask.Step | src/interpreter/coroutine.rs:40-45 | The task's cursor takes one `Cursors.Step`, and nothing else changes. |
| InterpreterCoroutines.CoroutineManager.constructor | src/interpreter/coroutine.rs:53-58 | A new manager has no definition and no task. |
| InterpreterCoroutines.CoroutineManager.AddDef | src/interpreter/coroutine.rs:60-65 | `add_def` inserts or overwrites one definition. The tasks are unchanged. |
| InterpreterCoroutines.CoroutineManager.AddTask | src/interpreter/coroutine.rs:67-79 | A defined coroutine gives a fresh Ready task under the task name, replacing any task of that name. An undefined one is Runtime019 and changes nothing. |
| InterpreterCoroutines.CoroutineManager.GetTask | src/interpreter/coroutine.rs:81-91 | A stored task comes back as a fresh copy equal to it. A missing one is Runtime019. |
| InterpreterCoroutines.CoroutineManager.SetTask | src/interpreter/coroutine.rs:93-95 | `set_task` stores the task's current value under the name. The definitions are unchanged. |
| InterpreterCoroutines.SetThenGet | src/interpreter/coroutine.rs:81-95 | `get_task` after `set_task` of the same name gives back a task equal to the one set. |
| AstJson.NodeEntries | src/utils/ast_to_json.rs:101-155 | Every entry one node pushes is a non-`print` call or a doc comment. |
| AstJson.SequenceEntries | src/utils/ast_to_json.rs:95-99 | Every entry a run of nodes pushes is a non-`print` call or a doc comment. |
| AstJson.OwnAllAppend | src/utils/ast_to_json.rs:95-99 | The own entries of two runs of visited nodes are those of the first run, then those of the second. |
| AstJson.EntriesOfVisited | src/utils/ast_to_json.rs:101-155 | The walk pushes exactly the own entries of the nodes it visits, in visiting order. |
| AstJson.IfEntriesOfVisited | src/utils/ast_to_json.rs:103-108 | An `if` pushes nothing of its own. Its condition is not walked; it pushes its then block's entries, then its else block's. |
| AstJson.EntriesOfVisitedAll | src/utils/ast_to_json.rs:95-99 | A run of nodes pushes the own entries of every node visited, in order. |
| AstJson.SequenceEntriesAppend | src/utils/ast_to_json.rs:95-99 | The entries of two runs of statements are those of the first run, then those of the second. |
| AstJson.CallEntries | src/utils/ast_to_json.rs:129-142 | A call pushes its own entry before its arguments' entries. A call of `print` pushes none of its own. |
| AstJson.SilentNodes | src/utils/ast_to_json.rs:153 | Nodes outside the walked kinds push nothing and are not descended into. |
| AstJson.DefinitionsAt | src/utils/ast_to_json.rs:60-66 | There is one definition per item, in order, built from that item's name, kind and doc. |
| AstJson.FunctionItemsAt | src/utils/ast_to_json.rs:28-32 | Each function gives one item of kind "function", in order. |
| AstJson.CoroutineItemsAt | src/utils/ast_to_json.rs:34-38 | Each coroutine gives one item of kind "coroutine", in order. |
| AstJson.DefinitionsInOrder | src/utils/ast_to_json.rs:25-38 | `definitions` holds one entry per function in source order, then one per coroutine. An absent doc comment becomes "". |
| AstJson.StructureKeys | src/utils/ast_to_json.rs:28-38 | `structures` gains a key for each definition name and no other key. |
| AstJson.LastDefinitionWins | src/utils/ast_to_json.rs:28-38 | A name maps to the walk of the last definition that carries it. |
| AstJson.UnnamedKept | src/utils/ast_to_json.rs:28-38 | A name that no definition carries keeps what `structures` held for it. |
| AstJson.StructuresRecorded | src/utils/ast_to_json.rs:28-38 | Every entry of every structure is a non-`print` call or a doc comment. |
| AstJson.DefinitionsAppend | src/utils/ast_to_json.rs:28-38 | Collecting two runs lists the first run's definitions, then the second's. |
| AstJson.StructuresAppend | src/utils/ast_to_json.rs:28-38 | Inserting two runs in turn is inserting the second into the result of the first. |
| AstJson.AfterItem | src/utils/ast_to_json.rs:29-31 | Recording one more item extends the definitions by that item's entry. It sets that item's structure to its walk. |
| AstJson.AstAnalyzer.constructor | src/utils/ast_to_json.rs:87-93 | A new analyzer has an empty stack. |
| AstJson.AstAnalyzer.AnalyzeBlock | src/utils/ast_to_json.rs:95-99 | `analyze_block` appends the block's entries to the stack. |
| AstJson.AstAnalyzer.AnalyzeAll | src/utils/ast_to_json.rs:96-98 | The `for` loop appends the run's entries in order. |
| AstJson.AstAnalyzer.AnalyzeAst | src/utils/ast_to_json.rs:101-120 | `analyze_ast` appends the node's entries to the stack, for the arms that descend into blocks, initialisers and right-hand sides. |
| AstJson.AstAnalyzer.AnalyzeCallOrComment | src/utils/ast_to_json.rs:129-153 | A call, a doc comment or any other node appends exactly its entries to the stack. |
| AstJson.Analyze | src/utils/ast_to_json.rs:87-93 | A fresh walk of a block leaves exactly its entries, each a non-`print` call or a doc comment. |
| AstJson.JsonData.constructor | src/utils/ast_to_json.rs:16-23 | A new collection has no definition and no structure. |
| AstJson.JsonData.Add | src/utils/ast_to_json.rs:29-31 | One iteration appends one definition and sets that name's structure to the block's walk. |
| AstJson.JsonData.AstToJson | src/utils/ast_to_json.rs:25-41 | `ast_to_json` collects the functions, then the coroutines, into both tables. |
| AstJson.JsonData.AddFunctions | src/utils/ast_to_json.rs:28-32 | The function loop records every function in order. |
| AstJson.JsonData.AddCoroutines | src/utils/ast_to_json.rs:34-38 | The coroutine loop records every coroutine in order. |
| AstJson.Collect | src/utils/ast_to_json.rs:16-41 | A fresh collection has one definition per function and coroutine. Every structure entry is a non-`print` call or a doc comment. |

## Left out

- VariableTables.VariableTable.PushScope: requires the parent index to name an existing scope, which the source (src/analyzer/variable_table.rs:86-90) does not check; the requirement keeps the parent chain acyclic and within the table, so the parent walk of `get_type` terminates.
- Tokens.ArithmeticFromStr, Tokens.ComparisonFromStr, Tokens.LogicalFromStr: the lexer calls `Arithmetic::from_str`, `Comparison::from_str` and `Logical::from_str` (src/lexer/lexical_analyzer.rs:41-258), which src/common/operator.rs does not define. The three lookups are reconstructed as the inverses of the operator printing.
- VariableTables.VariableTable.PopScope: requires the current scope to have a parent. On a parentless scope `pop_scope` panics (src/analyzer/variable_table.rs:96-99); the precondition stands for that panic, which is not modelled.
- Floating point. `f64` arithmetic, float negation, float comparison and float literal values are not computed. The interpreter returns a `FloatNotModelled` outcome where the source would compute with floats. The lexers and parsers keep a float literal's spelling rather than its value.
- `LiteralValue::Float` printing: the value is kept as its text, because Rust's `f64` formatting is not modelled.
- EarlyParsing.TokenKind: src/parser.rs:2 imports `TokenKind` from `crate::lexical_analyzer`, which does not define it; the only `enum TokenKind` is in src/lexer/token.rs, with other variants. The kinds are reconstructed from the arms src/parser.rs matches on, and `Other` stands for every kind it has no arm for.
- src/interpreter.rs: every value there is an `f64`, so the file is not part of this model.
- Coroutine resume and yield are not executed. `statement` has no arm for them, and they fall to Runtime003 as in the source. A task keeps only its flat cursor.
- Standard output: `println!` in `print_function` becomes a list of output lines in the interpreter state. The `print` and `indent` debug printers of src/parser/node.rs and src/parser.rs:27-48 are not modelled.
- File and JSON I/O are not modelled. This covers `File::create`, `writeln!` and the serde serialisation in src/utils/ast_to_json.rs:42-48, and `load_file_content` and `load_error_messages` in src/utils.rs and src/utils/misc.rs.
- The process driver src/main.rs and the clap parser in src/cli/args.rs are not modelled.
- The error message store: the JSON loading and the lazy `OnceLock` of `ErrorMessage::global` are replaced by a `map<string, string>` parameter.
- Runtime and scope errors are kept as a code plus parameters (`Scopes.Unbound`/`Mismatch`, `Execution.ExecError.Coded`) and are not rendered. In src/interpreter/environment.rs, src/interpreter/variable.rs and src/interpreter/execute.rs they are rendered to a message `String` through `get_error_message`, so the "unknown error code" fallback of that rendering is not modelled on those paths.
- Lexer and parser errors are likewise kept as an unrendered `ErrorContext`. The lexer of src/lexer/lexical_analyzer.rs and the parser of src/parser/ast.rs return a `String` rendered through `get_error_message_with_location(...)?`, so the "unknown error code" fallback of that rendering is not modelled on those paths either.
- The doc-comment `Regex` of src/parser/parser.rs is modelled as a search for the first `@process` and a trim of what follows it.
- Unicode `char::is_alphabetic` and `char::is_numeric` are parameters of the lexers: uninterpreted character classes.
- The `{:?}` debug text of a node, which some runtime messages embed, is a `describe` parameter.
- The parameters of the errors that the parser of src/parser/parser.rs records are not modelled: `LateParsing.At` gives an empty parameter list. Those errors keep their code, row and column. The lexer of src/lexer/lexical_analyzer.rs and the parser of src/parser/ast.rs keep their errors' parameters.
- `parse_not_expr` does not terminate in the source: it recurses without consuming `not`, which overflows the stack. The parsers report a `Diverges` outcome there instead.
- The interpreter takes a `fuel` bound on loop rounds and user calls. Running out of it is an `OutOfFuel` outcome, which the source has no counterpart for. Every property is stated for whatever the outcome is, fuel included.
- Execution.EvaluateExpression: an `i32` overflow or a division by zero is a `Panic` outcome, as in a debug build. A release build would wrap `+`, `-`, `*` and unary minus instead, and that is not modelled; division by zero and `i32::MIN / -1` panic in every build.
- InterpreterCoroutines.CoroutineTask.constructor: a non-Block process panics in the source (src/interpreter/coroutine.rs:25-38). The constructor requires a Block instead.
- InterpreterCoroutines.CoroutineManager.AddTask: a defined coroutine whose body is not a Block panics in `CoroutineTask::new` (src/interpreter/coroutine.rs:67-79). AddTask requires every such definition to be a Block, so that panic is not modelled.
- Task and table methods that hand out `&mut` references (`get_function_info_mut`, `get_coroutine_info_mut`) take the caller's change as an update function, applied to the stored entry in place.
- src/parser/node.rs, src/keyword.rs, src/operator.rs and src/lib.rs hold only declarations. Their datatypes are transcribed where a modelled file uses them, and there is no behaviour to prove.
- The late parser has the same mul/div token drop as the fail-fast one (src/parser/parser.rs:909-925). It is modelled as written and exhibited by `LateParsingProperties.ProductDropsToken` and `LateParsingProperties.ProductOfTwoNames`, but no corrected late parser is given.
- The parser and lexer classes follow the source as written, the extra `next` calls included. The corrected definitions of the findings below are separate functions with their own lemmas.

## Findings

| source | as written | input that shows it | evidently intended | confidence | as-written member | corrected member |
|---|---|---|---|---|---|---|
| src/lexical_analyzer.rs:107-110 | a lone `/` pushes the operator and then calls `chars.next()` again, although the slash was already consumed at line 71, so the character after `/` is lost | `1/2` lexes to `1`, `/`, EOF | the character after `/` is kept for the next token | not executed | EarlyLexingProperties.DivisionExample | EarlyLexingProperties.DivisionExampleIntended |
| src/parser/ast.rs:537 | after `next_token` has consumed `*` or `/`, `self.tokens.next()` drops one more token before the right operand is parsed | `a * b;` fails, because `b` is dropped and `;` is read as the operand | the right operand starts right after the operator, so `a * b` is a left-associative product | not executed | FailFastParsingProperties.ProductDropsToken | FailFastParsingProperties.ProductLeftAssociative |
