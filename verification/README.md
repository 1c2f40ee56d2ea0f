# msh lexer and variable table in Dafny

A model of two parts of msh, a small Unix shell written in Rust:

- **The lexer** (`src/lexer.rs`). It is a pull-based automaton. It turns shell text into
  `Word(text)`, `LeftBrace`, `RightBrace` and `Semi` tokens, each tagged with a 1-based line.
  - `lexer.dfy` holds the `Lexer` class. Its fields are the ones the source updates in place:
    - the line counter
    - the one-character pushback slot (`peek`)
    - the one-kind lookahead slot (`next`)
    - the kind of the last token emitted (`last`)
    - a position in the text
  - Each method of the class is proved against a pure specification. `Step` says what one call
    of `Iterator::next` does to an abstract state: a cursor, the lookahead slot and the last
    kind. `Tokens`/`Lex` give the whole stream.
  - The line counter is not part of that state. `Lexer.Valid` proves it is always the line the
    cursor is on.
  - The self-recursive call of `next` for leading terminators is a call of `Next` that
    terminates because the cursor moves on.
- **Lexer properties** (`lexer_properties.dfy`).
  - `LexerProperties` proves what the lexer promises about its token stream.
  - `LexerLocality` proves that a call only looks at the text between its cursor and the
    last character it reads. That is the `}` or the whitespace after a word when one of those
    closes the token, and otherwise the character that is looked at and pushed back.
- **Test vectors** (`lexer_vectors.dfy`) prove the exact streams the source's tests expect. It
  also has two more texts. Only the multi-line test compares line numbers. The lines in
  `Command`, `IfStmt` and `EmptyBody` are what the model computes, since those tests compare
  kinds only.
- **The variable table** (`src/environment.rs`), in `environment.dfy`. It is a map from names to
  a value and an `exported` flag, changed in place by `Assign` and `Export`.

Where the code does something one might not expect, the model follows it:

- A run of terminators split by whitespace gives one `Semi` per piece. So `"a; ;b"` lexes to
  two `Semi`s in a row (`LexerVectors.StraySemicolons`).
- Leading terminators are dropped (the comment at src/lexer.rs:87), but a text starting with
  `}`, a blank text and the empty text all start with `Semi`: the `}` rule and the trailing
  `Semi` of src/lexer.rs:111-118 do not look at whether anything was emitted before
  (`LexerVectors.LoneRightBrace`, `LexerProperties.LexSingleTokenIffBlank`).
- The `Semi` for a run that starts with `;` is tagged one line before the `;`: line 0 on the
  first line (`LexerProperties.TerminatorRunLine`, `LexerVectors.StraySemicolons`).

The source's `usize` arithmetic cannot wrap:

- The line counter is a `nat`.
- Both subtractions are proved to stay at or above zero: line 39 decrements only after a
  `'\n'` was counted, and at line 90 the counter is at least 1.

## Model

| member | source | states |
|---|---|---|
| Lexer.Display | src/lexer.rs:149-160 | a kind is shown quoted; a word as its text, the others as `{`, `}` or `;` |
| Lexer.LineAt | src/lexer.rs:28-42 | the line of a position is 1 plus the newlines before it, between 1 and the position plus 1 |
| Lexer.LineAtNext | src/lexer.rs:30-32 | reading one character moves the line on by one exactly when it is `'\n'` |
| Lexer.SkipTerminators | src/lexer.rs:44-53 | the end of the maximal run of `'\n'`/`';'` from a position |
| Lexer.SkipTerminatorsUnique | src/lexer.rs:44-53 | any index that ends a maximal terminator run is the one `SkipTerminators` finds |
| Lexer.WordEnd | src/lexer.rs:95-108 | the end of the maximal run of characters that are neither terminator nor whitespace |
| Lexer.WordEndUnique | src/lexer.rs:95-108 | any index that ends a maximal word run is the one `WordEnd` finds |
| Lexer.Step | src/lexer.rs:59-62 | one call never moves the cursor back nor past the end of the text |
| Lexer.Scan | src/lexer.rs:64-122 | the character loop never moves the cursor back nor past the end of the text |
| Lexer.IsLineTerminator | src/lexer.rs:125-127 | a terminator is `'\n'` or `';'`; it is never a brace, and only `'\n'` is also whitespace |
| Lexer.OpenBrace | src/lexer.rs:68-71 | a `{` gives `LeftBrace` on the brace's line; the cursor moves past the maximal terminator run after it; nothing is pending |
| Lexer.CloseBrace | src/lexer.rs:72-80 | a `}` gives `RightBrace` exactly when the last kind was `Semi`, otherwise `Semi` with `RightBrace` pending; on the brace's line, the cursor one past it |
| Lexer.TerminatorRun | src/lexer.rs:83-91 | a terminator gives one `Semi`; the cursor moves past the maximal terminator run; nothing is pending and the last kind is `Semi` |
| Lexer.WordAt | src/lexer.rs:92-120 | a word is the maximal run of word characters, on the line it starts on; a terminator after it is left unread, one whitespace character after it is consumed |
| Lexer.EndOfInput | src/lexer.rs:111-118 | at the end of the text: no token exactly when the last kind was `Semi`, otherwise a `Semi` on the last line; the last kind is then `Semi` |
| Lexer.Tokens | src/lexer.rs:59-122 | the stream the iterator yields from a state; it has at most as many tokens as the work left, so it ends |
| Lexer.Lex | src/lexer.rs:232 | the stream of `Lexer::new(src).collect()`; at most three tokens per character, plus one |
| Lexer.StepDecreases | src/lexer.rs:59-122 | every call that returns a token decreases the work left, so the stream is finite |
| Lexer.ScanDecreases | src/lexer.rs:83-91 | the same for the loop, including the restart after leading terminators |
| Lexer.ScanSkipsBlanks | src/lexer.rs:98-106 | whitespace before a token is skipped without changing the outcome |
| Lexer.Lexer.constructor | src/lexer.rs:13-21 | a new lexer is on line 1 with empty slots, at the start of the text |
| Lexer.Lexer.Emit | src/lexer.rs:23-26 | the kind becomes the last kind; the token carries the given line, else the current line |
| Lexer.Lexer.NextChar | src/lexer.rs:28-34 | returns the pushed-back character, else the next one, else none; the line moves on exactly on `'\n'` |
| Lexer.Lexer.PushChar | src/lexer.rs:36-42 | with an empty slot, the character goes back to the slot; the line moves back exactly on `'\n'` |
| Lexer.Lexer.PushCharThenNextChar | src/lexer.rs:28-42 | a push then a read returns the same character and leaves line, cursor and slot as they were |
| Lexer.Lexer.ConsumeLineTerminators | src/lexer.rs:44-53 | consumes the maximal terminator run, leaves the next character in the slot, returns the line on entry |
| Lexer.Lexer.LeftBraceRule | src/lexer.rs:68-71 | a `{` gives `LeftBrace` on its own line and swallows the terminators right after it |
| Lexer.Lexer.RightBraceRule | src/lexer.rs:72-80 | a `}` gives `RightBrace`, or a `Semi` with `RightBrace` left pending when the last kind is not `Semi` |
| Lexer.Lexer.TerminatorRule | src/lexer.rs:83-91 | a terminator run after a token gives one `Semi`, tagged the line after its first character minus one |
| Lexer.Lexer.LeadingTerminatorRule | src/lexer.rs:84-88 | a terminator run before any token is swallowed and the call starts over |
| Lexer.Lexer.EndRule | src/lexer.rs:111-118 | at the end, a final `Semi` unless the last kind is `Semi`, then nothing |
| Lexer.Lexer.ReadWord | src/lexer.rs:83-109 | the buffer is the maximal word run; a terminator after it is pushed back, whitespace consumed |
| Lexer.Lexer.WordRule | src/lexer.rs:98-120 | a word character starts a `Word` of the maximal run, on the line it starts on |
| Lexer.Lexer.ScanToken | src/lexer.rs:64-122 | the character loop does exactly what `Scan` says to the fields |
| Lexer.Lexer.Next | src/lexer.rs:59-122 | one call does exactly what `Step` says: the pending kind first, else the character loop |
| Lexer.Lexer.Collect | src/lexer.rs:232 | collecting the iterator gives exactly `Tokens` of the current state |
| LexerProperties.FirstSignificant | src/lexer.rs:83-106 | the first index where the loop stops skipping whitespace, or terminators before any token |
| LexerProperties.ScanSkipsLeading | src/lexer.rs:83-106 | the loop behaves as if started at the first significant character |
| LexerProperties.ScanRecordsLast | src/lexer.rs:23-26 | the returned kind becomes the last kind; a `RightBrace` is returned only after a `Semi` |
| LexerProperties.ScanEnd | src/lexer.rs:111-118 | the loop returns nothing exactly when the last kind is `Semi` and only whitespace other than `'\n'` is left (`Blanks`) |
| LexerProperties.ScanFillsSlot | src/lexer.rs:72-80 | the lookahead slot is filled exactly by a `}` not after a `Semi`, with a `Semi` returned now |
| LexerProperties.ScanWordClean | src/lexer.rs:95-120 | a returned word is clean and is the maximal run at the first significant index |
| LexerProperties.TerminatorAfterWordKept | src/lexer.rs:92-95 | a terminator that ends a word is not lost: the next call returns its `Semi` |
| LexerProperties.TerminatorRunLine | src/lexer.rs:85-90 | that `Semi` is on the line of a starting `'\n'`, or one before the line of a starting `;` |
| LexerProperties.StepKeepsSlotInv | src/lexer.rs:60-80 | a call keeps "the slot is empty or holds `RightBrace` after a `Semi`" |
| LexerProperties.StepEmitsPending | src/lexer.rs:60-62 | a pending kind is returned first, on the current line, and the slot is cleared |
| LexerProperties.StepEnd | src/lexer.rs:111-118 | a call returns nothing iff nothing is pending, the last kind is `Semi` and only whitespace other than `'\n'` is left (`Blanks`); then it stays so |
| LexerProperties.TokensRightBraceAfterSemi | src/lexer.rs:72-80 | in the stream, every `RightBrace` comes right after a `Semi`, or first only when the last kind was `Semi` |
| LexerProperties.TokensEndWithSemi | src/lexer.rs:111-118 | the stream is non-empty while a kind is pending or the last kind is not `Semi`, and it ends with `Semi` |
| LexerProperties.TokensWordsClean | src/lexer.rs:95-120 | every word in the stream is clean |
| LexerProperties.LexRightBraceAfterSemi | src/lexer.rs:72-80 | a lexed text never starts with `RightBrace`, and each one follows a `Semi` |
| LexerProperties.LexEndsWithSemi | src/lexer.rs:111-118 | every text, the empty one included, yields at least one token and ends with `Semi` |
| LexerProperties.LexWordsClean | src/lexer.rs:95-120 | every word is non-empty, has no terminator or whitespace and does not start with a brace |
| LexerProperties.LexFirstToken | src/lexer.rs:83-106 | the first token comes from the first significant character; it is `Semi` iff there is none or it is `}` |
| LexerProperties.LexSingleTokenIffBlank | src/lexer.rs:111-118 | a text with no word character yields exactly one `Semi` on its last line, and only such texts yield one token |
| LexerLocality.LineAtAfter | src/lexer.rs:28-34 | text put before a position adds its line count minus one to the position's line |
| LexerLocality.ScanAfter | src/lexer.rs:64-122 | text put before the cursor only shifts the loop's positions and lines |
| LexerLocality.ScanBefore | src/lexer.rs:64-122 | text put after the last character the loop reads does not change its outcome; that character is the one at the new cursor, or the `}` or the whitespace after a word just before it (`ReadsWithin`) |
| LexerLocality.WordThenBlank | src/lexer.rs:98-105 | a word ended by whitespace is read up to that whitespace character; text after it does not change the call |
| LexerLocality.ScanInWindow | src/lexer.rs:64-122 | the loop on a whole text is the loop on a window of it, shifted |
| LexerLocality.StepInWindow | src/lexer.rs:59-122 | a call on a whole text is the call on a window of it, shifted, for a pending kind too |
| LexerVectors.Command | src/lexer.rs:167-180 | `"cat /etc/hosts /etc/passwd"` lexes to its three words and a `Semi`, all on line 1 |
| LexerVectors.IfStmt | src/lexer.rs:183-200 | `"if true { echo truthy }\n"` lexes to the test's eight tokens, on line 1 |
| LexerVectors.EmptyBody | src/lexer.rs:203-216 | `"if false { }\n"` lexes to the test's six tokens, on line 1 |
| LexerVectors.NestedIfElse | src/lexer.rs:219-270 | the eleven-line nested `if`/`else` text lexes to the test's 32 tokens with their lines |
| LexerVectors.StraySemicolons | src/lexer.rs:83-106 | `"a; ;b"` lexes to `a`, two `Semi` on line 0, `b`, and a final `Semi` |
| LexerVectors.LoneRightBrace | src/lexer.rs:72-80 | `"}"` lexes to `Semi`, `RightBrace`, `Semi` |
| Environment.Inherit | src/environment.rs:15-21 | every inherited name is present and exported, with its last value |
| Environment.Assigned | src/environment.rs:27-36 | sets the value, keeps an existing export flag, adds a new name unexported, changes nothing else |
| Environment.Exported | src/environment.rs:38-51 | exports the name, with the given value, else its old value, else `""`; nothing else changes |
| Environment.ExportedView | src/environment.rs:64-69 | exactly the exported names, each with its value |
| Environment.Environment.constructor | src/environment.rs:15-21 | a new table is the table of the inherited pairs |
| Environment.Environment.Get | src/environment.rs:23-25 | the value of a present name, nothing for an absent one |
| Environment.Environment.Home | src/environment.rs:53-55 | the value of `HOME`, which must be present |
| Environment.Environment.Path | src/environment.rs:57-62 | the value of `PATH`, or `""` when it is absent |
| Environment.Environment.IterExported | src/environment.rs:64-69 | exactly the exported names, each with its value |
| Environment.Environment.Assign | src/environment.rs:27-36 | expands against the old table; on error returns it and changes nothing, else applies `Assigned` |
| Environment.Environment.Export | src/environment.rs:38-51 | with a value: expands against the old table, the error changes nothing, else exports it; without: `Exported` with no value |
| Environment.AssignExportedView | src/environment.rs:27-36 | assignment never changes which names are exported, only an exported value |
| Environment.ExportExportedView | src/environment.rs:38-51 | export adds exactly its name to the exported ones and changes no other exported value |
| Environment.ExportIdempotent | src/environment.rs:42-49 | exporting a name without a value twice is the same as once |
| Environment.AssignThenExport | src/environment.rs:27-49 | `export name` after assigning it publishes the assigned value |
| Environment.InheritAllExported | src/environment.rs:15-21 | the names handed to child processes are exactly the inherited ones |

## Left out

- The text is a `seq<char>` with an index. The `Chars` iterator, lifetimes and UTF-8 decoding are not modelled.
- `char::is_whitespace` is written out as the Unicode White_Space list it follows. No other Unicode table is involved.
- Lexer.Lexer.PushChar: also requires that the character pushed back is the one just read. Every call site in the lexer does this, and the slot invariant depends on it.
- Lexer.Display: the `fmt::Formatter` plumbing is left out; the result is the string written.
- `Token::new` and `Var::new` are the datatype constructors `Token` and `Var`.
- The process environment (`env::vars_os`) is not read. The constructor takes the inherited pairs as a parameter.
- `OsString`, `OsStr` and `Path` are plain strings.
- Environment.Environment.Home: the `expect("HOME required")` panic is a precondition instead.
- Environment.Environment.Assign, Environment.Environment.Export: value expansion (`crate::ast`) is not part of this model. It is passed in as a function from the expression and the table to a string or an error.
- Environment.Environment.IterExported: `HashMap` iteration order is not modelled. The result is a map from the exported names to their values.
