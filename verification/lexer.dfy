/**
  * The msh lexer (src/lexer.rs): a pull-based automaton that turns shell source text
  * into `Word`, `LeftBrace`, `RightBrace` and `Semi` tokens, each tagged with a line.
  *
  * The pure part of this module says what one call of the iterator does (`Step`) on an
  * abstract state: a cursor into the text, the one-kind lookahead slot and the kind of the
  * last token emitted. The line counter is not part of that state: it is always the line
  * the cursor is on (`LineAt`). The class `Lexer` keeps the source's own fields (line
  * counter, one-character pushback slot, lookahead slot, last kind) and updates them in
  * place; its `Next` method is proved to do exactly what `Step` says.
  */
module Lexer {

  datatype Option<T> = None | Some(value: T)

  datatype Kind = Word(text: string) | LeftBrace | RightBrace | Semi

  datatype Token = Token(kind: Kind, line: nat)

  /**
    * `'\n'` or `';'`. Neither is a brace, and only `'\n'` is also whitespace, which is why the
    * terminator test comes before the whitespace test in the character loop.
    */
  predicate IsLineTerminator(c: char)
    ensures IsLineTerminator(c) ==> c != '{' && c != '}' && (IsWhitespace(c) <==> c == '\n')
  {
    c == '\n' || c == ';'
  }

  /** Rust's `char::is_whitespace`: the characters with the Unicode White_Space property. */
  predicate IsWhitespace(c: char) {
    ('\t' <= c <= '\r') || c == ' ' || c == '\U{85}' || c == '\U{A0}' || c == '\U{1680}'
    || ('\U{2000}' <= c <= '\U{200A}') || c == '\U{2028}' || c == '\U{2029}'
    || c == '\U{202F}' || c == '\U{205F}' || c == '\U{3000}'
  }

  /** A character that ends neither a word nor a statement: it is appended to a word. */
  predicate IsWordChar(c: char) {
    !IsLineTerminator(c) && !IsWhitespace(c)
  }

  /** The quoted spelling used when a kind is displayed (`Display for Kind`). */
  function Display(k: Kind): (r: string)
    ensures |r| >= 2 && r[0] == '\'' && r[|r| - 1] == '\''
    ensures k.Word? ==> r[1..|r| - 1] == k.text
    ensures !k.Word? ==> |r| == 3
    ensures k == LeftBrace ==> r[1] == '{'
    ensures k == RightBrace ==> r[1] == '}'
    ensures k == Semi ==> r[1] == ';'
  {
    var s := match k
      case Word(w) => w
      case LeftBrace => "{"
      case RightBrace => "}"
      case Semi => ";";
    "'" + s + "'"
  }

  /** The 1-based line that position `i` of `src` is on: one more than the newlines before it. */
  function LineAt(src: string, i: nat): (n: nat)
    requires i <= |src|
    ensures 1 <= n <= i + 1
  {
    if i == 0 then 1 else LineAt(src, i - 1) + (if src[i - 1] == '\n' then 1 else 0)
  }

  lemma LineAtNext(src: string, i: nat)
    requires i < |src|
    ensures LineAt(src, i + 1) == LineAt(src, i) + (if src[i] == '\n' then 1 else 0)
  {
  }

  /** End of the maximal run of line terminators that starts at `i`. */
  function SkipTerminators(src: string, i: nat): (j: nat)
    requires i <= |src|
    ensures i <= j <= |src|
    ensures forall k :: i <= k < j ==> IsLineTerminator(src[k])
    ensures j == |src| || !IsLineTerminator(src[j])
    decreases |src| - i
  {
    if i < |src| && IsLineTerminator(src[i]) then SkipTerminators(src, i + 1) else i
  }

  /** End of the maximal run of word characters that starts at `i`. */
  function WordEnd(src: string, i: nat): (j: nat)
    requires i <= |src|
    ensures i <= j <= |src|
    ensures forall k :: i <= k < j ==> IsWordChar(src[k])
    ensures j == |src| || !IsWordChar(src[j])
    decreases |src| - i
  {
    if i < |src| && IsWordChar(src[i]) then WordEnd(src, i + 1) else i
  }

  /**
    * The lexer state between two calls: `cursor` is the index of the next character to be
    * read (a pushed-back character counts as unread), `next` the lookahead slot, `last` the
    * kind of the last token emitted.
    */
  datatype State = State(cursor: nat, next: Option<Kind>, last: Option<Kind>)

  const Start := State(0, None, None)

  /** One call of the iterator on `src`: the token it returns (if any) and the new state. */
  function Step(src: string, s: State): (r: (Option<Token>, State))
    requires s.cursor <= |src|
    ensures s.cursor <= r.1.cursor <= |src|
  {
    if s.next.Some? then
      // A pending kind is emitted first, on the current line, and the slot is cleared.
      (Some(Token(s.next.value, LineAt(src, s.cursor))), State(s.cursor, None, s.next))
    else
      Scan(src, s.cursor, s.last)
  }

  /**
    * The character loop of one call, with an empty word buffer, reading from index `i`;
    * `last` is the kind of the last token emitted.
    */
  function Scan(src: string, i: nat, last: Option<Kind>): (r: (Option<Token>, State))
    requires i <= |src|
    ensures i <= r.1.cursor <= |src|
    decreases |src| - i
  {
    if i == |src| then EndOfInput(src, last)
    else if src[i] == '{' then OpenBrace(src, i)
    else if src[i] == '}' then CloseBrace(src, i, last)
    else if IsLineTerminator(src[i]) then
      // Leading delimiters are not emitted.
      if last.None? then Scan(src, SkipTerminators(src, i), None) else TerminatorRun(src, i)
    else if IsWhitespace(src[i]) then Scan(src, i + 1, last)
    else WordAt(src, i)
  }

  /** Input exhausted with an empty buffer: one trailing `Semi`, unless the last kind was `Semi`. */
  function EndOfInput(src: string, last: Option<Kind>): (r: (Option<Token>, State))
    ensures r.0.None? <==> last == Some(Semi)
    ensures r.0.Some? ==> r.0.value == Token(Semi, LineAt(src, |src|))
    ensures r.1.cursor == |src| && r.1.next.None? && r.1.last == Some(Semi)
  {
    if last == Some(Semi) then (None, State(|src|, None, last))
    else (Some(Token(Semi, LineAt(src, |src|))), State(|src|, None, Some(Semi)))
  }

  /** `{` at `i`: `LeftBrace` on the brace's line; the terminators right after it are swallowed. */
  function OpenBrace(src: string, i: nat): (r: (Option<Token>, State))
    requires i < |src|
    ensures r.0 == Some(Token(LeftBrace, LineAt(src, i))) && r.1.next.None? && r.1.last == Some(LeftBrace)
    ensures i < r.1.cursor <= |src| && forall k :: i < k < r.1.cursor ==> IsLineTerminator(src[k])
    ensures r.1.cursor == |src| || !IsLineTerminator(src[r.1.cursor])
  {
    (Some(Token(LeftBrace, LineAt(src, i))), State(SkipTerminators(src, i + 1), None, Some(LeftBrace)))
  }

  /** `}` at `i`: a `Semi` first, with `RightBrace` left in the slot, unless the last kind was `Semi`. */
  function CloseBrace(src: string, i: nat, last: Option<Kind>): (r: (Option<Token>, State))
    requires i < |src|
    ensures r.0.Some? && r.0.value.line == LineAt(src, i) && r.1.cursor == i + 1
    ensures r.0.value.kind == RightBrace <==> last == Some(Semi)
    ensures r.0.value.kind != RightBrace ==> r.0.value.kind == Semi && r.1.next == Some(RightBrace)
    ensures r.0.value.kind == RightBrace ==> r.1.next.None?
    ensures r.1.last == Some(r.0.value.kind)
  {
    if last != Some(Semi) then (Some(Token(Semi, LineAt(src, i))), State(i + 1, Some(RightBrace), Some(Semi)))
    else (Some(Token(RightBrace, LineAt(src, i))), State(i + 1, None, Some(RightBrace)))
  }

  /**
    * A run of terminators starting at `i` after some token: one `Semi`, tagged one less than
    * the line counter after reading the run's first character.
    */
  function TerminatorRun(src: string, i: nat): (r: (Option<Token>, State))
    requires i < |src|
    ensures r.0.Some? && r.0.value.kind == Semi && r.1.next.None? && r.1.last == Some(Semi)
    ensures i <= r.1.cursor <= |src| && forall k :: i <= k < r.1.cursor ==> IsLineTerminator(src[k])
    ensures r.1.cursor == |src| || !IsLineTerminator(src[r.1.cursor])
  {
    (Some(Token(Semi, LineAt(src, i + 1) - 1)), State(SkipTerminators(src, i), None, Some(Semi)))
  }

  /**
    * A word starting at `i`: it runs to the next terminator (left unread), whitespace
    * character (consumed) or the end of the text.
    */
  function WordAt(src: string, i: nat): (r: (Option<Token>, State))
    requires i <= |src|
    ensures r.0.Some? && r.0.value.kind.Word? && r.0.value.line == LineAt(src, i)
    ensures r.1.next.None? && r.1.last == Some(r.0.value.kind)
    ensures var j := i + |r.0.value.kind.text|;
      j <= |src| && r.0.value.kind.text == src[i..j] &&
      (forall k :: i <= k < j ==> IsWordChar(src[k])) && (j == |src| || !IsWordChar(src[j])) &&
      (j == |src| || IsLineTerminator(src[j]) ==> r.1.cursor == j) &&
      (j < |src| && !IsLineTerminator(src[j]) ==> r.1.cursor == j + 1 && IsWhitespace(src[j]))
  {
    var j := WordEnd(src, i);
    var k := if j < |src| && !IsLineTerminator(src[j]) then j + 1 else j;
    (Some(Token(Word(src[i..j]), LineAt(src, i))), State(k, None, Some(Word(src[i..j]))))
  }

  /** Amount of work left: it drops with every token `Step` returns. */
  function Measure(src: string, s: State): nat
    requires s.cursor <= |src|
  {
    3 * (|src| - s.cursor) + (if s.next.Some? then 2 else 0) + (if s.last == Some(Semi) then 0 else 1)
  }

  lemma StepDecreases(src: string, s: State)
    requires s.cursor <= |src|
    requires Step(src, s).0.Some?
    ensures Measure(src, Step(src, s).1) < Measure(src, s)
  {
    if s.next.None? {
      ScanDecreases(src, s.cursor, s.last);
    }
  }

  lemma {:induction false} ScanDecreases(src: string, i: nat, last: Option<Kind>)
    requires i <= |src|
    requires Scan(src, i, last).0.Some?
    ensures Measure(src, Scan(src, i, last).1) < Measure(src, State(i, None, last))
    decreases |src| - i
  {
    if i < |src| && src[i] != '{' && src[i] != '}' {
      if IsLineTerminator(src[i]) && last.None? {
        ScanDecreases(src, SkipTerminators(src, i), None);
      } else if !IsLineTerminator(src[i]) && IsWhitespace(src[i]) {
        ScanDecreases(src, i + 1, last);
      }
    }
  }

  /** Every token the iterator yields from state `s` until it returns `None`. */
  function Tokens(src: string, s: State): (ts: seq<Token>)
    requires s.cursor <= |src|
    ensures |ts| <= Measure(src, s)
    decreases Measure(src, s)
  {
    var (t, s') := Step(src, s);
    if t.None? then []
    else
      StepDecreases(src, s);
      [t.value] + Tokens(src, s')
  }

  /** The whole token stream of `src` (collecting `Lexer::new(src)`). */
  function Lex(src: string): (ts: seq<Token>)
    ensures |ts| <= 3 * |src| + 1
  {
    Tokens(src, Start)
  }

  class Lexer {
    const src: string
    var pos: nat
    var line: nat
    var peek: Option<char>
    var next: Option<Kind>
    var last: Option<Kind>

    /** `pos` counts the characters taken from the text; a pushed-back one is the last of them. */
    ghost predicate Valid()
      reads this
    {
      pos <= |src| &&
      (peek.Some? ==> 0 < pos && peek.value == src[pos - 1]) &&
      line == LineAt(src, Cursor())
    }

    /** Index of the next character `NextChar` returns. */
    ghost function Cursor(): nat
      reads this
      requires pos <= |src| && (peek.Some? ==> 0 < pos)
    {
      if peek.Some? then pos - 1 else pos
    }

    ghost function Abs(): State
      reads this
      requires Valid()
    {
      State(Cursor(), next, last)
    }

    constructor (input: string)
      ensures Valid() && src == input
      ensures line == 1 && peek.None? && Abs() == Start
    {
      src := input;
      pos := 0;
      line := 1;
      peek := None;
      next := None;
      last := None;
    }

    /** Records `kind` as the last kind and tags it with `at`, or with the current line. */
    method Emit(kind: Kind, at: Option<nat>) returns (t: Option<Token>)
      modifies this`last
      ensures last == Some(kind)
      ensures t == Some(Token(kind, if at.Some? then at.value else line))
    {
      last := Some(kind);
      t := Some(Token(kind, if at.Some? then at.value else line));
    }

    method NextChar() returns (c: Option<char>)
      requires Valid()
      modifies this`pos, this`line, this`peek
      ensures Valid() && peek.None?
      ensures old(Cursor()) < |src| ==> c == Some(src[old(Cursor())]) && Cursor() == old(Cursor()) + 1
      ensures old(Cursor()) == |src| ==> c.None? && Cursor() == |src|
      ensures line == old(line) + (if c == Some('\n') then 1 else 0)
    {
      if peek.Some? {
        c := peek;
        peek := None;
      } else if pos < |src| {
        c := Some(src[pos]);
        pos := pos + 1;
      } else {
        c := None;
      }
      if c == Some('\n') {
        line := line + 1;
      }
      if c.Some? {
        LineAtNext(src, pos - 1);
      }
    }

    method PushChar(c: char)
      requires Valid() && peek.None?
      requires 0 < pos && c == src[pos - 1]
      modifies this`line, this`peek
      ensures Valid() && peek == Some(c)
      ensures Cursor() == old(Cursor()) - 1
      ensures line == old(line) - (if c == '\n' then 1 else 0)
    {
      LineAtNext(src, pos - 1);
      if c == '\n' {
        line := line - 1;
      }
      peek := Some(c);
    }

    /** Pushing back the character just read and reading again gives it back and restores the state. */
    method PushCharThenNextChar(c: char) returns (d: Option<char>)
      requires Valid() && peek.None? && 0 < pos && c == src[pos - 1]
      modifies this`line, this`peek, this`pos
      ensures Valid() && d == Some(c)
      ensures line == old(line) && Cursor() == old(Cursor()) && peek.None? && pos == old(pos)
    {
      PushChar(c);
      d := NextChar();
    }

    /** Swallows a maximal run of line terminators; returns the line counter as it was on entry. */
    method ConsumeLineTerminators() returns (l: nat)
      requires Valid()
      modifies this`pos, this`line, this`peek
      ensures Valid() && l == old(line)
      ensures Cursor() == SkipTerminators(src, old(Cursor()))
      ensures peek.Some? <==> Cursor() < |src|
    {
      l := line;
      ghost var i0 := Cursor();
      var c := NextChar();
      while c.Some?
        invariant Valid() && peek.None?
        invariant c.Some? ==> i0 < Cursor() && c.value == src[Cursor() - 1]
        invariant c.None? ==> Cursor() == |src|
        invariant forall k :: i0 <= k < Cursor() - (if c.Some? then 1 else 0) ==> IsLineTerminator(src[k])
        decreases |src| - Cursor() + (if c.Some? then 1 else 0)
      {
        if !IsLineTerminator(c.value) {
          PushChar(c.value);
          break;
        }
        c := NextChar();
      }
      SkipTerminatorsUnique(src, i0, Cursor());
    }

    /** The `{` rule of `next`, once the brace at `p` has been read. */
    method LeftBraceRule(ghost from: nat, ghost p: nat) returns (t: Option<Token>)
      requires Valid() && peek.None? && next.None?
      requires from <= p < |src| && Blanks(src, from, p) && src[p] == '{' && Cursor() == p + 1
      modifies this`pos, this`line, this`peek, this`last
      ensures Valid() && (t, Abs()) == OpenBrace(src, p) == Scan(src, from, old(last))
    {
      ScanSkipsBlanks(src, last, from, p);
      LineAtNext(src, p);
      var l := ConsumeLineTerminators();
      t := Emit(LeftBrace, Some(l));
    }

    /** The `}` rule of `next`, once the brace at `p` has been read. */
    method RightBraceRule(ghost from: nat, ghost p: nat) returns (t: Option<Token>)
      requires Valid() && peek.None? && next.None?
      requires from <= p < |src| && Blanks(src, from, p) && src[p] == '}' && Cursor() == p + 1
      modifies this`next, this`last
      ensures Valid() && (t, Abs()) == CloseBrace(src, p, old(last)) == Scan(src, from, old(last))
    {
      ScanSkipsBlanks(src, last, from, p);
      LineAtNext(src, p);
      var kind;
      if last != Some(Semi) {
        next := Some(RightBrace);
        kind := Semi;
      } else {
        kind := RightBrace;
      }
      t := Emit(kind, None);
    }

    /** A run of terminators after some token, once its first character (at `p`) has been read. */
    method TerminatorRule(ghost from: nat, ghost p: nat) returns (t: Option<Token>)
      requires Valid() && peek.None? && next.None? && last.Some?
      requires from <= p < |src| && Blanks(src, from, p) && IsLineTerminator(src[p]) && Cursor() == p + 1
      modifies this`pos, this`line, this`peek, this`last
      ensures Valid() && (t, Abs()) == TerminatorRun(src, p) == Scan(src, from, old(last))
    {
      ScanSkipsBlanks(src, last, from, p);
      SkipTerminatorsUnique(src, p, SkipTerminators(src, p + 1));
      var l := ConsumeLineTerminators();
      t := Emit(Semi, Some(l - 1));
    }

    /**
      * A run of terminators before any token, once its first character (at `p`) has been
      * read: it is swallowed and `next` starts over.
      */
    method LeadingTerminatorRule(ghost from: nat, ghost p: nat) returns (t: Option<Token>)
      requires Valid() && peek.None? && next.None? && last.None?
      requires from <= p < |src| && Blanks(src, from, p) && IsLineTerminator(src[p]) && Cursor() == p + 1
      modifies this`pos, this`line, this`peek, this`next, this`last
      ensures Valid() && (t, Abs()) == Scan(src, from, None)
      decreases |src| - p, 0
    {
      ScanSkipsBlanks(src, None, from, p);
      SkipTerminatorsUnique(src, p, SkipTerminators(src, p + 1));
      var _ := ConsumeLineTerminators();
      t := Next();
    }

    /** Input exhausted with an empty buffer. */
    method EndRule(ghost from: nat) returns (t: Option<Token>)
      requires Valid() && peek.None? && next.None? && Cursor() == |src|
      requires from <= |src| && Blanks(src, from, |src|)
      modifies this`last
      ensures Valid() && (t, Abs()) == EndOfInput(src, old(last)) == Scan(src, from, old(last))
    {
      ScanSkipsBlanks(src, last, from, |src|);
      if last == Some(Semi) {
        t := None;
      } else {
        t := Emit(Semi, None);
      }
    }

    /**
      * The word rule of `next`, once the word's first character (at `wstart`) has been read:
      * the rest of the word is read into the buffer and the word is emitted.
      */
    method WordRule(first: char, ghost from: nat, ghost wstart: nat) returns (t: Option<Token>)
      requires Valid() && peek.None? && next.None?
      requires from <= wstart < |src| && Blanks(src, from, wstart) && Cursor() == wstart + 1
      requires first == src[wstart] && IsWordChar(first) && first != '{' && first != '}'
      modifies this`pos, this`line, this`peek, this`last
      ensures Valid() && (t, Abs()) == WordAt(src, wstart) == Scan(src, from, old(last))
    {
      var buf := ReadWord(first, wstart);
      ScanSkipsBlanks(src, last, from, wstart);
      t := Emit(Word(buf), None);
    }

    /**
      * Reads the rest of the word whose first character (at `wstart`) has been read. The
      * character that ends it is left unread if it is a terminator and consumed if it is
      * whitespace.
      */
    method ReadWord(first: char, ghost wstart: nat) returns (buf: string)
      requires Valid() && peek.None?
      requires wstart < |src| && Cursor() == wstart + 1 && first == src[wstart] && IsWordChar(first)
      modifies this`pos, this`line, this`peek
      ensures Valid() && buf == src[wstart..WordEnd(src, wstart)]
      ensures Cursor() == WordAt(src, wstart).1.cursor
      ensures line == LineAt(src, wstart)
    {
      LineAtNext(src, wstart);
      buf := [first];
      // `p` is the index of `c` in the text (the text's length once it is exhausted).
      ghost var p: nat := wstart + 1;
      var c := NextChar();
      while c.Some?
        invariant Valid() && peek.None?
        invariant wstart < p <= |src| && buf == src[wstart..p]
        invariant c.Some? ==> p < |src| && Cursor() == p + 1 && c.value == src[p]
        invariant c.None? ==> p == |src| && Cursor() == |src|
        invariant forall k :: wstart <= k < p ==> IsWordChar(src[k])
        invariant LineAt(src, p) == LineAt(src, wstart)
        decreases |src| - p
      {
        var ch := c.value;
        if IsLineTerminator(ch) {
          PushChar(ch);
          break;
        }
        LineAtNext(src, p);
        if IsWhitespace(ch) {
          // At the end of the word.
          break;
        }
        assert IsWordChar(src[p]);
        buf := buf + [ch];
        c := NextChar();
        p := p + 1;
      }
      WordEndUnique(src, wstart, p);
    }

    /** `Iterator::next`: the next token, or `None` once the stream is over. */
    method Next() returns (t: Option<Token>)
      requires Valid()
      modifies this`pos, this`line, this`peek, this`next, this`last
      ensures Valid()
      ensures (t, Abs()) == Step(src, old(Abs()))
      decreases |src| - Cursor(), 2
    {
      if next.Some? {
        var kind := next.value;
        next := None;
        t := Emit(kind, None);
        return;
      }
      t := ScanToken();
    }

    /** Collects the iterator (`Lexer::new(src).collect()`): every token up to the first `None`. */
    method Collect() returns (ts: seq<Token>)
      requires Valid()
      modifies this`pos, this`line, this`peek, this`next, this`last
      ensures Valid() && ts == Tokens(src, old(Abs()))
    {
      ts := [];
      ghost var s := Abs();
      var t := Next();
      while t.Some?
        invariant Valid() && s.cursor <= |src|
        invariant (t, Abs()) == Step(src, s)
        invariant ts + Tokens(src, s) == Tokens(src, old(Abs()))
        decreases Measure(src, s)
      {
        StepDecreases(src, s);
        ts := ts + [t.value];
        s := Abs();
        t := Next();
      }
    }

    /**
      * The character loop of `next`, entered with an empty lookahead slot, up to the first
      * character that is not skipped whitespace; `WordRule` goes on from a word's first
      * character.
      */
    method ScanToken() returns (t: Option<Token>)
      requires Valid() && next.None?
      modifies this`pos, this`line, this`peek, this`next, this`last
      ensures Valid()
      ensures (t, Abs()) == Scan(src, old(Cursor()), old(last))
      decreases |src| - Cursor(), 1
    {
      ghost var from := Cursor();
      // `p` is the index of `c` in the text (the text's length once it is exhausted).
      ghost var p: nat := from;
      var c := NextChar();
      while c.Some?
        invariant Valid() && peek.None? && next.None? && last == old(last)
        invariant from <= p <= |src| && Blanks(src, from, p)
        invariant c.Some? ==> p < |src| && Cursor() == p + 1 && c.value == src[p]
        invariant c.None? ==> p == |src| && Cursor() == |src|
        decreases |src| - p
      {
        var ch := c.value;
        if ch == '{' {
          t := LeftBraceRule(from, p);
          return;
        }
        if ch == '}' {
          t := RightBraceRule(from, p);
          return;
        }
        if IsLineTerminator(ch) {
          if last.None? {
            t := LeadingTerminatorRule(from, p);
          } else {
            t := TerminatorRule(from, p);
          }
          return;
        }
        if !IsWhitespace(ch) {
          t := WordRule(ch, from, p);
          return;
        }
        // Whitespace before a token is skipped.
        c := NextChar();
        p := p + 1;
      }
      t := EndRule(from);
    }
  }

  /** Every character of `src[i..j]` is skipped as whitespace between tokens. */
  ghost predicate Blanks(src: string, i: nat, j: nat)
    requires i <= j <= |src|
  {
    forall k :: i <= k < j ==> IsWhitespace(src[k]) && !IsLineTerminator(src[k])
  }

  lemma {:induction false} ScanSkipsBlanks(src: string, last: Option<Kind>, i: nat, j: nat)
    requires i <= j <= |src| && Blanks(src, i, j)
    ensures Scan(src, i, last) == Scan(src, j, last)
    decreases j - i
  {
    if i < j {
      ScanSkipsBlanks(src, last, i + 1, j);
    }
  }

  lemma SkipTerminatorsUnique(src: string, i: nat, j: nat)
    requires i <= j <= |src|
    requires forall k :: i <= k < j ==> IsLineTerminator(src[k])
    requires j == |src| || !IsLineTerminator(src[j])
    ensures SkipTerminators(src, i) == j
  {
  }

  lemma WordEndUnique(src: string, i: nat, j: nat)
    requires i <= j <= |src|
    requires forall k :: i <= k < j ==> IsWordChar(src[k])
    requires j == |src| || !IsWordChar(src[j])
    ensures WordEnd(src, i) == j
  {
  }
}
