/**
  * What the msh lexer promises about the tokens it produces, proved about `Step`, `Scan` and
  * the stream `Tokens` they define.
  */
module LexerProperties {
  import opened Lexer

  /** A character `Scan` passes over without returning anything, given the last kind emitted. */
  predicate Skipped(c: char, last: Option<Kind>) {
    (IsWhitespace(c) && !IsLineTerminator(c)) || (IsLineTerminator(c) && last.None?)
  }

  /** The first index from `i` on where `Scan` stops skipping (the text's length if none). */
  function FirstSignificant(src: string, i: nat, last: Option<Kind>): (j: nat)
    requires i <= |src|
    ensures i <= j <= |src|
    ensures forall k :: i <= k < j ==> Skipped(src[k], last)
    ensures j == |src| || !Skipped(src[j], last)
    decreases |src| - i
  {
    if i < |src| && Skipped(src[i], last) then FirstSignificant(src, i + 1, last) else i
  }

  /** A word as the lexer delimits it: non-empty, no terminator or whitespace, no leading brace. */
  predicate CleanWord(w: string) {
    |w| > 0 && (forall k :: 0 <= k < |w| ==> IsWordChar(w[k])) && w[0] != '{' && w[0] != '}'
  }

  /** The lookahead slot holds nothing, or a `RightBrace` right after a `Semi`. */
  predicate SlotInv(s: State) {
    s.next.Some? ==> s.next == Some(RightBrace) && s.last == Some(Semi)
  }

  /**
    * Whitespace, and before the first token also line terminators, are passed over: a scan
    * behaves as if it started at the first significant character.
    */
  lemma {:induction false} ScanSkipsLeading(src: string, i: nat, last: Option<Kind>)
    requires i <= |src|
    ensures Scan(src, i, last) == Scan(src, FirstSignificant(src, i, last), last)
    decreases |src| - i
  {
    if i < |src| && Skipped(src[i], last) {
      ScanSkipsLeading(src, i + 1, last);
      if IsLineTerminator(src[i]) {
        if i + 1 < |src| && IsLineTerminator(src[i + 1]) {
          SkipTerminatorsUnique(src, i, SkipTerminators(src, i + 1));
        } else {
          SkipTerminatorsUnique(src, i, i + 1);
        }
      }
    }
  }

  /** A token returned by a scan becomes the last kind; a `RightBrace` only follows a `Semi`. */
  lemma ScanRecordsLast(src: string, i: nat, last: Option<Kind>)
    requires i <= |src|
    ensures Scan(src, i, last).0.Some? ==> Scan(src, i, last).1.last == Some(Scan(src, i, last).0.value.kind)
    ensures Scan(src, i, last).0.Some? && Scan(src, i, last).0.value.kind == RightBrace ==> last == Some(Semi)
  {
    ScanSkipsLeading(src, i, last);
  }

  /**
    * A scan returns nothing exactly when the last kind is `Semi` and only whitespace other
    * than `'\n'` is left (`Blanks`); it then leaves the state at the end of the text and otherwise unchanged.
    */
  lemma ScanEnd(src: string, i: nat, last: Option<Kind>)
    requires i <= |src|
    ensures Scan(src, i, last).0.None? <==> last == Some(Semi) && Blanks(src, i, |src|)
    ensures Scan(src, i, last).0.None? ==> Scan(src, i, last).1 == State(|src|, None, last)
  {
    ScanSkipsLeading(src, i, last);
  }

  /**
    * The lookahead slot is filled only by a `}` that does not follow a `Semi`: the scan then
    * returns the synthesized `Semi` and leaves `RightBrace` in the slot.
    */
  lemma ScanFillsSlot(src: string, i: nat, last: Option<Kind>)
    requires i <= |src|
    ensures var j := FirstSignificant(src, i, last);
      Scan(src, i, last).1.next.Some? <==> j < |src| && src[j] == '}' && last != Some(Semi)
    ensures Scan(src, i, last).1.next.Some? ==>
      Scan(src, i, last).1.next == Some(RightBrace) && Scan(src, i, last).0.Some? &&
      Scan(src, i, last).0.value.kind == Semi
  {
    ScanSkipsLeading(src, i, last);
  }

  /** Every word a scan returns is the maximal run of word characters at the first significant index. */
  lemma ScanWordClean(src: string, i: nat, last: Option<Kind>)
    requires i <= |src|
    ensures var r := Scan(src, i, last); var j := FirstSignificant(src, i, last);
      r.0.Some? && r.0.value.kind.Word? ==>
        CleanWord(r.0.value.kind.text) && j < |src| && r.0.value.kind.text == src[j..WordEnd(src, j)]
  {
    ScanSkipsLeading(src, i, last);
    var j := FirstSignificant(src, i, last);
    if j < |src| && IsWordChar(src[j]) {
      var w := src[j..WordEnd(src, j)];
      assert forall k :: 0 <= k < |w| ==> w[k] == src[j + k];
    }
  }

  /** A terminator that ends a word is not lost: the following call returns the `Semi` for it. */
  lemma TerminatorAfterWordKept(src: string, i: nat)
    requires i < |src| && IsWordChar(src[i]) && src[i] != '{' && src[i] != '}'
    requires WordEnd(src, i) < |src| && IsLineTerminator(src[WordEnd(src, i)])
    ensures Step(src, WordAt(src, i).1) == TerminatorRun(src, WordEnd(src, i))
  {
  }

  /**
    * The `Semi` for a run of terminators is tagged with the line of a `'\n'` that starts the
    * run, but with one less than the line of a `';'` that starts it.
    */
  lemma TerminatorRunLine(src: string, i: nat)
    requires i < |src| && IsLineTerminator(src[i])
    ensures TerminatorRun(src, i).0.value.line == if src[i] == '\n' then LineAt(src, i) else LineAt(src, i) - 1
  {
    LineAtNext(src, i);
  }

  /** One call keeps the lookahead invariant and records the kind it returns as the last kind. */
  lemma StepKeepsSlotInv(src: string, s: State)
    requires s.cursor <= |src| && SlotInv(s)
    ensures SlotInv(Step(src, s).1)
    ensures Step(src, s).0.Some? ==> Step(src, s).1.last == Some(Step(src, s).0.value.kind)
    ensures Step(src, s).0.Some? && Step(src, s).0.value.kind == RightBrace ==> s.last == Some(Semi)
  {
    if s.next.None? {
      ScanRecordsLast(src, s.cursor, s.last);
      ScanFillsSlot(src, s.cursor, s.last);
    }
  }

  /**
    * A pending kind is returned first, on the current line, and the slot is cleared without
    * reading anything.
    */
  lemma StepEmitsPending(src: string, s: State)
    requires s.cursor <= |src| && s.next.Some?
    ensures Step(src, s).0 == Some(Token(s.next.value, LineAt(src, s.cursor)))
    ensures Step(src, s).1 == State(s.cursor, None, s.next)
  {
  }

  /**
    * A call returns nothing exactly when the slot is empty, the last kind is `Semi` and only
    * whitespace other than `'\n'` is left (`Blanks`); once it has returned nothing it returns nothing again.
    */
  lemma StepEnd(src: string, s: State)
    requires s.cursor <= |src|
    ensures Step(src, s).0.None? <==> s.next.None? && s.last == Some(Semi) && Blanks(src, s.cursor, |src|)
    ensures Step(src, s).0.None? ==> Step(src, Step(src, s).1) == Step(src, s)
  {
    if s.next.None? {
      ScanEnd(src, s.cursor, s.last);
      if Step(src, s).0.None? {
        ScanEnd(src, |src|, s.last);
      }
    }
  }

  /** In the stream from a state that keeps the slot invariant, a `RightBrace` always follows a `Semi`. */
  lemma {:induction false} TokensRightBraceAfterSemi(src: string, s: State)
    requires s.cursor <= |src| && SlotInv(s)
    ensures var ts := Tokens(src, s);
      (|ts| > 0 && ts[0].kind == RightBrace ==> s.last == Some(Semi)) &&
      forall i :: 0 < i < |ts| && ts[i].kind == RightBrace ==> ts[i - 1].kind == Semi
    decreases Measure(src, s)
  {
    StepKeepsSlotInv(src, s);
    var (t, s') := Step(src, s);
    if t.Some? {
      StepDecreases(src, s);
      TokensRightBraceAfterSemi(src, s');
      var ts := Tokens(src, s);
      assert ts == [t.value] + Tokens(src, s');
      forall i | 0 < i < |ts| && ts[i].kind == RightBrace
        ensures ts[i - 1].kind == Semi
      {
        assert ts[i] == Tokens(src, s')[i - 1];
      }
    }
  }

  /** The stream is not over while a kind is pending or the last kind is not `Semi`, and it ends with a `Semi`. */
  lemma {:induction false} TokensEndWithSemi(src: string, s: State)
    requires s.cursor <= |src| && SlotInv(s)
    ensures var ts := Tokens(src, s);
      (s.next.Some? || s.last != Some(Semi) ==> |ts| > 0) &&
      (|ts| > 0 ==> ts[|ts| - 1].kind == Semi)
    decreases Measure(src, s)
  {
    StepKeepsSlotInv(src, s);
    StepEnd(src, s);
    var (t, s') := Step(src, s);
    if t.Some? {
      StepDecreases(src, s);
      TokensEndWithSemi(src, s');
      assert Tokens(src, s) == [t.value] + Tokens(src, s');
    }
  }

  /** Every word in the stream from a state that keeps the slot invariant is clean. */
  lemma {:induction false} TokensWordsClean(src: string, s: State)
    requires s.cursor <= |src| && SlotInv(s)
    ensures forall t :: t in Tokens(src, s) && t.kind.Word? ==> CleanWord(t.kind.text)
    decreases Measure(src, s)
  {
    StepKeepsSlotInv(src, s);
    var (t, s') := Step(src, s);
    if t.Some? {
      if s.next.None? {
        ScanWordClean(src, s.cursor, s.last);
      }
      StepDecreases(src, s);
      TokensWordsClean(src, s');
      assert Tokens(src, s) == [t.value] + Tokens(src, s');
    }
  }

  /** Every `RightBrace` of a lexed text comes right after a `Semi`, so never first. */
  lemma LexRightBraceAfterSemi(src: string)
    ensures forall i :: 0 <= i < |Lex(src)| && Lex(src)[i].kind == RightBrace ==> 0 < i && Lex(src)[i - 1].kind == Semi
  {
    TokensRightBraceAfterSemi(src, Start);
  }

  /** A lexed text, even the empty one, yields at least one token, and its last token is a `Semi`. */
  lemma LexEndsWithSemi(src: string)
    ensures |Lex(src)| > 0 && Lex(src)[|Lex(src)| - 1].kind == Semi
  {
    TokensEndWithSemi(src, Start);
  }

  /** Every word of a lexed text is non-empty, holds no terminator or whitespace and does not start with a brace. */
  lemma LexWordsClean(src: string)
    ensures forall t :: t in Lex(src) && t.kind.Word? ==> CleanWord(t.kind.text)
  {
    TokensWordsClean(src, Start);
  }

  /**
    * The first token comes from the first character that is neither whitespace nor a
    * terminator; it is a `Semi` exactly when there is no such character or it is a `}`.
    */
  lemma LexFirstToken(src: string)
    ensures var j := FirstSignificant(src, 0, None);
      |Lex(src)| > 0 && Some(Lex(src)[0]) == Scan(src, j, None).0 &&
      (Lex(src)[0].kind == Semi <==> j == |src| || src[j] == '}')
  {
    ScanSkipsLeading(src, 0, None);
    ScanEnd(src, 0, None);
  }

  /**
    * A text of nothing but whitespace and terminators, the empty text included, yields a
    * single `Semi` on its last line; any other text yields more than one token.
    */
  lemma LexSingleTokenIffBlank(src: string)
    ensures (forall k :: 0 <= k < |src| ==> !IsWordChar(src[k])) ==> Lex(src) == [Token(Semi, LineAt(src, |src|))]
    ensures |Lex(src)| == 1 <==> forall k :: 0 <= k < |src| ==> !IsWordChar(src[k])
  {
    var j := FirstSignificant(src, 0, None);
    ScanSkipsLeading(src, 0, None);
    var (t, s1) := Step(src, Start);
    StepKeepsSlotInv(src, Start);
    StepEnd(src, Start);
    StepDecreases(src, Start);
    assert Lex(src) == [t.value] + Tokens(src, s1);
    if j == |src| {
      assert s1 == State(|src|, None, Some(Semi));
      StepEnd(src, s1);
      assert Tokens(src, s1) == [];
    } else {
      assert IsWordChar(src[j]);
      TokensEndWithSemi(src, s1);
    }
  }
}

/**
  * Locality: one call of the iterator reads nothing before its cursor and nothing after the
  * last character it reads, so text before the cursor only moves positions and line numbers,
  * and text after that character is never looked at. The last character read is the one
  * before the resulting cursor when it closes the token by itself (a `}`, or the whitespace
  * after a word), and otherwise the one at the resulting cursor, which the lexer looks at
  * and pushes back.
  */
module LexerLocality {
  import opened Lexer

  /** A call's result as it reads after the prefix `p`: positions and lines moved on past `p`. */
  function Shift(r: (Option<Token>, State), p: string): (Option<Token>, State)
  {
    var dl := LineAt(p, |p|) - 1;
    (if r.0.Some? then Some(Token(r.0.value.kind, r.0.value.line + dl)) else None,
     State(r.1.cursor + |p|, r.1.next, r.1.last))
  }

  /** Lines after a prefix `p` continue from the line `p` ends on. */
  lemma {:induction false} LineAtAfter(p: string, w: string, x: nat)
    requires x <= |w|
    ensures LineAt(p + w, |p| + x) == LineAt(p, |p|) + LineAt(w, x) - 1
  {
    if x > 0 {
      LineAtAfter(p, w, x - 1);
      assert (p + w)[|p| + x - 1] == w[x - 1];
    } else {
      LineAtBefore(p, w, |p|);
    }
  }

  /** Lines before the end of `a` do not depend on what follows `a`. */
  lemma {:induction false} LineAtBefore(a: string, s: string, i: nat)
    requires i <= |a|
    ensures LineAt(a + s, i) == LineAt(a, i)
  {
    if i > 0 {
      LineAtBefore(a, s, i - 1);
      assert (a + s)[i - 1] == a[i - 1];
    }
  }

  lemma SkipTerminatorsAfter(p: string, w: string, x: nat)
    requires x <= |w|
    ensures SkipTerminators(p + w, |p| + x) == |p| + SkipTerminators(w, x)
  {
    assert forall k :: 0 <= k < |w| ==> (p + w)[|p| + k] == w[k];
    SkipTerminatorsUnique(p + w, |p| + x, |p| + SkipTerminators(w, x));
  }

  lemma WordEndAfter(p: string, w: string, x: nat)
    requires x <= |w|
    ensures WordEnd(p + w, |p| + x) == |p| + WordEnd(w, x)
    ensures (p + w)[|p| + x..|p| + WordEnd(w, x)] == w[x..WordEnd(w, x)]
  {
    assert forall k :: 0 <= k < |w| ==> (p + w)[|p| + k] == w[k];
    WordEndUnique(p + w, |p| + x, |p| + WordEnd(w, x));
  }

  lemma SkipTerminatorsBefore(a: string, s: string, i: nat)
    requires i <= |a| && SkipTerminators(a, i) < |a|
    ensures SkipTerminators(a + s, i) == SkipTerminators(a, i)
  {
    assert forall k :: 0 <= k < |a| ==> (a + s)[k] == a[k];
    SkipTerminatorsUnique(a + s, i, SkipTerminators(a, i));
  }

  lemma WordEndBefore(a: string, s: string, i: nat)
    requires i <= |a| && WordEnd(a, i) < |a|
    ensures WordEnd(a + s, i) == WordEnd(a, i)
    ensures (a + s)[i..WordEnd(a, i)] == a[i..WordEnd(a, i)]
  {
    assert forall k :: 0 <= k < |a| ==> (a + s)[k] == a[k];
    WordEndUnique(a + s, i, WordEnd(a, i));
  }

  lemma OpenBraceAfter(p: string, w: string, c: nat)
    requires c < |w|
    ensures OpenBrace(p + w, |p| + c) == Shift(OpenBrace(w, c), p)
  {
    LineAtAfter(p, w, c);
    SkipTerminatorsAfter(p, w, c + 1);
  }

  lemma CloseBraceAfter(p: string, w: string, c: nat, last: Option<Kind>)
    requires c < |w|
    ensures CloseBrace(p + w, |p| + c, last) == Shift(CloseBrace(w, c, last), p)
  {
    LineAtAfter(p, w, c);
  }

  lemma TerminatorRunAfter(p: string, w: string, c: nat)
    requires c < |w|
    ensures TerminatorRun(p + w, |p| + c) == Shift(TerminatorRun(w, c), p)
  {
    LineAtAfter(p, w, c + 1);
    SkipTerminatorsAfter(p, w, c);
  }

  lemma WordAtAfter(p: string, w: string, c: nat)
    requires c < |w|
    ensures WordAt(p + w, |p| + c) == Shift(WordAt(w, c), p)
  {
    LineAtAfter(p, w, c);
    WordEndAfter(p, w, c);
    var e := WordEnd(w, c);
    if e < |w| {
      assert (p + w)[|p| + e] == w[e];
    }
  }

  lemma EndOfInputAfter(p: string, w: string, last: Option<Kind>)
    ensures EndOfInput(p + w, last) == Shift(EndOfInput(w, last), p)
  {
    LineAtAfter(p, w, |w|);
  }

  /** Scanning after a prefix `p` is scanning the rest alone, moved by `|p|` and by the lines of `p`. */
  lemma {:induction false} ScanAfter(p: string, w: string, c: nat, last: Option<Kind>)
    requires c <= |w|
    ensures Scan(p + w, |p| + c, last) == Shift(Scan(w, c, last), p)
    decreases |w| - c
  {
    if c == |w| {
      EndOfInputAfter(p, w, last);
    } else {
      assert (p + w)[|p| + c] == w[c];
      if w[c] == '{' {
        OpenBraceAfter(p, w, c);
      } else if w[c] == '}' {
        CloseBraceAfter(p, w, c, last);
      } else if IsLineTerminator(w[c]) {
        if last.None? {
          SkipTerminatorsAfter(p, w, c);
          ScanAfter(p, w, SkipTerminators(w, c), None);
        } else {
          TerminatorRunAfter(p, w, c);
        }
      } else if IsWhitespace(w[c]) {
        ScanAfter(p, w, c + 1, last);
      } else {
        WordAtAfter(p, w, c);
      }
    }
  }

  lemma OpenBraceBefore(a: string, s: string, i: nat)
    requires i < |a| && SkipTerminators(a, i + 1) < |a|
    ensures OpenBrace(a + s, i) == OpenBrace(a, i)
  {
    LineAtBefore(a, s, i);
    SkipTerminatorsBefore(a, s, i + 1);
  }

  lemma CloseBraceBefore(a: string, s: string, i: nat, last: Option<Kind>)
    requires i < |a|
    ensures CloseBrace(a + s, i, last) == CloseBrace(a, i, last)
  {
    LineAtBefore(a, s, i);
  }

  lemma TerminatorRunBefore(a: string, s: string, i: nat)
    requires i < |a| && SkipTerminators(a, i) < |a|
    ensures TerminatorRun(a + s, i) == TerminatorRun(a, i)
  {
    LineAtBefore(a, s, i + 1);
    SkipTerminatorsBefore(a, s, i);
  }

  lemma WordAtBefore(a: string, s: string, i: nat)
    requires i < |a| && WordEnd(a, i) < |a|
    ensures WordAt(a + s, i) == WordAt(a, i)
  {
    LineAtBefore(a, s, i);
    WordEndBefore(a, s, i);
    var e := WordEnd(a, i);
    assert (a + s)[e] == a[e];
  }

  /**
    * The scan from `i` reads nothing beyond `a`: it stops before the end of `a`, or the last
    * character it reads is the `}` or the whitespace after a word just before the cursor.
    */
  predicate ReadsWithin(a: string, i: nat, last: Option<Kind>)
    requires i <= |a|
  {
    var r := Scan(a, i, last);
    r.1.cursor < |a| ||
    (r.0.Some? && 0 < r.1.cursor &&
     (r.0.value.kind == RightBrace || r.1.next.Some? ||
      (r.0.value.kind.Word? && IsWhitespace(a[r.1.cursor - 1]))))
  }

  /**
    * Scanning does not look past the last character it reads: text appended after it
    * changes nothing.
    */
  lemma {:induction false} ScanBefore(a: string, s: string, i: nat, last: Option<Kind>)
    requires i <= |a| && ReadsWithin(a, i, last)
    ensures Scan(a + s, i, last) == Scan(a, i, last)
    decreases |a| - i
  {
    assert i < |a|;
    assert (a + s)[i] == a[i];
    if a[i] == '{' {
      OpenBraceBefore(a, s, i);
    } else if a[i] == '}' {
      CloseBraceBefore(a, s, i, last);
    } else if IsLineTerminator(a[i]) {
      if last.None? {
        ScanBefore(a, s, SkipTerminators(a, i), None);
        SkipTerminatorsBefore(a, s, i);
      } else {
        TerminatorRunBefore(a, s, i);
      }
    } else if IsWhitespace(a[i]) {
      ScanBefore(a, s, i + 1, last);
    } else {
      WordAtBefore(a, s, i);
    }
  }

  /**
    * A word closed by a whitespace character is read up to and including that character:
    * whatever follows does not change the call.
    */
  lemma WordThenBlank(w: string, c: char, s: string, last: Option<Kind>)
    requires 0 < |w| && w[0] != '{' && w[0] != '}'
    requires forall k :: 0 <= k < |w| ==> IsWordChar(w[k])
    requires IsWhitespace(c) && !IsLineTerminator(c)
    ensures Scan(w + [c] + s, 0, last) == Scan(w + [c], 0, last)
  {
    var a := w + [c];
    WordEndUnique(a, 0, |w|);
    assert ReadsWithin(a, 0, last);
    ScanBefore(a, s, 0, last);
  }

  /** A scan inside the window `w` of `p + w + s` that ends inside `w` or at the end of the text. */
  lemma ScanInWindow(p: string, w: string, s: string, c: nat, last: Option<Kind>)
    requires c <= |w| && (Scan(w, c, last).1.cursor < |w| || s == [])
    ensures Scan(p + w + s, |p| + c, last) == Shift(Scan(w, c, last), p)
  {
    ScanAfter(p, w, c, last);
    if s == [] {
      assert p + w + s == p + w;
    } else {
      ScanBefore(p + w, s, |p| + c, last);
    }
  }

  /**
    * One call at position `c` of a window `w` of the text `p + w + s`, when the token ends
    * inside the window or the window runs to the end of the text.
    */
  lemma StepInWindow(p: string, w: string, s: string, st: State)
    requires st.cursor <= |w| && (Step(w, st).1.cursor < |w| || s == [])
    ensures Step(p + w + s, State(|p| + st.cursor, st.next, st.last)) == Shift(Step(w, st), p)
  {
    if st.next.None? {
      ScanInWindow(p, w, s, st.cursor, st.last);
    } else {
      LineAtBefore(p + w, s, |p| + st.cursor);
      LineAtAfter(p, w, st.cursor);
    }
  }
}
