/**
  * The token streams the msh lexer's own tests expect (src/lexer.rs:166-270), and two more
  * texts that show how the lexer treats stray terminators and a lone `}`, proved about `Lex`.
  *
  * Each stream is taken apart one call of the iterator at a time: `WordStep` and the other
  * step lemmas turn a few facts about the characters at hand into the value of `Step`, and
  * `TokensCons` adds the token to the stream. The multi-line text is a list of lines; each
  * of its calls is worked out on the two lines around the cursor (`StepInWindow`), and the
  * lines before them only add their length to the positions and their count to the lines.
  */
module LexerVectors {
  import opened Lexer
  import opened LexerLocality

  lemma TokensCons(src: string, s: State, t: Token, s': State)
    requires s.cursor <= |src| && Step(src, s) == (Some(t), s')
    ensures Tokens(src, s) == [t] + Tokens(src, s')
  {
  }

  lemma TokensNil(src: string, s: State)
    requires s.cursor <= |src| && Step(src, s).0.None?
    ensures Tokens(src, s) == []
  {
  }

  /** Lines do not change over a stretch without `'\n'`. */
  lemma {:induction false} LineAtNoNewline(src: string, a: nat, b: nat)
    requires a <= b <= |src|
    requires forall k :: a <= k < b ==> src[k] != '\n'
    ensures LineAt(src, b) == LineAt(src, a)
    decreases b - a
  {
    if a < b {
      LineAtNoNewline(src, a, b - 1);
    }
  }

  /** The call that reads the word `w`, found at `j` after the blanks from the cursor. */
  lemma WordStep(src: string, s: State, j: nat, w: string)
    requires s.cursor <= j && j + |w| <= |src| && s.next.None? && Blanks(src, s.cursor, j)
    requires 0 < |w| && w[0] != '{' && w[0] != '}'
    requires src[j..j + |w|] == w && forall k :: 0 <= k < |w| ==> IsWordChar(w[k])
    requires j + |w| == |src| || !IsWordChar(src[j + |w|])
    ensures Step(src, s) == (Some(Token(Word(w), LineAt(src, j))),
                             State(if j + |w| < |src| && !IsLineTerminator(src[j + |w|]) then j + |w| + 1 else j + |w|, None, Some(Word(w))))
  {
    assert forall k :: j <= k < j + |w| ==> src[k] == w[k - j];
    ScanSkipsBlanks(src, s.last, s.cursor, j);
    assert Scan(src, j, s.last) == WordAt(src, j);
    WordAtEnd(src, j, j + |w|);
  }

  /** The word read from `j` ends at `e` when `src[j..e]` is a maximal run of word characters. */
  lemma WordAtEnd(src: string, j: nat, e: nat)
    requires j <= e <= |src|
    requires forall k :: j <= k < e ==> IsWordChar(src[k])
    requires e == |src| || !IsWordChar(src[e])
    ensures WordAt(src, j) == (Some(Token(Word(src[j..e]), LineAt(src, j))),
                               State(if e < |src| && !IsLineTerminator(src[e]) then e + 1 else e, None, Some(Word(src[j..e]))))
  {
    WordEndUnique(src, j, e);
  }

  /** The call that reads the `{` at `j` and the run of terminators up to `e` after it. */
  lemma LeftBraceStep(src: string, s: State, j: nat, e: nat)
    requires s.cursor <= j < e <= |src| && s.next.None? && Blanks(src, s.cursor, j) && src[j] == '{'
    requires forall k :: j < k < e ==> IsLineTerminator(src[k])
    requires e == |src| || !IsLineTerminator(src[e])
    ensures Step(src, s) == (Some(Token(LeftBrace, LineAt(src, j))), State(e, None, Some(LeftBrace)))
  {
    ScanSkipsBlanks(src, s.last, s.cursor, j);
    SkipTerminatorsUnique(src, j + 1, e);
  }

  /** The call that reads the `}` at `j`. */
  lemma RightBraceStep(src: string, s: State, j: nat)
    requires s.cursor <= j < |src| && s.next.None? && Blanks(src, s.cursor, j) && src[j] == '}'
    ensures Step(src, s) == CloseBrace(src, j, s.last)
  {
    ScanSkipsBlanks(src, s.last, s.cursor, j);
  }

  /** The call that reads the run of terminators from `j` to `e`, after some token. */
  lemma TerminatorStep(src: string, s: State, j: nat, e: nat)
    requires s.cursor <= j < e <= |src| && s.next.None? && s.last.Some? && Blanks(src, s.cursor, j)
    requires forall k :: j <= k < e ==> IsLineTerminator(src[k])
    requires e == |src| || !IsLineTerminator(src[e])
    ensures Step(src, s) == (Some(Token(Semi, LineAt(src, j + 1) - 1)), State(e, None, Some(Semi)))
  {
    ScanSkipsBlanks(src, s.last, s.cursor, j);
    SkipTerminatorsUnique(src, j, e);
  }

  /** The call that finds only blanks left. */
  lemma EndStep(src: string, s: State)
    requires s.cursor <= |src| && s.next.None? && Blanks(src, s.cursor, |src|)
    ensures Step(src, s) == EndOfInput(src, s.last)
  {
    ScanSkipsBlanks(src, s.last, s.cursor, |src|);
  }

  /** `src[j..j + |w|]` is `w`, shown character by character. */
  lemma SliceIs(src: string, j: nat, w: string)
    requires j + |w| <= |src| && forall k :: 0 <= k < |w| ==> src[j + k] == w[k]
    ensures src[j..j + |w|] == w
  {
  }

  /** The pieces of a text one after the other. */
  function Join(pieces: seq<string>): string
  {
    if pieces == [] then "" else pieces[0] + Join(pieces[1..])
  }

  lemma {:induction false} JoinAppend(a: seq<string>, b: seq<string>)
    ensures Join(a + b) == Join(a) + Join(b)
    decreases |a|
  {
    if a != [] {
      assert (a + b)[1..] == a[1..] + b;
      JoinAppend(a[1..], b);
    } else {
      assert a + b == b;
    }
  }

  lemma JoinSnoc(ls: seq<string>, k: nat)
    requires k < |ls|
    ensures Join(ls[..k + 1]) == Join(ls[..k]) + ls[k]
  {
    assert ls[..k + 1] == ls[..k] + [ls[k]];
    JoinAppend(ls[..k], [ls[k]]);
  }

  /** A text of lines, cut before line `k`. */
  lemma JoinSplit(ls: seq<string>, k: nat)
    requires k <= |ls|
    ensures Join(ls) == Join(ls[..k]) + Join(ls[k..])
  {
    assert ls[..k] + ls[k..] == ls;
    JoinAppend(ls[..k], ls[k..]);
  }

  /** A text of at least two lines: its first line, its second, and the rest. */
  lemma JoinTwo(ls: seq<string>)
    requires 2 <= |ls|
    ensures Join(ls) == ls[0] + (ls[1] + Join(ls[2..]))
  {
    assert ls[1..][1..] == ls[2..];
  }

  /** A text of lines, cut around the two lines from `k` on. */
  lemma JoinWindow(ls: seq<string>, k: nat)
    requires k + 1 < |ls|
    ensures Join(ls) == Join(ls[..k]) + (ls[k] + ls[k + 1]) + Join(ls[k + 2..])
  {
    JoinSplit(ls, k);
    JoinTwo(ls[k..]);
    assert ls[k..][2..] == ls[k + 2..];
    Regroup(Join(ls[..k]), ls[k], ls[k + 1], Join(ls[k + 2..]));
  }

  lemma Regroup(a: string, b: string, c: string, d: string)
    ensures a + (b + (c + d)) == a + (b + c) + d
  {
  }

  /** A text of lines, cut before its last line. */
  lemma JoinLast(ls: seq<string>)
    requires |ls| > 0
    ensures Join(ls) == Join(ls[..|ls| - 1]) + ls[|ls| - 1] + ""
  {
    JoinSnoc(ls, |ls| - 1);
    assert ls[..|ls|] == ls;
  }

  /** A line ending in its only `'\n'` moves the line number on by one. */
  lemma LineAtOneLine(l: string)
    requires |l| > 0 && l[|l| - 1] == '\n' && forall k :: 0 <= k < |l| - 1 ==> l[k] != '\n'
    ensures LineAt(l, |l|) == 2
  {
    LineAtNoNewline(l, 0, |l| - 1);
    LineAtNext(l, |l| - 1);
  }

  function CommandText(): string
  {
    "cat " + "/etc/hosts " + "/etc/passwd"
  }

  lemma CommandStep0()
    ensures Step(CommandText(), Start) == (Some(Token(Word("cat"), 1)), State(4, None, Some(Word("cat"))))
  {
    var src := CommandText();
    SliceIs(src, 0, "cat");
    WordStep(src, Start, 0, "cat");
  }

  lemma CommandLineAt4()
    ensures LineAt(CommandText(), 4) == 1
  {
    var src := CommandText();
    LineAtNoNewline(src, 0, 4);
  }

  lemma CommandStep1()
    ensures Step(CommandText(), State(4, None, Some(Word("cat")))) == (Some(Token(Word("/etc/hosts"), 1)), State(15, None, Some(Word("/etc/hosts"))))
  {
    var src := CommandText();
    CommandLineAt4();
    SliceIs(src, 4, "/etc/hosts");
    WordStep(src, State(4, None, Some(Word("cat"))), 4, "/etc/hosts");
  }

  lemma CommandLineAt15()
    ensures LineAt(CommandText(), 15) == 1
  {
    var src := CommandText();
    CommandLineAt4();
    LineAtNoNewline(src, 4, 15);
  }

  lemma CommandStep2()
    ensures Step(CommandText(), State(15, None, Some(Word("/etc/hosts")))) == (Some(Token(Word("/etc/passwd"), 1)), State(26, None, Some(Word("/etc/passwd"))))
  {
    var src := CommandText();
    CommandLineAt15();
    SliceIs(src, 15, "/etc/passwd");
    WordStep(src, State(15, None, Some(Word("/etc/hosts"))), 15, "/etc/passwd");
  }

  lemma CommandLineAt26()
    ensures LineAt(CommandText(), 26) == 1
  {
    var src := CommandText();
    CommandLineAt15();
    LineAtNoNewline(src, 15, 26);
  }

  lemma CommandStep3()
    ensures Step(CommandText(), State(26, None, Some(Word("/etc/passwd")))) == (Some(Token(Semi, 1)), State(26, None, Some(Semi)))
  {
    var src := CommandText();
    CommandLineAt26();
    EndStep(src, State(26, None, Some(Word("/etc/passwd"))));
  }

  lemma CommandStep4()
    ensures Step(CommandText(), State(26, None, Some(Semi))) == (None, State(26, None, Some(Semi)))
  {
    var src := CommandText();
    EndStep(src, State(26, None, Some(Semi)));
  }

  lemma CommandFrom2()
    ensures Tokens(CommandText(), State(15, None, Some(Word("/etc/hosts")))) == [
      Token(Word("/etc/passwd"), 1),
      Token(Semi, 1)]
  {
    var src := CommandText();
    CommandStep2();
    CommandStep3();
    TokensCons(src, State(15, None, Some(Word("/etc/hosts"))), Token(Word("/etc/passwd"), 1), State(26, None, Some(Word("/etc/passwd"))));
    TokensCons(src, State(26, None, Some(Word("/etc/passwd"))), Token(Semi, 1), State(26, None, Some(Semi)));
    CommandStep4();
    TokensNil(src, State(26, None, Some(Semi)));
  }

  lemma Command()
    ensures Lex(CommandText()) == [
      Token(Word("cat"), 1),
      Token(Word("/etc/hosts"), 1),
      Token(Word("/etc/passwd"), 1),
      Token(Semi, 1)]
  {
    var src := CommandText();
    CommandStep0();
    CommandStep1();
    TokensCons(src, Start, Token(Word("cat"), 1), State(4, None, Some(Word("cat"))));
    TokensCons(src, State(4, None, Some(Word("cat"))), Token(Word("/etc/hosts"), 1), State(15, None, Some(Word("/etc/hosts"))));
    CommandFrom2();
  }

  function IfStmtText(): string
  {
    "if " + "true " + "{ " + "echo " + "truthy " + "}\n"
  }

  lemma IfStmtStep0()
    ensures Step(IfStmtText(), Start) == (Some(Token(Word("if"), 1)), State(3, None, Some(Word("if"))))
  {
    var src := IfStmtText();
    SliceIs(src, 0, "if");
    WordStep(src, Start, 0, "if");
  }

  lemma IfStmtLineAt3()
    ensures LineAt(IfStmtText(), 3) == 1
  {
    var src := IfStmtText();
    LineAtNoNewline(src, 0, 3);
  }

  lemma IfStmtStep1()
    ensures Step(IfStmtText(), State(3, None, Some(Word("if")))) == (Some(Token(Word("true"), 1)), State(8, None, Some(Word("true"))))
  {
    var src := IfStmtText();
    IfStmtLineAt3();
    SliceIs(src, 3, "true");
    WordStep(src, State(3, None, Some(Word("if"))), 3, "true");
  }

  lemma IfStmtLineAt8()
    ensures LineAt(IfStmtText(), 8) == 1
  {
    var src := IfStmtText();
    IfStmtLineAt3();
    LineAtNoNewline(src, 3, 8);
  }

  lemma IfStmtStep2()
    ensures Step(IfStmtText(), State(8, None, Some(Word("true")))) == (Some(Token(LeftBrace, 1)), State(9, None, Some(LeftBrace)))
  {
    var src := IfStmtText();
    IfStmtLineAt8();
    LeftBraceStep(src, State(8, None, Some(Word("true"))), 8, 9);
  }

  lemma IfStmtLineAt10()
    ensures LineAt(IfStmtText(), 10) == 1
  {
    var src := IfStmtText();
    IfStmtLineAt8();
    LineAtNoNewline(src, 8, 10);
  }

  lemma IfStmtStep3()
    ensures Step(IfStmtText(), State(9, None, Some(LeftBrace))) == (Some(Token(Word("echo"), 1)), State(15, None, Some(Word("echo"))))
  {
    var src := IfStmtText();
    IfStmtLineAt10();
    SliceIs(src, 10, "echo");
    WordStep(src, State(9, None, Some(LeftBrace)), 10, "echo");
  }

  lemma IfStmtLineAt15()
    ensures LineAt(IfStmtText(), 15) == 1
  {
    var src := IfStmtText();
    IfStmtLineAt10();
    LineAtNoNewline(src, 10, 15);
  }

  lemma IfStmtStep4()
    ensures Step(IfStmtText(), State(15, None, Some(Word("echo")))) == (Some(Token(Word("truthy"), 1)), State(22, None, Some(Word("truthy"))))
  {
    var src := IfStmtText();
    IfStmtLineAt15();
    SliceIs(src, 15, "truthy");
    WordStep(src, State(15, None, Some(Word("echo"))), 15, "truthy");
  }

  lemma IfStmtLineAt22()
    ensures LineAt(IfStmtText(), 22) == 1
  {
    var src := IfStmtText();
    IfStmtLineAt15();
    LineAtNoNewline(src, 15, 22);
  }

  lemma IfStmtStep5()
    ensures Step(IfStmtText(), State(22, None, Some(Word("truthy")))) == (Some(Token(Semi, 1)), State(23, Some(RightBrace), Some(Semi)))
  {
    var src := IfStmtText();
    IfStmtLineAt22();
    RightBraceStep(src, State(22, None, Some(Word("truthy"))), 22);
  }

  lemma IfStmtLineAt23()
    ensures LineAt(IfStmtText(), 23) == 1
  {
    var src := IfStmtText();
    IfStmtLineAt22();
    LineAtNoNewline(src, 22, 23);
  }

  lemma IfStmtStep6()
    ensures Step(IfStmtText(), State(23, Some(RightBrace), Some(Semi))) == (Some(Token(RightBrace, 1)), State(23, None, Some(RightBrace)))
  {
    var src := IfStmtText();
    IfStmtLineAt23();
  }

  lemma IfStmtStep7()
    ensures Step(IfStmtText(), State(23, None, Some(RightBrace))) == (Some(Token(Semi, 1)), State(24, None, Some(Semi)))
  {
    var src := IfStmtText();
    IfStmtLineAt23();
    LineAtNext(src, 23);
    TerminatorStep(src, State(23, None, Some(RightBrace)), 23, 24);
  }

  lemma IfStmtStep8()
    ensures Step(IfStmtText(), State(24, None, Some(Semi))) == (None, State(24, None, Some(Semi)))
  {
    var src := IfStmtText();
    EndStep(src, State(24, None, Some(Semi)));
  }

  lemma IfStmtFrom6()
    ensures Tokens(IfStmtText(), State(23, Some(RightBrace), Some(Semi))) == [
      Token(RightBrace, 1),
      Token(Semi, 1)]
  {
    var src := IfStmtText();
    IfStmtStep6();
    IfStmtStep7();
    TokensCons(src, State(23, Some(RightBrace), Some(Semi)), Token(RightBrace, 1), State(23, None, Some(RightBrace)));
    TokensCons(src, State(23, None, Some(RightBrace)), Token(Semi, 1), State(24, None, Some(Semi)));
    IfStmtStep8();
    TokensNil(src, State(24, None, Some(Semi)));
  }

  lemma IfStmtFrom4()
    ensures Tokens(IfStmtText(), State(15, None, Some(Word("echo")))) == [
      Token(Word("truthy"), 1),
      Token(Semi, 1),
      Token(RightBrace, 1),
      Token(Semi, 1)]
  {
    var src := IfStmtText();
    IfStmtStep4();
    IfStmtStep5();
    TokensCons(src, State(15, None, Some(Word("echo"))), Token(Word("truthy"), 1), State(22, None, Some(Word("truthy"))));
    TokensCons(src, State(22, None, Some(Word("truthy"))), Token(Semi, 1), State(23, Some(RightBrace), Some(Semi)));
    IfStmtFrom6();
  }

  lemma IfStmtFrom2()
    ensures Tokens(IfStmtText(), State(8, None, Some(Word("true")))) == [
      Token(LeftBrace, 1),
      Token(Word("echo"), 1),
      Token(Word("truthy"), 1),
      Token(Semi, 1),
      Token(RightBrace, 1),
      Token(Semi, 1)]
  {
    var src := IfStmtText();
    IfStmtStep2();
    IfStmtStep3();
    TokensCons(src, State(8, None, Some(Word("true"))), Token(LeftBrace, 1), State(9, None, Some(LeftBrace)));
    TokensCons(src, State(9, None, Some(LeftBrace)), Token(Word("echo"), 1), State(15, None, Some(Word("echo"))));
    IfStmtFrom4();
  }

  lemma IfStmt()
    ensures Lex(IfStmtText()) == [
      Token(Word("if"), 1),
      Token(Word("true"), 1),
      Token(LeftBrace, 1),
      Token(Word("echo"), 1),
      Token(Word("truthy"), 1),
      Token(Semi, 1),
      Token(RightBrace, 1),
      Token(Semi, 1)]
  {
    var src := IfStmtText();
    IfStmtStep0();
    IfStmtStep1();
    TokensCons(src, Start, Token(Word("if"), 1), State(3, None, Some(Word("if"))));
    TokensCons(src, State(3, None, Some(Word("if"))), Token(Word("true"), 1), State(8, None, Some(Word("true"))));
    IfStmtFrom2();
  }

  function EmptyBodyText(): string
  {
    "if " + "false " + "{ " + "}\n"
  }

  lemma EmptyBodyStep0()
    ensures Step(EmptyBodyText(), Start) == (Some(Token(Word("if"), 1)), State(3, None, Some(Word("if"))))
  {
    var src := EmptyBodyText();
    SliceIs(src, 0, "if");
    WordStep(src, Start, 0, "if");
  }

  lemma EmptyBodyLineAt3()
    ensures LineAt(EmptyBodyText(), 3) == 1
  {
    var src := EmptyBodyText();
    LineAtNoNewline(src, 0, 3);
  }

  lemma EmptyBodyStep1()
    ensures Step(EmptyBodyText(), State(3, None, Some(Word("if")))) == (Some(Token(Word("false"), 1)), State(9, None, Some(Word("false"))))
  {
    var src := EmptyBodyText();
    EmptyBodyLineAt3();
    SliceIs(src, 3, "false");
    WordStep(src, State(3, None, Some(Word("if"))), 3, "false");
  }

  lemma EmptyBodyLineAt9()
    ensures LineAt(EmptyBodyText(), 9) == 1
  {
    var src := EmptyBodyText();
    EmptyBodyLineAt3();
    LineAtNoNewline(src, 3, 9);
  }

  lemma EmptyBodyStep2()
    ensures Step(EmptyBodyText(), State(9, None, Some(Word("false")))) == (Some(Token(LeftBrace, 1)), State(10, None, Some(LeftBrace)))
  {
    var src := EmptyBodyText();
    EmptyBodyLineAt9();
    LeftBraceStep(src, State(9, None, Some(Word("false"))), 9, 10);
  }

  lemma EmptyBodyLineAt11()
    ensures LineAt(EmptyBodyText(), 11) == 1
  {
    var src := EmptyBodyText();
    EmptyBodyLineAt9();
    LineAtNoNewline(src, 9, 11);
  }

  lemma EmptyBodyStep3()
    ensures Step(EmptyBodyText(), State(10, None, Some(LeftBrace))) == (Some(Token(Semi, 1)), State(12, Some(RightBrace), Some(Semi)))
  {
    var src := EmptyBodyText();
    EmptyBodyLineAt11();
    RightBraceStep(src, State(10, None, Some(LeftBrace)), 11);
  }

  lemma EmptyBodyLineAt12()
    ensures LineAt(EmptyBodyText(), 12) == 1
  {
    var src := EmptyBodyText();
    EmptyBodyLineAt11();
    LineAtNoNewline(src, 11, 12);
  }

  lemma EmptyBodyStep4()
    ensures Step(EmptyBodyText(), State(12, Some(RightBrace), Some(Semi))) == (Some(Token(RightBrace, 1)), State(12, None, Some(RightBrace)))
  {
    var src := EmptyBodyText();
    EmptyBodyLineAt12();
  }

  lemma EmptyBodyStep5()
    ensures Step(EmptyBodyText(), State(12, None, Some(RightBrace))) == (Some(Token(Semi, 1)), State(13, None, Some(Semi)))
  {
    var src := EmptyBodyText();
    EmptyBodyLineAt12();
    LineAtNext(src, 12);
    TerminatorStep(src, State(12, None, Some(RightBrace)), 12, 13);
  }

  lemma EmptyBodyStep6()
    ensures Step(EmptyBodyText(), State(13, None, Some(Semi))) == (None, State(13, None, Some(Semi)))
  {
    var src := EmptyBodyText();
    EndStep(src, State(13, None, Some(Semi)));
  }

  lemma EmptyBodyFrom4()
    ensures Tokens(EmptyBodyText(), State(12, Some(RightBrace), Some(Semi))) == [
      Token(RightBrace, 1),
      Token(Semi, 1)]
  {
    var src := EmptyBodyText();
    EmptyBodyStep4();
    EmptyBodyStep5();
    TokensCons(src, State(12, Some(RightBrace), Some(Semi)), Token(RightBrace, 1), State(12, None, Some(RightBrace)));
    TokensCons(src, State(12, None, Some(RightBrace)), Token(Semi, 1), State(13, None, Some(Semi)));
    EmptyBodyStep6();
    TokensNil(src, State(13, None, Some(Semi)));
  }

  lemma EmptyBodyFrom2()
    ensures Tokens(EmptyBodyText(), State(9, None, Some(Word("false")))) == [
      Token(LeftBrace, 1),
      Token(Semi, 1),
      Token(RightBrace, 1),
      Token(Semi, 1)]
  {
    var src := EmptyBodyText();
    EmptyBodyStep2();
    EmptyBodyStep3();
    TokensCons(src, State(9, None, Some(Word("false"))), Token(LeftBrace, 1), State(10, None, Some(LeftBrace)));
    TokensCons(src, State(10, None, Some(LeftBrace)), Token(Semi, 1), State(12, Some(RightBrace), Some(Semi)));
    EmptyBodyFrom4();
  }

  lemma EmptyBody()
    ensures Lex(EmptyBodyText()) == [
      Token(Word("if"), 1),
      Token(Word("false"), 1),
      Token(LeftBrace, 1),
      Token(Semi, 1),
      Token(RightBrace, 1),
      Token(Semi, 1)]
  {
    var src := EmptyBodyText();
    EmptyBodyStep0();
    EmptyBodyStep1();
    TokensCons(src, Start, Token(Word("if"), 1), State(3, None, Some(Word("if"))));
    TokensCons(src, State(3, None, Some(Word("if"))), Token(Word("false"), 1), State(9, None, Some(Word("false"))));
    EmptyBodyFrom2();
  }

  function StraySemicolonsText(): string
  {
    "a; ;b"
  }

  lemma StraySemicolonsStep0()
    ensures Step(StraySemicolonsText(), Start) == (Some(Token(Word("a"), 1)), State(1, None, Some(Word("a"))))
  {
    var src := StraySemicolonsText();
    SliceIs(src, 0, "a");
    WordStep(src, Start, 0, "a");
  }

  lemma StraySemicolonsLineAt1()
    ensures LineAt(StraySemicolonsText(), 1) == 1
  {
    var src := StraySemicolonsText();
    LineAtNoNewline(src, 0, 1);
  }

  lemma StraySemicolonsStep1()
    ensures Step(StraySemicolonsText(), State(1, None, Some(Word("a")))) == (Some(Token(Semi, 0)), State(2, None, Some(Semi)))
  {
    var src := StraySemicolonsText();
    StraySemicolonsLineAt1();
    LineAtNext(src, 1);
    TerminatorStep(src, State(1, None, Some(Word("a"))), 1, 2);
  }

  lemma StraySemicolonsLineAt3()
    ensures LineAt(StraySemicolonsText(), 3) == 1
  {
    var src := StraySemicolonsText();
    StraySemicolonsLineAt1();
    LineAtNoNewline(src, 1, 3);
  }

  lemma StraySemicolonsStep2()
    ensures Step(StraySemicolonsText(), State(2, None, Some(Semi))) == (Some(Token(Semi, 0)), State(4, None, Some(Semi)))
  {
    var src := StraySemicolonsText();
    StraySemicolonsLineAt3();
    LineAtNext(src, 3);
    TerminatorStep(src, State(2, None, Some(Semi)), 3, 4);
  }

  lemma StraySemicolonsLineAt4()
    ensures LineAt(StraySemicolonsText(), 4) == 1
  {
    var src := StraySemicolonsText();
    StraySemicolonsLineAt3();
    LineAtNoNewline(src, 3, 4);
  }

  lemma StraySemicolonsStep3()
    ensures Step(StraySemicolonsText(), State(4, None, Some(Semi))) == (Some(Token(Word("b"), 1)), State(5, None, Some(Word("b"))))
  {
    var src := StraySemicolonsText();
    StraySemicolonsLineAt4();
    SliceIs(src, 4, "b");
    WordStep(src, State(4, None, Some(Semi)), 4, "b");
  }

  lemma StraySemicolonsLineAt5()
    ensures LineAt(StraySemicolonsText(), 5) == 1
  {
    var src := StraySemicolonsText();
    StraySemicolonsLineAt4();
    LineAtNoNewline(src, 4, 5);
  }

  lemma StraySemicolonsStep4()
    ensures Step(StraySemicolonsText(), State(5, None, Some(Word("b")))) == (Some(Token(Semi, 1)), State(5, None, Some(Semi)))
  {
    var src := StraySemicolonsText();
    StraySemicolonsLineAt5();
    EndStep(src, State(5, None, Some(Word("b"))));
  }

  lemma StraySemicolonsStep5()
    ensures Step(StraySemicolonsText(), State(5, None, Some(Semi))) == (None, State(5, None, Some(Semi)))
  {
    var src := StraySemicolonsText();
    EndStep(src, State(5, None, Some(Semi)));
  }

  lemma StraySemicolonsFrom4()
    ensures Tokens(StraySemicolonsText(), State(5, None, Some(Word("b")))) == [
      Token(Semi, 1)]
  {
    var src := StraySemicolonsText();
    StraySemicolonsStep4();
    TokensCons(src, State(5, None, Some(Word("b"))), Token(Semi, 1), State(5, None, Some(Semi)));
    StraySemicolonsStep5();
    TokensNil(src, State(5, None, Some(Semi)));
  }

  lemma StraySemicolonsFrom2()
    ensures Tokens(StraySemicolonsText(), State(2, None, Some(Semi))) == [
      Token(Semi, 0),
      Token(Word("b"), 1),
      Token(Semi, 1)]
  {
    var src := StraySemicolonsText();
    StraySemicolonsStep2();
    StraySemicolonsStep3();
    TokensCons(src, State(2, None, Some(Semi)), Token(Semi, 0), State(4, None, Some(Semi)));
    TokensCons(src, State(4, None, Some(Semi)), Token(Word("b"), 1), State(5, None, Some(Word("b"))));
    StraySemicolonsFrom4();
  }

  lemma StraySemicolons()
    ensures Lex(StraySemicolonsText()) == [
      Token(Word("a"), 1),
      Token(Semi, 0),
      Token(Semi, 0),
      Token(Word("b"), 1),
      Token(Semi, 1)]
  {
    var src := StraySemicolonsText();
    StraySemicolonsStep0();
    StraySemicolonsStep1();
    TokensCons(src, Start, Token(Word("a"), 1), State(1, None, Some(Word("a"))));
    TokensCons(src, State(1, None, Some(Word("a"))), Token(Semi, 0), State(2, None, Some(Semi)));
    StraySemicolonsFrom2();
  }

  function LoneRightBraceText(): string
  {
    "}"
  }

  lemma LoneRightBraceStep0()
    ensures Step(LoneRightBraceText(), Start) == (Some(Token(Semi, 1)), State(1, Some(RightBrace), Some(Semi)))
  {
    var src := LoneRightBraceText();
    RightBraceStep(src, Start, 0);
  }

  lemma LoneRightBraceLineAt1()
    ensures LineAt(LoneRightBraceText(), 1) == 1
  {
    var src := LoneRightBraceText();
    LineAtNoNewline(src, 0, 1);
  }

  lemma LoneRightBraceStep1()
    ensures Step(LoneRightBraceText(), State(1, Some(RightBrace), Some(Semi))) == (Some(Token(RightBrace, 1)), State(1, None, Some(RightBrace)))
  {
    var src := LoneRightBraceText();
    LoneRightBraceLineAt1();
  }

  lemma LoneRightBraceStep2()
    ensures Step(LoneRightBraceText(), State(1, None, Some(RightBrace))) == (Some(Token(Semi, 1)), State(1, None, Some(Semi)))
  {
    var src := LoneRightBraceText();
    LoneRightBraceLineAt1();
    EndStep(src, State(1, None, Some(RightBrace)));
  }

  lemma LoneRightBraceStep3()
    ensures Step(LoneRightBraceText(), State(1, None, Some(Semi))) == (None, State(1, None, Some(Semi)))
  {
    var src := LoneRightBraceText();
    EndStep(src, State(1, None, Some(Semi)));
  }

  lemma LoneRightBraceFrom2()
    ensures Tokens(LoneRightBraceText(), State(1, None, Some(RightBrace))) == [
      Token(Semi, 1)]
  {
    var src := LoneRightBraceText();
    LoneRightBraceStep2();
    TokensCons(src, State(1, None, Some(RightBrace)), Token(Semi, 1), State(1, None, Some(Semi)));
    LoneRightBraceStep3();
    TokensNil(src, State(1, None, Some(Semi)));
  }

  lemma LoneRightBrace()
    ensures Lex(LoneRightBraceText()) == [
      Token(Semi, 1),
      Token(RightBrace, 1),
      Token(Semi, 1)]
  {
    var src := LoneRightBraceText();
    LoneRightBraceStep0();
    LoneRightBraceStep1();
    TokensCons(src, Start, Token(Semi, 1), State(1, Some(RightBrace), Some(Semi)));
    TokensCons(src, State(1, Some(RightBrace), Some(Semi)), Token(RightBrace, 1), State(1, None, Some(RightBrace)));
    LoneRightBraceFrom2();
  }

  /** The text of `multiline_nested_if_else_stmt`, line by line. */
  function NestedIfElseLines(): seq<string>
  {
    ["if /bin/a {\n",
     "  echo a\n",
     "} else if /bin/b {\n",
     "  echo b\n",
     "  echo 2\n",
     "  if true {\n",
     "    exit\n",
     "  }\n",
     "} else {\n",
     "  echo c\n",
     "}\n"]
  }

  function NestedIfElseText(): string
  {
    Join(NestedIfElseLines())
  }

  /** Any list of lines equal, line by line, to `NestedIfElseLines()`. */
  predicate NestedIfElseShape(ls: seq<string>)
  {
    |ls| == 11 && ls[0] == "if /bin/a {\n" && ls[1] == "  echo a\n" && ls[2] == "} else if /bin/b {\n" && ls[3] == "  echo b\n" && ls[4] == "  echo 2\n" && ls[5] == "  if true {\n" && ls[6] == "    exit\n" && ls[7] == "  }\n" && ls[8] == "} else {\n" && ls[9] == "  echo c\n" && ls[10] == "}\n"
  }

  lemma NestedIfElsePrefix0(ls: seq<string>)
    requires NestedIfElseShape(ls)
    ensures |Join(ls[..0])| == 0 && LineAt(Join(ls[..0]), 0) == 1
  {
    assert ls[..0] == [];
  }

  lemma NestedIfElsePrefix1(ls: seq<string>)
    requires NestedIfElseShape(ls)
    ensures |Join(ls[..1])| == 12 && LineAt(Join(ls[..1]), 12) == 2
  {
    NestedIfElsePrefix0(ls);
    JoinSnoc(ls, 0);
    LineAtAfter(Join(ls[..0]), ls[0], |ls[0]|);
    LineAtOneLine(ls[0]);
  }

  lemma NestedIfElsePrefix2(ls: seq<string>)
    requires NestedIfElseShape(ls)
    ensures |Join(ls[..2])| == 21 && LineAt(Join(ls[..2]), 21) == 3
  {
    NestedIfElsePrefix1(ls);
    JoinSnoc(ls, 1);
    LineAtAfter(Join(ls[..1]), ls[1], |ls[1]|);
    LineAtOneLine(ls[1]);
  }

  lemma NestedIfElsePrefix3(ls: seq<string>)
    requires NestedIfElseShape(ls)
    ensures |Join(ls[..3])| == 40 && LineAt(Join(ls[..3]), 40) == 4
  {
    NestedIfElsePrefix2(ls);
    JoinSnoc(ls, 2);
    LineAtAfter(Join(ls[..2]), ls[2], |ls[2]|);
    LineAtOneLine(ls[2]);
  }

  lemma NestedIfElsePrefix4(ls: seq<string>)
    requires NestedIfElseShape(ls)
    ensures |Join(ls[..4])| == 49 && LineAt(Join(ls[..4]), 49) == 5
  {
    NestedIfElsePrefix3(ls);
    JoinSnoc(ls, 3);
    LineAtAfter(Join(ls[..3]), ls[3], |ls[3]|);
    LineAtOneLine(ls[3]);
  }

  lemma NestedIfElsePrefix5(ls: seq<string>)
    requires NestedIfElseShape(ls)
    ensures |Join(ls[..5])| == 58 && LineAt(Join(ls[..5]), 58) == 6
  {
    NestedIfElsePrefix4(ls);
    JoinSnoc(ls, 4);
    LineAtAfter(Join(ls[..4]), ls[4], |ls[4]|);
    LineAtOneLine(ls[4]);
  }

  lemma NestedIfElsePrefix6(ls: seq<string>)
    requires NestedIfElseShape(ls)
    ensures |Join(ls[..6])| == 70 && LineAt(Join(ls[..6]), 70) == 7
  {
    NestedIfElsePrefix5(ls);
    JoinSnoc(ls, 5);
    LineAtAfter(Join(ls[..5]), ls[5], |ls[5]|);
    LineAtOneLine(ls[5]);
  }

  lemma NestedIfElsePrefix7(ls: seq<string>)
    requires NestedIfElseShape(ls)
    ensures |Join(ls[..7])| == 79 && LineAt(Join(ls[..7]), 79) == 8
  {
    NestedIfElsePrefix6(ls);
    JoinSnoc(ls, 6);
    LineAtAfter(Join(ls[..6]), ls[6], |ls[6]|);
    LineAtOneLine(ls[6]);
  }

  lemma NestedIfElsePrefix8(ls: seq<string>)
    requires NestedIfElseShape(ls)
    ensures |Join(ls[..8])| == 83 && LineAt(Join(ls[..8]), 83) == 9
  {
    NestedIfElsePrefix7(ls);
    JoinSnoc(ls, 7);
    LineAtAfter(Join(ls[..7]), ls[7], |ls[7]|);
    LineAtOneLine(ls[7]);
  }

  lemma NestedIfElsePrefix9(ls: seq<string>)
    requires NestedIfElseShape(ls)
    ensures |Join(ls[..9])| == 92 && LineAt(Join(ls[..9]), 92) == 10
  {
    NestedIfElsePrefix8(ls);
    JoinSnoc(ls, 8);
    LineAtAfter(Join(ls[..8]), ls[8], |ls[8]|);
    LineAtOneLine(ls[8]);
  }

  lemma NestedIfElsePrefix10(ls: seq<string>)
    requires NestedIfElseShape(ls)
    ensures |Join(ls[..10])| == 101 && LineAt(Join(ls[..10]), 101) == 11
  {
    NestedIfElsePrefix9(ls);
    JoinSnoc(ls, 9);
    LineAtAfter(Join(ls[..9]), ls[9], |ls[9]|);
    LineAtOneLine(ls[9]);
  }

  lemma NestedIfElseLength(ls: seq<string>)
    requires NestedIfElseShape(ls)
    ensures |Join(ls)| == 103
  {
    NestedIfElsePrefix10(ls);
    JoinLast(ls);
  }

  function NestedIfElseWindow0(): string
  {
    "if /bin/a {\n" + "  echo a\n"
  }

  lemma NestedIfElseWindowStep0()
    ensures Step(NestedIfElseWindow0(), State(0, None, None)) == (Some(Token(Word("if"), 1)), State(3, None, Some(Word("if"))))
  {
    var w := NestedIfElseWindow0();
    SliceIs(w, 0, "if");
    WordStep(w, State(0, None, None), 0, "if");
  }

  lemma NestedIfElseStep0(ls: seq<string>)
    requires NestedIfElseShape(ls) && |Join(ls)| == 103
    ensures Step(Join(ls), Start) == (Some(Token(Word("if"), 1)), State(3, None, Some(Word("if"))))
  {
    NestedIfElsePrefix0(ls);
    JoinWindow(ls, 0);
    NestedIfElseWindowStep0();
    StepInWindow(Join(ls[..0]), NestedIfElseWindow0(), Join(ls[2..]), State(0, None, None));
  }

  lemma NestedIfElseWindow0LineAt3()
    ensures LineAt(NestedIfElseWindow0(), 3) == 1
  {
    var w := NestedIfElseWindow0();
    LineAtNoNewline(w, 0, 3);
  }

  lemma NestedIfElseWindowStep1()
    ensures Step(NestedIfElseWindow0(), State(3, None, Some(Word("if")))) == (Some(Token(Word("/bin/a"), 1)), State(10, None, Some(Word("/bin/a"))))
  {
    var w := NestedIfElseWindow0();
    NestedIfElseWindow0LineAt3();
    SliceIs(w, 3, "/bin/a");
    WordStep(w, State(3, None, Some(Word("if"))), 3, "/bin/a");
  }

  lemma NestedIfElseStep1(ls: seq<string>)
    requires NestedIfElseShape(ls) && |Join(ls)| == 103
    ensures Step(Join(ls), State(3, None, Some(Word("if")))) == (Some(Token(Word("/bin/a"), 1)), State(10, None, Some(Word("/bin/a"))))
  {
    NestedIfElsePrefix0(ls);
    JoinWindow(ls, 0);
    NestedIfElseWindowStep1();
    StepInWindow(Join(ls[..0]), NestedIfElseWindow0(), Join(ls[2..]), State(3, None, Some(Word("if"))));
  }

  lemma NestedIfElseWindow0LineAt10()
    ensures LineAt(NestedIfElseWindow0(), 10) == 1
  {
    var w := NestedIfElseWindow0();
    NestedIfElseWindow0LineAt3();
    LineAtNoNewline(w, 3, 10);
  }

  lemma NestedIfElseWindowStep2()
    ensures Step(NestedIfElseWindow0(), State(10, None, Some(Word("/bin/a")))) == (Some(Token(LeftBrace, 1)), State(12, None, Some(LeftBrace)))
  {
    var w := NestedIfElseWindow0();
    NestedIfElseWindow0LineAt10();
    LeftBraceStep(w, State(10, None, Some(Word("/bin/a"))), 10, 12);
  }

  lemma NestedIfElseStep2(ls: seq<string>)
    requires NestedIfElseShape(ls) && |Join(ls)| == 103
    ensures Step(Join(ls), State(10, None, Some(Word("/bin/a")))) == (Some(Token(LeftBrace, 1)), State(12, None, Some(LeftBrace)))
  {
    NestedIfElsePrefix0(ls);
    JoinWindow(ls, 0);
    NestedIfElseWindowStep2();
    StepInWindow(Join(ls[..0]), NestedIfElseWindow0(), Join(ls[2..]), State(10, None, Some(Word("/bin/a"))));
  }

  function NestedIfElseWindow1(): string
  {
    "  echo a\n" + "} else if /bin/b {\n"
  }

  lemma NestedIfElseWindow1LineAt2()
    ensures LineAt(NestedIfElseWindow1(), 2) == 1
  {
    var w := NestedIfElseWindow1();
    LineAtNoNewline(w, 0, 2);
  }

  lemma NestedIfElseWindowStep3()
    ensures Step(NestedIfElseWindow1(), State(0, None, Some(LeftBrace))) == (Some(Token(Word("echo"), 1)), State(7, None, Some(Word("echo"))))
  {
    var w := NestedIfElseWindow1();
    NestedIfElseWindow1LineAt2();
    SliceIs(w, 2, "echo");
    WordStep(w, State(0, None, Some(LeftBrace)), 2, "echo");
  }

  lemma NestedIfElseStep3(ls: seq<string>)
    requires NestedIfElseShape(ls) && |Join(ls)| == 103
    ensures Step(Join(ls), State(12, None, Some(LeftBrace))) == (Some(Token(Word("echo"), 2)), State(19, None, Some(Word("echo"))))
  {
    NestedIfElsePrefix1(ls);
    JoinWindow(ls, 1);
    NestedIfElseWindowStep3();
    StepInWindow(Join(ls[..1]), NestedIfElseWindow1(), Join(ls[3..]), State(0, None, Some(LeftBrace)));
  }

  lemma NestedIfElseWindow1LineAt7()
    ensures LineAt(NestedIfElseWindow1(), 7) == 1
  {
    var w := NestedIfElseWindow1();
    NestedIfElseWindow1LineAt2();
    LineAtNoNewline(w, 2, 7);
  }

  lemma NestedIfElseWindowStep4()
    ensures Step(NestedIfElseWindow1(), State(7, None, Some(Word("echo")))) == (Some(Token(Word("a"), 1)), State(8, None, Some(Word("a"))))
  {
    var w := NestedIfElseWindow1();
    NestedIfElseWindow1LineAt7();
    SliceIs(w, 7, "a");
    WordStep(w, State(7, None, Some(Word("echo"))), 7, "a");
  }

  lemma NestedIfElseStep4(ls: seq<string>)
    requires NestedIfElseShape(ls) && |Join(ls)| == 103
    ensures Step(Join(ls), State(19, None, Some(Word("echo")))) == (Some(Token(Word("a"), 2)), State(20, None, Some(Word("a"))))
  {
    NestedIfElsePrefix1(ls);
    JoinWindow(ls, 1);
    NestedIfElseWindowStep4();
    StepInWindow(Join(ls[..1]), NestedIfElseWindow1(), Join(ls[3..]), State(7, None, Some(Word("echo"))));
  }

  lemma NestedIfElseWindow1LineAt8()
    ensures LineAt(NestedIfElseWindow1(), 8) == 1
  {
    var w := NestedIfElseWindow1();
    NestedIfElseWindow1LineAt7();
    LineAtNoNewline(w, 7, 8);
  }

  lemma NestedIfElseWindowStep5()
    ensures Step(NestedIfElseWindow1(), State(8, None, Some(Word("a")))) == (Some(Token(Semi, 1)), State(9, None, Some(Semi)))
  {
    var w := NestedIfElseWindow1();
    NestedIfElseWindow1LineAt8();
    LineAtNext(w, 8);
    TerminatorStep(w, State(8, None, Some(Word("a"))), 8, 9);
  }

  lemma NestedIfElseStep5(ls: seq<string>)
    requires NestedIfElseShape(ls) && |Join(ls)| == 103
    ensures Step(Join(ls), State(20, None, Some(Word("a")))) == (Some(Token(Semi, 2)), State(21, None, Some(Semi)))
  {
    NestedIfElsePrefix1(ls);
    JoinWindow(ls, 1);
    NestedIfElseWindowStep5();
    StepInWindow(Join(ls[..1]), NestedIfElseWindow1(), Join(ls[3..]), State(8, None, Some(Word("a"))));
  }

  function NestedIfElseWindow2(): string
  {
    "} else if /bin/b {\n" + "  echo b\n"
  }

  lemma NestedIfElseWindowStep6()
    ensures Step(NestedIfElseWindow2(), State(0, None, Some(Semi))) == (Some(Token(RightBrace, 1)), State(1, None, Some(RightBrace)))
  {
    var w := NestedIfElseWindow2();
    RightBraceStep(w, State(0, None, Some(Semi)), 0);
  }

  lemma NestedIfElseStep6(ls: seq<string>)
    requires NestedIfElseShape(ls) && |Join(ls)| == 103
    ensures Step(Join(ls), State(21, None, Some(Semi))) == (Some(Token(RightBrace, 3)), State(22, None, Some(RightBrace)))
  {
    NestedIfElsePrefix2(ls);
    JoinWindow(ls, 2);
    NestedIfElseWindowStep6();
    StepInWindow(Join(ls[..2]), NestedIfElseWindow2(), Join(ls[4..]), State(0, None, Some(Semi)));
  }

  lemma NestedIfElseWindow2LineAt2()
    ensures LineAt(NestedIfElseWindow2(), 2) == 1
  {
    var w := NestedIfElseWindow2();
    LineAtNoNewline(w, 0, 2);
  }

  lemma NestedIfElseWindowStep7()
    ensures Step(NestedIfElseWindow2(), State(1, None, Some(RightBrace))) == (Some(Token(Word("else"), 1)), State(7, None, Some(Word("else"))))
  {
    var w := NestedIfElseWindow2();
    NestedIfElseWindow2LineAt2();
    SliceIs(w, 2, "else");
    WordStep(w, State(1, None, Some(RightBrace)), 2, "else");
  }

  lemma NestedIfElseStep7(ls: seq<string>)
    requires NestedIfElseShape(ls) && |Join(ls)| == 103
    ensures Step(Join(ls), State(22, None, Some(RightBrace))) == (Some(Token(Word("else"), 3)), State(28, None, Some(Word("else"))))
  {
    NestedIfElsePrefix2(ls);
    JoinWindow(ls, 2);
    NestedIfElseWindowStep7();
    StepInWindow(Join(ls[..2]), NestedIfElseWindow2(), Join(ls[4..]), State(1, None, Some(RightBrace)));
  }

  lemma NestedIfElseWindow2LineAt7()
    ensures LineAt(NestedIfElseWindow2(), 7) == 1
  {
    var w := NestedIfElseWindow2();
    NestedIfElseWindow2LineAt2();
    LineAtNoNewline(w, 2, 7);
  }

  lemma NestedIfElseWindowStep8()
    ensures Step(NestedIfElseWindow2(), State(7, None, Some(Word("else")))) == (Some(Token(Word("if"), 1)), State(10, None, Some(Word("if"))))
  {
    var w := NestedIfElseWindow2();
    NestedIfElseWindow2LineAt7();
    SliceIs(w, 7, "if");
    WordStep(w, State(7, None, Some(Word("else"))), 7, "if");
  }

  lemma NestedIfElseStep8(ls: seq<string>)
    requires NestedIfElseShape(ls) && |Join(ls)| == 103
    ensures Step(Join(ls), State(28, None, Some(Word("else")))) == (Some(Token(Word("if"), 3)), State(31, None, Some(Word("if"))))
  {
    NestedIfElsePrefix2(ls);
    JoinWindow(ls, 2);
    NestedIfElseWindowStep8();
    StepInWindow(Join(ls[..2]), NestedIfElseWindow2(), Join(ls[4..]), State(7, None, Some(Word("else"))));
  }

  lemma NestedIfElseWindow2LineAt10()
    ensures LineAt(NestedIfElseWindow2(), 10) == 1
  {
    var w := NestedIfElseWindow2();
    NestedIfElseWindow2LineAt7();
    LineAtNoNewline(w, 7, 10);
  }

  lemma NestedIfElseWindowStep9()
    ensures Step(NestedIfElseWindow2(), State(10, None, Some(Word("if")))) == (Some(Token(Word("/bin/b"), 1)), State(17, None, Some(Word("/bin/b"))))
  {
    var w := NestedIfElseWindow2();
    NestedIfElseWindow2LineAt10();
    SliceIs(w, 10, "/bin/b");
    WordStep(w, State(10, None, Some(Word("if"))), 10, "/bin/b");
  }

  lemma NestedIfElseStep9(ls: seq<string>)
    requires NestedIfElseShape(ls) && |Join(ls)| == 103
    ensures Step(Join(ls), State(31, None, Some(Word("if")))) == (Some(Token(Word("/bin/b"), 3)), State(38, None, Some(Word("/bin/b"))))
  {
    NestedIfElsePrefix2(ls);
    JoinWindow(ls, 2);
    NestedIfElseWindowStep9();
    StepInWindow(Join(ls[..2]), NestedIfElseWindow2(), Join(ls[4..]), State(10, None, Some(Word("if"))));
  }

  lemma NestedIfElseWindow2LineAt17()
    ensures LineAt(NestedIfElseWindow2(), 17) == 1
  {
    var w := NestedIfElseWindow2();
    NestedIfElseWindow2LineAt10();
    LineAtNoNewline(w, 10, 17);
  }

  lemma NestedIfElseWindowStep10()
    ensures Step(NestedIfElseWindow2(), State(17, None, Some(Word("/bin/b")))) == (Some(Token(LeftBrace, 1)), State(19, None, Some(LeftBrace)))
  {
    var w := NestedIfElseWindow2();
    NestedIfElseWindow2LineAt17();
    LeftBraceStep(w, State(17, None, Some(Word("/bin/b"))), 17, 19);
  }

  lemma NestedIfElseStep10(ls: seq<string>)
    requires NestedIfElseShape(ls) && |Join(ls)| == 103
    ensures Step(Join(ls), State(38, None, Some(Word("/bin/b")))) == (Some(Token(LeftBrace, 3)), State(40, None, Some(LeftBrace)))
  {
    NestedIfElsePrefix2(ls);
    JoinWindow(ls, 2);
    NestedIfElseWindowStep10();
    StepInWindow(Join(ls[..2]), NestedIfElseWindow2(), Join(ls[4..]), State(17, None, Some(Word("/bin/b"))));
  }

  function NestedIfElseWindow3(): string
  {
    "  echo b\n" + "  echo 2\n"
  }

  lemma NestedIfElseWindow3LineAt2()
    ensures LineAt(NestedIfElseWindow3(), 2) == 1
  {
    var w := NestedIfElseWindow3();
    LineAtNoNewline(w, 0, 2);
  }

  lemma NestedIfElseWindowStep11()
    ensures Step(NestedIfElseWindow3(), State(0, None, Some(LeftBrace))) == (Some(Token(Word("echo"), 1)), State(7, None, Some(Word("echo"))))
  {
    var w := NestedIfElseWindow3();
    NestedIfElseWindow3LineAt2();
    SliceIs(w, 2, "echo");
    WordStep(w, State(0, None, Some(LeftBrace)), 2, "echo");
  }

  lemma NestedIfElseStep11(ls: seq<string>)
    requires NestedIfElseShape(ls) && |Join(ls)| == 103
    ensures Step(Join(ls), State(40, None, Some(LeftBrace))) == (Some(Token(Word("echo"), 4)), State(47, None, Some(Word("echo"))))
  {
    NestedIfElsePrefix3(ls);
    JoinWindow(ls, 3);
    NestedIfElseWindowStep11();
    StepInWindow(Join(ls[..3]), NestedIfElseWindow3(), Join(ls[5..]), State(0, None, Some(LeftBrace)));
  }

  lemma NestedIfElseWindow3LineAt7()
    ensures LineAt(NestedIfElseWindow3(), 7) == 1
  {
    var w := NestedIfElseWindow3();
    NestedIfElseWindow3LineAt2();
    LineAtNoNewline(w, 2, 7);
  }

  lemma NestedIfElseWindowStep12()
    ensures Step(NestedIfElseWindow3(), State(7, None, Some(Word("echo")))) == (Some(Token(Word("b"), 1)), State(8, None, Some(Word("b"))))
  {
    var w := NestedIfElseWindow3();
    NestedIfElseWindow3LineAt7();
    SliceIs(w, 7, "b");
    WordStep(w, State(7, None, Some(Word("echo"))), 7, "b");
  }

  lemma NestedIfElseStep12(ls: seq<string>)
    requires NestedIfElseShape(ls) && |Join(ls)| == 103
    ensures Step(Join(ls), State(47, None, Some(Word("echo")))) == (Some(Token(Word("b"), 4)), State(48, None, Some(Word("b"))))
  {
    NestedIfElsePrefix3(ls);
    JoinWindow(ls, 3);
    NestedIfElseWindowStep12();
    StepInWindow(Join(ls[..3]), NestedIfElseWindow3(), Join(ls[5..]), State(7, None, Some(Word("echo"))));
  }

  lemma NestedIfElseWindow3LineAt8()
    ensures LineAt(NestedIfElseWindow3(), 8) == 1
  {
    var w := NestedIfElseWindow3();
    NestedIfElseWindow3LineAt7();
    LineAtNoNewline(w, 7, 8);
  }

  lemma NestedIfElseWindowStep13()
    ensures Step(NestedIfElseWindow3(), State(8, None, Some(Word("b")))) == (Some(Token(Semi, 1)), State(9, None, Some(Semi)))
  {
    var w := NestedIfElseWindow3();
    NestedIfElseWindow3LineAt8();
    LineAtNext(w, 8);
    TerminatorStep(w, State(8, None, Some(Word("b"))), 8, 9);
  }

  lemma NestedIfElseStep13(ls: seq<string>)
    requires NestedIfElseShape(ls) && |Join(ls)| == 103
    ensures Step(Join(ls), State(48, None, Some(Word("b")))) == (Some(Token(Semi, 4)), State(49, None, Some(Semi)))
  {
    NestedIfElsePrefix3(ls);
    JoinWindow(ls, 3);
    NestedIfElseWindowStep13();
    StepInWindow(Join(ls[..3]), NestedIfElseWindow3(), Join(ls[5..]), State(8, None, Some(Word("b"))));
  }

  function NestedIfElseWindow4(): string
  {
    "  echo 2\n" + "  if true {\n"
  }

  lemma NestedIfElseWindow4LineAt2()
    ensures LineAt(NestedIfElseWindow4(), 2) == 1
  {
    var w := NestedIfElseWindow4();
    LineAtNoNewline(w, 0, 2);
  }

  lemma NestedIfElseWindowStep14()
    ensures Step(NestedIfElseWindow4(), State(0, None, Some(Semi))) == (Some(Token(Word("echo"), 1)), State(7, None, Some(Word("echo"))))
  {
    var w := NestedIfElseWindow4();
    NestedIfElseWindow4LineAt2();
    SliceIs(w, 2, "echo");
    WordStep(w, State(0, None, Some(Semi)), 2, "echo");
  }

  lemma NestedIfElseStep14(ls: seq<string>)
    requires NestedIfElseShape(ls) && |Join(ls)| == 103
    ensures Step(Join(ls), State(49, None, Some(Semi))) == (Some(Token(Word("echo"), 5)), State(56, None, Some(Word("echo"))))
  {
    NestedIfElsePrefix4(ls);
    JoinWindow(ls, 4);
    NestedIfElseWindowStep14();
    StepInWindow(Join(ls[..4]), NestedIfElseWindow4(), Join(ls[6..]), State(0, None, Some(Semi)));
  }

  lemma NestedIfElseWindow4LineAt7()
    ensures LineAt(NestedIfElseWindow4(), 7) == 1
  {
    var w := NestedIfElseWindow4();
    NestedIfElseWindow4LineAt2();
    LineAtNoNewline(w, 2, 7);
  }

  lemma NestedIfElseWindowStep15()
    ensures Step(NestedIfElseWindow4(), State(7, None, Some(Word("echo")))) == (Some(Token(Word("2"), 1)), State(8, None, Some(Word("2"))))
  {
    var w := NestedIfElseWindow4();
    NestedIfElseWindow4LineAt7();
    SliceIs(w, 7, "2");
    WordStep(w, State(7, None, Some(Word("echo"))), 7, "2");
  }

  lemma NestedIfElseStep15(ls: seq<string>)
    requires NestedIfElseShape(ls) && |Join(ls)| == 103
    ensures Step(Join(ls), State(56, None, Some(Word("echo")))) == (Some(Token(Word("2"), 5)), State(57, None, Some(Word("2"))))
  {
    NestedIfElsePrefix4(ls);
    JoinWindow(ls, 4);
    NestedIfElseWindowStep15();
    StepInWindow(Join(ls[..4]), NestedIfElseWindow4(), Join(ls[6..]), State(7, None, Some(Word("echo"))));
  }

  lemma NestedIfElseWindow4LineAt8()
    ensures LineAt(NestedIfElseWindow4(), 8) == 1
  {
    var w := NestedIfElseWindow4();
    NestedIfElseWindow4LineAt7();
    LineAtNoNewline(w, 7, 8);
  }

  lemma NestedIfElseWindowStep16()
    ensures Step(NestedIfElseWindow4(), State(8, None, Some(Word("2")))) == (Some(Token(Semi, 1)), State(9, None, Some(Semi)))
  {
    var w := NestedIfElseWindow4();
    NestedIfElseWindow4LineAt8();
    LineAtNext(w, 8);
    TerminatorStep(w, State(8, None, Some(Word("2"))), 8, 9);
  }

  lemma NestedIfElseStep16(ls: seq<string>)
    requires NestedIfElseShape(ls) && |Join(ls)| == 103
    ensures Step(Join(ls), State(57, None, Some(Word("2")))) == (Some(Token(Semi, 5)), State(58, None, Some(Semi)))
  {
    NestedIfElsePrefix4(ls);
    JoinWindow(ls, 4);
    NestedIfElseWindowStep16();
    StepInWindow(Join(ls[..4]), NestedIfElseWindow4(), Join(ls[6..]), State(8, None, Some(Word("2"))));
  }

  function NestedIfElseWindow5(): string
  {
    "  if true {\n" + "    exit\n"
  }

  lemma NestedIfElseWindow5LineAt2()
    ensures LineAt(NestedIfElseWindow5(), 2) == 1
  {
    var w := NestedIfElseWindow5();
    LineAtNoNewline(w, 0, 2);
  }

  lemma NestedIfElseWindowStep17()
    ensures Step(NestedIfElseWindow5(), State(0, None, Some(Semi))) == (Some(Token(Word("if"), 1)), State(5, None, Some(Word("if"))))
  {
    var w := NestedIfElseWindow5();
    NestedIfElseWindow5LineAt2();
    SliceIs(w, 2, "if");
    WordStep(w, State(0, None, Some(Semi)), 2, "if");
  }

  lemma NestedIfElseStep17(ls: seq<string>)
    requires NestedIfElseShape(ls) && |Join(ls)| == 103
    ensures Step(Join(ls), State(58, None, Some(Semi))) == (Some(Token(Word("if"), 6)), State(63, None, Some(Word("if"))))
  {
    NestedIfElsePrefix5(ls);
    JoinWindow(ls, 5);
    NestedIfElseWindowStep17();
    StepInWindow(Join(ls[..5]), NestedIfElseWindow5(), Join(ls[7..]), State(0, None, Some(Semi)));
  }

  lemma NestedIfElseWindow5LineAt5()
    ensures LineAt(NestedIfElseWindow5(), 5) == 1
  {
    var w := NestedIfElseWindow5();
    NestedIfElseWindow5LineAt2();
    LineAtNoNewline(w, 2, 5);
  }

  lemma NestedIfElseWindowStep18()
    ensures Step(NestedIfElseWindow5(), State(5, None, Some(Word("if")))) == (Some(Token(Word("true"), 1)), State(10, None, Some(Word("true"))))
  {
    var w := NestedIfElseWindow5();
    NestedIfElseWindow5LineAt5();
    SliceIs(w, 5, "true");
    WordStep(w, State(5, None, Some(Word("if"))), 5, "true");
  }

  lemma NestedIfElseStep18(ls: seq<string>)
    requires NestedIfElseShape(ls) && |Join(ls)| == 103
    ensures Step(Join(ls), State(63, None, Some(Word("if")))) == (Some(Token(Word("true"), 6)), State(68, None, Some(Word("true"))))
  {
    NestedIfElsePrefix5(ls);
    JoinWindow(ls, 5);
    NestedIfElseWindowStep18();
    StepInWindow(Join(ls[..5]), NestedIfElseWindow5(), Join(ls[7..]), State(5, None, Some(Word("if"))));
  }

  lemma NestedIfElseWindow5LineAt10()
    ensures LineAt(NestedIfElseWindow5(), 10) == 1
  {
    var w := NestedIfElseWindow5();
    NestedIfElseWindow5LineAt5();
    LineAtNoNewline(w, 5, 10);
  }

  lemma NestedIfElseWindowStep19()
    ensures Step(NestedIfElseWindow5(), State(10, None, Some(Word("true")))) == (Some(Token(LeftBrace, 1)), State(12, None, Some(LeftBrace)))
  {
    var w := NestedIfElseWindow5();
    NestedIfElseWindow5LineAt10();
    LeftBraceStep(w, State(10, None, Some(Word("true"))), 10, 12);
  }

  lemma NestedIfElseStep19(ls: seq<string>)
    requires NestedIfElseShape(ls) && |Join(ls)| == 103
    ensures Step(Join(ls), State(68, None, Some(Word("true")))) == (Some(Token(LeftBrace, 6)), State(70, None, Some(LeftBrace)))
  {
    NestedIfElsePrefix5(ls);
    JoinWindow(ls, 5);
    NestedIfElseWindowStep19();
    StepInWindow(Join(ls[..5]), NestedIfElseWindow5(), Join(ls[7..]), State(10, None, Some(Word("true"))));
  }

  function NestedIfElseWindow6(): string
  {
    "    exit\n" + "  }\n"
  }

  lemma NestedIfElseWindow6LineAt4()
    ensures LineAt(NestedIfElseWindow6(), 4) == 1
  {
    var w := NestedIfElseWindow6();
    LineAtNoNewline(w, 0, 4);
  }

  lemma NestedIfElseWindowStep20()
    ensures Step(NestedIfElseWindow6(), State(0, None, Some(LeftBrace))) == (Some(Token(Word("exit"), 1)), State(8, None, Some(Word("exit"))))
  {
    var w := NestedIfElseWindow6();
    NestedIfElseWindow6LineAt4();
    SliceIs(w, 4, "exit");
    WordStep(w, State(0, None, Some(LeftBrace)), 4, "exit");
  }

  lemma NestedIfElseStep20(ls: seq<string>)
    requires NestedIfElseShape(ls) && |Join(ls)| == 103
    ensures Step(Join(ls), State(70, None, Some(LeftBrace))) == (Some(Token(Word("exit"), 7)), State(78, None, Some(Word("exit"))))
  {
    NestedIfElsePrefix6(ls);
    JoinWindow(ls, 6);
    NestedIfElseWindowStep20();
    StepInWindow(Join(ls[..6]), NestedIfElseWindow6(), Join(ls[8..]), State(0, None, Some(LeftBrace)));
  }

  lemma NestedIfElseWindow6LineAt8()
    ensures LineAt(NestedIfElseWindow6(), 8) == 1
  {
    var w := NestedIfElseWindow6();
    NestedIfElseWindow6LineAt4();
    LineAtNoNewline(w, 4, 8);
  }

  lemma NestedIfElseWindowStep21()
    ensures Step(NestedIfElseWindow6(), State(8, None, Some(Word("exit")))) == (Some(Token(Semi, 1)), State(9, None, Some(Semi)))
  {
    var w := NestedIfElseWindow6();
    NestedIfElseWindow6LineAt8();
    LineAtNext(w, 8);
    TerminatorStep(w, State(8, None, Some(Word("exit"))), 8, 9);
  }

  lemma NestedIfElseStep21(ls: seq<string>)
    requires NestedIfElseShape(ls) && |Join(ls)| == 103
    ensures Step(Join(ls), State(78, None, Some(Word("exit")))) == (Some(Token(Semi, 7)), State(79, None, Some(Semi)))
  {
    NestedIfElsePrefix6(ls);
    JoinWindow(ls, 6);
    NestedIfElseWindowStep21();
    StepInWindow(Join(ls[..6]), NestedIfElseWindow6(), Join(ls[8..]), State(8, None, Some(Word("exit"))));
  }

  function NestedIfElseWindow7(): string
  {
    "  }\n" + "} else {\n"
  }

  lemma NestedIfElseWindow7LineAt2()
    ensures LineAt(NestedIfElseWindow7(), 2) == 1
  {
    var w := NestedIfElseWindow7();
    LineAtNoNewline(w, 0, 2);
  }

  lemma NestedIfElseWindowStep22()
    ensures Step(NestedIfElseWindow7(), State(0, None, Some(Semi))) == (Some(Token(RightBrace, 1)), State(3, None, Some(RightBrace)))
  {
    var w := NestedIfElseWindow7();
    NestedIfElseWindow7LineAt2();
    RightBraceStep(w, State(0, None, Some(Semi)), 2);
  }

  lemma NestedIfElseStep22(ls: seq<string>)
    requires NestedIfElseShape(ls) && |Join(ls)| == 103
    ensures Step(Join(ls), State(79, None, Some(Semi))) == (Some(Token(RightBrace, 8)), State(82, None, Some(RightBrace)))
  {
    NestedIfElsePrefix7(ls);
    JoinWindow(ls, 7);
    NestedIfElseWindowStep22();
    StepInWindow(Join(ls[..7]), NestedIfElseWindow7(), Join(ls[9..]), State(0, None, Some(Semi)));
  }

  lemma NestedIfElseWindow7LineAt3()
    ensures LineAt(NestedIfElseWindow7(), 3) == 1
  {
    var w := NestedIfElseWindow7();
    NestedIfElseWindow7LineAt2();
    LineAtNoNewline(w, 2, 3);
  }

  lemma NestedIfElseWindowStep23()
    ensures Step(NestedIfElseWindow7(), State(3, None, Some(RightBrace))) == (Some(Token(Semi, 1)), State(4, None, Some(Semi)))
  {
    var w := NestedIfElseWindow7();
    NestedIfElseWindow7LineAt3();
    LineAtNext(w, 3);
    TerminatorStep(w, State(3, None, Some(RightBrace)), 3, 4);
  }

  lemma NestedIfElseStep23(ls: seq<string>)
    requires NestedIfElseShape(ls) && |Join(ls)| == 103
    ensures Step(Join(ls), State(82, None, Some(RightBrace))) == (Some(Token(Semi, 8)), State(83, None, Some(Semi)))
  {
    NestedIfElsePrefix7(ls);
    JoinWindow(ls, 7);
    NestedIfElseWindowStep23();
    StepInWindow(Join(ls[..7]), NestedIfElseWindow7(), Join(ls[9..]), State(3, None, Some(RightBrace)));
  }

  function NestedIfElseWindow8(): string
  {
    "} else {\n" + "  echo c\n"
  }

  lemma NestedIfElseWindowStep24()
    ensures Step(NestedIfElseWindow8(), State(0, None, Some(Semi))) == (Some(Token(RightBrace, 1)), State(1, None, Some(RightBrace)))
  {
    var w := NestedIfElseWindow8();
    RightBraceStep(w, State(0, None, Some(Semi)), 0);
  }

  lemma NestedIfElseStep24(ls: seq<string>)
    requires NestedIfElseShape(ls) && |Join(ls)| == 103
    ensures Step(Join(ls), State(83, None, Some(Semi))) == (Some(Token(RightBrace, 9)), State(84, None, Some(RightBrace)))
  {
    NestedIfElsePrefix8(ls);
    JoinWindow(ls, 8);
    NestedIfElseWindowStep24();
    StepInWindow(Join(ls[..8]), NestedIfElseWindow8(), Join(ls[10..]), State(0, None, Some(Semi)));
  }

  lemma NestedIfElseWindow8LineAt2()
    ensures LineAt(NestedIfElseWindow8(), 2) == 1
  {
    var w := NestedIfElseWindow8();
    LineAtNoNewline(w, 0, 2);
  }

  lemma NestedIfElseWindowStep25()
    ensures Step(NestedIfElseWindow8(), State(1, None, Some(RightBrace))) == (Some(Token(Word("else"), 1)), State(7, None, Some(Word("else"))))
  {
    var w := NestedIfElseWindow8();
    NestedIfElseWindow8LineAt2();
    SliceIs(w, 2, "else");
    WordStep(w, State(1, None, Some(RightBrace)), 2, "else");
  }

  lemma NestedIfElseStep25(ls: seq<string>)
    requires NestedIfElseShape(ls) && |Join(ls)| == 103
    ensures Step(Join(ls), State(84, None, Some(RightBrace))) == (Some(Token(Word("else"), 9)), State(90, None, Some(Word("else"))))
  {
    NestedIfElsePrefix8(ls);
    JoinWindow(ls, 8);
    NestedIfElseWindowStep25();
    StepInWindow(Join(ls[..8]), NestedIfElseWindow8(), Join(ls[10..]), State(1, None, Some(RightBrace)));
  }

  lemma NestedIfElseWindow8LineAt7()
    ensures LineAt(NestedIfElseWindow8(), 7) == 1
  {
    var w := NestedIfElseWindow8();
    NestedIfElseWindow8LineAt2();
    LineAtNoNewline(w, 2, 7);
  }

  lemma NestedIfElseWindowStep26()
    ensures Step(NestedIfElseWindow8(), State(7, None, Some(Word("else")))) == (Some(Token(LeftBrace, 1)), State(9, None, Some(LeftBrace)))
  {
    var w := NestedIfElseWindow8();
    NestedIfElseWindow8LineAt7();
    LeftBraceStep(w, State(7, None, Some(Word("else"))), 7, 9);
  }

  lemma NestedIfElseStep26(ls: seq<string>)
    requires NestedIfElseShape(ls) && |Join(ls)| == 103
    ensures Step(Join(ls), State(90, None, Some(Word("else")))) == (Some(Token(LeftBrace, 9)), State(92, None, Some(LeftBrace)))
  {
    NestedIfElsePrefix8(ls);
    JoinWindow(ls, 8);
    NestedIfElseWindowStep26();
    StepInWindow(Join(ls[..8]), NestedIfElseWindow8(), Join(ls[10..]), State(7, None, Some(Word("else"))));
  }

  function NestedIfElseWindow9(): string
  {
    "  echo c\n" + "}\n"
  }

  lemma NestedIfElseWindow9LineAt2()
    ensures LineAt(NestedIfElseWindow9(), 2) == 1
  {
    var w := NestedIfElseWindow9();
    LineAtNoNewline(w, 0, 2);
  }

  lemma NestedIfElseWindowStep27()
    ensures Step(NestedIfElseWindow9(), State(0, None, Some(LeftBrace))) == (Some(Token(Word("echo"), 1)), State(7, None, Some(Word("echo"))))
  {
    var w := NestedIfElseWindow9();
    NestedIfElseWindow9LineAt2();
    SliceIs(w, 2, "echo");
    WordStep(w, State(0, None, Some(LeftBrace)), 2, "echo");
  }

  lemma NestedIfElseStep27(ls: seq<string>)
    requires NestedIfElseShape(ls) && |Join(ls)| == 103
    ensures Step(Join(ls), State(92, None, Some(LeftBrace))) == (Some(Token(Word("echo"), 10)), State(99, None, Some(Word("echo"))))
  {
    NestedIfElsePrefix9(ls);
    JoinWindow(ls, 9);
    NestedIfElseWindowStep27();
    StepInWindow(Join(ls[..9]), NestedIfElseWindow9(), Join(ls[11..]), State(0, None, Some(LeftBrace)));
  }

  lemma NestedIfElseWindow9LineAt7()
    ensures LineAt(NestedIfElseWindow9(), 7) == 1
  {
    var w := NestedIfElseWindow9();
    NestedIfElseWindow9LineAt2();
    LineAtNoNewline(w, 2, 7);
  }

  lemma NestedIfElseWindowStep28()
    ensures Step(NestedIfElseWindow9(), State(7, None, Some(Word("echo")))) == (Some(Token(Word("c"), 1)), State(8, None, Some(Word("c"))))
  {
    var w := NestedIfElseWindow9();
    NestedIfElseWindow9LineAt7();
    SliceIs(w, 7, "c");
    WordStep(w, State(7, None, Some(Word("echo"))), 7, "c");
  }

  lemma NestedIfElseStep28(ls: seq<string>)
    requires NestedIfElseShape(ls) && |Join(ls)| == 103
    ensures Step(Join(ls), State(99, None, Some(Word("echo")))) == (Some(Token(Word("c"), 10)), State(100, None, Some(Word("c"))))
  {
    NestedIfElsePrefix9(ls);
    JoinWindow(ls, 9);
    NestedIfElseWindowStep28();
    StepInWindow(Join(ls[..9]), NestedIfElseWindow9(), Join(ls[11..]), State(7, None, Some(Word("echo"))));
  }

  lemma NestedIfElseWindow9LineAt8()
    ensures LineAt(NestedIfElseWindow9(), 8) == 1
  {
    var w := NestedIfElseWindow9();
    NestedIfElseWindow9LineAt7();
    LineAtNoNewline(w, 7, 8);
  }

  lemma NestedIfElseWindowStep29()
    ensures Step(NestedIfElseWindow9(), State(8, None, Some(Word("c")))) == (Some(Token(Semi, 1)), State(9, None, Some(Semi)))
  {
    var w := NestedIfElseWindow9();
    NestedIfElseWindow9LineAt8();
    LineAtNext(w, 8);
    TerminatorStep(w, State(8, None, Some(Word("c"))), 8, 9);
  }

  lemma NestedIfElseStep29(ls: seq<string>)
    requires NestedIfElseShape(ls) && |Join(ls)| == 103
    ensures Step(Join(ls), State(100, None, Some(Word("c")))) == (Some(Token(Semi, 10)), State(101, None, Some(Semi)))
  {
    NestedIfElsePrefix9(ls);
    JoinWindow(ls, 9);
    NestedIfElseWindowStep29();
    StepInWindow(Join(ls[..9]), NestedIfElseWindow9(), Join(ls[11..]), State(8, None, Some(Word("c"))));
  }

  function NestedIfElseWindow10(): string
  {
    "}\n"
  }

  lemma NestedIfElseWindowStep30()
    ensures Step(NestedIfElseWindow10(), State(0, None, Some(Semi))) == (Some(Token(RightBrace, 1)), State(1, None, Some(RightBrace)))
  {
    var w := NestedIfElseWindow10();
    RightBraceStep(w, State(0, None, Some(Semi)), 0);
  }

  lemma NestedIfElseStep30(ls: seq<string>)
    requires NestedIfElseShape(ls) && |Join(ls)| == 103
    ensures Step(Join(ls), State(101, None, Some(Semi))) == (Some(Token(RightBrace, 11)), State(102, None, Some(RightBrace)))
  {
    NestedIfElsePrefix10(ls);
    JoinLast(ls);
    NestedIfElseWindowStep30();
    StepInWindow(Join(ls[..10]), NestedIfElseWindow10(), "", State(0, None, Some(Semi)));
  }

  lemma NestedIfElseWindow10LineAt1()
    ensures LineAt(NestedIfElseWindow10(), 1) == 1
  {
    var w := NestedIfElseWindow10();
    LineAtNoNewline(w, 0, 1);
  }

  lemma NestedIfElseWindowStep31()
    ensures Step(NestedIfElseWindow10(), State(1, None, Some(RightBrace))) == (Some(Token(Semi, 1)), State(2, None, Some(Semi)))
  {
    var w := NestedIfElseWindow10();
    NestedIfElseWindow10LineAt1();
    LineAtNext(w, 1);
    TerminatorStep(w, State(1, None, Some(RightBrace)), 1, 2);
  }

  lemma NestedIfElseStep31(ls: seq<string>)
    requires NestedIfElseShape(ls) && |Join(ls)| == 103
    ensures Step(Join(ls), State(102, None, Some(RightBrace))) == (Some(Token(Semi, 11)), State(103, None, Some(Semi)))
  {
    NestedIfElsePrefix10(ls);
    JoinLast(ls);
    NestedIfElseWindowStep31();
    StepInWindow(Join(ls[..10]), NestedIfElseWindow10(), "", State(1, None, Some(RightBrace)));
  }

  lemma NestedIfElseWindowStep32()
    ensures Step(NestedIfElseWindow10(), State(2, None, Some(Semi))) == (None, State(2, None, Some(Semi)))
  {
    var w := NestedIfElseWindow10();
    EndStep(w, State(2, None, Some(Semi)));
  }

  lemma NestedIfElseStep32(ls: seq<string>)
    requires NestedIfElseShape(ls) && |Join(ls)| == 103
    ensures Step(Join(ls), State(103, None, Some(Semi))) == (None, State(103, None, Some(Semi)))
  {
    NestedIfElsePrefix10(ls);
    JoinLast(ls);
    NestedIfElseWindowStep32();
    StepInWindow(Join(ls[..10]), NestedIfElseWindow10(), "", State(2, None, Some(Semi)));
  }

  lemma NestedIfElseChunk0(ls: seq<string>)
    requires NestedIfElseShape(ls) && |Join(ls)| == 103
    ensures Tokens(Join(ls), Start) ==
            [Token(Word("if"), 1), Token(Word("/bin/a"), 1), Token(LeftBrace, 1), Token(Word("echo"), 2)] +
            Tokens(Join(ls), State(19, None, Some(Word("echo"))))
  {
    var src := Join(ls);
    NestedIfElseStep0(ls);
    NestedIfElseStep1(ls);
    NestedIfElseStep2(ls);
    NestedIfElseStep3(ls);
    TokensCons(src, Start, Token(Word("if"), 1), State(3, None, Some(Word("if"))));
    TokensCons(src, State(3, None, Some(Word("if"))), Token(Word("/bin/a"), 1), State(10, None, Some(Word("/bin/a"))));
    TokensCons(src, State(10, None, Some(Word("/bin/a"))), Token(LeftBrace, 1), State(12, None, Some(LeftBrace)));
    TokensCons(src, State(12, None, Some(LeftBrace)), Token(Word("echo"), 2), State(19, None, Some(Word("echo"))));
  }

  lemma NestedIfElseChunk4(ls: seq<string>)
    requires NestedIfElseShape(ls) && |Join(ls)| == 103
    ensures Tokens(Join(ls), State(19, None, Some(Word("echo")))) ==
            [Token(Word("a"), 2), Token(Semi, 2), Token(RightBrace, 3), Token(Word("else"), 3)] +
            Tokens(Join(ls), State(28, None, Some(Word("else"))))
  {
    var src := Join(ls);
    NestedIfElseStep4(ls);
    NestedIfElseStep5(ls);
    NestedIfElseStep6(ls);
    NestedIfElseStep7(ls);
    TokensCons(src, State(19, None, Some(Word("echo"))), Token(Word("a"), 2), State(20, None, Some(Word("a"))));
    TokensCons(src, State(20, None, Some(Word("a"))), Token(Semi, 2), State(21, None, Some(Semi)));
    TokensCons(src, State(21, None, Some(Semi)), Token(RightBrace, 3), State(22, None, Some(RightBrace)));
    TokensCons(src, State(22, None, Some(RightBrace)), Token(Word("else"), 3), State(28, None, Some(Word("else"))));
  }

  lemma NestedIfElseChunk8(ls: seq<string>)
    requires NestedIfElseShape(ls) && |Join(ls)| == 103
    ensures Tokens(Join(ls), State(28, None, Some(Word("else")))) ==
            [Token(Word("if"), 3), Token(Word("/bin/b"), 3), Token(LeftBrace, 3), Token(Word("echo"), 4)] +
            Tokens(Join(ls), State(47, None, Some(Word("echo"))))
  {
    var src := Join(ls);
    NestedIfElseStep8(ls);
    NestedIfElseStep9(ls);
    NestedIfElseStep10(ls);
    NestedIfElseStep11(ls);
    TokensCons(src, State(28, None, Some(Word("else"))), Token(Word("if"), 3), State(31, None, Some(Word("if"))));
    TokensCons(src, State(31, None, Some(Word("if"))), Token(Word("/bin/b"), 3), State(38, None, Some(Word("/bin/b"))));
    TokensCons(src, State(38, None, Some(Word("/bin/b"))), Token(LeftBrace, 3), State(40, None, Some(LeftBrace)));
    TokensCons(src, State(40, None, Some(LeftBrace)), Token(Word("echo"), 4), State(47, None, Some(Word("echo"))));
  }

  lemma NestedIfElseChunk12(ls: seq<string>)
    requires NestedIfElseShape(ls) && |Join(ls)| == 103
    ensures Tokens(Join(ls), State(47, None, Some(Word("echo")))) ==
            [Token(Word("b"), 4), Token(Semi, 4), Token(Word("echo"), 5), Token(Word("2"), 5)] +
            Tokens(Join(ls), State(57, None, Some(Word("2"))))
  {
    var src := Join(ls);
    NestedIfElseStep12(ls);
    NestedIfElseStep13(ls);
    NestedIfElseStep14(ls);
    NestedIfElseStep15(ls);
    TokensCons(src, State(47, None, Some(Word("echo"))), Token(Word("b"), 4), State(48, None, Some(Word("b"))));
    TokensCons(src, State(48, None, Some(Word("b"))), Token(Semi, 4), State(49, None, Some(Semi)));
    TokensCons(src, State(49, None, Some(Semi)), Token(Word("echo"), 5), State(56, None, Some(Word("echo"))));
    TokensCons(src, State(56, None, Some(Word("echo"))), Token(Word("2"), 5), State(57, None, Some(Word("2"))));
  }

  lemma NestedIfElseChunk16(ls: seq<string>)
    requires NestedIfElseShape(ls) && |Join(ls)| == 103
    ensures Tokens(Join(ls), State(57, None, Some(Word("2")))) ==
            [Token(Semi, 5), Token(Word("if"), 6), Token(Word("true"), 6), Token(LeftBrace, 6)] +
            Tokens(Join(ls), State(70, None, Some(LeftBrace)))
  {
    var src := Join(ls);
    NestedIfElseStep16(ls);
    NestedIfElseStep17(ls);
    NestedIfElseStep18(ls);
    NestedIfElseStep19(ls);
    TokensCons(src, State(57, None, Some(Word("2"))), Token(Semi, 5), State(58, None, Some(Semi)));
    TokensCons(src, State(58, None, Some(Semi)), Token(Word("if"), 6), State(63, None, Some(Word("if"))));
    TokensCons(src, State(63, None, Some(Word("if"))), Token(Word("true"), 6), State(68, None, Some(Word("true"))));
    TokensCons(src, State(68, None, Some(Word("true"))), Token(LeftBrace, 6), State(70, None, Some(LeftBrace)));
  }

  lemma NestedIfElseChunk20(ls: seq<string>)
    requires NestedIfElseShape(ls) && |Join(ls)| == 103
    ensures Tokens(Join(ls), State(70, None, Some(LeftBrace))) ==
            [Token(Word("exit"), 7), Token(Semi, 7), Token(RightBrace, 8), Token(Semi, 8)] +
            Tokens(Join(ls), State(83, None, Some(Semi)))
  {
    var src := Join(ls);
    NestedIfElseStep20(ls);
    NestedIfElseStep21(ls);
    NestedIfElseStep22(ls);
    NestedIfElseStep23(ls);
    TokensCons(src, State(70, None, Some(LeftBrace)), Token(Word("exit"), 7), State(78, None, Some(Word("exit"))));
    TokensCons(src, State(78, None, Some(Word("exit"))), Token(Semi, 7), State(79, None, Some(Semi)));
    TokensCons(src, State(79, None, Some(Semi)), Token(RightBrace, 8), State(82, None, Some(RightBrace)));
    TokensCons(src, State(82, None, Some(RightBrace)), Token(Semi, 8), State(83, None, Some(Semi)));
  }

  lemma NestedIfElseChunk24(ls: seq<string>)
    requires NestedIfElseShape(ls) && |Join(ls)| == 103
    ensures Tokens(Join(ls), State(83, None, Some(Semi))) ==
            [Token(RightBrace, 9), Token(Word("else"), 9), Token(LeftBrace, 9), Token(Word("echo"), 10)] +
            Tokens(Join(ls), State(99, None, Some(Word("echo"))))
  {
    var src := Join(ls);
    NestedIfElseStep24(ls);
    NestedIfElseStep25(ls);
    NestedIfElseStep26(ls);
    NestedIfElseStep27(ls);
    TokensCons(src, State(83, None, Some(Semi)), Token(RightBrace, 9), State(84, None, Some(RightBrace)));
    TokensCons(src, State(84, None, Some(RightBrace)), Token(Word("else"), 9), State(90, None, Some(Word("else"))));
    TokensCons(src, State(90, None, Some(Word("else"))), Token(LeftBrace, 9), State(92, None, Some(LeftBrace)));
    TokensCons(src, State(92, None, Some(LeftBrace)), Token(Word("echo"), 10), State(99, None, Some(Word("echo"))));
  }

  lemma NestedIfElseChunk28(ls: seq<string>)
    requires NestedIfElseShape(ls) && |Join(ls)| == 103
    ensures Tokens(Join(ls), State(99, None, Some(Word("echo")))) ==
            [Token(Word("c"), 10), Token(Semi, 10), Token(RightBrace, 11), Token(Semi, 11)] +
            Tokens(Join(ls), State(103, None, Some(Semi)))
  {
    var src := Join(ls);
    NestedIfElseStep28(ls);
    NestedIfElseStep29(ls);
    NestedIfElseStep30(ls);
    NestedIfElseStep31(ls);
    TokensCons(src, State(99, None, Some(Word("echo"))), Token(Word("c"), 10), State(100, None, Some(Word("c"))));
    TokensCons(src, State(100, None, Some(Word("c"))), Token(Semi, 10), State(101, None, Some(Semi)));
    TokensCons(src, State(101, None, Some(Semi)), Token(RightBrace, 11), State(102, None, Some(RightBrace)));
    TokensCons(src, State(102, None, Some(RightBrace)), Token(Semi, 11), State(103, None, Some(Semi)));
  }

  lemma NestedIfElseFrom28(ls: seq<string>)
    requires NestedIfElseShape(ls) && |Join(ls)| == 103
    ensures Tokens(Join(ls), State(99, None, Some(Word("echo")))) ==
      [Token(Word("c"), 10), Token(Semi, 10), Token(RightBrace, 11), Token(Semi, 11)]
  {
    NestedIfElseChunk28(ls);
    NestedIfElseStep32(ls);
    TokensNil(Join(ls), State(103, None, Some(Semi)));
  }

  lemma NestedIfElseFrom24(ls: seq<string>)
    requires NestedIfElseShape(ls) && |Join(ls)| == 103
    ensures Tokens(Join(ls), State(83, None, Some(Semi))) ==
      [Token(RightBrace, 9), Token(Word("else"), 9), Token(LeftBrace, 9), Token(Word("echo"), 10)] +
      ([Token(Word("c"), 10), Token(Semi, 10), Token(RightBrace, 11), Token(Semi, 11)])
  {
    NestedIfElseChunk24(ls);
    NestedIfElseFrom28(ls);
  }

  lemma NestedIfElseFrom20(ls: seq<string>)
    requires NestedIfElseShape(ls) && |Join(ls)| == 103
    ensures Tokens(Join(ls), State(70, None, Some(LeftBrace))) ==
      [Token(Word("exit"), 7), Token(Semi, 7), Token(RightBrace, 8), Token(Semi, 8)] +
      ([Token(RightBrace, 9), Token(Word("else"), 9), Token(LeftBrace, 9), Token(Word("echo"), 10)] +
      ([Token(Word("c"), 10), Token(Semi, 10), Token(RightBrace, 11), Token(Semi, 11)]))
  {
    NestedIfElseChunk20(ls);
    NestedIfElseFrom24(ls);
  }

  lemma NestedIfElseFrom16(ls: seq<string>)
    requires NestedIfElseShape(ls) && |Join(ls)| == 103
    ensures Tokens(Join(ls), State(57, None, Some(Word("2")))) ==
      [Token(Semi, 5), Token(Word("if"), 6), Token(Word("true"), 6), Token(LeftBrace, 6)] +
      ([Token(Word("exit"), 7), Token(Semi, 7), Token(RightBrace, 8), Token(Semi, 8)] +
      ([Token(RightBrace, 9), Token(Word("else"), 9), Token(LeftBrace, 9), Token(Word("echo"), 10)] +
      ([Token(Word("c"), 10), Token(Semi, 10), Token(RightBrace, 11), Token(Semi, 11)])))
  {
    NestedIfElseChunk16(ls);
    NestedIfElseFrom20(ls);
  }

  lemma NestedIfElseFrom12(ls: seq<string>)
    requires NestedIfElseShape(ls) && |Join(ls)| == 103
    ensures Tokens(Join(ls), State(47, None, Some(Word("echo")))) ==
      [Token(Word("b"), 4), Token(Semi, 4), Token(Word("echo"), 5), Token(Word("2"), 5)] +
      ([Token(Semi, 5), Token(Word("if"), 6), Token(Word("true"), 6), Token(LeftBrace, 6)] +
      ([Token(Word("exit"), 7), Token(Semi, 7), Token(RightBrace, 8), Token(Semi, 8)] +
      ([Token(RightBrace, 9), Token(Word("else"), 9), Token(LeftBrace, 9), Token(Word("echo"), 10)] +
      ([Token(Word("c"), 10), Token(Semi, 10), Token(RightBrace, 11), Token(Semi, 11)]))))
  {
    NestedIfElseChunk12(ls);
    NestedIfElseFrom16(ls);
  }

  lemma NestedIfElseFrom8(ls: seq<string>)
    requires NestedIfElseShape(ls) && |Join(ls)| == 103
    ensures Tokens(Join(ls), State(28, None, Some(Word("else")))) ==
      [Token(Word("if"), 3), Token(Word("/bin/b"), 3), Token(LeftBrace, 3), Token(Word("echo"), 4)] +
      ([Token(Word("b"), 4), Token(Semi, 4), Token(Word("echo"), 5), Token(Word("2"), 5)] +
      ([Token(Semi, 5), Token(Word("if"), 6), Token(Word("true"), 6), Token(LeftBrace, 6)] +
      ([Token(Word("exit"), 7), Token(Semi, 7), Token(RightBrace, 8), Token(Semi, 8)] +
      ([Token(RightBrace, 9), Token(Word("else"), 9), Token(LeftBrace, 9), Token(Word("echo"), 10)] +
      ([Token(Word("c"), 10), Token(Semi, 10), Token(RightBrace, 11), Token(Semi, 11)])))))
  {
    NestedIfElseChunk8(ls);
    NestedIfElseFrom12(ls);
  }

  lemma NestedIfElseFrom4(ls: seq<string>)
    requires NestedIfElseShape(ls) && |Join(ls)| == 103
    ensures Tokens(Join(ls), State(19, None, Some(Word("echo")))) ==
      [Token(Word("a"), 2), Token(Semi, 2), Token(RightBrace, 3), Token(Word("else"), 3)] +
      ([Token(Word("if"), 3), Token(Word("/bin/b"), 3), Token(LeftBrace, 3), Token(Word("echo"), 4)] +
      ([Token(Word("b"), 4), Token(Semi, 4), Token(Word("echo"), 5), Token(Word("2"), 5)] +
      ([Token(Semi, 5), Token(Word("if"), 6), Token(Word("true"), 6), Token(LeftBrace, 6)] +
      ([Token(Word("exit"), 7), Token(Semi, 7), Token(RightBrace, 8), Token(Semi, 8)] +
      ([Token(RightBrace, 9), Token(Word("else"), 9), Token(LeftBrace, 9), Token(Word("echo"), 10)] +
      ([Token(Word("c"), 10), Token(Semi, 10), Token(RightBrace, 11), Token(Semi, 11)]))))))
  {
    NestedIfElseChunk4(ls);
    NestedIfElseFrom8(ls);
  }

  lemma NestedIfElseFrom0(ls: seq<string>)
    requires NestedIfElseShape(ls) && |Join(ls)| == 103
    ensures Tokens(Join(ls), Start) ==
      [Token(Word("if"), 1), Token(Word("/bin/a"), 1), Token(LeftBrace, 1), Token(Word("echo"), 2)] +
      ([Token(Word("a"), 2), Token(Semi, 2), Token(RightBrace, 3), Token(Word("else"), 3)] +
      ([Token(Word("if"), 3), Token(Word("/bin/b"), 3), Token(LeftBrace, 3), Token(Word("echo"), 4)] +
      ([Token(Word("b"), 4), Token(Semi, 4), Token(Word("echo"), 5), Token(Word("2"), 5)] +
      ([Token(Semi, 5), Token(Word("if"), 6), Token(Word("true"), 6), Token(LeftBrace, 6)] +
      ([Token(Word("exit"), 7), Token(Semi, 7), Token(RightBrace, 8), Token(Semi, 8)] +
      ([Token(RightBrace, 9), Token(Word("else"), 9), Token(LeftBrace, 9), Token(Word("echo"), 10)] +
      ([Token(Word("c"), 10), Token(Semi, 10), Token(RightBrace, 11), Token(Semi, 11)])))))))
  {
    NestedIfElseChunk0(ls);
    NestedIfElseFrom4(ls);
  }

  lemma NestedIfElseTokens(ls: seq<string>)
    requires NestedIfElseShape(ls) && |Join(ls)| == 103
    ensures Tokens(Join(ls), Start) == [
      Token(Word("if"), 1),
      Token(Word("/bin/a"), 1),
      Token(LeftBrace, 1),
      Token(Word("echo"), 2),
      Token(Word("a"), 2),
      Token(Semi, 2),
      Token(RightBrace, 3),
      Token(Word("else"), 3),
      Token(Word("if"), 3),
      Token(Word("/bin/b"), 3),
      Token(LeftBrace, 3),
      Token(Word("echo"), 4),
      Token(Word("b"), 4),
      Token(Semi, 4),
      Token(Word("echo"), 5),
      Token(Word("2"), 5),
      Token(Semi, 5),
      Token(Word("if"), 6),
      Token(Word("true"), 6),
      Token(LeftBrace, 6),
      Token(Word("exit"), 7),
      Token(Semi, 7),
      Token(RightBrace, 8),
      Token(Semi, 8),
      Token(RightBrace, 9),
      Token(Word("else"), 9),
      Token(LeftBrace, 9),
      Token(Word("echo"), 10),
      Token(Word("c"), 10),
      Token(Semi, 10),
      Token(RightBrace, 11),
      Token(Semi, 11)]
  {
    NestedIfElseFrom0(ls);
  }

  lemma NestedIfElse()
    ensures Lex(NestedIfElseText()) == [
      Token(Word("if"), 1),
      Token(Word("/bin/a"), 1),
      Token(LeftBrace, 1),
      Token(Word("echo"), 2),
      Token(Word("a"), 2),
      Token(Semi, 2),
      Token(RightBrace, 3),
      Token(Word("else"), 3),
      Token(Word("if"), 3),
      Token(Word("/bin/b"), 3),
      Token(LeftBrace, 3),
      Token(Word("echo"), 4),
      Token(Word("b"), 4),
      Token(Semi, 4),
      Token(Word("echo"), 5),
      Token(Word("2"), 5),
      Token(Semi, 5),
      Token(Word("if"), 6),
      Token(Word("true"), 6),
      Token(LeftBrace, 6),
      Token(Word("exit"), 7),
      Token(Semi, 7),
      Token(RightBrace, 8),
      Token(Semi, 8),
      Token(RightBrace, 9),
      Token(Word("else"), 9),
      Token(LeftBrace, 9),
      Token(Word("echo"), 10),
      Token(Word("c"), 10),
      Token(Semi, 10),
      Token(RightBrace, 11),
      Token(Semi, 11)]
  {
    NestedIfElseLength(NestedIfElseLines());
    NestedIfElseTokens(NestedIfElseLines());
  }

}
