/** The scan of TokenStream::DoLexModule (BSLToken.cpp) as a step function over the
    loop's local state.  The imperative loop itself is TokenStream.DoLexModule in
    token_stream.dfy; it is proved to compute Lex. */
module Lexer {
  import opened Tokens

  /** The locals of DoLexModule, plus the tokens PushToken has appended so far. */
  datatype LexState = LexState(
    offset: nat,
    inStringLiteral: bool,
    inComment: bool,
    tokenStartRow: nat,
    tokenStartColumn: nat,
    tokenStartOffset: nat,
    currentRow: nat,
    currentColumn: nat,
    tokenValue: string,
    tokens: seq<Token>)

  /** The state before the first character: rows and columns count from 1, while the
      pending token's start row and column are 0 until a character records them. */
  function Initial(): LexState {
    LexState(0, false, false, 0, 0, 0, 1, 1, "", [])
  }

  /** peekSymbol: the character at offset + k, or NUL past the end. */
  function Peek(src: string, offset: nat, k: nat): char {
    if offset + k < |src| then src[offset + k] else '\0'
  }

  /** pushCurrentTokenAndStartNext: hand the pending value to PushToken and start a
      new token at the current offset. */
  function Push(st: LexState): LexState {
    st.(tokens := st.tokens + Emit(st.tokenValue, st.tokenStartRow, st.tokenStartColumn,
                                   st.tokenStartOffset, st.inStringLiteral),
        tokenStartOffset := st.offset,
        tokenValue := "")
  }

  /** A newline resets the column, counts the row and ends a line comment. */
  function NewLine(st: LexState, c: char): LexState {
    if c == '\n' then st.(currentColumn := 1, currentRow := st.currentRow + 1, inComment := false)
    else st
  }

  /** "//" outside a comment and outside a literal flushes and opens a comment. */
  function CommentStart(st: LexState, c: char, next: char): LexState {
    if c == '/' && next == '/' && !(st.inComment || st.inStringLiteral) then Push(st).(inComment := true)
    else st
  }

  /** The if-chain of the loop body, before the column and offset advance. */
  function Dispatch(st: LexState, c: char, next: char): LexState {
    if st.inComment then
      st.(tokenValue := st.tokenValue + [c])
    else if IsWhitespaceSymbol(c) && !st.inStringLiteral then
      Push(st)
    else if IsTokenDivider(c) && !st.inStringLiteral then
      Push(Push(st).(tokenValue := [c]))
    else if c == '"' then
      if st.inStringLiteral then
        if next == '"' then st.(tokenValue := st.tokenValue + ['"'], offset := st.offset + 1)
        else Push(st).(inStringLiteral := false)
      else
        st.(inStringLiteral := true, tokenStartOffset := st.offset, tokenValue := "")
    else
      var s := if st.tokenValue == "" then
                 st.(tokenStartOffset := st.offset, tokenStartRow := st.currentRow,
                     tokenStartColumn := st.currentColumn)
               else st;
      s.(tokenValue := s.tokenValue + [c])
  }

  /** One iteration of the loop. */
  function Step(src: string, st: LexState): (r: LexState)
    requires st.offset < |src|
    ensures st.offset < r.offset <= |src|
  {
    var c := src[st.offset];
    var next := Peek(src, st.offset, 1);
    var s := Dispatch(CommentStart(NewLine(st, c), c, next), c, next);
    s.(currentColumn := s.currentColumn + 1, offset := s.offset + 1)
  }

  /** After the loop a non-empty pending value is flushed. */
  function Finish(st: LexState): LexState {
    if st.tokenValue != "" then Push(st) else st
  }

  /** The loop from state st to the end of the source, then the final flush. */
  function Run(src: string, st: LexState): LexState
    requires st.offset <= |src|
    decreases |src| - st.offset
  {
    if st.offset >= |src| then Finish(st)
    else
      Run(src, Step(src, st))
  }

  /** One iteration, given its three stages: the line-break update, the comment
      opening and the symbol's branch, followed by the increments. */
  lemma StepInStages(src: string, st: LexState, dispatched: LexState)
    requires st.offset < |src|
    requires
      var c := src[st.offset];
      var next := Peek(src, st.offset, 1);
      dispatched == Dispatch(CommentStart(NewLine(st, c), c, next), c, next)
    ensures Step(src, st) == dispatched.(currentColumn := dispatched.currentColumn + 1, offset := dispatched.offset + 1)
  {
  }

  /** The loop's result is that of the loop from the next state. */
  lemma RunAdvances(src: string, st: LexState, next: LexState)
    requires st.offset < |src| && next == Step(src, st)
    ensures Run(src, next) == Run(src, st)
  {
  }

  /** The tokens DoLexModule appends for a source text. */
  function Lex(src: string): seq<Token> {
    if |src| == 0 then [] else Run(src, Initial()).tokens
  }

  // ---------------------------------------------------------------------------
  // What every produced token looks like

  /** Text of a line comment: it starts with "//" and stops before the newline. */
  predicate IsCommentText(v: string) {
    HasCommentPrefix(v) && forall i :: 0 <= i < |v| ==> v[i] != '\n'
  }

  /** A character that may continue an ordinary (non-literal, non-comment) value. */
  predicate IsWordSymbol(c: char) {
    !IsWhitespaceSymbol(c) && !IsTokenDivider(c) && c != '"'
  }

  /** Text of an ordinary token: one divider on its own, or a run of word symbols. */
  predicate IsPlainText(v: string) {
    || (|v| == 1 && IsTokenDivider(v[0]) && !IsWhitespaceSymbol(v[0]))
    || (forall i :: 0 <= i < |v| ==> IsWordSymbol(v[i]))
  }

  /** src holds v verbatim at offset. */
  predicate SpelledAt(src: string, offset: nat, v: string) {
    offset + |v| <= |src| && src[offset..offset + |v|] == v
  }

  /** What PushToken guarantees plus what the scan guarantees: a token outside a
      literal is a verbatim piece of the source, and is either a comment or an
      ordinary token without whitespace. */
  predicate WellFormedToken(src: string, t: Token) {
    && t.value != [] && t.value[0] != ByteOrderMark
    && t.sourceLength == |t.value| && !t.isFunctionCallHint
    && t.tokenType == Classify(t.value, t.isStringLiteral)
    && t.sourceOffset < |src|
    && (t.isStringLiteral || (SpelledAt(src, t.sourceOffset, t.value) && (IsCommentText(t.value) || IsPlainText(t.value))))
  }

  predicate AllWellFormed(src: string, ts: seq<Token>) {
    forall i :: 0 <= i < |ts| ==> WellFormedToken(src, ts[i])
  }

  /** Pending value of a comment: it began at a "//" of the source and holds no newline. */
  predicate CommentPending(src: string, st: LexState) {
    && st.tokenValue != []
    && st.tokenStartOffset + 1 < |src| && src[st.tokenStartOffset] == '/' && src[st.tokenStartOffset + 1] == '/'
    && (forall i :: 0 <= i < |st.tokenValue| ==> st.tokenValue[i] != '\n')
  }

  /** The loop invariant of the scan, between two iterations. */
  predicate Inv(src: string, st: LexState) {
    && st.offset <= |src|
    && st.tokenStartOffset <= st.offset
    && AllWellFormed(src, st.tokens)
    && !(st.inComment && st.inStringLiteral)
    && (st.tokenValue != [] ==> st.tokenStartOffset < st.offset)
    && (!st.inStringLiteral ==> st.tokenStartOffset + |st.tokenValue| == st.offset || st.tokenValue == [])
    && (!st.inStringLiteral ==> src[st.tokenStartOffset..st.tokenStartOffset + |st.tokenValue|] == st.tokenValue)
    && (st.inComment ==> CommentPending(src, st))
    && (!st.inComment && !st.inStringLiteral ==> forall i :: 0 <= i < |st.tokenValue| ==> IsWordSymbol(st.tokenValue[i]))
  }

  /** The pending value, about to be flushed as an ordinary token. */
  predicate PlainFlushable(src: string, st: LexState) {
    && !st.inStringLiteral
    && (st.tokenValue != [] ==> SpelledAt(src, st.tokenStartOffset, st.tokenValue) && st.tokenStartOffset < |src|)
    && IsPlainText(st.tokenValue)
  }

  /** The pending value, about to be flushed as a comment. */
  predicate CommentFlushable(src: string, st: LexState) {
    && !st.inStringLiteral
    && SpelledAt(src, st.tokenStartOffset, st.tokenValue) && st.tokenStartOffset < |src|
    && IsCommentText(st.tokenValue)
  }

  /** The pending value, about to be flushed as a string literal. */
  predicate LiteralFlushable(src: string, st: LexState) {
    st.inStringLiteral && (st.tokenValue != [] ==> st.tokenStartOffset < |src|)
  }

  lemma AppendWellFormed(src: string, a: seq<Token>, b: seq<Token>)
    requires AllWellFormed(src, a) && AllWellFormed(src, b)
    ensures AllWellFormed(src, a + b)
  {
    forall i | 0 <= i < |a + b|
      ensures WellFormedToken(src, (a + b)[i])
    {
      if i >= |a| {
        assert (a + b)[i] == b[i - |a|];
      }
    }
  }

  /** pushCurrentTokenAndStartNext keeps every token well formed when the pending
      value is one of the three kinds of text. */
  lemma {:induction false} FlushKeepsWellFormed(src: string, st: LexState)
    requires AllWellFormed(src, st.tokens)
    requires PlainFlushable(src, st) || CommentFlushable(src, st) || LiteralFlushable(src, st)
    ensures AllWellFormed(src, Push(st).tokens)
  {
    var e := Emit(st.tokenValue, st.tokenStartRow, st.tokenStartColumn, st.tokenStartOffset, st.inStringLiteral);
    if e != [] {
      assert WellFormedToken(src, e[0]);
    }
    assert AllWellFormed(src, e);
    AppendWellFormed(src, st.tokens, e);
  }

  /** The scan is outside literals and comments. */
  predicate InCode(st: LexState) {
    !st.inComment && !st.inStringLiteral
  }

  lemma {:induction false} CommentOpenKeepsInv(src: string, st: LexState)
    requires Inv(src, st) && st.offset < |src| && InCode(st)
    requires src[st.offset] == '/' && Peek(src, st.offset, 1) == '/'
    ensures Inv(src, Step(src, st))
  {
    assert PlainFlushable(src, st);
    FlushKeepsWellFormed(src, st);
    var p := Push(st);
    assert Step(src, st) == p.(inComment := true, tokenValue := ['/'], currentColumn := st.currentColumn + 1,
                               offset := st.offset + 1);
  }

  lemma {:induction false} CommentGoesOnKeepsInv(src: string, st: LexState)
    requires Inv(src, st) && st.offset < |src| && st.inComment && src[st.offset] != '\n'
    ensures Inv(src, Step(src, st))
  {
    var c := src[st.offset];
    var r := Step(src, st);
    assert r == st.(tokenValue := st.tokenValue + [c], currentColumn := st.currentColumn + 1, offset := st.offset + 1);
    assert src[st.tokenStartOffset..st.tokenStartOffset + |r.tokenValue|]
        == src[st.tokenStartOffset..st.tokenStartOffset + |st.tokenValue|] + [c];
  }

  lemma {:induction false} CommentEndKeepsInv(src: string, st: LexState)
    requires Inv(src, st) && st.offset < |src| && st.inComment && src[st.offset] == '\n'
    ensures Inv(src, Step(src, st))
  {
    var s1 := NewLine(st, '\n');
    assert |st.tokenValue| >= 2;
    assert CommentFlushable(src, s1);
    FlushKeepsWellFormed(src, s1);
  }

  lemma {:induction false} WhitespaceKeepsInv(src: string, st: LexState)
    requires Inv(src, st) && st.offset < |src| && InCode(st) && IsWhitespaceSymbol(src[st.offset])
    ensures Inv(src, Step(src, st))
  {
    var s1 := NewLine(st, src[st.offset]);
    assert PlainFlushable(src, s1);
    FlushKeepsWellFormed(src, s1);
  }

  lemma {:induction false} DividerKeepsInv(src: string, st: LexState)
    requires Inv(src, st) && st.offset < |src| && InCode(st)
    requires IsTokenDivider(src[st.offset]) && !IsWhitespaceSymbol(src[st.offset])
    requires !(src[st.offset] == '/' && Peek(src, st.offset, 1) == '/')
    ensures Inv(src, Step(src, st))
  {
    var c := src[st.offset];
    assert PlainFlushable(src, st);
    FlushKeepsWellFormed(src, st);
    var p := Push(st).(tokenValue := [c]);
    assert SpelledAt(src, p.tokenStartOffset, p.tokenValue);
    assert PlainFlushable(src, p);
    FlushKeepsWellFormed(src, p);
  }

  lemma {:induction false} QuoteOpenKeepsInv(src: string, st: LexState)
    requires Inv(src, st) && st.offset < |src| && InCode(st) && src[st.offset] == '"'
    ensures Inv(src, Step(src, st))
  {
  }

  lemma {:induction false} WordKeepsInv(src: string, st: LexState)
    requires Inv(src, st) && st.offset < |src| && InCode(st) && IsWordSymbol(src[st.offset])
    ensures Inv(src, Step(src, st))
  {
    var c := src[st.offset];
    var r := Step(src, st);
    assert r.tokenValue == st.tokenValue + [c];
    assert r.tokenStartOffset + |r.tokenValue| == r.offset;
    assert src[r.tokenStartOffset..r.tokenStartOffset + |r.tokenValue|]
        == src[r.tokenStartOffset..st.offset] + [c];
  }

  lemma {:induction false} DoubledQuoteKeepsInv(src: string, st: LexState)
    requires Inv(src, st) && st.offset < |src| && st.inStringLiteral
    requires src[st.offset] == '"' && Peek(src, st.offset, 1) == '"'
    ensures Inv(src, Step(src, st))
  {
  }

  lemma {:induction false} QuoteCloseKeepsInv(src: string, st: LexState)
    requires Inv(src, st) && st.offset < |src| && st.inStringLiteral
    requires src[st.offset] == '"' && Peek(src, st.offset, 1) != '"'
    ensures Inv(src, Step(src, st))
  {
    assert LiteralFlushable(src, st);
    FlushKeepsWellFormed(src, st);
  }

  lemma {:induction false} LiteralSymbolKeepsInv(src: string, st: LexState)
    requires Inv(src, st) && st.offset < |src| && st.inStringLiteral && src[st.offset] != '"'
    ensures Inv(src, Step(src, st))
  {
  }

  /** One iteration keeps the invariant, whichever branch of the loop body runs. */
  lemma {:induction false} StepKeepsInv(src: string, st: LexState)
    requires Inv(src, st) && st.offset < |src|
    ensures Inv(src, Step(src, st))
  {
    var c := src[st.offset];
    var next := Peek(src, st.offset, 1);
    if st.inComment {
      if c == '\n' {
        CommentEndKeepsInv(src, st);
      } else {
        CommentGoesOnKeepsInv(src, st);
      }
    } else if st.inStringLiteral {
      if c != '"' {
        LiteralSymbolKeepsInv(src, st);
      } else if next == '"' {
        DoubledQuoteKeepsInv(src, st);
      } else {
        QuoteCloseKeepsInv(src, st);
      }
    } else if c == '/' && next == '/' {
      CommentOpenKeepsInv(src, st);
    } else if IsWhitespaceSymbol(c) {
      WhitespaceKeepsInv(src, st);
    } else if IsTokenDivider(c) {
      DividerKeepsInv(src, st);
    } else if c == '"' {
      QuoteOpenKeepsInv(src, st);
    } else {
      WordKeepsInv(src, st);
    }
  }

  /** The rest of the scan and the final flush keep the invariant's token part. */
  lemma {:induction false} RunKeepsWellFormed(src: string, st: LexState)
    requires Inv(src, st)
    ensures AllWellFormed(src, Run(src, st).tokens)
    decreases |src| - st.offset
  {
    if st.offset >= |src| {
      if st.tokenValue != "" {
        if st.inStringLiteral {
          assert LiteralFlushable(src, st);
        } else if st.inComment {
          assert |st.tokenValue| >= 2;
          assert CommentFlushable(src, st);
        } else {
          assert PlainFlushable(src, st);
        }
        FlushKeepsWellFormed(src, st);
      }
    } else {
      StepKeepsInv(src, st);
      RunKeepsWellFormed(src, Step(src, st));
    }
  }

  /** Every token of a lexed text is well formed: none is empty or led by a
      byte-order mark, its length is its value's, its kind is PushToken's
      classification, and outside string literals it is either a comment ("//" up to
      the newline) or a whitespace-free word or single divider, spelt in the source
      exactly at its offset. */
  lemma LexWellFormed(src: string)
    ensures AllWellFormed(src, Lex(src))
  {
    if |src| > 0 {
      RunKeepsWellFormed(src, Initial());
    }
  }

  // ---------------------------------------------------------------------------
  // Tokens come out in source order

  /** Offsets and start rows never decrease along a token sequence. */
  predicate InSourceOrder(ts: seq<Token>) {
    forall i, j :: 0 <= i < j < |ts| ==> ts[i].sourceOffset <= ts[j].sourceOffset && ts[i].row <= ts[j].row
  }

  /** Everything already flushed starts no later than the pending token. */
  predicate OrderInv(st: LexState) {
    && InSourceOrder(st.tokens)
    && (forall i :: 0 <= i < |st.tokens| ==>
          st.tokens[i].sourceOffset <= st.tokenStartOffset && st.tokens[i].row <= st.tokenStartRow)
    && st.tokenStartOffset <= st.offset
    && st.tokenStartRow <= st.currentRow
  }

  lemma {:induction false} PushKeepsOrder(st: LexState)
    requires OrderInv(st)
    ensures OrderInv(Push(st))
  {
    var e := Emit(st.tokenValue, st.tokenStartRow, st.tokenStartColumn, st.tokenStartOffset, st.inStringLiteral);
    var ts := st.tokens + e;
    forall i, j | 0 <= i < j < |ts|
      ensures ts[i].sourceOffset <= ts[j].sourceOffset && ts[i].row <= ts[j].row
    {
      if j >= |st.tokens| {
        assert ts[j] == e[0];
      }
    }
  }

  lemma {:induction false} DispatchKeepsOrder(st: LexState, c: char, next: char)
    requires OrderInv(st)
    ensures OrderInv(Dispatch(st, c, next))
  {
    if st.inComment {
    } else if IsWhitespaceSymbol(c) && !st.inStringLiteral {
      PushKeepsOrder(st);
    } else if IsTokenDivider(c) && !st.inStringLiteral {
      PushKeepsOrder(st);
      PushKeepsOrder(Push(st).(tokenValue := [c]));
    } else if c == '"' {
      if st.inStringLiteral && next != '"' {
        PushKeepsOrder(st);
      }
    }
  }

  lemma {:induction false} StepKeepsOrder(src: string, st: LexState)
    requires OrderInv(st) && st.offset < |src|
    ensures OrderInv(Step(src, st))
  {
    var c := src[st.offset];
    var next := Peek(src, st.offset, 1);
    var s1 := NewLine(st, c);
    if c == '/' && next == '/' && !(s1.inComment || s1.inStringLiteral) {
      PushKeepsOrder(s1);
    }
    DispatchKeepsOrder(CommentStart(s1, c, next), c, next);
  }

  lemma {:induction false} RunKeepsOrder(src: string, st: LexState)
    requires OrderInv(st) && st.offset <= |src|
    ensures InSourceOrder(Run(src, st).tokens)
    decreases |src| - st.offset
  {
    if st.offset >= |src| {
      if st.tokenValue != "" {
        PushKeepsOrder(st);
      }
    } else {
      StepKeepsOrder(src, st);
      RunKeepsOrder(src, Step(src, st));
    }
  }

  /** The tokens of a text are in source order, by offset and by start row. */
  lemma LexInSourceOrder(src: string)
    ensures InSourceOrder(Lex(src))
  {
    if |src| > 0 {
      RunKeepsOrder(src, Initial());
    }
  }

  // ---------------------------------------------------------------------------
  // What one iteration does, branch by branch

  /** A newline puts the next symbol in column 2 of the next row and ends a comment,
      whatever mode the scan is in. */
  lemma NewLineStep(src: string, st: LexState)
    requires st.offset < |src| && src[st.offset] == '\n'
    ensures Step(src, st).currentRow == st.currentRow + 1
    ensures Step(src, st).currentColumn == 2
    ensures !Step(src, st).inComment
  {
  }

  /** Outside literals and comments, the first symbol of a word records the start
      row, column and offset of the token. */
  lemma WordStartStep(src: string, st: LexState)
    requires st.offset < |src| && InCode(st) && IsWordSymbol(src[st.offset]) && st.tokenValue == []
    ensures Step(src, st).tokenValue == [src[st.offset]]
    ensures Step(src, st).tokenStartRow == st.currentRow
    ensures Step(src, st).tokenStartColumn == st.currentColumn
    ensures Step(src, st).tokenStartOffset == st.offset
    ensures Step(src, st).tokens == st.tokens
  {
  }

  /** A divider flushes the pending word and then becomes a one-symbol token of its
      own, which reuses the start row and column of the token before it. */
  lemma DividerStep(src: string, st: LexState)
    requires st.offset < |src| && InCode(st)
    requires IsTokenDivider(src[st.offset]) && !IsWhitespaceSymbol(src[st.offset])
    requires !(src[st.offset] == '/' && Peek(src, st.offset, 1) == '/')
    ensures Step(src, st).tokens ==
      st.tokens
      + Emit(st.tokenValue, st.tokenStartRow, st.tokenStartColumn, st.tokenStartOffset, false)
      + Emit([src[st.offset]], st.tokenStartRow, st.tokenStartColumn, st.offset, false)
    ensures Step(src, st).tokenValue == [] && InCode(Step(src, st))
  {
  }

  /** "//" in code flushes the pending word and opens a comment whose text starts
      with the first '/'; the comment keeps the previous start row and column. */
  lemma CommentStartStep(src: string, st: LexState)
    requires st.offset < |src| && InCode(st)
    requires src[st.offset] == '/' && Peek(src, st.offset, 1) == '/'
    ensures Step(src, st).tokens ==
      st.tokens + Emit(st.tokenValue, st.tokenStartRow, st.tokenStartColumn, st.tokenStartOffset, false)
    ensures Step(src, st).inComment && Step(src, st).tokenValue == "/"
    ensures Step(src, st).tokenStartOffset == st.offset
    ensures Step(src, st).tokenStartRow == st.tokenStartRow
    ensures Step(src, st).tokenStartColumn == st.tokenStartColumn
  {
  }

  /** Inside a comment every symbol but a line break joins the comment, '"' and a
      second "//" included, and nothing is emitted. */
  lemma CommentGoesOnStep(src: string, st: LexState)
    requires st.offset < |src| && st.inComment && !st.inStringLiteral && src[st.offset] != '\n'
    ensures Step(src, st).tokenValue == st.tokenValue + [src[st.offset]]
    ensures Step(src, st).tokens == st.tokens && Step(src, st).inComment
  {
  }

  /** The line break after a comment flushes it, without the break, as a token of its
      own, and leaves comment mode. */
  lemma CommentEndStep(src: string, st: LexState)
    requires st.offset < |src| && st.inComment && !st.inStringLiteral && src[st.offset] == '\n'
    ensures Step(src, st).tokens ==
      st.tokens + Emit(st.tokenValue, st.tokenStartRow, st.tokenStartColumn, st.tokenStartOffset, false)
    ensures !Step(src, st).inComment && Step(src, st).tokenValue == []
  {
  }

  /** An opening quote discards the pending characters without producing a token. */
  lemma QuoteOpenStep(src: string, st: LexState)
    requires st.offset < |src| && InCode(st) && src[st.offset] == '"'
    ensures Step(src, st).tokens == st.tokens
    ensures Step(src, st).inStringLiteral && Step(src, st).tokenValue == []
  {
  }

  /** Inside a literal a doubled quote adds one quote to the value; the offset moves
      by two and the column by one. */
  lemma DoubledQuoteStep(src: string, st: LexState)
    requires st.offset < |src| && st.inStringLiteral && !st.inComment
    requires src[st.offset] == '"' && Peek(src, st.offset, 1) == '"'
    ensures Step(src, st).tokenValue == st.tokenValue + ['"']
    ensures Step(src, st).offset == st.offset + 2
    ensures Step(src, st).currentColumn == st.currentColumn + 1
    ensures Step(src, st).tokens == st.tokens && Step(src, st).inStringLiteral
  {
  }

  /** A single quote inside a literal closes it and flushes it as a string
      constant (nothing for an empty literal). */
  lemma QuoteCloseStep(src: string, st: LexState)
    requires st.offset < |src| && st.inStringLiteral && !st.inComment
    requires src[st.offset] == '"' && Peek(src, st.offset, 1) != '"'
    ensures Step(src, st).tokens ==
      st.tokens + Emit(st.tokenValue, st.tokenStartRow, st.tokenStartColumn, st.tokenStartOffset, true)
    ensures !Step(src, st).inStringLiteral && Step(src, st).tokenValue == []
  {
  }

  /** An empty literal "" in code produces no token. */
  lemma {:induction false} EmptyLiteralSteps(src: string, st: LexState)
    requires st.offset + 1 < |src| && InCode(st)
    requires src[st.offset] == '"' && src[st.offset + 1] == '"' && Peek(src, st.offset, 2) != '"'
    ensures Step(src, Step(src, st)).tokens == st.tokens
    ensures InCode(Step(src, Step(src, st)))
  {
    QuoteOpenStep(src, st);
    var s := Step(src, st);
    QuoteCloseStep(src, s);
  }

  /** A literal still open at the end of the text is flushed as a string constant. */
  lemma UnterminatedLiteralFlushed(src: string, st: LexState)
    requires st.offset == |src| && st.inStringLiteral
    requires st.tokenValue != [] && st.tokenValue[0] != ByteOrderMark
    ensures Run(src, st).tokens == st.tokens +
      [Token(StringConst, st.tokenValue, st.tokenStartOffset, |st.tokenValue|,
             st.tokenStartRow, st.tokenStartColumn, true, false)]
  {
  }

  // ---------------------------------------------------------------------------
  // Worked examples

  /** "//a" then a line break and "b": the comment runs up to the break and keeps the
      start row and column 0 that no word has set yet; "b" starts row 2. */
  lemma CommentExample(src: string)
    requires src == "//a\nb"
    ensures |Lex(src)| == 2
    ensures Lex(src)[0] == Token(Comment, "//a", 0, 3, 0, 0, false, false)
    ensures Lex(src)[1].value == "b" && Lex(src)[1].sourceOffset == 4
    ensures Lex(src)[1].row == 2 && Lex(src)[1].column == 2
  {
    CommentExampleStart(src);
    var s3 := LexState(3, false, true, 0, 0, 0, 1, 4, "//a", []);
    var s4 := Step(src, s3);
    assert s4 == LexState(4, false, false, 0, 0, 3, 2, 2, "", Emit("//a", 0, 0, 0, false));
    var s5 := Step(src, s4);
    assert s5 == LexState(5, false, false, 2, 2, 4, 2, 3, "b", Emit("//a", 0, 0, 0, false));
    assert Run(src, s3) == Run(src, s4) == Run(src, s5) == Push(s5);
    assert Classify("//a", false) == Comment;
  }

  /** The first three symbols of "//a\nb" all go into the comment. */
  lemma CommentExampleStart(src: string)
    requires src == "//a\nb"
    ensures Run(src, Initial()) == Run(src, LexState(3, false, true, 0, 0, 0, 1, 4, "//a", []))
  {
    var s0 := Initial();
    var s1 := Step(src, s0);
    assert s1 == LexState(1, false, true, 0, 0, 0, 1, 2, "/", []);
    var s2 := Step(src, s1);
    assert s2 == LexState(2, false, true, 0, 0, 0, 1, 3, "//", []);
    var s3 := Step(src, s2);
    assert s3 == LexState(3, false, true, 0, 0, 0, 1, 4, "//a", []);
    assert Run(src, s0) == Run(src, s1) == Run(src, s2) == Run(src, s3);
  }

  /** The column is reset to 1 at a newline and then advanced, so the first symbol
      of a line is in column 2; the first line starts at column 1. */
  lemma NewLineExample(src: string)
    requires src == "a\nb"
    ensures |Lex(src)| == 2
    ensures Lex(src)[0].value == "a" && Lex(src)[0].row == 1 && Lex(src)[0].column == 1
    ensures Lex(src)[1].value == "b" && Lex(src)[1].row == 2 && Lex(src)[1].column == 2
  {
    var s0 := Initial();
    var s1 := Step(src, s0);
    assert s1 == LexState(1, false, false, 1, 1, 0, 1, 2, "a", []);
    var s2 := Step(src, s1);
    assert s2 == LexState(2, false, false, 1, 1, 1, 2, 2, "", Emit("a", 1, 1, 0, false));
    var s3 := Step(src, s2);
    assert s3 == LexState(3, false, false, 2, 2, 2, 2, 3, "b", Emit("a", 1, 1, 0, false));
    assert Run(src, s0) == Run(src, s1) == Run(src, s2) == Run(src, s3) == Push(s3);
  }

  /** '*' is not a divider, so "2*3" stays one token, and not a number. */
  lemma StarExample(src: string)
    requires src == "2*3"
    ensures |Lex(src)| == 1 && Lex(src)[0].value == "2*3" && Lex(src)[0].tokenType != NumericConst
  {
    var s0 := Initial();
    var s1 := Step(src, s0);
    assert s1 == LexState(1, false, false, 1, 1, 0, 1, 2, "2", []);
    var s2 := Step(src, s1);
    assert s2 == LexState(2, false, false, 1, 1, 0, 1, 3, "2*", []);
    var s3 := Step(src, s2);
    assert s3 == LexState(3, false, false, 1, 1, 0, 1, 4, "2*3", []);
    assert Run(src, s0) == Run(src, s1) == Run(src, s2) == Run(src, s3) == Push(s3);
    assert !IsWholeNumber("2*3") by {
      assert !IsDecimalDigits("2*3") && !IsDecimalDigits("*3");
    }
  }

  /** A doubled quote contributes one quote; it moves the offset by two but the
      column by one.  The literal's offset is that of its first inner symbol. */
  lemma DoubledQuoteExample(src: string)
    requires src == "\"a\"\"b\""
    ensures Lex(src) == [Token(StringConst, "a\"b", 1, 3, 1, 2, true, false)]
  {
    DoubledQuoteExampleStart(src);
    var s3 := LexState(4, true, false, 1, 2, 1, 1, 4, "a\"", []);
    var s4 := Step(src, s3);
    assert s4 == LexState(5, true, false, 1, 2, 1, 1, 5, "a\"b", []);
    var s5 := Step(src, s4);
    assert s5 == LexState(6, false, false, 1, 2, 5, 1, 6, "", Emit("a\"b", 1, 2, 1, true));
    assert Run(src, s3) == Run(src, s4) == Run(src, s5) == s5;
  }

  lemma DoubledQuoteExampleStart(src: string)
    requires src == "\"a\"\"b\""
    ensures Run(src, Initial()) == Run(src, LexState(4, true, false, 1, 2, 1, 1, 4, "a\"", []))
  {
    var s0 := Initial();
    var s1 := Step(src, s0);
    assert s1 == LexState(1, true, false, 0, 0, 0, 1, 2, "", []);
    var s2 := Step(src, s1);
    assert s2 == LexState(2, true, false, 1, 2, 1, 1, 3, "a", []);
    var s3 := Step(src, s2);
    assert s3 == LexState(4, true, false, 1, 2, 1, 1, 4, "a\"", []);
    assert Run(src, s0) == Run(src, s1) == Run(src, s2) == Run(src, s3);
  }

  /** An empty literal produces no token. */
  lemma EmptyLiteralExample(src: string)
    requires src == "\"\""
    ensures Lex(src) == []
  {
    var s0 := Initial();
    var s1 := Step(src, s0);
    assert s1 == LexState(1, true, false, 0, 0, 0, 1, 2, "", []);
    var s2 := Step(src, s1);
    assert s2 == LexState(2, false, false, 0, 0, 1, 1, 3, "", []);
    assert Run(src, s0) == Run(src, s1) == Run(src, s2) == s2;
  }

  /** A literal still open at the end of the text is flushed as a string constant. */
  lemma UnterminatedLiteralExample(src: string)
    requires src == "\"ab"
    ensures Lex(src) == [Token(StringConst, "ab", 1, 2, 1, 2, true, false)]
  {
    var s0 := Initial();
    var s1 := Step(src, s0);
    assert s1 == LexState(1, true, false, 0, 0, 0, 1, 2, "", []);
    var s2 := Step(src, s1);
    assert s2 == LexState(2, true, false, 1, 2, 1, 1, 3, "a", []);
    var s3 := Step(src, s2);
    assert s3 == LexState(3, true, false, 1, 2, 1, 1, 4, "ab", []);
    assert Run(src, s0) == Run(src, s1) == Run(src, s2) == Run(src, s3) == Push(s3);
  }

}
