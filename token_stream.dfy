/** TokenStream (BSLToken.cpp): the token vector m_Data with its cursor m_Position,
    filled by DoLexModule and consumed by the parser.  The region extractors are
    specified by pure functions over the token sequence, defined first. */
module TokenStreams {
  import opened Tokens
  import opened Outcomes
  import opened Lexer

  // ---------------------------------------------------------------------------
  // Specifications of the two extractors

  /** Block starts minus block ends among ts[from..j]. */
  function Nesting(ts: seq<Token>, from: nat, j: nat, blockStart: TokenType, blockEnd: TokenType): int
    requires from <= j <= |ts|
    decreases j - from
  {
    if j == from then 0
    else
      Nesting(ts, from, j - 1, blockStart, blockEnd)
      + (if ts[j - 1].tokenType == blockStart then 1 else 0)
      - (if ts[j - 1].tokenType == blockEnd then 1 else 0)
  }

  /** ts[j] closes the block opened before from: a block end with every block
      opened since from closed again. */
  predicate ClosesBlock(ts: seq<Token>, from: nat, j: nat, blockStart: TokenType, blockEnd: TokenType)
    requires from <= j < |ts|
  {
    ts[j].tokenType == blockEnd && Nesting(ts, from, j, blockStart, blockEnd) == 0
  }

  /** The scan of ExtractSubstream from index i with nesting level level: the index
      of the terminating block end, if the tokens run out first none. */
  function BlockEnd(ts: seq<Token>, i: nat, blockStart: TokenType, blockEnd: TokenType, level: nat): Option<nat>
    requires i <= |ts|
    decreases |ts| - i
  {
    if i == |ts| then None
    else
      var l := if ts[i].tokenType == blockStart then level + 1 else level;
      if ts[i].tokenType == blockEnd then
        if l == 0 then Some(i) else BlockEnd(ts, i + 1, blockStart, blockEnd, l - 1)
      else BlockEnd(ts, i + 1, blockStart, blockEnd, l)
  }

  /** No token of ts[from..k] closes the block. */
  predicate NoneClosesBefore(ts: seq<Token>, from: nat, k: nat, blockStart: TokenType, blockEnd: TokenType)
    requires from <= k <= |ts|
  {
    forall j :: from <= j < k ==> !ClosesBlock(ts, from, j, blockStart, blockEnd)
  }

  /** What a scan from i finds: the first closing block end, or that there is none. */
  predicate FindsFirstClosing(ts: seq<Token>, from: nat, r: Option<nat>, blockStart: TokenType, blockEnd: TokenType)
    requires from <= |ts|
  {
    match r
    case Some(k) =>
      from <= k < |ts| && ClosesBlock(ts, from, k, blockStart, blockEnd)
      && NoneClosesBefore(ts, from, k, blockStart, blockEnd)
    case None => NoneClosesBefore(ts, from, |ts|, blockStart, blockEnd)
  }

  /** The level passed on by one step of the scan, when it does not stop there. */
  function NextLevel(ts: seq<Token>, i: nat, blockStart: TokenType, blockEnd: TokenType, level: nat): int
    requires i < |ts|
  {
    (if ts[i].tokenType == blockStart then level + 1 else level) - (if ts[i].tokenType == blockEnd then 1 else 0)
  }

  lemma ScanStops(ts: seq<Token>, from: nat, i: nat, blockStart: TokenType, blockEnd: TokenType, level: nat)
    requires blockStart != blockEnd && from <= i < |ts| && level == Nesting(ts, from, i, blockStart, blockEnd)
    requires ClosesBlock(ts, from, i, blockStart, blockEnd)
    ensures BlockEnd(ts, i, blockStart, blockEnd, level) == Some(i)
  {
  }

  lemma ScanContinues(ts: seq<Token>, from: nat, i: nat, blockStart: TokenType, blockEnd: TokenType, level: nat)
    requires blockStart != blockEnd && from <= i < |ts| && level == Nesting(ts, from, i, blockStart, blockEnd)
    requires !ClosesBlock(ts, from, i, blockStart, blockEnd)
    ensures NextLevel(ts, i, blockStart, blockEnd, level) == Nesting(ts, from, i + 1, blockStart, blockEnd)
    ensures NextLevel(ts, i, blockStart, blockEnd, level) >= 0
    ensures BlockEnd(ts, i, blockStart, blockEnd, level)
         == BlockEnd(ts, i + 1, blockStart, blockEnd, NextLevel(ts, i, blockStart, blockEnd, level))
  {
  }

  lemma {:induction false} BlockEndFromLevel(ts: seq<Token>, from: nat, i: nat, blockStart: TokenType,
                                             blockEnd: TokenType, level: nat)
    requires blockStart != blockEnd && from <= i <= |ts|
    requires level == Nesting(ts, from, i, blockStart, blockEnd)
    requires NoneClosesBefore(ts, from, i, blockStart, blockEnd)
    ensures FindsFirstClosing(ts, from, BlockEnd(ts, i, blockStart, blockEnd, level), blockStart, blockEnd)
    decreases |ts| - i
  {
    if i < |ts| {
      if ClosesBlock(ts, from, i, blockStart, blockEnd) {
        ScanStops(ts, from, i, blockStart, blockEnd, level);
      } else {
        ScanContinues(ts, from, i, blockStart, blockEnd, level);
        NoneClosesExtend(ts, from, i, blockStart, blockEnd);
        BlockEndFromLevel(ts, from, i + 1, blockStart, blockEnd, NextLevel(ts, i, blockStart, blockEnd, level));
      }
    }
  }

  lemma NoneClosesExtend(ts: seq<Token>, from: nat, i: nat, blockStart: TokenType, blockEnd: TokenType)
    requires from <= i < |ts| && NoneClosesBefore(ts, from, i, blockStart, blockEnd)
    requires !ClosesBlock(ts, from, i, blockStart, blockEnd)
    ensures NoneClosesBefore(ts, from, i + 1, blockStart, blockEnd)
  {
  }

  /** The scan stops at the first block end that closes the block, and fails exactly when
      no token does (for distinct start and end kinds, as in every call of the source). */
  lemma BlockEndIsFirstClosing(ts: seq<Token>, from: nat, blockStart: TokenType, blockEnd: TokenType)
    requires blockStart != blockEnd && from <= |ts|
    ensures FindsFirstClosing(ts, from, BlockEnd(ts, from, blockStart, blockEnd, 0), blockStart, blockEnd)
  {
    BlockEndFromLevel(ts, from, from, blockStart, blockEnd, 0);
  }

  /** With one kind for both ends each such token opens and closes at once, so the
      scan never stops: it always runs out of tokens. */
  lemma {:induction false} BlockEndSameKinds(ts: seq<Token>, i: nat, kind: TokenType, level: nat)
    requires i <= |ts|
    ensures BlockEnd(ts, i, kind, kind, level) == None
    decreases |ts| - i
  {
    if i < |ts| {
      BlockEndSameKinds(ts, i + 1, kind, level);
    }
  }

  /** What ExtractSubstream yields: the tokens before the terminator, and the cursor
      just past the terminator. */
  function Substream(ts: seq<Token>, pos: nat, blockStart: TokenType, blockEnd: TokenType): (r: Result<(seq<Token>, nat)>)
    requires pos <= |ts|
    ensures r.Ok? ==>
      && pos < r.value.1 <= |ts| && ts[r.value.1 - 1].tokenType == blockEnd
      && r.value.0 == ts[pos..r.value.1 - 1]
    ensures r.Err? ==> r.error == UnexpectedEndOfTokenStream
  {
    match BlockEnd(ts, pos, blockStart, blockEnd, 0)
    case None => Err(UnexpectedEndOfTokenStream)
    case Some(k) => BlockEndBounds(ts, pos, blockStart, blockEnd, 0); Ok((ts[pos..k], k + 1))
  }

  lemma {:induction false} BlockEndBounds(ts: seq<Token>, i: nat, blockStart: TokenType, blockEnd: TokenType, level: nat)
    requires i <= |ts|
    ensures BlockEnd(ts, i, blockStart, blockEnd, level).Some? ==>
      var k := BlockEnd(ts, i, blockStart, blockEnd, level).value;
      i <= k < |ts| && ts[k].tokenType == blockEnd
    decreases |ts| - i
  {
    if i < |ts| {
      var l := if ts[i].tokenType == blockStart then level + 1 else level;
      BlockEndBounds(ts, i + 1, blockStart, blockEnd, l);
      if l > 0 {
        BlockEndBounds(ts, i + 1, blockStart, blockEnd, l - 1);
      }
    }
  }

  /** The index of the first ';' at or after i, or the end of the tokens. */
  function StatementEnd(ts: seq<Token>, i: nat): (k: nat)
    requires i <= |ts|
    ensures i <= k <= |ts|
    ensures k < |ts| ==> ts[k].tokenType == EndExpression
    ensures forall j :: i <= j < k ==> ts[j].tokenType != EndExpression
    decreases |ts| - i
  {
    if i == |ts| || ts[i].tokenType == EndExpression then i else StatementEnd(ts, i + 1)
  }

  /** What ExtractExpressionSubstream yields: nothing at the end of the tokens,
      otherwise the tokens up to the next ';' and the cursor past that ';'. */
  function ExpressionSubstream(ts: seq<Token>, pos: nat): (r: Option<(seq<Token>, nat)>)
    requires pos <= |ts|
    ensures r.None? <==> pos == |ts|
    ensures r.Some? ==>
      && pos < r.value.1 <= |ts|
      && r.value.0 == ts[pos..StatementEnd(ts, pos)]
      && (forall j :: 0 <= j < |r.value.0| ==> r.value.0[j].tokenType != EndExpression)
      && (r.value.1 < |ts| ==> ts[r.value.1 - 1].tokenType == EndExpression)
      && (StatementEnd(ts, pos) < |ts| ==> r.value.1 == StatementEnd(ts, pos) + 1)
      && (StatementEnd(ts, pos) == |ts| ==> r.value.1 == |ts|)
  {
    if pos == |ts| then None
    else
      var k := StatementEnd(ts, pos);
      Some((ts[pos..k], if k < |ts| then k + 1 else k))
  }

  // ---------------------------------------------------------------------------
  // The stream

  class TokenStream {
    var data: seq<Token>
    var position: nat

    predicate Valid()
      reads this
    {
      position <= |data|
    }

    /** TokenStream(sourceCode): lex the text; the cursor starts at the first token. */
    constructor (sourceCode: string)
      ensures Valid() && data == Lex(sourceCode) && position == 0
    {
      data := [];
      position := 0;
      new;
      DoLexModule(sourceCode);
    }

    /** The private constructor used by the extractors. */
    constructor Empty()
      ensures Valid() && data == [] && position == 0
    {
      data := [];
      position := 0;
    }

    /** DoLexModule: one pass over the text, appending the tokens it finds; the
        result is the pure lexer Lex of the same text. */
    method DoLexModule(sourceCode: string)
      modifies this
      ensures data == old(data) + Lex(sourceCode)
      ensures position == old(position)
    {
      var dataLength := |sourceCode|;
      if dataLength == 0 {
        return;
      }
      var offset: nat := 0;
      var inStringLiteral := false;
      var inComment := false;
      var tokenStartRow: nat := 0;
      var tokenStartColumn: nat := 0;
      var tokenStartOffset: nat := 0;
      var currentRow: nat := 1;
      var currentColumn: nat := 1;
      var tokenValue := "";
      ghost var base := data;
      ghost var toks: seq<Token> := [];
      while offset != dataLength
        invariant offset <= dataLength
        invariant data == base + toks && position == old(position) && base == old(data)
        invariant
          var st := LexState(offset, inStringLiteral, inComment, tokenStartRow, tokenStartColumn,
                             tokenStartOffset, currentRow, currentColumn, tokenValue, toks);
          Run(sourceCode, st) == Run(sourceCode, Initial())
        decreases dataLength - offset
      {
        ghost var before := LexState(offset, inStringLiteral, inComment, tokenStartRow, tokenStartColumn,
                                     tokenStartOffset, currentRow, currentColumn, tokenValue, toks);
        var curSymbol := sourceCode[offset];
        var nextSymbol := if offset + 1 < dataLength then sourceCode[offset + 1] else '\0';
        assert nextSymbol == Peek(sourceCode, offset, 1);
        offset, inStringLiteral, inComment, tokenStartRow, tokenStartColumn, tokenStartOffset,
          currentRow, currentColumn, tokenValue :=
          LexSymbol(curSymbol, nextSymbol, offset, inStringLiteral, inComment, tokenStartRow, tokenStartColumn,
                    tokenStartOffset, currentRow, currentColumn, tokenValue, base, toks);
        toks := Dispatch(CommentStart(NewLine(before, curSymbol), curSymbol, nextSymbol), curSymbol, nextSymbol).tokens;
        ghost var dispatched := LexState(offset, inStringLiteral, inComment, tokenStartRow, tokenStartColumn,
                                         tokenStartOffset, currentRow, currentColumn, tokenValue, toks);
        StepInStages(sourceCode, before, dispatched);
        currentColumn := currentColumn + 1;
        offset := offset + 1;
        RunAdvances(sourceCode, before, LexState(offset, inStringLiteral, inComment, tokenStartRow, tokenStartColumn,
                                                 tokenStartOffset, currentRow, currentColumn, tokenValue, toks));
      }
      ghost var last := LexState(offset, inStringLiteral, inComment, tokenStartRow, tokenStartColumn,
                                 tokenStartOffset, currentRow, currentColumn, tokenValue, toks);
      if tokenValue != "" {
        PushToken(tokenValue, tokenStartRow, tokenStartColumn, tokenStartOffset, inStringLiteral);
        AppendAssociative(base, toks, Emit(tokenValue, tokenStartRow, tokenStartColumn, tokenStartOffset, inStringLiteral));
        toks := toks + Emit(tokenValue, tokenStartRow, tokenStartColumn, tokenStartOffset, inStringLiteral);
        tokenStartOffset := offset;
        tokenValue := "";
      }
      assert toks == Finish(last).tokens;
    }

    /** The body of the DoLexModule loop for the symbol at offset0, up to advancing
        the cursor: a line break, then the opening of a comment, then the symbol
        itself.  It updates the loop's variables as the function Step does. */
    method LexSymbol(curSymbol: char, nextSymbol: char, offset0: nat, inStringLiteral0: bool, inComment0: bool,
                     tokenStartRow0: nat, tokenStartColumn0: nat, tokenStartOffset0: nat,
                     currentRow0: nat, currentColumn0: nat, tokenValue0: string, ghost base: seq<Token>,
                     ghost toks: seq<Token>)
      returns (offset: nat, inStringLiteral: bool, inComment: bool, tokenStartRow: nat, tokenStartColumn: nat,
               tokenStartOffset: nat, currentRow: nat, currentColumn: nat, tokenValue: string)
      requires data == base + toks
      modifies this
      ensures
        var st := LexState(offset0, inStringLiteral0, inComment0, tokenStartRow0, tokenStartColumn0,
                           tokenStartOffset0, currentRow0, currentColumn0, tokenValue0, toks);
        var r := Dispatch(CommentStart(NewLine(st, curSymbol), curSymbol, nextSymbol), curSymbol, nextSymbol);
        && data == base + r.tokens
        && r == LexState(offset, inStringLiteral, inComment, tokenStartRow, tokenStartColumn,
                         tokenStartOffset, currentRow, currentColumn, tokenValue, r.tokens)
      ensures position == old(position)
    {
      offset, inStringLiteral, inComment, tokenStartRow, tokenStartColumn, tokenStartOffset := 
        offset0, inStringLiteral0, inComment0, tokenStartRow0, tokenStartColumn0, tokenStartOffset0;
      currentRow, currentColumn, tokenValue := currentRow0, currentColumn0, tokenValue0;
      ghost var pushed := toks;
      if curSymbol == '\n' {
        currentColumn := 1;
        currentRow := currentRow + 1;
        inComment := false;
      }
      if curSymbol == '/' && nextSymbol == '/' && !(inComment || inStringLiteral) {
        PushToken(tokenValue, tokenStartRow, tokenStartColumn, tokenStartOffset, inStringLiteral);
        AppendAssociative(base, toks, Emit(tokenValue, tokenStartRow, tokenStartColumn, tokenStartOffset, inStringLiteral));
        pushed := toks + Emit(tokenValue, tokenStartRow, tokenStartColumn, tokenStartOffset, inStringLiteral);
        tokenStartOffset := offset;
        tokenValue := "";
        inComment := true;
      }
      ghost var afterComment := LexState(offset, inStringLiteral, inComment, tokenStartRow, tokenStartColumn,
                                         tokenStartOffset, currentRow, currentColumn, tokenValue, pushed);
      assert afterComment == CommentStart(NewLine(LexState(offset0, inStringLiteral0, inComment0, tokenStartRow0,
        tokenStartColumn0, tokenStartOffset0, currentRow0, currentColumn0, tokenValue0, toks), curSymbol), curSymbol, nextSymbol);
      if inComment {
        tokenValue := tokenValue + [curSymbol];
      } else if IsWhitespaceSymbol(curSymbol) && !inStringLiteral {
        PushToken(tokenValue, tokenStartRow, tokenStartColumn, tokenStartOffset, inStringLiteral);
        AppendAssociative(base, pushed, Emit(tokenValue, tokenStartRow, tokenStartColumn, tokenStartOffset, inStringLiteral));
        tokenStartOffset := offset;
        tokenValue := "";
      } else if IsTokenDivider(curSymbol) && !inStringLiteral {
        ghost var first := Emit(tokenValue, tokenStartRow, tokenStartColumn, tokenStartOffset, inStringLiteral);
        PushToken(tokenValue, tokenStartRow, tokenStartColumn, tokenStartOffset, inStringLiteral);
        AppendAssociative(base, pushed, first);
        tokenStartOffset := offset;
        tokenValue := "";
        tokenValue := tokenValue + [curSymbol];
        assert tokenValue == [curSymbol];
        PushToken(tokenValue, tokenStartRow, tokenStartColumn, tokenStartOffset, inStringLiteral);
        AppendAssociative(base, pushed + first, Emit(tokenValue, tokenStartRow, tokenStartColumn, tokenStartOffset, inStringLiteral));
        tokenStartOffset := offset;
        tokenValue := "";
      } else if curSymbol == '"' {
        if inStringLiteral {
          if nextSymbol == '"' {
            tokenValue := tokenValue + ['"'];
            offset := offset + 1;
          } else {
            PushToken(tokenValue, tokenStartRow, tokenStartColumn, tokenStartOffset, inStringLiteral);
            AppendAssociative(base, pushed, Emit(tokenValue, tokenStartRow, tokenStartColumn, tokenStartOffset, inStringLiteral));
            tokenStartOffset := offset;
            tokenValue := "";
            inStringLiteral := false;
          }
        } else {
          inStringLiteral := true;
          tokenStartOffset := offset;
          tokenValue := "";
        }
      } else {
        if tokenValue == "" {
          tokenStartOffset := offset;
          tokenStartRow := currentRow;
          tokenStartColumn := currentColumn;
        }
        tokenValue := tokenValue + [curSymbol];
      }
    }

    /** PushToken: append the classified token, unless the value is empty or starts
        with a byte-order mark. */
    method PushToken(tokenValue: string, tokenStartRow: nat, tokenStartColumn: nat, offset: nat, isStringLiteral: bool)
      modifies this
      ensures data == old(data) + Emit(tokenValue, tokenStartRow, tokenStartColumn, offset, isStringLiteral)
      ensures position == old(position)
    {
      if tokenValue == "" {
        return;
      }
      if tokenValue[0] == ByteOrderMark {
        return;
      }
      var tokenType;
      if isStringLiteral {
        tokenType := StringConst;
      } else if tokenValue[0] == '&' {
        tokenType := Annotation;
      } else if IsWholeNumber(tokenValue) {
        tokenType := NumericConst;
      } else if |tokenValue| >= 2 && tokenValue[0] == '/' && tokenValue[1] == '/' {
        tokenType := Comment;
      } else {
        tokenType := TokenTypeFromValue(tokenValue);
      }
      data := data + [Token(tokenType, tokenValue, offset, |tokenValue|, tokenStartRow, tokenStartColumn,
                            isStringLiteral, false)];
    }

    /** Reset: move the cursor back to the first token. */
    method Reset()
      modifies this
      ensures data == old(data) && position == 0
    {
      position := 0;
    }

    /** PeekNextToken: the token after the current one; an error when the current
        token is the last. */
    method PeekNextToken() returns (r: Result<Token>)
      requires Valid() && position < |data|
      ensures position + 1 == |data| <==> r.Err?
      ensures r.Err? ==> r.error == UnexpectedEndOfTokenStream
      ensures r.Ok? ==> position + 1 < |data| && r.value == data[position + 1]
    {
      if position + 1 == |data| {
        return Err(UnexpectedEndOfTokenStream);
      }
      r := Ok(data[position + 1]);
    }

    /** ReadToken: the current token, advancing the cursor past it.  At the end of the
        tokens there is none, which is an error when the caller expects one. */
    method ReadToken(expectingToHaveAny: bool) returns (r: Result<Option<Token>>)
      requires Valid()
      modifies this
      ensures Valid() && data == old(data)
      ensures old(position) == |data| ==>
        position == old(position)
        && r == (if expectingToHaveAny then Err(UnexpectedEndOfTokenStream) else Ok(None))
      ensures old(position) < |data| ==> position == old(position) + 1 && r == Ok(Some(data[old(position)]))
    {
      if position == |data| {
        if expectingToHaveAny {
          return Err(UnexpectedEndOfTokenStream);
        }
        return Ok(None);
      }
      var el := data[position];
      position := position + 1;
      r := Ok(Some(el));
    }

    /** CheckToken: read a token that must be of the given kind. */
    method CheckToken(tokenType: TokenType) returns (r: Result<()>)
      requires Valid()
      modifies this
      ensures Valid() && data == old(data)
      ensures old(position) == |data| ==> r == Err(UnexpectedEndOfTokenStream)
      ensures old(position) < |data| ==>
        position == old(position) + 1
        && r == (if data[old(position)].tokenType == tokenType then Ok(())
                 else Err(UnexpectedToken(tokenType, data[old(position)].tokenType)))
    {
      var el := ReadToken(true);
      if el.Err? {
        return Err(el.error);
      }
      if el.value.None? {
        assert false;
        return Err(UnexpectedEndOfTokenStream);
      }
      if el.value.value.tokenType != tokenType {
        return Err(UnexpectedToken(tokenType, el.value.value.tokenType));
      }
      r := Ok(());
    }

    /** CurrentToken: the token under the cursor, without moving it. */
    method CurrentToken() returns (r: Result<Token>)
      requires Valid()
      ensures position == |data| <==> r.Err?
      ensures r.Err? ==> r.error == UnexpectedEndOfTokenStream
      ensures r.Ok? ==> position < |data| && r.value == data[position]
    {
      if position == |data| {
        return Err(UnexpectedEndOfTokenStream);
      }
      r := Ok(data[position]);
    }

    /** HasToken: whether any token of the stream, read or not, has the given kind. */
    method HasToken(tokenType: TokenType) returns (r: bool)
      ensures r <==> exists i :: 0 <= i < |data| && data[i].tokenType == tokenType
    {
      var i := 0;
      while i < |data|
        invariant 0 <= i <= |data|
        invariant forall j :: 0 <= j < i ==> data[j].tokenType != tokenType
      {
        if data[i].tokenType == tokenType {
          return true;
        }
        i := i + 1;
      }
      return false;
    }

    /** ExtractSubstream: read up to the block end that closes the current block and
        return the tokens before it as a new stream; the terminator is consumed and
        not copied. */
    method ExtractSubstream(blockStartToken: TokenType, blockEndToken: TokenType) returns (r: Result<TokenStream>)
      requires Valid()
      modifies this
      ensures Valid() && data == old(data)
      ensures
        match Substream(data, old(position), blockStartToken, blockEndToken)
        case Err(e) => r == Err(e)
        case Ok((sub, next)) =>
          r.Ok? && fresh(r.value) && r.value.Valid() && r.value.data == sub && r.value.position == 0
          && position == next
    {
      var result := new TokenStream.Empty();
      var level: nat := 0;
      ghost var start := position;
      while true
        invariant start <= position <= |data| && data == old(data)
        invariant fresh(result) && result.position == 0 && result.data == data[start..position]
        invariant BlockEnd(data, position, blockStartToken, blockEndToken, level)
               == BlockEnd(data, start, blockStartToken, blockEndToken, 0)
        decreases |data| - position
      {
        var nextToken := ReadToken(false);
        if nextToken.Err? || nextToken.value.None? {
          return Err(UnexpectedEndOfTokenStream);
        }
        var token := nextToken.value.value;
        if token.tokenType == blockStartToken {
          level := level + 1;
        }
        if token.tokenType == blockEndToken {
          if level == 0 {
            break;
          }
          level := level - 1;
        }
        result.data := result.data + [token];
        assert data[start..position] == data[start..position - 1] + [data[position - 1]];
      }
      r := Ok(result);
    }

    /** ExtractExpressionSubstream: the tokens of the next statement (up to and
        consuming its ';', or up to the end) as a new stream; none at the end. */
    method ExtractExpressionSubstream() returns (r: Option<TokenStream>)
      requires Valid()
      modifies this
      ensures Valid() && data == old(data)
      ensures
        match ExpressionSubstream(data, old(position))
        case None => r.None? && position == old(position)
        case Some((sub, next)) =>
          r.Some? && fresh(r.value) && r.value.Valid() && r.value.data == sub && r.value.position == 0
          && position == next
    {
      if position == |data| {
        return None;
      }
      var result := new TokenStream.Empty();
      ghost var start := position;
      while true
        invariant start <= position <= |data| && data == old(data)
        invariant fresh(result) && result.position == 0 && result.data == data[start..position]
        invariant StatementEnd(data, position) == StatementEnd(data, start)
        decreases |data| - position
      {
        var el := ReadToken(false);
        if el.Err? || el.value.None? {
          break;
        }
        if el.value.value.tokenType == EndExpression {
          break;
        }
        result.data := result.data + [el.value.value];
        assert data[start..position] == data[start..position - 1] + [data[position - 1]];
      }
      r := Some(result);
    }
  }
}
