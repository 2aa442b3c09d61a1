/** Token kinds, the token record, the bilingual keyword table and the classification
    of a finished token value (BSLToken.h, BSLToken.cpp). */
module Tokens {

  /** The enum class TokenTypes: each enumerator is its underlying value, numbered
      from 0 in declaration order. */
  newtype TokenType = k: int | 0 <= k < 54

  const Identifier: TokenType := 0
  const BeginProcedure: TokenType := 1
  const BeginFunction: TokenType := 2
  const EndProcedure: TokenType := 3
  const EndFunction: TokenType := 4
  const EqualsSign: TokenType := 5
  const OpeningBracket: TokenType := 6
  const ClosingBracket: TokenType := 7
  const ExportKeyword: TokenType := 8
  const Comma: TokenType := 9
  const EndExpression: TokenType := 10
  const PlusSign: TokenType := 11
  const MinusSign: TokenType := 12
  const MultiplySign: TokenType := 13
  const DivisionSign: TokenType := 14
  const DotSign: TokenType := 15
  const BooleanConst: TokenType := 16
  const OperatorNew: TokenType := 17
  const OperatorIf: TokenType := 18
  const OperatorThen: TokenType := 19
  const OperatorElse: TokenType := 20
  const OperatorElseIf: TokenType := 21
  const OperatorEndIf: TokenType := 22
  const LessSign: TokenType := 23
  const GreaterSign: TokenType := 24
  const OperatorFor: TokenType := 25
  const OperatorWhile: TokenType := 26
  const OperatorEndLoop: TokenType := 27
  const OperatorTry: TokenType := 28
  const OperatorEndTry: TokenType := 29
  const DirectiveIf: TokenType := 30
  const DirectiveThen: TokenType := 31
  const DirectiveElseIf: TokenType := 32
  const DirectiveElse: TokenType := 33
  const DirectiveEndIf: TokenType := 34
  const DirectiveInsert: TokenType := 35
  const DirectiveEndInsert: TokenType := 36
  const DirectiveDelete: TokenType := 37
  const DirectiveEndDelete: TokenType := 38
  const DirectiveRegion: TokenType := 39
  const DirectiveEndRegion: TokenType := 40
  const KeywordAnd: TokenType := 41
  const KeywordOr: TokenType := 42
  const KeywordNot: TokenType := 43
  const KeywordVar: TokenType := 44
  const KeywordLoop: TokenType := 45
  const KeywordEach: TokenType := 46
  const KeywordVal: TokenType := 47
  const OpeningSquareBracket: TokenType := 48
  const ClosingSquareBracket: TokenType := 49
  const StringConst: TokenType := 50
  const Comment: TokenType := 51
  const NumericConst: TokenType := 52
  const Annotation: TokenType := 53

  /** One element of a token stream.  The source record lacks isFunctionCallHint,
      although both the lexer and the expression parser write it. */
  datatype Token = Token(
    tokenType: TokenType,
    value: string,
    sourceOffset: nat,
    sourceLength: nat,
    row: nat,
    column: nat,
    isStringLiteral: bool,
    isFunctionCallHint: bool)

  const ByteOrderMark: char := '\U{FEFF}'

  /** Characters below code 33 separate tokens. */
  predicate IsWhitespaceSymbol(c: char) {
    (c as int) < 33
  }

  /** The one-character dividers.  wcschr also finds the string's terminating NUL,
      so '\0' counts as a divider too (it is whitespace first, so this never shows). */
  predicate IsTokenDivider(c: char) {
    || c == '\0' || c == '\\' || c == '/' || c == '%' || c == '(' || c == ')' || c == '-'
    || c == '=' || c == '+' || c == ';' || c == '.' || c == ',' || c == '<' || c == '>'
    || c == '[' || c == ']'
  }

  // ---------------------------------------------------------------------------
  // Upper case (towupper, restricted to the Latin and Cyrillic letters)

  predicate IsLowerLetter(c: char) {
    ('a' <= c <= 'z') || ('\U{0430}' <= c <= '\U{045F}')
  }

  function Upper(c: char): (u: char)
    ensures !IsLowerLetter(u)
    ensures !IsLowerLetter(c) ==> u == c
  {
    if 'a' <= c <= 'z' || '\U{0430}' <= c <= '\U{044F}' then ((c as int) - 32) as char
    else if '\U{0450}' <= c <= '\U{045F}' then ((c as int) - 80) as char
    else c
  }

  function UpperString(s: string): (u: string)
    ensures |u| == |s|
    ensures forall i :: 0 <= i < |s| ==> u[i] == Upper(s[i])
  {
    if s == [] then [] else [Upper(s[0])] + UpperString(s[1..])
  }

  predicate HasNoLowerLetter(s: string) {
    forall i :: 0 <= i < |s| ==> !IsLowerLetter(s[i])
  }

  lemma UpperStringIdempotent(s: string)
    ensures UpperString(UpperString(s)) == UpperString(s)
    ensures HasNoLowerLetter(UpperString(s))
  {
  }

  // ---------------------------------------------------------------------------
  // The keyword table g_TokenDictionary, in the source's order

  datatype DictionaryEntry = DictionaryEntry(tokenType: TokenType, russian: string, english: string)

  const DictionarySize: nat := 50

  /** Entry i of g_TokenDictionary. */
  function DictionaryEntryAt(i: nat): DictionaryEntry
    requires i < DictionarySize
  {
    match i
    case 0 => DictionaryEntry(BeginProcedure, "ПРОЦЕДУРА", "PROCEDURE")
    case 1 => DictionaryEntry(BeginFunction, "ФУНКЦИЯ", "FUNCTION")
    case 2 => DictionaryEntry(EndProcedure, "КОНЕЦПРОЦЕДУРЫ", "ENDPROCEDURE")
    case 3 => DictionaryEntry(EndFunction, "КОНЕЦФУНКЦИИ", "ENDFUNCTION")
    case 4 => DictionaryEntry(EqualsSign, "=", "=")
    case 5 => DictionaryEntry(OpeningBracket, "(", "(")
    case 6 => DictionaryEntry(ClosingBracket, ")", ")")
    case 7 => DictionaryEntry(ExportKeyword, "ЭКСПОРТ", "EXPORT")
    case 8 => DictionaryEntry(Comma, ",", ",")
    case 9 => DictionaryEntry(EndExpression, ";", ";")
    case 10 => DictionaryEntry(PlusSign, "+", "+")
    case 11 => DictionaryEntry(MinusSign, "-", "-")
    case 12 => DictionaryEntry(MultiplySign, "*", "*")
    case 13 => DictionaryEntry(DivisionSign, "/", "/")
    case 14 => DictionaryEntry(DotSign, ".", ".")
    case 15 => DictionaryEntry(BooleanConst, "ЛОЖЬ", "FALSE")
    case 16 => DictionaryEntry(BooleanConst, "ИСТИНА", "TRUE")
    case 17 => DictionaryEntry(OperatorNew, "НОВЫЙ", "NEW")
    case 18 => DictionaryEntry(OperatorIf, "ЕСЛИ", "IF")
    case 19 => DictionaryEntry(OperatorThen, "ТОГДА", "THEN")
    case 20 => DictionaryEntry(OperatorElse, "ИНАЧЕ", "ELSE")
    case 21 => DictionaryEntry(OperatorElseIf, "ИНАЧЕЕСЛИ", "ELSEIF")
    case 22 => DictionaryEntry(OperatorEndIf, "КОНЕЦЕСЛИ", "ENDIF")
    case 23 => DictionaryEntry(LessSign, "<", "<")
    case 24 => DictionaryEntry(GreaterSign, ">", ">")
    case 25 => DictionaryEntry(OperatorFor, "ДЛЯ", "FOR")
    case 26 => DictionaryEntry(OperatorWhile, "ПОКА", "WHILE")
    case 27 => DictionaryEntry(OperatorEndLoop, "КОНЕЦЦИКЛА", "ENDLOOP")
    case 28 => DictionaryEntry(OperatorTry, "ПОПЫТКА", "TRY")
    case 29 => DictionaryEntry(OperatorEndTry, "КОНЕЦПОПЫТКИ", "ENDTRY")
    case 30 => DictionaryEntry(DirectiveIf, "#Если", "#IF")
    case 31 => DictionaryEntry(DirectiveThen, "#Тогда", "#THEN")
    case 32 => DictionaryEntry(DirectiveElseIf, "#ИначеЕсли", "#ELSEIF")
    case 33 => DictionaryEntry(DirectiveElse, "#Иначе", "#ELSE")
    case 34 => DictionaryEntry(DirectiveEndIf, "#КонецЕсли", "#ENDIF")
    case 35 => DictionaryEntry(DirectiveInsert, "#Вставка", "#INSERT")
    case 36 => DictionaryEntry(DirectiveEndInsert, "#КонецВставки", "#ENDINSERT")
    case 37 => DictionaryEntry(DirectiveDelete, "#Удаление", "#DELETE")
    case 38 => DictionaryEntry(DirectiveEndDelete, "#КонецУдаления", "#ENDDELETE")
    case 39 => DictionaryEntry(DirectiveRegion, "#Область", "#REGION")
    case 40 => DictionaryEntry(DirectiveEndRegion, "#КонецОбласти", "#ENDREGION")
    case 41 => DictionaryEntry(KeywordAnd, "И", "AND")
    case 42 => DictionaryEntry(KeywordOr, "ИЛИ", "OR")
    case 43 => DictionaryEntry(KeywordNot, "НЕ", "NOT")
    case 44 => DictionaryEntry(KeywordVar, "ПЕРЕМ", "VAR")
    case 45 => DictionaryEntry(KeywordLoop, "ЦИКЛ", "LOOP")
    case 46 => DictionaryEntry(KeywordEach, "КАЖДОГО", "EACH")
    case 47 => DictionaryEntry(KeywordVal, "ЗНАЧ", "VAL")
    case 48 => DictionaryEntry(OpeningSquareBracket, "[", "[")
    case _ => DictionaryEntry(ClosingSquareBracket, "]", "]")
  }

  /** g_TokenDictionary as a sequence. */
  function TokenDictionary(): (t: seq<DictionaryEntry>)
    ensures |t| == DictionarySize
    ensures forall i :: 0 <= i < DictionarySize ==> t[i] == DictionaryEntryAt(i)
  {
    seq(DictionarySize, i => if 0 <= i < DictionarySize then DictionaryEntryAt(i) else DictionaryEntryAt(0))
  }

  predicate Matches(e: DictionaryEntry, key: string) {
    e.russian == key || e.english == key
  }

  /** The kinds the lexer assigns by itself; none of them has a table entry. */
  predicate IsLexicalKind(k: TokenType) {
    k == Identifier || k == StringConst || k == Comment || k == NumericConst || k == Annotation
  }

  lemma DictionaryHasNoLexicalKind()
    ensures forall i :: 0 <= i < |TokenDictionary()| ==> !IsLexicalKind(TokenDictionary()[i].tokenType)
  {
    forall i | 0 <= i < DictionarySize
      ensures !IsLexicalKind(DictionaryEntryAt(i).tokenType)
    {
    }
  }

  /** The kind of the first entry of table at or after from that spells key;
      Identifier when none does. */
  function Lookup(table: seq<DictionaryEntry>, key: string, from: nat): TokenType
    requires from <= |table|
    decreases |table| - from
  {
    if from == |table| then Identifier
    else if Matches(table[from], key) then table[from].tokenType
    else Lookup(table, key, from + 1)
  }

  /** The scan finds the first matching entry, and answers Identifier exactly when
      no entry matches (the table itself has no Identifier entry). */
  lemma {:induction false} LookupFindsFirstMatch(table: seq<DictionaryEntry>, key: string, from: nat)
    requires from <= |table|
    requires forall i :: 0 <= i < |table| ==> table[i].tokenType != Identifier
    ensures Lookup(table, key, from) == Identifier <==>
      forall i :: from <= i < |table| ==> !Matches(table[i], key)
    ensures Lookup(table, key, from) != Identifier ==>
      exists i :: from <= i < |table| && Matches(table[i], key) &&
        table[i].tokenType == Lookup(table, key, from) &&
        forall j :: from <= j < i ==> !Matches(table[j], key)
    decreases |table| - from
  {
    if from < |table| && !Matches(table[from], key) {
      LookupFindsFirstMatch(table, key, from + 1);
    }
  }

  /** TokenTypeFromValue: upper-case a copy of the value and look it up. */
  function TokenTypeFromValue(value: string): (k: TokenType)
    ensures !IsLexicalKind(k) || k == Identifier
    ensures k == Identifier <==>
      forall i :: 0 <= i < |TokenDictionary()| ==> !Matches(TokenDictionary()[i], UpperString(value))
  {
    DictionaryHasNoLexicalKind();
    LookupFindsFirstMatch(TokenDictionary(), UpperString(value), 0);
    Lookup(TokenDictionary(), UpperString(value), 0)
  }

  // ---------------------------------------------------------------------------
  // Classification of a flushed value (PushToken)

  predicate IsDecimalDigits(s: string) {
    |s| > 0 && forall i :: 0 <= i < |s| ==> '0' <= s[i] <= '9'
  }

  /** wcstol(value, &p, 10) leaves p at the terminator: an optional sign and a
      non-empty run of decimal digits make up the whole value. */
  predicate IsWholeNumber(s: string) {
    IsDecimalDigits(s) || (|s| > 1 && (s[0] == '+' || s[0] == '-') && IsDecimalDigits(s[1..]))
  }

  predicate HasCommentPrefix(s: string) {
    |s| >= 2 && s[0] == '/' && s[1] == '/'
  }

  function Classify(value: string, isStringLiteral: bool): (k: TokenType)
    requires |value| > 0
    ensures k == StringConst <==> isStringLiteral
    ensures k == Annotation <==> !isStringLiteral && value[0] == '&'
    ensures k == NumericConst <==> !isStringLiteral && value[0] != '&' && IsWholeNumber(value)
    ensures k == Comment <==>
      !isStringLiteral && value[0] != '&' && !IsWholeNumber(value) && HasCommentPrefix(value)
    ensures !IsLexicalKind(k) || k == Identifier ==>
      !isStringLiteral && value[0] != '&' && !IsWholeNumber(value) && !HasCommentPrefix(value) &&
      k == TokenTypeFromValue(value)
  {
    if isStringLiteral then StringConst
    else if value[0] == '&' then Annotation
    else if IsWholeNumber(value) then NumericConst
    else if HasCommentPrefix(value) then Comment
    else TokenTypeFromValue(value)
  }

  /** What PushToken appends to the stream: nothing for an empty value or one that
      starts with a byte-order mark, otherwise one classified token. */
  function Emit(value: string, row: nat, column: nat, offset: nat, isStringLiteral: bool): (r: seq<Token>)
    ensures r == [] <==> value == [] || value[0] == ByteOrderMark
    ensures r != [] ==>
      && |r| == 1 && r[0].value == value && r[0].sourceLength == |value|
      && r[0].row == row && r[0].column == column && r[0].sourceOffset == offset
      && r[0].isStringLiteral == isStringLiteral && !r[0].isFunctionCallHint
      && r[0].tokenType == Classify(value, isStringLiteral)
  {
    if value == [] || value[0] == ByteOrderMark then []
    else [Token(Classify(value, isStringLiteral), value, offset, |value|, row, column, isStringLiteral, false)]
  }

  // ---------------------------------------------------------------------------
  // Keyword resolution facts

  /** Both languages, any letter case: "procedure", "Procedure", "ПРОЦЕДУРА" and
      "процедура" all open a procedure. */
  lemma ProcedureEnglishLowerCase()
    ensures TokenTypeFromValue("procedure") == BeginProcedure
  {
    assert UpperString("procedure") == "PROCEDURE";
  }

  lemma ProcedureEnglishMixedCase()
    ensures TokenTypeFromValue("Procedure") == BeginProcedure
  {
    assert UpperString("Procedure") == "PROCEDURE";
  }

  lemma ProcedureRussianUpperCase()
    ensures TokenTypeFromValue("ПРОЦЕДУРА") == BeginProcedure
  {
    assert UpperString("ПРОЦЕДУРА") == "ПРОЦЕДУРА";
  }

  lemma ProcedureRussianLowerCase()
    ensures TokenTypeFromValue("процедура") == BeginProcedure
  {
    assert UpperString("процедура") == "ПРОЦЕДУРА";
  }

  /** Resolution depends on the upper-cased spelling only. */
  lemma {:induction false} CaseInsensitive(s: string, t: string)
    requires UpperString(s) == UpperString(t)
    ensures TokenTypeFromValue(s) == TokenTypeFromValue(t)
    ensures TokenTypeFromValue(UpperString(s)) == TokenTypeFromValue(s)
  {
    UpperStringIdempotent(s);
  }

  /** An entry whose Russian spelling holds a lower-case letter is matched by an
      upper-cased key only through its English spelling. */
  lemma {:induction false} MixedCaseSpellingUnreachable(e: DictionaryEntry, s: string)
    requires !HasNoLowerLetter(e.russian)
    ensures Matches(e, UpperString(s)) <==> e.english == UpperString(s)
  {
    UpperStringIdempotent(s);
  }

  /** A value resolves to a keyword only if the upper-cased value is that entry's
      English spelling or an all-upper-case Russian spelling. */
  lemma {:induction false} ResolvedSpelling(value: string)
    requires TokenTypeFromValue(value) != Identifier
    ensures exists i ::
      && 0 <= i < |TokenDictionary()|
      && TokenDictionary()[i].tokenType == TokenTypeFromValue(value)
      && (|| TokenDictionary()[i].english == UpperString(value)
          || (TokenDictionary()[i].russian == UpperString(value) && HasNoLowerLetter(TokenDictionary()[i].russian)))
  {
    UpperStringIdempotent(value);
    DictionaryHasNoLexicalKind();
    LookupFindsFirstMatch(TokenDictionary(), UpperString(value), 0);
  }

  predicate StartsWithHash(s: string) {
    |s| > 0 && s[0] == '#'
  }

  /** Entries 30 to 40, the preprocessor directives, are the only ones spelt with a
      leading '#'. */
  lemma DirectiveEntries()
    ensures forall i :: 0 <= i < DictionarySize && (i < 30 || 40 < i) ==>
      !StartsWithHash(DictionaryEntryAt(i).russian) && !StartsWithHash(DictionaryEntryAt(i).english)
  {
    forall i | 0 <= i < DictionarySize && (i < 30 || 40 < i)
      ensures !StartsWithHash(DictionaryEntryAt(i).russian) && !StartsWithHash(DictionaryEntryAt(i).english)
    {
    }
  }

  /** "#Если", in any letter case, is not a keyword at all: it upper-cases to
      "#ЕСЛИ", which no entry spells. */
  lemma {:induction false} RussianDirectiveIfIsIdentifier(value: string)
    requires UpperString(value) == UpperString("#Если")
    ensures TokenTypeFromValue(value) == Identifier
  {
    var t := TokenDictionary();
    var u := UpperString(value);
    assert u == "#ЕСЛИ";
    DirectiveEntries();
    NoDirectiveSpellsRussianIf0();
    NoDirectiveSpellsRussianIf1();
    NoDirectiveSpellsRussianIf2();
    NoDirectiveSpellsRussianIf3();
    forall i | 0 <= i < |t|
      ensures !Matches(t[i], u)
    {
      assert t[i] == DictionaryEntryAt(i);
    }
  }

  lemma NoDirectiveSpellsRussianIf0()
    ensures forall i :: 30 <= i < 33 ==> !Matches(DictionaryEntryAt(i), "#ЕСЛИ")
  {
    assert !Matches(DictionaryEntryAt(30), "#ЕСЛИ");
    assert !Matches(DictionaryEntryAt(31), "#ЕСЛИ");
    assert !Matches(DictionaryEntryAt(32), "#ЕСЛИ");
  }

  lemma NoDirectiveSpellsRussianIf1()
    ensures forall i :: 33 <= i < 36 ==> !Matches(DictionaryEntryAt(i), "#ЕСЛИ")
  {
    assert !Matches(DictionaryEntryAt(33), "#ЕСЛИ");
    assert !Matches(DictionaryEntryAt(34), "#ЕСЛИ");
    assert !Matches(DictionaryEntryAt(35), "#ЕСЛИ");
  }

  lemma NoDirectiveSpellsRussianIf2()
    ensures forall i :: 36 <= i < 39 ==> !Matches(DictionaryEntryAt(i), "#ЕСЛИ")
  {
    assert !Matches(DictionaryEntryAt(36), "#ЕСЛИ");
    assert !Matches(DictionaryEntryAt(37), "#ЕСЛИ");
    assert !Matches(DictionaryEntryAt(38), "#ЕСЛИ");
  }

  lemma NoDirectiveSpellsRussianIf3()
    ensures forall i :: 39 <= i < 41 ==> !Matches(DictionaryEntryAt(i), "#ЕСЛИ")
  {
    assert !Matches(DictionaryEntryAt(39), "#ЕСЛИ");
    assert !Matches(DictionaryEntryAt(40), "#ЕСЛИ");
  }

  /** Concatenation of token sequences is associative. */
  lemma AppendAssociative(a: seq<Token>, b: seq<Token>, c: seq<Token>)
    ensures a + (b + c) == (a + b) + c
  {
  }
}
