/** The shunting-yard pass ShuntAlgo (BSLAbstractSyntaxTree.cpp): operands go to the
    output, operators wait on a stack ordered by Precedence, brackets group.  The pure
    functions below specify one token at a time; the method ShuntAlgo runs the same
    pass over a TokenStream with a stack and an output vector. */
module Shunting {
  import opened Tokens
  import opened Outcomes
  import opened TokenStreams

  /** Precedence: multiplication and division bind tighter than addition and
      subtraction, member access is below both, and every other kind is -1 (a barrier
      that operators never pop). */
  function Precedence(t: TokenType): int {
    if t == PlusSign || t == MinusSign then 1
    else if t == MultiplySign || t == DivisionSign then 2
    else if t == DotSign then 0
    else -1
  }

  /** The table of Precedence by kind: only the five arithmetic and member-access signs
      rank above the barrier value -1, and equality, brackets and all other kinds share
      it. */
  lemma PrecedenceTable(t: TokenType)
    ensures -1 <= Precedence(t) <= 2
    ensures Precedence(t) == 2 <==> t == MultiplySign || t == DivisionSign
    ensures Precedence(t) == 1 <==> t == PlusSign || t == MinusSign
    ensures Precedence(t) == 0 <==> t == DotSign
    ensures Precedence(t) == -1 <==> !(t == PlusSign || t == MinusSign || t == MultiplySign || t == DivisionSign || t == DotSign)
  {
  }

  /** op_stack (top last) and output. */
  datatype ShuntState = ShuntState(stack: seq<Token>, output: seq<Token>)

  const Start := ShuntState([], [])

  /** What a finished pass yields: the output sequence, and the stream's tokens with the
      call hints written into them. */
  datatype ShuntOutcome = ShuntOutcome(output: seq<Token>, tokens: seq<Token>)

  predicate IsOperator(t: TokenType) {
    t == PlusSign || t == MinusSign || t == DotSign || t == EqualsSign || t == MultiplySign || t == DivisionSign
  }

  function Top(s: seq<Token>): Token
    requires |s| > 0
  {
    s[|s| - 1]
  }

  function Pop(s: seq<Token>): seq<Token>
    requires |s| > 0
  {
    s[..|s| - 1]
  }

  /** s top first. */
  function Reverse(s: seq<Token>): (r: seq<Token>)
    ensures |r| == |s|
    decreases |s|
  {
    if |s| == 0 then [] else [Top(s)] + Reverse(Pop(s))
  }

  lemma {:induction false} ReverseElements(s: seq<Token>)
    ensures forall k :: 0 <= k < |s| ==> Reverse(s)[k] == s[|s| - 1 - k]
    decreases |s|
  {
    if |s| > 0 {
      ReverseElements(Pop(s));
    }
  }

  /** Before an operator of precedence p is pushed: move operators of precedence at
      least p from the stack to the output, stopping at a barrier. */
  function PopOperators(st: ShuntState, p: int): ShuntState
    decreases |st.stack|
  {
    if |st.stack| == 0 then st
    else
      var top := Top(st.stack);
      if Pops(top, p) then
        PopOperators(ShuntState(Pop(st.stack), st.output + [top]), p)
      else st
  }

  /** A stack entry that an operator of precedence p moves to the output. */
  predicate Pops(t: Token, p: int) {
    Precedence(t.tokenType) >= p && Precedence(t.tokenType) != -1
  }

  /** At a closing bracket: move entries to the output until the opener is on top, then
      drop the opener, copying it to the output when alwaysEmit is set or it carries a
      call hint; with no opener left the brackets are mismatched. */
  function CloseGroup(st: ShuntState, opener: TokenType, alwaysEmit: bool): Result<ShuntState>
    decreases |st.stack|
  {
    if |st.stack| == 0 then Err(MismatchedParenthesis)
    else
      var top := Top(st.stack);
      if top.tokenType == opener then
        Ok(ShuntState(Pop(st.stack), if alwaysEmit || top.isFunctionCallHint then st.output + [top] else st.output))
      else CloseGroup(ShuntState(Pop(st.stack), st.output + [top]), opener, alwaysEmit)
  }

  /** After the last token: move the stack to the output; a '(' left over is an error. */
  function Drain(st: ShuntState): Result<seq<Token>>
    decreases |st.stack|
  {
    if |st.stack| == 0 then Ok(st.output)
    else if Top(st.stack).tokenType == OpeningBracket then Err(MismatchedParenthesis)
    else Drain(ShuntState(Pop(st.stack), st.output + [Top(st.stack)]))
  }

  /** One token of the pass: the new state and the token as the stream now holds it (an
      opening bracket gains a call hint when an identifier was output last). */
  function ShuntToken(st: ShuntState, t: Token): Result<(ShuntState, Token)> {
    if t.tokenType == NumericConst || t.tokenType == Identifier then
      Ok((st.(output := st.output + [t]), t))
    else if t.tokenType == OpeningBracket then
      if |st.output| == 0 then Err(EmptyOutputBack)
      else
        var h := if Top(st.output).tokenType == Identifier then t.(isFunctionCallHint := true) else t;
        Ok((st.(stack := st.stack + [h]), h))
    else if t.tokenType == OpeningSquareBracket then
      Ok((st.(stack := st.stack + [t]), t))
    else if IsOperator(t.tokenType) then
      var s := PopOperators(st, Precedence(t.tokenType));
      Ok((s.(stack := s.stack + [t]), t))
    else if t.tokenType == ClosingBracket then
      match CloseGroup(st, OpeningBracket, false)
      case Err(e) => Err(e)
      case Ok(s) => Ok((s, t))
    else if t.tokenType == ClosingSquareBracket then
      match CloseGroup(st, OpeningSquareBracket, true)
      case Err(e) => Err(e)
      case Ok(s) => Ok((s, t))
    else Ok((st, t))
  }

  /** The pass over ts from index i. */
  function ShuntFrom(ts: seq<Token>, i: nat, st: ShuntState): Result<ShuntOutcome>
    requires i <= |ts|
    decreases |ts| - i
  {
    if i == |ts| then
      match Drain(st)
      case Err(e) => Err(e)
      case Ok(out) => Ok(ShuntOutcome(out, ts))
    else
      match ShuntToken(st, ts[i])
      case Err(e) => Err(e)
      case Ok((s, t)) => ShuntFrom(ts[i := t], i + 1, s)
  }

  /** ShuntAlgo's result on a stream whose cursor is at pos. */
  function Shunt(ts: seq<Token>, pos: nat): Result<ShuntOutcome>
    requires pos <= |ts|
  {
    ShuntFrom(ts, pos, Start)
  }

  // ---------------------------------------------------------------------------
  // Reference definitions of the stack operations

  predicate HasKind(s: seq<Token>, kind: TokenType) {
    exists k :: 0 <= k < |s| && s[k].tokenType == kind
  }

  /** Drain moves the whole stack, top first, to the output exactly when no '(' is
      left on it. */
  lemma {:induction false} DrainMovesStack(st: ShuntState)
    ensures HasKind(st.stack, OpeningBracket) ==> Drain(st) == Err(MismatchedParenthesis)
    ensures !HasKind(st.stack, OpeningBracket) ==> Drain(st) == Ok(st.output + Reverse(st.stack))
    decreases |st.stack|
  {
    if |st.stack| > 0 {
      var top := Top(st.stack);
      var rest := Pop(st.stack);
      if top.tokenType != OpeningBracket {
        DrainMovesStack(ShuntState(rest, st.output + [top]));
        assert HasKind(st.stack, OpeningBracket) <==> HasKind(rest, OpeningBracket) by {
          if HasKind(rest, OpeningBracket) {
            var k :| 0 <= k < |rest| && rest[k].tokenType == OpeningBracket;
            assert st.stack[k] == rest[k];
          }
          if HasKind(st.stack, OpeningBracket) {
            var k :| 0 <= k < |st.stack| && st.stack[k].tokenType == OpeningBracket;
            assert k < |rest| && rest[k] == st.stack[k];
          }
        }
        AppendAssociative(st.output, [top], Reverse(rest));
      } else {
        assert st.stack[|st.stack| - 1].tokenType == OpeningBracket;
      }
    } else {
      assert Reverse(st.stack) == [];
      assert st.output + [] == st.output;
    }
  }

  /** The index of the topmost entry of the given kind. */
  function TopmostOf(s: seq<Token>, kind: TokenType): (r: Option<nat>)
    ensures r.Some? ==>
      && r.value < |s| && s[r.value].tokenType == kind
      && forall k :: r.value < k < |s| ==> s[k].tokenType != kind
    ensures r.None? ==> !HasKind(s, kind)
    decreases |s|
  {
    if |s| == 0 then None
    else if Top(s).tokenType == kind then Some(|s| - 1)
    else
      TopmostOf(Pop(s), kind)
  }

  /** Cutting a stack at n below its top: the part below n is the same with or without
      the top, and the part above n ends with the top. */
  lemma SplitBelowTop(s: seq<Token>, n: nat)
    requires n < |s|
    ensures s[..n] == Pop(s)[..n]
    ensures s[n..] == Pop(s)[n..] + [Top(s)]
  {
  }

  lemma ReverseSnoc(s: seq<Token>, t: Token)
    ensures Reverse(s + [t]) == [t] + Reverse(s)
  {
    assert Top(s + [t]) == t;
    assert Pop(s + [t]) == s;
  }

  /** CloseGroup cuts the stack at the topmost opener: what lies above it goes to the
      output, top first, followed by the opener itself if it is emitted. */
  lemma {:induction false} CloseGroupCutsAtOpener(st: ShuntState, opener: TokenType, alwaysEmit: bool, k: nat)
    requires TopmostOf(st.stack, opener) == Some(k)
    ensures CloseGroup(st, opener, alwaysEmit) ==
              Ok(ShuntState(st.stack[..k],
                            st.output + Reverse(st.stack[k + 1..])
                            + (if alwaysEmit || st.stack[k].isFunctionCallHint then [st.stack[k]] else [])))
    decreases |st.stack|
  {
    var top := Top(st.stack);
    var rest := Pop(st.stack);
    if top.tokenType == opener {
      assert st.stack[k + 1..] == [];
      assert st.output + Reverse(st.stack[k + 1..]) == st.output;
    } else {
      var next := ShuntState(rest, st.output + [top]);
      CloseGroupCutsAtOpener(next, opener, alwaysEmit, k);
      SplitBelowTop(st.stack, k + 1);
      assert rest[k] == st.stack[k];
      assert rest[..k] == st.stack[..k];
      ReverseSnoc(rest[k + 1..], top);
      AppendAssociative(st.output, [top], Reverse(rest[k + 1..]));
    }
  }

  /** With no opener on the stack, CloseGroup reports mismatched brackets. */
  lemma {:induction false} CloseGroupWithoutOpener(st: ShuntState, opener: TokenType, alwaysEmit: bool)
    requires !HasKind(st.stack, opener)
    ensures CloseGroup(st, opener, alwaysEmit) == Err(MismatchedParenthesis)
    decreases |st.stack|
  {
    if |st.stack| > 0 {
      var rest := Pop(st.stack);
      assert st.stack[|st.stack| - 1] == Top(st.stack);
      assert forall k :: 0 <= k < |rest| ==> rest[k] == st.stack[k];
      CloseGroupWithoutOpener(ShuntState(rest, st.output + [Top(st.stack)]), opener, alwaysEmit);
    }
  }

  /** How many entries of s an operator of precedence p leaves on the stack: it takes
      off the top every entry that Pops, and stops at the first one that does not. */
  function Kept(s: seq<Token>, p: int): (n: nat)
    ensures n <= |s|
    ensures forall k :: n <= k < |s| ==> Pops(s[k], p)
    ensures n > 0 ==> !Pops(s[n - 1], p)
    decreases |s|
  {
    if |s| == 0 then 0
    else if Pops(Top(s), p) then
      assert forall k :: 0 <= k < |s| - 1 ==> Pop(s)[k] == s[k];
      Kept(Pop(s), p)
    else |s|
  }

  /** PopOperators keeps the first Kept entries of the stack and appends the others to
      the output in the order popped, top first. */
  lemma {:induction false} PopOperatorsStops(st: ShuntState, p: int)
    ensures PopOperators(st, p)
            == ShuntState(st.stack[..Kept(st.stack, p)], st.output + Reverse(st.stack[Kept(st.stack, p)..]))
    decreases |st.stack|
  {
    var n := Kept(st.stack, p);
    if |st.stack| > 0 && Pops(Top(st.stack), p) {
      var top := Top(st.stack);
      var rest := Pop(st.stack);
      var next := ShuntState(rest, st.output + [top]);
      PopOperatorsStops(next, p);
      assert n == Kept(rest, p);
      SplitBelowTop(st.stack, n);
      ReverseSnoc(rest[n..], top);
      AppendAssociative(st.output, [top], Reverse(rest[n..]));
    } else {
      assert n == |st.stack|;
      assert st.stack[..n] == st.stack;
      assert st.output + Reverse(st.stack[n..]) == st.output;
    }
  }

  // ---------------------------------------------------------------------------
  // What the pass keeps

  /** Between barriers the stack's precedence strictly increases: an operator never
      sits directly on one that binds at least as tightly, which is what makes
      equal-precedence operators associate to the left. */
  predicate StackOrdered(s: seq<Token>) {
    forall k :: 0 <= k < |s| - 1 ==> MayStack(s[k], s[k + 1])
  }

  /** upper may sit directly on lower. */
  predicate MayStack(lower: Token, upper: Token) {
    Precedence(lower.tokenType) == -1 || Precedence(upper.tokenType) == -1
    || Precedence(lower.tokenType) < Precedence(upper.tokenType)
  }

  lemma StackOrderedPrefix(s: seq<Token>, n: nat)
    requires StackOrdered(s) && n <= |s|
    ensures StackOrdered(s[..n])
  {
    assert forall k :: 0 <= k < n ==> s[..n][k] == s[k];
  }

  /** A token's step keeps the stack ordered. */
  lemma ShuntTokenKeepsOrder(st: ShuntState, t: Token)
    requires StackOrdered(st.stack)
    ensures ShuntToken(st, t).Ok? ==> StackOrdered(ShuntToken(st, t).value.0.stack)
  {
    if IsOperator(t.tokenType) {
      var r := PopOperators(st, Precedence(t.tokenType));
      assert ShuntToken(st, t) == Ok((ShuntState(r.stack + [t], r.output), t));
      OperatorKeepsOrder(st, t);
    } else if t.tokenType == ClosingBracket || t.tokenType == ClosingSquareBracket {
      var opener := if t.tokenType == ClosingBracket then OpeningBracket else OpeningSquareBracket;
      var always := t.tokenType == ClosingSquareBracket;
      assert ShuntToken(st, t).Ok? ==> ShuntToken(st, t).value.0 == CloseGroup(st, opener, always).value;
      CloseGroupKeepsOrder(st, opener, always);
    } else if t.tokenType == OpeningBracket || t.tokenType == OpeningSquareBracket {
      if ShuntToken(st, t).Ok? {
        PushBarrierKeepsOrder(st.stack, ShuntToken(st, t).value.1);
      }
    }
  }

  /** An operator pushed after PopOperators has made room for it keeps the order. */
  lemma OperatorKeepsOrder(st: ShuntState, t: Token)
    requires StackOrdered(st.stack) && IsOperator(t.tokenType)
    ensures StackOrdered(PopOperators(st, Precedence(t.tokenType)).stack + [t])
  {
    var p := Precedence(t.tokenType);
    var n := Kept(st.stack, p);
    PopOperatorsStops(st, p);
    StackOrderedPrefix(st.stack, n);
    var kept := st.stack[..n];
    var s := kept + [t];
    forall k | 0 <= k < |s| - 1
      ensures MayStack(s[k], s[k + 1])
    {
      if k < n - 1 {
        assert s[k] == kept[k] && s[k + 1] == kept[k + 1];
      } else {
        assert s[k] == st.stack[n - 1] && s[k + 1] == t;
      }
    }
  }

  lemma CloseGroupKeepsOrder(st: ShuntState, opener: TokenType, alwaysEmit: bool)
    requires StackOrdered(st.stack)
    ensures CloseGroup(st, opener, alwaysEmit).Ok? ==> StackOrdered(CloseGroup(st, opener, alwaysEmit).value.stack)
  {
    match TopmostOf(st.stack, opener)
    case None =>
      CloseGroupWithoutOpener(st, opener, alwaysEmit);
    case Some(k) =>
      CloseGroupCutsAtOpener(st, opener, alwaysEmit, k);
      StackOrderedPrefix(st.stack, k);
  }

  /** An entry of precedence -1 may sit on any entry. */
  lemma PushBarrierKeepsOrder(s: seq<Token>, t: Token)
    requires StackOrdered(s) && Precedence(t.tokenType) == -1
    ensures StackOrdered(s + [t])
  {
    assert forall k :: 0 <= k < |s| ==> (s + [t])[k] == s[k];
  }

  /** The kinds ShuntAlgo ever puts on its stack or in its output. */
  predicate Stackable(t: TokenType) {
    t == OpeningBracket || t == OpeningSquareBracket || IsOperator(t)
  }

  predicate IsOperand(t: TokenType) {
    t == NumericConst || t == Identifier
  }

  predicate AllStackable(s: seq<Token>) {
    forall k :: 0 <= k < |s| ==> Stackable(s[k].tokenType)
  }

  predicate AllOutputKinds(s: seq<Token>) {
    forall k :: 0 <= k < |s| ==> IsOperand(s[k].tokenType) || Stackable(s[k].tokenType)
  }

  /** The operands of s, in order. */
  function Operands(s: seq<Token>): seq<Token>
    decreases |s|
  {
    if |s| == 0 then [] else Operands(Pop(s)) + (if IsOperand(Top(s).tokenType) then [Top(s)] else [])
  }

  lemma {:induction false} OperandsAppend(a: seq<Token>, b: seq<Token>)
    ensures Operands(a + b) == Operands(a) + Operands(b)
    decreases |b|
  {
    if |b| > 0 {
      assert Pop(a + b) == a + Pop(b);
      assert Top(a + b) == Top(b);
      OperandsAppend(a, Pop(b));
    } else {
      assert a + b == a;
    }
  }

  lemma OperandsSingle(t: Token)
    ensures Operands([t]) == if IsOperand(t.tokenType) then [t] else []
  {
    assert Pop([t]) == [];
  }

  lemma {:induction false} NoOperandsMoved(s: seq<Token>)
    requires AllStackable(s)
    ensures Operands(s) == []
    decreases |s|
  {
    if |s| > 0 {
      assert Top(s) == s[|s| - 1];
      NoOperandsMoved(Pop(s));
    }
  }

  /** The joint invariant of stack and output. */
  predicate Wellformed(st: ShuntState) {
    AllStackable(st.stack) && AllOutputKinds(st.output)
  }

  /** A token's step keeps the invariant and adds the token to the output's operands
      exactly when it is one. */
  lemma ShuntTokenKeepsKinds(st: ShuntState, t: Token)
    requires Wellformed(st)
    ensures ShuntToken(st, t).Ok? ==>
      var s := ShuntToken(st, t).value.0;
      && Wellformed(s)
      && Operands(s.output) == Operands(st.output) + Operands([t])
  {
    OperandsSingle(t);
    if IsOperand(t.tokenType) {
      OperandsAppend(st.output, [t]);
    } else if IsOperator(t.tokenType) {
      var r := PopOperators(st, Precedence(t.tokenType));
      assert ShuntToken(st, t) == Ok((ShuntState(r.stack + [t], r.output), t));
      OperatorKeepsKinds(st, t);
    } else if t.tokenType == ClosingBracket || t.tokenType == ClosingSquareBracket {
      var opener := if t.tokenType == ClosingBracket then OpeningBracket else OpeningSquareBracket;
      var always := t.tokenType == ClosingSquareBracket;
      assert ShuntToken(st, t).Ok? ==> ShuntToken(st, t).value.0 == CloseGroup(st, opener, always).value;
      CloseGroupKeepsKinds(st, opener, always);
    }
  }

  /** PopOperators followed by the push of an operator keeps the invariant and adds no
      operand. */
  lemma OperatorKeepsKinds(st: ShuntState, t: Token)
    requires Wellformed(st) && IsOperator(t.tokenType)
    ensures
      var r := PopOperators(st, Precedence(t.tokenType));
      Wellformed(ShuntState(r.stack + [t], r.output)) && Operands(r.output) == Operands(st.output)
  {
    var p := Precedence(t.tokenType);
    var n := Kept(st.stack, p);
    PopOperatorsStops(st, p);
    CutKeepsKinds(st, n, n, [t], []);
    assert st.output + Reverse(st.stack[n..]) + [] == st.output + Reverse(st.stack[n..]);
  }

  lemma CloseGroupKeepsKinds(st: ShuntState, opener: TokenType, alwaysEmit: bool)
    requires Wellformed(st) && Stackable(opener)
    ensures CloseGroup(st, opener, alwaysEmit).Ok? ==>
      var s := CloseGroup(st, opener, alwaysEmit).value;
      Wellformed(s) && Operands(s.output) == Operands(st.output)
  {
    match TopmostOf(st.stack, opener)
    case None =>
      CloseGroupWithoutOpener(st, opener, alwaysEmit);
    case Some(k) =>
      CloseGroupCutsAtOpener(st, opener, alwaysEmit, k);
      CutKeepsKinds(st, k, k + 1, [], if alwaysEmit || st.stack[k].isFunctionCallHint then [st.stack[k]] else []);
  }

  /** Keeping the stack below index n, moving the part above index m to the output top
      first, and then pushing pushed and emitting emitted, all of them stack entries,
      keeps the invariant and adds no operand. */
  lemma CutKeepsKinds(st: ShuntState, n: nat, m: nat, pushed: seq<Token>, emitted: seq<Token>)
    requires Wellformed(st) && n <= m <= |st.stack|
    requires AllStackable(pushed) && AllStackable(emitted)
    ensures
      var out := st.output + Reverse(st.stack[m..]) + emitted;
      && Wellformed(ShuntState(st.stack[..n] + pushed, out))
      && Operands(out) == Operands(st.output)
  {
    var moved := st.output + Reverse(st.stack[m..]);
    MovedKeepsKinds(st, m);
    NoOperandsMoved(emitted);
    OperandsAppend(moved, emitted);
    assert AllOutputKinds(emitted);
    assert AllStackable(st.stack[..n]);
  }

  /** Moving the stack above index n to the output, top first, keeps the invariant of
      the output and adds no operand. */
  lemma MovedKeepsKinds(st: ShuntState, n: nat)
    requires Wellformed(st) && n <= |st.stack|
    ensures
      var out := st.output + Reverse(st.stack[n..]);
      AllOutputKinds(out) && Operands(out) == Operands(st.output)
  {
    var moved := Reverse(st.stack[n..]);
    ReverseElements(st.stack[n..]);
    assert AllStackable(moved) by {
      forall k | 0 <= k < |moved| ensures Stackable(moved[k].tokenType) {
        assert moved[k] == st.stack[n..][|st.stack[n..]| - 1 - k];
      }
    }
    NoOperandsMoved(moved);
    OperandsAppend(st.output, moved);
    assert st.output + moved == st.output + [] + moved;
  }

  lemma DrainKeepsKinds(st: ShuntState)
    requires Wellformed(st)
    ensures Drain(st).Ok? ==> AllOutputKinds(Drain(st).value) && Operands(Drain(st).value) == Operands(st.output)
  {
    DrainMovesStack(st);
    if !HasKind(st.stack, OpeningBracket) {
      MovedKeepsKinds(st, 0);
      assert st.stack[0..] == st.stack;
    }
  }

  /** The bracket and operator tokens of the input never reach the output as anything
      but what they are: every output token is an operand, an operator or an opening
      bracket, so ')' and ']' never appear; and the operands appear exactly once each,
      in input order. */
  lemma {:induction false} ShuntFromKeeps(ts: seq<Token>, i: nat, st: ShuntState)
    requires i <= |ts| && Wellformed(st)
    ensures ShuntFrom(ts, i, st).Ok? ==>
      var o := ShuntFrom(ts, i, st).value;
      && AllOutputKinds(o.output)
      && Operands(o.output) == Operands(st.output) + Operands(ts[i..])
    decreases |ts| - i
  {
    if i == |ts| {
      DrainKeepsKinds(st);
      assert ts[i..] == [];
      assert Operands(st.output) + Operands([]) == Operands(st.output);
    } else {
      ShuntTokenKeepsKinds(st, ts[i]);
      match ShuntToken(st, ts[i])
      case Err(_) =>
      case Ok((s, t)) =>
        var ts' := ts[i := t];
        ShuntFromKeeps(ts', i + 1, s);
        OperandsFrom(ts, i, t);
        AppendAssociative(Operands(st.output), Operands([ts[i]]), Operands(ts'[i + 1..]));
    }
  }

  /** The operands from index i on are the operand at i, if any, and those after it,
      whatever token the pass writes back at i. */
  lemma OperandsFrom(ts: seq<Token>, i: nat, t: Token)
    requires i < |ts|
    ensures Operands(ts[i..]) == Operands([ts[i]]) + Operands(ts[i := t][i + 1..])
  {
    assert ts[i := t][i + 1..] == ts[i + 1..];
    assert ts[i..] == [ts[i]] + ts[i + 1..];
    OperandsAppend([ts[i]], ts[i + 1..]);
  }

  lemma ShuntOutputKindsAndOperands(ts: seq<Token>, pos: nat)
    requires pos <= |ts|
    ensures Shunt(ts, pos).Ok? ==>
      && AllOutputKinds(Shunt(ts, pos).value.output)
      && !HasKind(Shunt(ts, pos).value.output, ClosingBracket)
      && !HasKind(Shunt(ts, pos).value.output, ClosingSquareBracket)
      && Operands(Shunt(ts, pos).value.output) == Operands(ts[pos..])
  {
    ShuntFromKeeps(ts, pos, Start);
    if Shunt(ts, pos).Ok? {
      var out := Shunt(ts, pos).value.output;
      NoClosingBrackets(out);
      assert Operands(Start.output) + Operands(ts[pos..]) == Operands(ts[pos..]);
    }
  }

  lemma NoClosingBrackets(s: seq<Token>)
    requires AllOutputKinds(s)
    ensures !HasKind(s, ClosingBracket) && !HasKind(s, ClosingSquareBracket)
  {
  }

  /** The pass changes the stream's tokens only by setting the call hint of opening
      brackets. */
  predicate OnlyHintsSet(before: seq<Token>, after: seq<Token>) {
    |before| == |after|
    && forall k :: 0 <= k < |before| ==>
         after[k] == before[k]
         || (before[k].tokenType == OpeningBracket && after[k] == before[k].(isFunctionCallHint := true))
  }

  lemma {:induction false} ShuntFromOnlySetsHints(ts: seq<Token>, i: nat, st: ShuntState)
    requires i <= |ts|
    ensures ShuntFrom(ts, i, st).Ok? ==> OnlyHintsSet(ts, ShuntFrom(ts, i, st).value.tokens)
    decreases |ts| - i
  {
    if i < |ts| {
      match ShuntToken(st, ts[i])
      case Err(_) =>
      case Ok((s, t)) =>
        var ts' := ts[i := t];
        ShuntFromOnlySetsHints(ts', i + 1, s);
        if ShuntFrom(ts', i + 1, s).Ok? {
          var after := ShuntFrom(ts', i + 1, s).value.tokens;
          forall k | 0 <= k < |ts|
            ensures after[k] == ts[k]
                    || (ts[k].tokenType == OpeningBracket && after[k] == ts[k].(isFunctionCallHint := true))
          {
            if k == i {
              assert t == ts[i] || (ts[i].tokenType == OpeningBracket && t == ts[i].(isFunctionCallHint := true));
            }
          }
        }
    }
  }

  /** An opening bracket carries a call hint exactly when the last output token is an
      identifier; with nothing output yet the pass fails instead. */
  lemma OpeningBracketHint(st: ShuntState, t: Token)
    requires t.tokenType == OpeningBracket
    ensures |st.output| == 0 <==> ShuntToken(st, t) == Err(EmptyOutputBack)
    ensures |st.output| > 0 ==>
      && ShuntToken(st, t).Ok?
      && (ShuntToken(st, t).value.1.isFunctionCallHint
          <==> t.isFunctionCallHint || Top(st.output).tokenType == Identifier)
      && ShuntToken(st, t).value.0 == st.(stack := st.stack + [ShuntToken(st, t).value.1])
  {
  }

  /** Tokens of any kind that has no case (string constants, commas, ';', keywords)
      leave the state as it is. */
  lemma IgnoredKinds(st: ShuntState, t: Token)
    requires !IsOperand(t.tokenType) && !Stackable(t.tokenType)
    requires t.tokenType != ClosingBracket && t.tokenType != ClosingSquareBracket
    ensures ShuntToken(st, t) == Ok((st, t))
  {
  }

  // ---------------------------------------------------------------------------
  // Worked examples over token kinds

  predicate KindsAre(ts: seq<Token>, kinds: seq<TokenType>) {
    |ts| == |kinds| && forall k :: 0 <= k < |ts| ==> ts[k].tokenType == kinds[k]
  }

  /** 1 + 2 * 3 gives 1 2 3 * +. */
  lemma PlusTimesExample(ts: seq<Token>)
    requires KindsAre(ts, [NumericConst, PlusSign, NumericConst, MultiplySign, NumericConst])
    ensures Shunt(ts, 0) == Ok(ShuntOutcome([ts[0], ts[2], ts[4], ts[3], ts[1]], ts))
  {
    assert ts[0].tokenType == NumericConst && ts[1].tokenType == PlusSign && ts[2].tokenType == NumericConst;
    assert ts[3].tokenType == MultiplySign && ts[4].tokenType == NumericConst;
    InfixHead(ts);
    RightNestingTail(ts);
  }

  /** Reading op2 c when op2 binds more tightly than op1: op2 waits on top of op1, and the
      end drains both. */
  lemma RightNestingTail(ts: seq<Token>)
    requires InfixShape(ts) && Precedence(ts[1].tokenType) < Precedence(ts[3].tokenType)
    ensures ShuntFrom(ts, 3, ShuntState([ts[1]], [ts[0], ts[2]]))
            == Ok(ShuntOutcome([ts[0], ts[2], ts[4], ts[3], ts[1]], ts))
  {
    var s3 := ShuntState([ts[1]], [ts[0], ts[2]]);
    var s4 := ShuntState([ts[1], ts[3]], [ts[0], ts[2]]);
    var s5 := ShuntState([ts[1], ts[3]], [ts[0], ts[2], ts[4]]);
    var o4 := [ts[0], ts[2], ts[4], ts[3]];
    var out := o4 + [ts[1]];
    assert Drain(ShuntState([], out)) == Ok(out);
    assert Drain(ShuntState([ts[1]], o4)) == Ok(out) by {
      assert Pop([ts[1]]) == [];
    }
    assert Drain(s5) == Ok(out) by {
      assert Pop(s5.stack) == [ts[1]];
      assert s5.output + [ts[3]] == o4;
    }
    assert out == [ts[0], ts[2], ts[4], ts[3], ts[1]];
    assert s4.output + [ts[4]] == s5.output;
    ShuntStep(ts, 4, s4, s5);
    assert s3.stack + [ts[3]] == s4.stack;
    ShuntStep(ts, 3, s3, s4);
  }

  /** 1 * 2 + 3 gives 1 2 * 3 +. */
  lemma TimesPlusExample(ts: seq<Token>)
    requires KindsAre(ts, [NumericConst, MultiplySign, NumericConst, PlusSign, NumericConst])
    ensures Shunt(ts, 0) == Ok(ShuntOutcome([ts[0], ts[2], ts[1], ts[4], ts[3]], ts))
  {
    assert ts[0].tokenType == NumericConst && ts[1].tokenType == MultiplySign && ts[2].tokenType == NumericConst;
    assert ts[3].tokenType == PlusSign && ts[4].tokenType == NumericConst;
    LeftAssociating(ts);
  }

  /** 1 - 2 - 3 gives 1 2 - 3 -: subtraction associates to the left. */
  lemma MinusMinusExample(ts: seq<Token>)
    requires KindsAre(ts, [NumericConst, MinusSign, NumericConst, MinusSign, NumericConst])
    ensures Shunt(ts, 0) == Ok(ShuntOutcome([ts[0], ts[2], ts[1], ts[4], ts[3]], ts))
  {
    assert ts[0].tokenType == NumericConst && ts[1].tokenType == MinusSign && ts[2].tokenType == NumericConst;
    assert ts[3].tokenType == MinusSign && ts[4].tokenType == NumericConst;
    LeftAssociating(ts);
  }

  /** a op1 b op2 c, with numbers a, b, c and operators op1, op2. */
  predicate InfixShape(ts: seq<Token>) {
    && |ts| == 5
    && ts[0].tokenType == NumericConst && ts[2].tokenType == NumericConst && ts[4].tokenType == NumericConst
    && IsOperator(ts[1].tokenType) && IsOperator(ts[3].tokenType)
  }

  /** a op1 b op2 c, where op1 binds at least as tightly as op2. */
  predicate LeftAssociatingShape(ts: seq<Token>) {
    InfixShape(ts) && Precedence(ts[1].tokenType) >= Precedence(ts[3].tokenType) >= 0
  }

  /** a op1 b op2 c, where op1 binds at least as tightly as op2, gives a b op1 c op2. */
  lemma LeftAssociating(ts: seq<Token>)
    requires LeftAssociatingShape(ts)
    ensures Shunt(ts, 0) == Ok(ShuntOutcome([ts[0], ts[2], ts[1], ts[4], ts[3]], ts))
  {
    InfixHead(ts);
    LeftAssociatingTail(ts);
  }

  /** Reading a op1 b. */
  lemma InfixHead(ts: seq<Token>)
    requires InfixShape(ts)
    ensures ShuntFrom(ts, 0, Start) == ShuntFrom(ts, 3, ShuntState([ts[1]], [ts[0], ts[2]]))
  {
    var s1 := ShuntState([], [ts[0]]);
    var s2 := ShuntState([ts[1]], [ts[0]]);
    var s3 := ShuntState([ts[1]], [ts[0], ts[2]]);
    assert s2.output + [ts[2]] == s3.output;
    ShuntStep(ts, 2, s2, s3);
    assert s1.stack + [ts[1]] == s2.stack;
    ShuntStep(ts, 1, s1, s2);
    assert Start.output + [ts[0]] == s1.output;
    ShuntStep(ts, 0, Start, s1);
  }

  /** Reading op2 c: op2 first moves op1 to the output; then the end drains op2. */
  lemma LeftAssociatingTail(ts: seq<Token>)
    requires LeftAssociatingShape(ts)
    ensures ShuntFrom(ts, 3, ShuntState([ts[1]], [ts[0], ts[2]]))
            == Ok(ShuntOutcome([ts[0], ts[2], ts[1], ts[4], ts[3]], ts))
  {
    var s3 := ShuntState([ts[1]], [ts[0], ts[2]]);
    var s4 := ShuntState([ts[3]], [ts[0], ts[2], ts[1]]);
    var s5 := ShuntState([ts[3]], [ts[0], ts[2], ts[1], ts[4]]);
    var out := s5.output + [ts[3]];
    assert Drain(ShuntState([], out)) == Ok(out);
    assert Drain(s5) == Ok(out) by {
      assert Pop(s5.stack) == [];
    }
    assert out == [ts[0], ts[2], ts[1], ts[4], ts[3]];
    assert s4.output + [ts[4]] == s5.output;
    ShuntStep(ts, 4, s4, s5);
    var p := Precedence(ts[3].tokenType);
    assert PopOperators(s3, p) == ShuntState([], s4.output) by {
      assert Pop(s3.stack) == [];
      assert s3.output + [ts[1]] == s4.output;
    }
    assert [] + [ts[3]] == s4.stack;
    ShuntStep(ts, 3, s3, s4);
  }

  /** One step of the pass over a token the pass leaves unchanged in the stream. */
  lemma ShuntStep(ts: seq<Token>, i: nat, st: ShuntState, next: ShuntState)
    requires i < |ts| && ShuntToken(st, ts[i]) == Ok((next, ts[i]))
    ensures ShuntFrom(ts, i, st) == ShuntFrom(ts, i + 1, next)
  {
    assert ts[i := ts[i]] == ts;
  }

  /** A closing bracket with no opener on the stack is an error. */
  lemma UnopenedClosingBracket(st: ShuntState, t: Token)
    requires t.tokenType == ClosingBracket || t.tokenType == ClosingSquareBracket
    requires !HasKind(st.stack, if t.tokenType == ClosingBracket then OpeningBracket else OpeningSquareBracket)
    ensures ShuntToken(st, t) == Err(MismatchedParenthesis)
  {
    var opener := if t.tokenType == ClosingBracket then OpeningBracket else OpeningSquareBracket;
    CloseGroupWithoutOpener(st, opener, t.tokenType == ClosingSquareBracket);
  }

  // ---------------------------------------------------------------------------
  // The method

  /** ShuntAlgo: read the stream from its cursor to the end, writing call hints into its
      tokens, and return the output sequence. */
  method ShuntAlgo(source: TokenStream) returns (r: Result<seq<Token>>)
    requires source.Valid()
    modifies source
    ensures
      match Shunt(old(source.data), old(source.position))
      case Err(e) => r == Err(e)
      case Ok(o) => r == Ok(o.output) && source.data == o.tokens && source.position == |source.data|
  {
    var opStack: seq<Token> := [];
    var output: seq<Token> := [];
    ghost var spec := Shunt(source.data, source.position);
    while true
      invariant source.Valid()
      invariant ShuntFrom(source.data, source.position, ShuntState(opStack, output)) == spec
      decreases |source.data| - source.position
    {
      ghost var before := source.data;
      ghost var st := ShuntState(opStack, output);
      var read := source.ReadToken(false);
      assert read.Ok?;
      if read.value.None? {
        break;
      }
      var token := read.value.value;
      ghost var i := source.position - 1;
      if token.tokenType == NumericConst || token.tokenType == Identifier {
        output := output + [token];
      } else if token.tokenType == OpeningBracket {
        if |output| == 0 {
          return Err(EmptyOutputBack);
        }
        if output[|output| - 1].tokenType == Identifier {
          token := token.(isFunctionCallHint := true);
          source.data := source.data[source.position - 1 := token];
        }
        opStack := opStack + [token];
      } else if token.tokenType == OpeningSquareBracket {
        opStack := opStack + [token];
      } else if IsOperator(token.tokenType) {
        var popped := PopLoop(opStack, output, token.tokenType);
        opStack, output := popped.stack + [token], popped.output;
      } else if token.tokenType == ClosingBracket || token.tokenType == ClosingSquareBracket {
        var closed := CloseLoop(opStack, output, token.tokenType);
        if closed.Err? {
          return Err(closed.error);
        }
        opStack, output := closed.value.stack, closed.value.output;
      }
      assert source.data == before[i := token];
      assert ShuntToken(st, before[i]) == Ok((ShuntState(opStack, output), token));
    }
    r := DrainLoop(opStack, output);
  }

  /** The popping loop before an operator of kind t is pushed (lines 245-258 of the
      source): move entries to the output while they bind at least as tightly, stopping
      at a barrier or an empty stack. */
  method PopLoop(stack: seq<Token>, output: seq<Token>, t: TokenType) returns (s: ShuntState)
    ensures s == PopOperators(ShuntState(stack, output), Precedence(t))
  {
    var opStack, out := stack, output;
    if |opStack| != 0 {
      while Precedence(opStack[|opStack| - 1].tokenType) >= Precedence(t)
        invariant |opStack| > 0
        invariant PopOperators(ShuntState(opStack, out), Precedence(t))
               == PopOperators(ShuntState(stack, output), Precedence(t))
        decreases |opStack|
      {
        if Precedence(opStack[|opStack| - 1].tokenType) == -1 {
          break;
        }
        out := out + [opStack[|opStack| - 1]];
        opStack := opStack[..|opStack| - 1];
        if |opStack| == 0 {
          break;
        }
      }
    }
    s := ShuntState(opStack, out);
  }

  /** The loop at a closing bracket of kind closing: move entries to the output until
      the matching opener, which is dropped (a square one is output too, a round one
      only when it carries a call hint). */
  method CloseLoop(stack: seq<Token>, output: seq<Token>, closing: TokenType) returns (r: Result<ShuntState>)
    requires closing == ClosingBracket || closing == ClosingSquareBracket
    ensures r == CloseGroup(ShuntState(stack, output),
                            if closing == ClosingBracket then OpeningBracket else OpeningSquareBracket,
                            closing == ClosingSquareBracket)
  {
    var opener := if closing == ClosingBracket then OpeningBracket else OpeningSquareBracket;
    ghost var always := closing == ClosingSquareBracket;
    var opStack, out := stack, output;
    while true
      invariant CloseGroup(ShuntState(opStack, out), opener, always) == CloseGroup(ShuntState(stack, output), opener, always)
      decreases |opStack|
    {
      if |opStack| == 0 {
        return Err(MismatchedParenthesis);
      }
      var top := opStack[|opStack| - 1];
      if top.tokenType == opener {
        if closing == ClosingSquareBracket || top.isFunctionCallHint {
          out := out + [top];
        }
        opStack := opStack[..|opStack| - 1];
        break;
      }
      out := out + [top];
      opStack := opStack[..|opStack| - 1];
    }
    r := Ok(ShuntState(opStack, out));
  }

  /** The loop after the last token: move the stack to the output; a '(' still on it
      is a mismatch. */
  method DrainLoop(stack: seq<Token>, output: seq<Token>) returns (r: Result<seq<Token>>)
    ensures r == Drain(ShuntState(stack, output))
  {
    var opStack, out := stack, output;
    while |opStack| != 0
      invariant Drain(ShuntState(opStack, out)) == Drain(ShuntState(stack, output))
      decreases |opStack|
    {
      if opStack[|opStack| - 1].tokenType == OpeningBracket {
        return Err(MismatchedParenthesis);
      }
      out := out + [opStack[|opStack| - 1]];
      opStack := opStack[..|opStack| - 1];
    }
    r := Ok(out);
  }
}
