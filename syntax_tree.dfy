/** The syntax tree builder (BSLAbstractSyntaxTree.cpp): BuildAbstractSyntaxTree walks a
    module's tokens, collecting annotations and turning each procedure or function block
    into a subprogram node; the SubprogramTreeNode constructor reads the header and the
    ';'-separated body statements of one block.  The pure functions specify both over
    token sequences; the methods run them over TokenStreams. */
module SyntaxTree {
  import opened Tokens
  import opened Outcomes
  import opened TokenStreams
  import opened Shunting

  /** argumentDescriptor_t. */
  datatype Argument = Argument(name: string, byValue: bool, hasDefaultValue: bool, defaultValue: string)

  datatype SubprogramKind = Procedure | Function

  /** The nodes the builder creates: a module holding its children, and a subprogram
      with its annotations, name, arguments, export flag and body statements. */
  datatype Node =
    | ModuleNode(nodes: seq<Node>)
    | SubprogramNode(kind: SubprogramKind, annotations: seq<string>, name: string,
                     arguments: seq<Argument>, exported: bool, nodes: seq<Node>)

  /** What BuildAbstractSyntaxTree yields: the module node, and the stream's tokens
      afterwards (ShuntAlgo writes call hints into them). */
  datatype Built = Built(node: Node, tokens: seq<Token>)

  // ---------------------------------------------------------------------------
  // Specifications

  /** BuildAbstractSyntaxTree from cursor pos, with the annotations and children
      collected so far. */
  function Build(ts: seq<Token>, pos: nat, annotations: seq<string>, nodes: seq<Node>): (r: Result<Built>)
    requires pos <= |ts|
    ensures r.Ok? ==> r.value.node.ModuleNode?
    decreases |ts|, 1, |ts| - pos, 0
  {
    if pos == |ts| then Ok(Built(ModuleNode(nodes), ts))
    else
      var t := ts[pos];
      if t.tokenType == Annotation then Build(ts, pos + 1, annotations + [t.value], nodes)
      else if t.tokenType == BeginProcedure then
        BuildBlock(ts, pos + 1, BeginProcedure, EndProcedure, Procedure, annotations, nodes)
      else if t.tokenType == EndFunction then
        BuildBlock(ts, pos + 1, BeginFunction, EndFunction, Function, annotations, nodes)
      else if t.tokenType == Identifier then
        match Shunt(ts, 0)
        case Err(e) => Err(e)
        case Ok(o) => Ok(Built(ModuleNode(nodes), o.tokens))
      else Build(ts, pos + 1, annotations, nodes)
  }

  /** A block case of the builder: extract the block, parse it as a subprogram, add it
      as a child and go on after the block. */
  function BuildBlock(ts: seq<Token>, pos: nat, blockStart: TokenType, blockEnd: TokenType, kind: SubprogramKind,
                      annotations: seq<string>, nodes: seq<Node>): (r: Result<Built>)
    requires 0 < pos <= |ts|
    ensures r.Ok? ==> r.value.node.ModuleNode?
    decreases |ts|, 1, |ts| - pos, 1
  {
    match Substream(ts, pos, blockStart, blockEnd)
    case Err(e) => Err(e)
    case Ok((sub, next)) =>
      match Subprogram(sub, 0, kind, annotations)
      case Err(e) => Err(e)
      case Ok(n) => Build(ts, next, annotations, nodes + [n])
  }

  /** The SubprogramTreeNode constructor on a stream whose cursor is at pos: the name,
      which must be followed by '(', then the rest. */
  function Subprogram(ts: seq<Token>, pos: nat, kind: SubprogramKind, annotations: seq<string>): Result<Node>
    requires pos <= |ts|
    decreases |ts|, 4, 0, 0
  {
    if pos == |ts| then Err(UnexpectedEndOfTokenStream)
    else if pos + 1 == |ts| then Err(UnexpectedEndOfTokenStream)
    else if ts[pos + 1].tokenType != OpeningBracket then Err(UnexpectedToken(OpeningBracket, ts[pos + 1].tokenType))
    else SubprogramRest(ts, pos + 2, kind, annotations, ts[pos].value)
  }

  /** The constructor after the '(': the parameter list, then the export mark (the
      token after the list, which must exist and is not consumed), then the body. */
  function SubprogramRest(ts: seq<Token>, pos: nat, kind: SubprogramKind, annotations: seq<string>, name: string)
    : Result<Node>
    requires 0 < pos <= |ts|
    decreases |ts|, 3, 0, 0
  {
    match Params(ts, pos, [])
    case Err(e) => Err(e)
    case Ok((args, next)) =>
      if next == |ts| then Err(UnexpectedEndOfTokenStream)
      else
        match Statements(ts, next, [])
        case Err(e) => Err(e)
        case Ok(body) =>
          Ok(SubprogramNode(kind, annotations, name, args, ts[next].tokenType == ExportKeyword, body))
  }

  /** The body loop: each statement, up to its ';', is built as a module of its own. */
  function Statements(ts: seq<Token>, pos: nat, nodes: seq<Node>): Result<seq<Node>>
    requires 0 < pos <= |ts|
    decreases |ts|, 2, |ts| - pos, 0
  {
    match ExpressionSubstream(ts, pos)
    case None => Ok(nodes)
    case Some((stmt, next)) =>
      match Build(stmt, 0, [], [])
      case Err(e) => Err(e)
      case Ok(b) => Statements(ts, next, nodes + [b.node])
  }

  /** The parameter loop from cursor pos with the descriptors recorded so far, giving
      the descriptors and the cursor after the ')' that ends the loop. */
  function Params(ts: seq<Token>, pos: nat, args: seq<Argument>): (r: Result<(seq<Argument>, nat)>)
    requires pos <= |ts|
    ensures r.Ok? ==>
      && pos < r.value.1 <= |ts| && ts[r.value.1 - 1].tokenType == ClosingBracket
      && args <= r.value.0
    ensures r.Err? ==> r.error == UnexpectedEndOfTokenStream
    decreases |ts| - pos
  {
    if pos == |ts| then Err(UnexpectedEndOfTokenStream)
    else if ts[pos].tokenType == ClosingBracket then Ok((args, pos + 1))
    else
      var step := Descriptor(ts, pos);
      if step.Err? then Err(step.error)
      else Params(ts, step.value.1, Record(args, step.value.0))
  }

  lemma ParamsStep(ts: seq<Token>, pos: nat, args: seq<Argument>)
    requires pos < |ts| && ts[pos].tokenType != ClosingBracket
    ensures Descriptor(ts, pos).Err? ==> Params(ts, pos, args) == Err(Descriptor(ts, pos).error)
    ensures Descriptor(ts, pos).Ok? ==>
      Params(ts, pos, args) == Params(ts, Descriptor(ts, pos).value.1, Record(args, Descriptor(ts, pos).value.0))
  {
  }

  /** The descriptors after a pass that produced d. */
  function Record(args: seq<Argument>, d: Option<Argument>): (r: seq<Argument>)
    ensures args <= r
  {
    if d.Some? then args + [d.value] else args
  }

  /** One pass of the parameter loop, from a token that is not ')': an optional Val,
      the name, and the token after it.  ')' or ',' there records a descriptor without
      a default, '=' one whose default is the next token's text, and any other token
      records nothing. */
  function Descriptor(ts: seq<Token>, pos: nat): (r: Result<(Option<Argument>, nat)>)
    requires pos < |ts| && ts[pos].tokenType != ClosingBracket
    ensures r.Ok? ==> pos + 2 <= r.value.1 <= |ts|
    ensures r.Err? ==> r.error == UnexpectedEndOfTokenStream
    ensures var namePos := if ts[pos].tokenType == KeywordVal then pos + 1 else pos;
      r.Ok? && r.value.0.Some? ==>
      && r.value.1 == namePos + (if r.value.0.value.hasDefaultValue then 3 else 2) && r.value.1 <= |ts|
      && r.value.0.value.byValue == (ts[pos].tokenType == KeywordVal)
      && r.value.0.value.name == ts[namePos].value
      && (r.value.0.value.hasDefaultValue <==> ts[namePos + 1].tokenType == EqualsSign)
      && (r.value.0.value.hasDefaultValue ==> r.value.0.value.defaultValue == ts[namePos + 2].value)
    ensures var namePos := if ts[pos].tokenType == KeywordVal then pos + 1 else pos;
      (namePos + 1 < |ts|
       && ts[namePos + 1].tokenType != ClosingBracket && ts[namePos + 1].tokenType != Comma
       && ts[namePos + 1].tokenType != EqualsSign)
      <==> r.Ok? && r.value.0.None?
  {
    var byValue := ts[pos].tokenType == KeywordVal;
    var namePos := if byValue then pos + 1 else pos;
    if namePos + 1 >= |ts| then Err(UnexpectedEndOfTokenStream)
    else
      var name := ts[namePos].value;
      var follower := ts[namePos + 1].tokenType;
      if follower == ClosingBracket || follower == Comma then
        Ok((Some(Argument(name, byValue, false, "")), namePos + 2))
      else if follower == EqualsSign then
        if namePos + 2 == |ts| then Err(UnexpectedEndOfTokenStream)
        else Ok((Some(Argument(name, byValue, true, ts[namePos + 2].value)), namePos + 3))
      else Ok((None, namePos + 2))
  }

  // ---------------------------------------------------------------------------
  // What the builder keeps

  /** A node's annotations; a module has none. */
  function AnnotationsOf(n: Node): seq<string> {
    if n.SubprogramNode? then n.annotations else []
  }

  /** Children that are all subprograms, each with a prefix of the next one's
      annotations. */
  predicate Chained(children: seq<Node>) {
    && (forall i :: 0 <= i < |children| ==> children[i].SubprogramNode?)
    && (forall i, j :: 0 <= i < j < |children| ==> AnnotationsOf(children[i]) <= AnnotationsOf(children[j]))
  }

  /** The collected annotations are not reset after a subprogram: each child receives
      every annotation collected so far, so the children's annotation lists grow. */
  predicate ChainedUpTo(children: seq<Node>, annotations: seq<string>) {
    Chained(children) && forall i :: 0 <= i < |children| ==> AnnotationsOf(children[i]) <= annotations
  }

  /** The builder yields a module whose children, after those collected before, are
      subprograms that received every annotation collected before them. */
  lemma {:induction false} BuildKeepsChain(ts: seq<Token>, pos: nat, annotations: seq<string>, nodes: seq<Node>)
    requires pos <= |ts| && ChainedUpTo(nodes, annotations)
    ensures Build(ts, pos, annotations, nodes).Ok? ==>
      var m := Build(ts, pos, annotations, nodes).value.node;
      && m.ModuleNode? && nodes <= m.nodes && Chained(m.nodes)
      && forall i :: |nodes| <= i < |m.nodes| ==> annotations <= AnnotationsOf(m.nodes[i])
    decreases |ts|, 1, |ts| - pos, 0
  {
    if pos < |ts| {
      var t := ts[pos];
      if t.tokenType == Annotation {
        var more := annotations + [t.value];
        forall i | 0 <= i < |nodes| ensures AnnotationsOf(nodes[i]) <= more {
          PrefixExtend(AnnotationsOf(nodes[i]), annotations, t.value);
        }
        BuildKeepsChain(ts, pos + 1, more, nodes);
        PrefixesFrom(ts, pos + 1, more, nodes, annotations);
      } else if t.tokenType == BeginProcedure {
        BuildBlockKeepsChain(ts, pos + 1, BeginProcedure, EndProcedure, Procedure, annotations, nodes);
      } else if t.tokenType == EndFunction {
        BuildBlockKeepsChain(ts, pos + 1, BeginFunction, EndFunction, Function, annotations, nodes);
      } else if t.tokenType != Identifier {
        BuildKeepsChain(ts, pos + 1, annotations, nodes);
      }
    }
  }

  lemma PrefixExtend(a: seq<string>, b: seq<string>, x: string)
    requires a <= b
    ensures a <= b + [x]
  {
    assert (b + [x])[..|a|] == b[..|a|];
  }

  /** The annotation part of BuildKeepsChain after an annotation token. */
  lemma PrefixesFrom(ts: seq<Token>, pos: nat, more: seq<string>, nodes: seq<Node>, annotations: seq<string>)
    requires pos <= |ts| && annotations <= more
    requires Build(ts, pos, more, nodes).Ok? ==>
      var m := Build(ts, pos, more, nodes).value.node;
      m.ModuleNode? && forall i :: |nodes| <= i < |m.nodes| ==> more <= AnnotationsOf(m.nodes[i])
    ensures Build(ts, pos, more, nodes).Ok? ==>
      var m := Build(ts, pos, more, nodes).value.node;
      forall i :: |nodes| <= i < |m.nodes| ==> annotations <= AnnotationsOf(m.nodes[i])
  {
  }

  lemma {:induction false} BuildBlockKeepsChain(ts: seq<Token>, pos: nat, blockStart: TokenType, blockEnd: TokenType,
                                                kind: SubprogramKind, annotations: seq<string>, nodes: seq<Node>)
    requires 0 < pos <= |ts| && ChainedUpTo(nodes, annotations)
    ensures BuildBlock(ts, pos, blockStart, blockEnd, kind, annotations, nodes).Ok? ==>
      var m := BuildBlock(ts, pos, blockStart, blockEnd, kind, annotations, nodes).value.node;
      && m.ModuleNode? && nodes <= m.nodes && Chained(m.nodes)
      && forall i :: |nodes| <= i < |m.nodes| ==> annotations <= AnnotationsOf(m.nodes[i])
    decreases |ts|, 1, |ts| - pos, 1
  {
    var block := Substream(ts, pos, blockStart, blockEnd);
    if block.Ok? {
      var sub := block.value.0;
      var next := block.value.1;
      var parsed := Subprogram(sub, 0, kind, annotations);
      if parsed.Ok? {
        var n := parsed.value;
        var grown := nodes + [n];
        assert BuildBlock(ts, pos, blockStart, blockEnd, kind, annotations, nodes) == Build(ts, next, annotations, grown);
        SubprogramShape(sub, 0, kind, annotations);
        ChainAppend(nodes, annotations, n);
        BuildKeepsChain(ts, next, annotations, grown);
        if Build(ts, next, annotations, grown).Ok? {
          GrownPrefix(nodes, n, Build(ts, next, annotations, grown).value.node.nodes, annotations);
        }
      }
    }
  }

  lemma GrownPrefix(nodes: seq<Node>, n: Node, all: seq<Node>, annotations: seq<string>)
    requires nodes + [n] <= all && AnnotationsOf(n) == annotations
    requires forall i :: |nodes| + 1 <= i < |all| ==> annotations <= AnnotationsOf(all[i])
    ensures nodes <= all
    ensures forall i :: |nodes| <= i < |all| ==> annotations <= AnnotationsOf(all[i])
  {
    assert all[|nodes|] == n;
  }

  lemma ChainAppend(nodes: seq<Node>, annotations: seq<string>, n: Node)
    requires ChainedUpTo(nodes, annotations) && n.SubprogramNode? && n.annotations == annotations
    ensures ChainedUpTo(nodes + [n], annotations)
  {
    assert forall i :: 0 <= i < |nodes| ==> (nodes + [n])[i] == nodes[i];
  }

  /** The top-level children of a module are subprograms, and each one's annotations
      extend those of the one before. */
  lemma ModuleChildren(ts: seq<Token>)
    ensures Build(ts, 0, [], []).Ok? ==>
      var m := Build(ts, 0, [], []).value.node;
      m.ModuleNode? && Chained(m.nodes)
  {
    BuildKeepsChain(ts, 0, [], []);
  }

  /** A subprogram node of the given kind, annotations and name whose body statements
      are all modules. */
  predicate SubprogramFor(n: Node, kind: SubprogramKind, annotations: seq<string>, name: string) {
    && n.SubprogramNode? && n.kind == kind && n.annotations == annotations && n.name == name
    && forall i :: 0 <= i < |n.nodes| ==> n.nodes[i].ModuleNode?
  }

  /** n's arguments are those of the parameter list at pos; n is exported exactly when
      the token after the list is Export, and then it has at least one body statement,
      since that token is not consumed and starts the first statement. */
  predicate SignatureAt(ts: seq<Token>, pos: nat, n: Node)
    requires pos <= |ts| && n.SubprogramNode?
  {
    && Params(ts, pos, []).Ok?
    && var next := Params(ts, pos, []).value.1;
    && next < |ts| && n.arguments == Params(ts, pos, []).value.0
    && (n.exported <==> ts[next].tokenType == ExportKeyword)
    && (n.exported ==> |n.nodes| > 0)
  }

  /** A parsed subprogram carries the kind and annotations it was given and its first
      token's text as its name, and that token is followed by '('. */
  lemma SubprogramShape(ts: seq<Token>, pos: nat, kind: SubprogramKind, annotations: seq<string>)
    requires pos <= |ts|
    ensures Subprogram(ts, pos, kind, annotations).Ok? ==>
      && pos + 1 < |ts| && ts[pos + 1].tokenType == OpeningBracket
      && SubprogramFor(Subprogram(ts, pos, kind, annotations).value, kind, annotations, ts[pos].value)
      && SignatureAt(ts, pos + 2, Subprogram(ts, pos, kind, annotations).value)
    ensures pos + 1 >= |ts| ==> Subprogram(ts, pos, kind, annotations) == Err(UnexpectedEndOfTokenStream)
    ensures pos + 1 < |ts| && ts[pos + 1].tokenType != OpeningBracket ==>
      Subprogram(ts, pos, kind, annotations) == Err(UnexpectedToken(OpeningBracket, ts[pos + 1].tokenType))
  {
    if pos + 1 < |ts| && ts[pos + 1].tokenType == OpeningBracket {
      assert Subprogram(ts, pos, kind, annotations) == SubprogramRest(ts, pos + 2, kind, annotations, ts[pos].value);
      SubprogramRestShape(ts, pos + 2, kind, annotations, ts[pos].value);
    }
  }

  /** After the '(': the parameter list, the export mark and the body. */
  lemma SubprogramRestShape(ts: seq<Token>, pos: nat, kind: SubprogramKind, annotations: seq<string>, name: string)
    requires 0 < pos <= |ts|
    ensures SubprogramRest(ts, pos, kind, annotations, name).Ok? ==>
      && SubprogramFor(SubprogramRest(ts, pos, kind, annotations, name).value, kind, annotations, name)
      && SignatureAt(ts, pos, SubprogramRest(ts, pos, kind, annotations, name).value)
  {
    var params := Params(ts, pos, []);
    if params.Ok? && params.value.1 < |ts| {
      var next := params.value.1;
      StatementsAreModules(ts, next, []);
      if ts[next].tokenType == ExportKeyword {
        StatementsFirst(ts, next);
      }
    }
  }

  lemma {:induction false} StatementsAreModules(ts: seq<Token>, pos: nat, nodes: seq<Node>)
    requires 0 < pos <= |ts|
    ensures Statements(ts, pos, nodes).Ok? ==>
      var r := Statements(ts, pos, nodes).value;
      && nodes <= r
      && (forall i :: |nodes| <= i < |r| ==> r[i].ModuleNode?)
      && (pos < |ts| ==> |nodes| < |r|)
    decreases |ts| - pos
  {
    var statement := ExpressionSubstream(ts, pos);
    if statement.Some? {
      var next := statement.value.1;
      var built := Build(statement.value.0, 0, [], []);
      if built.Ok? {
        var grown := nodes + [built.value.node];
        assert Statements(ts, pos, nodes) == Statements(ts, next, grown);
        StatementsAreModules(ts, next, grown);
        if Statements(ts, next, grown).Ok? {
          var r := Statements(ts, next, grown).value;
          assert nodes <= grown <= r;
          assert r[|nodes|] == built.value.node;
        }
      }
    }
  }

  /** Statements from a cursor that is not at the end yield at least one statement. */
  lemma StatementsFirst(ts: seq<Token>, pos: nat)
    requires 0 < pos < |ts|
    ensures Statements(ts, pos, []).Ok? ==> |Statements(ts, pos, []).value| > 0
  {
    StatementsAreModules(ts, pos, []);
  }

  // ---------------------------------------------------------------------------
  // One token of the builder

  lemma BuildAnnotationStep(ts: seq<Token>, pos: nat, annotations: seq<string>, nodes: seq<Node>)
    requires pos < |ts| && ts[pos].tokenType == Annotation
    ensures Build(ts, pos, annotations, nodes) == Build(ts, pos + 1, annotations + [ts[pos].value], nodes)
  {
  }

  lemma BuildSkipStep(ts: seq<Token>, pos: nat, annotations: seq<string>, nodes: seq<Node>)
    requires pos < |ts|
    requires ts[pos].tokenType !in {Annotation, BeginProcedure, EndFunction, Identifier}
    ensures Build(ts, pos, annotations, nodes) == Build(ts, pos + 1, annotations, nodes)
  {
  }

  /** A block token: on success the builder goes on after the block with the new child. */
  lemma BuildBlockStep(ts: seq<Token>, pos: nat, annotations: seq<string>, nodes: seq<Node>)
    requires pos < |ts| && ts[pos].tokenType in {BeginProcedure, EndFunction}
    ensures
      var procedure := ts[pos].tokenType == BeginProcedure;
      var blockStart := if procedure then BeginProcedure else BeginFunction;
      var blockEnd := if procedure then EndProcedure else EndFunction;
      var kind := if procedure then Procedure else Function;
      match Substream(ts, pos + 1, blockStart, blockEnd)
      case Err(e) => Build(ts, pos, annotations, nodes) == Err(e)
      case Ok((sub, next)) =>
        match Subprogram(sub, 0, kind, annotations)
        case Err(e) => Build(ts, pos, annotations, nodes) == Err(e)
        case Ok(n) => Build(ts, pos, annotations, nodes) == Build(ts, next, annotations, nodes + [n])
  {
  }

  /** An identifier: the builder's result is the pass's, from the stream's start; on
      success it is what the builder yields at the end of the rewritten tokens. */
  lemma BuildShuntStep(ts: seq<Token>, pos: nat, annotations: seq<string>, nodes: seq<Node>)
    requires pos < |ts| && ts[pos].tokenType == Identifier
    ensures Shunt(ts, 0).Err? ==> Build(ts, pos, annotations, nodes) == Err(Shunt(ts, 0).error)
    ensures Shunt(ts, 0).Ok? ==>
      |Shunt(ts, 0).value.tokens| == |ts|
      && Build(ts, pos, annotations, nodes)
         == Build(Shunt(ts, 0).value.tokens, |Shunt(ts, 0).value.tokens|, annotations, nodes)
  {
    ShuntFromOnlySetsHints(ts, 0, Start);
  }

  // ---------------------------------------------------------------------------
  // Worked examples over token kinds

  /** Процедура Тест() КонецПроцедуры aborts: with no token after the parameter list
      the export check finds the stream exhausted. */
  lemma EmptyProcedureAborts(ts: seq<Token>)
    requires KindsAre(ts, [BeginProcedure, Identifier, OpeningBracket, ClosingBracket, EndProcedure])
    ensures Build(ts, 0, [], []) == Err(UnexpectedEndOfTokenStream)
  {
    assert ts[0].tokenType == BeginProcedure && ts[1].tokenType == Identifier;
    assert ts[2].tokenType == OpeningBracket && ts[3].tokenType == ClosingBracket;
    assert ts[4].tokenType == EndProcedure;
    var sub := ts[1..4];
    BlockEndPlain(ts, 1, 4, BeginProcedure, EndProcedure);
    assert sub[1] == ts[2] && sub[2] == ts[3];
    assert Substream(ts, 1, BeginProcedure, EndProcedure) == Ok((sub, 5));
    assert Params(sub, 2, []) == Ok(([], 3));
    assert Subprogram(sub, 0, Procedure, []) == SubprogramRest(sub, 2, Procedure, [], sub[0].value);
    assert Params(sub, 2, []) == Ok(([], 3));
    BuildBlockStep(ts, 0, [], []);
  }

  /** &НаКлиенте Процедура Тест() Экспорт ; КонецПроцедуры gives one exported procedure
      with that annotation and no arguments.  The Export token is not consumed: it forms
      the first body statement, which builds to an empty module. */
  lemma ExportedProcedureExample(ts: seq<Token>)
    requires KindsAre(ts, [Annotation, BeginProcedure, Identifier, OpeningBracket, ClosingBracket,
                           ExportKeyword, EndExpression, EndProcedure])
    ensures Build(ts, 0, [], [])
            == Ok(Built(ModuleNode([SubprogramNode(Procedure, [ts[0].value], ts[2].value, [], true,
                                                   [ModuleNode([])])]), ts))
  {
    assert ts[0].tokenType == Annotation && ts[1].tokenType == BeginProcedure;
    assert ts[2].tokenType == Identifier && ts[3].tokenType == OpeningBracket;
    assert ts[4].tokenType == ClosingBracket && ts[5].tokenType == ExportKeyword;
    assert ts[6].tokenType == EndExpression && ts[7].tokenType == EndProcedure;
    var annotations := [ts[0].value];
    BuildAnnotationStep(ts, 0, [], []);
    assert [] + [ts[0].value] == annotations;
    assert Build(ts, 0, [], []) == Build(ts, 1, annotations, []);
    var sub := ts[2..7];
    BlockEndPlain(ts, 2, 7, BeginProcedure, EndProcedure);
    assert sub[1] == ts[3] && sub[2] == ts[4] && sub[3] == ts[5] && sub[4] == ts[6];
    assert Params(sub, 2, []) == Ok(([], 3));
    ExportOnlyBody(sub);
    var n := SubprogramNode(Procedure, annotations, ts[2].value, [], true, [ModuleNode([])]);
    assert Subprogram(sub, 0, Procedure, annotations) == Ok(n);
    assert Substream(ts, 2, BeginProcedure, EndProcedure) == Ok((sub, 8));
    BuildBlockStep(ts, 1, annotations, []);
    assert [] + [n] == [n];
    assert Build(ts, 8, annotations, [n]) == Ok(Built(ModuleNode([n]), ts));
    assert Build(ts, 1, annotations, []) == Build(ts, 8, annotations, [n]);
  }

  /** Функция F() КонецФункции adds no child: the function branch is keyed on the
      end keyword, so the start keyword is skipped, and the name, an identifier, hands
      the whole stream to the expression pass, which marks the '(' as a call and
      outputs F (. */
  lemma FunctionDeclarationExample(ts: seq<Token>)
    requires KindsAre(ts, [BeginFunction, Identifier, OpeningBracket, ClosingBracket, EndFunction])
    ensures
      var hinted := ts[2 := ts[2].(isFunctionCallHint := true)];
      && Shunt(ts, 0) == Ok(ShuntOutcome([ts[1], hinted[2]], hinted))
      && Build(ts, 0, [], []) == Ok(Built(ModuleNode([]), hinted))
  {
    assert ts[0].tokenType == BeginFunction && ts[1].tokenType == Identifier;
    FunctionDeclarationShunt(ts);
    BuildSkipStep(ts, 0, [], []);
  }

  /** The expression pass over Функция F() КонецФункции. */
  lemma FunctionDeclarationShunt(ts: seq<Token>)
    requires KindsAre(ts, [BeginFunction, Identifier, OpeningBracket, ClosingBracket, EndFunction])
    ensures
      var hinted := ts[2 := ts[2].(isFunctionCallHint := true)];
      Shunt(ts, 0) == Ok(ShuntOutcome([ts[1], hinted[2]], hinted))
  {
    assert ts[0].tokenType == BeginFunction && ts[1].tokenType == Identifier;
    assert ts[2].tokenType == OpeningBracket;
    var h := ts[2].(isFunctionCallHint := true);
    var s1 := ShuntState([], [ts[1]]);
    var s2 := ShuntState([h], [ts[1]]);
    assert Top(s1.output) == ts[1] && s1.stack + [h] == s2.stack;
    assert ShuntToken(s1, ts[2]) == Ok((s2, h));
    assert ShuntFrom(ts, 2, s1) == ShuntFrom(ts[2 := h], 3, s2);
    FunctionDeclarationTail(ts[2 := h], h, ts[1]);
    assert Start.output + [ts[1]] == s1.output;
    ShuntStep(ts, 1, Start, s1);
    ShuntStep(ts, 0, Start, Start);
  }

  /** After the hinted '(' of F(: ')' emits it, and the end keyword is ignored. */
  lemma FunctionDeclarationTail(ts: seq<Token>, h: Token, name: Token)
    requires |ts| == 5 && ts[3].tokenType == ClosingBracket && ts[4].tokenType == EndFunction
    requires h.tokenType == OpeningBracket && h.isFunctionCallHint
    ensures ShuntFrom(ts, 3, ShuntState([h], [name])) == Ok(ShuntOutcome([name, h], ts))
  {
    var s2 := ShuntState([h], [name]);
    var s3 := ShuntState([], [name, h]);
    assert Drain(s3) == Ok([name, h]);
    ShuntStep(ts, 4, s3, s3);
    assert Top(s2.stack) == h && Pop(s2.stack) == [] && s2.output + [h] == s3.output;
    assert CloseGroup(s2, OpeningBracket, false) == Ok(s3);
    ShuntStep(ts, 3, s2, s3);
  }

  /** A body made of the Export mark and ';' is one statement, an empty module. */
  lemma ExportOnlyBody(sub: seq<Token>)
    requires |sub| == 5 && sub[3].tokenType == ExportKeyword && sub[4].tokenType == EndExpression
    ensures Statements(sub, 3, []) == Ok([ModuleNode([])])
  {
    var statement := sub[3..4];
    assert StatementEnd(sub, 3) == 4;
    assert statement[0] == sub[3];
    BuildSkipStep(statement, 0, [], []);
    assert Build(statement, 0, [], []) == Ok(Built(ModuleNode([]), statement));
    assert ExpressionSubstream(sub, 3) == Some((statement, 5));
    assert [] + [ModuleNode([])] == [ModuleNode([])];
    assert Statements(sub, 5, [ModuleNode([])]) == Ok([ModuleNode([])]);
  }

  /** The scan for a block end meets no start or end token before position k, where an
      end token closes the block. */
  lemma {:induction false} BlockEndPlain(ts: seq<Token>, i: nat, k: nat, blockStart: TokenType, blockEnd: TokenType)
    requires i <= k < |ts| && ts[k].tokenType == blockEnd && blockEnd != blockStart
    requires forall j :: i <= j < k ==> ts[j].tokenType != blockStart && ts[j].tokenType != blockEnd
    ensures BlockEnd(ts, i, blockStart, blockEnd, 0) == Some(k)
    decreases k - i
  {
    if i < k {
      BlockEndPlain(ts, i + 1, k, blockStart, blockEnd);
    }
  }

  /** a, Val b, c = 1) gives a, b passed by value, and c with default 1, and ends
      after the ')'. */
  lemma ParamsExample(ts: seq<Token>)
    requires KindsAre(ts, [Identifier, Comma, KeywordVal, Identifier, Comma, Identifier, EqualsSign,
                           NumericConst, ClosingBracket])
    ensures Params(ts, 0, [])
            == Ok(([Argument(ts[0].value, false, false, ""), Argument(ts[3].value, true, false, ""),
                    Argument(ts[5].value, false, true, ts[7].value)], 9))
  {
    assert ts[0].tokenType == Identifier && ts[1].tokenType == Comma && ts[2].tokenType == KeywordVal;
    assert ts[3].tokenType == Identifier && ts[4].tokenType == Comma && ts[5].tokenType == Identifier;
    assert ts[6].tokenType == EqualsSign && ts[7].tokenType == NumericConst;
    assert ts[8].tokenType == ClosingBracket;
    var a := Argument(ts[0].value, false, false, "");
    var b := Argument(ts[3].value, true, false, "");
    var c := Argument(ts[5].value, false, true, ts[7].value);
    assert Params(ts, 8, [a, b, c]) == Ok(([a, b, c], 9));
    assert Descriptor(ts, 5) == Ok((Some(c), 8));
    assert Descriptor(ts, 2) == Ok((Some(b), 5));
    assert Descriptor(ts, 0) == Ok((Some(a), 2));
    assert Record([a, b], Some(c)) == [a, b, c];
    assert Record([a], Some(b)) == [a, b];
    assert Record([], Some(a)) == [a];
    ParamsStep(ts, 5, [a, b]);
    ParamsStep(ts, 2, [a]);
    ParamsStep(ts, 0, []);
  }

  /** A follower that is none of ')', ',' and '=' drops the descriptor and the loop goes
      on: in a b) the name a is lost, and the ')' after b ends the list. */
  lemma DroppedFollower(ts: seq<Token>)
    requires KindsAre(ts, [Identifier, Identifier, ClosingBracket])
    ensures Params(ts, 0, []) == Ok(([], 3))
  {
    assert ts[0].tokenType == Identifier && ts[1].tokenType == Identifier && ts[2].tokenType == ClosingBracket;
    assert Descriptor(ts, 0) == Ok((None, 2));
    ParamsStep(ts, 0, []);
  }

  /** A ')' right after a name is that descriptor's follower, not the end of the list:
      the loop goes on reading, so a list a) that ends the stream fails. */
  lemma LoneParameterFails(ts: seq<Token>)
    requires KindsAre(ts, [Identifier, ClosingBracket])
    ensures Params(ts, 0, []) == Err(UnexpectedEndOfTokenStream)
  {
    assert ts[0].tokenType == Identifier && ts[1].tokenType == ClosingBracket;
    ParamsStep(ts, 0, []);
  }

  // ---------------------------------------------------------------------------
  // The builder over token streams

  /** BuildAbstractSyntaxTree: read the stream to its end, collecting annotations,
      parsing each procedure or function block into a subprogram child and handing an
      expression statement to ShuntAlgo. */
  method BuildAbstractSyntaxTree(source: TokenStream) returns (r: Result<Node>)
    requires source.Valid()
    modifies source
    ensures Build(old(source.data), old(source.position), [], []).Err? ==>
      r == Err(Build(old(source.data), old(source.position), [], []).error)
    ensures Build(old(source.data), old(source.position), [], []).Ok? ==>
      && r == Ok(Build(old(source.data), old(source.position), [], []).value.node)
      && source.data == Build(old(source.data), old(source.position), [], []).value.tokens
      && source.position == |source.data|
    decreases |source.data|, 2
  {
    ghost var length := |source.data|;
    ghost var spec := Build(source.data, source.position, [], []);
    var annotations: seq<string> := [];
    var nodes: seq<Node> := [];
    while true
      invariant source.Valid() && |source.data| == length
      invariant Build(source.data, source.position, annotations, nodes) == spec
      decreases |source.data| - source.position
    {
      var read := source.ReadToken(false);
      assert read.Ok?;
      if read.value.None? {
        break;
      }
      var step := TokenCase(source, read.value.value, annotations, nodes);
      if step.Err? {
        return Err(step.error);
      }
      annotations, nodes := step.value.0, step.value.1;
    }
    assert spec == Ok(Built(ModuleNode(nodes), source.data));
    r := Ok(ModuleNode(nodes));
  }

  /** The switch in the loop of BuildAbstractSyntaxTree, for the token just read: the
      annotations and children afterwards, with the cursor where the builder reads on. */
  method TokenCase(source: TokenStream, token: Token, annotations: seq<string>, nodes: seq<Node>)
    returns (r: Result<(seq<string>, seq<Node>)>)
    requires source.Valid() && 0 < source.position && source.data[source.position - 1] == token
    modifies source
    ensures r.Err? ==> Build(old(source.data), old(source.position) - 1, annotations, nodes) == Err(r.error)
    ensures r.Ok? ==>
      && source.Valid() && |source.data| == |old(source.data)| && old(source.position) <= source.position
      && Build(source.data, source.position, r.value.0, r.value.1)
         == Build(old(source.data), old(source.position) - 1, annotations, nodes)
    decreases |source.data|, 1
  {
    ghost var at := source.position - 1;
    if token.tokenType == Annotation {
      BuildAnnotationStep(source.data, at, annotations, nodes);
      r := Ok((annotations + [token.value], nodes));
    } else if token.tokenType == BeginProcedure || token.tokenType == EndFunction {
      var kind := if token.tokenType == BeginProcedure then Procedure else Function;
      var blockStart := if token.tokenType == BeginProcedure then BeginProcedure else BeginFunction;
      var blockEnd := if token.tokenType == BeginProcedure then EndProcedure else EndFunction;
      BuildBlockStep(source.data, at, annotations, nodes);
      var node := ReadSubprogram(source, blockStart, blockEnd, kind, annotations);
      if node.Err? {
        return Err(node.error);
      }
      r := Ok((annotations, nodes + [node.value]));
    } else if token.tokenType == Identifier {
      ghost var before := source.data;
      BuildShuntStep(before, at, annotations, nodes);
      source.Reset();
      var output := ShuntAlgo(source);
      if output.Err? {
        return Err(output.error);
      }
      r := Ok((annotations, nodes));
    } else {
      BuildSkipStep(source.data, at, annotations, nodes);
      r := Ok((annotations, nodes));
    }
  }

  /** One block case of BuildAbstractSyntaxTree: extract the block's tokens and parse
      them as a subprogram of the given kind; the cursor ends after the block. */
  method ReadSubprogram(source: TokenStream, blockStart: TokenType, blockEnd: TokenType, kind: SubprogramKind,
                        annotations: seq<string>) returns (r: Result<Node>)
    requires source.Valid()
    modifies source
    ensures source.Valid() && source.data == old(source.data)
    ensures
      match Substream(source.data, old(source.position), blockStart, blockEnd)
      case Err(e) => r == Err(e)
      case Ok((sub, next)) => r == Subprogram(sub, 0, kind, annotations) && source.position == next
    decreases |source.data|, 0
  {
    var extracted := source.ExtractSubstream(blockStart, blockEnd);
    if extracted.Err? {
      return Err(extracted.error);
    }
    r := SubprogramTreeNode(extracted.value, kind, annotations);
  }

  /** The SubprogramTreeNode constructor: the name, the '(' and the parameter list,
      the export mark, and then each ';'-separated statement of the body built as a
      module of its own. */
  method SubprogramTreeNode(stream: TokenStream, kind: SubprogramKind, annotations: seq<string>) returns (r: Result<Node>)
    requires stream.Valid()
    modifies stream
    ensures stream.Valid() && stream.data == old(stream.data)
    ensures r == Subprogram(old(stream.data), old(stream.position), kind, annotations)
    decreases |stream.data|, 5
  {
    var copied: seq<string> := [];
    for i := 0 to |annotations|
      invariant copied == annotations[..i]
    {
      copied := copied + [annotations[i]];
    }
    ghost var ts := stream.data;
    ghost var pos := stream.position;
    ghost var spec := Subprogram(ts, pos, kind, annotations);
    var programName := stream.ReadToken(true);
    if programName.Err? {
      assert spec == Err(UnexpectedEndOfTokenStream);
      return Err(programName.error);
    }
    var opening := stream.CheckToken(OpeningBracket);
    if opening.Err? {
      assert pos + 1 == |ts| ==> spec == Err(UnexpectedEndOfTokenStream);
      assert pos + 1 < |ts| ==> spec == Err(UnexpectedToken(OpeningBracket, ts[pos + 1].tokenType));
      return Err(opening.error);
    }
    var name := programName.value.value.value;
    assert stream.position == pos + 2 && name == ts[pos].value && copied == annotations;
    r := ReadSubprogramRest(stream, kind, copied, name);
  }

  /** SubprogramTreeNode after the '(': the parameter loop, the export mark and the body
      loop. */
  method ReadSubprogramRest(stream: TokenStream, kind: SubprogramKind, annotations: seq<string>, name: string)
    returns (r: Result<Node>)
    requires stream.Valid() && 0 < stream.position
    modifies stream
    ensures stream.Valid() && stream.data == old(stream.data)
    ensures r == SubprogramRest(old(stream.data), old(stream.position), kind, annotations, name)
    decreases |stream.data|, 4
  {
    ghost var ts := stream.data;
    ghost var params := Params(ts, stream.position, []);
    var arguments := ReadParameters(stream);
    if arguments.Err? {
      assert params.Err? && arguments.error == params.error;
      return Err(arguments.error);
    }
    assert params.Ok? && arguments.value == params.value.0 && stream.position == params.value.1;
    var current := stream.CurrentToken();
    if current.Err? {
      return Err(current.error);
    }
    var exported := current.value.tokenType == ExportKeyword;
    ghost var statements := Statements(ts, stream.position, []);
    var body := ReadStatements(stream);
    assert body == statements;
    if body.Err? {
      return Err(body.error);
    }
    r := Ok(SubprogramNode(kind, annotations, name, arguments.value, exported, body.value));
  }

  /** The parameter loop of SubprogramTreeNode: read descriptors up to the ')' that
      ends the list. */
  method ReadParameters(stream: TokenStream) returns (r: Result<seq<Argument>>)
    requires stream.Valid()
    modifies stream
    ensures stream.Valid() && stream.data == old(stream.data)
    ensures Params(stream.data, old(stream.position), []).Err? ==>
      r == Err(Params(stream.data, old(stream.position), []).error)
    ensures Params(stream.data, old(stream.position), []).Ok? ==>
      && r == Ok(Params(stream.data, old(stream.position), []).value.0)
      && stream.position == Params(stream.data, old(stream.position), []).value.1
  {
    ghost var start := stream.position;
    var arguments: seq<Argument> := [];
    while true
      invariant stream.Valid() && stream.data == old(stream.data) && start <= stream.position
      invariant Params(stream.data, stream.position, arguments) == Params(stream.data, start, [])
      decreases |stream.data| - stream.position
    {
      var read := stream.ReadToken(true);
      if read.Err? {
        return Err(read.error);
      }
      var token := read.value.value;
      if token.tokenType == ClosingBracket {
        break;
      }
      ParamsStep(stream.data, stream.position - 1, arguments);
      var desc := ReadDescriptor(stream, token);
      if desc.Err? {
        return Err(desc.error);
      }
      if desc.value.Some? {
        arguments := arguments + [desc.value.value];
      }
    }
    r := Ok(arguments);
  }

  /** The body of the parameter loop after its first token, which is not ')'. */
  method ReadDescriptor(stream: TokenStream, token: Token) returns (r: Result<Option<Argument>>)
    requires stream.Valid() && 0 < stream.position && stream.data[stream.position - 1] == token
    requires token.tokenType != ClosingBracket
    modifies stream
    ensures stream.Valid() && stream.data == old(stream.data)
    ensures Descriptor(stream.data, old(stream.position) - 1).Err? ==>
      r == Err(Descriptor(stream.data, old(stream.position) - 1).error)
    ensures Descriptor(stream.data, old(stream.position) - 1).Ok? ==>
      && r == Ok(Descriptor(stream.data, old(stream.position) - 1).value.0)
      && stream.position == Descriptor(stream.data, old(stream.position) - 1).value.1
  {
    var byValue := false;
    var name := token.value;
    ghost var ts := stream.data;
    ghost var d := Descriptor(ts, stream.position - 1);
    ghost var namePos := stream.position - 1;
    if token.tokenType == KeywordVal {
      byValue := true;
      var read := stream.ReadToken(true);
      if read.Err? {
        assert d == Err(UnexpectedEndOfTokenStream);
        return Err(read.error);
      }
      name := read.value.value.value;
      namePos := namePos + 1;
    }
    assert stream.position == namePos + 1 && name == ts[namePos].value;
    var read := stream.ReadToken(true);
    if read.Err? {
      assert d == Err(UnexpectedEndOfTokenStream);
      return Err(read.error);
    }
    var follower := read.value.value.tokenType;
    assert follower == ts[namePos + 1].tokenType;
    if follower == ClosingBracket || follower == Comma {
      assert d == Ok((Some(Argument(name, byValue, false, "")), namePos + 2));
      r := Ok(Some(Argument(name, byValue, false, "")));
    } else if follower == EqualsSign {
      read := stream.ReadToken(true);
      if read.Err? {
        assert d == Err(UnexpectedEndOfTokenStream);
        return Err(read.error);
      }
      assert d == Ok((Some(Argument(name, byValue, true, ts[namePos + 2].value)), namePos + 3));
      r := Ok(Some(Argument(name, byValue, true, read.value.value.value)));
    } else {
      assert d == Ok((None, namePos + 2));
      r := Ok(None);
    }
  }

  /** The body loop of SubprogramTreeNode: build each remaining statement as a module. */
  method ReadStatements(stream: TokenStream) returns (r: Result<seq<Node>>)
    requires stream.Valid() && 0 < stream.position
    modifies stream
    ensures stream.Valid() && stream.data == old(stream.data)
    ensures r == Statements(stream.data, old(stream.position), [])
    decreases |stream.data|, 3
  {
    ghost var start := stream.position;
    var body: seq<Node> := [];
    while true
      invariant stream.Valid() && stream.data == old(stream.data) && 0 < stream.position
      invariant Statements(stream.data, stream.position, body) == Statements(stream.data, start, [])
      decreases |stream.data| - stream.position
    {
      var statement := stream.ExtractExpressionSubstream();
      if statement.None? {
        break;
      }
      var node := BuildAbstractSyntaxTree(statement.value);
      if node.Err? {
        return Err(node.error);
      }
      body := body + [node.value];
    }
    r := Ok(body);
  }
}
