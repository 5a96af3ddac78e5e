/** The precedence-climbing parser shared by the two copies in the crate,
    `parse_tokens` of `src/lib.rs` (`Original`, the one the Python module
    uses) and of `src/eval_tree.rs` (`Refactored`), written as functions.
    The copies differ in two places only, both visible below through
    `Version`: the stop test for an operator seen after an operand, and the
    failure when the tokens run out with nothing parsed. */
module Parsing {
  import opened Common
  import opened Tokenizer

  datatype Version = Original | Refactored

  /** `EvalTreeNode`: three independent optional fields, so the shapes the
      code rejects stay representable. */
  datatype Node<O> = Node(left: Option<Node<O>>, operator: Option<Token<O>>, right: Option<Node<O>>)

  /** The four shapes the parser builds. */
  function Leaf<O>(tok: Token<O>): Node<O> { Node(None, Some(tok), None) }
  function Unary<O>(operand: Node<O>, op: Token<O>): Node<O> { Node(Some(operand), Some(op), None) }
  function Binary<O>(l: Node<O>, op: Token<O>, r: Node<O>): Node<O> { Node(Some(l), Some(op), Some(r)) }
  /** Implicit multiplication: two juxtaposed operands, no operator. */
  function Implicit<O>(l: Node<O>, r: Node<O>): Node<O> { Node(Some(l), None, Some(r)) }

  predicate IsLeaf<O>(n: Node<O>) { n.left.None? && n.operator.Some? && n.right.None? }

  /** Every node of the tree has one of the four shapes. */
  predicate WellShaped<O>(n: Node<O>) {
    match n
    case Node(None, Some(_), None) => true
    case Node(Some(l), Some(_), None) => WellShaped(l)
    case Node(Some(l), _, Some(r)) => WellShaped(l) && WellShaped(r)
    case _ => false
  }

  /** Leaves hold NUMBER or NAME tokens, every other operator is an OP
      token with a known priority. */
  predicate TokensFormed<O>(n: Node<O>) {
    (match n.operator
     case None => true
     case Some(tok) =>
       if n.left.None? && n.right.None? then tok.typeId == NUMBER || tok.typeId == NAME
       else tok.typeId == OP && OpPriority(tok.text) >= 0)
    && (n.left.Some? ==> TokensFormed(n.left.value))
    && (n.right.Some? ==> TokensFormed(n.right.value))
  }

  predicate Formed<O>(n: Node<O>) { WellShaped(n) && TokensFormed(n) }

  /** Every OP token of the input is a parenthesis or has a priority. */
  predicate KnownOperators<O>(tokens: seq<Token<O>>) {
    forall i | 0 <= i < |tokens| ::
      tokens[i].typeId == OP ==> tokens[i].text == "(" || tokens[i].text == ")" || OpPriority(tokens[i].text) >= 0
  }

  /** No token text of the tree contains a parenthesis character. */
  predicate ParenFree<O>(n: Node<O>) {
    (n.operator.Some? ==> '(' !in n.operator.value.text && ')' !in n.operator.value.text)
    && (n.left.Some? ==> ParenFree(n.left.value))
    && (n.right.Some? ==> ParenFree(n.right.value))
  }

  /** `ParseStep`: the subtree a call built and the index its caller
      resumes from (the caller adds one before reading on). */
  datatype ParseStep<O> = ParseStep(right: Node<O>, index: int)

  /** `op_priority`, the same table in both copies. */
  function OpPriority(op: string): (p: int)
    ensures -1 <= p <= 3
  {
    match op
    case "**" | "^" => 3
    case "unary" => 2
    case "*" | "" | "/" => 1
    case "+" | "-" => 0
    case _ => -1
  }

  /** Which spellings have which priority: powers bind tightest, then the
      unary prefix, then the multiplicative operators (implicit
      multiplication, spelt "", among them), then the additive ones; every
      other spelling is unknown (-1). */
  lemma PriorityLevels(op: string)
    ensures OpPriority(op) == 3 <==> op == "**" || op == "^"
    ensures OpPriority(op) == 2 <==> op == "unary"
    ensures OpPriority(op) == 1 <==> op == "*" || op == "" || op == "/"
    ensures OpPriority(op) == 0 <==> op == "+" || op == "-"
    ensures OpPriority(op) == -1 <==> op !in {"**", "^", "unary", "*", "", "/", "+", "-"}
  {
  }

  /** The priority of the enclosing operator; none counts as -1. */
  function PriorityOf(prevOp: Option<string>): int
  {
    match prevOp
    case None => -1
    case Some(op) => OpPriority(op)
  }

  predicate IsPower(text: string) { text == "**" || text == "^" }

  /** The stop test for an operator met after an operand: `Original` stops
      only below the enclosing priority, `Refactored` also at equal
      priority. */
  predicate OperatorYields(v: Version, p: int, enclosing: int) {
    match v
    case Original => p < enclosing
    case Refactored => p <= enclosing
  }

  /** What a call may return as its resume index: never before its start,
      except the outermost call (no enclosing operator, depth 0), which
      reports 0 when it reaches the end marker. */
  predicate Resumes(index: int, start: nat, depth: nat, prevOp: Option<string>) {
    start <= index || (prevOp.None? && depth == 0 && index == 0)
  }

  /** Puts a parenthesised group after what has been parsed so far. */
  function Juxtapose<O>(acc: Option<Node<O>>, group: Node<O>): Node<O> {
    match acc
    case None => group
    case Some(l) => Implicit(l, group)
  }

  /** `parse_tokens(tokens, start, depth, prev_op)`. */
  function Parse<O>(v: Version, tokens: seq<Token<O>>, start: nat, depth: nat, prevOp: Option<string>): (r: Result<ParseStep<O>>)
    ensures r.Ok? ==> Resumes(r.value.index, start, depth, prevOp)
    decreases |tokens| - start, 0, 2
  {
    Scan(v, tokens, start, depth, prevOp, start, None)
  }

  /** What the loop state (`index`, `result` = `acc`) of a call must satisfy. */
  predicate LoopState<O>(tokens: seq<Token<O>>, start: nat, index: int, acc: Option<Node<O>>) {
    start <= index
    && (acc.Some? ==> start < index)
  }

  /** The `while index < len_tokens` loop of `parse_tokens` from the state
      (`index`, `result`) on; `acc` is `result`. One token is handled per
      step, by the function for its category. */
  function Scan<O>(v: Version, tokens: seq<Token<O>>, start: nat, depth: nat, prevOp: Option<string>,
                   index: int, acc: Option<Node<O>>): (r: Result<ParseStep<O>>)
    requires LoopState(tokens, start, index, acc)
    ensures r.Ok? ==> Resumes(r.value.index, start, depth, prevOp)
    decreases |tokens| - index, if acc.Some? then 1 else 0, 1
  {
    if index >= |tokens| then
      match acc
      case Some(tree) => Ok(ParseStep(tree, index))
      case None => if v == Refactored then Err(Raised("no result?")) else Err(Panicked(UnwrapNone))
    else
      match tokens[index].typeId
      case OP => ScanOperator(v, tokens, start, depth, prevOp, index, acc)
      case NUMBER | NAME => ScanOperand(v, tokens, start, depth, prevOp, index, acc)
      case ENDMARKER => ScanEnd(v, tokens, start, depth, prevOp, index, acc)
      case IGNORE => Scan(v, tokens, start, depth, prevOp, index + 1, acc)
  }

  /** An OP token: a parenthesis, a binary operator after an operand, or a
      unary prefix operator. */
  function ScanOperator<O>(v: Version, tokens: seq<Token<O>>, start: nat, depth: nat, prevOp: Option<string>,
                           index: int, acc: Option<Node<O>>): (r: Result<ParseStep<O>>)
    requires LoopState(tokens, start, index, acc) && index < |tokens| && tokens[index].typeId == OP
    ensures r.Ok? ==> Resumes(r.value.index, start, depth, prevOp)
    decreases |tokens| - index, if acc.Some? then 1 else 0, 0
  {
    var token := tokens[index];
    if token.text == ")" then
      if prevOp.None? then Err(Raised("unopened parenthesis"))
      else if acc.None? then Err(Panicked(UnwrapNone))
      else if prevOp.value == "(" then Ok(ParseStep(acc.value, index))
      else Ok(ParseStep(acc.value, index - 1))
    else if token.text == "(" then
      var inner := Parse(v, tokens, index + 1, 0, Some("("));
      if inner.Err? then Err(inner.failure)
      else if inner.value.index >= |tokens| then Err(Panicked(IndexOutOfBounds))
      else if tokens[inner.value.index].text != ")" then Err(Raised("weird exit from parenthesis"))
      else Scan(v, tokens, start, depth, prevOp, inner.value.index + 1, Some(Juxtapose(acc, inner.value.right)))
    else if acc.Some? then
      if OperatorYields(v, OpPriority(token.text), PriorityOf(prevOp)) && !IsPower(token.text) then
        Ok(ParseStep(acc.value, index - 1))
      else
        var rhs := Parse(v, tokens, index + 1, depth + 1, Some(token.text));
        if rhs.Err? then Err(rhs.failure)
        else Scan(v, tokens, start, depth, prevOp, rhs.value.index + 1, Some(Binary(acc.value, token, rhs.value.right)))
    else
      var operand := Parse(v, tokens, index + 1, depth + 1, Some("unary"));
      if operand.Err? then Err(operand.failure)
      else Scan(v, tokens, start, depth, prevOp, operand.value.index + 1, Some(Unary(operand.value.right, token)))
  }

  /** A NUMBER or NAME token: a leaf, or the right operand of an implicit
      multiplication. */
  function ScanOperand<O>(v: Version, tokens: seq<Token<O>>, start: nat, depth: nat, prevOp: Option<string>,
                          index: int, acc: Option<Node<O>>): (r: Result<ParseStep<O>>)
    requires LoopState(tokens, start, index, acc) && index < |tokens|
    requires tokens[index].typeId == NUMBER || tokens[index].typeId == NAME
    ensures r.Ok? ==> Resumes(r.value.index, start, depth, prevOp)
    decreases |tokens| - index, if acc.Some? then 1 else 0, 0
  {
    if acc.Some? then
      if OpPriority("") <= PriorityOf(prevOp) then Ok(ParseStep(acc.value, index - 1))
      else
        var rhs := Parse(v, tokens, index, depth + 1, Some(""));
        if rhs.Err? then Err(rhs.failure)
        else Scan(v, tokens, start, depth, prevOp, rhs.value.index + 1, Some(Implicit(acc.value, rhs.value.right)))
    else
      Scan(v, tokens, start, depth, prevOp, index + 1, Some(Leaf(tokens[index])))
  }

  /** The ENDMARKER token. */
  function ScanEnd<O>(v: Version, tokens: seq<Token<O>>, start: nat, depth: nat, prevOp: Option<string>,
                      index: int, acc: Option<Node<O>>): (r: Result<ParseStep<O>>)
    requires LoopState(tokens, start, index, acc)
    ensures r.Ok? ==> Resumes(r.value.index, start, depth, prevOp)
  {
    if prevOp == Some("(") then Err(Raised("unclosed parenthesis"))
    else if acc.None? then Err(Panicked(UnwrapNone))
    else if prevOp.Some? || depth > 0 then Ok(ParseStep(acc.value, index))
    else Ok(ParseStep(acc.value, 0))
  }

  /** The entry point of both copies: index 0, depth 0, no enclosing
      operator, keeping only the subtree. */
  function ParseTopLevel<O>(v: Version, tokens: seq<Token<O>>): (r: Result<Node<O>>)
    ensures r.Ok? ==> WellShaped(r.value)
    ensures r.Ok? && KnownOperators(tokens) ==> Formed(r.value)
  {
    ParseBuildsFourShapes(v, tokens, 0, 0, None);
    var step :- Parse(v, tokens, 0, 0, None);
    Ok(step.right)
  }

  /** A NUMBER or NAME token. */
  predicate Operand<O>(t: Token<O>) {
    t.typeId == NUMBER || t.typeId == NAME
  }

  /** An OP token spelling a known operator other than a parenthesis. */
  predicate Operator<O>(t: Token<O>) {
    t.typeId == OP && t.text != "(" && t.text != ")" && OpPriority(t.text) >= 0
  }

  // ----- single loop steps, to unfold the parser on known inputs -----

  lemma StartStep<O>(v: Version, t: seq<Token<O>>, start: nat, depth: nat, prevOp: Option<string>)
    ensures Parse(v, t, start, depth, prevOp) == Scan(v, t, start, depth, prevOp, start, None)
  {
  }

  lemma LeafStep<O>(v: Version, t: seq<Token<O>>, start: nat, depth: nat, prevOp: Option<string>, index: int)
    requires start <= index < |t| && Operand(t[index])
    ensures Scan(v, t, start, depth, prevOp, index, None) == Scan(v, t, start, depth, prevOp, index + 1, Some(Leaf(t[index])))
  {
  }

  lemma EndStep<O>(v: Version, t: seq<Token<O>>, start: nat, depth: nat, prevOp: Option<string>, index: int, acc: Node<O>)
    requires start < index < |t| && t[index].typeId == ENDMARKER && prevOp != Some("(")
    ensures Scan(v, t, start, depth, prevOp, index, Some(acc))
         == Ok(ParseStep(acc, if prevOp.Some? || depth > 0 then index else 0))
  {
  }

  lemma ExhaustedStep<O>(v: Version, t: seq<Token<O>>, start: nat, depth: nat, prevOp: Option<string>, index: int, acc: Node<O>)
    requires start < index && |t| <= index
    ensures Scan(v, t, start, depth, prevOp, index, Some(acc)) == Ok(ParseStep(acc, index))
  {
  }

  lemma StopStep<O>(v: Version, t: seq<Token<O>>, start: nat, depth: nat, prevOp: Option<string>, index: int, acc: Node<O>)
    requires start < index < |t| && Operator(t[index])
    requires OperatorYields(v, OpPriority(t[index].text), PriorityOf(prevOp)) && !IsPower(t[index].text)
    ensures Scan(v, t, start, depth, prevOp, index, Some(acc)) == Ok(ParseStep(acc, index - 1))
  {
  }

  lemma OperandStopStep<O>(v: Version, t: seq<Token<O>>, start: nat, depth: nat, prevOp: Option<string>, index: int, acc: Node<O>)
    requires start < index < |t| && Operand(t[index]) && OpPriority("") <= PriorityOf(prevOp)
    ensures Scan(v, t, start, depth, prevOp, index, Some(acc)) == Ok(ParseStep(acc, index - 1))
  {
  }

  lemma BinaryStep<O>(v: Version, t: seq<Token<O>>, start: nat, depth: nat, prevOp: Option<string>, index: int, acc: Node<O>, rhs: ParseStep<O>)
    requires start < index < |t| && Operator(t[index])
    requires !(OperatorYields(v, OpPriority(t[index].text), PriorityOf(prevOp)) && !IsPower(t[index].text))
    requires Parse(v, t, index + 1, depth + 1, Some(t[index].text)) == Ok(rhs)
    ensures Scan(v, t, start, depth, prevOp, index, Some(acc))
         == Scan(v, t, start, depth, prevOp, rhs.index + 1, Some(Binary(acc, t[index], rhs.right)))
  {
  }

  lemma UnaryStep<O>(v: Version, t: seq<Token<O>>, start: nat, depth: nat, prevOp: Option<string>, index: int, operand: ParseStep<O>)
    requires start <= index < |t| && Operator(t[index])
    requires Parse(v, t, index + 1, depth + 1, Some("unary")) == Ok(operand)
    ensures Scan(v, t, start, depth, prevOp, index, None)
         == Scan(v, t, start, depth, prevOp, operand.index + 1, Some(Unary(operand.right, t[index])))
  {
  }

  lemma ImplicitStep<O>(v: Version, t: seq<Token<O>>, start: nat, depth: nat, prevOp: Option<string>, index: int, acc: Node<O>, rhs: ParseStep<O>)
    requires start < index < |t| && Operand(t[index]) && PriorityOf(prevOp) < OpPriority("")
    requires Parse(v, t, index, depth + 1, Some("")) == Ok(rhs)
    ensures Scan(v, t, start, depth, prevOp, index, Some(acc))
         == Scan(v, t, start, depth, prevOp, rhs.index + 1, Some(Implicit(acc, rhs.right)))
  {
  }

  lemma GroupStep<O>(v: Version, t: seq<Token<O>>, start: nat, depth: nat, prevOp: Option<string>, index: int, acc: Option<Node<O>>, inner: ParseStep<O>)
    requires LoopState(t, start, index, acc) && index < |t| && t[index].typeId == OP && t[index].text == "("
    requires Parse(v, t, index + 1, 0, Some("(")) == Ok(inner)
    requires inner.index < |t| && t[inner.index].text == ")"
    ensures Scan(v, t, start, depth, prevOp, index, acc)
         == Scan(v, t, start, depth, prevOp, inner.index + 1, Some(Juxtapose(acc, inner.right)))
  {
  }

  lemma CloseStep<O>(v: Version, t: seq<Token<O>>, start: nat, depth: nat, prevOp: Option<string>, index: int, acc: Node<O>)
    requires start < index < |t| && t[index].typeId == OP && t[index].text == ")" && prevOp.Some?
    ensures Scan(v, t, start, depth, prevOp, index, Some(acc))
         == Ok(ParseStep(acc, if prevOp == Some("(") then index else index - 1))
  {
  }

  // ----- the parser only builds the four shapes -----

  predicate ShapedResult<O>(tokens: seq<Token<O>>, r: Result<ParseStep<O>>) {
    r.Ok? ==> WellShaped(r.value.right) && (KnownOperators(tokens) ==> Formed(r.value.right))
  }

  predicate ShapedAcc<O>(tokens: seq<Token<O>>, acc: Option<Node<O>>) {
    acc.Some? ==> WellShaped(acc.value) && (KnownOperators(tokens) ==> Formed(acc.value))
  }

  /** Every node a call builds is a leaf, a unary, a binary or an implicit
      multiplication node; with known operators, its leaves are NUMBER or
      NAME tokens and its operators OP tokens with a priority. */
  lemma {:induction false} ParseBuildsFourShapes<O>(v: Version, tokens: seq<Token<O>>, start: nat, depth: nat, prevOp: Option<string>)
    ensures ShapedResult(tokens, Parse(v, tokens, start, depth, prevOp))
    decreases |tokens| - start, 0, 2
  {
    ScanBuildsFourShapes(v, tokens, start, depth, prevOp, start, None);
  }

  lemma {:induction false} ScanBuildsFourShapes<O>(v: Version, tokens: seq<Token<O>>, start: nat, depth: nat, prevOp: Option<string>,
                                                   index: int, acc: Option<Node<O>>)
    requires LoopState(tokens, start, index, acc) && ShapedAcc(tokens, acc)
    ensures ShapedResult(tokens, Scan(v, tokens, start, depth, prevOp, index, acc))
    decreases |tokens| - index, if acc.Some? then 1 else 0, 1
  {
    if index < |tokens| {
      match tokens[index].typeId
      case OP => OperatorBuildsFourShapes(v, tokens, start, depth, prevOp, index, acc);
      case NUMBER | NAME => OperandBuildsFourShapes(v, tokens, start, depth, prevOp, index, acc);
      case ENDMARKER =>
      case IGNORE => ScanBuildsFourShapes(v, tokens, start, depth, prevOp, index + 1, acc);
    }
  }

  lemma {:induction false} OperatorBuildsFourShapes<O>(v: Version, tokens: seq<Token<O>>, start: nat, depth: nat, prevOp: Option<string>,
                                                       index: int, acc: Option<Node<O>>)
    requires LoopState(tokens, start, index, acc) && index < |tokens| && tokens[index].typeId == OP
    requires ShapedAcc(tokens, acc)
    ensures ShapedResult(tokens, ScanOperator(v, tokens, start, depth, prevOp, index, acc))
    decreases |tokens| - index, if acc.Some? then 1 else 0, 0
  {
    var token := tokens[index];
    if token.text == ")" {
    } else if token.text == "(" {
      ParseBuildsFourShapes(v, tokens, index + 1, 0, Some("("));
      var inner := Parse(v, tokens, index + 1, 0, Some("("));
      if inner.Ok? && inner.value.index < |tokens| && tokens[inner.value.index].text == ")" {
        ScanBuildsFourShapes(v, tokens, start, depth, prevOp, inner.value.index + 1, Some(Juxtapose(acc, inner.value.right)));
      }
    } else if acc.Some? {
      if !(OperatorYields(v, OpPriority(token.text), PriorityOf(prevOp)) && !IsPower(token.text)) {
        ParseBuildsFourShapes(v, tokens, index + 1, depth + 1, Some(token.text));
        var rhs := Parse(v, tokens, index + 1, depth + 1, Some(token.text));
        if rhs.Ok? {
          ScanBuildsFourShapes(v, tokens, start, depth, prevOp, rhs.value.index + 1, Some(Binary(acc.value, token, rhs.value.right)));
        }
      }
    } else {
      ParseBuildsFourShapes(v, tokens, index + 1, depth + 1, Some("unary"));
      var operand := Parse(v, tokens, index + 1, depth + 1, Some("unary"));
      if operand.Ok? {
        ScanBuildsFourShapes(v, tokens, start, depth, prevOp, operand.value.index + 1, Some(Unary(operand.value.right, token)));
      }
    }
  }

  lemma {:induction false} OperandBuildsFourShapes<O>(v: Version, tokens: seq<Token<O>>, start: nat, depth: nat, prevOp: Option<string>,
                                                      index: int, acc: Option<Node<O>>)
    requires LoopState(tokens, start, index, acc) && index < |tokens|
    requires tokens[index].typeId == NUMBER || tokens[index].typeId == NAME
    requires ShapedAcc(tokens, acc)
    ensures ShapedResult(tokens, ScanOperand(v, tokens, start, depth, prevOp, index, acc))
    decreases |tokens| - index, if acc.Some? then 1 else 0, 0
  {
    if acc.Some? {
      if OpPriority("") > PriorityOf(prevOp) {
        ParseBuildsFourShapes(v, tokens, index, depth + 1, Some(""));
        var rhs := Parse(v, tokens, index, depth + 1, Some(""));
        if rhs.Ok? {
          ScanBuildsFourShapes(v, tokens, start, depth, prevOp, rhs.value.index + 1, Some(Implicit(acc.value, rhs.value.right)));
        }
      }
    } else {
      ScanBuildsFourShapes(v, tokens, start, depth, prevOp, index + 1, Some(Leaf(tokens[index])));
    }
  }
}
