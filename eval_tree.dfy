/** `src/eval_tree.rs`: the refactored evaluation tree over the tokens of
    `src/tokenizer.rs` — its rendering, its evaluation and its copy of
    `parse_tokens`. */
module EvalTree {
  import opened Common
  import opened Tokenizer
  import opened Numbers
  import opened Parsing
  import opened Text

  type Tree = Node<()>

  /** `Display::fmt`: the parts of the node joined by spaces, parenthesised
      unless there is a single part. */
  function Render(n: Tree): (r: Result<string>)
    ensures r.Ok? <==> WellShaped(n)
    ensures r.Ok? && IsLeaf(n) ==> r.value == n.operator.value.text
    ensures r.Ok? && !IsLeaf(n) ==> |r.value| >= 2 && r.value[0] == '(' && r.value[|r.value| - 1] == ')'
  {
    var parts :-
      match n
      case Node(Some(l), Some(op), Some(r)) =>
        var ls :- Render(l);
        var rs :- Render(r);
        Ok([ls, op.text, rs])
      case Node(Some(l), None, Some(r)) =>
        var ls :- Render(l);
        var rs :- Render(r);
        Ok([ls, rs])
      case Node(Some(l), Some(op), None) =>
        var ls :- Render(l);
        Ok([op.text, ls])
      case Node(None, Some(op), None) =>
        Ok([op.text])
      case _ =>
        Err(Panicked("unexpected tree node"));
    var value := JoinWords(parts);
    if |parts| == 1 then Ok(value) else Ok("(" + value + ")")
  }

  /** `to_string`. */
  function ToString(n: Tree): (r: Result<string>)
    ensures r.Ok? <==> WellShaped(n)
  {
    Render(n)
  }

  // ----- rendering: what the text shows of the tree -----

  function NonLeafCount(n: Tree): nat {
    (if n.left.Some? || n.right.Some? then 1 else 0)
    + (if n.left.Some? then NonLeafCount(n.left.value) else 0)
    + (if n.right.Some? then NonLeafCount(n.right.value) else 0)
  }

  /** A binary node renders as its operands around its operator, in one
      pair of parentheses. */
  lemma RenderBinary(l: Tree, op: TokenInfo, r: Tree)
    requires WellShaped(l) && WellShaped(r)
    ensures Render(Binary(l, op, r)) == Ok("(" + (Render(l).value + " " + op.text + " " + Render(r).value) + ")")
  {
    JoinThree(Render(l).value, op.text, Render(r).value);
  }

  /** An implicit multiplication renders as its two operands side by side,
      in one pair of parentheses. */
  lemma RenderImplicit(l: Tree, r: Tree)
    requires WellShaped(l) && WellShaped(r)
    ensures Render(Implicit(l, r)) == Ok("(" + (Render(l).value + " " + Render(r).value) + ")")
  {
    JoinTwo(Render(l).value, Render(r).value);
  }

  /** A unary node renders as its operator before its operand, in one pair
      of parentheses. */
  lemma RenderUnary(operand: Tree, op: TokenInfo)
    requires WellShaped(operand)
    ensures Render(Unary(operand, op)) == Ok("(" + (op.text + " " + Render(operand).value) + ")")
  {
    JoinTwo(op.text, Render(operand).value);
  }

  lemma ParensOfRenderBinary(l: Tree, op: TokenInfo, r: Tree)
    requires WellShaped(l) && WellShaped(r) && '(' !in op.text && ')' !in op.text
    requires ParensCount(Render(l).value, NonLeafCount(l)) && ParensCount(Render(r).value, NonLeafCount(r))
    ensures ParensCount(Render(Binary(l, op, r)).value, NonLeafCount(Binary(l, op, r)))
  {
    RenderBinary(l, op, r);
    ParensOfTriple(Render(l).value, op.text, Render(r).value);
  }

  lemma ParensOfRenderImplicit(l: Tree, r: Tree)
    requires WellShaped(l) && WellShaped(r)
    requires ParensCount(Render(l).value, NonLeafCount(l)) && ParensCount(Render(r).value, NonLeafCount(r))
    ensures ParensCount(Render(Implicit(l, r)).value, NonLeafCount(Implicit(l, r)))
  {
    RenderImplicit(l, r);
    ParensOfPair(Render(l).value, Render(r).value);
  }

  lemma ParensOfRenderUnary(operand: Tree, op: TokenInfo)
    requires WellShaped(operand) && '(' !in op.text && ')' !in op.text
    requires ParensCount(Render(operand).value, NonLeafCount(operand))
    ensures ParensCount(Render(Unary(operand, op)).value, NonLeafCount(Unary(operand, op)))
  {
    RenderUnary(operand, op);
    assert multiset(op.text)['('] == 0 && multiset(op.text)[')'] == 0;
    ParensOfPair(op.text, Render(operand).value);
  }

  /** Every node but a leaf is wrapped in exactly one pair of parentheses:
      the rendering holds one `(` and one `)` per non-leaf node. */
  lemma {:induction false} ParenthesesPerNode(n: Tree)
    requires WellShaped(n) && ParenFree(n)
    ensures ParensCount(Render(n).value, NonLeafCount(n))
  {
    match n
    case Node(Some(l), Some(op), Some(r)) =>
      ParenthesesPerNode(l);
      ParenthesesPerNode(r);
      ParensOfRenderBinary(l, op, r);
    case Node(Some(l), None, Some(r)) =>
      ParenthesesPerNode(l);
      ParenthesesPerNode(r);
      ParensOfRenderImplicit(l, r);
    case Node(Some(l), Some(op), None) =>
      ParenthesesPerNode(l);
      ParensOfRenderUnary(l, op);
    case Node(None, Some(op), None) =>
  }

  // ----- evaluation -----

  /** `TokenInfo::binary`'s dispatch on the operator text; `None` is the
      `panic!("unknown binary op")` arm. */
  function BinaryOf(text: string): (r: Option<BinaryOp>)
    ensures r == Some(Power) <==> text == "**" || text == "^"
    ensures r == Some(Multiply) <==> text == "*" || text == ""
    ensures r == Some(TrueDivide) <==> text == "/"
    ensures r == Some(Add) <==> text == "+"
    ensures r == Some(Subtract) <==> text == "-"
    ensures r.None? <==> text !in {"**", "^", "*", "", "/", "+", "-"}
  {
    match text
    case "**" | "^" => Some(Power)
    case "*" | "" => Some(Multiply)
    case "/" => Some(TrueDivide)
    case "+" => Some(Add)
    case "-" => Some(Subtract)
    case _ => None
  }

  /** `TokenInfo::unary`'s dispatch; `None` is `panic!("unknown unary op")`. */
  function UnaryOf(text: string): (r: Option<UnaryOp>)
    ensures r.Some? <==> text == "+" || text == "-"
    ensures r == Some(Positive) <==> text == "+"
    ensures r == Some(Negative) <==> text == "-"
  {
    match text
    case "+" => Some(Positive)
    case "-" => Some(Negative)
    case _ => None
  }

  /** Every operator the parser can put on a binary node (priority 0, 1 or
      3) has an arithmetic operation, and every other text has none. */
  lemma BinaryOperatorsDispatch(text: string)
    ensures BinaryOf(text).Some? <==> OpPriority(text) in {0, 1, 3}
  {
  }

  /** `evaluate`: left operand before right, then the operation; a node
      that matches no arm (no operator) yields "unable to evaluate tree".
      `leaf` is the Python callback, called with the token itself. */
  function Evaluate<V>(n: Tree, leaf: TokenInfo -> Result<V>, arith: Arithmetic<V>): (r: Result<V>)
    ensures n.operator.None? ==> r == Err(Raised("unable to evaluate tree"))
    ensures n.left.None? && n.operator.Some? ==> r == leaf(n.operator.value)
  {
    match n
    case Node(Some(l), Some(op), Some(r)) =>
      var a :- Evaluate(l, leaf, arith);
      var b :- Evaluate(r, leaf, arith);
      (match BinaryOf(op.text)
       case None => Err(Panicked("unknown binary op"))
       case Some(f) => arith.binary(f, a, b))
    case Node(Some(l), Some(op), _) =>
      var a :- Evaluate(l, leaf, arith);
      (match UnaryOf(op.text)
       case None => Err(Panicked("unknown unary op"))
       case Some(f) => arith.unary(f, a))
    case Node(_, Some(op), _) =>
      leaf(op)
    case _ =>
      Err(Raised("unable to evaluate tree"))
  }

  /** A binary node evaluates its left operand first, then its right one;
      the first failure is the result. With both values it applies the
      operation its text dispatches to, or panics on an unknown text. */
  lemma EvaluateBinary<V>(l: Tree, op: TokenInfo, r: Tree, leaf: TokenInfo -> Result<V>, arith: Arithmetic<V>)
    ensures Evaluate(l, leaf, arith).Err? ==> Evaluate(Binary(l, op, r), leaf, arith) == Evaluate(l, leaf, arith)
    ensures Evaluate(l, leaf, arith).Ok? && Evaluate(r, leaf, arith).Err?
        ==> Evaluate(Binary(l, op, r), leaf, arith) == Evaluate(r, leaf, arith)
    ensures Evaluate(l, leaf, arith).Ok? && Evaluate(r, leaf, arith).Ok? && BinaryOf(op.text).Some?
        ==> Evaluate(Binary(l, op, r), leaf, arith)
            == arith.binary(BinaryOf(op.text).value, Evaluate(l, leaf, arith).value, Evaluate(r, leaf, arith).value)
    ensures Evaluate(l, leaf, arith).Ok? && Evaluate(r, leaf, arith).Ok? && BinaryOf(op.text).None?
        ==> Evaluate(Binary(l, op, r), leaf, arith) == Err(Panicked("unknown binary op"))
  {
  }

  /** A unary node evaluates its operand, then applies the operation its
      text dispatches to, or panics on an unknown text. */
  lemma EvaluateUnary<V>(l: Tree, op: TokenInfo, leaf: TokenInfo -> Result<V>, arith: Arithmetic<V>)
    ensures Evaluate(l, leaf, arith).Err? ==> Evaluate(Unary(l, op), leaf, arith) == Evaluate(l, leaf, arith)
    ensures Evaluate(l, leaf, arith).Ok? && op.text == "+"
        ==> Evaluate(Unary(l, op), leaf, arith) == arith.unary(Positive, Evaluate(l, leaf, arith).value)
    ensures Evaluate(l, leaf, arith).Ok? && op.text == "-"
        ==> Evaluate(Unary(l, op), leaf, arith) == arith.unary(Negative, Evaluate(l, leaf, arith).value)
    ensures Evaluate(l, leaf, arith).Ok? && UnaryOf(op.text).None?
        ==> Evaluate(Unary(l, op), leaf, arith) == Err(Panicked("unknown unary op"))
  {
  }

  predicate HasImplicit(n: Tree) {
    (n.left.Some? && n.operator.None? && n.right.Some?)
    || (n.left.Some? && HasImplicit(n.left.value))
    || (n.right.Some? && HasImplicit(n.right.value))
  }

  /** Operators the evaluation can dispatch: binary ones through
      `BinaryOf`, unary ones through `UnaryOf`. */
  predicate Dispatchable(n: Tree) {
    match n
    case Node(Some(l), Some(op), Some(r)) => BinaryOf(op.text).Some? && Dispatchable(l) && Dispatchable(r)
    case Node(Some(l), Some(op), None) => UnaryOf(op.text).Some? && Dispatchable(l)
    case Node(Some(l), None, Some(r)) => Dispatchable(l) && Dispatchable(r)
    case _ => true
  }

  /** Implicit multiplication never evaluates: a well-shaped tree holding an
      operator-less node fails, so `binary`'s `""` arm is never reached
      from parser output. */
  lemma {:induction false} ImplicitNeverEvaluates<V>(n: Tree, leaf: TokenInfo -> Result<V>, arith: Arithmetic<V>)
    requires WellShaped(n) && HasImplicit(n)
    ensures Evaluate(n, leaf, arith).Err?
  {
    match n
    case Node(Some(l), Some(op), Some(r)) =>
      if HasImplicit(l) {
        ImplicitNeverEvaluates(l, leaf, arith);
      } else {
        ImplicitNeverEvaluates(r, leaf, arith);
      }
    case Node(Some(l), Some(op), None) =>
      ImplicitNeverEvaluates(l, leaf, arith);
    case Node(Some(l), None, Some(r)) =>
    case Node(None, Some(op), None) =>
  }

  /** Without implicit multiplication, with dispatchable operators, leaves
      that resolve and arithmetic that never raises, evaluation succeeds. */
  lemma {:induction false} EvaluationSucceeds<V(!new)>(n: Tree, leaf: TokenInfo -> Result<V>, arith: Arithmetic<V>)
    requires WellShaped(n) && !HasImplicit(n) && Dispatchable(n)
    requires forall tok :: leaf(tok).Ok?
    requires NeverFails(arith)
    ensures Evaluate(n, leaf, arith).Ok?
  {
    match n
    case Node(Some(l), Some(op), Some(r)) =>
      EvaluationSucceeds(l, leaf, arith);
      EvaluationSucceeds(r, leaf, arith);
    case Node(Some(l), Some(op), None) =>
      EvaluationSucceeds(l, leaf, arith);
    case Node(None, Some(op), None) =>
  }

  // ----- parsing -----

  /** `parse_tokens` of this file: a loop over the tokens that advances
      `index` and rebuilds `result`, resuming after each recursive call at
      the index the call returns. */
  method ParseTokens(tokens: seq<TokenInfo>, start: nat, depth: nat, prevOp: Option<string>)
    returns (r: Result<ParseStep<()>>)
    ensures r == Parse(Refactored, tokens, start, depth, prevOp)
    decreases |tokens| - start
  {
    var prevOpPriority := match prevOp case Some(op) => OpPriority(op) case None => -1;
    var result: Option<Tree> := None;
    var index: int := start;
    while index < |tokens|
      invariant LoopState(tokens, start, index, result)
      invariant Scan(Refactored, tokens, start, depth, prevOp, index, result) == Parse(Refactored, tokens, start, depth, prevOp)
      decreases |tokens| - index
    {
      var token := tokens[index];
      match token.typeId {
        case OP =>
          if token.text == ")" {
            if prevOp.None? {
              return Err(Raised("unopened parenthesis"));
            }
            if result.None? {
              return Err(Panicked(UnwrapNone));
            }
            if prevOp.value == "(" {
              return Ok(ParseStep(result.value, index));
            }
            return Ok(ParseStep(result.value, index - 1));
          } else if token.text == "(" {
            var call := ParseTokens(tokens, index + 1, 0, Some(token.text));
            if call.Err? {
              return Err(call.failure);
            }
            var step := call.value;
            if step.index >= |tokens| {
              return Err(Panicked(IndexOutOfBounds));
            }
            if tokens[step.index].text != ")" {
              return Err(Raised("weird exit from parenthesis"));
            }
            index := step.index;
            if result.Some? {
              result := Some(Implicit(result.value, step.right));
            } else {
              result := Some(step.right);
            }
          } else {
            var opPriority := OpPriority(token.text);
            if result.Some? {
              if opPriority <= prevOpPriority && token.text != "**" && token.text != "^" {
                return Ok(ParseStep(result.value, index - 1));
              }
              var call := ParseTokens(tokens, index + 1, depth + 1, Some(token.text));
              if call.Err? {
                return Err(call.failure);
              }
              var step := call.value;
              result := Some(Binary(result.value, token, step.right));
              index := step.index;
            } else {
              var call := ParseTokens(tokens, index + 1, depth + 1, Some("unary"));
              if call.Err? {
                return Err(call.failure);
              }
              var step := call.value;
              result := Some(Unary(step.right, token));
              index := step.index;
            }
          }
        case NUMBER | NAME =>
          if result.Some? {
            if OpPriority("") <= prevOpPriority {
              return Ok(ParseStep(result.value, index - 1));
            }
            var call := ParseTokens(tokens, index, depth + 1, Some(""));
            if call.Err? {
              return Err(call.failure);
            }
            var step := call.value;
            result := Some(Implicit(result.value, step.right));
            index := step.index;
          } else {
            result := Some(Leaf(token));
          }
        case ENDMARKER =>
          if prevOp == Some("(") {
            return Err(Raised("unclosed parenthesis"));
          }
          if result.None? {
            return Err(Panicked(UnwrapNone));
          }
          if prevOp.Some? || depth > 0 {
            return Ok(ParseStep(result.value, index));
          }
          return Ok(ParseStep(result.value, 0));
        case IGNORE =>
      }
      index := index + 1;
    }
    match result {
      case Some(value) => return Ok(ParseStep(value, index));
      case None => return Err(Raised("no result?"));
    }
  }
}
