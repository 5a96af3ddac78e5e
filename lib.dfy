/** `src/lib.rs`: the first copy of the evaluation tree, built directly from
    the token tuples of Python's `tokenize` module — its rendering, its
    evaluation, its copy of `parse_tokens` and the `build_eval_tree` entry
    point. */
module Lib {
  import opened Common
  import opened Tokenizer
  import opened Numbers
  import opened Parsing
  import opened Text
  import EvalTree

  /** The Python token tuple `(type, string, ...)` the caller passes in,
      reduced to its integer category code and its spelling; the tuple's
      other fields are not modelled. It stands for the object the leaf
      callback later receives. */
  datatype PyToken = PyToken(code: i32, text: string)

  /** `Token` of this file: category, spelling and the original tuple. */
  type LibToken = Token<PyToken>

  type LibTree = Node<PyToken>

  /** `TryFrom<i32> for TokenType`: declared fallible, but every code
      succeeds, with the category `From<i32>` of `src/tokenizer.rs` gives. */
  function TryFromCode(v: i32): (r: Result<TokenType>)
    ensures r == Ok(FromCode(v))
  {
    if v == Discriminant(OP) then Ok(OP)
    else if v == Discriminant(NUMBER) then Ok(NUMBER)
    else if v == Discriminant(NAME) then Ok(NAME)
    else if v == Discriminant(ENDMARKER) then Ok(ENDMARKER)
    else Ok(IGNORE)
  }

  // ----- rendering -----

  /** Panic message of `to_string` when `Display::fmt` reports an error. */
  const DisplayError := "a Display implementation returned an error unexpectedly"

  /** `Display::fmt` of this file. A binary or implicit node is wrapped in
      parentheses; a unary node is its operator and its operand, NOT
      wrapped; a right child without a left one is `fmt::Error`; a node
      with neither a right child nor an operator unwraps `None`. Children
      are rendered with `to_string`. */
  function Fmt(n: LibTree): (r: Result<string>)
    ensures r.Ok? <==> WellShaped(n)
    ensures r == Err(FormatError) <==> n.right.Some? && n.left.None?
    ensures IsLeaf(n) ==> r == Ok(n.operator.value.text)
    decreases n, 0
  {
    match n.right
    case Some(r) =>
      (match n.left
       case Some(l) =>
         var ls :- ToString(l);
         var rs :- ToString(r);
         var comps := match n.operator case Some(op) => [ls, op.text, rs] case None => [ls, rs];
         Ok("(" + JoinWords(comps) + ")")
       case None => Err(FormatError))
    case None =>
      if n.operator.Some? then
        var op := n.operator.value;
        (match n.left
         case Some(l) =>
           var ls :- ToString(l);
           Ok(JoinWords([op.text, ls]))
         case None => Ok(JoinWords([op.text])))
      else
        Err(Panicked(UnwrapNone))
  }

  /** `ToString::to_string`: `Fmt`, with a formatter error turned into a
      panic. */
  function ToString(n: LibTree): (r: Result<string>)
    ensures r.Ok? <==> WellShaped(n)
    ensures r.Err? ==> r.failure.Panicked?
    decreases n, 1
  {
    match Fmt(n)
    case Err(FormatError) => Err(Panicked(DisplayError))
    case other => other
  }

  /** Nodes the rendering wraps in parentheses: those with a right child. */
  function WrappedCount(n: LibTree): nat {
    (if n.right.Some? then 1 else 0)
    + (if n.left.Some? then WrappedCount(n.left.value) else 0)
    + (if n.right.Some? then WrappedCount(n.right.value) else 0)
  }

  /** A binary node renders as its operands around its operator, in one
      pair of parentheses. */
  lemma FmtBinary(l: LibTree, op: LibToken, r: LibTree)
    requires WellShaped(l) && WellShaped(r)
    ensures Fmt(Binary(l, op, r)) == Ok("(" + (Fmt(l).value + " " + op.text + " " + Fmt(r).value) + ")")
  {
    JoinThree(Fmt(l).value, op.text, Fmt(r).value);
  }

  /** An implicit multiplication renders as its operands side by side, in
      one pair of parentheses. */
  lemma FmtImplicit(l: LibTree, r: LibTree)
    requires WellShaped(l) && WellShaped(r)
    ensures Fmt(Implicit(l, r)) == Ok("(" + (Fmt(l).value + " " + Fmt(r).value) + ")")
  {
    JoinTwo(Fmt(l).value, Fmt(r).value);
  }

  /** A unary node renders as its operator before its operand, without
      parentheses. */
  lemma FmtUnary(operand: LibTree, op: LibToken)
    requires WellShaped(operand)
    ensures Fmt(Unary(operand, op)) == Ok(op.text + " " + Fmt(operand).value)
  {
    JoinTwo(op.text, Fmt(operand).value);
  }

  lemma ParensOfFmtBinary(l: LibTree, op: LibToken, r: LibTree)
    requires WellShaped(l) && WellShaped(r) && '(' !in op.text && ')' !in op.text
    requires ParensCount(Fmt(l).value, WrappedCount(l)) && ParensCount(Fmt(r).value, WrappedCount(r))
    ensures ParensCount(Fmt(Binary(l, op, r)).value, WrappedCount(Binary(l, op, r)))
  {
    FmtBinary(l, op, r);
    ParensOfTriple(Fmt(l).value, op.text, Fmt(r).value);
  }

  lemma ParensOfFmtImplicit(l: LibTree, r: LibTree)
    requires WellShaped(l) && WellShaped(r)
    requires ParensCount(Fmt(l).value, WrappedCount(l)) && ParensCount(Fmt(r).value, WrappedCount(r))
    ensures ParensCount(Fmt(Implicit(l, r)).value, WrappedCount(Implicit(l, r)))
  {
    FmtImplicit(l, r);
    ParensOfPair(Fmt(l).value, Fmt(r).value);
  }

  lemma ParensOfFmtUnary(operand: LibTree, op: LibToken)
    requires WellShaped(operand) && '(' !in op.text && ')' !in op.text
    requires ParensCount(Fmt(operand).value, WrappedCount(operand))
    ensures ParensCount(Fmt(Unary(operand, op)).value, WrappedCount(Unary(operand, op)))
  {
    FmtUnary(operand, op);
    assert multiset(op.text)['('] == 0 && multiset(op.text)[')'] == 0;
    ParensOfSpaced(op.text, Fmt(operand).value);
  }

  /** The rendering holds one `(` and one `)` per binary or implicit node and
      none for a unary node. */
  lemma {:induction false} ParenthesesPerJoin(n: LibTree)
    requires WellShaped(n) && ParenFree(n)
    ensures ParensCount(Fmt(n).value, WrappedCount(n))
  {
    match n
    case Node(Some(l), Some(op), Some(r)) =>
      ParenthesesPerJoin(l);
      ParenthesesPerJoin(r);
      ParensOfFmtBinary(l, op, r);
    case Node(Some(l), None, Some(r)) =>
      ParenthesesPerJoin(l);
      ParenthesesPerJoin(r);
      ParensOfFmtImplicit(l, r);
    case Node(Some(l), Some(op), None) =>
      ParenthesesPerJoin(l);
      ParensOfFmtUnary(l, op);
    case Node(None, Some(op), None) =>
  }

  /** Without parentheses around unary nodes the rendering is ambiguous:
      `(-a) + b` and `(-a) (+b)`, an addition and an implicit
      multiplication, render alike. */
  lemma UnaryRenderingAmbiguous(a: LibToken, minus: LibToken, plus: LibToken, b: LibToken)
    requires a.text == "a" && b.text == "b" && minus.text == "-" && plus.text == "+"
    ensures Binary(Unary(Leaf(a), minus), plus, Leaf(b)) != Implicit(Unary(Leaf(a), minus), Unary(Leaf(b), plus))
    ensures Fmt(Binary(Unary(Leaf(a), minus), plus, Leaf(b))) == Ok("(- a + b)")
    ensures Fmt(Implicit(Unary(Leaf(a), minus), Unary(Leaf(b), plus))) == Ok("(- a + b)")
  {
    FmtUnary(Leaf(a), minus);
    FmtUnary(Leaf(b), plus);
    assert Fmt(Unary(Leaf(a), minus)).value == "- a";
    assert Fmt(Unary(Leaf(b), plus)).value == "+ b";
    FmtBinary(Unary(Leaf(a), minus), plus, Leaf(b));
    FmtImplicit(Unary(Leaf(a), minus), Unary(Leaf(b), plus));
    assert "(" + ("- a" + " " + "+" + " " + "b") + ")" == "(- a + b)";
    assert "(" + ("- a" + " " + "+ b") + ")" == "(- a + b)";
  }

  // ----- evaluation -----

  /** Panic of `PyObject::from_owned_ptr` when the number protocol call
      failed and returned a null pointer. */
  const ApiCallFailed := "Python API call failed"

  /** `Token::binary`'s dispatch: like `src/eval_tree.rs` but without a
      `"^"` arm, so `^` reaches `panic!("unknown binary op")`. */
  function BinaryOf(text: string): (r: Option<BinaryOp>)
    ensures r == Some(Power) <==> text == "**"
    ensures r == Some(Multiply) <==> text == "*" || text == ""
    ensures r == Some(TrueDivide) <==> text == "/"
    ensures r == Some(Add) <==> text == "+"
    ensures r == Some(Subtract) <==> text == "-"
    ensures r.None? <==> text !in {"**", "*", "", "/", "+", "-"}
  {
    match text
    case "**" => Some(Power)
    case "*" | "" => Some(Multiply)
    case "/" => Some(TrueDivide)
    case "+" => Some(Add)
    case "-" => Some(Subtract)
    case _ => None
  }

  /** `Token::unary`'s dispatch. */
  function UnaryOf(text: string): (r: Option<UnaryOp>)
    ensures r.Some? <==> text == "+" || text == "-"
    ensures r == Some(Positive) <==> text == "+"
    ensures r == Some(Negative) <==> text == "-"
  {
    match text
    case "+" => Some(Positive)
    case "-" => Some(Negative)
    case _ => None
  }

  /** A number protocol result through `from_owned_ptr`: a raised Python
      error becomes a panic. */
  function FromOwned<V>(call: Result<V>): (r: Result<V>)
    ensures r.Ok? <==> call.Ok?
    ensures r.Ok? ==> r == call
    ensures r.Err? ==> r == Err(Panicked(ApiCallFailed))
  {
    match call
    case Ok(v) => Ok(v)
    case Err(_) => Err(Panicked(ApiCallFailed))
  }

  /** `evaluate` of this file: the same arms as `src/eval_tree.rs`, but the
      leaf callback receives the token's `original`. */
  function Evaluate<V>(n: LibTree, leaf: PyToken -> Result<V>, arith: Arithmetic<V>): (r: Result<V>)
    ensures n.operator.None? ==> r == Err(Raised("unable to evaluate tree"))
    ensures n.left.None? && n.operator.Some? ==> r == leaf(n.operator.value.original)
  {
    match n
    case Node(Some(l), Some(op), Some(r)) =>
      var a :- Evaluate(l, leaf, arith);
      var b :- Evaluate(r, leaf, arith);
      (match BinaryOf(op.text)
       case None => Err(Panicked("unknown binary op"))
       case Some(f) => FromOwned(arith.binary(f, a, b)))
    case Node(Some(l), Some(op), _) =>
      var a :- Evaluate(l, leaf, arith);
      (match UnaryOf(op.text)
       case None => Err(Panicked("unknown unary op"))
       case Some(f) => FromOwned(arith.unary(f, a)))
    case Node(_, Some(op), _) =>
      leaf(op.original)
    case _ =>
      Err(Raised("unable to evaluate tree"))
  }

  /** A binary node evaluates its left operand first, then its right one;
      the first failure is the result. With both values it applies the
      operation its text dispatches to through `from_owned_ptr`, or panics
      on an unknown text. */
  lemma EvaluateBinary<V>(l: LibTree, op: LibToken, r: LibTree, leaf: PyToken -> Result<V>, arith: Arithmetic<V>)
    ensures Evaluate(l, leaf, arith).Err? ==> Evaluate(Binary(l, op, r), leaf, arith) == Evaluate(l, leaf, arith)
    ensures Evaluate(l, leaf, arith).Ok? && Evaluate(r, leaf, arith).Err?
        ==> Evaluate(Binary(l, op, r), leaf, arith) == Evaluate(r, leaf, arith)
    ensures Evaluate(l, leaf, arith).Ok? && Evaluate(r, leaf, arith).Ok? && BinaryOf(op.text).Some?
        ==> Evaluate(Binary(l, op, r), leaf, arith)
            == FromOwned(arith.binary(BinaryOf(op.text).value, Evaluate(l, leaf, arith).value, Evaluate(r, leaf, arith).value))
    ensures Evaluate(l, leaf, arith).Ok? && Evaluate(r, leaf, arith).Ok? && BinaryOf(op.text).None?
        ==> Evaluate(Binary(l, op, r), leaf, arith) == Err(Panicked("unknown binary op"))
  {
  }

  /** A unary node evaluates its operand, then applies the operation its
      text dispatches to through `from_owned_ptr`, or panics on an unknown
      text. */
  lemma EvaluateUnary<V>(l: LibTree, op: LibToken, leaf: PyToken -> Result<V>, arith: Arithmetic<V>)
    ensures Evaluate(l, leaf, arith).Err? ==> Evaluate(Unary(l, op), leaf, arith) == Evaluate(l, leaf, arith)
    ensures Evaluate(l, leaf, arith).Ok? && op.text == "+"
        ==> Evaluate(Unary(l, op), leaf, arith) == FromOwned(arith.unary(Positive, Evaluate(l, leaf, arith).value))
    ensures Evaluate(l, leaf, arith).Ok? && op.text == "-"
        ==> Evaluate(Unary(l, op), leaf, arith) == FromOwned(arith.unary(Negative, Evaluate(l, leaf, arith).value))
    ensures Evaluate(l, leaf, arith).Ok? && UnaryOf(op.text).None?
        ==> Evaluate(Unary(l, op), leaf, arith) == Err(Panicked("unknown unary op"))
  {
  }

  // ----- the two evaluations side by side -----

  /** The token of `src/eval_tree.rs` with the same category and spelling. */
  function EraseToken(t: LibToken): TokenInfo {
    Token(t.typeId, t.text, ())
  }

  /** The same tree over the tokens of `src/eval_tree.rs`. */
  function Erase(n: LibTree): (e: EvalTree.Tree)
    ensures WellShaped(e) <==> WellShaped(n)
  {
    Node(if n.left.Some? then Some(Erase(n.left.value)) else None,
         if n.operator.Some? then Some(EraseToken(n.operator.value)) else None,
         if n.right.Some? then Some(Erase(n.right.value)) else None)
  }

  /** The two leaf callbacks give the same value for every token of `n`. */
  ghost predicate LeavesAgree<V>(n: LibTree, leaf: PyToken -> Result<V>, leafInfo: TokenInfo -> Result<V>) {
    (n.operator.Some? ==> leaf(n.operator.value.original) == leafInfo(EraseToken(n.operator.value)))
    && (n.left.Some? ==> LeavesAgree(n.left.value, leaf, leafInfo))
    && (n.right.Some? ==> LeavesAgree(n.right.value, leaf, leafInfo))
  }

  /** No binary node of `n` is spelt `^`. */
  predicate NoCaretNode(n: LibTree) {
    (n.left.Some? && n.operator.Some? && n.right.Some? ==> n.operator.value.text != "^")
    && (n.left.Some? ==> NoCaretNode(n.left.value))
    && (n.right.Some? ==> NoCaretNode(n.right.value))
  }

  /** Away from `^`, the two copies evaluate alike: one succeeds exactly
      when the other does, with the same value. When the arithmetic never
      raises, the results are equal, failures included; otherwise a raised
      arithmetic error is a panic here and an exception there. */
  lemma {:induction false} EvaluationsAgree<V(!new)>(n: LibTree, leaf: PyToken -> Result<V>, leafInfo: TokenInfo -> Result<V>,
                                                   arith: Arithmetic<V>)
    requires NoCaretNode(n) && LeavesAgree(n, leaf, leafInfo)
    ensures Evaluate(n, leaf, arith).Ok? <==> EvalTree.Evaluate(Erase(n), leafInfo, arith).Ok?
    ensures Evaluate(n, leaf, arith).Ok? ==> Evaluate(n, leaf, arith).value == EvalTree.Evaluate(Erase(n), leafInfo, arith).value
    ensures NeverFails(arith) ==> Evaluate(n, leaf, arith) == EvalTree.Evaluate(Erase(n), leafInfo, arith)
  {
    match n
    case Node(Some(l), Some(op), Some(r)) =>
      EvaluationsAgree(l, leaf, leafInfo, arith);
      EvaluationsAgree(r, leaf, leafInfo, arith);
      assert BinaryOf(op.text) == EvalTree.BinaryOf(op.text);
    case Node(Some(l), Some(op), None) =>
      EvaluationsAgree(l, leaf, leafInfo, arith);
      assert UnaryOf(op.text) == EvalTree.UnaryOf(op.text);
    case Node(_, _, _) =>
  }

  // ----- parsing -----

  /** `parse_tokens` of this file: the loop of `src/eval_tree.rs` with the
      strict stop test for operators and `result.unwrap()` when the tokens
      run out. */
  method ParseTokens(tokens: seq<LibToken>, start: nat, depth: nat, prevOp: Option<string>)
    returns (r: Result<ParseStep<PyToken>>)
    ensures r == Parse(Original, tokens, start, depth, prevOp)
    decreases |tokens| - start
  {
    var prevOpPriority := match prevOp case Some(op) => OpPriority(op) case None => -1;
    var result: Option<LibTree> := None;
    var index: int := start;
    while index < |tokens|
      invariant LoopState(tokens, start, index, result)
      invariant Scan(Original, tokens, start, depth, prevOp, index, result) == Parse(Original, tokens, start, depth, prevOp)
      decreases |tokens| - index
    {
      var token := tokens[index];
      match token.typeId {
        case OP =>
          if token.text == ")" {
            if prevOp.None? {
              return Err(Raised("unopened parenthesis"));
            }
            if result.None? {
              return Err(Panicked(UnwrapNone));
            }
            if prevOp.value == "(" {
              return Ok(ParseStep(result.value, index));
            }
            return Ok(ParseStep(result.value, index - 1));
          } else if token.text == "(" {
            var call := ParseTokens(tokens, index + 1, 0, Some(token.text));
            if call.Err? {
              return Err(call.failure);
            }
            var step := call.value;
            if step.index >= |tokens| {
              return Err(Panicked(IndexOutOfBounds));
            }
            if tokens[step.index].text != ")" {
              return Err(Raised("weird exit from parenthesis"));
            }
            index := step.index;
            if result.Some? {
              result := Some(Implicit(result.value, step.right));
            } else {
              result := Some(step.right);
            }
          } else {
            var opPriority := OpPriority(token.text);
            if result.Some? {
              if opPriority < prevOpPriority && token.text != "**" && token.text != "^" {
                return Ok(ParseStep(result.value, index - 1));
              }
              var call := ParseTokens(tokens, index + 1, depth + 1, Some(token.text));
              if call.Err? {
                return Err(call.failure);
              }
              var step := call.value;
              result := Some(Binary(result.value, token, step.right));
              index := step.index;
            } else {
              var call := ParseTokens(tokens, index + 1, depth + 1, Some("unary"));
              if call.Err? {
                return Err(call.failure);
              }
              var step := call.value;
              result := Some(Unary(step.right, token));
              index := step.index;
            }
          }
        case NUMBER | NAME =>
          if result.Some? {
            if OpPriority("") <= prevOpPriority {
              return Ok(ParseStep(result.value, index - 1));
            }
            var call := ParseTokens(tokens, index, depth + 1, Some(""));
            if call.Err? {
              return Err(call.failure);
            }
            var step := call.value;
            result := Some(Implicit(result.value, step.right));
            index := step.index;
          } else {
            result := Some(Leaf(token));
          }
        case ENDMARKER =>
          if prevOp == Some("(") {
            return Err(Raised("unclosed parenthesis"));
          }
          if result.None? {
            return Err(Panicked(UnwrapNone));
          }
          if prevOp.Some? || depth > 0 {
            return Ok(ParseStep(result.value, index));
          }
          return Ok(ParseStep(result.value, 0));
        case IGNORE =>
      }
      index := index + 1;
    }
    if result.None? {
      return Err(Panicked(UnwrapNone));
    }
    return Ok(ParseStep(result.value, index));
  }

  /** The tokens `build_eval_tree` builds from the Python tuples. */
  function ToTokens(pyTokens: seq<PyToken>): (tokens: seq<LibToken>)
    ensures |tokens| == |pyTokens|
    ensures forall i :: 0 <= i < |pyTokens| ==>
      tokens[i].typeId == FromCode(pyTokens[i].code) && tokens[i].text == pyTokens[i].text && tokens[i].original == pyTokens[i]
  {
    seq(|pyTokens|, i requires 0 <= i < |pyTokens| => Token(FromCode(pyTokens[i].code), pyTokens[i].text, pyTokens[i]))
  }

  /** `build_eval_tree`: converts every tuple in order, then parses from
      index 0 at depth 0 with no enclosing operator and keeps the subtree,
      which has one of the four shapes. */
  method BuildEvalTree(pyTokens: seq<PyToken>) returns (r: Result<LibTree>)
    ensures r == ParseTopLevel(Original, ToTokens(pyTokens))
    ensures r.Ok? ==> WellShaped(r.value)
  {
    var tokens: seq<LibToken> := [];
    for i := 0 to |pyTokens|
      invariant tokens == ToTokens(pyTokens[..i])
    {
      var pyToken := pyTokens[i];
      // `try_from`'s `?` never propagates: every code converts.
      var typeId := TryFromCode(pyToken.code).value;
      tokens := tokens + [Token(typeId, pyToken.text, pyToken)];
    }
    assert pyTokens[..|pyTokens|] == pyTokens;
    var step :- ParseTokens(tokens, 0, 0, None);
    return Ok(step.right);
  }
}
