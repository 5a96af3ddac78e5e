/** Discrepancies between the two copies, and within one copy between two
    of its parts: each as the code has it, beside the behaviour evidently
    intended. */
module Findings {
  import opened Common
  import opened Tokenizer
  import opened Numbers
  import opened Parsing
  import opened RoundTrip
  import opened Scenarios
  import EvalTree
  import Lib

  /** The value of a NUMBER token spelling a decimal integer, as a Python
      callback reading integer literals would give it. */
  function IntLeaf(tok: TokenInfo): (r: Result<int>)
    ensures IsDecimal(tok.text) <==> r.Ok?
    ensures r.Ok? ==> r.value == DecimalValue(tok.text)
  {
    if IsDecimal(tok.text) then Ok(DecimalValue(tok.text)) else Err(Raised("not an integer literal"))
  }

  /** Integer subtraction, as CPython's number protocol performs it on `int`. */
  ghost predicate SubtractsIntegers(arith: Arithmetic<int>) {
    forall a: int, b: int :: arith.binary(Subtract, a, b) == Ok(a - b)
  }

  function Number(n: int): TokenInfo { Token(NUMBER, DecimalText(n), ()) }

  function Op(text: string): TokenInfo { Token(OP, text, ()) }

  const End: TokenInfo := Token(ENDMARKER, "", ())

  /** The same tokens as `src/lib.rs` receives them, each carrying the
      Python tuple it came from. */
  function PyNumber(n: int): Lib.LibToken {
    Token(NUMBER, DecimalText(n), Lib.PyToken(Discriminant(NUMBER), DecimalText(n)))
  }

  function PyOp(text: string): Lib.LibToken { Token(OP, text, Lib.PyToken(Discriminant(OP), text)) }

  const PyEnd: Lib.LibToken := Token(ENDMARKER, "", Lib.PyToken(Discriminant(ENDMARKER), ""))

  /** `IntLeaf` on the tuple `src/lib.rs` hands to the leaf callback. */
  function PyIntLeaf(tok: Lib.PyToken): (r: Result<int>)
    ensures IsDecimal(tok.text) <==> r.Ok?
    ensures r.Ok? ==> r.value == DecimalValue(tok.text)
  {
    IntLeaf(Token(NUMBER, tok.text, ()))
  }

  // ----- `1 - 2 - 3`: the original copy's strict priority check -----

  /** With `<` as its stop check, the original copy parses `1 - 2 - 3` as
      `1 - (2 - 3)`, which its `evaluate` takes to 2; the refactored copy's
      `<=` parses it as `(1 - 2) - 3`, which its `evaluate` takes to -4,
      Python's own value. */
  lemma SubtractionChain(arith: Arithmetic<int>)
    requires SubtractsIntegers(arith)
    ensures var ts := [PyNumber(1), PyOp("-"), PyNumber(2), PyOp("-"), PyNumber(3), PyEnd];
      && ParseTopLevel(Original, ts).Ok?
      && Lib.Evaluate(ParseTopLevel(Original, ts).value, PyIntLeaf, arith) == Ok(2)
    ensures var ts := [Number(1), Op("-"), Number(2), Op("-"), Number(3), End];
      && ParseTopLevel(Refactored, ts).Ok?
      && EvalTree.Evaluate(ParseTopLevel(Refactored, ts).value, IntLeaf, arith) == Ok(-4)
  {
    DecimalRoundTrip(1);
    DecimalRoundTrip(2);
    DecimalRoundTrip(3);
    PriorityLevels("-");
    EqualPriorityGrouping(PyNumber(1), PyOp("-"), PyNumber(2), PyOp("-"), PyNumber(3), PyEnd);
    EqualPriorityGrouping(Number(1), Op("-"), Number(2), Op("-"), Number(3), End);
    assert Lib.BinaryOf("-") == Some(Subtract);
    var inner := Lib.Evaluate(Binary(Leaf(PyNumber(2)), PyOp("-"), Leaf(PyNumber(3))), PyIntLeaf, arith);
    assert inner == Ok(-1);
    assert EvalTree.BinaryOf("-") == Some(Subtract);
    var left := EvalTree.Evaluate(Binary(Leaf(Number(1)), Op("-"), Leaf(Number(2))), IntLeaf, arith);
    assert left == Ok(-1);
  }

  // ----- `^`: parsed by both copies, evaluated by one -----

  /** The original copy parses `^` as a power (priority 3) but its
      `Token::binary` has no arm for it: once both operands evaluate, the
      node panics with "unknown binary op". */
  lemma CaretPanics<V>(l: Lib.LibTree, op: Lib.LibToken, r: Lib.LibTree, leaf: Lib.PyToken -> Result<V>, arith: Arithmetic<V>)
    requires op.text == "^"
    requires Lib.Evaluate(l, leaf, arith).Ok? && Lib.Evaluate(r, leaf, arith).Ok?
    ensures OpPriority(op.text) == 3
    ensures Lib.Evaluate(Binary(l, op, r), leaf, arith) == Err(Panicked("unknown binary op"))
  {
  }

  /** The refactored copy evaluates `^` as a power, like `**`. */
  lemma CaretIsPower<V>(l: EvalTree.Tree, op: TokenInfo, r: EvalTree.Tree, leaf: TokenInfo -> Result<V>, arith: Arithmetic<V>)
    requires op.text == "^"
    requires EvalTree.Evaluate(l, leaf, arith).Ok? && EvalTree.Evaluate(r, leaf, arith).Ok?
    ensures EvalTree.Evaluate(Binary(l, op, r), leaf, arith)
         == arith.binary(Power, EvalTree.Evaluate(l, leaf, arith).value, EvalTree.Evaluate(r, leaf, arith).value)
  {
  }

  // ----- implicit multiplication -----

  /** Evaluation with implicit multiplication: an operator-less node
      multiplies its operands, as the `""` arm of `binary` in
      `src/eval_tree.rs` would if `evaluate` reached it. Every other node
      is evaluated as `evaluate` does. */
  function EvaluateImplicit<V>(n: EvalTree.Tree, leaf: TokenInfo -> Result<V>, arith: Arithmetic<V>): (r: Result<V>)
    ensures IsLeaf(n) ==> r == leaf(n.operator.value)
  {
    match n
    case Node(Some(l), None, Some(r)) =>
      var a :- EvaluateImplicit(l, leaf, arith);
      var b :- EvaluateImplicit(r, leaf, arith);
      arith.binary(Multiply, a, b)
    case Node(Some(l), Some(op), Some(r)) =>
      var a :- EvaluateImplicit(l, leaf, arith);
      var b :- EvaluateImplicit(r, leaf, arith);
      (match EvalTree.BinaryOf(op.text)
       case None => Err(Panicked("unknown binary op"))
       case Some(f) => arith.binary(f, a, b))
    case Node(Some(l), Some(op), _) =>
      var a :- EvaluateImplicit(l, leaf, arith);
      (match EvalTree.UnaryOf(op.text)
       case None => Err(Panicked("unknown unary op"))
       case Some(f) => arith.unary(f, a))
    case Node(_, Some(op), _) =>
      leaf(op)
    case _ =>
      Err(Raised("unable to evaluate tree"))
  }

  /** On trees without implicit multiplication the corrected evaluation is
      `evaluate` itself. */
  lemma {:induction false} EvaluateImplicitAgrees<V>(n: EvalTree.Tree, leaf: TokenInfo -> Result<V>, arith: Arithmetic<V>)
    requires !EvalTree.HasImplicit(n)
    ensures EvaluateImplicit(n, leaf, arith) == EvalTree.Evaluate(n, leaf, arith)
  {
    match n
    case Node(Some(l), Some(op), Some(r)) =>
      EvaluateImplicitAgrees(l, leaf, arith);
      EvaluateImplicitAgrees(r, leaf, arith);
    case Node(Some(l), Some(op), None) =>
      EvaluateImplicitAgrees(l, leaf, arith);
    case Node(None, Some(op), _) =>
    case Node(_, None, _) =>
  }

  /** The corrected evaluation succeeds on every well-shaped tree with
      dispatchable operators, implicit multiplication included, when the
      leaves resolve and the arithmetic never raises. */
  lemma {:induction false} ImplicitEvaluates<V(!new)>(n: EvalTree.Tree, leaf: TokenInfo -> Result<V>, arith: Arithmetic<V>)
    requires WellShaped(n) && EvalTree.Dispatchable(n)
    requires forall tok :: leaf(tok).Ok?
    requires NeverFails(arith)
    ensures EvaluateImplicit(n, leaf, arith).Ok?
  {
    match n
    case Node(Some(l), None, Some(r)) =>
      ImplicitEvaluates(l, leaf, arith);
      ImplicitEvaluates(r, leaf, arith);
    case Node(Some(l), Some(op), Some(r)) =>
      ImplicitEvaluates(l, leaf, arith);
      ImplicitEvaluates(r, leaf, arith);
    case Node(Some(l), Some(op), None) =>
      ImplicitEvaluates(l, leaf, arith);
    case Node(None, Some(op), None) =>
  }

  /** `2 x` with x bound to 3: both copies parse it, neither evaluates it;
      the corrected evaluation gives 6. */
  lemma TwoX(v: Version, arith: Arithmetic<int>)
    requires forall a: int, b: int :: arith.binary(Multiply, a, b) == Ok(a * b)
    ensures var ts := [Number(2), Token(NAME, "x", ()), End];
      && ParseTopLevel(v, ts) == Ok(Implicit(Leaf(Number(2)), Leaf(Token(NAME, "x", ()))))
      && EvalTree.Evaluate(ParseTopLevel(v, ts).value, XIsThree, arith).Err?
      && EvaluateImplicit(ParseTopLevel(v, ts).value, XIsThree, arith) == Ok(6)
  {
    var ts := [Number(2), Token(NAME, "x", ()), End];
    DecimalRoundTrip(2);
    ImplicitPair(v, Number(2), Token(NAME, "x", ()), End);
  }

  /** Leaves of the `TwoX` example: integer literals, and the name `x`
      bound to 3. */
  function XIsThree(tok: TokenInfo): (r: Result<int>)
    ensures tok.text == "x" ==> r == Ok(3)
    ensures IsDecimal(tok.text) ==> r == Ok(DecimalValue(tok.text))
  {
    if tok.text == "x" then Ok(3) else IntLeaf(tok)
  }

  // ----- `(- 2 ** 2)`: the original copy's rendering of a unary node -----

  /** The original `Display` writes a unary node without parentheses, so
      the node `(-2) ** 2` renders as `(- 2 ** 2)`; read back as tokens,
      that text is `-(2 ** 2)`, a different tree (with value -4, not 4). */
  lemma UnaryRenderingReparses(v: Version, open: Lib.LibToken, minus: Lib.LibToken, two: Lib.LibToken, pow: Lib.LibToken,
                                close: Lib.LibToken, end: Lib.LibToken)
    requires Delimiters(open, close) && end.typeId == ENDMARKER
    requires minus.typeId == OP && minus.text == "-" && pow.typeId == OP && pow.text == "**"
    requires two.typeId == NUMBER && two.text == "2"
    ensures Lib.Fmt(Binary(Unary(Leaf(two), minus), pow, Leaf(two))) == Ok("(- 2 ** 2)")
    ensures ParseTopLevel(v, [open, minus, two, pow, two, close, end]) == Ok(Unary(Binary(Leaf(two), pow, Leaf(two)), minus))
    ensures Unary(Binary(Leaf(two), pow, Leaf(two)), minus) != Binary(Unary(Leaf(two), minus), pow, Leaf(two))
  {
    Lib.FmtUnary(Leaf(two), minus);
    assert "-" + " " + "2" == "- 2";
    assert Lib.Fmt(Unary(Leaf(two), minus)) == Ok("- 2");
    Lib.FmtBinary(Unary(Leaf(two), minus), pow, Leaf(two));
    assert "(" + ("- 2" + " " + "**" + " " + "2") + ")" == "(- 2 ** 2)";
    PriorityLevels("-");
    PriorityLevels("**");
    GroupedUnaryPower(v, open, minus, two, pow, two, close, end);
  }

  /** The refactored `Display` parenthesises the unary node: `(-2) ** 2`
      renders as `((- 2) ** 2)`, whose tokens parse back into the same
      tree. */
  lemma UnaryRenderingRoundTrips(v: Version, open: TokenInfo, minus: TokenInfo, two: TokenInfo, pow: TokenInfo,
                                 close: TokenInfo, end: TokenInfo)
    requires Delimiters(open, close) && end.typeId == ENDMARKER
    requires minus.typeId == OP && minus.text == "-" && pow.typeId == OP && pow.text == "**"
    requires two.typeId == NUMBER && two.text == "2"
    ensures EvalTree.Render(Binary(Unary(Leaf(two), minus), pow, Leaf(two))) == Ok("((- 2) ** 2)")
    ensures Canonical(Binary(Unary(Leaf(two), minus), pow, Leaf(two)), open, close) == [open, open, minus, two, close, pow, two, close]
    ensures ParseTopLevel(v, [open, open, minus, two, close, pow, two, close, end]) == Ok(Binary(Unary(Leaf(two), minus), pow, Leaf(two)))
  {
    var t := Binary(Unary(Leaf(two), minus), pow, Leaf(two));
    EvalTree.RenderUnary(Leaf(two), minus);
    assert "(" + ("-" + " " + "2") + ")" == "(- 2)";
    EvalTree.RenderBinary(Unary(Leaf(two), minus), pow, Leaf(two));
    assert "(" + ("(- 2)" + " " + "**" + " " + "2") + ")" == "((- 2) ** 2)";
    PriorityLevels("-");
    PriorityLevels("**");
    assert Formed(Leaf(two)) && Formed(Unary(Leaf(two), minus));
    assert Formed(t);
    Reparse(v, t, open, close, end);
    assert Canonical(t, open, close) + [end] == [open, open, minus, two, close, pow, two, close, end];
  }
}
