/** How both copies of `parse_tokens` group short token sequences: operator
    chains, unary operators, implicit multiplication, parentheses and the
    error exits. */
module Scenarios {
  import opened Common
  import opened Tokenizer
  import opened Parsing

  /** `a op1 b op2 c` followed by the end marker: the second operator either
      yields to the first, giving `((a op1 b) op2 c)`, or is taken into the
      first operator's right operand, giving `(a op1 (b op2 c))`. It yields
      when its priority is below the first's (`Original`) or at most the
      first's (`Refactored`), and never when it is a power. */
  lemma ChainGrouping<O>(v: Version, a: Token<O>, op1: Token<O>, b: Token<O>, op2: Token<O>, c: Token<O>, end: Token<O>)
    requires Operand(a) && Operand(b) && Operand(c) && Operator(op1) && Operator(op2) && end.typeId == ENDMARKER
    ensures ParseTopLevel(v, [a, op1, b, op2, c, end])
         == if OperatorYields(v, OpPriority(op2.text), OpPriority(op1.text)) && !IsPower(op2.text)
            then Ok(Binary(Binary(Leaf(a), op1, Leaf(b)), op2, Leaf(c)))
            else Ok(Binary(Leaf(a), op1, Binary(Leaf(b), op2, Leaf(c))))
  {
    var t := [a, op1, b, op2, c, end];
    var stops := OperatorYields(v, OpPriority(op2.text), OpPriority(op1.text)) && !IsPower(op2.text);
    StartStep(v, t, 0, 0, None);
    LeafStep(v, t, 0, 0, None, 0);
    StartStep(v, t, 2, 1, Some(op1.text));
    LeafStep(v, t, 2, 1, Some(op1.text), 2);
    if stops {
      StopStep(v, t, 2, 1, Some(op1.text), 3, Leaf(b));
      BinaryStep(v, t, 0, 0, None, 1, Leaf(a), ParseStep(Leaf(b), 2));
      StartStep(v, t, 4, 1, Some(op2.text));
      LeafStep(v, t, 4, 1, Some(op2.text), 4);
      EndStep(v, t, 4, 1, Some(op2.text), 5, Leaf(c));
      BinaryStep(v, t, 0, 0, None, 3, Binary(Leaf(a), op1, Leaf(b)), ParseStep(Leaf(c), 5));
      ExhaustedStep(v, t, 0, 0, None, 6, Binary(Binary(Leaf(a), op1, Leaf(b)), op2, Leaf(c)));
    } else {
      StartStep(v, t, 4, 2, Some(op2.text));
      LeafStep(v, t, 4, 2, Some(op2.text), 4);
      EndStep(v, t, 4, 2, Some(op2.text), 5, Leaf(c));
      BinaryStep(v, t, 2, 1, Some(op1.text), 3, Leaf(b), ParseStep(Leaf(c), 5));
      ExhaustedStep(v, t, 2, 1, Some(op1.text), 6, Binary(Leaf(b), op2, Leaf(c)));
      BinaryStep(v, t, 0, 0, None, 1, Leaf(a), ParseStep(Binary(Leaf(b), op2, Leaf(c)), 6));
      ExhaustedStep(v, t, 0, 0, None, 7, Binary(Leaf(a), op1, Binary(Leaf(b), op2, Leaf(c))));
    }
  }

  /** Equal-priority operators other than powers: the refactored copy
      groups them to the left, `((a - b) - c)`; the original one to the
      right, `(a - (b - c))`. */
  lemma EqualPriorityGrouping<O>(a: Token<O>, op1: Token<O>, b: Token<O>, op2: Token<O>, c: Token<O>, end: Token<O>)
    requires Operand(a) && Operand(b) && Operand(c) && Operator(op1) && Operator(op2) && end.typeId == ENDMARKER
    requires OpPriority(op1.text) == OpPriority(op2.text) && !IsPower(op2.text)
    ensures ParseTopLevel(Refactored, [a, op1, b, op2, c, end]) == Ok(Binary(Binary(Leaf(a), op1, Leaf(b)), op2, Leaf(c)))
    ensures ParseTopLevel(Original, [a, op1, b, op2, c, end]) == Ok(Binary(Leaf(a), op1, Binary(Leaf(b), op2, Leaf(c))))
  {
    ChainGrouping(Refactored, a, op1, b, op2, c, end);
    ChainGrouping(Original, a, op1, b, op2, c, end);
  }

  /** A chain whose second operator binds less tightly groups to the left in
      both copies: `a * b + c` is `((a * b) + c)`; one whose second operator
      binds more tightly groups to the right in both: `a + b * c` is
      `(a + (b * c))`. */
  lemma PriorityGrouping<O>(v: Version, a: Token<O>, op1: Token<O>, b: Token<O>, op2: Token<O>, c: Token<O>, end: Token<O>)
    requires Operand(a) && Operand(b) && Operand(c) && Operator(op1) && Operator(op2) && end.typeId == ENDMARKER
    requires OpPriority(op1.text) != OpPriority(op2.text)
    ensures OpPriority(op1.text) > OpPriority(op2.text)
        ==> ParseTopLevel(v, [a, op1, b, op2, c, end]) == Ok(Binary(Binary(Leaf(a), op1, Leaf(b)), op2, Leaf(c)))
    ensures OpPriority(op1.text) < OpPriority(op2.text)
        ==> ParseTopLevel(v, [a, op1, b, op2, c, end]) == Ok(Binary(Leaf(a), op1, Binary(Leaf(b), op2, Leaf(c))))
  {
    ChainGrouping(v, a, op1, b, op2, c, end);
    if OpPriority(op2.text) == 3 {
      PriorityLevels(op2.text);
    }
  }

  /** Powers always recurse, in both copies: `a ** b ** c` is
      `(a ** (b ** c))`. */
  lemma PowerGroupsRight<O>(v: Version, a: Token<O>, op1: Token<O>, b: Token<O>, op2: Token<O>, c: Token<O>, end: Token<O>)
    requires Operand(a) && Operand(b) && Operand(c) && Operator(op1) && Operator(op2) && end.typeId == ENDMARKER
    requires IsPower(op2.text)
    ensures ParseTopLevel(v, [a, op1, b, op2, c, end]) == Ok(Binary(Leaf(a), op1, Binary(Leaf(b), op2, Leaf(c))))
  {
    ChainGrouping(v, a, op1, b, op2, c, end);
  }

  /** A leading operator is unary and takes a power as its operand:
      `- a ** b` is `(- (a ** b))`, in both copies. */
  lemma UnaryBelowPower<O>(v: Version, minus: Token<O>, a: Token<O>, pow: Token<O>, b: Token<O>, end: Token<O>)
    requires Operator(minus) && Operand(a) && Operator(pow) && IsPower(pow.text) && Operand(b) && end.typeId == ENDMARKER
    ensures ParseTopLevel(v, [minus, a, pow, b, end]) == Ok(Unary(Binary(Leaf(a), pow, Leaf(b)), minus))
  {
    var t := [minus, a, pow, b, end];
    StartStep(v, t, 3, 2, Some(pow.text));
    LeafStep(v, t, 3, 2, Some(pow.text), 3);
    EndStep(v, t, 3, 2, Some(pow.text), 4, Leaf(b));
    StartStep(v, t, 1, 1, Some("unary"));
    LeafStep(v, t, 1, 1, Some("unary"), 1);
    BinaryStep(v, t, 1, 1, Some("unary"), 2, Leaf(a), ParseStep(Leaf(b), 4));
    ExhaustedStep(v, t, 1, 1, Some("unary"), 5, Binary(Leaf(a), pow, Leaf(b)));
    StartStep(v, t, 0, 0, None);
    UnaryStep(v, t, 0, 0, None, 0, ParseStep(Binary(Leaf(a), pow, Leaf(b)), 5));
    ExhaustedStep(v, t, 0, 0, None, 6, Unary(Binary(Leaf(a), pow, Leaf(b)), minus));
  }

  /** Juxtaposed operands multiply before an addition: `a x + b` is
      `((a x) + b)`, in both copies. */
  lemma ImplicitBeforeAddition<O>(v: Version, a: Token<O>, x: Token<O>, plus: Token<O>, b: Token<O>, end: Token<O>)
    requires Operand(a) && Operand(x) && Operator(plus) && OpPriority(plus.text) == 0 && Operand(b) && end.typeId == ENDMARKER
    ensures ParseTopLevel(v, [a, x, plus, b, end]) == Ok(Binary(Implicit(Leaf(a), Leaf(x)), plus, Leaf(b)))
  {
    var t := [a, x, plus, b, end];
    StartStep(v, t, 0, 0, None);
    LeafStep(v, t, 0, 0, None, 0);
    StartStep(v, t, 1, 1, Some(""));
    LeafStep(v, t, 1, 1, Some(""), 1);
    StopStep(v, t, 1, 1, Some(""), 2, Leaf(x));
    ImplicitStep(v, t, 0, 0, None, 1, Leaf(a), ParseStep(Leaf(x), 1));
    StartStep(v, t, 3, 1, Some(plus.text));
    LeafStep(v, t, 3, 1, Some(plus.text), 3);
    EndStep(v, t, 3, 1, Some(plus.text), 4, Leaf(b));
    BinaryStep(v, t, 0, 0, None, 2, Implicit(Leaf(a), Leaf(x)), ParseStep(Leaf(b), 4));
    ExhaustedStep(v, t, 0, 0, None, 5, Binary(Implicit(Leaf(a), Leaf(x)), plus, Leaf(b)));
  }

  /** An operand after a product stops the product's operand call (the
      enclosing priority 1 is not below that of implicit multiplication),
      so `a * b c` is `((a * b) c)`, in both copies. */
  lemma ImplicitAfterProduct<O>(v: Version, a: Token<O>, times: Token<O>, b: Token<O>, c: Token<O>, end: Token<O>)
    requires Operand(a) && Operator(times) && OpPriority(times.text) == 1 && Operand(b) && Operand(c) && end.typeId == ENDMARKER
    ensures ParseTopLevel(v, [a, times, b, c, end]) == Ok(Implicit(Binary(Leaf(a), times, Leaf(b)), Leaf(c)))
  {
    var t := [a, times, b, c, end];
    var product := Binary(Leaf(a), times, Leaf(b));
    StartStep(v, t, 0, 0, None);
    LeafStep(v, t, 0, 0, None, 0);
    StartStep(v, t, 2, 1, Some(times.text));
    LeafStep(v, t, 2, 1, Some(times.text), 2);
    OperandStopStep(v, t, 2, 1, Some(times.text), 3, Leaf(b));
    BinaryStep(v, t, 0, 0, None, 1, Leaf(a), ParseStep(Leaf(b), 2));
    StartStep(v, t, 3, 1, Some(""));
    LeafStep(v, t, 3, 1, Some(""), 3);
    EndStep(v, t, 3, 1, Some(""), 4, Leaf(c));
    ImplicitStep(v, t, 0, 0, None, 3, product, ParseStep(Leaf(c), 4));
    ExhaustedStep(v, t, 0, 0, None, 5, Implicit(product, Leaf(c)));
  }

  /** Two juxtaposed operands: `a x` is the implicit multiplication
      `(a x)`, in both copies. */
  lemma ImplicitPair<O>(v: Version, a: Token<O>, x: Token<O>, end: Token<O>)
    requires Operand(a) && Operand(x) && end.typeId == ENDMARKER
    ensures ParseTopLevel(v, [a, x, end]) == Ok(Implicit(Leaf(a), Leaf(x)))
  {
    var t := [a, x, end];
    StartStep(v, t, 0, 0, None);
    LeafStep(v, t, 0, 0, None, 0);
    StartStep(v, t, 1, 1, Some(""));
    LeafStep(v, t, 1, 1, Some(""), 1);
    EndStep(v, t, 1, 1, Some(""), 2, Leaf(x));
    ImplicitStep(v, t, 0, 0, None, 1, Leaf(a), ParseStep(Leaf(x), 2));
    ExhaustedStep(v, t, 0, 0, None, 3, Implicit(Leaf(a), Leaf(x)));
  }

  /** A unary operator at the head of a group takes the power after it:
      `( - a ** b )` is `(- (a ** b))`, in both copies. */
  lemma GroupedUnaryPower<O>(v: Version, open: Token<O>, minus: Token<O>, a: Token<O>, pow: Token<O>, b: Token<O>,
                             close: Token<O>, end: Token<O>)
    requires open.typeId == OP && open.text == "(" && close.typeId == OP && close.text == ")"
    requires Operator(minus) && Operand(a) && Operator(pow) && IsPower(pow.text) && Operand(b) && end.typeId == ENDMARKER
    ensures ParseTopLevel(v, [open, minus, a, pow, b, close, end]) == Ok(Unary(Binary(Leaf(a), pow, Leaf(b)), minus))
  {
    var t := [open, minus, a, pow, b, close, end];
    var power := Binary(Leaf(a), pow, Leaf(b));
    StartStep(v, t, 4, 2, Some(pow.text));
    LeafStep(v, t, 4, 2, Some(pow.text), 4);
    CloseStep(v, t, 4, 2, Some(pow.text), 5, Leaf(b));
    StartStep(v, t, 2, 1, Some("unary"));
    LeafStep(v, t, 2, 1, Some("unary"), 2);
    BinaryStep(v, t, 2, 1, Some("unary"), 3, Leaf(a), ParseStep(Leaf(b), 4));
    CloseStep(v, t, 2, 1, Some("unary"), 5, power);
    StartStep(v, t, 1, 0, Some("("));
    UnaryStep(v, t, 1, 0, Some("("), 1, ParseStep(power, 4));
    CloseStep(v, t, 1, 0, Some("("), 5, Unary(power, minus));
    StartStep(v, t, 0, 0, None);
    GroupStep(v, t, 0, 0, None, 0, None, ParseStep(Unary(power, minus), 5));
    EndStep(v, t, 0, 0, None, 6, Unary(power, minus));
  }

  /** A parenthesised group is parsed on its own and then continued:
      `( a + b ) * c` is `((a + b) * c)`, in both copies. */
  lemma GroupThenOperator<O>(v: Version, open: Token<O>, a: Token<O>, plus: Token<O>, b: Token<O>, close: Token<O>,
                             times: Token<O>, c: Token<O>, end: Token<O>)
    requires open.typeId == OP && open.text == "(" && close.typeId == OP && close.text == ")"
    requires Operand(a) && Operator(plus) && Operand(b) && Operator(times) && Operand(c) && end.typeId == ENDMARKER
    ensures ParseTopLevel(v, [open, a, plus, b, close, times, c, end]) == Ok(Binary(Binary(Leaf(a), plus, Leaf(b)), times, Leaf(c)))
  {
    var t := [open, a, plus, b, close, times, c, end];
    StartStep(v, t, 3, 1, Some(plus.text));
    LeafStep(v, t, 3, 1, Some(plus.text), 3);
    CloseStep(v, t, 3, 1, Some(plus.text), 4, Leaf(b));
    StartStep(v, t, 1, 0, Some("("));
    LeafStep(v, t, 1, 0, Some("("), 1);
    BinaryStep(v, t, 1, 0, Some("("), 2, Leaf(a), ParseStep(Leaf(b), 3));
    CloseStep(v, t, 1, 0, Some("("), 4, Binary(Leaf(a), plus, Leaf(b)));
    StartStep(v, t, 0, 0, None);
    GroupStep(v, t, 0, 0, None, 0, None, ParseStep(Binary(Leaf(a), plus, Leaf(b)), 4));
    StartStep(v, t, 6, 1, Some(times.text));
    LeafStep(v, t, 6, 1, Some(times.text), 6);
    EndStep(v, t, 6, 1, Some(times.text), 7, Leaf(c));
    BinaryStep(v, t, 0, 0, None, 5, Binary(Leaf(a), plus, Leaf(b)), ParseStep(Leaf(c), 7));
    ExhaustedStep(v, t, 0, 0, None, 8, Binary(Binary(Leaf(a), plus, Leaf(b)), times, Leaf(c)));
  }

  /** A lone operand followed by the end marker: the outermost call reports
      index 0. */
  lemma SingleOperand<O>(v: Version, a: Token<O>, end: Token<O>)
    requires Operand(a) && end.typeId == ENDMARKER
    ensures Parse(v, [a, end], 0, 0, None) == Ok(ParseStep(Leaf(a), 0))
  {
    StartStep(v, [a, end], 0, 0, None);
    LeafStep(v, [a, end], 0, 0, None, 0);
    EndStep(v, [a, end], 0, 0, None, 1, Leaf(a));
  }

  // ----- error exits -----

  /** A `)` with no enclosing operator: "unopened parenthesis", whatever
      follows. */
  lemma UnopenedParenthesis<O>(v: Version, t: seq<Token<O>>)
    requires |t| > 0 && t[0].typeId == OP && t[0].text == ")"
    ensures ParseTopLevel(v, t) == Err(Raised("unopened parenthesis"))
  {
    StartStep(v, t, 0, 0, None);
  }

  /** The end marker directly inside a group: "unclosed parenthesis". */
  lemma UnclosedParenthesis<O>(v: Version, open: Token<O>, a: Token<O>, end: Token<O>)
    requires open.typeId == OP && open.text == "(" && Operand(a) && end.typeId == ENDMARKER
    ensures ParseTopLevel(v, [open, a, end]) == Err(Raised("unclosed parenthesis"))
  {
    var t := [open, a, end];
    StartStep(v, t, 1, 0, Some("("));
    LeafStep(v, t, 1, 0, Some("("), 1);
    StartStep(v, t, 0, 0, None);
  }

  /** An unclosed group whose end marker is consumed by a nested operand
      call: `( a + b` reads past the last token, an index out of bounds,
      rather than reporting "unclosed parenthesis". */
  lemma UnclosedAfterOperator<O>(v: Version, open: Token<O>, a: Token<O>, plus: Token<O>, b: Token<O>, end: Token<O>)
    requires open.typeId == OP && open.text == "(" && Operand(a) && Operator(plus) && Operand(b) && end.typeId == ENDMARKER
    ensures ParseTopLevel(v, [open, a, plus, b, end]) == Err(Panicked(IndexOutOfBounds))
  {
    var t := [open, a, plus, b, end];
    StartStep(v, t, 3, 1, Some(plus.text));
    LeafStep(v, t, 3, 1, Some(plus.text), 3);
    EndStep(v, t, 3, 1, Some(plus.text), 4, Leaf(b));
    StartStep(v, t, 1, 0, Some("("));
    LeafStep(v, t, 1, 0, Some("("), 1);
    BinaryStep(v, t, 1, 0, Some("("), 2, Leaf(a), ParseStep(Leaf(b), 4));
    ExhaustedStep(v, t, 1, 0, Some("("), 5, Binary(Leaf(a), plus, Leaf(b)));
    StartStep(v, t, 0, 0, None);
  }

  /** An empty group `( )`: the `)` unwraps an empty result, a panic. */
  lemma EmptyGroup<O>(v: Version, open: Token<O>, close: Token<O>, end: Token<O>)
    requires open.typeId == OP && open.text == "(" && close.typeId == OP && close.text == ")" && end.typeId == ENDMARKER
    ensures ParseTopLevel(v, [open, close, end]) == Err(Panicked(UnwrapNone))
  {
    var t := [open, close, end];
    StartStep(v, t, 1, 0, Some("("));
    StartStep(v, t, 0, 0, None);
  }

  /** An operator with no right operand before the end marker: the end
      marker unwraps an empty result, a panic. */
  lemma MissingOperand<O>(v: Version, a: Token<O>, plus: Token<O>, end: Token<O>)
    requires Operand(a) && Operator(plus) && end.typeId == ENDMARKER
    ensures ParseTopLevel(v, [a, plus, end]) == Err(Panicked(UnwrapNone))
  {
    var t := [a, plus, end];
    StartStep(v, t, 2, 1, Some(plus.text));
    StartStep(v, t, 0, 0, None);
    LeafStep(v, t, 0, 0, None, 0);
  }

  /** A group body that stops before its `)`: an unknown operator (priority
      -1) inside a group stops the refactored copy at equal priority, and
      the caller finds an operand where it expects `)`. */
  lemma WeirdExit<O>(open: Token<O>, a: Token<O>, comma: Token<O>, b: Token<O>, close: Token<O>, end: Token<O>)
    requires open.typeId == OP && open.text == "(" && Operand(a) && comma.typeId == OP && comma.text == ","
    requires Operand(b) && close.typeId == OP && close.text == ")" && end.typeId == ENDMARKER
    requires a.text != ")"
    ensures ParseTopLevel(Refactored, [open, a, comma, b, close, end]) == Err(Raised("weird exit from parenthesis"))
  {
    var t := [open, a, comma, b, close, end];
    StartStep(Refactored, t, 1, 0, Some("("));
    LeafStep(Refactored, t, 1, 0, Some("("), 1);
    assert OpPriority(",") == -1;
    StartStep(Refactored, t, 0, 0, None);
  }

  /** Tokens that run out with nothing parsed: "no result?" in the
      refactored copy, an `unwrap` panic in the original. */
  lemma NothingParsed<O>(t: seq<Token<O>>)
    requires forall i | 0 <= i < |t| :: t[i].typeId == IGNORE
    ensures ParseTopLevel(Refactored, t) == Err(Raised("no result?"))
    ensures ParseTopLevel(Original, t) == Err(Panicked(UnwrapNone))
  {
    SkipAllIgnored(Refactored, t, 0);
    SkipAllIgnored(Original, t, 0);
  }

  lemma {:induction false} SkipAllIgnored<O>(v: Version, t: seq<Token<O>>, index: nat)
    requires index <= |t|
    requires forall i | 0 <= i < |t| :: t[i].typeId == IGNORE
    ensures Scan(v, t, 0, 0, None, index, None)
         == if v == Refactored then Err(Raised("no result?")) else Err(Panicked(UnwrapNone))
    decreases |t| - index
  {
    if index < |t| {
      SkipAllIgnored(v, t, index + 1);
    }
  }
}
