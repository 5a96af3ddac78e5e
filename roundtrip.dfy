/** Reparsing the canonical form. The rendering of `src/eval_tree.rs` wraps
    every node but a leaf in one pair of parentheses; read back as tokens,
    that is the sequence `Canonical` builds: `( l op r )`, `( l r )`,
    `( op l )`, or the leaf's own token. Both copies of `parse_tokens`
    parse that sequence, followed by the end marker, back into the tree it
    came from. */
module RoundTrip {
  import opened Common
  import opened Tokenizer
  import opened Parsing

  /** The two parenthesis tokens the canonical form is written with. */
  predicate Delimiters<O>(open: Token<O>, close: Token<O>) {
    open.typeId == OP && open.text == "(" && close.typeId == OP && close.text == ")"
  }

  /** The tokens the rendering of a well-shaped node spells. */
  function Canonical<O>(n: Node<O>, open: Token<O>, close: Token<O>): (ts: seq<Token<O>>)
    requires WellShaped(n)
    ensures IsLeaf(n) ==> ts == [n.operator.value]
    ensures !IsLeaf(n) ==> |ts| >= 3 && ts[0] == open && ts[|ts| - 1] == close
  {
    match n
    case Node(Some(l), Some(op), Some(r)) => [open] + Canonical(l, open, close) + [op] + Canonical(r, open, close) + [close]
    case Node(Some(l), None, Some(r)) => [open] + Canonical(l, open, close) + Canonical(r, open, close) + [close]
    case Node(Some(l), Some(op), None) => [open, op] + Canonical(l, open, close) + [close]
    case Node(None, Some(op), None) => [op]
  }

  /** `xs` occurs in `ts` from index `i` on. */
  ghost predicate At<O>(ts: seq<Token<O>>, i: int, xs: seq<Token<O>>) {
    0 <= i && i + |xs| <= |ts| && forall k :: 0 <= k < |xs| ==> ts[i + k] == xs[k]
  }

  lemma AtSplit<O>(ts: seq<Token<O>>, i: int, xs: seq<Token<O>>, ys: seq<Token<O>>)
    requires At(ts, i, xs + ys)
    ensures At(ts, i, xs) && At(ts, i + |xs|, ys)
  {
    forall k | 0 <= k < |xs| ensures ts[i + k] == xs[k] {
      assert (xs + ys)[k] == xs[k];
    }
    forall k | 0 <= k < |ys| ensures ts[i + |xs| + k] == ys[k] {
      assert (xs + ys)[|xs| + k] == ys[k];
    }
  }

  lemma AtFive<O>(ts: seq<Token<O>>, i: int, a: seq<Token<O>>, b: seq<Token<O>>, c: seq<Token<O>>,
                  d: seq<Token<O>>, e: seq<Token<O>>)
    requires At(ts, i, a + b + c + d + e)
    ensures At(ts, i + |a|, b) && At(ts, i + |a| + |b|, c) && At(ts, i + |a| + |b| + |c|, d)
    ensures At(ts, i + |a| + |b| + |c| + |d|, e)
  {
    AtSplit(ts, i, a + b + c + d, e);
    AtSplit(ts, i, a + b + c, d);
    AtSplit(ts, i, a + b, c);
    AtSplit(ts, i, a, b);
  }

  lemma AtToken<O>(ts: seq<Token<O>>, i: int, x: Token<O>)
    requires At(ts, i, [x])
    ensures i < |ts| && ts[i] == x
  {
    assert ts[i + 0] == [x][0];
  }

  /** Reading one canonical operand `u` from index `i` in the loop: the
      loop continues after it with `u` juxtaposed to what it held. (A leaf
      read with a result already held starts an implicit multiplication
      instead, which `GroupBody` handles.) */
  lemma {:induction false} ReadOperand<O>(v: Version, ts: seq<Token<O>>, start: nat, depth: nat, prevOp: Option<string>,
                                          i: int, acc: Option<Node<O>>, u: Node<O>, open: Token<O>, close: Token<O>)
    requires Delimiters(open, close) && Formed(u) && At(ts, i, Canonical(u, open, close))
    requires LoopState(ts, start, i, acc) && (acc.None? || !IsLeaf(u))
    ensures Scan(v, ts, start, depth, prevOp, i, acc)
         == Scan(v, ts, start, depth, prevOp, i + |Canonical(u, open, close)|, Some(Juxtapose(acc, u)))
    decreases u, 1, 0
  {
    var c := Canonical(u, open, close);
    if IsLeaf(u) {
      AtToken(ts, i, u.operator.value);
      LeafStep(v, ts, start, depth, prevOp, i);
    } else {
      assert ts[i + 0] == c[0] && ts[i + (|c| - 1)] == c[|c| - 1];
      GroupBody(v, ts, i, u, open, close);
      GroupStep(v, ts, start, depth, prevOp, i, acc, ParseStep(u, i + |c| - 1));
    }
  }

  /** The first operand a `(` call reads, into an empty result. */
  lemma {:induction false} ReadFirstOperand<O>(v: Version, ts: seq<Token<O>>, s: nat, u: Node<O>, open: Token<O>, close: Token<O>)
    requires Delimiters(open, close) && Formed(u) && At(ts, s, Canonical(u, open, close))
    ensures Scan(v, ts, s, 0, Some("("), s, None) == Scan(v, ts, s, 0, Some("("), s + |Canonical(u, open, close)|, Some(u))
    decreases u, 1, 1
  {
    ReadOperand(v, ts, s, 0, Some("("), s, None, u, open, close);
  }

  // ----- what a formed node says about its parts -----

  lemma FormedBinary<O>(l: Node<O>, op: Token<O>, r: Node<O>)
    requires Formed(Binary(l, op, r))
    ensures Formed(l) && Formed(r) && Operator(op)
  {
    PriorityLevels(op.text);
  }

  lemma FormedImplicit<O>(l: Node<O>, r: Node<O>)
    requires Formed(Implicit(l, r))
    ensures Formed(l) && Formed(r)
  {
  }

  lemma FormedUnary<O>(l: Node<O>, op: Token<O>)
    requires Formed(Unary(l, op))
    ensures Formed(l) && Operator(op)
  {
    PriorityLevels(op.text);
  }

  // ----- where the parts of a canonical group sit -----

  lemma AtInfixGroup<O>(ts: seq<Token<O>>, i: int, open: Token<O>, a: seq<Token<O>>, op: Token<O>,
                        b: seq<Token<O>>, close: Token<O>)
    requires At(ts, i, [open] + a + [op] + b + [close])
    ensures At(ts, i + 1, a) && i + 1 + |a| < |ts| && ts[i + 1 + |a|] == op
    ensures At(ts, i + 2 + |a|, b) && i + 2 + |a| + |b| < |ts| && ts[i + 2 + |a| + |b|] == close
  {
    AtFive(ts, i, [open], a, [op], b, [close]);
    AtToken(ts, i + 1 + |a|, op);
    AtToken(ts, i + 2 + |a| + |b|, close);
  }

  lemma LayoutBinary<O>(ts: seq<Token<O>>, i: int, l: Node<O>, op: Token<O>, r: Node<O>, open: Token<O>, close: Token<O>)
    requires WellShaped(Binary(l, op, r)) && At(ts, i, Canonical(Binary(l, op, r), open, close))
    ensures var cl, cr := Canonical(l, open, close), Canonical(r, open, close);
      |Canonical(Binary(l, op, r), open, close)| == |cl| + |cr| + 3
      && At(ts, i + 1, cl) && i + 1 + |cl| < |ts| && ts[i + 1 + |cl|] == op
      && At(ts, i + 2 + |cl|, cr) && i + 2 + |cl| + |cr| < |ts| && ts[i + 2 + |cl| + |cr|] == close
  {
    var cl, cr := Canonical(l, open, close), Canonical(r, open, close);
    assert Canonical(Binary(l, op, r), open, close) == [open] + cl + [op] + cr + [close];
    AtInfixGroup(ts, i, open, cl, op, cr, close);
  }

  lemma LayoutImplicit<O>(ts: seq<Token<O>>, i: int, l: Node<O>, r: Node<O>, open: Token<O>, close: Token<O>)
    requires WellShaped(Implicit(l, r)) && At(ts, i, Canonical(Implicit(l, r), open, close))
    ensures var cl, cr := Canonical(l, open, close), Canonical(r, open, close);
      |Canonical(Implicit(l, r), open, close)| == |cl| + |cr| + 2
      && At(ts, i + 1, cl) && At(ts, i + 1 + |cl|, cr)
      && i + 1 + |cl| + |cr| < |ts| && ts[i + 1 + |cl| + |cr|] == close
  {
    var cl, cr := Canonical(l, open, close), Canonical(r, open, close);
    assert Canonical(Implicit(l, r), open, close) == [open] + cl + cr + [close];
    AtSplit(ts, i, [open] + cl + cr, [close]);
    AtSplit(ts, i, [open] + cl, cr);
    AtSplit(ts, i, [open], cl);
    AtToken(ts, i + 1 + |cl| + |cr|, close);
  }

  lemma LayoutUnary<O>(ts: seq<Token<O>>, i: int, l: Node<O>, op: Token<O>, open: Token<O>, close: Token<O>)
    requires WellShaped(Unary(l, op)) && At(ts, i, Canonical(Unary(l, op), open, close))
    ensures var cl := Canonical(l, open, close);
      |Canonical(Unary(l, op), open, close)| == |cl| + 3
      && i + 1 < |ts| && ts[i + 1] == op && At(ts, i + 2, cl)
      && i + 2 + |cl| < |ts| && ts[i + 2 + |cl|] == close
  {
    var cl := Canonical(l, open, close);
    assert Canonical(Unary(l, op), open, close) == [open] + [op] + cl + [close];
    AtSplit(ts, i, [open] + [op] + cl, [close]);
    AtSplit(ts, i, [open] + [op], cl);
    AtSplit(ts, i, [open], [op]);
    AtToken(ts, i + 1, op);
    AtToken(ts, i + 2 + |cl|, close);
  }

  // ----- the loop steps a group body takes, over abstract positions -----

  /** `l op r )` read by the call a `(` made. */
  lemma ChainBinary<O>(v: Version, ts: seq<Token<O>>, s: nat, l: Node<O>, op: Token<O>, r: Node<O>, jl: int, jr: int)
    requires s < jl < jr < |ts| && ts[jl] == op && Operator(op)
    requires Scan(v, ts, s, 0, Some("("), s, None) == Scan(v, ts, s, 0, Some("("), jl, Some(l))
    requires Parse(v, ts, jl + 1, 1, Some(op.text)) == Ok(ParseStep(r, jr - 1))
    requires ts[jr].typeId == OP && ts[jr].text == ")"
    ensures Parse(v, ts, s, 0, Some("(")) == Ok(ParseStep(Binary(l, op, r), jr))
  {
    StartStep(v, ts, s, 0, Some("("));
    BinaryStep(v, ts, s, 0, Some("("), jl, l, ParseStep(r, jr - 1));
    CloseStep(v, ts, s, 0, Some("("), jr, Binary(l, op, r));
  }

  /** `l r )` with a leaf `r`, read by the call a `(` made. */
  lemma ChainImplicitLeaf<O>(v: Version, ts: seq<Token<O>>, s: nat, l: Node<O>, r: Node<O>, jl: int, jr: int)
    requires s < jl < jr < |ts| && Operand(ts[jl])
    requires Scan(v, ts, s, 0, Some("("), s, None) == Scan(v, ts, s, 0, Some("("), jl, Some(l))
    requires Parse(v, ts, jl, 1, Some("")) == Ok(ParseStep(r, jr - 1))
    requires ts[jr].typeId == OP && ts[jr].text == ")"
    ensures Parse(v, ts, s, 0, Some("(")) == Ok(ParseStep(Implicit(l, r), jr))
  {
    StartStep(v, ts, s, 0, Some("("));
    ImplicitStep(v, ts, s, 0, Some("("), jl, l, ParseStep(r, jr - 1));
    CloseStep(v, ts, s, 0, Some("("), jr, Implicit(l, r));
  }

  /** `l r )` with a parenthesised `r`, read by the call a `(` made. */
  lemma ChainImplicitGroup<O>(v: Version, ts: seq<Token<O>>, s: nat, l: Node<O>, r: Node<O>, jl: int, jr: int)
    requires s < jl < jr < |ts|
    requires Scan(v, ts, s, 0, Some("("), s, None) == Scan(v, ts, s, 0, Some("("), jl, Some(l))
    requires Scan(v, ts, s, 0, Some("("), jl, Some(l)) == Scan(v, ts, s, 0, Some("("), jr, Some(Implicit(l, r)))
    requires ts[jr].typeId == OP && ts[jr].text == ")"
    ensures Parse(v, ts, s, 0, Some("(")) == Ok(ParseStep(Implicit(l, r), jr))
  {
    StartStep(v, ts, s, 0, Some("("));
    CloseStep(v, ts, s, 0, Some("("), jr, Implicit(l, r));
  }

  /** `op l )` read by the call a `(` made. */
  lemma ChainUnary<O>(v: Version, ts: seq<Token<O>>, s: nat, l: Node<O>, op: Token<O>, jr: int)
    requires s < jr < |ts| && ts[s] == op && Operator(op)
    requires Parse(v, ts, s + 1, 1, Some("unary")) == Ok(ParseStep(l, jr - 1))
    requires ts[jr].typeId == OP && ts[jr].text == ")"
    ensures Parse(v, ts, s, 0, Some("(")) == Ok(ParseStep(Unary(l, op), jr))
  {
    StartStep(v, ts, s, 0, Some("("));
    UnaryStep(v, ts, s, 0, Some("("), s, ParseStep(l, jr - 1));
    CloseStep(v, ts, s, 0, Some("("), jr, Unary(l, op));
  }

  /** The call a `(` at index `i` makes parses the group's body and stops
      on its `)`. */
  lemma {:induction false} GroupBody<O>(v: Version, ts: seq<Token<O>>, i: int, u: Node<O>, open: Token<O>, close: Token<O>)
    requires Delimiters(open, close) && Formed(u) && !IsLeaf(u) && At(ts, i, Canonical(u, open, close))
    ensures Parse(v, ts, i + 1, 0, Some("(")) == Ok(ParseStep(u, i + |Canonical(u, open, close)| - 1))
    decreases u, 0, 2
  {
    match u
    case Node(Some(l), Some(op), Some(r)) => BinaryGroup(v, ts, i, l, op, r, open, close);
    case Node(Some(l), None, Some(r)) => ImplicitGroup(v, ts, i, l, r, open, close);
    case Node(Some(l), Some(op), None) => UnaryGroup(v, ts, i, l, op, open, close);
  }

  lemma {:induction false} BinaryGroup<O>(v: Version, ts: seq<Token<O>>, i: int, l: Node<O>, op: Token<O>, r: Node<O>,
                                          open: Token<O>, close: Token<O>)
    requires Delimiters(open, close) && Formed(Binary(l, op, r)) && At(ts, i, Canonical(Binary(l, op, r), open, close))
    ensures Parse(v, ts, i + 1, 0, Some("(")) == Ok(ParseStep(Binary(l, op, r), i + |Canonical(Binary(l, op, r), open, close)| - 1))
    decreases Binary(l, op, r), 0, 1
  {
    FormedBinary(l, op, r);
    LayoutBinary(ts, i, l, op, r, open, close);
    var jl := i + 1 + |Canonical(l, open, close)|;
    BinaryBody(v, ts, i + 1, l, op, r, open, close, jl, jl + 1 + |Canonical(r, open, close)|);
  }

  lemma {:induction false} ImplicitGroup<O>(v: Version, ts: seq<Token<O>>, i: int, l: Node<O>, r: Node<O>,
                                            open: Token<O>, close: Token<O>)
    requires Delimiters(open, close) && Formed(Implicit(l, r)) && At(ts, i, Canonical(Implicit(l, r), open, close))
    ensures Parse(v, ts, i + 1, 0, Some("(")) == Ok(ParseStep(Implicit(l, r), i + |Canonical(Implicit(l, r), open, close)| - 1))
    decreases Implicit(l, r), 0, 1
  {
    FormedImplicit(l, r);
    LayoutImplicit(ts, i, l, r, open, close);
    var jl := i + 1 + |Canonical(l, open, close)|;
    ImplicitBody(v, ts, i + 1, l, r, open, close, jl, jl + |Canonical(r, open, close)|);
  }

  lemma {:induction false} UnaryGroup<O>(v: Version, ts: seq<Token<O>>, i: int, l: Node<O>, op: Token<O>,
                                         open: Token<O>, close: Token<O>)
    requires Delimiters(open, close) && Formed(Unary(l, op)) && At(ts, i, Canonical(Unary(l, op), open, close))
    ensures Parse(v, ts, i + 1, 0, Some("(")) == Ok(ParseStep(Unary(l, op), i + |Canonical(Unary(l, op), open, close)| - 1))
    decreases Unary(l, op), 0, 1
  {
    FormedUnary(l, op);
    LayoutUnary(ts, i, l, op, open, close);
    UnaryBody(v, ts, i + 1, l, op, open, close, i + 2 + |Canonical(l, open, close)|);
  }

  /** `l op r )` from index `s`, read by the call a `(` made. */
  lemma {:induction false} BinaryBody<O>(v: Version, ts: seq<Token<O>>, s: nat, l: Node<O>, op: Token<O>, r: Node<O>,
                                         open: Token<O>, close: Token<O>, jl: int, jr: int)
    requires Delimiters(open, close) && Formed(l) && Formed(r) && Operator(op)
    requires jl == s + |Canonical(l, open, close)| && jr == jl + 1 + |Canonical(r, open, close)|
    requires At(ts, s, Canonical(l, open, close)) && jl < |ts| && ts[jl] == op
    requires At(ts, jl + 1, Canonical(r, open, close)) && jr < |ts| && ts[jr] == close
    ensures Parse(v, ts, s, 0, Some("(")) == Ok(ParseStep(Binary(l, op, r), jr))
    decreases Binary(l, op, r), 0, 0
  {
    ReadFirstOperand(v, ts, s, l, open, close);
    OperandCall(v, ts, jl + 1, 1, Some(op.text), r, open, close);
    ChainBinary(v, ts, s, l, op, r, jl, jr);
  }

  /** `l r )` from index `s`, read by the call a `(` made. */
  lemma {:induction false} ImplicitBody<O>(v: Version, ts: seq<Token<O>>, s: nat, l: Node<O>, r: Node<O>,
                                           open: Token<O>, close: Token<O>, jl: int, jr: int)
    requires Delimiters(open, close) && Formed(l) && Formed(r)
    requires jl == s + |Canonical(l, open, close)| && jr == jl + |Canonical(r, open, close)|
    requires At(ts, s, Canonical(l, open, close)) && At(ts, jl, Canonical(r, open, close))
    requires jr < |ts| && ts[jr] == close
    ensures Parse(v, ts, s, 0, Some("(")) == Ok(ParseStep(Implicit(l, r), jr))
    decreases Implicit(l, r), 0, 0
  {
    ReadOperand(v, ts, s, 0, Some("("), s, None, l, open, close);
    if IsLeaf(r) {
      AtToken(ts, jl, r.operator.value);
      OperandCall(v, ts, jl, 1, Some(""), r, open, close);
      ChainImplicitLeaf(v, ts, s, l, r, jl, jr);
    } else {
      ReadOperand(v, ts, s, 0, Some("("), jl, Some(l), r, open, close);
      ChainImplicitGroup(v, ts, s, l, r, jl, jr);
    }
  }

  /** `op l )` from index `s`, read by the call a `(` made. */
  lemma {:induction false} UnaryBody<O>(v: Version, ts: seq<Token<O>>, s: nat, l: Node<O>, op: Token<O>,
                                        open: Token<O>, close: Token<O>, jr: int)
    requires Delimiters(open, close) && Formed(l) && Operator(op)
    requires jr == s + 1 + |Canonical(l, open, close)|
    requires s < |ts| && ts[s] == op && At(ts, s + 1, Canonical(l, open, close)) && jr < |ts| && ts[jr] == close
    ensures Parse(v, ts, s, 0, Some("(")) == Ok(ParseStep(Unary(l, op), jr))
    decreases Unary(l, op), 0, 0
  {
    OperandCall(v, ts, s + 1, 1, Some("unary"), l, open, close);
    ChainUnary(v, ts, s, l, op, jr);
  }

  /** The call an operator makes for its operand (or the unary prefix, or
      an implicit multiplication for a leaf) reads one canonical operand
      and hands back the `)` that follows it. */
  lemma {:induction false} OperandCall<O>(v: Version, ts: seq<Token<O>>, s: nat, depth: nat, prevOp: Option<string>,
                                          u: Node<O>, open: Token<O>, close: Token<O>)
    requires Delimiters(open, close) && Formed(u) && At(ts, s, Canonical(u, open, close))
    requires s + |Canonical(u, open, close)| < |ts| && ts[s + |Canonical(u, open, close)|] == close
    requires prevOp.Some? && prevOp != Some("(")
    ensures Parse(v, ts, s, depth, prevOp) == Ok(ParseStep(u, s + |Canonical(u, open, close)| - 1))
    decreases u, 2, 0
  {
    StartStep(v, ts, s, depth, prevOp);
    ReadOperand(v, ts, s, depth, prevOp, s, None, u, open, close);
    CloseStep(v, ts, s, depth, prevOp, s + |Canonical(u, open, close)|, u);
  }

  /** The round trip: the canonical tokens of a formed tree, followed by
      the end marker, parse back into that tree, in both copies. */
  lemma Reparse<O>(v: Version, t: Node<O>, open: Token<O>, close: Token<O>, end: Token<O>)
    requires Delimiters(open, close) && Formed(t) && end.typeId == ENDMARKER
    ensures ParseTopLevel(v, Canonical(t, open, close) + [end]) == Ok(t)
  {
    var c := Canonical(t, open, close);
    var ts := c + [end];
    assert ts[0..|c|] == c;
    assert ts[|c|] == end;
    StartStep(v, ts, 0, 0, None);
    ReadOperand(v, ts, 0, 0, None, 0, None, t, open, close);
    EndStep(v, ts, 0, 0, None, |c|, t);
  }
}

/** The text the refactored `Display` writes is the canonical tokens of
    the tree, laid out with single spaces, none after `(` and none before
    `)`; those tokens parse back to the tree. Whether a lexer reads the
    text back as the same tokens is not stated here (a NAME holding a
    space would not be). The tokenizer of `src/tokenizer.rs` never delivers
    `(` or `)` (`Tokenizer.OperatorSpellings`), so the parenthesis paths
    of the parser are reached only by tokens built elsewhere. */
module Spelling {
  import opened Common
  import opened Tokenizer
  import opened Parsing
  import opened RoundTrip
  import EvalTree

  /** The space between two adjacent tokens of a rendering. */
  function Gap<O>(x: Token<O>, y: Token<O>): string {
    if x.text == "(" || y.text == ")" then "" else " "
  }

  /** The token texts in order, separated as `Gap` says. */
  function Spell<O>(ts: seq<Token<O>>): string {
    if |ts| == 0 then ""
    else if |ts| == 1 then ts[0].text
    else ts[0].text + Gap(ts[0], ts[1]) + Spell(ts[1..])
  }

  lemma {:induction false} SpellConcat<O>(a: seq<Token<O>>, b: seq<Token<O>>)
    requires |a| > 0 && |b| > 0
    ensures Spell(a + b) == Spell(a) + Gap(a[|a| - 1], b[0]) + Spell(b)
    decreases |a|
  {
    if |a| == 1 {
      assert (a + b)[1..] == b;
    } else {
      assert (a + b)[1..] == a[1..] + b;
      SpellConcat(a[1..], b);
    }
  }

  /** The first and last tokens of a canonical sequence: a parenthesis of
      its own kind, or a leaf's token. */
  lemma CanonicalEnds<O>(n: Node<O>, open: Token<O>, close: Token<O>)
    requires Delimiters(open, close) && WellShaped(n) && ParenFree(n)
    ensures var c := Canonical(n, open, close); c[0].text != ")" && c[|c| - 1].text != "("
  {
  }

  lemma SpellOpened<O>(open: Token<O>, mid: seq<Token<O>>)
    requires open.text == "(" && |mid| > 0
    ensures Spell([open] + mid) == "(" + Spell(mid)
  {
    SpellConcat([open], mid);
  }

  lemma SpellClosed<O>(front: seq<Token<O>>, close: Token<O>)
    requires close.text == ")" && |front| > 0
    ensures Spell(front + [close]) == Spell(front) + ")"
  {
    SpellConcat(front, [close]);
  }

  lemma SpellSpaced<O>(a: seq<Token<O>>, b: seq<Token<O>>)
    requires |a| > 0 && |b| > 0 && a[|a| - 1].text != "(" && b[0].text != ")"
    ensures Spell(a + b) == Spell(a) + " " + Spell(b)
  {
    SpellConcat(a, b);
  }

  lemma RegroupInfix(a: string, op: string, b: string)
    ensures "(" + a + " " + op + " " + b + ")" == "(" + (a + " " + op + " " + b) + ")"
  {
  }

  lemma RegroupPair(a: string, b: string)
    ensures "(" + a + " " + b + ")" == "(" + (a + " " + b) + ")"
  {
  }

  lemma RegroupPrefix(op: string, a: string)
    ensures "(" + op + " " + a + ")" == "(" + (op + " " + a) + ")"
  {
  }

  /** The spelling of `( a op b )`, `( a b )` and `( op a )` laid out from
      the spellings of the parts. */
  lemma SpellInfixGroup<O>(open: Token<O>, a: seq<Token<O>>, op: Token<O>, b: seq<Token<O>>, close: Token<O>)
    requires open.text == "(" && close.text == ")" && op.text != "(" && op.text != ")"
    requires |a| > 0 && |b| > 0 && a[|a| - 1].text != "(" && b[0].text != ")"
    ensures Spell([open] + a + [op] + b + [close]) == "(" + (Spell(a) + " " + op.text + " " + Spell(b)) + ")"
  {
    var p1 := [open] + a;
    SpellOpened(open, a);
    assert p1[|p1| - 1] == a[|a| - 1];
    var p2 := p1 + [op];
    SpellSpaced(p1, [op]);
    assert p2[|p2| - 1] == op;
    var p3 := p2 + b;
    SpellSpaced(p2, b);
    SpellClosed(p3, close);
    RegroupInfix(Spell(a), op.text, Spell(b));
  }

  lemma SpellPairGroup<O>(open: Token<O>, a: seq<Token<O>>, b: seq<Token<O>>, close: Token<O>)
    requires open.text == "(" && close.text == ")"
    requires |a| > 0 && |b| > 0 && a[|a| - 1].text != "(" && b[0].text != ")"
    ensures Spell([open] + a + b + [close]) == "(" + (Spell(a) + " " + Spell(b)) + ")"
  {
    var p1 := [open] + a;
    SpellOpened(open, a);
    assert p1[|p1| - 1] == a[|a| - 1];
    var p2 := p1 + b;
    SpellSpaced(p1, b);
    SpellClosed(p2, close);
    RegroupPair(Spell(a), Spell(b));
  }

  lemma SpellOpenedToken<O>(open: Token<O>, op: Token<O>)
    requires open.text == "("
    ensures Spell([open, op]) == "(" + op.text
  {
    assert [open, op][1..] == [op];
  }

  lemma RegroupPrefixSpelt(whole: string, front: string, op: string, a: string)
    requires whole == front + " " + a + ")" && front == "(" + op
    ensures whole == "(" + (op + " " + a) + ")"
  {
    RegroupPrefix(op, a);
  }

  lemma SpellPrefixGroup<O>(open: Token<O>, op: Token<O>, a: seq<Token<O>>, close: Token<O>)
    requires open.text == "(" && close.text == ")" && op.text != "("
    requires |a| > 0 && a[0].text != ")"
    ensures Spell([open, op] + a + [close]) == "(" + (op.text + " " + Spell(a)) + ")"
  {
    var p1 := [open, op];
    SpellOpenedToken(open, op);
    var p2 := p1 + a;
    SpellSpaced(p1, a);
    SpellClosed(p2, close);
    RegroupPrefixSpelt(Spell(p2 + [close]), Spell(p1), op.text, Spell(a));
  }

  /** `to_string` of a well-shaped tree spells its canonical tokens. */
  lemma {:induction false} RenderSpellsCanonical(n: EvalTree.Tree, open: TokenInfo, close: TokenInfo)
    requires Delimiters(open, close) && WellShaped(n) && ParenFree(n)
    ensures EvalTree.Render(n) == Ok(Spell(Canonical(n, open, close)))
  {
    match n
    case Node(Some(l), Some(op), Some(r)) =>
      RenderSpellsCanonical(l, open, close);
      RenderSpellsCanonical(r, open, close);
      EvalTree.RenderBinary(l, op, r);
      CanonicalEnds(l, open, close);
      CanonicalEnds(r, open, close);
      assert ')' in ")" && '(' in "(";
      SpellInfixGroup(open, Canonical(l, open, close), op, Canonical(r, open, close), close);
    case Node(Some(l), None, Some(r)) =>
      RenderSpellsCanonical(l, open, close);
      RenderSpellsCanonical(r, open, close);
      EvalTree.RenderImplicit(l, r);
      CanonicalEnds(l, open, close);
      CanonicalEnds(r, open, close);
      SpellPairGroup(open, Canonical(l, open, close), Canonical(r, open, close), close);
    case Node(Some(l), Some(op), None) =>
      RenderSpellsCanonical(l, open, close);
      EvalTree.RenderUnary(l, op);
      CanonicalEnds(l, open, close);
      assert '(' in "(";
      SpellPrefixGroup(open, op, Canonical(l, open, close), close);
    case Node(None, Some(op), None) =>
  }

  /** Rendering, then reading back: a formed tree without parentheses in
      its token texts renders as the spelling of a token sequence that both
      copies of `parse_tokens` parse back into the same tree. */
  lemma RenderThenParse(v: Version, t: EvalTree.Tree, open: TokenInfo, close: TokenInfo, end: TokenInfo)
    requires Delimiters(open, close) && Formed(t) && ParenFree(t) && end.typeId == ENDMARKER
    ensures exists ts :: EvalTree.Render(t) == Ok(Spell(ts)) && ParseTopLevel(v, ts + [end]) == Ok(t)
  {
    RenderSpellsCanonical(t, open, close);
    Reparse(v, t, open, close, end);
    var ts := Canonical(t, open, close);
    assert EvalTree.Render(t) == Ok(Spell(ts)) && ParseTopLevel(v, ts + [end]) == Ok(t);
  }
}
