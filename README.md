# quickpint evaluation trees, in Dafny

quickpint is a Python extension written in Rust. It turns a tokenised
arithmetic expression into an evaluation tree. The tree prints itself fully
parenthesised and evaluates itself through a Python callback for its leaves.
The crate holds two copies of the tree and its parser:

- `src/lib.rs`, the copy the Python module exports. Its `build_eval_tree`
  takes the tuples of Python's `tokenize` module.
- `src/eval_tree.rs`, a refactored copy over the `TokenInfo` tokens of
  `src/tokenizer.rs`.

This project models both copies, the token conversions of
`src/tokenizer.rs`, and the differences between the copies. It proves
properties of all of them.

- `common.dfy`: `Option`, `Result`, and the failure kinds. `Raised` is a
  Python exception. `Panicked` is a Rust panic: an `unwrap` of `None`, an
  out-of-bounds index, or `panic!`. `FormatError` is `fmt::Error`.
- `tokenizer.dfy`, module `Tokenizer`:
  - the token categories and their discriminants;
  - `From<i32>`, the truncating `u16` cast, `From<&Tok>` and `TryFrom<&Tok>`;
  - the decimal spelling of integer literals.
- `numbers.dfy`, module `Numbers`: the arithmetic operations the trees
  dispatch to. Python's number protocol is a parameter.
- `text.dfy`, module `Text`: `join(" ")` and parenthesis counting.
- `parsing.dfy`, module `Parsing`:
  - the tree nodes and `op_priority`;
  - `parse_tokens` as functions over a `Version`. `Original` is `lib.rs`
    and `Refactored` is `eval_tree.rs`. The two differ only in the stop
    test for an operator (`<` against `<=`) and in what happens when the
    tokens run out with nothing parsed;
  - one lemma per loop step;
  - the proof that the parser builds only the four node shapes.
- `eval_tree.dfy`, module `EvalTree`: `Display`/`to_string`, `binary`,
  `unary` and `evaluate` of `src/eval_tree.rs`. Its `parse_tokens` is an
  imperative method with the original loop, proved equal to the parsing
  functions.
- `lib.dfy`, module `Lib`: the same for `src/lib.rs`, plus
  `TryFrom<i32>` and `build_eval_tree`.
- `roundtrip.dfy`:
  - module `RoundTrip` builds the canonical token sequence of a tree. It
    proves that both parsers read those tokens back into the same tree.
  - module `Spelling` proves that the refactored `to_string` writes exactly
    those tokens, separated by spaces.
- `scenarios.dfy`, module `Scenarios`: how both parsers group small inputs,
  and their error exits.
- `findings.dfy`, module `Findings`: the discrepancies listed under
  "## Findings", each with its corrected counterpart.

Where a reader might expect otherwise, the model follows the code:

- An empty group `( )` panics on an `unwrap` of an empty result
  (`src/eval_tree.rs:176-180`). No error value is raised
  (`Scenarios.EmptyGroup`).
- `( a + b` followed by the end marker panics on an out-of-bounds index
  (`src/eval_tree.rs:194`). The nested operand call returns at the end
  marker, and the group then reads one token past it. The input is never
  reported as an unclosed parenthesis (`Scenarios.UnclosedAfterOperator`).
- An implicit multiplication (`2 x`) is parsed into an operator-less node
  (`src/eval_tree.rs:259-267`). `evaluate` has no arm for that node
  (`src/eval_tree.rs:86-93`), so it never reaches the `""` multiply arm of
  `binary` (`src/eval_tree.rs:112`) (`EvalTree.ImplicitNeverEvaluates`).

## Model

| member | source | states |
|---|---|---|
| Tokenizer.FromCode | src/tokenizer.rs:15-25 | A category other than IGNORE has the given code as its discriminant. The result is IGNORE exactly when the code is none of 54, 2, 1 and 0. |
| Tokenizer.ToU16 | src/tokenizer.rs:44-48 | The code fits in `u16`. It is the discriminant for the known categories; IGNORE's -1 wraps to 65535. |
| Tokenizer.CodeRoundTrip | src/tokenizer.rs:6-25 | Every category reads back from its discriminant, and from its `u16` code. |
| Tokenizer.TypeOfTok | src/tokenizer.rs:27-42 | OP exactly for the six arithmetic operators. NUMBER exactly for Int, Float and Complex. NAME exactly for names and `in`. ENDMARKER exactly at end of file. |
| Tokenizer.TokenInfoOf | src/tokenizer.rs:57-84 | Fails exactly for Complex, the parentheses and every unlisted token. Otherwise the token carries the category `From<&Tok>` gives, which is never IGNORE. Per variant: a name keeps its text (NAME), an integer is spelt in decimal and a float by its Python text (NUMBER), the six operators are `+ - * / ** ^` (OP), the end of file is `""` (ENDMARKER) and `in` is the NAME `in`. |
| Tokenizer.OperatorSpellings | src/tokenizer.rs:68-73 | Every OP token the conversion yields is one of `+ - * / ** ^`, so never a parenthesis. |
| Tokenizer.IntSpelling | src/tokenizer.rs:66 | An integer literal is spelt in decimal, and the spelling reads back as its value. |
| Tokenizer.DecimalRoundTrip | src/tokenizer.rs:66 | The decimal text of every integer is well formed and reads back as that integer. |
| Text.JoinWords | src/eval_tree.rs:59 | A single part joins to itself. |
| Parsing.OpPriority | src/lib.rs:148-156 | Every spelling has a priority between -1 and 3. |
| Parsing.PriorityLevels | src/eval_tree.rs:143-151 | Priority 3 exactly for `**` and `^`, 2 for `unary`, 1 for `*`, `""` and `/`, and 0 for `+` and `-`. Every other spelling gets -1. |
| Parsing.Parse | src/eval_tree.rs:153-315 | A call never resumes before its start index, except the outermost call, which reports 0 at the end marker. |
| Parsing.Scan | src/eval_tree.rs:169-314 | The same resume bound for the loop from any state (index, result). |
| Parsing.ScanOperator | src/eval_tree.rs:173-250 | The same resume bound for the OP branch. |
| Parsing.ScanOperand | src/eval_tree.rs:252-277 | The same resume bound for the NUMBER/NAME branch. |
| Parsing.ScanEnd | src/eval_tree.rs:279-300 | The same resume bound for the ENDMARKER branch. |
| Parsing.ParseTopLevel | src/lib.rs:362 | A parsed tree has one of the four shapes. When every OP token is a parenthesis or has a priority, its leaves are NUMBER/NAME tokens and its operators are known. |
| Parsing.ParseBuildsFourShapes | src/eval_tree.rs:166-314 | Every subtree a call returns is a leaf, a unary, a binary or an implicit-multiplication node. With known operators it is also well formed. |
| Parsing.StartStep | src/eval_tree.rs:160-169 | A call starts its loop at its start index with no result. |
| Parsing.LeafStep | src/eval_tree.rs:270-276 | An operand read with no result becomes a leaf, and the loop moves to the next token. |
| Parsing.EndStep | src/eval_tree.rs:279-300 | At the end marker, outside a group, a call returns its result. It resumes at the marker, or at 0 for the outermost call. |
| Parsing.ExhaustedStep | src/eval_tree.rs:308-312 | When the tokens run out, a call returns what it holds and the index it reached. |
| Parsing.StopStep | src/eval_tree.rs:214-222 | An operator that yields to the enclosing one, and is not a power, returns the result so far. The caller resumes at that operator. |
| Parsing.OperandStopStep | src/eval_tree.rs:253-258 | An operand after a result, inside an operator of priority at least 1, returns the result so far. |
| Parsing.BinaryStep | src/eval_tree.rs:223-237 | An operator that does not yield parses its right operand in a nested call and builds a binary node. |
| Parsing.UnaryStep | src/eval_tree.rs:239-247 | An operator with no result so far parses its operand at the `unary` priority and builds a unary node. |
| Parsing.ImplicitStep | src/eval_tree.rs:259-267 | An operand after a result, at a lower enclosing priority, parses the rest at the `""` priority and builds an operator-less node. |
| Parsing.GroupStep | src/eval_tree.rs:190-208 | `(` parses a group up to its `)` and juxtaposes it to the result, as the result itself or as the right side of an operator-less node. |
| Parsing.CloseStep | src/eval_tree.rs:174-188 | `)` returns the result. It resumes at the `)` for the call a `(` made, and one token earlier otherwise. |
| EvalTree.Render | src/eval_tree.rs:29-66 | Rendering succeeds exactly for the four shapes. A leaf renders as its text. Any other node renders inside one pair of parentheses. |
| EvalTree.ToString | src/eval_tree.rs:97-99 | `to_string` succeeds exactly for the four shapes. |
| EvalTree.RenderBinary | src/eval_tree.rs:31-64 | A binary node renders as `(l op r)` from its parts. |
| EvalTree.RenderImplicit | src/eval_tree.rs:38-64 | An operator-less node renders as `(l r)`. |
| EvalTree.RenderUnary | src/eval_tree.rs:44-64 | A unary node renders as `(op l)`. |
| EvalTree.ParenthesesPerNode | src/eval_tree.rs:59-63 | With parenthesis-free texts, the rendering holds exactly one `(` and one `)` per non-leaf node. |
| EvalTree.BinaryOf | src/eval_tree.rs:110-117 | `**` and `^` are the power, `*` and `""` the product, `/` the true division, `+` the sum and `-` the difference, each exactly. Every other spelling panics. |
| EvalTree.UnaryOf | src/eval_tree.rs:128-132 | `+` is exactly the positive and `-` exactly the negative. Every other spelling panics. |
| EvalTree.BinaryOperatorsDispatch | src/eval_tree.rs:110-117 | A spelling has a binary operation exactly when its priority is 0, 1 or 3. |
| EvalTree.Evaluate | src/eval_tree.rs:70-95 | A node without an operator raises "unable to evaluate tree". A node with an operator and no left child is the callback's value for its token. |
| EvalTree.EvaluateBinary | src/eval_tree.rs:72-80 | A binary node evaluates the left child first and stops at its error, then the right child and stops at its error; with both values it applies the operation `binary` dispatches on (`^` and `**` are power, `*` and `""` multiply), and an unknown operator panics with "unknown binary op". |
| EvalTree.EvaluateUnary | src/eval_tree.rs:81-85 | A unary node stops at its operand's error; otherwise `+` applies the positive and `-` the negative to its value, and any other operator panics with "unknown unary op". |
| EvalTree.ImplicitNeverEvaluates | src/eval_tree.rs:86-93 | Every well-shaped tree holding an operator-less node fails to evaluate. |
| EvalTree.EvaluationSucceeds | src/eval_tree.rs:70-95 | Without operator-less nodes, with dispatchable operators, with leaves that resolve and with arithmetic that does not raise, evaluation succeeds. |
| EvalTree.ParseTokens | src/eval_tree.rs:153-315 | The imperative loop returns what `Parse(Refactored, …)` specifies, errors included. |
| Lib.TryFromCode | src/lib.rs:167-179 | Every code converts, to the category `From<i32>` gives. |
| Lib.Fmt | src/lib.rs:31-65 | Formatting succeeds exactly for the four shapes. It is `fmt::Error` exactly when a right child has no left sibling. A leaf is its text. |
| Lib.ToString | src/lib.rs:40-52 | `to_string` of a child succeeds exactly for the four shapes; every failure is a panic. |
| Lib.FmtBinary | src/lib.rs:34-45 | A binary node formats as `(l op r)`. |
| Lib.FmtImplicit | src/lib.rs:34-45 | An operator-less node formats as `(l r)`. |
| Lib.FmtUnary | src/lib.rs:49-57 | A unary node formats as `op l`, without parentheses. |
| Lib.ParenthesesPerJoin | src/lib.rs:31-65 | With parenthesis-free texts, the text holds one `(` and one `)` per binary or operator-less node and none for unary nodes. |
| Lib.UnaryRenderingAmbiguous | src/lib.rs:49-57 | `(-a) + b` and `(-a)(+b)` are different trees with the same text `(- a + b)`. |
| Lib.BinaryOf | src/lib.rs:115-121 | As in `src/eval_tree.rs` but without `^`: the power is `**` alone, `*` and `""` the product, `/` the true division, `+` the sum and `-` the difference, each exactly; `^` and every other spelling panic. |
| Lib.UnaryOf | src/lib.rs:133-137 | `+` is exactly the positive and `-` exactly the negative. Every other spelling panics. |
| Lib.FromOwned | src/lib.rs:113-123 | A successful call passes through unchanged, and a failed call becomes a panic. |
| Lib.Evaluate | src/lib.rs:69-95 | A node without an operator raises "unable to evaluate tree". A node with an operator and no left child is the callback's value for the token's `original`, the `PyToken(code, text)` that stands for the Python tuple. |
| Lib.EvaluateBinary | src/lib.rs:71-79 | The same order as the refactored copy: left error, then right error, then the operation `binary` of `src/lib.rs:106-125` dispatches on, passed through `from_owned_ptr`; `^` is not among them and panics with "unknown binary op". |
| Lib.EvaluateUnary | src/lib.rs:80-84 | A unary node stops at its operand's error; otherwise `+` applies the positive and `-` the negative, passed through `from_owned_ptr`, and any other operator panics with "unknown unary op". |
| Lib.EvaluationsAgree | src/lib.rs:69-95 | On a tree with no `^` node and leaf callbacks that agree, the two copies' `evaluate` succeed together with the same value, and agree outright when no arithmetic operation fails. |
| Lib.ParseTokens | src/lib.rs:181-342 | The imperative loop returns what `Parse(Original, …)` specifies, errors included. |
| Lib.ToTokens | src/lib.rs:349-360 | One token per tuple, in order. Each has the category of its code, its text, and as `original` the `PyToken(code, text)` that stands for the tuple. |
| Lib.BuildEvalTree | src/lib.rs:345-363 | The tree is the top-level parse of the converted tuples, and has one of the four shapes. |
| RoundTrip.Canonical | src/eval_tree.rs:31-54 | The token form of a tree: a leaf is its token, and any other node starts with `(` and ends with `)`. |
| RoundTrip.Reparse | src/eval_tree.rs:153-315 | For every well-formed tree, its canonical tokens followed by the end marker parse back to that tree, in both copies. |
| Spelling.RenderSpellsCanonical | src/eval_tree.rs:29-66 | The refactored `to_string` of a well-shaped tree is its canonical tokens joined by single spaces, with none after `(` or before `)`. |
| Spelling.RenderThenParse | src/eval_tree.rs:29-66 | The refactored rendering of a well-formed, parenthesis-free tree spells a token sequence that both parsers read back as that tree. |
| Scenarios.ChainGrouping | src/eval_tree.rs:211-238 | `a op1 b op2 c` groups left exactly when `op2` yields to `op1` and is not a power, and groups right otherwise. |
| Scenarios.EqualPriorityGrouping | src/lib.rs:242-250 | At equal priority, the refactored copy groups left and the original groups right. |
| Scenarios.PriorityGrouping | src/eval_tree.rs:211-238 | In both copies, the operator of higher priority takes the middle operand. |
| Scenarios.PowerGroupsRight | src/eval_tree.rs:214-218 | A power as the second operator always groups right. |
| Scenarios.UnaryBelowPower | src/eval_tree.rs:239-247 | `- a ** b` is `-(a ** b)`. |
| Scenarios.ImplicitBeforeAddition | src/eval_tree.rs:252-268 | `a x + b` is `(a x) + b`. |
| Scenarios.ImplicitAfterProduct | src/eval_tree.rs:252-268 | `a * b c` is `(a * b) c`. |
| Scenarios.ImplicitPair | src/eval_tree.rs:259-267 | `a x` is an operator-less node of two leaves. |
| Scenarios.GroupedUnaryPower | src/eval_tree.rs:190-208 | `( - a ** b )` is `-(a ** b)`. |
| Scenarios.GroupThenOperator | src/eval_tree.rs:190-208 | `( a + b ) * c` is `(a + b) * c`. |
| Scenarios.SingleOperand | src/eval_tree.rs:293-297 | One operand and the end marker give a leaf, and the outermost call resumes at 0. |
| Scenarios.UnopenedParenthesis | src/eval_tree.rs:174-175 | A leading `)` raises "unopened parenthesis". |
| Scenarios.UnclosedParenthesis | src/eval_tree.rs:279-280 | `( a` raises "unclosed parenthesis". |
| Scenarios.UnclosedAfterOperator | src/eval_tree.rs:190-194 | `( a + b` panics on an out-of-bounds index. |
| Scenarios.EmptyGroup | src/eval_tree.rs:176-180 | `( )` panics on an `unwrap` of `None`. |
| Scenarios.MissingOperand | src/eval_tree.rs:279-286 | `a +` panics on an `unwrap` of `None`. |
| Scenarios.WeirdExit | src/eval_tree.rs:194-198 | In the refactored copy, `( a , b )` raises "weird exit from parenthesis". |
| Scenarios.NothingParsed | src/eval_tree.rs:308-314 | Tokens with nothing to parse raise "no result?" in the refactored copy. In the original copy they panic on an `unwrap`. |
| Scenarios.SkipAllIgnored | src/eval_tree.rs:302 | IGNORE tokens are skipped to the end of the input. |
| Findings.SubtractionChain | src/lib.rs:243 | `1 - 2 - 3`, parsed and evaluated by `src/lib.rs`, gives 2; parsed and evaluated by `src/eval_tree.rs`, it gives -4. |
| Findings.CaretPanics | src/lib.rs:115-121 | `^` has the power priority, yet the original evaluation panics on it. |
| Findings.CaretIsPower | src/eval_tree.rs:111 | The refactored evaluation computes `^` as the power. |
| Findings.EvaluateImplicit | src/eval_tree.rs:112 | The corrected evaluation, where an operator-less node multiplies. A leaf is the callback's value. |
| Findings.EvaluateImplicitAgrees | src/eval_tree.rs:70-95 | On trees without operator-less nodes, the corrected evaluation equals `evaluate`. |
| Findings.ImplicitEvaluates | src/eval_tree.rs:110-112 | The corrected evaluation succeeds on every dispatchable well-shaped tree whose leaves resolve and whose arithmetic does not raise. |
| Findings.TwoX | src/eval_tree.rs:86-93 | `2 x`, with x bound to 3, parses in both copies. `evaluate` fails on it, and the corrected evaluation gives 6. |
| Findings.UnaryRenderingReparses | src/lib.rs:49-57 | `(-2) ** 2` formats as `(- 2 ** 2)`, and those tokens parse as `-(2 ** 2)`, a different tree. |
| Findings.UnaryRenderingRoundTrips | src/eval_tree.rs:44-63 | The refactored copy renders `(-2) ** 2` as `((- 2) ** 2)`, whose tokens parse back to the same tree. |

## Left out

- Python's number protocol is left out. `PyNumber_Power`, `PyNumber_Add` and the others are the `Arithmetic` parameter, and whether a call raises is up to it.
- The leaf callback is the `leaf` parameter of both evaluations.
- EvalTree.Evaluate: does not model reference counting or the conversion of the callback's result into a `PyObject`.
- Lib.Evaluate: does not model reference counting either. A null pointer from `from_owned_ptr` is modelled as a panic with a fixed message.
- Lib.BuildEvalTree: does not model the Python errors raised when a list item is not a tuple holding an `int` and a `str`. The model receives the extracted `(code, text)` pairs, because the item extraction is PyO3 code. The tuple kept as `original` is modelled by those two fields alone, so a leaf callback that reads the tuple's other fields (its positions, its line) is not modelled.
- Tokenizer.TokenInfoOf: does not model how Python's `str` spells a float. `Float` carries that text, because the spelling is computed by CPython.
- The lexer (`rustpython_parser`) is not part of this model. `Tok` keeps only the variants the conversions match, and `Other` stands for the rest.
- The `PySequenceProtocol` block at `src/tokenizer.rs:87-101` is commented out in the source, so it is not modelled.
- The `#[pymodule]` registration, `#[pyclass]`/`#[pymethods]` glue, the GIL and the Python package files are not part of this model.
- Integer widths are left out. `isize` indices, the `i64` depth and the `i16` priorities are unbounded integers, because no input the parser can index reaches their limits.
- Panics are modelled as a `Panicked` failure carrying the panic message. PyO3's conversion of a panic into a Python `PanicException` is not modelled.
- Parsing.Parse, Parsing.Scan, Parsing.ScanOperator, Parsing.ScanOperand and Parsing.ScanEnd: their own contracts state only the resume-index bound. Their full behaviour is their bodies, which the step lemmas, the scenarios and the round trip state case by case.
- Boxing, cloning and ownership of tree nodes are left out. Trees are values.

## Findings

| source | as written | input that shows it | evidently intended | confidence | as-written member | corrected member |
|---|---|---|---|---|---|---|
| src/lib.rs:243 | The stop test `op_priority < prev_op_priority` lets an operator of equal priority start a nested call, so chains group to the right. | `1 - 2 - 3` parses as `1 - (2 - 3)` and evaluates to 2. | Left grouping, which evaluates to -4. This is what the `<=` test of `src/eval_tree.rs:215` gives, and what `test_quickpint.py:80-94` expects when it compares `build_eval_tree(...).evaluate` with the result of pint's own `build_eval_tree` on expressions such as this one. | not executed | Findings.SubtractionChain | Scenarios.EqualPriorityGrouping |
| src/lib.rs:115-121 | `binary` has no `^` arm, although `op_priority` ranks `^` with `**`. | A tree `l ^ r` panics with "unknown binary op". | `^` as the power, as `src/eval_tree.rs:111` does. | not executed | Findings.CaretPanics | Findings.CaretIsPower |
| src/eval_tree.rs:86-93 | `evaluate` has no arm for an operator-less node, so the `""` arm of `binary` is never reached. | `2 x` with x = 3 raises "unable to evaluate tree". | Multiplication of the two operands, giving 6. | not executed | EvalTree.ImplicitNeverEvaluates | Findings.ImplicitEvaluates |
| src/lib.rs:49-57 | A unary node is formatted without parentheses. | `(-2) ** 2` formats as `(- 2 ** 2)`, which reads back as `-(2 ** 2)`. | Parenthesised unary nodes, as `src/eval_tree.rs:63` writes them, so that the text reads back as the same tree. | not executed | Findings.UnaryRenderingReparses | Spelling.RenderThenParse |
