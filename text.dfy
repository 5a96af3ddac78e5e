/** Joining rendered parts with spaces, as both copies of the tree's
    `Display` do, and counting the parentheses of the result. */
module Text {

  /** `parts.join(" ")` of a vector of strings. */
  function JoinWords(parts: seq<string>): (s: string)
    ensures |parts| == 1 ==> s == parts[0]
  {
    if |parts| == 0 then ""
    else if |parts| == 1 then parts[0]
    else parts[0] + " " + JoinWords(parts[1..])
  }

  lemma JoinTwo(a: string, b: string)
    ensures JoinWords([a, b]) == a + " " + b
  {
    assert [a, b][1..] == [b];
  }

  lemma JoinThree(a: string, b: string, c: string)
    ensures JoinWords([a, b, c]) == a + " " + b + " " + c
  {
    assert [a, b, c][1..] == [b, c];
    JoinTwo(b, c);
  }

  /** `s` holds `k` opening and `k` closing parentheses. */
  predicate ParensCount(s: string, k: nat) {
    multiset(s)['('] == k && multiset(s)[')'] == k
  }

  /** Parentheses in `(inner)`: one more of each than in `inner`. */
  lemma ParensOfWrapped(inner: string)
    ensures multiset("(" + inner + ")")['('] == multiset(inner)['('] + 1
    ensures multiset("(" + inner + ")")[')'] == multiset(inner)[')'] + 1
  {
  }

  /** Parentheses in `a b`: those of `a` and those of `b`. */
  lemma ParensOfSpaced(a: string, b: string)
    ensures multiset(a + " " + b)['('] == multiset(a)['('] + multiset(b)['(']
    ensures multiset(a + " " + b)[')'] == multiset(a)[')'] + multiset(b)[')']
  {
  }

  /** Parentheses in `(l op r)` for an operator without any: those of the
      operands plus the outer pair. */
  lemma ParensOfTriple(l: string, op: string, r: string)
    requires '(' !in op && ')' !in op
    ensures multiset("(" + (l + " " + op + " " + r) + ")")['('] == multiset(l)['('] + multiset(r)['('] + 1
    ensures multiset("(" + (l + " " + op + " " + r) + ")")[')'] == multiset(l)[')'] + multiset(r)[')'] + 1
  {
    assert multiset(op)['('] == 0 && multiset(op)[')'] == 0;
    ParensOfSpaced(l, op);
    ParensOfSpaced(l + " " + op, r);
    ParensOfWrapped(l + " " + op + " " + r);
  }

  /** Parentheses in `(l r)`: those of the parts plus the outer pair. */
  lemma ParensOfPair(l: string, r: string)
    ensures multiset("(" + (l + " " + r) + ")")['('] == multiset(l)['('] + multiset(r)['('] + 1
    ensures multiset("(" + (l + " " + r) + ")")[')'] == multiset(l)[')'] + multiset(r)[')'] + 1
  {
    ParensOfSpaced(l, r);
    ParensOfWrapped(l + " " + r);
  }
}
