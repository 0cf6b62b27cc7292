/** The reference solution of task 12: a recursive descent evaluator with a moving position,
    over abstract number operations. It inverts the printer that writes only the parentheses
    which precedence and left associativity need. */
module Evaluation {
  import opened Options

  datatype Op = Add | Sub | Mul | Div
  datatype Token<+N> = Number(n: N) | Operator(op: Op) | Open | Close

  // Float arithmetic; dividing by zero raises (None).
  datatype Arithmetic<!N> = Arithmetic(neg: N -> N, apply: (Op, N, N) -> Option<N>)

  datatype Tree<N> = Leaf(n: N) | Neg(e: Tree<N>) | Bin(op: Op, left: Tree<N>, right: Tree<N>)

  function Value<N>(a: Arithmetic<N>, e: Tree<N>): Option<N> {
    match e
    case Leaf(n) => Some(n)
    case Neg(e) => var v := Value(a, e); if v.Some? then Some(a.neg(v.value)) else None
    case Bin(op, l, r) =>
      var x, y := Value(a, l), Value(a, r);
      if x.Some? && y.Some? then a.apply(op, x.value, y.value) else None
  }

  /* ---------- the printer ---------- */

  datatype Level = Expr | Term | Factor

  predicate Additive(op: Op) { op.Add? || op.Sub? }

  // The level at which a tree is printed without parentheses of its own.
  function OwnLevel<N>(e: Tree<N>): Level {
    if e.Bin? then (if Additive(e.op) then Expr else Term) else Factor
  }

  // How many changes of level separate printing e at `level` from printing its parts.
  function Detours<N>(level: Level, e: Tree<N>): nat {
    match (OwnLevel(e), level)
    case (Expr, Expr) => 0
    case (Expr, Factor) => 1
    case (Expr, Term) => 2
    case (Term, Term) => 0
    case (Term, Expr) => 1
    case (Term, Factor) => 2
    case (Factor, Factor) => 0
    case (Factor, Term) => 1
    case (Factor, Expr) => 2
  }

  function Print<N>(level: Level, e: Tree<N>): seq<Token<N>>
    decreases e, Detours(level, e)
  {
    match level
    case Expr =>
      if e.Bin? && Additive(e.op) then Print(Expr, e.left) + [Operator(e.op)] + Print(Term, e.right)
      else Print(Term, e)
    case Term =>
      if e.Bin? && !Additive(e.op) then Print(Term, e.left) + [Operator(e.op)] + Print(Factor, e.right)
      else Print(Factor, e)
    case Factor =>
      match e
      case Leaf(n) => [Number(n)]
      case Neg(e) => [Operator(Sub)] + Print(Factor, e)
      case Bin(_, _, _) => [Open] + Print(Expr, e) + [Close]
  }

  /* ---------- the descent as functions of the position ---------- */

  // The value and the position behind it, or an IndexError, ValueError or ZeroDivisionError.
  datatype Parsed<+N> = Read(value: N, pos: nat) | Raised

  predicate SeesOp<N>(ts: seq<Token<N>>, p: nat, additive: bool) {
    p < |ts| && ts[p].Operator? && Additive(ts[p].op) == additive
  }

  function ParseFactor<N>(a: Arithmetic<N>, ts: seq<Token<N>>, p: nat): (r: Parsed<N>)
    ensures r.Read? ==> p < r.pos <= |ts|
    decreases |ts| - p, 0
  {
    if p >= |ts| then Raised
    else match ts[p]
         case Operator(Sub) =>
           var r := ParseFactor(a, ts, p + 1);
           if r.Read? then Read(a.neg(r.value), r.pos) else Raised
         case Open =>
           var r := ParseExpr(a, ts, p + 1);
           if r.Read? && r.pos < |ts| then Read(r.value, r.pos + 1) else Raised
         case Number(n) => Read(n, p + 1)
         case _ => Raised
  }

  function ParseTerm<N>(a: Arithmetic<N>, ts: seq<Token<N>>, p: nat): (r: Parsed<N>)
    ensures r.Read? ==> p < r.pos <= |ts|
    decreases |ts| - p, 1
  {
    var r := ParseFactor(a, ts, p);
    if r.Read? then TermLoop(a, ts, r.value, r.pos) else Raised
  }

  function TermLoop<N>(a: Arithmetic<N>, ts: seq<Token<N>>, v: N, p: nat): (r: Parsed<N>)
    requires p <= |ts|
    ensures r.Read? ==> p <= r.pos <= |ts|
    decreases |ts| - p, 0
  {
    if !SeesOp(ts, p, false) then Read(v, p)
    else
      var r := ParseFactor(a, ts, p + 1);
      if r.Raised? then Raised
      else
        var w := a.apply(ts[p].op, v, r.value);
        if w.Some? then TermLoop(a, ts, w.value, r.pos) else Raised
  }

  function ParseExpr<N>(a: Arithmetic<N>, ts: seq<Token<N>>, p: nat): (r: Parsed<N>)
    ensures r.Read? ==> p < r.pos <= |ts|
    decreases |ts| - p, 2
  {
    var r := ParseTerm(a, ts, p);
    if r.Read? then ExprLoop(a, ts, r.value, r.pos) else Raised
  }

  function ExprLoop<N>(a: Arithmetic<N>, ts: seq<Token<N>>, v: N, p: nat): (r: Parsed<N>)
    requires p <= |ts|
    ensures r.Read? ==> p <= r.pos <= |ts|
    decreases |ts| - p, 0
  {
    if !SeesOp(ts, p, true) then Read(v, p)
    else
      var r := ParseTerm(a, ts, p + 1);
      if r.Raised? then Raised
      else
        var w := a.apply(ts[p].op, v, r.value);
        if w.Some? then ExprLoop(a, ts, w.value, r.pos) else Raised
  }

  /* ---------- the evaluator itself ---------- */

  class Evaluator<N> {
    const a: Arithmetic<N>
    const tokens: seq<Token<N>>
    var pos: nat

    constructor (a: Arithmetic<N>, tokens: seq<Token<N>>)
      ensures this.a == a && this.tokens == tokens && pos == 0
    {
      this.a, this.tokens, pos := a, tokens, 0;
    }

    // A parse from `start` that answered v and left the position here.
    ghost predicate Answers(v: Option<N>, parsed: Parsed<N>)
      reads this
    {
      if v.Some? then parsed == Read(v.value, pos) else parsed == Raised
    }

    // parse_factor
    method FactorAt() returns (v: Option<N>)
      modifies this`pos
      ensures Answers(v, ParseFactor(a, tokens, old(pos)))
      decreases |tokens| - pos, 0
    {
      if pos >= |tokens| { return None; }
      var tok := tokens[pos];
      pos := pos + 1;
      if tok == Operator(Sub) {
        v := FactorAt();
        if v.Some? { v := Some(a.neg(v.value)); }
      } else if tok.Open? {
        v := ExprAt();
        if v.None? { return; }
        if pos >= |tokens| { return None; }
        pos := pos + 1;
      } else if tok.Number? {
        v := Some(tok.n);
      } else {
        v := None;
      }
    }

    // parse_term
    method TermAt() returns (v: Option<N>)
      modifies this`pos
      ensures Answers(v, ParseTerm(a, tokens, old(pos)))
      decreases |tokens| - pos, 1
    {
      v := FactorAt();
      if v.None? { return; }
      while SeesOp(tokens, pos, false)
        invariant v.Some? && old(pos) < pos <= |tokens|
        invariant TermLoop(a, tokens, v.value, pos) == ParseTerm(a, tokens, old(pos))
        decreases |tokens| - pos
      {
        var op := tokens[pos].op;
        pos := pos + 1;
        var w := FactorAt();
        if w.None? { return None; }
        v := a.apply(op, v.value, w.value);
        if v.None? { return; }
      }
    }

    // parse_expr
    method ExprAt() returns (v: Option<N>)
      modifies this`pos
      ensures Answers(v, ParseExpr(a, tokens, old(pos)))
      decreases |tokens| - pos, 2
    {
      v := TermAt();
      if v.None? { return; }
      while SeesOp(tokens, pos, true)
        invariant v.Some? && old(pos) < pos <= |tokens|
        invariant ExprLoop(a, tokens, v.value, pos) == ParseExpr(a, tokens, old(pos))
        decreases |tokens| - pos
      {
        var op := tokens[pos].op;
        pos := pos + 1;
        var w := TermAt();
        if w.None? { return None; }
        v := a.apply(op, v.value, w.value);
        if v.None? { return; }
      }
    }
  }

  /* ---------- the descent with trees for numbers ---------- */

  // Numbers that are trees, so that evaluating builds the tree.
  function Building<N>(): Arithmetic<Tree<N>> {
    Arithmetic((e: Tree<N>) => Neg(e), (op, l: Tree<N>, r: Tree<N>) => Some(Bin(op, l, r)))
  }

  function LiftToken<N>(t: Token<N>): Token<Tree<N>> {
    match t
    case Number(n) => Number(Leaf(n))
    case Operator(op) => Operator(op)
    case Open => Open
    case Close => Close
  }

  function LiftTokens<N>(ts: seq<Token<N>>): seq<Token<Tree<N>>> {
    seq(|ts|, i requires 0 <= i < |ts| => LiftToken(ts[i]))
  }

  // The outcome with real numbers of a descent that only built a tree.
  function Evaluated<N>(a: Arithmetic<N>, r: Parsed<Tree<N>>): Parsed<N> {
    if r.Raised? then Raised
    else var v := Value(a, r.value); if v.Some? then Read(v.value, r.pos) else Raised
  }

  lemma {:induction false} FactorBuilds<N>(a: Arithmetic<N>, ts: seq<Token<N>>, p: nat)
    ensures ParseFactor(a, ts, p) == Evaluated(a, ParseFactor(Building<N>(), LiftTokens(ts), p))
    decreases |ts| - p, 0
  {
    if p < |ts| {
      if ts[p] == Operator(Sub) { FactorBuilds(a, ts, p + 1); }
      if ts[p].Open? { ExprBuilds(a, ts, p + 1); }
    }
  }

  lemma {:induction false} TermBuilds<N>(a: Arithmetic<N>, ts: seq<Token<N>>, p: nat)
    ensures ParseTerm(a, ts, p) == Evaluated(a, ParseTerm(Building<N>(), LiftTokens(ts), p))
    decreases |ts| - p, 1
  {
    FactorBuilds(a, ts, p);
    var r := ParseFactor(Building<N>(), LiftTokens(ts), p);
    if r.Read? { TermLoopBuilds(a, ts, r.value, r.pos); }
  }

  lemma {:induction false} TermLoopBuilds<N>(a: Arithmetic<N>, ts: seq<Token<N>>, e: Tree<N>, p: nat)
    requires p <= |ts|
    ensures Evaluated(a, TermLoop(Building<N>(), LiftTokens(ts), e, p))
              == var v := Value(a, e); if v.Some? then TermLoop(a, ts, v.value, p) else Raised
    decreases |ts| - p, 0
  {
    if SeesOp(ts, p, false) {
      FactorBuilds(a, ts, p + 1);
      var r := ParseFactor(Building<N>(), LiftTokens(ts), p + 1);
      if r.Read? { TermLoopBuilds(a, ts, Bin(ts[p].op, e, r.value), r.pos); }
    }
  }

  lemma {:induction false} ExprBuilds<N>(a: Arithmetic<N>, ts: seq<Token<N>>, p: nat)
    ensures ParseExpr(a, ts, p) == Evaluated(a, ParseExpr(Building<N>(), LiftTokens(ts), p))
    decreases |ts| - p, 2
  {
    TermBuilds(a, ts, p);
    var r := ParseTerm(Building<N>(), LiftTokens(ts), p);
    if r.Read? { ExprLoopBuilds(a, ts, r.value, r.pos); }
  }

  lemma {:induction false} ExprLoopBuilds<N>(a: Arithmetic<N>, ts: seq<Token<N>>, e: Tree<N>, p: nat)
    requires p <= |ts|
    ensures Evaluated(a, ExprLoop(Building<N>(), LiftTokens(ts), e, p))
              == var v := Value(a, e); if v.Some? then ExprLoop(a, ts, v.value, p) else Raised
    decreases |ts| - p, 0
  {
    if SeesOp(ts, p, true) {
      TermBuilds(a, ts, p + 1);
      var r := ParseTerm(Building<N>(), LiftTokens(ts), p + 1);
      if r.Read? { ExprLoopBuilds(a, ts, Bin(ts[p].op, e, r.value), r.pos); }
    }
  }

  /* ---------- the grammar ---------- */

  // Any token but an operator closes a parenthesis.
  predicate Closes<N>(ts: seq<Token<N>>, i: nat) {
    i < |ts| && !ts[i].Operator?
  }

  // No operator follows.
  predicate Stops<N>(ts: seq<Token<N>>, q: nat) {
    q < |ts| ==> !ts[q].Operator?
  }

  // The tokens at [p, q) spell the tree e, with any parentheses.
  ghost predicate Spells<N>(level: Level, ts: seq<Token<N>>, p: nat, q: nat, e: Tree<N>)
    decreases q - p, if level.Expr? then 2 else if level.Term? then 1 else 0
  {
    && p < q <= |ts|
    && match level
       case Expr => Spells(Term, ts, p, q, e) || SpellsBin(Expr, Term, ts, p, q, e)
       case Term => Spells(Factor, ts, p, q, e) || SpellsBin(Term, Factor, ts, p, q, e)
       case Factor =>
         || (ts[p].Number? && q == p + 1 && e == Leaf(ts[p].n))
         || (ts[p] == Operator(Sub) && e.Neg? && Spells(Factor, ts, p + 1, q, e.e))
         || (ts[p].Open? && Closes(ts, q - 1) && Spells(Expr, ts, p + 1, q - 1, e))
  }

  // ... as an operation of the level, on a left operand of that level and a right one below it.
  ghost predicate SpellsBin<N>(level: Level, lower: Level, ts: seq<Token<N>>, p: nat, q: nat, e: Tree<N>)
    requires (level.Expr? && lower.Term?) || (level.Term? && lower.Factor?)
    requires p < q <= |ts|
    decreases q - p, if level.Expr? then 1 else 0
  {
    && e.Bin? && (if level.Expr? then e.op.Add? || e.op.Sub? else e.op.Mul? || e.op.Div?)
    && exists m :: p < m < q && ts[m] == Operator(e.op)
                   && Spells(level, ts, p, m, e.left) && Spells(lower, ts, m + 1, q, e.right)
  }

  // Where the parser of a level stands after reading a value v that ends at p.
  function Resume<N>(a: Arithmetic<N>, level: Level, ts: seq<Token<N>>, v: N, p: nat): Parsed<N>
    requires p <= |ts|
  {
    match level
    case Expr => ExprLoop(a, ts, v, p)
    case Term => TermLoop(a, ts, v, p)
    case Factor => Read(v, p)
  }

  function BuildAt<N>(level: Level, ts: seq<Token<N>>, p: nat): Parsed<Tree<N>> {
    match level
    case Expr => ParseExpr(Building<N>(), LiftTokens(ts), p)
    case Term => ParseTerm(Building<N>(), LiftTokens(ts), p)
    case Factor => ParseFactor(Building<N>(), LiftTokens(ts), p)
  }

  /** At every level the parser reads what is spelled exactly to its end, builds the tree that is
      spelled, and goes on as after a value read there. */
  lemma {:induction false} BuildsSpelled<N>(level: Level, ts: seq<Token<N>>, p: nat, q: nat, e: Tree<N>)
    requires Spells(level, ts, p, q, e) && (level.Expr? ==> !SeesOp(ts, q, false))
    ensures BuildAt(level, ts, p) == Resume(Building<N>(), level, LiftTokens(ts), e, q)
    decreases q - p, if level.Expr? then 2 else if level.Term? then 1 else 0
  {
    match level {
      case Factor =>
        if ts[p] == Operator(Sub) { BuildsSpelled(Factor, ts, p + 1, q, e.e); }
        else if ts[p].Open? { BuildsSpelled(Expr, ts, p + 1, q - 1, e); }
      case Term =>
        if Spells(Factor, ts, p, q, e) { BuildsSpelled(Factor, ts, p, q, e); }
        else { BuildsBin(Term, Factor, ts, p, q, e); }
      case Expr =>
        if Spells(Term, ts, p, q, e) { BuildsSpelled(Term, ts, p, q, e); }
        else { BuildsBin(Expr, Term, ts, p, q, e); }
    }
  }

  lemma {:induction false} BuildsBin<N>(level: Level, lower: Level, ts: seq<Token<N>>, p: nat, q: nat, e: Tree<N>)
    requires (level.Expr? && lower.Term?) || (level.Term? && lower.Factor?)
    requires p < q <= |ts| && SpellsBin(level, lower, ts, p, q, e) && (level.Expr? ==> !SeesOp(ts, q, false))
    ensures BuildAt(level, ts, p) == Resume(Building<N>(), level, LiftTokens(ts), e, q)
    decreases q - p, if level.Expr? then 1 else 0
  {
    var m :| p < m < q && ts[m] == Operator(e.op)
             && Spells(level, ts, p, m, e.left) && Spells(lower, ts, m + 1, q, e.right);
    BuildsSpelled(level, ts, p, m, e.left);
    BuildsSpelled(lower, ts, m + 1, q, e.right);
  }

  /* ---------- what the parser builds is spelled ---------- */

  lemma {:induction false} FactorSpells<N>(ts: seq<Token<N>>, p: nat)
    ensures var r := BuildAt(Factor, ts, p); r.Read? ==> Spells(Factor, ts, p, r.pos, r.value)
    decreases |ts| - p, 0
  {
    if p < |ts| {
      if ts[p] == Operator(Sub) { FactorSpells(ts, p + 1); }
      if ts[p].Open? { ExprSpells(ts, p + 1); }
    }
  }

  lemma {:induction false} TermSpells<N>(ts: seq<Token<N>>, p: nat)
    ensures var r := BuildAt(Term, ts, p); r.Read? ==> Spells(Term, ts, p, r.pos, r.value) && !SeesOp(ts, r.pos, false)
    decreases |ts| - p, 1
  {
    FactorSpells(ts, p);
    var r := BuildAt(Factor, ts, p);
    if r.Read? { TermLoopSpells(ts, p, r.value, r.pos); }
  }

  lemma {:induction false} TermLoopSpells<N>(ts: seq<Token<N>>, p: nat, e: Tree<N>, m: nat)
    requires Spells(Term, ts, p, m, e)
    ensures var r := TermLoop(Building<N>(), LiftTokens(ts), e, m);
            r.Read? ==> Spells(Term, ts, p, r.pos, r.value) && !SeesOp(ts, r.pos, false)
    decreases |ts| - m, 0
  {
    if SeesOp(ts, m, false) {
      FactorSpells(ts, m + 1);
      var r := BuildAt(Factor, ts, m + 1);
      if r.Read? {
        var e' := Bin(ts[m].op, e, r.value);
        assert SpellsBin(Term, Factor, ts, p, r.pos, e');
        TermLoopSpells(ts, p, e', r.pos);
      }
    }
  }

  lemma {:induction false} ExprSpells<N>(ts: seq<Token<N>>, p: nat)
    ensures var r := BuildAt(Expr, ts, p); r.Read? ==> Spells(Expr, ts, p, r.pos, r.value) && Stops(ts, r.pos)
    decreases |ts| - p, 2
  {
    TermSpells(ts, p);
    var r := BuildAt(Term, ts, p);
    if r.Read? { ExprLoopSpells(ts, p, r.value, r.pos); }
  }

  lemma {:induction false} ExprLoopSpells<N>(ts: seq<Token<N>>, p: nat, e: Tree<N>, m: nat)
    requires Spells(Expr, ts, p, m, e) && !SeesOp(ts, m, false)
    ensures var r := ExprLoop(Building<N>(), LiftTokens(ts), e, m);
            r.Read? ==> Spells(Expr, ts, p, r.pos, r.value) && Stops(ts, r.pos)
    decreases |ts| - m, 0
  {
    if SeesOp(ts, m, true) {
      TermSpells(ts, m + 1);
      var r := BuildAt(Term, ts, m + 1);
      if r.Read? {
        var e' := Bin(ts[m].op, e, r.value);
        assert SpellsBin(Expr, Term, ts, p, r.pos, e');
        ExprLoopSpells(ts, p, e', r.pos);
      }
    }
  }

  // The tokens begin with a spelling of e, up to q, that no operator follows; the rest is ignored.
  ghost predicate Begins<N>(ts: seq<Token<N>>, e: Tree<N>, q: nat) {
    Spells(Expr, ts, 0, q, e) && Stops(ts, q)
  }

  /** The parser accepts exactly the token lists that begin with a spelling, and reads that. */
  lemma AcceptsExactly<N>(ts: seq<Token<N>>, e: Tree<N>, q: nat)
    ensures BuildAt(Expr, ts, 0) == Read(e, q) <==> Begins(ts, e, q)
  {
    ExprSpells(ts, 0);
    if Begins(ts, e, q) { BuildsSpelled(Expr, ts, 0, q, e); }
  }

  /* ---------- the printer spells ---------- */

  // Where the parts of a slice lie in the whole.
  lemma SliceParts<T>(s: seq<T>, p: nat, q: nat, a: seq<T>, x: T, b: seq<T>)
    requires p <= q <= |s| && s[p..q] == a + [x] + b
    ensures var m := p + |a|; m < q && s[p..m] == a && s[m] == x && s[m + 1..q] == b
  {
    var t, m := s[p..q], p + |a|;
    assert |t| == q - p == |a| + 1 + |b|;
    assert forall k :: 0 <= k < q - p ==> s[p + k] == t[k];
    assert t[|a|] == x;
    assert forall k :: 0 <= k < |a| ==> s[p..m][k] == t[k] == a[k];
    assert forall k :: 0 <= k < |b| ==> s[m + 1..q][k] == t[|a| + 1 + k] == b[k];
  }

  /** The print of a tree spells it: the parentheses it omits are not needed. */
  lemma {:induction false} PrintSpells<N>(level: Level, ts: seq<Token<N>>, p: nat, q: nat, e: Tree<N>)
    requires p <= q <= |ts| && ts[p..q] == Print(level, e)
    ensures Spells(level, ts, p, q, e)
    decreases e, Detours(level, e)
  {
    if OwnLevel(e) == level {
      match e {
        case Leaf(n) => assert ts[p] == ts[p..q][0];
        case Neg(x) =>
          SliceParts(ts, p, q, [], Operator(Sub), Print(Factor, x));
          PrintSpells(Factor, ts, p + 1, q, x);
        case Bin(op, l, r) => PrintBinSpells(level, if level.Expr? then Term else Factor, ts, p, q, op, l, r);
      }
    } else if level.Factor? {
      var body := Print(Expr, e);
      SliceParts(ts, p, q, [], Open, body + [Close]);
      SliceParts(ts, p + 1, q, body, Close, []);
      PrintSpells(Expr, ts, p + 1, q - 1, e);
    } else {
      PrintSpells(if level.Term? then Factor else Term, ts, p, q, e);
    }
  }

  lemma {:induction false} PrintBinSpells<N>(level: Level, lower: Level, ts: seq<Token<N>>, p: nat, q: nat,
                                             op: Op, l: Tree<N>, r: Tree<N>)
    requires p <= q <= |ts| && ts[p..q] == Print(level, Bin(op, l, r)) && OwnLevel(Bin(op, l, r)) == level
    requires (level.Expr? && lower.Term?) || (level.Term? && lower.Factor?)
    ensures p < q && SpellsBin(level, lower, ts, p, q, Bin(op, l, r))
    decreases Bin(op, l, r), 0, 0
  {
    var m := p + |Print(level, l)|;
    assert Print(level, Bin(op, l, r)) == Print(level, l) + [Operator(op)] + Print(lower, r);
    SliceParts(ts, p, q, Print(level, l), Operator(op), Print(lower, r));
    PrintSpells(level, ts, p, m, l);
    PrintSpells(lower, ts, m + 1, q, r);
  }

  // Printing at a narrower level costs at most one pair of parentheses.
  lemma LevelsNest<N>(e: Tree<N>)
    ensures |Print(Expr, e)| <= |Print(Term, e)| <= |Print(Factor, e)| <= |Print(Expr, e)| + 2
  {
  }

  /** No spelling of a tree is shorter than its print: every parenthesis of the print is needed. */
  lemma {:induction false} PrintIsShortest<N>(level: Level, ts: seq<Token<N>>, p: nat, q: nat, e: Tree<N>)
    requires Spells(level, ts, p, q, e)
    ensures |Print(level, e)| <= q - p
    decreases q - p, if level.Expr? then 2 else if level.Term? then 1 else 0
  {
    LevelsNest(e);
    match level {
      case Factor =>
        if ts[p] == Operator(Sub) { PrintIsShortest(Factor, ts, p + 1, q, e.e); }
        else if ts[p].Open? { PrintIsShortest(Expr, ts, p + 1, q - 1, e); }
      case Term =>
        if Spells(Factor, ts, p, q, e) { PrintIsShortest(Factor, ts, p, q, e); }
        else { BinIsShortest(Term, Factor, ts, p, q, e); }
      case Expr =>
        if Spells(Term, ts, p, q, e) { PrintIsShortest(Term, ts, p, q, e); }
        else { BinIsShortest(Expr, Term, ts, p, q, e); }
    }
  }

  lemma {:induction false} BinIsShortest<N>(level: Level, lower: Level, ts: seq<Token<N>>, p: nat, q: nat, e: Tree<N>)
    requires (level.Expr? && lower.Term?) || (level.Term? && lower.Factor?)
    requires p < q <= |ts| && SpellsBin(level, lower, ts, p, q, e)
    ensures |Print(level, e)| <= q - p
    decreases q - p, if level.Expr? then 1 else 0
  {
    var m :| p < m < q && ts[m] == Operator(e.op)
             && Spells(level, ts, p, m, e.left) && Spells(lower, ts, m + 1, q, e.right);
    PrintIsShortest(level, ts, p, m, e.left);
    PrintIsShortest(lower, ts, m + 1, q, e.right);
  }

  lemma PrintBegins<N>(e: Tree<N>)
    ensures Begins(Print(Expr, e), e, |Print(Expr, e)|)
  {
    var ts := Print(Expr, e);
    assert ts[0..|ts|] == ts;
    PrintSpells(Expr, ts, 0, |ts|, e);
  }

  /** evaluate(print(e)) consumes all tokens and returns the value of the tree. */
  lemma RoundTrip<N>(a: Arithmetic<N>, e: Tree<N>)
    ensures var ts, v := Print(Expr, e), Value(a, e);
            ParseExpr(a, ts, 0) == if v.Some? then Read(v.value, |ts|) else Raised
  {
    var ts := Print(Expr, e);
    PrintBegins(e);
    AcceptsExactly(ts, e, |ts|);
    ExprBuilds(a, ts, 0);
  }

  /** No parentheses that matter were left out: different trees print differently. */
  lemma PrintIsUnambiguous<N>(e: Tree<N>, e': Tree<N>)
    requires Print(Expr, e) == Print(Expr, e')
    ensures e == e'
  {
    var ts := Print(Expr, e);
    PrintBegins(e);
    PrintBegins(e');
    AcceptsExactly(ts, e, |ts|);
    AcceptsExactly(ts, e', |ts|);
  }

  /* ---------- precedence and associativity ---------- */

  lemma LeafSpells<N>(ts: seq<Token<N>>, p: nat)
    requires p < |ts| && ts[p].Number?
    ensures var e := Leaf(ts[p].n);
            Spells(Factor, ts, p, p + 1, e) && Spells(Term, ts, p, p + 1, e) && Spells(Expr, ts, p, p + 1, e)
  {
    assert Spells(Factor, ts, p, p + 1, Leaf(ts[p].n));
    assert Spells(Term, ts, p, p + 1, Leaf(ts[p].n));
  }

  // An operation of the level that binds as tightly as its operator does.
  lemma OperationSpells<N>(ts: seq<Token<N>>, p: nat, m: nat, q: nat, l: Tree<N>, r: Tree<N>)
    requires p < m < q <= |ts| && ts[m].Operator?
    requires var op := ts[m].op;
             if op.Add? || op.Sub? then Spells(Expr, ts, p, m, l) && Spells(Term, ts, m + 1, q, r)
             else Spells(Term, ts, p, m, l) && Spells(Factor, ts, m + 1, q, r)
    ensures Spells(Expr, ts, p, q, Bin(ts[m].op, l, r))
    ensures ts[m].op.Mul? || ts[m].op.Div? ==> Spells(Term, ts, p, q, Bin(ts[m].op, l, r))
  {
    var e := Bin(ts[m].op, l, r);
    if e.op.Add? || e.op.Sub? {
      assert SpellsBin(Expr, Term, ts, p, q, e);
    } else {
      assert SpellsBin(Term, Factor, ts, p, q, e);
      assert Spells(Term, ts, p, q, e);
    }
  }

  // The tree of x o1 y o2 z: multiplication and division bind tighter, otherwise from the left.
  function ThreeOperands<N>(x: N, o1: Op, y: N, o2: Op, z: N): Tree<N> {
    if (o1 == Add || o1 == Sub) && (o2 == Mul || o2 == Div) then Bin(o1, Leaf(x), Bin(o2, Leaf(y), Leaf(z)))
    else Bin(o2, Bin(o1, Leaf(x), Leaf(y)), Leaf(z))
  }

  lemma Precedence<N>(x: N, o1: Op, y: N, o2: Op, z: N)
    ensures Begins([Number(x), Operator(o1), Number(y), Operator(o2), Number(z)], ThreeOperands(x, o1, y, o2, z), 5)
  {
    var ts := [Number(x), Operator(o1), Number(y), Operator(o2), Number(z)];
    LeafSpells(ts, 0);
    LeafSpells(ts, 2);
    LeafSpells(ts, 4);
    if (o1 == Add || o1 == Sub) && (o2 == Mul || o2 == Div) {
      OperationSpells(ts, 2, 3, 5, Leaf(y), Leaf(z));
      OperationSpells(ts, 0, 1, 5, Leaf(x), Bin(o2, Leaf(y), Leaf(z)));
    } else {
      OperationSpells(ts, 0, 1, 3, Leaf(x), Leaf(y));
      OperationSpells(ts, 0, 3, 5, Bin(o1, Leaf(x), Leaf(y)), Leaf(z));
    }
  }

  /** A minus sign binds tighter than any operator. */
  lemma MinusFirst<N>(x: N, op: Op, y: N)
    ensures Begins([Operator(Sub), Number(x), Operator(op), Number(y)], Bin(op, Neg(Leaf(x)), Leaf(y)), 4)
  {
    var ts := [Operator(Sub), Number(x), Operator(op), Number(y)];
    LeafSpells(ts, 1);
    assert Spells(Factor, ts, 0, 2, Neg(Leaf(x)));
    assert Spells(Term, ts, 0, 2, Neg(Leaf(x)));
    LeafSpells(ts, 3);
    OperationSpells(ts, 0, 2, 4, Neg(Leaf(x)), Leaf(y));
  }

  /** evaluate, on any list of tokens: the value of the tree that its beginning spells, or an
      exception iff none is spelled or it has no value. */
  method Evaluate<N>(a: Arithmetic<N>, tokens: seq<Token<N>>) returns (v: Option<N>)
    ensures forall e: Tree<N>, q: nat :: Begins(tokens, e, q) ==> v == Value(a, e)
    ensures v.Some? ==> exists e: Tree<N>, q: nat :: Begins(tokens, e, q)
    ensures forall x: N, o1: Op, y: N, o2: Op, z: N ::
              tokens == [Number(x), Operator(o1), Number(y), Operator(o2), Number(z)] ==>
                v == Value(a, ThreeOperands(x, o1, y, o2, z))
  {
    var evaluator := new Evaluator(a, tokens);
    v := evaluator.ExprAt();
    ghost var r := BuildAt(Expr, tokens, 0);
    ExprBuilds(a, tokens, 0);
    assert v == if r.Read? then Value(a, r.value) else None;
    forall e: Tree<N>, q: nat | Begins(tokens, e, q) ensures v == Value(a, e) { AcceptsExactly(tokens, e, q); }
    if r.Read? { AcceptsExactly(tokens, r.value, r.pos); }
    forall x: N, o1: Op, y: N, o2: Op, z: N
      | tokens == [Number(x), Operator(o1), Number(y), Operator(o2), Number(z)]
      ensures v == Value(a, ThreeOperands(x, o1, y, o2, z))
    {
      Precedence(x, o1, y, o2, z);
    }
  }
}
