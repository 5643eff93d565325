/**
 * What the parser's operation loop (parser/parser.rs, `operation`) computes,
 * as a pure function of what it reads.
 *
 * At the head of the loop there are always exactly two expressions and one
 * pending operator between them. Each round reads an operator and the term
 * after it. If the new operator binds no tighter than the pending one (its
 * precedence number is at least the pending one's), the pending operation is
 * folded and the new operator becomes pending; otherwise the new operator is
 * folded at once onto the right-hand expression. When no operator follows,
 * the pending operation is folded and the loop ends.
 *
 * Because only one operator is ever pending, an operator that binds tighter
 * than the pending one takes everything on the right so far as its left
 * operand: `a == b + c * d` groups as `a == ((b + c) * d)`.
 */
module Operations {
  import opened Tokens
  import opened Ast

  /** The loop state at its head: two expressions and the operator pending between them. */
  datatype Pending = Pending(left: Expression, op: Operand, prec: nat, right: Expression)

  /** One round: the operator read, its precedence, the term after it, and the position its fold records. */
  datatype Step = Step(op: Operand, prec: nat, term: Expression, pos: TokenPosition)

  function Shift(p: Pending, s: Step): Pending {
    if s.prec >= p.prec then Pending(Operation(p.left, p.op, p.right, s.pos), s.op, s.prec, s.term)
    else Pending(p.left, p.op, p.prec, Operation(p.right, s.op, s.term, s.pos))
  }

  /** The state after the rounds `steps`, from the state `p`. */
  function Reduce(p: Pending, steps: seq<Step>): Pending
    decreases |steps|
  {
    if steps == [] then p else Shift(Reduce(p, steps[..|steps| - 1]), steps[|steps| - 1])
  }

  /** The fold that ends the loop. */
  function Close(p: Pending, pos: TokenPosition): Expression {
    Operation(p.left, p.op, p.right, pos)
  }

  /** An operand or an operator in the infix reading of an expression. */
  datatype Item = Leaf(e: Expression) | Sym(op: Operand)

  /** The expression read back as infix text: operations are flattened, everything else is a leaf. */
  function Infix(e: Expression): seq<Item> {
    if e.Operation? then Infix(e.left) + [Sym(e.op)] + Infix(e.right) else [Leaf(e)]
  }

  /** The operators and terms of the rounds, in the order they were read. */
  function StepsInfix(steps: seq<Step>): seq<Item>
    decreases |steps|
  {
    if steps == [] then []
    else StepsInfix(steps[..|steps| - 1]) + [Sym(steps[|steps| - 1].op)] + Infix(steps[|steps| - 1].term)
  }

  function PendingInfix(p: Pending): seq<Item> {
    Infix(p.left) + [Sym(p.op)] + Infix(p.right)
  }

  lemma ShiftInfix(p: Pending, s: Step)
    ensures PendingInfix(Shift(p, s)) == PendingInfix(p) + [Sym(s.op)] + Infix(s.term)
  {
    if s.prec >= p.prec {
      assert Infix(Operation(p.left, p.op, p.right, s.pos)) == PendingInfix(p);
    } else {
      assert Infix(Operation(p.right, s.op, s.term, s.pos)) == Infix(p.right) + [Sym(s.op)] + Infix(s.term);
    }
  }

  /**
   * The loop only regroups: read back as infix, its result is the first two
   * operands and every operator and term in the order they were read. No term
   * or operator is lost, duplicated or reordered.
   */
  lemma {:induction false} ReduceKeepsOrder(p: Pending, steps: seq<Step>, pos: TokenPosition)
    ensures Infix(Close(Reduce(p, steps), pos)) == PendingInfix(p) + StepsInfix(steps)
    decreases |steps|
  {
    if steps != [] {
      var front, last := steps[..|steps| - 1], steps[|steps| - 1];
      ReduceKeepsOrder(p, front, pos);
      ShiftInfix(Reduce(p, front), last);
    }
  }

  /** Running the rounds from the first on: the first round, then the rest from the state it leaves. */
  lemma {:induction false} ReduceFirst(p: Pending, s: Step, rest: seq<Step>)
    ensures Reduce(p, [s] + rest) == Reduce(Shift(p, s), rest)
    decreases |rest|
  {
    if rest != [] {
      var front := rest[..|rest| - 1];
      assert ([s] + rest)[..|rest|] == [s] + front;
      ReduceFirst(p, s, front);
    }
  }

  /** Each round's operator binds no tighter than the one before it (the first is compared with `prec`). */
  predicate NonTightening(prec: nat, steps: seq<Step>) {
    && (|steps| > 0 ==> steps[0].prec >= prec)
    && forall k :: 0 < k < |steps| ==> steps[k].prec >= steps[k - 1].prec
  }

  /**
   * When no operator binds tighter than the one before it, every fold happens
   * on the left: the right operand of the result is always the last term read,
   * and the operator pending is the last one read.
   */
  lemma {:induction false} NonTighteningFoldsLeft(p: Pending, steps: seq<Step>)
    requires NonTightening(p.prec, steps)
    ensures steps != [] ==> Reduce(p, steps).right == steps[|steps| - 1].term
    ensures steps != [] ==> Reduce(p, steps).op == steps[|steps| - 1].op
    ensures steps != [] ==> Reduce(p, steps).prec == steps[|steps| - 1].prec
    ensures steps == [] ==> Reduce(p, steps) == p
    decreases |steps|
  {
    if steps != [] {
      var front := steps[..|steps| - 1];
      assert NonTightening(p.prec, front) by {
        forall k | 0 < k < |front|
          ensures front[k].prec >= front[k - 1].prec
        {
          assert front[k] == steps[k] && front[k - 1] == steps[k - 1];
        }
      }
      NonTighteningFoldsLeft(p, front);
      var n := |steps|;
      assert Reduce(p, steps) == Shift(Reduce(p, front), steps[n - 1]);
      if n == 1 {
        assert steps[n - 1].prec >= p.prec;
      } else {
        assert front[n - 2] == steps[n - 2];
        assert steps[n - 1].prec >= steps[n - 2].prec;
      }
    }
  }

  function Id(name: string): Expression {
    Expression.Identifier(name, DefaultPosition())
  }

  /** The rounds that follow `a OP ...`: an operator text (a known one) and the identifier after it. */
  function StepOf(op: Operand, name: string, pos: TokenPosition): Step {
    Step(op, Precedence(op), Id(name), pos)
  }

  /** `a - b - c` folds to the left: `(a - b) - c`. */
  lemma SubtractionFoldsLeft(p1: TokenPosition, p2: TokenPosition)
    ensures Close(Reduce(Pending(Id("a"), Sub, 2, Id("b")), [StepOf(Sub, "c", p1)]), p2)
      == Operation(Operation(Id("a"), Sub, Id("b"), p1), Sub, Id("c"), p2)
  {
    var steps := [StepOf(Sub, "c", p1)];
    assert steps[..0] == [];
  }

  /** `a + b * c`: the tighter `*` binds to the term before it, `a + (b * c)`. */
  lemma TighterBindsRight(p1: TokenPosition, p2: TokenPosition)
    ensures Close(Reduce(Pending(Id("a"), Add, 2, Id("b")), [StepOf(Mul, "c", p1)]), p2)
      == Operation(Id("a"), Add, Operation(Id("b"), Mul, Id("c"), p1), p2)
  {
    var steps := [StepOf(Mul, "c", p1)];
    assert steps[..0] == [];
  }

  /** `a * b + c`: the looser `+` folds what came before, `(a * b) + c`. */
  lemma LooserFoldsLeft(p1: TokenPosition, p2: TokenPosition)
    ensures Close(Reduce(Pending(Id("a"), Mul, 1, Id("b")), [StepOf(Add, "c", p1)]), p2)
      == Operation(Operation(Id("a"), Mul, Id("b"), p1), Add, Id("c"), p2)
  {
    var steps := [StepOf(Add, "c", p1)];
    assert steps[..0] == [];
  }

  /** `a == b + c * d` groups as `a == ((b + c) * d)`: only one operator is ever pending. */
  lemma ThreeLevels(p1: TokenPosition, p2: TokenPosition, p3: TokenPosition)
    ensures Close(Reduce(Pending(Id("a"), Equal, 3, Id("b")), [StepOf(Add, "c", p1), StepOf(Mul, "d", p2)]), p3)
      == Operation(Id("a"), Equal, Operation(Operation(Id("b"), Add, Id("c"), p1), Mul, Id("d"), p2), p3)
  {
    var start := Pending(Id("a"), Equal, 3, Id("b"));
    var steps := [StepOf(Add, "c", p1), StepOf(Mul, "d", p2)];
    assert steps[..1] == [StepOf(Add, "c", p1)];
    assert steps[..1][..0] == [];
    var once := Pending(Id("a"), Equal, 3, Operation(Id("b"), Add, Id("c"), p1));
    assert Reduce(start, steps[..1]) == once;
    assert Reduce(start, steps) == Shift(once, StepOf(Mul, "d", p2));
  }
}
