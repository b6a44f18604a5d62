/**
 * The result of running a compiled validator on one value, and the
 * short-circuit combinators the emitted code is built from.
 *
 * A validator either answers (Accept, Reject), raises an exception (Raise),
 * or runs out of fuel (Diverge), which stands for not terminating.
 */
module Outcomes {

  datatype Fault =
    | InvalidOperation   // an array operation applied to a value that is not an array
    | RegexError         // a pattern the regular-expression engine refuses
    | NotSupported       // a dependency value of an unsupported shape
    | NullReference      // a call through a delegate slot that was never assigned

  datatype Outcome = Accept | Reject | Raise(fault: Fault) | Diverge

  function FromBool(b: bool): (o: Outcome)
    ensures o == Accept <==> b
    ensures o == Reject <==> !b
  {
    if b then Accept else Reject
  }

  /** An outcome that is an answer rather than an exception or divergence. */
  predicate Definite(o: Outcome)
  {
    o == Accept || o == Reject
  }

  predicate AllDefinite(os: seq<Outcome>)
  {
    forall i :: 0 <= i < |os| ==> Definite(os[i])
  }

  /** Short-circuit conjunction: the right operand runs only after the left accepts. */
  function And(x: Outcome, y: Outcome): (o: Outcome)
    ensures o == Accept <==> x == Accept && y == Accept
    ensures x != Accept ==> o == x
  {
    if x == Accept then y else x
  }

  /** Short-circuit disjunction: the right operand runs only after the left rejects. */
  function Or(x: Outcome, y: Outcome): (o: Outcome)
    ensures o == Reject <==> x == Reject && y == Reject
    ensures x != Reject ==> o == x
  {
    if x == Reject then y else x
  }

  /** Logical negation; exceptions and divergence pass through. */
  function Neg(x: Outcome): (o: Outcome)
    ensures Definite(x) ==> o == FromBool(x == Reject)
    ensures !Definite(x) ==> o == x
  {
    match x
    case Accept => Reject
    case Reject => Accept
    case _ => x
  }

  /** A conditional: the test runs first, then exactly one branch. */
  function Cond(test: Outcome, ifTrue: Outcome, ifFalse: Outcome): (o: Outcome)
    ensures test == Accept ==> o == ifTrue
    ensures test == Reject ==> o == ifFalse
    ensures !Definite(test) ==> o == test
  {
    match test
    case Accept => ifTrue
    case Reject => ifFalse
    case _ => test
  }

  /** A conditional whose else branch is the constant true. */
  function IfThenElseTrue(test: Outcome, ifTrue: Outcome): (o: Outcome)
    ensures test == Reject ==> o == Accept
    ensures test == Accept ==> o == ifTrue
  {
    Cond(test, ifTrue, Accept)
  }

  /** The conjunction of a sequence of conjuncts run in order; the empty conjunction accepts. */
  function AndAll(os: seq<Outcome>): Outcome
  {
    if |os| == 0 then Accept else And(os[0], AndAll(os[1..]))
  }

  /** The disjunction of a sequence of disjuncts run in order; the empty disjunction rejects. */
  function OrAll(os: seq<Outcome>): Outcome
  {
    if |os| == 0 then Reject else Or(os[0], OrAll(os[1..]))
  }

  /**
   * The exactly-one scan: alternatives run in order, the first success sets
   * a flag, a second success rejects at once.
   */
  function OneOfScan(os: seq<Outcome>, seen: bool): Outcome
  {
    if |os| == 0 then FromBool(seen)
    else match os[0]
      case Accept => if seen then Reject else OneOfScan(os[1..], true)
      case Reject => OneOfScan(os[1..], seen)
      case _ => os[0]
  }

  /** A conjunction accepts exactly when every conjunct accepts. */
  lemma {:induction false} AndAllAccepts(os: seq<Outcome>)
    ensures AndAll(os) == Accept <==> forall i :: 0 <= i < |os| ==> os[i] == Accept
  {
    if |os| > 0 {
      AndAllAccepts(os[1..]);
      assert forall i :: 1 <= i < |os| ==> os[i] == os[1..][i - 1];
    }
  }

  /** Otherwise a conjunction yields its first conjunct that does not accept. */
  lemma {:induction false} AndAllFirstFailure(os: seq<Outcome>, k: nat)
    requires k < |os| && os[k] != Accept
    requires forall i :: 0 <= i < k ==> os[i] == Accept
    ensures AndAll(os) == os[k]
  {
    if k > 0 {
      AndAllFirstFailure(os[1..], k - 1);
    }
  }

  /** A disjunction rejects exactly when every disjunct rejects. */
  lemma {:induction false} OrAllRejects(os: seq<Outcome>)
    ensures OrAll(os) == Reject <==> forall i :: 0 <= i < |os| ==> os[i] == Reject
  {
    if |os| > 0 {
      OrAllRejects(os[1..]);
      assert forall i :: 1 <= i < |os| ==> os[i] == os[1..][i - 1];
    }
  }

  /** Otherwise a disjunction yields its first disjunct that does not reject. */
  lemma {:induction false} OrAllFirstSuccess(os: seq<Outcome>, k: nat)
    requires k < |os| && os[k] != Reject
    requires forall i :: 0 <= i < k ==> os[i] == Reject
    ensures OrAll(os) == os[k]
  {
    if k > 0 {
      OrAllFirstSuccess(os[1..], k - 1);
    }
  }

  /** On definite conjuncts, the conjunction is the universal statement. */
  lemma AndAllDefinite(os: seq<Outcome>)
    requires AllDefinite(os)
    ensures AndAll(os) == FromBool(forall i :: 0 <= i < |os| ==> os[i] == Accept)
  {
    AndAllAccepts(os);
    if exists i :: 0 <= i < |os| && os[i] != Accept {
      var k := FirstNot(os, Accept);
      AndAllFirstFailure(os, k);
    }
  }

  /** On definite disjuncts, the disjunction is the existential statement. */
  lemma OrAllDefinite(os: seq<Outcome>)
    requires AllDefinite(os)
    ensures OrAll(os) == FromBool(exists i :: 0 <= i < |os| && os[i] == Accept)
  {
    OrAllRejects(os);
    if exists i :: 0 <= i < |os| && os[i] != Reject {
      var k := FirstNot(os, Reject);
      OrAllFirstSuccess(os, k);
    }
  }

  /** The position of the first outcome different from x. */
  function FirstNot(os: seq<Outcome>, x: Outcome): (k: nat)
    requires exists i :: 0 <= i < |os| && os[i] != x
    ensures k < |os| && os[k] != x
    ensures forall i :: 0 <= i < k ==> os[i] == x
  {
    if os[0] != x then 0
    else
      assert exists i :: 0 <= i < |os[1..]| && os[1..][i] != x by {
        var i :| 0 <= i < |os| && os[i] != x;
        assert os[1..][i - 1] == os[i];
      }
      1 + FirstNot(os[1..], x)
  }

  /** A left fold of conjunctions equals the conjunction of the sequence. */
  lemma {:induction false} AndAllSnoc(os: seq<Outcome>, x: Outcome)
    ensures AndAll(os + [x]) == And(AndAll(os), x)
  {
    if |os| > 0 {
      assert (os + [x])[1..] == os[1..] + [x];
      AndAllSnoc(os[1..], x);
    }
  }

  /** A left fold of disjunctions equals the disjunction of the sequence. */
  lemma {:induction false} OrAllSnoc(os: seq<Outcome>, x: Outcome)
    ensures OrAll(os + [x]) == Or(OrAll(os), x)
  {
    if |os| > 0 {
      assert (os + [x])[1..] == os[1..] + [x];
      OrAllSnoc(os[1..], x);
    }
  }

  /**
   * On definite alternatives the scan counts successes: with the flag clear
   * it accepts iff exactly one alternative accepts, with the flag set iff none does.
   */
  lemma {:induction false} OneOfScanCounts(os: seq<Outcome>, seen: bool)
    requires AllDefinite(os)
    ensures OneOfScan(os, seen) == FromBool(if seen then multiset(os)[Accept] == 0 else multiset(os)[Accept] == 1)
  {
    if |os| > 0 {
      assert os == [os[0]] + os[1..];
      assert multiset(os) == multiset{os[0]} + multiset(os[1..]);
      OneOfScanCounts(os[1..], true);
      OneOfScanCounts(os[1..], false);
    }
  }

  /** The exactly-one answer does not depend on the order of definite alternatives. */
  lemma OneOfOrderIndependent(os: seq<Outcome>, ps: seq<Outcome>)
    requires AllDefinite(os) && multiset(os) == multiset(ps)
    ensures OneOfScan(os, false) == OneOfScan(ps, false)
  {
    assert AllDefinite(ps) by {
      forall i | 0 <= i < |ps|
        ensures Definite(ps[i])
      {
        assert ps[i] in multiset(os);
      }
    }
    OneOfScanCounts(os, false);
    OneOfScanCounts(ps, false);
  }

  /**
   * The scan rejects at the second success, whatever comes after it, as long
   * as nothing before it raised.
   */
  lemma {:induction false} OneOfSecondSuccessRejects(os: seq<Outcome>, i: nat, j: nat, seen: bool)
    requires i < j < |os| && os[i] == Accept && os[j] == Accept
    requires forall k :: 0 <= k < j ==> Definite(os[k])
    ensures OneOfScan(os, seen) == Reject
  {
    if i == 0 {
      if !seen {
        SeenRejectsAt(os[1..], j - 1);
      }
    } else {
      OneOfSecondSuccessRejects(os[1..], i - 1, j - 1, seen || os[0] == Accept);
      if os[0] == Accept && seen {
      }
    }
  }

  /** With the flag set, the scan rejects at the next success. */
  lemma {:induction false} SeenRejectsAt(os: seq<Outcome>, j: nat)
    requires j < |os| && os[j] == Accept
    requires forall k :: 0 <= k < j ==> Definite(os[k])
    ensures OneOfScan(os, true) == Reject
  {
    if j > 0 && os[0] != Accept {
      SeenRejectsAt(os[1..], j - 1);
    }
  }

  /** The expressions the folds build: constants, sub-expressions and short-circuit operators. */
  datatype BoolExpr =
    | Constant(b: bool)
    | Leaf(o: Outcome)
    | AndAlso(left: BoolExpr, right: BoolExpr)
    | OrElse(left: BoolExpr, right: BoolExpr)

  function Run(e: BoolExpr): Outcome
  {
    match e
    case Constant(b) => FromBool(b)
    case Leaf(o) => o
    case AndAlso(l, r) => And(Run(l), Run(r))
    case OrElse(l, r) => Or(Run(l), Run(r))
  }

  function RunAll(es: seq<BoolExpr>): (os: seq<Outcome>)
    ensures |os| == |es| && forall i :: 0 <= i < |es| ==> os[i] == Run(es[i])
  {
    seq(|es|, i requires 0 <= i < |es| => Run(es[i]))
  }

  /**
   * Folding expressions into a left-nested chain of AndAlso; no expression at
   * all gives the constant true. The chain means the conjunction of the parts.
   */
  method AllOf(es: seq<BoolExpr>) returns (e: BoolExpr)
    ensures Run(e) == AndAll(RunAll(es))
    ensures |es| == 0 ==> e == Constant(true)
  {
    var acc: BoolExpr := Constant(true);
    var started := false;
    for i := 0 to |es|
      invariant started <==> i > 0
      invariant started ==> Run(acc) == AndAll(RunAll(es[..i]))
      invariant !started ==> acc == Constant(true)
    {
      assert RunAll(es[..i + 1]) == RunAll(es[..i]) + [Run(es[i])];
      AndAllSnoc(RunAll(es[..i]), Run(es[i]));
      if !started {
        acc := es[i];
        assert RunAll(es[..0]) == [];
      } else {
        acc := AndAlso(acc, es[i]);
      }
      started := true;
    }
    assert es[..|es|] == es;
    e := acc;
  }

  /**
   * Folding expressions into a left-nested chain of OrElse; no expression at
   * all gives the constant false. The chain means the disjunction of the parts.
   */
  method AnyOf(es: seq<BoolExpr>) returns (e: BoolExpr)
    ensures Run(e) == OrAll(RunAll(es))
    ensures |es| == 0 ==> e == Constant(false)
  {
    var acc: BoolExpr := Constant(false);
    var started := false;
    for i := 0 to |es|
      invariant started <==> i > 0
      invariant started ==> Run(acc) == OrAll(RunAll(es[..i]))
      invariant !started ==> acc == Constant(false)
    {
      assert RunAll(es[..i + 1]) == RunAll(es[..i]) + [Run(es[i])];
      OrAllSnoc(RunAll(es[..i]), Run(es[i]));
      if !started {
        acc := es[i];
        assert RunAll(es[..0]) == [];
      } else {
        acc := OrElse(acc, es[i]);
      }
      started := true;
    }
    assert es[..|es|] == es;
    e := acc;
  }

  /**
   * The block the exactly-one combinator emits, run on the outcomes of its
   * alternatives: a result flag, set by the first success, and an early
   * return of false at the second.
   */
  method OneOf(os: seq<Outcome>) returns (r: Outcome)
    ensures r == OneOfScan(os, false)
  {
    var rsl := false;
    var i := 0;
    while i < |os|
      invariant 0 <= i <= |os|
      invariant OneOfScan(os, false) == OneOfScan(os[i..], rsl)
    {
      assert os[i..][1..] == os[i + 1..];
      if os[i] == Accept {
        if rsl {
          return Reject;
        }
        rsl := true;
      } else if os[i] != Reject {
        return os[i];
      }
      i := i + 1;
    }
    r := FromBool(rsl);
  }
}
