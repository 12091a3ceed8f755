/**
 * The question generator `gerarQuestao`, which both games carry in identical form.
 *
 * Every call of Math.random() is replaced by an explicit draw `u` with 0 <= u < 1:
 * four draws for the operands, the operator and the division multiplier, one draw
 * per round of the distractor loop (`noise`), and the random-comparator sort is
 * replaced by an explicit permutation `perm` of the four collected options.
 */
module QuestionGen {
  import opened Common

  datatype Operation = Add | Sub | Mul | Div

  /** A generated question. Options are reals: the distractors of a product are
      multiples of a quarter. */
  datatype Question = Question(id: int, num1: int, num2: int, op: Operation, answer: int, options: seq<real>)

  /** A value Math.random() can return. */
  predicate Unit(u: real) { 0.0 <= u < 1.0 }

  predicate AllUnit(us: seq<real>) { forall i :: 0 <= i < |us| ==> Unit(us[i]) }

  predicate Distinct<T(==)>(s: seq<T>) { forall i, j :: 0 <= i < j < |s| ==> s[i] != s[j] }

  /** `Math.floor(u * n)`: a uniformly drawn index below n. */
  function Pick(u: real, n: nat): (r: int)
    requires Unit(u) && n >= 1
    ensures 0 <= r < n
  {
    assert 0.0 <= u * (n as real) < n as real;
    (u * (n as real)).Floor
  }

  /** The magnitude bound of the operands. */
  function MaxNum(d: Difficulty): nat
  {
    match d
    case Facil => 10
    case Medio => 20
    case Dificil => 50
  }

  /** `operacoes[Math.floor(u * 2)]` on the easy tier, `operacoes[Math.floor(u * 4)]` otherwise. */
  function PickOperation(d: Difficulty, u: real): (op: Operation)
    requires Unit(u)
    ensures d == Facil ==> op == Add || op == Sub
  {
    var operacoes := [Add, Sub, Mul, Div];
    if d == Facil then operacoes[Pick(u, 2)] else operacoes[Pick(u, |operacoes|)]
  }

  /** Every operator the tier allows is drawn for some value of the random draw. */
  lemma PickOperationReaches(d: Difficulty, op: Operation) returns (u: real)
    requires d == Facil ==> op == Add || op == Sub
    ensures Unit(u) && PickOperation(d, u) == op
  {
    var k := match op case Add => 0 case Sub => 1 case Mul => 2 case Div => 3;
    u := if d == Facil then k as real / 2.0 else k as real / 4.0;
  }

  /** The `switch (operacao)` computing the correct answer; the division is exact
      wherever the generator uses it. */
  function Evaluate(op: Operation, n1: int, n2: int): int
    requires op == Div ==> n2 != 0
  {
    match op
    case Add => n1 + n2
    case Sub => n1 - n2
    case Mul => n1 * n2
    case Div => n1 / n2
  }

  /** `Math.floor((u * r) / 2)`, the random part of a product's distractor. */
  function MulOffset(u: real, r: int): int
  {
    ((u * (r as real)) / 2.0).Floor
  }

  lemma ProductBelow(u: real, b: real)
    requires Unit(u) && b > 0.0
    ensures 0.0 <= u * b < b
  {
  }

  lemma MulOffsetRange(u: real, r: int)
    requires Unit(u) && r >= 1
    ensures 0 <= MulOffset(u, r) && 2 * MulOffset(u, r) < r
  {
    var x := u * (r as real);
    ProductBelow(u, r as real);
    assert 0.0 <= x < r as real;
    var f := (x / 2.0).Floor;
    assert f as real <= x / 2.0 < f as real + 1.0;
    assert 0 <= f;
    assert 2.0 * (f as real) < r as real;
  }

  /** The candidate distractor produced by one round of the loop. */
  function Candidate(op: Operation, r: int, u: real): real
    requires Unit(u)
  {
    match op
    case Add => (r + Pick(u, 10) - 5) as real
    case Sub => (r + Pick(u, 10) - 5) as real
    case Mul => r as real + MulOffset(u, r) as real - r as real / 4.0
    case Div => (r + Pick(u, 5) - 2) as real
  }

  /** The part of the acceptance test that does not depend on the options collected so far:
      positive and different from the correct answer. */
  predicate Admissible(c: real, r: int) { c > 0.0 && c != r as real }

  /** The answers the generator can produce for each operator. */
  predicate AnswerRange(op: Operation, r: int)
  {
    match op
    case Add => r >= 2
    case Sub => r >= 0
    case Mul => r >= 1
    case Div => 1 <= r <= 10
  }

  /** The answers for which fewer than three admissible candidates exist, so that the
      distractor loop can never collect its three distractors. */
  predicate Stuck(op: Operation, r: int)
  {
    (op == Div && r == 1) || (op == Mul && 1 <= r <= 4)
  }

  /** For a stuck answer, the (at most two) admissible candidates. */
  function StuckValues(op: Operation, r: int): (real, real)
  {
    if op == Div then (2.0, 3.0)
    else if r == 1 then (0.75, 0.75)
    else if r == 2 then (1.5, 1.5)
    else if r == 3 then (2.25, 3.25)
    else (3.0, 3.0)
  }

  /** Stuck answers admit no candidate outside their two stuck values. */
  lemma StuckCandidates(op: Operation, r: int, u: real)
    requires Stuck(op, r) && Unit(u) && Admissible(Candidate(op, r, u), r)
    ensures Candidate(op, r, u) == StuckValues(op, r).0 || Candidate(op, r, u) == StuckValues(op, r).1
  {
    if op == Mul {
      MulOffsetRange(u, r);
    }
  }

  /** The duplicate-free sequences built from the two stuck values: none is longer than two. */
  function StuckPrefixes(p: (real, real)): set<seq<real>>
  {
    {[], [p.0], [p.1], [p.0, p.1], [p.1, p.0]}
  }

  lemma StuckPrefixExtend(p: (real, real), s: seq<real>, c: real)
    requires s in StuckPrefixes(p) && (c == p.0 || c == p.1) && c !in s
    ensures s + [c] in StuckPrefixes(p)
  {
    if s == [] {
      assert s + [c] == [c];
    } else if s == [p.0] {
      assert s + [c] == [p.0, c];
    } else if s == [p.1] {
      assert s + [c] == [p.1, c];
    }
  }

  lemma QuotientBelowOne(a: real, b: real)
    requires 0.0 <= a < b
    ensures 0.0 <= a / b < 1.0
  {
    var q := a / b;
    assert q * b == a;
  }

  /** A draw that makes the product's random offset equal j. */
  lemma MulOffsetHits(r: int, j: int) returns (u: real)
    requires 0 <= j && 2 * j < r
    ensures Unit(u) && MulOffset(u, r) == j
  {
    u := (2 * j) as real / (r as real);
    QuotientBelowOne((2 * j) as real, r as real);
    assert u * (r as real) == (2 * j) as real;
  }

  /** Among the draws are three whose candidates are admissible and pairwise different. */
  predicate HasThreeDistractors(op: Operation, r: int, noise: seq<real>)
    requires AllUnit(noise)
  {
    exists i, j, l :: 0 <= i < |noise| && 0 <= j < |noise| && 0 <= l < |noise| &&
      ThreeDistinctAdmissible(Candidate(op, r, noise[i]), Candidate(op, r, noise[j]), Candidate(op, r, noise[l]), r)
  }

  predicate ThreeDistinctAdmissible(a: real, b: real, c: real, r: int)
  {
    Admissible(a, r) && Admissible(b, r) && Admissible(c, r) && a != b && b != c && a != c
  }

  /** Three different values do not fit in a sequence of two. */
  lemma ThreeNeedThree<T>(s: seq<T>, a: T, b: T, c: T)
    requires a in s && b in s && c in s && a != b && b != c && a != c
    ensures |s| >= 3
  {
    var ia :| 0 <= ia < |s| && s[ia] == a;
    var ib :| 0 <= ib < |s| && s[ib] == b;
    var ic :| 0 <= ic < |s| && s[ic] == c;
    assert ia != ib && ib != ic && ia != ic;
  }

  /** Each of the first k draws gives a candidate that is inadmissible or already an option. */
  predicate Covered(op: Operation, r: int, noise: seq<real>, k: nat, opcoes: seq<real>)
    requires AllUnit(noise) && k <= |noise|
  {
    forall j :: 0 <= j < k ==> !Admissible(Candidate(op, r, noise[j]), r) || Candidate(op, r, noise[j]) in opcoes
  }

  /** One more round of the distractor loop keeps every draw so far covered. */
  lemma CoveredStep(op: Operation, r: int, noise: seq<real>, k: nat, opcoes: seq<real>, next: seq<real>)
    requires AllUnit(noise) && k < |noise| && Covered(op, r, noise, k, opcoes)
    requires forall x :: x in opcoes ==> x in next
    requires Admissible(Candidate(op, r, noise[k]), r) ==> Candidate(op, r, noise[k]) in next
    ensures Covered(op, r, noise, k + 1, next)
  {
  }

  /** An element other than the head is in the tail. */
  lemma InTail<T>(s: seq<T>, x: T)
    requires |s| >= 1 && x in s && x != s[0]
    ensures x in s[1..]
  {
    assert s == [s[0]] + s[1..];
  }

  /** Options that start with the answer and hold every admissible candidate of the draws
      number four once three of those candidates differ. */
  lemma ThreeForceFour(op: Operation, r: int, noise: seq<real>, opcoes: seq<real>)
    requires AllUnit(noise) && |opcoes| >= 1 && opcoes[0] == r as real
    requires |opcoes| < 4 ==> Covered(op, r, noise, |noise|, opcoes)
    requires HasThreeDistractors(op, r, noise)
    ensures |opcoes| >= 4
  {
    if |opcoes| >= 4 {
      return;
    }
    var i, j, l :| 0 <= i < |noise| && 0 <= j < |noise| && 0 <= l < |noise| &&
      ThreeDistinctAdmissible(Candidate(op, r, noise[i]), Candidate(op, r, noise[j]), Candidate(op, r, noise[l]), r);
    var a, b, c := Candidate(op, r, noise[i]), Candidate(op, r, noise[j]), Candidate(op, r, noise[l]);
    assert a in opcoes && b in opcoes && c in opcoes;
    InTail(opcoes, a);
    InTail(opcoes, b);
    InTail(opcoes, c);
    ThreeNeedThree(opcoes[1..], a, b, c);
  }

  /** Outside the stuck answers, three draws give three distinct admissible candidates, so
      the distractor loop finishes on them (CollectOptions). Together with StuckCandidates:
      the loop can finish if and only if the answer is not stuck. */
  lemma ThreeDistractors(op: Operation, r: int) returns (u1: real, u2: real, u3: real)
    requires AnswerRange(op, r) && !Stuck(op, r)
    ensures Unit(u1) && Unit(u2) && Unit(u3)
    ensures Admissible(Candidate(op, r, u1), r) && Admissible(Candidate(op, r, u2), r)
    ensures Admissible(Candidate(op, r, u3), r)
    ensures Distinct([Candidate(op, r, u1), Candidate(op, r, u2), Candidate(op, r, u3)])
    ensures HasThreeDistractors(op, r, [u1, u2, u3])
  {
    match op {
      case Add =>
        u1, u2, u3 := 0.6, 0.7, 0.8;
      case Sub =>
        u1, u2, u3 := 0.6, 0.7, 0.8;
      case Div =>
        u1, u2, u3 := 0.2, 0.6, 0.8;
      case Mul =>
        u1 := MulOffsetHits(r, 0);
        u2 := MulOffsetHits(r, 1);
        u3 := MulOffsetHits(r, if r == 8 then 3 else 2);
    }
    var noise := [u1, u2, u3];
    assert noise[0] == u1 && noise[1] == u2 && noise[2] == u3;
    var cs := [Candidate(op, r, u1), Candidate(op, r, u2), Candidate(op, r, u3)];
    assert cs[0] != cs[1] && cs[1] != cs[2] && cs[0] != cs[2];
    assert ThreeDistinctAdmissible(Candidate(op, r, noise[0]), Candidate(op, r, noise[1]), Candidate(op, r, noise[2]), r);
  }

  /** The distractors of a product are multiples of a quarter, and whole numbers exactly
      when the product is a multiple of four. */
  lemma MulCandidateQuarters(r: int, u: real)
    requires r >= 1 && Unit(u)
    ensures var c := Candidate(Mul, r, u);
      (4.0 * c).Floor as real == 4.0 * c && (c.Floor as real == c <==> r % 4 == 0)
  {
    Quarters(r, MulOffset(u, r));
  }

  lemma Quarters(r: int, off: int)
    ensures var c := r as real + off as real - r as real / 4.0;
      (4.0 * c).Floor as real == 4.0 * c && (c.Floor as real == c <==> r % 4 == 0)
  {
    var q, m := r / 4, r % 4;
    assert r == 4 * q + m && 0 <= m < 4;
    assert r as real == 4.0 * (q as real) + m as real;
    var n := r + off - q;
    var c := r as real + off as real - r as real / 4.0;
    assert c == n as real - m as real / 4.0;
    var w := 4 * n - m;
    assert 4.0 * c == w as real;
    assert (4.0 * c).Floor == w;
    if m == 0 {
      assert c == n as real;
    } else {
      assert (n - 1) as real < c < n as real;
      assert c.Floor == n - 1;
    }
  }

  lemma MulAtLeast(b: int, t: int)
    requires b >= 1 && t >= 1
    ensures b * t >= b
  {
  }

  lemma MultipleInRange(b: int, t: int)
    requires b >= 1 && 0 <= b * t < b
    ensures t == 0
  {
    if t > 0 {
      MulAtLeast(b, t);
    } else if t < 0 {
      MulAtLeast(b, -t);
    }
  }

  /** Dividing `b * k` by `b` leaves no remainder and gives back `k`. */
  lemma ExactDivision(b: int, k: int)
    requires b >= 1
    ensures (b * k) % b == 0 && (b * k) / b == k
  {
    var q, m := (b * k) / b, (b * k) % b;
    assert b * k == b * q + m && 0 <= m < b;
    assert b * (k - q) == m;
    MultipleInRange(b, k - q);
  }

  /** The options are four duplicate-free values, one of them the answer and the others positive. */
  predicate WellFormedOptions(opts: seq<real>, r: int)
  {
    |opts| == 4 && Distinct(opts) && (r as real) in opts
    && forall i :: 0 <= i < |opts| && opts[i] != r as real ==> Admissible(opts[i], r)
  }

  /** Operand and answer invariants of a question generated on tier d. */
  predicate WellFormedOperands(q: Question, d: Difficulty)
  {
    && (d == Facil ==> q.op == Add || q.op == Sub)
    && 1 <= q.num2 <= MaxNum(d)
    && (q.op != Div ==> 1 <= q.num1 <= MaxNum(d))
    && (q.op == Add ==> q.answer == q.num1 + q.num2)
    && (q.op == Sub ==> q.num1 >= q.num2 && q.answer == q.num1 - q.num2)
    && (q.op == Mul ==> q.answer == q.num1 * q.num2)
    && (q.op == Div ==> q.num1 == q.num2 * q.answer && q.num1 % q.num2 == 0
                        && q.num1 / q.num2 == q.answer && 1 <= q.answer <= 10)
  }

  predicate WellFormed(q: Question, d: Difficulty)
  {
    WellFormedOperands(q, d) && WellFormedOptions(q.options, q.answer)
  }

  /** The answer of a well-formed question is never negative, so an answer of -1 (the
      timeout) is always wrong. */
  lemma AnswerNonNegative(q: Question, d: Difficulty)
    requires WellFormedOperands(q, d)
    ensures q.answer >= 0 && AnswerRange(q.op, q.answer)
  {
    if q.op == Mul {
      MulAtLeast(q.num1, q.num2);
    }
  }

  predicate IsPermutation(perm: seq<nat>, n: nat)
  {
    |perm| == n && Distinct(perm)
    && (forall i :: 0 <= i < n ==> perm[i] < n)
    && (forall k :: 0 <= k < n ==> k in perm)
  }

  /** `opcoes.sort(() => Math.random() - 0.5)`: some rearrangement of the options. */
  function Shuffle(s: seq<real>, perm: seq<nat>): (r: seq<real>)
    requires IsPermutation(perm, |s|)
    ensures |r| == |s|
    ensures forall x :: x in r <==> x in s
    ensures Distinct(s) ==> Distinct(r)
  {
    var r := seq(|s|, i requires 0 <= i < |s| => s[perm[i]]);
    assert forall x :: x in s ==> x in r by {
      forall x | x in s ensures x in r {
        var k :| 0 <= k < |s| && s[k] == x;
        assert k in perm;
        var i :| 0 <= i < |perm| && perm[i] == k;
        assert r[i] == x;
      }
    }
    r
  }

  /** c is the candidate of one of the draws. */
  predicate FromDraws(c: real, op: Operation, r: int, noise: seq<real>)
    requires AllUnit(noise)
  {
    exists k :: 0 <= k < |noise| && c == Candidate(op, r, noise[k])
  }

  /**
   * The distractor loop `while (opcoes.length < 4)`: each round draws one candidate and
   * pushes it when it is positive, different from the answer and not yet an option.
   * `complete` is false when the draws ran out before three distractors were found;
   * for a stuck answer that is the only way the loop stops.
   */
  method CollectOptions(op: Operation, r: int, noise: seq<real>) returns (opcoes: seq<real>, complete: bool)
    requires AllUnit(noise)
    ensures 1 <= |opcoes| <= 4 && opcoes[0] == r as real
    ensures complete <==> |opcoes| == 4
    ensures Distinct(opcoes)
    ensures forall i :: 1 <= i < |opcoes| ==> Admissible(opcoes[i], r)
    ensures forall i :: 1 <= i < |opcoes| ==> FromDraws(opcoes[i], op, r, noise)
    ensures Stuck(op, r) ==> !complete
    ensures !complete ==> forall k :: 0 <= k < |noise| ==>
      !Admissible(Candidate(op, r, noise[k]), r) || Candidate(op, r, noise[k]) in opcoes
    ensures HasThreeDistractors(op, r, noise) ==> complete
  {
    opcoes := [r as real];
    var k := 0;
    ghost var source: seq<nat> := [];
    assert opcoes[1..] == [];
    while |opcoes| < 4 && k < |noise|
      invariant 0 <= k <= |noise|
      invariant 1 <= |opcoes| <= 4 && opcoes[0] == r as real
      invariant |source| == |opcoes| - 1
      invariant Distinct(opcoes)
      invariant forall i :: 1 <= i < |opcoes| ==> Admissible(opcoes[i], r)
      invariant forall j :: 0 <= j < |source| ==> source[j] < k
      invariant forall j :: 0 <= j < |source| ==> opcoes[j + 1] == Candidate(op, r, noise[source[j]])
      invariant Stuck(op, r) ==> opcoes[1..] in StuckPrefixes(StuckValues(op, r))
      invariant Covered(op, r, noise, k, opcoes)
    {
      var c := Candidate(op, r, noise[k]);
      ghost var before := opcoes;
      if c != r as real && c !in opcoes && c > 0.0 {
        assert (opcoes + [c])[1..] == opcoes[1..] + [c];
        if Stuck(op, r) {
          StuckCandidates(op, r, noise[k]);
          StuckPrefixExtend(StuckValues(op, r), opcoes[1..], c);
        }
        opcoes := opcoes + [c];
        source := source + [k];
      }
      CoveredStep(op, r, noise, k, before, opcoes);
      k := k + 1;
    }
    complete := |opcoes| == 4;
    forall i | 1 <= i < |opcoes|
      ensures FromDraws(opcoes[i], op, r, noise)
    {
      var j := source[i - 1];
      assert 0 <= j < |noise| && opcoes[i] == Candidate(op, r, noise[j]);
    }
    if HasThreeDistractors(op, r, noise) {
      ThreeForceFour(op, r, noise, opcoes);
    }
    assert !complete ==> Covered(op, r, noise, |noise|, opcoes);
  }

  /**
   * `gerarQuestao(id, dificuldade)`. The draws u1 and u2 give the operands, uOp the
   * operator, uK the multiplier of a division; `noise` feeds the distractor loop and
   * `perm` is the order the shuffle produces. When `complete` is false the loop had not
   * found three distractors when the draws ran out (the source would still be looping):
   * `q.options` then holds the options collected so far, unshuffled.
   */
  method GerarQuestao(id: int, d: Difficulty, u1: real, u2: real, uOp: real, uK: real,
                      noise: seq<real>, perm: seq<nat>)
    returns (q: Question, complete: bool)
    requires Unit(u1) && Unit(u2) && Unit(uOp) && Unit(uK) && AllUnit(noise)
    requires IsPermutation(perm, 4)
    ensures q.id == id && q.op == PickOperation(d, uOp)
    ensures WellFormedOperands(q, d)
    ensures var a, b := Pick(u1, MaxNum(d)) + 1, Pick(u2, MaxNum(d)) + 1;
      && (q.op == Add || q.op == Mul ==> q.num1 == a && q.num2 == b)
      && (q.op == Sub ==> q.num1 == Max(a, b) && q.num2 == Min(a, b) && (q.answer == 0 <==> a == b))
      && (q.op == Div ==> q.num2 == b && q.answer == Pick(uK, 10) + 1)
    ensures complete ==> WellFormedOptions(q.options, q.answer)
    ensures complete ==> forall i :: 0 <= i < 4 && q.options[i] != q.answer as real ==>
              FromDraws(q.options[i], q.op, q.answer, noise)
    ensures !complete ==> 1 <= |q.options| < 4 && q.options[0] == q.answer as real
    ensures !complete ==> Covered(q.op, q.answer, noise, |noise|, q.options)
    ensures Stuck(q.op, q.answer) ==> !complete
    ensures HasThreeDistractors(q.op, q.answer, noise) ==> complete
  {
    var maxNum := MaxNum(d);
    var num1 := Pick(u1, maxNum) + 1;
    var num2 := Pick(u2, maxNum) + 1;
    var op := PickOperation(d, uOp);
    var n1, n2 := num1, num2;
    if op == Sub && num2 > num1 {
      n1, n2 := num2, num1;
    }
    if op == Div {
      n2 := Max(1, n2);
      n1 := n2 * (Pick(uK, 10) + 1);
      ExactDivision(n2, Pick(uK, 10) + 1);
    }
    var answer := Evaluate(op, n1, n2);
    var opcoes;
    opcoes, complete := CollectOptions(op, answer, noise);
    if complete {
      var shuffled := Shuffle(opcoes, perm);
      forall i | 0 <= i < 4 && shuffled[i] != answer as real
        ensures Admissible(shuffled[i], answer)
        ensures FromDraws(shuffled[i], op, answer, noise)
      {
        assert shuffled[i] in opcoes;
        var j :| 0 <= j < 4 && opcoes[j] == shuffled[i];
        assert j != 0;
      }
      opcoes := shuffled;
    }
    q := Question(id, n1, n2, op, answer, opcoes);
  }
}
