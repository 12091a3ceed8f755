/** The scoring rules both games share. */
module Scoring {
  import opened Common

  /** `pontosPorQuestao`: 10, 20 or 30 points per correct answer. */
  function BasePoints(d: Difficulty): int
  {
    match d
    case Facil => 10
    case Medio => 20
    case Dificil => 30
  }

  /** `Math.floor(tempo * 0.5)`, the bonus for the seconds left on the clock. */
  function TimeBonus(tempo: int): (b: int)
    ensures b as real == ((tempo as real) * 0.5).Floor as real
    ensures tempo >= 0 ==> 0 <= b <= tempo
  {
    var q, m := tempo / 2, tempo % 2;
    assert tempo == 2 * q + m && (m == 0 || m == 1);
    assert (tempo as real) * 0.5 == q as real + (m as real) * 0.5;
    assert ((tempo as real) * 0.5).Floor == q;
    q
  }

  /** Points for a correct answer given with `tempo` seconds left. */
  function Points(d: Difficulty, tempo: int): (p: int)
    ensures tempo >= 0 ==> BasePoints(d) <= p <= BasePoints(d) + tempo
  {
    BasePoints(d) + TimeBonus(tempo)
  }

  /** More time left never earns fewer points, and a harder tier always earns more. */
  lemma PointsMonotone(d: Difficulty, e: Difficulty, t1: int, t2: int)
    requires t1 <= t2
    ensures Points(d, t1) <= Points(d, t2)
    ensures BasePoints(d) < BasePoints(e) ==> Points(d, t1) < Points(e, t1)
  {
  }

  /** A correct answer on the easy tier with 18 seconds left is worth 10 + 9 points. */
  lemma EasyAnswerWithEighteenSeconds()
    ensures Points(Facil, 18) == 19
  {
  }

  /** `Math.floor(melhorPontuacao / 100) + 1`. */
  function LevelFor(best: int): (level: int)
    ensures best >= 0 ==> level >= 1
    ensures (level - 1) * 100 <= best < level * 100
  {
    best / 100 + 1
  }

  /** The level never drops when the best score grows. */
  lemma {:induction false} LevelMonotone(a: int, b: int)
    requires a <= b
    ensures LevelFor(a) <= LevelFor(b)
  {
  }

  /** The best score kept at the end of a game: never below the previous best, and equal to
      one of the two scores. */
  function BestScore(previous: int, current: int): (best: int)
    ensures best >= previous && best >= current
    ensures best == previous || best == current
  {
    Max(previous, current)
  }
}
