/**
 * The quiz session of the arithmetic game screen: a player answers a fixed number of
 * generated questions against a countdown, scoring points for correct answers and losing a
 * life for wrong ones, and the final score enters a five-place ranking.
 *
 * Two seconds after each answer a continuation decides between ending the game and showing
 * the next question. It runs with the values its closure captured when the answer was
 * given: whether it was correct, the player as they were BEFORE that answer, and the question
 * index. Such continuations are kept in the queue `pending` until `Continuar` runs them,
 * and they survive a restart, as timers do.
 */
module QuizGame {
  import opened Common
  import opened QuestionGen
  import opened Scoring
  import opened Leaderboard

  datatype Config = Config(dificuldade: Difficulty, modo: Mode, tempoQuestao: int, totalQuestoes: int)

  /** The configuration the screen starts with and never changes. */
  const InitialConfig: Config := Config(Facil, Single, 15, 10)

  datatype Player = Player(id: int, nome: string, avatar: string, pontuacao: int, vidas: int, nivel: int)

  /** The player every session starts from. */
  const InitialPlayer: Player := Player(1, "Jogador 1", "/avatares/menino-matematica.png", 0, 3, 1)

  /** The ranking every session starts from. */
  const InitialRanking: seq<Player> := [
    Player(2, "Campeão", "/avatares/robo-matematica.png", 950, 3, 5),
    Player(3, "Gênio", "/avatares/professora-matematica.png", 820, 2, 4),
    Player(4, "Calculadora", "/avatares/menina-matematica.png", 750, 1, 3)]

  function PlayerScore(p: Player): int { p.pontuacao }

  /** `[...prev, jogador].sort((a, b) => b.pontuacao - a.pontuacao).slice(0, 5)`. */
  function UpdateRanking(prev: seq<Player>, p: Player): (r: seq<Player>)
    ensures |r| == Min(5, |prev| + 1)
    ensures NonIncreasing(r, PlayerScore)
    ensures multiset(r) <= multiset(prev + [p])
  {
    Top(prev + [p], 5, PlayerScore)
  }

  /**
   * The same update computed by inserting the player into the ranking, which is always
   * sorted: the player goes after every entry with at least their score.
   */
  function InsertRanking(prev: seq<Player>, p: Player): (r: seq<Player>)
    requires NonIncreasing(prev, PlayerScore)
    ensures |r| == Min(5, |prev| + 1)
    ensures NonIncreasing(r, PlayerScore)
  {
    var s := Insert(p, prev, PlayerScore);
    s[..Min(5, |s|)]
  }

  /** On a sorted ranking, inserting the player is the source's sort-and-slice. */
  lemma InsertRankingIsUpdate(prev: seq<Player>, p: Player)
    requires NonIncreasing(prev, PlayerScore)
    ensures InsertRanking(prev, p) == UpdateRanking(prev, p)
  {
    SortSnoc(prev, p, PlayerScore);
  }

  /** The player enters the ranking when it had a free place, and stays out of it only when
      the lowest kept score is at least theirs. */
  lemma PlayerRanked(prev: seq<Player>, p: Player)
    ensures |prev| < 5 ==> p in UpdateRanking(prev, p)
    ensures p !in UpdateRanking(prev, p) ==>
      var r := UpdateRanking(prev, p);
      |r| == 5 && PlayerScore(p) <= PlayerScore(r[4])
  {
    var all := prev + [p];
    var r := UpdateRanking(prev, p);
    assert all[|prev|] == p;
    assert p in multiset(all);
    if |prev| < 5 {
      assert p in multiset(r);
    } else if p !in r {
      assert p !in multiset(r);
    }
  }

  /** The ranking before any game is sorted. */
  lemma InitialRankingSorted()
    ensures NonIncreasing(InitialRanking, PlayerScore) && |InitialRanking| <= 5
  {
  }

  /** What the closure scheduled by an answer captured. */
  datatype Continuation = Continuation(estaCorreto: bool, jogador: Player, questaoIndex: int)

  /** Whether a continuation ends the game: a wrong answer given with at most one life
      left before it, or an answer to the last question. */
  predicate EndsGame(c: Continuation, config: Config)
  {
    (!c.estaCorreto && c.jogador.vidas <= 1) || c.questaoIndex + 1 >= config.totalQuestoes
  }

  class Session {
    const config: Config
    var jogador: Player
    var questaoAtual: Option<Question>
    var questaoIndex: int
    var respostaSelecionada: Option<real>
    var respostaCorreta: Option<bool>
    var tempo: int
    var jogoIniciado: bool
    var jogoTerminado: bool
    var pausado: bool
    var ranking: seq<Player>
    var pending: seq<Continuation>

    predicate Valid()
      reads this
    {
      && config == InitialConfig
      && 0 <= tempo <= config.tempoQuestao
      && 0 <= questaoIndex < config.totalQuestoes
      && jogador.pontuacao >= 0 && jogador.vidas <= 3
      && (questaoAtual.Some? ==> WellFormed(questaoAtual.value, config.dificuldade))
      && (respostaSelecionada.Some? <==> respostaCorreta.Some?)
      && (respostaSelecionada.Some? ==> (questaoAtual.Some? &&
           respostaCorreta.value == (respostaSelecionada.value == questaoAtual.value.answer as real)))
      && (forall i :: 0 <= i < |pending| ==>
           0 <= pending[i].questaoIndex < config.totalQuestoes && pending[i].jogador.pontuacao >= 0)
      && |ranking| <= 5 && NonIncreasing(ranking, PlayerScore)
    }

    /** The screen as first rendered: the fixed configuration, nothing started, no
        question, the stock ranking. */
    constructor ()
      ensures Valid()
      ensures config == InitialConfig && jogador == InitialPlayer && ranking == InitialRanking
      ensures config.dificuldade == Facil && config.tempoQuestao == 15 && config.totalQuestoes == 10
      ensures questaoAtual.None? && questaoIndex == 0 && tempo == config.tempoQuestao
      ensures respostaSelecionada.None? && respostaCorreta.None?
      ensures !jogoIniciado && !jogoTerminado && !pausado && pending == []
    {
      config := InitialConfig;
      jogador := InitialPlayer;
      questaoAtual := None;
      questaoIndex := 0;
      respostaSelecionada := None;
      respostaCorreta := None;
      tempo := InitialConfig.tempoQuestao;
      jogoIniciado := false;
      jogoTerminado := false;
      pausado := false;
      ranking := InitialRanking;
      pending := [];
    }

    /** `iniciarJogo` (and `reiniciarJogo`): first question, full clock, score 0, three lives. */
    method IniciarJogo(first: Question)
      requires Valid()
      requires WellFormed(first, config.dificuldade) && first.id == 1
      modifies this
      ensures Valid()
      ensures jogoIniciado && !jogoTerminado && questaoIndex == 0
      ensures jogador == old(jogador).(pontuacao := 0, vidas := 3)
      ensures questaoAtual == Some(first) && tempo == config.tempoQuestao
      ensures respostaSelecionada.None? && respostaCorreta.None?
      ensures pausado == old(pausado) && ranking == old(ranking) && pending == old(pending)
    {
      jogoIniciado := true;
      jogoTerminado := false;
      questaoIndex := 0;
      jogador := jogador.(pontuacao := 0, vidas := 3);
      questaoAtual := Some(first);
      tempo := config.tempoQuestao;
      respostaSelecionada := None;
      respostaCorreta := None;
    }

    /**
     * `handleResposta`: accepted only while a question is shown and nothing is selected.
     * A correct answer earns `Points` for the time left, a wrong one costs exactly one life,
     * and a continuation capturing the player as before the answer is scheduled.
     */
    method Responder(resposta: real) returns (accepted: bool)
      requires Valid()
      modifies this
      ensures Valid()
      ensures accepted <==> old(questaoAtual).Some? && old(respostaSelecionada).None?
      ensures !accepted ==> (jogador == old(jogador) && respostaSelecionada == old(respostaSelecionada)
        && respostaCorreta == old(respostaCorreta) && pending == old(pending))
      ensures accepted ==>
        var correct := resposta == old(questaoAtual).value.answer as real;
        && respostaSelecionada == Some(resposta) && respostaCorreta == Some(correct)
        && jogador == (if correct
                       then old(jogador).(pontuacao := old(jogador).pontuacao + Points(config.dificuldade, tempo))
                       else old(jogador).(vidas := old(jogador).vidas - 1))
        && pending == old(pending) + [Continuation(correct, old(jogador), questaoIndex)]
      ensures questaoAtual == old(questaoAtual) && questaoIndex == old(questaoIndex) && tempo == old(tempo)
      ensures jogoIniciado == old(jogoIniciado) && jogoTerminado == old(jogoTerminado)
      ensures pausado == old(pausado) && ranking == old(ranking)
    {
      accepted := questaoAtual.Some? && respostaSelecionada.None?;
      if !accepted {
        return;
      }
      var correct := resposta == questaoAtual.value.answer as real;
      var snapshot := jogador;
      respostaSelecionada := Some(resposta);
      respostaCorreta := Some(correct);
      if correct {
        jogador := jogador.(pontuacao := jogador.pontuacao + Points(config.dificuldade, tempo));
      } else {
        jogador := jogador.(vidas := jogador.vidas - 1);
      }
      pending := pending + [Continuation(correct, snapshot, questaoIndex)];
    }

    /**
     * One second of the countdown, which runs while the game is started, not over and not
     * paused. At one second or less the clock stops at 0 and, when nothing is selected, the
     * answer -1 is submitted, which is always wrong and so costs a life; an answer already
     * given, or no question on screen, leaves the player and the schedule as they are.
     */
    method Tick()
      requires Valid()
      modifies this
      ensures Valid()
      ensures !(old(jogoIniciado) && !old(jogoTerminado) && !old(pausado)) ==>
        tempo == old(tempo) && jogador == old(jogador) && pending == old(pending)
        && respostaSelecionada == old(respostaSelecionada)
      ensures old(jogoIniciado) && !old(jogoTerminado) && !old(pausado) && old(tempo) > 1 ==>
        tempo == old(tempo) - 1 && jogador == old(jogador) && pending == old(pending)
        && respostaSelecionada == old(respostaSelecionada)
      ensures old(jogoIniciado) && !old(jogoTerminado) && !old(pausado) && old(tempo) <= 1 ==>
        tempo == 0 &&
        (old(respostaSelecionada).None? && old(questaoAtual).Some? ==>
          respostaSelecionada == Some(-1.0) && respostaCorreta == Some(false)
          && jogador == old(jogador).(vidas := old(jogador).vidas - 1)
          && pending == old(pending) + [Continuation(false, old(jogador), questaoIndex)])
      ensures (old(jogoIniciado) && !old(jogoTerminado) && !old(pausado) && old(tempo) <= 1
               && !(old(respostaSelecionada).None? && old(questaoAtual).Some?)) ==>
        jogador == old(jogador) && pending == old(pending)
        && respostaSelecionada == old(respostaSelecionada) && respostaCorreta == old(respostaCorreta)
      ensures questaoAtual == old(questaoAtual) && questaoIndex == old(questaoIndex)
      ensures jogoIniciado == old(jogoIniciado) && jogoTerminado == old(jogoTerminado)
      ensures pausado == old(pausado) && ranking == old(ranking)
    {
      if !(jogoIniciado && !jogoTerminado && !pausado) {
        return;
      }
      if tempo > 1 {
        tempo := tempo - 1;
        return;
      }
      if respostaSelecionada.None? {
        if questaoAtual.Some? {
          AnswerNonNegative(questaoAtual.value, config.dificuldade);
        }
        var _ := Responder(-1.0);
      }
      tempo := 0;
    }

    /**
     * Runs the oldest scheduled continuation. It ends the game, entering the captured player
     * into the ranking, when `EndsGame` holds; otherwise it shows `next` as question number
     * index + 2 with a full clock and no selection.
     */
    method Continuar(next: Question)
      requires Valid() && pending != []
      requires WellFormed(next, config.dificuldade) && next.id == pending[0].questaoIndex + 2
      modifies this
      ensures Valid()
      ensures pending == old(pending[1..])
      ensures EndsGame(old(pending[0]), config) ==>
        && jogoTerminado && ranking == InsertRanking(old(ranking), old(pending[0]).jogador)
        && questaoAtual == old(questaoAtual) && questaoIndex == old(questaoIndex) && tempo == old(tempo)
        && respostaSelecionada == old(respostaSelecionada) && respostaCorreta == old(respostaCorreta)
      ensures !EndsGame(old(pending[0]), config) ==>
        && jogoTerminado == old(jogoTerminado) && ranking == old(ranking)
        && questaoIndex == old(pending[0]).questaoIndex + 1 && questaoAtual == Some(next)
        && tempo == config.tempoQuestao && respostaSelecionada.None? && respostaCorreta.None?
      ensures jogador == old(jogador) && jogoIniciado == old(jogoIniciado) && pausado == old(pausado)
    {
      var c := pending[0];
      assert forall i :: 0 <= i < |pending| - 1 ==> pending[1..][i] == pending[i + 1];
      pending := pending[1..];
      if EndsGame(c, config) {
        Terminar(c.jogador);
      } else {
        questaoIndex := c.questaoIndex + 1;
        questaoAtual := Some(next);
        tempo := config.tempoQuestao;
        respostaSelecionada := None;
        respostaCorreta := None;
      }
    }

    /** The end of a game: the screen shows the result and `p` enters the ranking. */
    method Terminar(p: Player)
      requires Valid()
      modifies this
      ensures Valid()
      ensures jogoTerminado && ranking == InsertRanking(old(ranking), p)
      ensures jogador == old(jogador) && questaoAtual == old(questaoAtual) && questaoIndex == old(questaoIndex)
      ensures tempo == old(tempo) && respostaSelecionada == old(respostaSelecionada)
      ensures respostaCorreta == old(respostaCorreta) && jogoIniciado == old(jogoIniciado)
      ensures pausado == old(pausado) && pending == old(pending)
    {
      jogoTerminado := true;
      ranking := InsertRanking(ranking, p);
    }

    /** `togglePause`. */
    method TogglePause()
      requires Valid()
      modifies this
      ensures Valid()
      ensures pausado == !old(pausado)
      ensures jogador == old(jogador) && questaoAtual == old(questaoAtual) && questaoIndex == old(questaoIndex)
      ensures tempo == old(tempo) && respostaSelecionada == old(respostaSelecionada)
      ensures respostaCorreta == old(respostaCorreta) && jogoIniciado == old(jogoIniciado)
      ensures jogoTerminado == old(jogoTerminado) && ranking == old(ranking) && pending == old(pending)
    {
      pausado := !pausado;
    }

    /** `voltarAoMenu`: back to the start screen; the rest of the state stays. */
    method VoltarAoMenu()
      requires Valid()
      modifies this
      ensures Valid()
      ensures !jogoIniciado && !jogoTerminado
      ensures jogador == old(jogador) && questaoAtual == old(questaoAtual) && questaoIndex == old(questaoIndex)
      ensures tempo == old(tempo) && respostaSelecionada == old(respostaSelecionada)
      ensures respostaCorreta == old(respostaCorreta) && pausado == old(pausado)
      ensures ranking == old(ranking) && pending == old(pending)
    {
      jogoIniciado := false;
      jogoTerminado := false;
    }
  }
}
