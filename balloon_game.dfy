/**
 * The balloon game screen: the player shoots an arrow at one of four balloons carrying the
 * options of a generated question. A correct hit scores points, a wrong hit or a timeout
 * costs a life, and at the end the best score and the level are written to the profile.
 *
 * Every `setTimeout` continuation of the screen is kept in the queue `pending` until
 * `Disparar` runs it. A continuation runs with the values its closure captured when it was
 * scheduled: the question index and the score as they were BEFORE the answer that
 * scheduled it, so the points of a correct answer to the last question are not among
 * those saved.
 */
module BalloonGame {
  import opened Common
  import opened QuestionGen
  import opened Scoring
  import opened UserStore

  /** Seconds per question and number of questions. */
  datatype Settings = Settings(tempoQuestao: int, totalQuestoes: int)

  /** The settings before the profile is read. */
  const DefaultSettings: Settings := Settings(20, 10)

  /** The table applied when the profile names a difficulty. */
  function ConfigFor(d: Difficulty): (s: Settings)
    ensures s.tempoQuestao >= 1 && s.totalQuestoes >= 1
    ensures d == Facil ==> s == Settings(20, 8)
    ensures d == Medio ==> s == Settings(15, 10)
    ensures d == Dificil ==> s == Settings(12, 12)
  {
    match d
    case Facil => Settings(20, 8)
    case Medio => Settings(15, 10)
    case Dificil => Settings(12, 12)
  }

  /** A harder tier gives less time per question and more questions. */
  lemma HarderIsShorterAndLonger(d: Difficulty, e: Difficulty)
    requires BasePoints(d) < BasePoints(e)
    ensures ConfigFor(e).tempoQuestao < ConfigFor(d).tempoQuestao
    ensures ConfigFor(e).totalQuestoes > ConfigFor(d).totalQuestoes
  {
  }

  /** `coresBaloes`: eight colour classes, used in turn. */
  const Cores: seq<string> := [
    "bg-red-400", "bg-blue-400", "bg-green-400", "bg-yellow-400",
    "bg-purple-400", "bg-pink-400", "bg-orange-400", "bg-teal-400"]

  /** A balloon without its screen position. */
  datatype Balloon = Balloon(id: int, valor: real, cor: string)

  /** The value of balloon i: option i, or for a missing option `Math.floor(u * 100)`. */
  function BalloonValue(opcoes: seq<real>, noise: seq<real>, i: nat): real
    requires AllUnit(noise) && i < 4 && |opcoes| + |noise| >= 4
  {
    if i < |opcoes| then opcoes[i] else Pick(noise[i - |opcoes|], 100) as real
  }

  /**
   * The four balloons for a list of options: balloon i has id i and colour i mod 8, carries
   * option i when there is one, and otherwise a whole number below 100.
   */
  function BalloonsFor(opcoes: seq<real>, noise: seq<real>): (r: seq<Balloon>)
    requires AllUnit(noise) && |opcoes| + |noise| >= 4
    ensures |r| == 4
    ensures forall i :: 0 <= i < 4 ==> r[i].id == i && r[i].cor == Cores[i % 8]
    ensures forall i :: 0 <= i < 4 && i < |opcoes| ==> r[i].valor == opcoes[i]
    ensures forall i :: |opcoes| <= i < 4 ==>
      0.0 <= r[i].valor < 100.0 && r[i].valor.Floor as real == r[i].valor
  {
    seq(4, i requires 0 <= i < 4 => Balloon(i, BalloonValue(opcoes, noise, i), Cores[i % 8]))
  }

  /**
   * `gerarBaloes`: keeps the first four options, pads with random whole numbers until
   * there are four, and gives each one its balloon.
   */
  method GerarBaloes(opcoes: seq<real>, noise: seq<real>) returns (bs: seq<Balloon>)
    requires AllUnit(noise) && |opcoes| + |noise| >= 4
    ensures bs == BalloonsFor(opcoes, noise)
  {
    var exatas := if |opcoes| <= 4 then opcoes else opcoes[..4];
    var k := 0;
    while |exatas| < 4
      invariant |exatas| == Min(|opcoes|, 4) + k <= 4 && k <= |noise|
      invariant forall i :: 0 <= i < |exatas| ==> exatas[i] == BalloonValue(opcoes, noise, i)
      decreases 4 - |exatas|
    {
      exatas := exatas + [Pick(noise[k], 100) as real];
      k := k + 1;
    }
    bs := [];
    var i := 0;
    while i < 4
      invariant 0 <= i <= 4 && |bs| == i
      invariant forall j :: 0 <= j < i ==> bs[j] == Balloon(j, exatas[j], Cores[j % 8])
    {
      bs := bs + [Balloon(i, exatas[i], Cores[i % 8])];
      i := i + 1;
    }
  }

  /**
   * For a generated question the balloons carry exactly its options, in order, with four
   * different colours, and exactly one balloon carries the right answer.
   */
  lemma BalloonsShowOptions(q: Question, d: Difficulty, noise: seq<real>) returns (k: nat)
    requires WellFormed(q, d) && AllUnit(noise)
    ensures var bs := BalloonsFor(q.options, noise);
      && (forall i :: 0 <= i < 4 ==> bs[i].valor == q.options[i])
      && (forall i, j :: 0 <= i < j < 4 ==> bs[i].cor != bs[j].cor)
      && k < 4 && bs[k].valor == q.answer as real
      && (forall i :: 0 <= i < 4 && i != k ==> bs[i].valor != q.answer as real)
  {
    var bs := BalloonsFor(q.options, noise);
    k :| 0 <= k < 4 && q.options[k] == q.answer as real;
    forall i | 0 <= i < 4 && i != k ensures bs[i].valor != q.answer as real {
      if i < k {
        assert q.options[i] != q.options[k];
      } else {
        assert q.options[k] != q.options[i];
      }
    }
  }

  /** A continuation scheduled by the screen. */
  datatype Scheduled =
    | ResetArrow                                      // after a miss: the bow is ready again
    | Advance(questaoIndex: int, pontuacao: int)      // `proximaQuestao` as captured
    | Finish(pontuacao: int)                          // `finalizarJogo` as captured

  /** The values the countdown's closure captured when the countdown last started: a timeout
      judges with these, not with the ones on screen. */
  datatype Snapshot = Snapshot(vidas: int, pontuacao: int, questaoIndex: int)

  /** What a wrong answer schedules: the end of the game when the lives before it were at
      most one, the next question otherwise. */
  function AfterWrong(vidas: int, pontuacao: int, questaoIndex: int): (c: Scheduled)
    ensures c.Finish? <==> vidas <= 1
    ensures c.Finish? ==> c == Finish(pontuacao)
    ensures !c.Finish? ==> c == Advance(questaoIndex, pontuacao)
  {
    if vidas <= 1 then Finish(pontuacao) else Advance(questaoIndex, pontuacao)
  }

  /** The patch `finalizarJogo` sends: the better of the stored score (0 when there is
      none) and the captured one, and the level for it. */
  function FinalPatch(u: Profile, pontuacao: int): (p: Patch)
    ensures p.avatar.None? && p.dificuldade.None? && p.modoJogo.None?
    ensures p.pontuacao.Some? && p.nivel.Some?
    ensures p.pontuacao.value >= u.pontuacao.GetOr(0) && p.pontuacao.value >= pontuacao
    ensures p.pontuacao.value == u.pontuacao.GetOr(0) || p.pontuacao.value == pontuacao
  {
    var best := BestScore(u.pontuacao.GetOr(0), pontuacao);
    Patch(None, None, None, Some(best), Some(LevelFor(best)))
  }

  /**
   * Saving a game's score never lowers the stored best, keeps the level matched to the
   * best score, and saving a lower score again changes nothing further.
   */
  lemma SaveKeepsBest(u: Profile, pontuacao: int, later: int)
    requires pontuacao >= 0
    ensures var v := Merge(u, FinalPatch(u, pontuacao));
      && v.pontuacao.Some? && v.pontuacao.value >= u.pontuacao.GetOr(0) && v.pontuacao.value >= pontuacao
      && v.nivel == Some(LevelFor(v.pontuacao.value)) && v.nivel.value >= 1
      && (later <= v.pontuacao.value ==> Merge(v, FinalPatch(v, later)) == v)
  {
    var v := Merge(u, FinalPatch(u, pontuacao));
    assert v.pontuacao.value >= 0;
    if later <= v.pontuacao.value {
      assert FinalPatch(v, later).pontuacao == v.pontuacao;
    }
  }

  class Game {
    /** The application's profile store, which the screen reads and updates. */
    const store: Store
    var dificuldade: Difficulty
    var tempoQuestao: int
    var totalQuestoes: int
    var pontuacao: int
    var vidas: int
    var questaoAtual: Option<Question>
    var questaoIndex: int
    var respostaCorreta: Option<bool>
    var tempo: int
    var jogoIniciado: bool
    var jogoTerminado: bool
    var pausado: bool
    var baloes: seq<Balloon>
    var podeAtirar: bool
    /** The running countdown has reached 0 and cleared itself; it starts again when the
        question, the pause or the started/over flags change. */
    var relogioParado: bool
    /** What the running countdown captured when it started. */
    var relogio: Snapshot
    var pending: seq<Scheduled>

    predicate Valid()
      reads this, store
    {
      && store.Valid()
      && tempoQuestao >= 1 && totalQuestoes >= 1
      && pontuacao >= 0 && vidas <= 3 && tempo >= 0 && questaoIndex >= 0
      && (|baloes| == 0 || |baloes| == 4)
      && relogio.pontuacao >= 0 && relogio.questaoIndex >= 0
      && forall i :: 0 <= i < |pending| ==> ScheduledOk(pending[i])
    }

    static predicate ScheduledOk(c: Scheduled)
    {
      match c
      case ResetArrow => true
      case Advance(i, p) => i >= 0 && p >= 0
      case Finish(p) => p >= 0
    }

    /** Whether the countdown is running. */
    predicate Running()
      reads this
    {
      jogoIniciado && !jogoTerminado && !pausado && questaoAtual.Some? && !relogioParado
    }

    /** The screen as first rendered. */
    constructor (s: Store)
      requires s.Valid()
      ensures Valid() && store == s
      ensures dificuldade == Facil && Settings(tempoQuestao, totalQuestoes) == DefaultSettings
      ensures pontuacao == 0 && vidas == 3 && questaoAtual.None? && questaoIndex == 0
      ensures respostaCorreta.None? && tempo == DefaultSettings.tempoQuestao
      ensures !jogoIniciado && !jogoTerminado && !pausado
      ensures baloes == [] && podeAtirar && !relogioParado && pending == []
      ensures relogio == Snapshot(3, 0, 0)
    {
      store := s;
      dificuldade := Facil;
      tempoQuestao := DefaultSettings.tempoQuestao;
      totalQuestoes := DefaultSettings.totalQuestoes;
      pontuacao := 0;
      vidas := 3;
      questaoAtual := None;
      questaoIndex := 0;
      respostaCorreta := None;
      tempo := DefaultSettings.tempoQuestao;
      jogoIniciado := false;
      jogoTerminado := false;
      pausado := false;
      baloes := [];
      podeAtirar := true;
      relogioParado := false;
      relogio := Snapshot(3, 0, 0);
      pending := [];
    }

    /** The profile effect: a difficulty named by the session's profile selects its row of
        the table; otherwise the settings stay. */
    method CarregarConfiguracoes()
      requires Valid()
      modifies this`dificuldade, this`tempoQuestao, this`totalQuestoes
      ensures Valid()
      ensures store.usuario.Some? && store.usuario.value.dificuldade.Some? ==>
        dificuldade == store.usuario.value.dificuldade.value
        && Settings(tempoQuestao, totalQuestoes) == ConfigFor(dificuldade)
      ensures !(store.usuario.Some? && store.usuario.value.dificuldade.Some?) ==>
        dificuldade == old(dificuldade) && tempoQuestao == old(tempoQuestao)
        && totalQuestoes == old(totalQuestoes)
    {
      if store.usuario.Some? && store.usuario.value.dificuldade.Some? {
        dificuldade := store.usuario.value.dificuldade.value;
        var s := ConfigFor(dificuldade);
        tempoQuestao := s.tempoQuestao;
        totalQuestoes := s.totalQuestoes;
      }
    }

    /** The start effect: a screen neither started nor over becomes started. */
    method Iniciar()
      requires Valid()
      modifies this`jogoIniciado, this`relogioParado, this`relogio
      ensures Valid()
      ensures !old(jogoIniciado) && !jogoTerminado ==>
        jogoIniciado && !relogioParado && relogio == Snapshot(vidas, pontuacao, questaoIndex)
      ensures old(jogoIniciado) || jogoTerminado ==>
        jogoIniciado == old(jogoIniciado) && relogioParado == old(relogioParado) && relogio == old(relogio)
    {
      if !jogoIniciado && !jogoTerminado {
        jogoIniciado := true;
        relogioParado := false;
        relogio := Snapshot(vidas, pontuacao, questaoIndex);
      }
    }

    /**
     * The first-question effect: once started, not over, not paused and without a question,
     * `first` becomes question 1 with a full clock and, when the game area is on screen,
     * its balloons.
     */
    method MostrarPrimeiraQuestao(first: Question, noise: seq<real>, areaReady: bool)
      requires Valid()
      requires WellFormed(first, dificuldade) && first.id == 1 && AllUnit(noise)
      modifies this`questaoAtual, this`tempo, this`baloes, this`relogioParado, this`relogio
      ensures Valid()
      ensures old(jogoIniciado && !jogoTerminado && !pausado && questaoAtual.None?) ==>
        && questaoAtual == Some(first) && tempo == tempoQuestao && !relogioParado
        && baloes == (if areaReady then BalloonsFor(first.options, noise) else old(baloes))
        && relogio == Snapshot(vidas, pontuacao, questaoIndex)
      ensures !old(jogoIniciado && !jogoTerminado && !pausado && questaoAtual.None?) ==>
        questaoAtual == old(questaoAtual) && tempo == old(tempo) && baloes == old(baloes)
        && relogioParado == old(relogioParado) && relogio == old(relogio)
    {
      if jogoIniciado && !jogoTerminado && !pausado && questaoAtual.None? {
        questaoAtual := Some(first);
        tempo := tempoQuestao;
        if areaReady {
          baloes := GerarBaloes(first.options, noise);
        }
        relogioParado := false;
        relogio := Snapshot(vidas, pontuacao, questaoIndex);
      }
    }

    /**
     * One second of the countdown. At one second or less the clock stops at 0 and the
     * timeout counts as a wrong answer, whether or not the question was already answered:
     * a life is lost, and what follows is decided by the lives, score and index the
     * countdown captured when it started.
     */
    method Tick()
      requires Valid()
      modifies this`tempo, this`relogioParado, this`vidas, this`pending
      ensures Valid()
      ensures !old(Running()) ==>
        tempo == old(tempo) && relogioParado == old(relogioParado)
        && vidas == old(vidas) && pending == old(pending)
      ensures old(Running()) && old(tempo) > 1 ==>
        tempo == old(tempo) - 1 && !relogioParado && vidas == old(vidas) && pending == old(pending)
      ensures old(Running()) && old(tempo) <= 1 ==>
        tempo == 0 && relogioParado && TimedOut()
    {
      if !Running() {
        return;
      }
      if tempo > 1 {
        tempo := tempo - 1;
      } else {
        tempo := 0;
        relogioParado := true;
        pending := pending + [AfterWrong(relogio.vidas, relogio.pontuacao, relogio.questaoIndex)];
        vidas := vidas - 1;
      }
    }

    /** The countdown's `handleRespostaErrada`, run by the closure the countdown captured:
        the life is taken from the current count, the decision made on the captured one. */
    twostate predicate TimedOut()
      reads this
    {
      && vidas == old(vidas) - 1
      && pending == old(pending) + [AfterWrong(relogio.vidas, relogio.pontuacao, relogio.questaoIndex)]
    }

    /** A wrong answer as `handleRespostaErrada` applies it. */
    twostate predicate LifeLost()
      reads this
    {
      vidas == old(vidas) - 1 && pending == old(pending) + [AfterWrong(old(vidas), pontuacao, questaoIndex)]
    }

    /** `handleRespostaErrada`: one life less, and the end of the game or the next question
        scheduled according to the lives before the answer. */
    method RespostaErrada()
      requires Valid()
      modifies this`vidas, this`pending
      ensures Valid() && LifeLost()
    {
      pending := pending + [AfterWrong(vidas, pontuacao, questaoIndex)];
      vidas := vidas - 1;
    }

    /** `handleRespostaCorreta`: the points for the time left, and the next question
        scheduled with the score as it was before them. */
    method RespostaCorreta()
      requires Valid()
      modifies this`pontuacao, this`pending
      ensures Valid()
      ensures pontuacao == old(pontuacao) + Points(dificuldade, tempo)
      ensures pending == old(pending) + [Advance(questaoIndex, old(pontuacao))]
    {
      pending := pending + [Advance(questaoIndex, pontuacao)];
      pontuacao := pontuacao + Points(dificuldade, tempo);
    }

    /** What `verificarResposta` does with `resposta`. */
    twostate predicate Judged(resposta: real)
      reads this
    {
      if old(questaoAtual).Some? && !old(pausado) then
        var correta := resposta == old(questaoAtual).value.answer as real;
        && respostaCorreta == Some(correta)
        && (correta ==>
              pontuacao == old(pontuacao) + Points(dificuldade, tempo) && vidas == old(vidas)
              && pending == old(pending) + [Advance(questaoIndex, old(pontuacao))])
        && (!correta ==> pontuacao == old(pontuacao) && LifeLost())
      else
        respostaCorreta == old(respostaCorreta) && pontuacao == old(pontuacao)
        && vidas == old(vidas) && pending == old(pending)
    }

    /** `verificarResposta`: judged only while a question is shown and the game runs. */
    method VerificarResposta(resposta: real)
      requires Valid()
      modifies this`respostaCorreta, this`pontuacao, this`vidas, this`pending
      ensures Valid() && Judged(resposta)
    {
      if questaoAtual.Some? && !pausado {
        var correta := resposta == questaoAtual.value.answer as real;
        respostaCorreta := Some(correta);
        if correta {
          RespostaCorreta();
        } else {
          RespostaErrada();
        }
      }
    }

    /**
     * `atirarFlecha` followed by the collision check: `alvo` is the balloon the arrow hits,
     * if any. A shot is taken only while the bow is ready, the game is not paused and the
     * game area is on screen; it disarms the bow until a continuation re-arms it.
     */
    method Atirar(alvo: Option<nat>, areaReady: bool)
      requires Valid()
      requires alvo.Some? ==> alvo.value < |baloes|
      modifies this`podeAtirar, this`respostaCorreta, this`pontuacao, this`vidas, this`pending
      ensures Valid()
      ensures !old(podeAtirar) || pausado || !areaReady ==>
        podeAtirar == old(podeAtirar) && respostaCorreta == old(respostaCorreta)
        && pontuacao == old(pontuacao) && vidas == old(vidas) && pending == old(pending)
      ensures old(podeAtirar) && !pausado && areaReady && alvo.None? ==>
        !podeAtirar && respostaCorreta == old(respostaCorreta) && pontuacao == old(pontuacao)
        && vidas == old(vidas) && pending == old(pending) + [ResetArrow]
      ensures old(podeAtirar) && !pausado && areaReady && alvo.Some? ==>
        !podeAtirar && Judged(baloes[alvo.value].valor)
    {
      if !podeAtirar || pausado || !areaReady {
        return;
      }
      podeAtirar := false;
      match alvo
      case None =>
        pending := pending + [ResetArrow];
      case Some(k) =>
        VerificarResposta(baloes[k].valor);
    }

    /** The store after `finalizarJogo` saved `p`: nothing without a session; otherwise
        the session and its record receive `FinalPatch`. */
    twostate predicate Saved(p: int)
      reads store
    {
      if old(store.usuario).Some? then
        var u := old(store.usuario).value;
        && store.usuario == Some(Merge(u, FinalPatch(u, p)))
        && store.usuarios == (if old(store.usuarios).Present?
                              then Present(UpdateById(old(store.usuarios).value, u.id, FinalPatch(u, p)))
                              else old(store.usuarios))
        && store.estaLogado == old(store.estaLogado)
      else
        unchanged(store)
    }

    /** `finalizarJogo` with the captured score `p`. */
    method Finalizar(p: int)
      requires Valid() && p >= 0
      modifies this`jogoTerminado, this`relogioParado, store
      ensures Valid()
      ensures jogoTerminado && !relogioParado && Saved(p)
      ensures old(store.usuario).Some? ==>
        store.usuario.value.pontuacao.value >= old(store.usuario).value.pontuacao.GetOr(0)
        && store.usuario.value.pontuacao.value >= p
      ensures old(store.Synced()) ==> store.Synced()
      ensures old(store.Synced()) && old(store.usuario).Some? && old(store.usuarios).Present? ==>
        var id := old(store.usuario).value.id;
        && RecordOf(old(store.usuarios), id).Some? && RecordOf(store.usuarios, id).Some?
        && RecordOf(store.usuarios, id).value.pontuacao.GetOr(0)
             >= RecordOf(old(store.usuarios), id).value.pontuacao.GetOr(0)
        && RecordOf(store.usuarios, id).value.pontuacao.GetOr(0) >= p
    {
      jogoTerminado := true;
      relogioParado := false;
      if store.usuario.Some? {
        store.AtualizarUsuario(FinalPatch(store.usuario.value, p));
      }
    }

    /** The next question as shown by `proximaQuestao` scheduled at index i. */
    twostate predicate Advanced(i: int, next: Question, noise: seq<real>, areaReady: bool)
      requires AllUnit(noise) && |next.options| + |noise| >= 4
      reads this
    {
      && questaoIndex == i + 1 && questaoAtual == Some(next) && tempo == tempoQuestao
      && respostaCorreta.None? && !relogioParado
      && relogio == Snapshot(vidas, pontuacao, questaoIndex)
      && baloes == (if areaReady then BalloonsFor(next.options, noise) else old(baloes))
    }

    /** `proximaQuestao` with the captured index i and score p. */
    method ProximaQuestao(i: int, p: int, next: Question, noise: seq<real>, areaReady: bool)
      requires Valid() && i >= 0 && p >= 0
      requires WellFormed(next, dificuldade) && next.id == i + 2 && AllUnit(noise)
      modifies this`questaoIndex, this`questaoAtual, this`tempo, this`respostaCorreta, this`baloes
      modifies this`relogioParado, this`relogio, this`jogoTerminado, store
      ensures Valid()
      ensures i + 1 >= totalQuestoes ==>
        && jogoTerminado && !relogioParado && Saved(p) && relogio == old(relogio)
        && questaoIndex == old(questaoIndex) && questaoAtual == old(questaoAtual) && tempo == old(tempo)
        && respostaCorreta == old(respostaCorreta) && baloes == old(baloes)
      ensures i + 1 < totalQuestoes ==>
        && Advanced(i, next, noise, areaReady)
        && jogoTerminado == old(jogoTerminado) && unchanged(store)
    {
      if i + 1 >= totalQuestoes {
        Finalizar(p);
      } else {
        MostrarQuestao(i, next, noise, areaReady);
      }
    }

    /** The branch of `proximaQuestao` that shows question i + 2: index i + 1, a full clock,
        no verdict, and new balloons when the game area is on screen. */
    method MostrarQuestao(i: int, next: Question, noise: seq<real>, areaReady: bool)
      requires Valid() && i >= 0 && i + 1 < totalQuestoes
      requires WellFormed(next, dificuldade) && AllUnit(noise)
      modifies this`questaoIndex, this`questaoAtual, this`tempo, this`respostaCorreta, this`baloes
      modifies this`relogioParado, this`relogio
      ensures Valid() && Advanced(i, next, noise, areaReady)
    {
      questaoIndex := i + 1;
      questaoAtual := Some(next);
      tempo := tempoQuestao;
      respostaCorreta := None;
      if areaReady {
        baloes := GerarBaloes(next.options, noise);
      }
      relogioParado := false;
      relogio := Snapshot(vidas, pontuacao, questaoIndex);
    }

    /**
     * Runs the oldest scheduled continuation: re-arming the bow after a miss, the next
     * question (which re-arms the bow too), or the end of the game.
     */
    method Disparar(next: Question, noise: seq<real>, areaReady: bool)
      requires Valid() && pending != [] && AllUnit(noise)
      requires pending[0].Advance? ==>
        WellFormed(next, dificuldade) && next.id == pending[0].questaoIndex + 2
      modifies this`pending, this`podeAtirar, this`questaoIndex, this`questaoAtual, this`tempo
      modifies this`respostaCorreta, this`baloes, this`relogioParado, this`relogio, this`jogoTerminado, store
      ensures Valid()
      ensures pending == old(pending[1..])
      ensures old(pending[0]).ResetArrow? ==>
        && podeAtirar && questaoIndex == old(questaoIndex) && questaoAtual == old(questaoAtual)
        && tempo == old(tempo) && respostaCorreta == old(respostaCorreta) && baloes == old(baloes)
        && relogioParado == old(relogioParado) && relogio == old(relogio)
        && jogoTerminado == old(jogoTerminado) && unchanged(store)
      ensures old(pending[0]).Finish? ==>
        && podeAtirar == old(podeAtirar) && jogoTerminado && Saved(old(pending[0]).pontuacao)
        && relogio == old(relogio)
        && questaoIndex == old(questaoIndex) && questaoAtual == old(questaoAtual)
        && tempo == old(tempo) && respostaCorreta == old(respostaCorreta) && baloes == old(baloes)
      ensures old(pending[0]).Advance? ==>
        var c := old(pending[0]);
        && podeAtirar
        && (c.questaoIndex + 1 >= totalQuestoes ==>
              && jogoTerminado && Saved(c.pontuacao) && relogio == old(relogio)
              && questaoIndex == old(questaoIndex) && questaoAtual == old(questaoAtual)
              && tempo == old(tempo) && respostaCorreta == old(respostaCorreta) && baloes == old(baloes))
        && (c.questaoIndex + 1 < totalQuestoes ==>
              Advanced(c.questaoIndex, next, noise, areaReady)
              && jogoTerminado == old(jogoTerminado) && unchanged(store))
    {
      var c := pending[0];
      assert ScheduledOk(c);
      assert forall i :: 0 <= i < |pending| - 1 ==> pending[1..][i] == pending[i + 1];
      pending := pending[1..];
      match c
      case ResetArrow =>
        podeAtirar := true;
      case Advance(i, p) =>
        podeAtirar := true;
        ProximaQuestao(i, p, next, noise, areaReady);
      case Finish(p) =>
        Finalizar(p);
    }

    /** The pause button. */
    method TogglePause()
      requires Valid()
      modifies this`pausado, this`relogioParado, this`relogio
      ensures Valid()
      ensures pausado == !old(pausado) && !relogioParado
      ensures old(pausado) ==> relogio == Snapshot(vidas, pontuacao, questaoIndex)
      ensures !old(pausado) ==> relogio == old(relogio)
    {
      pausado := !pausado;
      relogioParado := false;
      if !pausado {
        relogio := Snapshot(vidas, pontuacao, questaoIndex);
      }
    }

    /** The "continue" button of the pause menu. */
    method Retomar()
      requires Valid()
      modifies this`pausado, this`relogioParado, this`relogio
      ensures Valid()
      ensures !pausado
      ensures old(pausado) ==> !relogioParado && relogio == Snapshot(vidas, pontuacao, questaoIndex)
      ensures !old(pausado) ==> relogioParado == old(relogioParado) && relogio == old(relogio)
    {
      if pausado {
        pausado := false;
        relogioParado := false;
        relogio := Snapshot(vidas, pontuacao, questaoIndex);
      }
    }

    /**
     * `reiniciarJogo`: started and not over, index 0, score 0, three lives, no question and
     * no balloons, bow ready. The clock, the last verdict and the scheduled continuations
     * stay.
     */
    method Reiniciar()
      requires Valid()
      modifies this`jogoIniciado, this`jogoTerminado, this`questaoIndex, this`pontuacao, this`vidas
      modifies this`questaoAtual, this`baloes, this`podeAtirar, this`relogioParado
      ensures Valid()
      ensures jogoIniciado && !jogoTerminado && questaoIndex == 0 && pontuacao == 0 && vidas == 3
      ensures questaoAtual.None? && baloes == [] && podeAtirar && !relogioParado
    {
      jogoIniciado := true;
      jogoTerminado := false;
      questaoIndex := 0;
      pontuacao := 0;
      vidas := 3;
      questaoAtual := None;
      baloes := [];
      podeAtirar := true;
      relogioParado := false;
    }
  }
}
