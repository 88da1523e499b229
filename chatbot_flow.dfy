/**
 * The conversational flow engine `FluxoEngine`. An engine holds the
 * registered flows by name and one session per user. A flow is a table of
 * named steps; each step has an action that looks at the session's `dados`
 * and the user's message and answers with a result record telling the engine
 * what to say, where to go next, whether to wait for the user and whether
 * the conversation is over.
 *
 * `Executar` is the specification of one turn: the run of `executarStep`
 * from a session until it pauses, finishes, meets an unknown step or a
 * throwing action. The class methods are proved to change their maps exactly
 * as `Executar` says, and the lemmas about `Executar` state what a turn does
 * to the session and its history.
 */
module ChatbotFlow {
  import opened Wrappers
  import opened JsValue

  // ---------------------------------------------------------------------
  // Data model
  // ---------------------------------------------------------------------

  /** Author of a history entry: `'usuario'` or `'bot'`. */
  datatype Tipo = Usuario | Bot

  /** An entry `{tipo, mensagem}` of `historico`. */
  datatype Entrada = Entrada(tipo: Tipo, mensagem: string)

  /**
   * The record a step action returns. Absent keys take their defaults:
   * `null` for the texts, `undefined` (here `None`) for `aguardarResposta`,
   * and `false` for the flags.
   */
  datatype StepResult = StepResult(
    mensagem: Option<string> := None,
    tipo: Option<string> := None,
    proximoStep: Option<string> := None,
    aguardarResposta: Option<bool> := None,
    finalizar: bool := false,
    abrirChamado: bool := false)

  /** What an action does: return a result after editing `dados`, or throw after editing it. */
  datatype Outcome =
    | Returned(resultado: StepResult, dados: Dados)
    | Threw(dados: Dados)

  /** A step action, applied to the step name, the session's `dados` and the user's message (`null` is `None`). */
  type Acao = (string, Dados, Option<string>) -> Outcome

  /** A flow configuration `{nome, stepInicial, steps}`; `acao(n, ...)` is `steps[n].acao(...)`. */
  datatype Fluxo = Fluxo(nome: string, stepInicial: string, steps: set<string>, acao: Acao)

  /** A session `{fluxoAtual, stepAtual, dados, historico}`. */
  datatype Sessao = Sessao(fluxoAtual: string, stepAtual: string, dados: Dados, historico: seq<Entrada>)

  /** What the engine answers: `{mensagem, finalizado, aguardandoResposta}`. */
  datatype Resposta = Resposta(mensagem: Option<string>, finalizado: bool, aguardandoResposta: Option<bool>)

  /** Why a call does not answer: a thrown error, the unknown-flow one with its message (or the model's step budget running out). */
  datatype Falha =
    | FluxoNaoEncontrado(mensagem: string)
    | AcaoLancou
    | CombustivelEsgotado

  const SessaoNaoEncontrada := "Sessão não encontrada. Inicie um novo atendimento."
  const StepNaoEncontrado := "Erro: Step não encontrado"

  /** The message of the `Error` thrown by `iniciarFluxo` for an unknown flow. */
  function MensagemDeErro(nomeFluxo: string): (t: string)
    ensures |t| == |nomeFluxo| + 21
    ensures t[..6] == "Fluxo " && t[6..6 + |nomeFluxo|] == nomeFluxo
    ensures t[6 + |nomeFluxo|..] == " não encontrado"
  {
    "Fluxo " + nomeFluxo + " não encontrado"
  }

  // ---------------------------------------------------------------------
  // The decisions `executarStep` takes on a result
  // ---------------------------------------------------------------------

  /** Truthiness of a text that may be `null`. */
  predicate TruthyText(t: Option<string>) {
    t.Some? && t.value != ""
  }

  /** Truthiness of `aguardarResposta`. */
  predicate Aguarda(r: StepResult) {
    r.aguardarResposta == Some(true)
  }

  /** The engine goes straight on to the next step with no message. */
  predicate AutoAvanca(r: StepResult) {
    !r.finalizar && !Aguarda(r) && TruthyText(r.proximoStep)
  }

  /** The step the session is on after a result that does not finalize. */
  function Proximo(atual: string, r: StepResult): string {
    if TruthyText(r.proximoStep) then r.proximoStep.value else atual
  }

  /** History entries a step appends: one bot entry when its message is truthy. */
  function LogBot(o: Outcome): seq<Entrada> {
    if o.Returned? && TruthyText(o.resultado.mensagem) then [Entrada(Bot, o.resultado.mensagem.value)] else []
  }

  // ---------------------------------------------------------------------
  // Specification of one turn
  // ---------------------------------------------------------------------

  /** One executed step: its name, its input, the `dados` it saw and what its action did. */
  datatype Passo = Passo(step: string, entrada: Option<string>, antes: Dados, saida: Outcome)

  /** How a turn ends. */
  datatype Fim =
    | Pausou(mensagem: Option<string>, aguardando: Option<bool>)
    | Finalizou(mensagem: Option<string>)
    | StepAusente
    | Lancou
    | SemCombustivel

  /** A turn: how it ends, the session afterwards (`None` once deleted), and the steps it ran. */
  datatype Execucao = Execucao(fim: Fim, sessao: Option<Sessao>, passos: seq<Passo>)

  /** The bot entries a sequence of steps appends to the history. */
  function BotLog(passos: seq<Passo>): seq<Entrada> {
    if passos == [] then [] else LogBot(passos[0].saida) + BotLog(passos[1..])
  }

  /**
   * `executarStep` run from session `s` with the user's message `entrada`,
   * allowed at most `fuel` step executions.
   */
  function Executar(f: Fluxo, s: Sessao, entrada: Option<string>, fuel: nat): (e: Execucao)
    decreases fuel
    ensures |e.passos| <= fuel
    ensures e.sessao.None? <==> e.fim.Finalizou?
    ensures e.sessao.Some? ==> e.sessao.value.fluxoAtual == s.fluxoAtual
    ensures e.passos == [] <==> (fuel == 0 || s.stepAtual !in f.steps)
    ensures e.passos == [] ==> e.sessao == Some(s)
    ensures e.passos != [] ==>
      e.passos[0] == Passo(s.stepAtual, entrada, s.dados, f.acao(s.stepAtual, s.dados, entrada))
  {
    if fuel == 0 then Execucao(SemCombustivel, Some(s), [])
    else if s.stepAtual !in f.steps then Execucao(StepAusente, Some(s), [])
    else
      var saida := f.acao(s.stepAtual, s.dados, entrada);
      var passo := Passo(s.stepAtual, entrada, s.dados, saida);
      var s1 := s.(dados := saida.dados, historico := s.historico + LogBot(saida));
      match saida
      case Threw(_) => Execucao(Lancou, Some(s1), [passo])
      case Returned(r, _) =>
        if r.finalizar then Execucao(Finalizou(r.mensagem), None, [passo])
        else
          var s2 := s1.(stepAtual := Proximo(s.stepAtual, r));
          if AutoAvanca(r) then
            var e := Executar(f, s2, None, fuel - 1);
            Execucao(e.fim, e.sessao, [passo] + e.passos)
          else Execucao(Pausou(r.mensagem, r.aguardarResposta), Some(s2), [passo])
  }

  /** What one step contributes to a turn: the session it leaves and how the turn then goes on. */
  lemma UmPasso(f: Fluxo, s: Sessao, entrada: Option<string>, fuel: nat)
    requires fuel > 0 && s.stepAtual in f.steps
    ensures var saida := f.acao(s.stepAtual, s.dados, entrada);
      var s1 := s.(dados := saida.dados, historico := s.historico + LogBot(saida));
      var e := Executar(f, s, entrada, fuel);
      (saida.Threw? ==> e.fim == Lancou && e.sessao == Some(s1))
      && (saida.Returned? && saida.resultado.finalizar ==> e.fim == Finalizou(saida.resultado.mensagem) && e.sessao == None)
      && (saida.Returned? && !saida.resultado.finalizar ==>
        var s2 := s1.(stepAtual := Proximo(s.stepAtual, saida.resultado));
        if AutoAvanca(saida.resultado) then
          e.fim == Executar(f, s2, None, fuel - 1).fim && e.sessao == Executar(f, s2, None, fuel - 1).sessao
        else e.fim == Pausou(saida.resultado.mensagem, saida.resultado.aguardarResposta) && e.sessao == Some(s2))
  {
  }

  /**
   * A step that auto-advances: the turn is that step followed by the turn
   * from the step it names, with its `dados` and its logged message.
   */
  lemma Avanca(f: Fluxo, s: Sessao, entrada: Option<string>, fuel: nat)
    requires fuel > 0 && s.stepAtual in f.steps
    requires f.acao(s.stepAtual, s.dados, entrada).Returned? && AutoAvanca(f.acao(s.stepAtual, s.dados, entrada).resultado)
    ensures var o := f.acao(s.stepAtual, s.dados, entrada);
      var s2 := s.(dados := o.dados, historico := s.historico + LogBot(o), stepAtual := o.resultado.proximoStep.value);
      var e2 := Executar(f, s2, None, fuel - 1);
      Executar(f, s, entrada, fuel) == Execucao(e2.fim, e2.sessao, [Passo(s.stepAtual, entrada, s.dados, o)] + e2.passos)
  {
  }

  /** What the caller of a turn receives. */
  function RespostaDe(fim: Fim): (r: Result<Resposta, Falha>)
    ensures r.Success? <==> (fim.Pausou? || fim.Finalizou? || fim.StepAusente?)
    ensures r.Success? ==> (r.value.finalizado <==> !fim.Pausou?)
  {
    match fim
    case Pausou(m, a) => Success(Resposta(m, false, a))
    case Finalizou(m) => Success(Resposta(m, true, None))
    case StepAusente => Success(Resposta(Some(StepNaoEncontrado), true, None))
    case Lancou => Failure(AcaoLancou)
    case SemCombustivel => Failure(CombustivelEsgotado)
  }

  /**
   * A session on a step its flow does not have: the turn runs nothing, keeps
   * the session as it is, and answers "Erro: Step não encontrado" as final.
   */
  lemma StepNaoEncontradoMantemSessao(f: Fluxo, s: Sessao, entrada: Option<string>, fuel: nat)
    requires fuel > 0 && s.stepAtual !in f.steps
    ensures var e := Executar(f, s, entrada, fuel);
      e.sessao == Some(s) && e.passos == []
      && RespostaDe(e.fim) == Success(Resposta(Some(StepNaoEncontrado), true, None))
  {
  }

  /** The session map after a turn of user `u`. */
  function Gravar(m: map<string, Sessao>, u: string, s: Option<Sessao>): (r: map<string, Sessao>)
    ensures s.None? ==> u !in r
    ensures s.Some? ==> u in r && r[u] == s.value
    ensures r - {u} == m - {u}
  {
    if s.Some? then m[u := s.value] else m - {u}
  }

  /** Writing a user's session twice keeps only the second write. */
  lemma GravarSobrescreve(m: map<string, Sessao>, u: string, s: Sessao, x: Option<Sessao>)
    ensures Gravar(m[u := s], u, x) == Gravar(m, u, x)
  {
    if x.None? {
      assert m[u := s] - {u} == m - {u};
    }
  }

  /** The session `iniciarFluxo` creates. */
  function NovaSessao(nomeFluxo: string, f: Fluxo): Sessao {
    Sessao(nomeFluxo, f.stepInicial, map[], [])
  }

  /** The session after `processarMensagem` recorded the user's message, before any step runs. */
  function Recebida(s: Sessao, mensagem: string): (r: Sessao)
    ensures r.fluxoAtual == s.fluxoAtual && r.stepAtual == s.stepAtual
    ensures r.dados.Keys == s.dados.Keys + {"ultimaMensagem"} && r.dados["ultimaMensagem"] == Str(mensagem)
    ensures forall k :: k in s.dados && k != "ultimaMensagem" ==> r.dados[k] == s.dados[k]
    ensures r.historico == s.historico + [Entrada(Usuario, mensagem)]
  {
    s.(dados := s.dados["ultimaMensagem" := Str(mensagem)], historico := s.historico + [Entrada(Usuario, mensagem)])
  }

  // ---------------------------------------------------------------------
  // Properties of a turn
  // ---------------------------------------------------------------------

  lemma BotLogAppend(a: seq<Passo>, b: seq<Passo>)
    ensures BotLog(a + b) == BotLog(a) + BotLog(b)
  {
    if a == [] {
      assert a + b == b;
    } else {
      assert (a + b)[1..] == a[1..] + b;
      BotLogAppend(a[1..], b);
    }
  }

  /**
   * The steps of a turn form a chain: every recorded outcome is the action
   * applied to the recorded step, data and input, and each step after the
   * first runs with no message, on the step and the `dados` the previous
   * one left, after the previous one auto-advanced.
   */
  ghost predicate Encadeados(f: Fluxo, p: seq<Passo>) {
    (forall i :: 0 <= i < |p| ==> p[i].step in f.steps && p[i].saida == f.acao(p[i].step, p[i].antes, p[i].entrada))
    && (forall i :: 1 <= i < |p| ==> Segue(p[i - 1], p[i]))
  }

  /** Step `b` runs straight after step `a` auto-advanced. */
  predicate Segue(a: Passo, b: Passo) {
    b.entrada.None?
    && a.saida.Returned? && AutoAvanca(a.saida.resultado)
    && b.step == a.saida.resultado.proximoStep.value
    && b.antes == a.saida.dados
  }

  lemma {:induction false} PassosEncadeados(f: Fluxo, s: Sessao, entrada: Option<string>, fuel: nat)
    ensures Encadeados(f, Executar(f, s, entrada, fuel).passos)
    decreases fuel
  {
    var e := Executar(f, s, entrada, fuel);
    if fuel > 0 && s.stepAtual in f.steps {
      var saida := f.acao(s.stepAtual, s.dados, entrada);
      if saida.Returned? && !saida.resultado.finalizar && AutoAvanca(saida.resultado) {
        var r := saida.resultado;
        var s2 := s.(dados := saida.dados, historico := s.historico + LogBot(saida), stepAtual := Proximo(s.stepAtual, r));
        PassosEncadeados(f, s2, None, fuel - 1);
        var q := Executar(f, s2, None, fuel - 1).passos;
        assert e.passos == [e.passos[0]] + q;
        forall i | 1 <= i < |e.passos| ensures Segue(e.passos[i - 1], e.passos[i]) {
          if i >= 2 {
            assert e.passos[i - 1] == q[i - 2] && e.passos[i] == q[i - 1];
          }
        }
      }
    }
  }

  /** A surviving session's history is the old one followed by one bot entry per step with a truthy message. */
  lemma {:induction false} HistoricoDoTurno(f: Fluxo, s: Sessao, entrada: Option<string>, fuel: nat)
    ensures var e := Executar(f, s, entrada, fuel);
      e.sessao.Some? ==> e.sessao.value.historico == s.historico + BotLog(e.passos)
    decreases fuel
  {
    var e := Executar(f, s, entrada, fuel);
    if fuel > 0 && s.stepAtual in f.steps {
      var saida := f.acao(s.stepAtual, s.dados, entrada);
      var passo := Passo(s.stepAtual, entrada, s.dados, saida);
      assert BotLog([passo]) == LogBot(saida);
      if saida.Returned? && !saida.resultado.finalizar && AutoAvanca(saida.resultado) {
        var r := saida.resultado;
        var s2 := s.(dados := saida.dados, historico := s.historico + LogBot(saida), stepAtual := Proximo(s.stepAtual, r));
        HistoricoDoTurno(f, s2, None, fuel - 1);
        var q := Executar(f, s2, None, fuel - 1).passos;
        BotLogAppend([passo], q);
      }
    }
  }

  /**
   * The answer of a turn comes from its last step alone: a pause or a
   * finish carries the last action's own `mensagem`; an earlier step's
   * message only reaches the history.
   */
  lemma {:induction false} FimDoTurno(f: Fluxo, s: Sessao, entrada: Option<string>, fuel: nat)
    ensures var e := Executar(f, s, entrada, fuel); var p := e.passos;
      (e.fim.Pausou? ==>
        p != [] && p[|p| - 1].saida.Returned?
        && var r := p[|p| - 1].saida.resultado;
        !r.finalizar && !AutoAvanca(r) && e.fim == Pausou(r.mensagem, r.aguardarResposta)
        && e.sessao.value.stepAtual == Proximo(p[|p| - 1].step, r)
        && e.sessao.value.dados == p[|p| - 1].saida.dados)
      && (e.fim.Finalizou? ==>
        p != [] && p[|p| - 1].saida.Returned? && p[|p| - 1].saida.resultado.finalizar
        && e.fim.mensagem == p[|p| - 1].saida.resultado.mensagem)
      && (e.fim.Lancou? ==>
        p != [] && p[|p| - 1].saida.Threw?
        && e.sessao.value.stepAtual == p[|p| - 1].step
        && e.sessao.value.dados == p[|p| - 1].saida.dados)
      && (e.fim.StepAusente? ==>
        e.sessao.value.stepAtual !in f.steps
        && (p != [] ==> e.sessao.value.dados == p[|p| - 1].saida.dados))
      && (e.fim.SemCombustivel? ==> |p| == fuel)
    decreases fuel
  {
    if fuel > 0 && s.stepAtual in f.steps {
      var saida := f.acao(s.stepAtual, s.dados, entrada);
      if saida.Returned? && !saida.resultado.finalizar && AutoAvanca(saida.resultado) {
        var r := saida.resultado;
        var s2 := s.(dados := saida.dados, historico := s.historico + LogBot(saida), stepAtual := Proximo(s.stepAtual, r));
        Avanca(f, s, entrada, fuel);
        FimDoTurno(f, s2, None, fuel - 1);
        var q := Executar(f, s2, None, fuel - 1).passos;
        if q != [] {
          assert Executar(f, s, entrada, fuel).passos[|q|] == q[|q| - 1];
        }
      }
    }
  }

  /** With more fuel a turn that did not run out ends in exactly the same way. */
  lemma {:induction false} CombustivelSuficiente(f: Fluxo, s: Sessao, entrada: Option<string>, fuel: nat, mais: nat)
    requires fuel <= mais
    requires !Executar(f, s, entrada, fuel).fim.SemCombustivel?
    ensures Executar(f, s, entrada, mais) == Executar(f, s, entrada, fuel)
    decreases fuel
  {
    var saida := f.acao(s.stepAtual, s.dados, entrada);
    if s.stepAtual in f.steps && saida.Returned? && !saida.resultado.finalizar && AutoAvanca(saida.resultado) {
      var r := saida.resultado;
      var s2 := s.(dados := saida.dados, historico := s.historico + LogBot(saida), stepAtual := Proximo(s.stepAtual, r));
      CombustivelSuficiente(f, s2, None, fuel - 1, mais - 1);
    }
  }

  // ---------------------------------------------------------------------
  // Flows whose steps all exist
  // ---------------------------------------------------------------------

  /** The next step an outcome names, if any, is one of `steps`. */
  predicate AlvoEm(o: Outcome, steps: set<string>) {
    o.Returned? && TruthyText(o.resultado.proximoStep) ==> o.resultado.proximoStep.value in steps
  }

  /** `stepInicial` and every `proximoStep` an action can return name steps of the flow. */
  ghost predicate Fechado(f: Fluxo) {
    f.stepInicial in f.steps
    && forall n, d, m :: n in f.steps ==> AlvoEm(f.acao(n, d, m), f.steps)
  }

  /** In a closed flow a turn from an existing step never reaches "Step não encontrado", and stays on existing steps. */
  lemma {:induction false} FechadoSemStepAusente(f: Fluxo, s: Sessao, entrada: Option<string>, fuel: nat)
    requires Fechado(f) && s.stepAtual in f.steps
    ensures var e := Executar(f, s, entrada, fuel);
      !e.fim.StepAusente? && (e.sessao.Some? ==> e.sessao.value.stepAtual in f.steps)
    decreases fuel
  {
    if fuel > 0 {
      var saida := f.acao(s.stepAtual, s.dados, entrada);
      assert AlvoEm(saida, f.steps);
      if saida.Returned? && !saida.resultado.finalizar && AutoAvanca(saida.resultado) {
        var r := saida.resultado;
        var s2 := s.(dados := saida.dados, historico := s.historico + LogBot(saida), stepAtual := Proximo(s.stepAtual, r));
        FechadoSemStepAusente(f, s2, None, fuel - 1);
      }
    }
  }

  // ---------------------------------------------------------------------
  // Steps that only run on the user's message
  // ---------------------------------------------------------------------

  /** An outcome that auto-advances does not land on any of `alvos`. */
  predicate ForaDe(o: Outcome, alvos: set<string>) {
    o.Returned? && AutoAvanca(o.resultado) ==> o.resultado.proximoStep.value !in alvos
  }

  /** No auto-advance of the flow lands on one of `alvos`: they are entered only by waiting for the user. */
  ghost predicate SoComResposta(f: Fluxo, alvos: set<string>) {
    forall n, d, m :: n in f.steps ==> ForaDe(f.acao(n, d, m), alvos)
  }

  /**
   * In such a flow a step of `alvos` can only be the first step of a turn,
   * so it runs on the turn's own input, which `processarMensagem` always
   * supplies.
   */
  lemma AlvosSoNoInicio(f: Fluxo, alvos: set<string>, s: Sessao, entrada: Option<string>, fuel: nat)
    requires SoComResposta(f, alvos)
    ensures var p := Executar(f, s, entrada, fuel).passos;
      forall i :: 0 <= i < |p| && p[i].step in alvos ==> i == 0 && p[i].entrada == entrada
  {
    var p := Executar(f, s, entrada, fuel).passos;
    PassosEncadeados(f, s, entrada, fuel);
    forall i | 1 <= i < |p| ensures p[i].step !in alvos {
      assert Segue(p[i - 1], p[i]);
      assert ForaDe(f.acao(p[i - 1].step, p[i - 1].antes, p[i - 1].entrada), alvos);
    }
  }

  // ---------------------------------------------------------------------
  // Flows whose auto-advance chains are finite
  // ---------------------------------------------------------------------

  /** An auto-advance out of step `n` lands on a step of lower rank. */
  predicate Desce(rank: string -> nat, n: string, o: Outcome) {
    o.Returned? && AutoAvanca(o.resultado) ==> rank(o.resultado.proximoStep.value) < rank(n)
  }

  /**
   * Steps entered with no message auto-advance only downhill in `rank`, a
   * ranking bounded by `teto`. Only the first step of a turn sees the user's
   * message, so this is all a turn needs to end.
   */
  ghost predicate DescidaLimitada(f: Fluxo, rank: string -> nat, teto: nat) {
    (forall n :: rank(n) <= teto)
    && forall n, d :: n in f.steps ==> Desce(rank, n, f.acao(n, d, None))
  }

  lemma {:induction false} TerminaSemEntrada(f: Fluxo, rank: string -> nat, teto: nat, s: Sessao, fuel: nat)
    requires DescidaLimitada(f, rank, teto) && fuel > rank(s.stepAtual)
    ensures !Executar(f, s, None, fuel).fim.SemCombustivel?
    decreases fuel
  {
    if s.stepAtual in f.steps {
      var saida := f.acao(s.stepAtual, s.dados, None);
      assert Desce(rank, s.stepAtual, saida);
      if saida.Returned? && !saida.resultado.finalizar && AutoAvanca(saida.resultado) {
        var r := saida.resultado;
        var s2 := s.(dados := saida.dados, historico := s.historico + LogBot(saida), stepAtual := Proximo(s.stepAtual, r));
        TerminaSemEntrada(f, rank, teto, s2, fuel - 1);
      }
    }
  }

  /** With a ranking bounded by `teto`, `teto + 2` step executions always finish a turn. */
  lemma {:induction false} Termina(f: Fluxo, rank: string -> nat, teto: nat, s: Sessao, entrada: Option<string>, fuel: nat)
    requires DescidaLimitada(f, rank, teto) && fuel >= teto + 2
    ensures !Executar(f, s, entrada, fuel).fim.SemCombustivel?
  {
    if s.stepAtual in f.steps {
      var saida := f.acao(s.stepAtual, s.dados, entrada);
      if saida.Returned? && !saida.resultado.finalizar && AutoAvanca(saida.resultado) {
        var r := saida.resultado;
        var s2 := s.(dados := saida.dados, historico := s.historico + LogBot(saida), stepAtual := Proximo(s.stepAtual, r));
        assert rank(s2.stepAtual) <= teto;
        TerminaSemEntrada(f, rank, teto, s2, fuel - 1);
      }
    }
  }

  // ---------------------------------------------------------------------
  // The engine object
  // ---------------------------------------------------------------------

  class FluxoEngine {
    /** Sessions by user id. */
    var sessoes: map<string, Sessao>
    /** Registered flows by name. */
    var fluxos: map<string, Fluxo>

    /** Every session belongs to a registered flow (flows are never removed). */
    ghost predicate Valid()
      reads this
    {
      forall s :: s in sessoes.Values ==> s.fluxoAtual in fluxos
    }

    constructor()
      ensures sessoes == map[] && fluxos == map[]
      ensures Valid()
    {
      sessoes := map[];
      fluxos := map[];
    }

    /** `registrarFluxo`: store a flow under a name, replacing an earlier one of that name. */
    method RegistrarFluxo(nomeFluxo: string, configFluxo: Fluxo)
      requires Valid()
      modifies this
      ensures fluxos == old(fluxos)[nomeFluxo := configFluxo]
      ensures sessoes == old(sessoes)
      ensures Valid()
    {
      fluxos := fluxos[nomeFluxo := configFluxo];
    }

    /** `obterSessao`. */
    function ObterSessao(usuarioId: string): (r: Option<Sessao>)
      reads this
      ensures r.Some? <==> usuarioId in sessoes
      ensures r.Some? ==> r.value == sessoes[usuarioId]
    {
      if usuarioId in sessoes then Some(sessoes[usuarioId]) else None
    }

    /** `iniciarFluxo`: fail on an unknown flow; otherwise start a fresh session and run its first turn. */
    method IniciarFluxo(usuarioId: string, nomeFluxo: string, fuel: nat) returns (r: Result<Resposta, Falha>)
      requires Valid()
      modifies this
      ensures Valid() && fluxos == old(fluxos)
      ensures nomeFluxo !in old(fluxos) ==> r == Failure(FluxoNaoEncontrado(MensagemDeErro(nomeFluxo))) && sessoes == old(sessoes)
      ensures nomeFluxo in old(fluxos) ==>
        var f := old(fluxos)[nomeFluxo];
        var e := Executar(f, NovaSessao(nomeFluxo, f), None, fuel);
        sessoes == Gravar(old(sessoes), usuarioId, e.sessao) && r == RespostaDe(e.fim)
    {
      if nomeFluxo !in fluxos {
        return Failure(FluxoNaoEncontrado(MensagemDeErro(nomeFluxo)));
      }
      var fluxo := fluxos[nomeFluxo];
      sessoes := sessoes[usuarioId := NovaSessao(nomeFluxo, fluxo)];
      r := ExecutarStep(usuarioId, None, fuel);
    }

    /** `processarMensagem`: answer a user with no session; otherwise record the message and run a turn. */
    method ProcessarMensagem(usuarioId: string, mensagem: string, fuel: nat) returns (r: Result<Resposta, Falha>)
      requires Valid()
      modifies this
      ensures Valid() && fluxos == old(fluxos)
      ensures usuarioId !in old(sessoes) ==>
        r == Success(Resposta(Some(SessaoNaoEncontrada), true, None)) && sessoes == old(sessoes)
      ensures usuarioId in old(sessoes) ==>
        var s := Recebida(old(sessoes)[usuarioId], mensagem);
        var e := Executar(old(fluxos)[s.fluxoAtual], s, Some(mensagem), fuel);
        sessoes == Gravar(old(sessoes), usuarioId, e.sessao) && r == RespostaDe(e.fim)
    {
      if usuarioId !in sessoes {
        return Success(Resposta(Some(SessaoNaoEncontrada), true, None));
      }
      var sessao := sessoes[usuarioId];
      sessao := sessao.(dados := sessao.dados["ultimaMensagem" := Str(mensagem)]);
      sessao := sessao.(historico := sessao.historico + [Entrada(Usuario, mensagem)]);
      sessoes := sessoes[usuarioId := sessao];
      r := ExecutarStep(usuarioId, Some(mensagem), fuel);
    }

    /** `executarStep`: run the current step, record its message, and finish, pause or go on. */
    method ExecutarStep(usuarioId: string, mensagemUsuario: Option<string>, fuel: nat) returns (r: Result<Resposta, Falha>)
      requires Valid() && usuarioId in sessoes
      modifies this
      decreases fuel, 1
      ensures Valid()
      ensures fluxos == old(fluxos)
      ensures sessoes == Gravar(old(sessoes), usuarioId,
        Executar(old(fluxos)[old(sessoes)[usuarioId].fluxoAtual], old(sessoes)[usuarioId], mensagemUsuario, fuel).sessao)
      ensures r == RespostaDe(
        Executar(old(fluxos)[old(sessoes)[usuarioId].fluxoAtual], old(sessoes)[usuarioId], mensagemUsuario, fuel).fim)
    {
      if fuel == 0 {
        return Failure(CombustivelEsgotado);
      }
      var sessao := sessoes[usuarioId];
      var fluxo := fluxos[sessao.fluxoAtual];
      if sessao.stepAtual !in fluxo.steps {
        return Success(Resposta(Some(StepNaoEncontrado), true, None));
      }
      var saida := fluxo.acao(sessao.stepAtual, sessao.dados, mensagemUsuario);
      r := AplicarSaida(usuarioId, fluxo, sessao, mensagemUsuario, saida, fuel);
    }

    /**
     * The rest of `executarStep` once the action of session `s0`'s step has
     * produced `saida`: keep its `dados`, log its message, then delete the
     * session, move it to the next step and go on, or stop there.
     */
    method AplicarSaida(usuarioId: string, fluxo: Fluxo, s0: Sessao, ghost entrada: Option<string>, saida: Outcome, fuel: nat)
      returns (r: Result<Resposta, Falha>)
      requires Valid() && usuarioId in sessoes && sessoes[usuarioId] == s0
      requires s0.fluxoAtual in fluxos && fluxos[s0.fluxoAtual] == fluxo
      requires fuel > 0 && s0.stepAtual in fluxo.steps && saida == fluxo.acao(s0.stepAtual, s0.dados, entrada)
      modifies this
      decreases fuel, 0
      ensures Valid()
      ensures fluxos == old(fluxos)
      ensures sessoes == Gravar(old(sessoes), usuarioId, Executar(fluxo, s0, entrada, fuel).sessao)
      ensures r == RespostaDe(Executar(fluxo, s0, entrada, fuel).fim)
    {
      UmPasso(fluxo, s0, entrada, fuel);
      ghost var s1 := s0.(dados := saida.dados, historico := s0.historico + LogBot(saida));
      var sessao := s0.(dados := saida.dados);
      if saida.Threw? {
        assert sessao == s1 by {
          assert s0.historico + LogBot(saida) == s0.historico;
        }
        sessoes := sessoes[usuarioId := sessao];
        return Failure(AcaoLancou);
      }
      var resultado := saida.resultado;
      if TruthyText(resultado.mensagem) {
        sessao := sessao.(historico := sessao.historico + [Entrada(Bot, resultado.mensagem.value)]);
      } else {
        assert s0.historico + LogBot(saida) == s0.historico;
      }
      assert sessao == s1;
      if resultado.finalizar {
        sessoes := sessoes - {usuarioId};
        return Success(Resposta(resultado.mensagem, true, None));
      }
      if TruthyText(resultado.proximoStep) {
        sessao := sessao.(stepAtual := resultado.proximoStep.value);
      }
      assert sessao == s1.(stepAtual := Proximo(s0.stepAtual, resultado));
      sessoes := sessoes[usuarioId := sessao];
      if !Aguarda(resultado) && TruthyText(resultado.proximoStep) {
        GravarSobrescreve(old(sessoes), usuarioId, sessao, Executar(fluxo, sessao, None, fuel - 1).sessao);
        r := ExecutarStep(usuarioId, None, fuel - 1);
        return;
      }
      return Success(Resposta(resultado.mensagem, false, resultado.aguardarResposta));
    }
  }
}
