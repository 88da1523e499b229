/**
 * The document check `validarCPFCNPJ` and the two flows defined next to the
 * engine: `atendimento_cadastro` (ask for a CPF/CNPJ, look it up, confirm the
 * registration) and `suporte_tecnico` (a one-question menu).
 *
 * The registration lookup `buscarCadastroPorDocumento` is a simulated API
 * call whose success is random; the model takes the draw as an oracle
 * `sucesso`, a function of the `dados` the step sees.
 */
module ChatbotFluxos {
  import opened Wrappers
  import opened JsText
  import opened JsValue
  import opened ChatbotFlow

  // ---------------------------------------------------------------------
  // validarCPFCNPJ
  // ---------------------------------------------------------------------

  /** `validarCPFCNPJ`: the document has 11 (CPF) or 14 (CNPJ) digits, whatever else it contains. */
  function ValidarCPFCNPJ(documento: string): bool {
    var numeros := Digits(documento);
    |numeros| == 11 || |numeros| == 14
  }

  /** The check holds exactly when the document has 11 or 14 digit characters. */
  lemma ValidarCPFCNPJContaDigitos(documento: string)
    ensures ValidarCPFCNPJ(documento) <==> (CountDigits(documento) == 11 || CountDigits(documento) == 14)
  {
    DigitsLength(documento);
  }

  /** Characters that are not digits (dots, dashes, slashes, spaces) do not affect the check. */
  lemma ValidarCPFCNPJIgnoraPontuacao(a: string, c: char, b: string)
    requires !IsDigit(c)
    ensures ValidarCPFCNPJ(a + [c] + b) == ValidarCPFCNPJ(a + b)
  {
    NonDigitIgnored(a, c, b);
  }

  // ---------------------------------------------------------------------
  // Flow `atendimento_cadastro`
  // ---------------------------------------------------------------------

  const StepsAtendimento: set<string> := {"solicitarDocumento", "buscarCadastro", "confirmarCadastro", "finalizar"}

  /** Step `solicitarDocumento`: prompt, then accept a valid CPF/CNPJ and go on to the lookup. */
  function SolicitarDocumento(dados: Dados, mensagem: Option<string>): Outcome {
    if !TruthyText(mensagem) then
      Returned(StepResult(mensagem := Some("Preciso que você informe o CPF/CNPJ para o qual deseja atendimento"),
                          aguardarResposta := Some(true)), dados)
    else
      var documento := Trim(mensagem.value);
      if !ValidarCPFCNPJ(documento) then
        Returned(StepResult(mensagem := Some("CPF/CNPJ inválido. Por favor, informe um documento válido (11 ou 14 dígitos):"),
                            aguardarResposta := Some(true)), dados)
      else
        Returned(StepResult(mensagem := None, proximoStep := Some("buscarCadastro"), aguardarResposta := Some(false)),
                 dados["documento" := Str(documento)])
  }

  /** What the simulated `buscarCadastroPorDocumento` resolves to. */
  function ResultadoBusca(sucesso: bool, documento: Value): Value {
    if sucesso then
      Obj(map["sucesso" := Bool(true),
              "dados" := Obj(map["nome" := Str("João da Silva"), "documento" := documento, "email" := Str("joao@email.com")])])
    else
      Obj(map["sucesso" := Bool(false), "mensagem" := Str("Cadastro não encontrado")])
  }

  /** Step `buscarCadastro`: store the lookup result and continue, or ask for another document. */
  function BuscarCadastro(sucesso: Dados -> bool, dados: Dados): Outcome {
    var mensagemBusca := "Aguarde enquanto localizo o cadastro!";
    var resultado := ResultadoBusca(sucesso(dados), Get(dados, "documento"));
    var dados' := dados["resultadoBusca" := resultado];
    if sucesso(dados) then
      Returned(StepResult(mensagem := Some(mensagemBusca), proximoStep := Some("confirmarCadastro"),
                          aguardarResposta := Some(false)), dados')
    else
      Returned(StepResult(mensagem := Some(mensagemBusca + "\n\n❌ Cadastro não encontrado. Por favor, informe outro CPF/CNPJ:"),
                          proximoStep := Some("solicitarDocumento"), aguardarResposta := Some(true)), dados')
  }

  /** The answers `confirmarCadastro` takes as yes and as no. */
  predicate Sim(opcao: string) {
    opcao == "1" || ToLower(opcao) == "sim"
  }

  predicate Nao(opcao: string) {
    opcao == "2" || ToLower(opcao) == "não" || ToLower(opcao) == "nao"
  }

  /** Step `confirmarCadastro`: show the name found, then dispatch on yes / no / anything else. */
  function ConfirmarCadastro(dados: Dados, mensagem: Option<string>): Outcome {
    if !TruthyText(mensagem) then
      match Prop(Get(dados, "resultadoBusca"), "dados")
      case None => Threw(dados)
      case Some(cadastro) =>
        match Prop(cadastro, "nome")
        case None => Threw(dados)
        case Some(nome) =>
          Returned(StepResult(mensagem := Some("✅ Consegui localizar o cadastro em nome de " + ToText(nome)
                                               + "\n\nÉ para esse cadastro que você deseja atendimento?\n\n1 - Sim\n2 - Não"),
                              aguardarResposta := Some(true)), dados)
    else
      var opcao := Trim(mensagem.value);
      if Sim(opcao) then
        Returned(StepResult(mensagem := None, proximoStep := Some("finalizar"), aguardarResposta := Some(false)), dados)
      else if Nao(opcao) then
        Returned(StepResult(mensagem := Some("Entendido. Por favor, informe outro CPF/CNPJ:"),
                            proximoStep := Some("solicitarDocumento"), aguardarResposta := Some(true)), dados)
      else
        Returned(StepResult(mensagem := Some("Opção inválida. Por favor, digite:\n1 - Sim\n2 - Não"),
                            aguardarResposta := Some(true)), dados)
  }

  /** Step `finalizar`. */
  function FinalizarAtendimento(dados: Dados): Outcome {
    Returned(StepResult(mensagem := Some("✅ Obrigado por confirmar seu cadastro, até logo!"), finalizar := true), dados)
  }

  /** `fluxoAtendimento.steps[n].acao`. */
  function AcaoAtendimento(sucesso: Dados -> bool, n: string, dados: Dados, mensagem: Option<string>): Outcome {
    if n == "solicitarDocumento" then SolicitarDocumento(dados, mensagem)
    else if n == "buscarCadastro" then BuscarCadastro(sucesso, dados)
    else if n == "confirmarCadastro" then ConfirmarCadastro(dados, mensagem)
    else FinalizarAtendimento(dados)
  }

  /** `fluxoAtendimento`. */
  function Atendimento(sucesso: Dados -> bool): (f: Fluxo)
    ensures f.stepInicial == "solicitarDocumento" && f.steps == StepsAtendimento
  {
    Fluxo("atendimento_cadastro", "solicitarDocumento", StepsAtendimento,
          (n, d, m) => AcaoAtendimento(sucesso, n, d, m))
  }

  /** With no message the document step only prompts; with one it accepts exactly a valid CPF/CNPJ, stored trimmed. */
  lemma SolicitarDocumentoAceitaValidos(dados: Dados, mensagem: Option<string>)
    ensures var o := SolicitarDocumento(dados, mensagem);
      o.Returned?
      && (!TruthyText(mensagem) ==> Aguarda(o.resultado) && o.resultado.proximoStep.None? && o.dados == dados)
      && (TruthyText(mensagem) && ValidarCPFCNPJ(Trim(mensagem.value)) ==>
            AutoAvanca(o.resultado) && o.resultado.proximoStep == Some("buscarCadastro")
            && o.resultado.mensagem.None? && o.dados == dados["documento" := Str(Trim(mensagem.value))])
      && (TruthyText(mensagem) && !ValidarCPFCNPJ(Trim(mensagem.value)) ==>
            Aguarda(o.resultado) && o.resultado.proximoStep.None? && o.dados == dados)
  {
  }

  /** The lookup continues to the confirmation exactly when it succeeded, and always records its result. */
  lemma BuscarCadastroSegueResultado(sucesso: Dados -> bool, dados: Dados)
    ensures var o := BuscarCadastro(sucesso, dados);
      o.Returned? && o.dados == dados["resultadoBusca" := ResultadoBusca(sucesso(dados), Get(dados, "documento"))]
      && (AutoAvanca(o.resultado) <==> sucesso(dados))
      && (!sucesso(dados) ==> Aguarda(o.resultado) && o.resultado.proximoStep == Some("solicitarDocumento"))
  {
  }

  /** No text is both a yes and a no. */
  lemma SimNaoDisjuntos(opcao: string)
    ensures !(Sim(opcao) && Nao(opcao))
  {
    if opcao == "1" || opcao == "2" {
      assert ToLower(opcao)[0] == opcao[0];
    } else if ToLower(opcao) == "sim" {
      assert ToLower(opcao)[0] == 's';
    }
  }

  /**
   * The answer to the confirmation, trimmed and with capitals ignored: yes
   * finishes without waiting, no returns to the document step and waits,
   * anything else prompts again in place; `dados` is never changed.
   */
  lemma ConfirmarCadastroDespacha(dados: Dados, m: string)
    requires m != ""
    ensures var o := ConfirmarCadastro(dados, Some(m)); var opcao := Trim(m);
      o.Returned? && o.dados == dados
      && (Sim(opcao) ==> AutoAvanca(o.resultado) && o.resultado.proximoStep == Some("finalizar"))
      && (Nao(opcao) ==> Aguarda(o.resultado) && o.resultado.proximoStep == Some("solicitarDocumento"))
      && (!Sim(opcao) && !Nao(opcao) ==> Aguarda(o.resultado) && o.resultado.proximoStep.None?)
  {
    SimNaoDisjuntos(Trim(m));
  }

  /**
   * Blanks around the answer and the case of its letters do not matter: an
   * answer that is white space, then a word `w`, then white space, confirms
   * exactly when `w` is "1" or "sim" in any case, and declines exactly when
   * `w` is "2", "não" or "nao" in any case.
   */
  lemma ConfirmarCadastroMaiusculas(a: string, w: string, b: string)
    requires forall i :: 0 <= i < |a| ==> IsSpace(a[i])
    requires forall i :: 0 <= i < |b| ==> IsSpace(b[i])
    requires w == [] || (!IsSpace(w[0]) && !IsSpace(w[|w| - 1]))
    ensures Sim(Trim(a + w + b)) <==> w == "1" || ToLower(w) == "sim"
    ensures Nao(Trim(a + w + b)) <==> w == "2" || ToLower(w) == "não" || ToLower(w) == "nao"
  {
    TrimBlanks(a, w, b);
  }

  /** Answering yes to the registration ends the conversation with the thanks, in two steps. */
  lemma AtendimentoSimFinaliza(sucesso: Dados -> bool, s: Sessao, m: string, fuel: nat)
    requires fuel >= 2 && s.stepAtual == "confirmarCadastro" && m != "" && Sim(Trim(m))
    ensures var e := Executar(Atendimento(sucesso), s, Some(m), fuel);
      e.fim == Finalizou(Some("✅ Obrigado por confirmar seu cadastro, até logo!")) && e.sessao.None?
      && |e.passos| == 2 && e.passos[1].step == "finalizar"
  {
    var f := Atendimento(sucesso);
    var o := Returned(StepResult(mensagem := None, proximoStep := Some("finalizar"), aguardarResposta := Some(false)), s.dados);
    assert f.acao(s.stepAtual, s.dados, Some(m)) == o by {
      assert ConfirmarCadastro(s.dados, Some(m)) == o;
    }
    var s1 := s.(dados := o.dados, historico := s.historico + LogBot(o), stepAtual := "finalizar");
    Avanca(f, s, Some(m), fuel);
    assert f.acao(s1.stepAtual, s1.dados, None) == FinalizarAtendimento(s1.dados);
    UmPasso(f, s1, None, fuel - 1);
  }

  /** Every `proximoStep` of the flow names one of its steps. */
  lemma AtendimentoFechado(sucesso: Dados -> bool)
    ensures Fechado(Atendimento(sucesso))
  {
    var f := Atendimento(sucesso);
    forall n, d, m | n in f.steps ensures AlvoEm(f.acao(n, d, m), f.steps) {
      assert f.acao(n, d, m) == AcaoAtendimento(sucesso, n, d, m);
    }
  }

  /** Rank of a step in the auto-advance order: only the lookup advances on its own. */
  function RankAtendimento(n: string): nat {
    if n == "buscarCadastro" then 1 else 0
  }

  /** A turn of `atendimento_cadastro` runs at most three steps: it can never loop without waiting for the user. */
  lemma AtendimentoTermina(sucesso: Dados -> bool, s: Sessao, entrada: Option<string>, fuel: nat)
    requires fuel >= 3
    ensures !Executar(Atendimento(sucesso), s, entrada, fuel).fim.SemCombustivel?
  {
    var f := Atendimento(sucesso);
    forall n, d | n in f.steps ensures Desce(RankAtendimento, n, f.acao(n, d, None)) {
      assert f.acao(n, d, None) == AcaoAtendimento(sucesso, n, d, None);
    }
    Termina(f, RankAtendimento, 1, s, entrada, fuel);
  }

  // ---------------------------------------------------------------------
  // Flow `suporte_tecnico`
  // ---------------------------------------------------------------------

  /** Step `menuPrincipal`: show the menu, then record the choice and hand over to an attendant. */
  function MenuPrincipal(dados: Dados, mensagem: Option<string>): Outcome {
    if !TruthyText(mensagem) then
      Returned(StepResult(mensagem := Some("🔧 Suporte Técnico\n\nEscolha uma opção:\n1 - Problema com internet\n2 - Problema com fatura\n3 - Outros"),
                          aguardarResposta := Some(true)), dados)
    else
      Returned(StepResult(mensagem := Some("Você selecionou a opção " + mensagem.value + ". Estamos direcionando você para um atendente..."),
                          finalizar := true), dados["opcao" := Str(mensagem.value)])
  }

  /** `fluxoSuporte`. */
  function Suporte(): (f: Fluxo)
    ensures f.stepInicial == "menuPrincipal" && f.steps == {"menuPrincipal"}
  {
    Fluxo("suporte_tecnico", "menuPrincipal", {"menuPrincipal"}, (n, d, m) => MenuPrincipal(d, m))
  }

  /** A turn of `suporte_tecnico` runs at most one step: the menu either waits for the answer or ends the conversation. */
  lemma SuporteTermina(s: Sessao, entrada: Option<string>, fuel: nat)
    requires fuel >= 1
    ensures var e := Executar(Suporte(), s, entrada, fuel);
      !e.fim.SemCombustivel? && |e.passos| <= 1
  {
    var f := Suporte();
    if s.stepAtual in f.steps {
      var o := MenuPrincipal(s.dados, entrada);
      assert f.acao(s.stepAtual, s.dados, entrada) == o;
      assert o.Returned? && (o.resultado.finalizar || !AutoAvanca(o.resultado));
      UmPasso(f, s, entrada, fuel);
    }
  }

  /** Any non-empty answer ends the support conversation, echoing the answer and storing it as `opcao`. */
  lemma SuporteFinalizaComResposta(s: Sessao, m: string, fuel: nat)
    requires m != "" && s.stepAtual == "menuPrincipal" && fuel >= 1
    ensures var e := Executar(Suporte(), s, Some(m), fuel);
      e.fim == Finalizou(Some("Você selecionou a opção " + m + ". Estamos direcionando você para um atendente..."))
      && e.passos[0].saida.dados == s.dados["opcao" := Str(m)]
  {
  }
}
