/**
 * The four example flows of `exemplos-fluxos.js`: a satisfaction survey
 * (`pesquisa_satisfacao`), order tracking (`rastreamento_pedido`), a
 * registration form (`cadastro_completo`) and service booking
 * (`agendamento_servico`).
 *
 * The random draws of the scripts (the order status and the booking code)
 * are oracles, functions of the `dados` the step sees; the `setTimeout`
 * delays have no observable effect and are left out.
 */
module ExemplosFluxos {
  import opened Wrappers
  import opened JsText
  import opened JsValue
  import opened ChatbotFlow

  // ---------------------------------------------------------------------
  // Flow `pesquisa_satisfacao`
  // ---------------------------------------------------------------------

  const StepsPesquisa: set<string> := {"introducao", "perguntaNota", "feedbackNegativo", "agradecimento"}

  const PerguntaDaNota := "De 0 a 10, qual nota você daria para nosso atendimento?"
  const PedidoDeFeedback := "Que pena! Pode nos dizer o que podemos melhorar?"
  const AberturaDoAgradecimento := "✅ Obrigado pelo seu feedback!\n\nNota: "
  const FraseDeMelhoria := "\n\nVamos trabalhar para melhorar os pontos mencionados."

  /** Step `introducao`: an announcement that goes straight on to the question. */
  function Introducao(dados: Dados): Outcome {
    Returned(StepResult(mensagem := Some("📊 Obrigado por usar nossos serviços!\n\nVamos fazer uma pesquisa rápida de satisfação."),
                        aguardarResposta := Some(false), proximoStep := Some("perguntaNota")), dados)
  }

  /** The grades `perguntaNota` accepts: a number from 0 to 10 (`NaN` is `None`). */
  predicate NotaValida(nota: Option<int>) {
    nota.Some? && 0 <= nota.value <= 10
  }

  /** Step `perguntaNota`: ask for a grade from 0 to 10; low grades go on to ask for feedback. */
  function PerguntaNota(dados: Dados, mensagem: Option<string>): Outcome {
    if !TruthyText(mensagem) then
      Returned(StepResult(mensagem := Some(PerguntaDaNota), aguardarResposta := Some(true)), dados)
    else
      var nota := ParseInt(mensagem.value);
      if !NotaValida(nota) then
        Returned(StepResult(mensagem := Some("Por favor, digite uma nota entre 0 e 10:"), aguardarResposta := Some(true)), dados)
      else if nota.value < 7 then
        Returned(StepResult(mensagem := None, proximoStep := Some("feedbackNegativo"), aguardarResposta := Some(false)),
                 dados["nota" := Num(nota.value)])
      else
        Returned(StepResult(mensagem := None, proximoStep := Some("agradecimento"), aguardarResposta := Some(false)),
                 dados["nota" := Num(nota.value)])
  }

  /** Step `feedbackNegativo`: ask what to improve and keep the answer. */
  function FeedbackNegativo(dados: Dados, mensagem: Option<string>): Outcome {
    if !TruthyText(mensagem) then
      Returned(StepResult(mensagem := Some(PedidoDeFeedback), aguardarResposta := Some(true)), dados)
    else
      Returned(StepResult(mensagem := None, proximoStep := Some("agradecimento"), aguardarResposta := Some(false)),
               dados["feedback" := Str(mensagem.value)])
  }

  /** Step `agradecimento`: thank the user, quoting the grade. */
  function Agradecimento(dados: Dados): Outcome {
    var mensagem := AberturaDoAgradecimento + ToText(Get(dados, "nota")) + "/10";
    var mensagem' := if Truthy(Get(dados, "feedback")) then mensagem + FraseDeMelhoria else mensagem;
    Returned(StepResult(mensagem := Some(mensagem'), finalizar := true), dados)
  }

  function AcaoPesquisa(n: string, dados: Dados, mensagem: Option<string>): Outcome {
    if n == "introducao" then Introducao(dados)
    else if n == "perguntaNota" then PerguntaNota(dados, mensagem)
    else if n == "feedbackNegativo" then FeedbackNegativo(dados, mensagem)
    else Agradecimento(dados)
  }

  /** `fluxoPesquisaSatisfacao`. */
  function Pesquisa(): (f: Fluxo)
    ensures f.stepInicial == "introducao" && f.steps == StepsPesquisa
  {
    Fluxo("pesquisa_satisfacao", "introducao", StepsPesquisa, AcaoPesquisa)
  }

  /**
   * The grade question: with no message it prompts in place; a text that
   * does not read as a grade from 0 to 10 prompts again and leaves `dados`
   * alone; a grade is stored as `nota` and leads, without waiting, to the
   * feedback question below 7 and to the thanks from 7 on.
   */
  lemma PerguntaNotaDespacha(dados: Dados, mensagem: Option<string>)
    ensures var o := PerguntaNota(dados, mensagem);
      o.Returned? && !o.resultado.finalizar
      && (!TruthyText(mensagem) ==> Aguarda(o.resultado) && o.resultado.proximoStep.None? && o.dados == dados)
      && (TruthyText(mensagem) && !NotaValida(ParseInt(mensagem.value)) ==>
            Aguarda(o.resultado) && o.resultado.proximoStep.None? && o.dados == dados)
      && (TruthyText(mensagem) && NotaValida(ParseInt(mensagem.value)) ==>
            var nota := ParseInt(mensagem.value).value;
            AutoAvanca(o.resultado) && o.resultado.mensagem.None?
            && o.dados == dados["nota" := Num(nota)]
            && (o.resultado.proximoStep == Some("feedbackNegativo") <==> nota < 7)
            && (o.resultado.proximoStep == Some("agradecimento") <==> nota >= 7))
  {
  }

  /** Typing a grade from 0 to 10 in digits stores exactly that grade. */
  lemma PerguntaNotaAceitaNumeral(dados: Dados, nota: int)
    requires 0 <= nota <= 10
    ensures var o := PerguntaNota(dados, Some(IntToString(nota)));
      o.Returned? && o.dados == dados["nota" := Num(nota)] && AutoAvanca(o.resultado)
  {
    var m := IntToString(nota);
    ParseIntToString(nota);
    assert m != "" && ParseInt(m) == Some(nota);
    assert NotaValida(ParseInt(m));
  }

  /**
   * A run of decimal digits followed by text that does not go on with a digit
   * (or turn a leading `0` into `0x`) is read as the number the digits spell:
   * up to 10 it is stored as the grade and the flow goes on; above 10 the
   * question is asked again and `dados` is left alone.
   */
  lemma PerguntaNotaLeDigitos(dados: Dados, ds: string, rest: string)
    requires ds != [] && forall i :: 0 <= i < |ds| ==> IsDigit(ds[i])
    requires rest == [] || (!IsDigit(rest[0]) && rest[0] != 'x' && rest[0] != 'X')
    ensures var o := PerguntaNota(dados, Some(ds + rest)); var v := DigitsValue(ds, 10);
      o.Returned?
      && (v <= 10 ==> o.dados == dados["nota" := Num(v)] && AutoAvanca(o.resultado))
      && (v > 10 ==> o.dados == dados && Aguarda(o.resultado) && o.resultado.proximoStep.None?)
  {
    var m := ds + rest;
    ParseIntIgnoresSuffix(ds, rest);
    assert TruthyText(Some(m)) by {
      assert |m| > 0;
    }
    PerguntaNotaDespacha(dados, Some(m));
  }

  /**
   * The thanks always finishes the conversation and quotes the grade; it ends
   * with the sentence about improving exactly when `dados.feedback` is truthy.
   */
  lemma AgradecimentoFinaliza(dados: Dados)
    ensures var o := Agradecimento(dados);
      o.Returned? && o.resultado.finalizar && o.resultado.mensagem.Some? && o.dados == dados
      && var t := o.resultado.mensagem.value;
      var inicio := AberturaDoAgradecimento + ToText(Get(dados, "nota")) + "/10";
      |inicio| <= |t| && t[..|inicio|] == inicio
      && (EndsWith(t, FraseDeMelhoria) <==> Truthy(Get(dados, "feedback")))
  {
    var inicio := AberturaDoAgradecimento + ToText(Get(dados, "nota")) + "/10";
    var t := Agradecimento(dados).resultado.mensagem.value;
    if Truthy(Get(dados, "feedback")) {
      assert t == inicio + FraseDeMelhoria;
      assert t[|t| - |FraseDeMelhoria|..] == FraseDeMelhoria;
    } else {
      assert t == inicio && t[|t| - 1] == '0';
      assert FraseDeMelhoria[|FraseDeMelhoria| - 1] == '.';
    }
  }

  /** `t` ends with `suffix`. */
  predicate EndsWith(t: string, suffix: string) {
    |suffix| <= |t| && t[|t| - |suffix|..] == suffix
  }

  /** Every `proximoStep` of the survey names one of its steps. */
  lemma PesquisaFechada()
    ensures Fechado(Pesquisa())
  {
  }

  function RankPesquisa(n: string): nat {
    if n == "introducao" then 1 else 0
  }

  /** A turn of the survey runs at most three steps. */
  lemma PesquisaTermina(s: Sessao, entrada: Option<string>, fuel: nat)
    requires fuel >= 3
    ensures !Executar(Pesquisa(), s, entrada, fuel).fim.SemCombustivel?
  {
    var f := Pesquisa();
    forall n, d | n in f.steps ensures Desce(RankPesquisa, n, f.acao(n, d, None)) {
      PesquisaDesce(n, d);
    }
    Termina(f, RankPesquisa, 1, s, entrada, fuel);
  }

  /** Entered with no message, only the announcement goes on, to the grade question, which waits. */
  lemma PesquisaDesce(n: string, d: Dados)
    requires n in StepsPesquisa
    ensures Desce(RankPesquisa, n, AcaoPesquisa(n, d, None))
  {
    var o := AcaoPesquisa(n, d, None);
    if n == "introducao" {
      assert o == Introducao(d);
    } else if n == "perguntaNota" {
      assert o == PerguntaNota(d, None);
    } else if n == "feedbackNegativo" {
      assert o == FeedbackNegativo(d, None);
    } else {
      assert o == Agradecimento(d);
    }
  }

  /** A new survey session opens with the announcement and waits on the grade question. */
  lemma PesquisaAbre(fuel: nat)
    requires fuel >= 2
    ensures var f := Pesquisa(); var e := Executar(f, NovaSessao(f.nome, f), None, fuel);
      e.fim == Pausou(Some(PerguntaDaNota), Some(true)) && e.sessao.Some?
      && e.sessao.value.stepAtual == "perguntaNota" && e.sessao.value.dados == map[]
  {
    var f := Pesquisa();
    var s0 := NovaSessao(f.nome, f);
    var o0 := Introducao(map[]);
    var s0' := s0.(dados := o0.dados, historico := s0.historico + LogBot(o0), stepAtual := "perguntaNota");
    assert Executar(f, s0, None, fuel).fim == Executar(f, s0', None, fuel - 1).fim;
  }

  /** On the grade question, the answer `'5'` stores the grade and waits on the feedback question. */
  lemma PesquisaNotaCinco(s: Sessao, fuel: nat)
    requires fuel >= 2 && s.stepAtual == "perguntaNota"
    ensures var e := Executar(Pesquisa(), Recebida(s, "5"), Some("5"), fuel);
      e.fim == Pausou(Some(PedidoDeFeedback), Some(true)) && e.sessao.Some?
      && e.sessao.value.stepAtual == "feedbackNegativo" && Get(e.sessao.value.dados, "nota") == Num(5)
  {
    var f := Pesquisa();
    ParseIntToString(5);
    assert IntToString(5) == "5";
    var r := Recebida(s, "5");
    var o := PerguntaNota(r.dados, Some("5"));
    assert o.dados == r.dados["nota" := Num(5)] && o.resultado.proximoStep == Some("feedbackNegativo");
    var s' := r.(dados := o.dados, historico := r.historico + LogBot(o), stepAtual := "feedbackNegativo");
    assert Executar(f, r, Some("5"), fuel).fim == Executar(f, s', None, fuel - 1).fim;
    assert Executar(f, r, Some("5"), fuel).sessao == Executar(f, s', None, fuel - 1).sessao;
  }

  /** On the feedback question, any answer ends the survey with the thanks, the grade and the sentence about improving. */
  lemma PesquisaFeedback(s: Sessao, m: string, fuel: nat)
    requires fuel >= 2 && s.stepAtual == "feedbackNegativo" && m != ""
    ensures Executar(Pesquisa(), Recebida(s, m), Some(m), fuel).fim
         == Finalizou(Some(AberturaDoAgradecimento + ToText(Get(s.dados, "nota")) + "/10" + FraseDeMelhoria))
  {
    var f := Pesquisa();
    var r := Recebida(s, m);
    var o := FeedbackNegativo(r.dados, Some(m));
    var s' := r.(dados := o.dados, historico := r.historico + LogBot(o), stepAtual := "agradecimento");
    assert Get(s'.dados, "nota") == Get(s.dados, "nota") && Truthy(Get(s'.dados, "feedback"));
    assert Executar(f, r, Some(m), fuel).fim == Executar(f, s', None, fuel - 1).fim;
  }

  /**
   * The conversation `['5', 'O atendimento foi lento']`: the survey opens with
   * the grade question, the grade 5 brings the feedback question, and the
   * feedback brings the final thanks with the sentence about improving.
   */
  lemma CenarioPesquisa(fuel: nat)
    requires fuel >= 2
    ensures var f := Pesquisa();
      var e1 := Executar(f, NovaSessao(f.nome, f), None, fuel);
      e1.sessao.Some?
      && var e2 := Executar(f, Recebida(e1.sessao.value, "5"), Some("5"), fuel);
      e2.sessao.Some?
      && Executar(f, Recebida(e2.sessao.value, "O atendimento foi lento"), Some("O atendimento foi lento"), fuel).fim
         == Finalizou(Some(AberturaDoAgradecimento + "5" + "/10" + FraseDeMelhoria))
  {
    var f := Pesquisa();
    PesquisaAbre(fuel);
    var s1 := Executar(f, NovaSessao(f.nome, f), None, fuel).sessao.value;
    PesquisaNotaCinco(s1, fuel);
    var s2 := Executar(f, Recebida(s1, "5"), Some("5"), fuel).sessao.value;
    assert Get(s2.dados, "nota") == Num(5);
    PesquisaFeedback(s2, "O atendimento foi lento", fuel);
    DigitText(5);
  }

  // ---------------------------------------------------------------------
  // Flow `rastreamento_pedido`
  // ---------------------------------------------------------------------

  const StepsRastreamento: set<string> := {"solicitarPedido", "buscarPedido", "exibirStatus"}

  /** The statuses the simulated lookup draws from. */
  const Status: seq<string> := ["Em processamento", "Enviado", "Em trânsito", "Saiu para entrega"]

  /** An index into `Status`: `Math.floor(Math.random() * status.length)`. */
  type Sorteio = i: int | 0 <= i < 4

  /** Step `solicitarPedido`: ask for the order number; five UTF-16 units or more are accepted, untrimmed. */
  function SolicitarPedido(dados: Dados, mensagem: Option<string>): Outcome {
    if !TruthyText(mensagem) then
      Returned(StepResult(mensagem := Some("📦 Rastreamento de Pedido\n\nPor favor, informe o número do seu pedido:"),
                          aguardarResposta := Some(true)), dados)
    else if Utf16Length(mensagem.value) < 5 then
      Returned(StepResult(mensagem := Some("Número de pedido inválido. Digite novamente:"), aguardarResposta := Some(true)), dados)
    else
      Returned(StepResult(mensagem := None, proximoStep := Some("buscarPedido"), aguardarResposta := Some(false)),
               dados["numeroPedido" := Str(mensagem.value)])
  }

  /** Step `buscarPedido`: record a drawn status and the fixed delivery date, then show them. */
  function BuscarPedido(sorteio: Dados -> Sorteio, dados: Dados): Outcome {
    Returned(StepResult(mensagem := Some("🔍 Buscando informações do pedido..."), proximoStep := Some("exibirStatus"),
                        aguardarResposta := Some(false)),
             dados["status" := Str(Status[sorteio(dados)])]["previsaoEntrega" := Str("25/01/2026")])
  }

  /** Step `exibirStatus`: show the order; `'1'` starts over for another order, anything else ends. */
  function ExibirStatus(dados: Dados, mensagem: Option<string>): Outcome {
    if !TruthyText(mensagem) then
      Returned(StepResult(mensagem := Some("✅ Pedido encontrado!\n\nNúmero: " + ToText(Get(dados, "numeroPedido"))
                                           + "\nStatus: " + ToText(Get(dados, "status"))
                                           + "\nPrevisão de entrega: " + ToText(Get(dados, "previsaoEntrega"))
                                           + "\n\nDeseja rastrear outro pedido?\n1 - Sim\n2 - Não"),
                          aguardarResposta := Some(true)), dados)
    else if mensagem.value == "1" then
      Returned(StepResult(mensagem := None, proximoStep := Some("solicitarPedido"), aguardarResposta := Some(false)),
               dados - {"numeroPedido", "status"})
    else
      Returned(StepResult(mensagem := Some("Obrigado por usar nosso serviço de rastreamento!"), finalizar := true), dados)
  }

  function AcaoRastreamento(sorteio: Dados -> Sorteio, n: string, dados: Dados, mensagem: Option<string>): Outcome {
    if n == "solicitarPedido" then SolicitarPedido(dados, mensagem)
    else if n == "buscarPedido" then BuscarPedido(sorteio, dados)
    else ExibirStatus(dados, mensagem)
  }

  /** `fluxoRastreamento`, with the status draw as the oracle `sorteio`. */
  function Rastreamento(sorteio: Dados -> Sorteio): (f: Fluxo)
    ensures f.stepInicial == "solicitarPedido" && f.steps == StepsRastreamento
  {
    Fluxo("rastreamento_pedido", "solicitarPedido", StepsRastreamento, (n, d, m) => AcaoRastreamento(sorteio, n, d, m))
  }

  /**
   * The order number is refused, in place and with `dados` unchanged, exactly
   * when it is shorter than five UTF-16 units; once accepted it is stored as
   * typed and the lookup runs at once, with no message of this step.
   */
  lemma SolicitarPedidoValida(dados: Dados, m: string)
    requires m != ""
    ensures var o := SolicitarPedido(dados, Some(m));
      o.Returned?
      && (Utf16Length(m) < 5 ==> Aguarda(o.resultado) && o.resultado.proximoStep.None? && o.dados == dados)
      && (Utf16Length(m) >= 5 ==>
            AutoAvanca(o.resultado) && o.resultado.proximoStep == Some("buscarPedido") && o.resultado.mensagem.None?
            && o.dados == dados["numeroPedido" := Str(m)])
  {
  }

  /** Five characters always make a valid order number and two never do, whatever the characters are. */
  lemma SolicitarPedidoPorTamanho(dados: Dados, m: string)
    requires m != ""
    ensures |m| >= 5 ==> SolicitarPedido(dados, Some(m)).dados == dados["numeroPedido" := Str(m)]
    ensures |m| <= 2 ==> Aguarda(SolicitarPedido(dados, Some(m)).resultado)
  {
  }

  /** The lookup always records one of the four statuses and the delivery date, and shows them next. */
  lemma BuscarPedidoRegistra(sorteio: Dados -> Sorteio, dados: Dados)
    ensures var o := BuscarPedido(sorteio, dados);
      o.Returned? && AutoAvanca(o.resultado) && o.resultado.proximoStep == Some("exibirStatus")
      && o.dados.Keys == dados.Keys + {"status", "previsaoEntrega"}
      && o.dados["status"].Str? && o.dados["status"].s in Status
      && o.dados["previsaoEntrega"] == Str("25/01/2026")
  {
  }

  /**
   * After the status: `'1'` deletes exactly `numeroPedido` and `status`, keeps
   * every other key, and goes back to the order question; any other text ends
   * the conversation with `dados` unchanged.
   */
  lemma ExibirStatusDespacha(dados: Dados, m: string)
    requires m != ""
    ensures var o := ExibirStatus(dados, Some(m));
      o.Returned?
      && (m == "1" ==>
            AutoAvanca(o.resultado) && o.resultado.proximoStep == Some("solicitarPedido")
            && o.dados.Keys == dados.Keys - {"numeroPedido", "status"}
            && (forall k :: k in o.dados ==> o.dados[k] == dados[k]))
      && (m != "1" ==> o.resultado.finalizar && o.dados == dados)
  {
  }

  lemma RastreamentoFechado(sorteio: Dados -> Sorteio)
    ensures Fechado(Rastreamento(sorteio))
  {
    var f := Rastreamento(sorteio);
    forall n, d, m | n in f.steps ensures AlvoEm(f.acao(n, d, m), f.steps) {
      assert f.acao(n, d, m) == AcaoRastreamento(sorteio, n, d, m);
    }
  }

  function RankRastreamento(n: string): nat {
    if n == "buscarPedido" then 1 else 0
  }

  /** A turn of order tracking runs at most three steps, even when the user asks for another order. */
  lemma RastreamentoTermina(sorteio: Dados -> Sorteio, s: Sessao, entrada: Option<string>, fuel: nat)
    requires fuel >= 3
    ensures !Executar(Rastreamento(sorteio), s, entrada, fuel).fim.SemCombustivel?
  {
    var f := Rastreamento(sorteio);
    forall n, d | n in f.steps ensures Desce(RankRastreamento, n, f.acao(n, d, None)) {
      assert f.acao(n, d, None) == AcaoRastreamento(sorteio, n, d, None);
    }
    Termina(f, RankRastreamento, 1, s, entrada, fuel);
  }

  // ---------------------------------------------------------------------
  // Flow `cadastro_completo`
  // ---------------------------------------------------------------------

  const StepsCadastro: set<string> :=
    {"bemVindo", "coletarNome", "coletarEmail", "coletarTelefone", "validandoDados", "confirmarDados", "finalizarCadastro"}

  /** Step `bemVindo`: a greeting that goes straight on to the name. */
  function BemVindo(dados: Dados): Outcome {
    Returned(StepResult(mensagem := Some("👋 Bem-vindo!\n\nVamos fazer seu cadastro completo."),
                        aguardarResposta := Some(false), proximoStep := Some("coletarNome")), dados)
  }

  /** Whether `coletarNome` takes the text as a full name: its trimmed form splits on `' '` into two parts or more. */
  predicate NomeCompleto(m: string) {
    |Split(Trim(m), ' ')| >= 2
  }

  /** Step `coletarNome`: ask for the full name; the text is stored as typed, untrimmed. */
  function ColetarNome(dados: Dados, mensagem: Option<string>): Outcome {
    if !TruthyText(mensagem) then
      Returned(StepResult(mensagem := Some("Qual é o seu nome completo?"), aguardarResposta := Some(true)), dados)
    else if !NomeCompleto(mensagem.value) then
      Returned(StepResult(mensagem := Some("Por favor, informe seu nome completo:"), aguardarResposta := Some(true)), dados)
    else
      Returned(StepResult(mensagem := None, proximoStep := Some("coletarEmail"), aguardarResposta := Some(false)),
               dados["nome" := Str(mensagem.value)])
  }

  /** Step `coletarEmail`: a text with an `@` and a `.` anywhere is taken as an e-mail address. */
  function ColetarEmail(dados: Dados, mensagem: Option<string>): Outcome {
    if !TruthyText(mensagem) then
      Returned(StepResult(mensagem := Some("Qual é o seu e-mail?"), aguardarResposta := Some(true)), dados)
    else if !Contains(mensagem.value, '@') || !Contains(mensagem.value, '.') then
      Returned(StepResult(mensagem := Some("E-mail inválido. Tente novamente:"), aguardarResposta := Some(true)), dados)
    else
      Returned(StepResult(mensagem := None, proximoStep := Some("coletarTelefone"), aguardarResposta := Some(false)),
               dados["email" := Str(mensagem.value)])
  }

  /** Step `coletarTelefone`: keep the digits (`replace(/\D/g, '')`) and accept 10 or 11 of them. */
  function ColetarTelefone(dados: Dados, mensagem: Option<string>): Outcome {
    if !TruthyText(mensagem) then
      Returned(StepResult(mensagem := Some("Qual é o seu telefone? (apenas números)"), aguardarResposta := Some(true)), dados)
    else
      var numeros := Digits(mensagem.value);
      if |numeros| < 10 || |numeros| > 11 then
        Returned(StepResult(mensagem := Some("Telefone inválido. Digite apenas os números (DDD + número):"),
                            aguardarResposta := Some(true)), dados)
      else
        Returned(StepResult(mensagem := None, proximoStep := Some("validandoDados"), aguardarResposta := Some(false)),
                 dados["telefone" := Str(numeros)])
  }

  /** Step `validandoDados`: an announcement that goes straight on to the summary. */
  function ValidandoDados(dados: Dados): Outcome {
    Returned(StepResult(mensagem := Some("⏳ Validando seus dados..."), proximoStep := Some("confirmarDados"),
                        aguardarResposta := Some(false)), dados)
  }

  /**
   * Step `confirmarDados`: show the summary (the template's leading newline
   * and trailing indentation are cut by `.trim()`), then dispatch on the
   * exact answers `'1'` to `'4'`.
   */
  function ConfirmarDados(dados: Dados, mensagem: Option<string>): Outcome {
    if !TruthyText(mensagem) then
      Returned(StepResult(mensagem := Some("✅ Dados coletados:\n\nNome: " + ToText(Get(dados, "nome"))
                                           + "\nE-mail: " + ToText(Get(dados, "email"))
                                           + "\nTelefone: " + ToText(Get(dados, "telefone"))
                                           + "\n\nOs dados estão corretos?\n1 - Sim, confirmar\n2 - Não, corrigir nome"
                                           + "\n3 - Não, corrigir e-mail\n4 - Não, corrigir telefone"),
                          aguardarResposta := Some(true)), dados)
    else if mensagem.value == "1" then
      Returned(StepResult(mensagem := None, proximoStep := Some("finalizarCadastro"), aguardarResposta := Some(false)), dados)
    else if mensagem.value == "2" then
      Returned(StepResult(mensagem := None, proximoStep := Some("coletarNome"), aguardarResposta := Some(false)), dados - {"nome"})
    else if mensagem.value == "3" then
      Returned(StepResult(mensagem := None, proximoStep := Some("coletarEmail"), aguardarResposta := Some(false)), dados - {"email"})
    else if mensagem.value == "4" then
      Returned(StepResult(mensagem := None, proximoStep := Some("coletarTelefone"), aguardarResposta := Some(false)),
               dados - {"telefone"})
    else
      Returned(StepResult(mensagem := Some("Opção inválida. Digite 1, 2, 3 ou 4:"), aguardarResposta := Some(true)), dados)
  }

  /** Step `finalizarCadastro`: greet by the first word of `dados.nome`; `split` on a non-string throws. */
  function FinalizarCadastro(dados: Dados): Outcome {
    match CallSplit(Get(dados, "nome"), ' ')
    case None => Threw(dados)
    case Some(partes) =>
      Returned(StepResult(mensagem := Some("🎉 Cadastro realizado com sucesso!\n\nSeja bem-vindo(a), " + partes[0] + "!"),
                          finalizar := true), dados)
  }

  function AcaoCadastro(n: string, dados: Dados, mensagem: Option<string>): Outcome {
    if n == "bemVindo" then BemVindo(dados)
    else if n == "coletarNome" then ColetarNome(dados, mensagem)
    else if n == "coletarEmail" then ColetarEmail(dados, mensagem)
    else if n == "coletarTelefone" then ColetarTelefone(dados, mensagem)
    else if n == "validandoDados" then ValidandoDados(dados)
    else if n == "confirmarDados" then ConfirmarDados(dados, mensagem)
    else FinalizarCadastro(dados)
  }

  /** `fluxoCadastroCompleto`. */
  function Cadastro(): (f: Fluxo)
    ensures f.stepInicial == "bemVindo" && f.steps == StepsCadastro
  {
    Fluxo("cadastro_completo", "bemVindo", StepsCadastro, AcaoCadastro)
  }

  /** A name is taken as complete exactly when, once trimmed, it still contains a space. */
  lemma NomeCompletoTemEspaco(m: string)
    ensures NomeCompleto(m) <==> ' ' in Trim(m)
  {
    SplitHasTwoPieces(Trim(m), ' ');
  }

  /** The name step accepts exactly a trimmed text with an inner space, and stores the text as typed. */
  lemma ColetarNomeValida(dados: Dados, m: string)
    requires m != ""
    ensures var o := ColetarNome(dados, Some(m));
      o.Returned?
      && (' ' in Trim(m) ==> AutoAvanca(o.resultado) && o.resultado.proximoStep == Some("coletarEmail")
                             && o.dados == dados["nome" := Str(m)])
      && (' ' !in Trim(m) ==> Aguarda(o.resultado) && o.resultado.proximoStep.None? && o.dados == dados)
  {
    NomeCompletoTemEspaco(m);
  }

  /** The e-mail step accepts exactly a text containing both `'@'` and `'.'`, and stores it as typed. */
  lemma ColetarEmailValida(dados: Dados, m: string)
    requires m != ""
    ensures var o := ColetarEmail(dados, Some(m));
      o.Returned?
      && ('@' in m && '.' in m ==> AutoAvanca(o.resultado) && o.resultado.proximoStep == Some("coletarTelefone")
                                   && o.dados == dados["email" := Str(m)])
      && (!('@' in m && '.' in m) ==> Aguarda(o.resultado) && o.resultado.proximoStep.None? && o.dados == dados)
  {
  }

  /**
   * The phone step accepts exactly a text with 10 or 11 digit characters,
   * whatever else it contains, and stores only those digits, in order.
   */
  lemma ColetarTelefoneValida(dados: Dados, m: string)
    requires m != ""
    ensures var o := ColetarTelefone(dados, Some(m)); var ok := CountDigits(m) == 10 || CountDigits(m) == 11;
      o.Returned?
      && (ok ==> AutoAvanca(o.resultado) && o.resultado.proximoStep == Some("validandoDados")
                 && o.dados == dados["telefone" := Str(Digits(m))])
      && (!ok ==> Aguarda(o.resultado) && o.resultado.proximoStep.None? && o.dados == dados)
  {
    DigitsLength(m);
  }

  /** The stored phone number is all digits, and typing it again stores the same number. */
  lemma ColetarTelefoneEstavel(dados: Dados, m: string)
    requires m != "" && (CountDigits(m) == 10 || CountDigits(m) == 11)
    ensures ColetarTelefone(dados, Some(m)).dados == dados["telefone" := Str(Digits(m))]
    ensures forall i :: 0 <= i < |Digits(m)| ==> IsDigit(Digits(m)[i])
    ensures ColetarTelefone(dados, Some(Digits(m))).dados == dados["telefone" := Str(Digits(m))]
  {
    DigitsLength(m);
    DigitsIdempotent(m);
  }

  /**
   * The answer to the summary: `'1'` goes on to the registration, `'2'`,
   * `'3'` and `'4'` delete exactly the name, the e-mail or the phone and go
   * back to that question, and anything else prompts again with `dados`
   * unchanged.
   */
  lemma ConfirmarDadosDespacha(dados: Dados, m: string)
    requires m != ""
    ensures var o := ConfirmarDados(dados, Some(m));
      o.Returned?
      && (m == "1" ==> AutoAvanca(o.resultado) && o.resultado.proximoStep == Some("finalizarCadastro") && o.dados == dados)
      && (m == "2" ==> AutoAvanca(o.resultado) && o.resultado.proximoStep == Some("coletarNome")
                       && o.dados.Keys == dados.Keys - {"nome"} && forall k :: k in o.dados ==> o.dados[k] == dados[k])
      && (m == "3" ==> AutoAvanca(o.resultado) && o.resultado.proximoStep == Some("coletarEmail")
                       && o.dados.Keys == dados.Keys - {"email"} && forall k :: k in o.dados ==> o.dados[k] == dados[k])
      && (m == "4" ==> AutoAvanca(o.resultado) && o.resultado.proximoStep == Some("coletarTelefone")
                       && o.dados.Keys == dados.Keys - {"telefone"} && forall k :: k in o.dados ==> o.dados[k] == dados[k])
      && (m !in {"1", "2", "3", "4"} ==> Aguarda(o.resultado) && o.resultado.proximoStep.None? && o.dados == dados)
  {
  }

  /**
   * The farewell greets by the text before the first space of the stored
   * name, which therefore has no space; with no name stored it throws.
   */
  lemma FinalizarCadastroSaudaPrimeiroNome(dados: Dados, primeiro: string, resto: string)
    requires ' ' !in primeiro
    ensures var d := dados["nome" := Str(primeiro + " " + resto)];
      FinalizarCadastro(d) == Returned(StepResult(mensagem := Some("🎉 Cadastro realizado com sucesso!\n\nSeja bem-vindo(a), "
                                                                   + primeiro + "!"), finalizar := true), d)
    ensures "nome" !in dados ==> FinalizarCadastro(dados).Threw?
  {
    SplitFirstSeparator(primeiro, ' ', resto);
    assert primeiro + " " + resto == primeiro + [' '] + resto;
  }

  /**
   * Routing of each registration step: it names only steps of the flow, and
   * entered with no message it goes on only downhill in `RankCadastro`.
   */
  lemma BemVindoRota(d: Dados)
    ensures AlvoEm(BemVindo(d), StepsCadastro)
    ensures Desce(RankCadastro, "bemVindo", BemVindo(d))
  {
  }

  lemma ColetarNomeRota(d: Dados, m: Option<string>)
    ensures AlvoEm(ColetarNome(d, m), StepsCadastro)
    ensures Desce(RankCadastro, "coletarNome", ColetarNome(d, None))
  {
  }

  lemma ColetarEmailRota(d: Dados, m: Option<string>)
    ensures AlvoEm(ColetarEmail(d, m), StepsCadastro)
    ensures Desce(RankCadastro, "coletarEmail", ColetarEmail(d, None))
  {
  }

  lemma ColetarTelefoneRota(d: Dados, m: Option<string>)
    ensures AlvoEm(ColetarTelefone(d, m), StepsCadastro)
    ensures Desce(RankCadastro, "coletarTelefone", ColetarTelefone(d, None))
  {
  }

  lemma ValidandoDadosRota(d: Dados)
    ensures AlvoEm(ValidandoDados(d), StepsCadastro)
    ensures Desce(RankCadastro, "validandoDados", ValidandoDados(d))
  {
  }

  lemma ConfirmarDadosRota(d: Dados, m: Option<string>)
    ensures AlvoEm(ConfirmarDados(d, m), StepsCadastro)
    ensures Desce(RankCadastro, "confirmarDados", ConfirmarDados(d, None))
  {
  }

  lemma FinalizarCadastroRota(d: Dados)
    ensures AlvoEm(FinalizarCadastro(d), StepsCadastro)
    ensures Desce(RankCadastro, "finalizarCadastro", FinalizarCadastro(d))
  {
  }

  /** A new registration session greets and waits on the name question. */
  lemma CadastroAbre(fuel: nat)
    requires fuel >= 2
    ensures var f := Cadastro(); var e := Executar(f, NovaSessao(f.nome, f), None, fuel);
      e.fim == Pausou(Some("Qual é o seu nome completo?"), Some(true)) && e.sessao.Some?
      && e.sessao.value.stepAtual == "coletarNome" && e.sessao.value.dados == map[]
      && |e.passos| == 2
  {
    var f := Cadastro();
    var s0 := NovaSessao(f.nome, f);
    var o0 := BemVindo(map[]);
    assert f.acao(s0.stepAtual, s0.dados, None) == o0;
    var s1 := s0.(dados := o0.dados, historico := s0.historico + LogBot(o0), stepAtual := "coletarNome");
    Avanca(f, s0, None, fuel);
    assert f.acao(s1.stepAtual, s1.dados, None) == ColetarNome(s1.dados, None);
    UmPasso(f, s1, None, fuel - 1);
  }

  /** The validation notice goes straight on to the summary, which waits for the answer with `dados` unchanged. */
  lemma ValidandoLevaAoResumo(s: Sessao, fuel: nat)
    requires fuel >= 2 && s.stepAtual == "validandoDados"
    ensures var e := Executar(Cadastro(), s, None, fuel);
      e.fim.Pausou? && e.fim.aguardando == Some(true) && e.sessao.Some?
      && e.sessao.value.stepAtual == "confirmarDados" && e.sessao.value.dados == s.dados
      && |e.passos| == 2
  {
    var f := Cadastro();
    var o := ValidandoDados(s.dados);
    assert f.acao(s.stepAtual, s.dados, None) == o;
    var s1 := s.(dados := o.dados, historico := s.historico + LogBot(o), stepAtual := "confirmarDados");
    Avanca(f, s, None, fuel);
    assert f.acao(s1.stepAtual, s1.dados, None) == ConfirmarDados(s1.dados, None);
    UmPasso(f, s1, None, fuel - 1);
  }

  /**
   * A phone number with 10 or 11 digits is stored as its digits, the
   * validation notice is shown, and the turn pauses on the summary of the
   * collected data.
   */
  lemma TelefoneLevaAoResumo(s: Sessao, m: string, fuel: nat)
    requires fuel >= 3 && s.stepAtual == "coletarTelefone" && m != ""
    requires CountDigits(m) == 10 || CountDigits(m) == 11
    ensures var e := Executar(Cadastro(), s, Some(m), fuel);
      e.fim.Pausou? && e.fim.aguardando == Some(true) && e.sessao.Some?
      && e.sessao.value.stepAtual == "confirmarDados"
      && e.sessao.value.dados == s.dados["telefone" := Str(Digits(m))]
      && |e.passos| == 3
  {
    var f := Cadastro();
    var o := Returned(StepResult(mensagem := None, proximoStep := Some("validandoDados"), aguardarResposta := Some(false)),
                      s.dados["telefone" := Str(Digits(m))]);
    assert f.acao(s.stepAtual, s.dados, Some(m)) == o by {
      DigitsLength(m);
      assert ColetarTelefone(s.dados, Some(m)) == o;
    }
    var s1 := s.(dados := o.dados, historico := s.historico + LogBot(o), stepAtual := "validandoDados");
    Avanca(f, s, Some(m), fuel);
    ValidandoLevaAoResumo(s1, fuel - 1);
  }

  /** Every step of the registration keeps to the flow's steps and goes on only downhill. */
  lemma CadastroPasso(n: string, d: Dados, m: Option<string>)
    requires n in StepsCadastro
    ensures AlvoEm(AcaoCadastro(n, d, m), StepsCadastro)
    ensures m.None? ==> Desce(RankCadastro, n, AcaoCadastro(n, d, m))
  {
    var o := AcaoCadastro(n, d, m);
    if n == "bemVindo" {
      BemVindoRota(d);
      assert o == BemVindo(d);
    } else if n == "coletarNome" {
      ColetarNomeRota(d, m);
      assert o == ColetarNome(d, m);
    } else if n == "coletarEmail" {
      ColetarEmailRota(d, m);
      assert o == ColetarEmail(d, m);
    } else if n == "coletarTelefone" {
      ColetarTelefoneRota(d, m);
      assert o == ColetarTelefone(d, m);
    } else if n == "validandoDados" {
      ValidandoDadosRota(d);
      assert o == ValidandoDados(d);
    } else if n == "confirmarDados" {
      ConfirmarDadosRota(d, m);
      assert o == ConfirmarDados(d, m);
    } else {
      FinalizarCadastroRota(d);
      assert o == FinalizarCadastro(d);
    }
  }

  lemma CadastroFechado()
    ensures Fechado(Cadastro())
  {
    var f := Cadastro();
    forall n, d, m | n in f.steps ensures AlvoEm(f.acao(n, d, m), f.steps) {
      CadastroPasso(n, d, m);
    }
  }

  function RankCadastro(n: string): nat {
    if n == "bemVindo" || n == "validandoDados" then 1 else 0
  }

  /** A turn of the registration runs at most three steps, even after a correction. */
  lemma CadastroTermina(s: Sessao, entrada: Option<string>, fuel: nat)
    requires fuel >= 3
    ensures !Executar(Cadastro(), s, entrada, fuel).fim.SemCombustivel?
  {
    var f := Cadastro();
    forall n, d | n in f.steps ensures Desce(RankCadastro, n, f.acao(n, d, None)) {
      CadastroPasso(n, d, None);
    }
    Termina(f, RankCadastro, 1, s, entrada, fuel);
  }

  // ---------------------------------------------------------------------
  // Flow `agendamento_servico`
  // ---------------------------------------------------------------------

  const StepsAgendamento: set<string> :=
    {"escolherServico", "escolherData", "verificandoDisponibilidade", "escolherHorario", "confirmarAgendamento",
     "processandoAgendamento", "agendamentoConcluido"}

  const Horarios: seq<string> := ["09:00", "11:00", "14:00", "16:00"]

  /** A service of the fixed table. */
  function ServicoDe(nome: string, duracao: int): Value {
    Obj(map["nome" := Str(nome), "duracao" := Num(duracao)])
  }

  /** The own properties of the object literal `servicos`. */
  const TabelaServicos: map<string, Value> :=
    map["1" := ServicoDe("Manutenção", 120), "2" := ServicoDe("Instalação", 180), "3" := ServicoDe("Consultoria", 60)]

  /** The own properties of the object literal `datas`. */
  const TabelaDatas: map<string, Value> :=
    map["1" := Str("Hoje (27/01/2026)"), "2" := Str("Amanhã (28/01/2026)"), "3" := Str("Depois de amanhã (29/01/2026)")]

  const OpcaoInvalida := "Opção inválida. Digite 1, 2 ou 3:"

  /**
   * Step `escolherServico`: show the three services and take the one
   * `servicos[mensagem]` finds, the lookup reading as `b` says.
   */
  function EscolherServico(b: Busca, dados: Dados, mensagem: Option<string>): Outcome {
    if !TruthyText(mensagem) then
      Returned(StepResult(mensagem := Some("🔧 Agendamento de Serviço\n\nEscolha o serviço:\n1 - Manutenção\n2 - Instalação\n3 - Consultoria"),
                          aguardarResposta := Some(true)), dados)
    else
      var servico := Consultar(b, TabelaServicos, mensagem.value);
      if !Truthy(servico) then
        Returned(StepResult(mensagem := Some(OpcaoInvalida), aguardarResposta := Some(true)), dados)
      else
        Returned(StepResult(mensagem := None, proximoStep := Some("escolherData"), aguardarResposta := Some(false)),
                 dados["servico" := servico])
  }

  /** The prompt of `escolherData` for a service whose name and duration print as `nome` and `duracao`. */
  function PromptDaData(nome: string, duracao: string): string {
    "Serviço selecionado: " + nome + "\nDuração estimada: " + duracao
    + " minutos\n\nEscolha a data:\n1 - Hoje\n2 - Amanhã\n3 - Depois de amanhã"
  }

  /** Step `escolherData`: show the chosen service and the three dates, and take the date `datas[mensagem]` finds. */
  function EscolherData(b: Busca, dados: Dados, mensagem: Option<string>): Outcome {
    if !TruthyText(mensagem) then
      var servico := Get(dados, "servico");
      match (Prop(servico, "nome"), Prop(servico, "duracao"))
      case (Some(nome), Some(duracao)) =>
        Returned(StepResult(mensagem := Some(PromptDaData(ToText(nome), ToText(duracao))), aguardarResposta := Some(true)), dados)
      case _ => Threw(dados)
    else
      var data := Consultar(b, TabelaDatas, mensagem.value);
      if !Truthy(data) then
        Returned(StepResult(mensagem := Some(OpcaoInvalida), aguardarResposta := Some(true)), dados)
      else
        Returned(StepResult(mensagem := None, proximoStep := Some("verificandoDisponibilidade"), aguardarResposta := Some(false)),
                 dados["data" := data])
  }

  /** Step `verificandoDisponibilidade`: record the four free slots and show them. */
  function VerificandoDisponibilidade(dados: Dados): Outcome {
    Returned(StepResult(mensagem := Some("🔍 Verificando disponibilidade..."), proximoStep := Some("escolherHorario"),
                        aguardarResposta := Some(false)), dados["horariosDisponiveis" := Strings(Horarios)])
  }

  /** `xs.map((h, i) => `${i+1} - ${h}`)`, numbering from `primeiro + 1`. */
  function Opcoes(xs: seq<Value>, primeiro: int): (r: seq<string>)
    ensures |r| == |xs|
  {
    if xs == [] then [] else [IntToString(primeiro + 1) + " - " + ToText(xs[0])] + Opcoes(xs[1..], primeiro + 1)
  }

  /** The prompt of `escolherHorario` for a date that prints as `data` and the listed slots. */
  function PromptDosHorarios(data: string, horarios: seq<Value>): string {
    "✅ Horários disponíveis para " + data + ":\n\n" + Join(Opcoes(horarios, 0), "\n")
  }

  /** `parseInt(m) - 1`, with `NaN` staying `NaN` (`None`). */
  function Indice(m: string): Option<int> {
    match ParseInt(m)
    case None => None
    case Some(k) => Some(k - 1)
  }

  /**
   * Step `escolherHorario`: list the slots numbered from 1 (calling `map` on
   * anything but an array throws), then take the slot `parseInt(m) - 1`.
   */
  function EscolherHorario(dados: Dados, mensagem: Option<string>): Outcome {
    var horarios := Get(dados, "horariosDisponiveis");
    if !TruthyText(mensagem) then
      if !horarios.List? then Threw(dados)
      else
        Returned(StepResult(mensagem := Some(PromptDosHorarios(ToText(Get(dados, "data")), horarios.items)),
                            aguardarResposta := Some(true)), dados)
    else
      match Index(horarios, Indice(mensagem.value))
      case None => Threw(dados)
      case Some(horario) =>
        if !Truthy(horario) then
          Returned(StepResult(mensagem := Some("Opção inválida. Escolha um dos horários listados:"), aguardarResposta := Some(true)), dados)
        else
          Returned(StepResult(mensagem := None, proximoStep := Some("confirmarAgendamento"), aguardarResposta := Some(false)),
                   dados["horario" := horario])
  }

  const Cancelado := "Agendamento cancelado. Deseja iniciar novamente?\n1 - Sim\n2 - Não"

  /** Step `confirmarAgendamento`: show the summary, then `'1'` books and `'2'` answers that it was cancelled. */
  function ConfirmarAgendamento(dados: Dados, mensagem: Option<string>): Outcome {
    if !TruthyText(mensagem) then
      var servico := Get(dados, "servico");
      match (Prop(servico, "nome"), Prop(servico, "duracao"))
      case (Some(nome), Some(duracao)) =>
        Returned(StepResult(mensagem := Some("📅 Resumo do Agendamento:\n\nServiço: " + ToText(nome)
                                             + "\nData: " + ToText(Get(dados, "data"))
                                             + "\nHorário: " + ToText(Get(dados, "horario"))
                                             + "\nDuração: " + ToText(duracao)
                                             + " minutos\n\nConfirmar agendamento?\n1 - Sim\n2 - Não"),
                            aguardarResposta := Some(true)), dados)
      case _ => Threw(dados)
    else if mensagem.value == "1" then
      Returned(StepResult(mensagem := None, proximoStep := Some("processandoAgendamento"), aguardarResposta := Some(false)), dados)
    else if mensagem.value == "2" then
      Returned(StepResult(mensagem := Some(Cancelado), aguardarResposta := Some(true)), dados)
    else
      Returned(StepResult(mensagem := Some("Opção inválida. Digite 1 para confirmar ou 2 para cancelar:"),
                          aguardarResposta := Some(true)), dados)
  }

  /** Step `processandoAgendamento`: record the drawn confirmation code and go on. */
  function ProcessandoAgendamento(codigo: Dados -> string, dados: Dados): Outcome {
    Returned(StepResult(mensagem := Some("⏳ Processando seu agendamento..."), proximoStep := Some("agendamentoConcluido"),
                        aguardarResposta := Some(false)), dados["codigoConfirmacao" := Str(codigo(dados))])
  }

  /** Step `agendamentoConcluido`: the confirmation, which ends the conversation. */
  function AgendamentoConcluido(dados: Dados): Outcome {
    match Prop(Get(dados, "servico"), "nome")
    case None => Threw(dados)
    case Some(nome) =>
      Returned(StepResult(mensagem := Some("✅ Agendamento Confirmado!\n\nCódigo: " + ToText(Get(dados, "codigoConfirmacao"))
                                           + "\nServiço: " + ToText(nome)
                                           + "\nData: " + ToText(Get(dados, "data"))
                                           + "\nHorário: " + ToText(Get(dados, "horario"))
                                           + "\n\nVocê receberá uma confirmação por e-mail.\nAté breve! 👋"),
                          finalizar := true), dados)
  }

  function AcaoAgendamento(b: Busca, codigo: Dados -> string, n: string, dados: Dados, mensagem: Option<string>): Outcome {
    if n == "escolherServico" then EscolherServico(b, dados, mensagem)
    else if n == "escolherData" then EscolherData(b, dados, mensagem)
    else if n == "verificandoDisponibilidade" then VerificandoDisponibilidade(dados)
    else if n == "escolherHorario" then EscolherHorario(dados, mensagem)
    else if n == "confirmarAgendamento" then ConfirmarAgendamento(dados, mensagem)
    else if n == "processandoAgendamento" then ProcessandoAgendamento(codigo, dados)
    else AgendamentoConcluido(dados)
  }

  /** The booking flow with its two table lookups reading as `b` says. */
  function AgendamentoCom(b: Busca, codigo: Dados -> string): (f: Fluxo)
    ensures f.stepInicial == "escolherServico" && f.steps == StepsAgendamento
  {
    Fluxo("agendamento_servico", "escolherServico", StepsAgendamento, (n, d, m) => AcaoAgendamento(b, codigo, n, d, m))
  }

  /**
   * `fluxoAgendamento` as written, with the random confirmation code as the
   * oracle `codigo`: its lookups also find the inherited properties.
   */
  function Agendamento(codigo: Dados -> string): (f: Fluxo)
    ensures f.stepInicial == "escolherServico" && f.steps == StepsAgendamento
  {
    AgendamentoCom(ComHeranca, codigo)
  }

  /** `fluxoAgendamento` with the lookups restricted to the tables' own keys `'1'` to `'3'`. */
  function AgendamentoCorrigido(codigo: Dados -> string): (f: Fluxo)
    ensures f.stepInicial == "escolherServico" && f.steps == StepsAgendamento
  {
    AgendamentoCom(SoProprias, codigo)
  }

  /**
   * The service step advances exactly on `'1'`, `'2'` and `'3'`, storing the
   * service's name and its duration of 120, 180 or 60 minutes, and, as
   * written, on every name `servicos` inherits, storing the inherited value;
   * any other text prompts again with `dados` unchanged.
   */
  lemma EscolherServicoAceitaTabela(b: Busca, dados: Dados, m: string)
    requires m != ""
    ensures var o := EscolherServico(b, dados, Some(m));
      var aceita := m in {"1", "2", "3"} || (b.ComHeranca? && m in PropriedadesHerdadas);
      o.Returned?
      && (AutoAvanca(o.resultado) <==> aceita)
      && (aceita ==> o.resultado.proximoStep == Some("escolherData"))
      && (!aceita ==> Aguarda(o.resultado) && o.resultado.mensagem == Some(OpcaoInvalida)
                      && o.resultado.proximoStep.None? && o.dados == dados)
      && (m == "1" ==> o.dados == dados["servico" := ServicoDe("Manutenção", 120)])
      && (m == "2" ==> o.dados == dados["servico" := ServicoDe("Instalação", 180)])
      && (m == "3" ==> o.dados == dados["servico" := ServicoDe("Consultoria", 60)])
      && (b.ComHeranca? && m in PropriedadesHerdadas ==> o.dados == dados["servico" := Herdada(m)])
  {
  }

  /**
   * The date step advances exactly on `'1'`, `'2'` and `'3'` and, as
   * written, on every inherited name, storing what the lookup found; its
   * prompt throws when no service was stored.
   */
  lemma EscolherDataAceitaTabela(b: Busca, dados: Dados, m: string)
    requires m != ""
    ensures var o := EscolherData(b, dados, Some(m));
      var aceita := m in {"1", "2", "3"} || (b.ComHeranca? && m in PropriedadesHerdadas);
      o.Returned?
      && (AutoAvanca(o.resultado) <==> aceita)
      && (aceita ==> o.resultado.proximoStep == Some("verificandoDisponibilidade"))
      && (!aceita ==> Aguarda(o.resultado) && o.resultado.mensagem == Some(OpcaoInvalida) && o.dados == dados)
      && (m in {"1", "2", "3"} ==> o.dados == dados["data" := TabelaDatas[m]])
      && (b.ComHeranca? && m in PropriedadesHerdadas ==> o.dados == dados["data" := Herdada(m)])
    ensures "servico" !in dados ==> EscolherData(b, dados, None).Threw?
  {
    var data := Consultar(b, TabelaDatas, m);
    if m in {"1", "2", "3"} {
      assert data == TabelaDatas[m];
    } else if b.ComHeranca? && m in PropriedadesHerdadas {
      assert Truthy(data) && data == Herdada(m);
    } else {
      assert data == Undef;
    }
  }

  /**
   * With a list of truthy slots stored, the slot step accepts a text exactly
   * when `parseInt` reads it as a number `k` from 1 to the number of slots,
   * and then stores slot `k - 1`.
   */
  lemma EscolherHorarioNoIntervalo(dados: Dados, m: string, xs: seq<Value>)
    requires m != "" && Get(dados, "horariosDisponiveis") == List(xs)
    requires forall i :: 0 <= i < |xs| ==> Truthy(xs[i])
    ensures var o := EscolherHorario(dados, Some(m)); var k := ParseInt(m);
      o.Returned?
      && (AutoAvanca(o.resultado) <==> k.Some? && 1 <= k.value <= |xs|)
      && (k.Some? && 1 <= k.value <= |xs| ==>
            o.resultado.proximoStep == Some("confirmarAgendamento") && o.dados == dados["horario" := xs[k.value - 1]])
      && (!(k.Some? && 1 <= k.value <= |xs|) ==> Aguarda(o.resultado) && o.dados == dados)
  {
    var k := ParseInt(m);
    var i := Indice(m);
    assert i == (if k.Some? then Some(k.value - 1) else None);
    var h := Index(List(xs), i);
    assert h == Some(if k.Some? && 1 <= k.value <= |xs| then xs[k.value - 1] else Undef);
  }

  /** After the availability check, typing `k` for `k` from 1 to 4 books the `k`-th listed slot. */
  lemma EscolherHorarioPorNumero(dados: Dados, k: int)
    requires 1 <= k <= 4
    ensures var d := VerificandoDisponibilidade(dados).dados;
      EscolherHorario(d, Some(IntToString(k))).dados == d["horario" := Str(Horarios[k - 1])]
  {
    var d := VerificandoDisponibilidade(dados).dados;
    HorariosListados();
    var xs := Strings(Horarios).items;
    var m := IntToString(k);
    ParseIntToString(k);
    assert m != "";
    EscolherHorarioNoIntervalo(d, m, xs);
  }

  lemma HorariosListados()
    ensures var xs := Strings(Horarios).items;
      |xs| == 4 && forall i :: 0 <= i < 4 ==> xs[i] == Str(Horarios[i]) && Truthy(xs[i])
  {
  }

  /** Numbering of the slot list: line `i` is `i + 1`, a dash and the slot. */
  lemma {:induction false} OpcoesNumeradas(xs: seq<Value>, primeiro: int, i: int)
    requires 0 <= i < |xs|
    ensures Opcoes(xs, primeiro)[i] == IntToString(primeiro + i + 1) + " - " + ToText(xs[i])
    decreases |xs|
  {
    if i > 0 {
      OpcoesNumeradas(xs[1..], primeiro + 1, i - 1);
    }
  }

  /**
   * The confirmation: `'1'` goes on to the booking without waiting, `'2'`
   * only says it was cancelled and stays on this step, and anything else
   * prompts again; `dados` is never changed.
   */
  lemma ConfirmarAgendamentoDespacha(dados: Dados, m: string)
    requires m != ""
    ensures var o := ConfirmarAgendamento(dados, Some(m));
      o.Returned? && o.dados == dados
      && (m == "1" ==> AutoAvanca(o.resultado) && o.resultado.proximoStep == Some("processandoAgendamento"))
      && (m == "2" ==> Aguarda(o.resultado) && o.resultado.proximoStep.None? && o.resultado.mensagem == Some(Cancelado))
      && (m != "1" && m != "2" ==> Aguarda(o.resultado) && o.resultado.proximoStep.None?)
  {
  }

  /**
   * Cancelling does not cancel: on the confirmation, `'2'` answers that the
   * booking was cancelled and asks whether to start again, but keeps the
   * session on the confirmation with the service still stored, so the answer
   * `'1'` to that question books the appointment (`ConfirmarConclui`).
   */
  lemma CancelarFica(b: Busca, codigo: Dados -> string, s: Sessao, fuel: nat)
    requires fuel >= 1 && s.stepAtual == "confirmarAgendamento"
    ensures var e := Executar(AgendamentoCom(b, codigo), Recebida(s, "2"), Some("2"), fuel);
      e.fim == Pausou(Some(Cancelado), Some(true)) && e.sessao.Some?
      && e.sessao.value.stepAtual == "confirmarAgendamento" && e.sessao.value.dados == Recebida(s, "2").dados
  {
    var f := AgendamentoCom(b, codigo);
    var r := Recebida(s, "2");
    assert f.acao(r.stepAtual, r.dados, Some("2")) == ConfirmarAgendamento(r.dados, Some("2"));
  }

  /** The last step ends the conversation once a service is stored. */
  lemma ConcluidoFinaliza(b: Busca, codigo: Dados -> string, s: Sessao, fuel: nat)
    requires fuel >= 1 && s.stepAtual == "agendamentoConcluido" && !Nullish(Get(s.dados, "servico"))
    ensures var e := Executar(AgendamentoCom(b, codigo), s, None, fuel);
      e.fim.Finalizou? && |e.passos| == 1
  {
    var f := AgendamentoCom(b, codigo);
    assert f.acao(s.stepAtual, s.dados, None) == AgendamentoConcluido(s.dados);
  }

  /** Booking draws the code and runs on into the last step, which ends the conversation. */
  lemma ProcessandoFinaliza(b: Busca, codigo: Dados -> string, s: Sessao, fuel: nat)
    requires fuel >= 2 && s.stepAtual == "processandoAgendamento" && !Nullish(Get(s.dados, "servico"))
    ensures var e := Executar(AgendamentoCom(b, codigo), s, None, fuel);
      e.fim.Finalizou? && |e.passos| == 2 && e.passos[0].step == "processandoAgendamento"
      && e.passos[1].step == "agendamentoConcluido"
  {
    var f := AgendamentoCom(b, codigo);
    var o := ProcessandoAgendamento(codigo, s.dados);
    assert f.acao(s.stepAtual, s.dados, None) == o;
    var s1 := s.(dados := o.dados, historico := s.historico + LogBot(o), stepAtual := "agendamentoConcluido");
    assert Get(s1.dados, "servico") == Get(s.dados, "servico");
    Avanca(f, s, None, fuel);
    ConcluidoFinaliza(b, codigo, s1, fuel - 1);
  }

  /** On the confirmation, `'1'` books: the code is drawn and the conversation ends with the confirmation. */
  lemma ConfirmarConclui(b: Busca, codigo: Dados -> string, s: Sessao, fuel: nat)
    requires fuel >= 3 && s.stepAtual == "confirmarAgendamento" && !Nullish(Get(s.dados, "servico"))
    ensures var e := Executar(AgendamentoCom(b, codigo), Recebida(s, "1"), Some("1"), fuel);
      e.fim.Finalizou? && e.sessao.None? && |e.passos| == 3
      && e.passos[1].step == "processandoAgendamento" && e.passos[2].step == "agendamentoConcluido"
  {
    var f := AgendamentoCom(b, codigo);
    var r := Recebida(s, "1");
    var o := Returned(StepResult(mensagem := None, proximoStep := Some("processandoAgendamento"), aguardarResposta := Some(false)), r.dados);
    assert f.acao(r.stepAtual, r.dados, Some("1")) == o by {
      assert ConfirmarAgendamento(r.dados, Some("1")) == o;
    }
    assert LogBot(o) == [] && r.historico + [] == r.historico;
    var s1 := r.(stepAtual := "processandoAgendamento");
    assert Get(s1.dados, "servico") == Get(s.dados, "servico");
    Avanca(f, r, Some("1"), fuel);
    ProcessandoFinaliza(b, codigo, s1, fuel - 1);
  }

  // Findings: the bracket lookups `servicos[mensagem]` and `datas[mensagem]`.

  /** An inherited value has no `nome` or `duracao`: both read as `undefined`. */
  lemma HerdadaSemCampos(k: string)
    ensures Prop(Herdada(k), "nome") == Some(Undef) && Prop(Herdada(k), "duracao") == Some(Undef)
  {
  }

  /**
   * Entered with a stored service that has no `nome` and no `duracao`, the
   * date step shows both as `undefined` and waits.
   */
  lemma DataSemCamposPausa(b: Busca, codigo: Dados -> string, s: Sessao, fuel: nat)
    requires fuel >= 1 && s.stepAtual == "escolherData"
    requires Prop(Get(s.dados, "servico"), "nome") == Some(Undef) && Prop(Get(s.dados, "servico"), "duracao") == Some(Undef)
    ensures Executar(AgendamentoCom(b, codigo), s, None, fuel)
      == Execucao(Pausou(Some(PromptDaData("undefined", "undefined")), Some(true)),
                  Some(s.(historico := s.historico + [Entrada(Bot, PromptDaData("undefined", "undefined"))])),
                  [Passo("escolherData", None, s.dados,
                         Returned(StepResult(mensagem := Some(PromptDaData("undefined", "undefined")), aguardarResposta := Some(true)), s.dados))])
  {
    var f := AgendamentoCom(b, codigo);
    var o := Returned(StepResult(mensagem := Some(PromptDaData("undefined", "undefined")), aguardarResposta := Some(true)), s.dados);
    assert f.acao(s.stepAtual, s.dados, None) == o by {
      assert EscolherData(b, s.dados, None) == o;
    }
  }

  /**
   * A service lookup that finds a truthy value with no `nome` and no
   * `duracao` stores it and goes on to the date menu, which shows both as
   * `undefined` and waits.
   */
  lemma ServicoSemCamposSegue(codigo: Dados -> string, s: Sessao, m: string, v: Value, fuel: nat)
    requires fuel >= 2 && s.stepAtual == "escolherServico" && m != ""
    requires Consultar(ComHeranca, TabelaServicos, m) == v && Truthy(v)
    requires Prop(v, "nome") == Some(Undef) && Prop(v, "duracao") == Some(Undef)
    ensures var e := Executar(Agendamento(codigo), s, Some(m), fuel);
      e.fim == Pausou(Some(PromptDaData("undefined", "undefined")), Some(true))
      && e.sessao.Some? && e.sessao.value.stepAtual == "escolherData"
      && e.sessao.value.dados == s.dados["servico" := v]
      && |e.passos| == 2
  {
    var s2 := s.(dados := s.dados["servico" := v], stepAtual := "escolherData");
    ServicoEncontradoSegue(codigo, s, m, v, fuel);
    assert Get(s2.dados, "servico") == v;
    DataSemCamposPausa(ComHeranca, codigo, s2, fuel - 1);
  }

  /** A truthy service found at the service menu is stored, and the turn goes on at the date menu with no message. */
  lemma ServicoEncontradoSegue(codigo: Dados -> string, s: Sessao, m: string, v: Value, fuel: nat)
    requires fuel >= 1 && s.stepAtual == "escolherServico" && m != ""
    requires Consultar(ComHeranca, TabelaServicos, m) == v && Truthy(v)
    ensures var f := Agendamento(codigo);
      var o := Returned(StepResult(mensagem := None, proximoStep := Some("escolherData"), aguardarResposta := Some(false)),
                        s.dados["servico" := v]);
      var e2 := Executar(f, s.(dados := s.dados["servico" := v], stepAtual := "escolherData"), None, fuel - 1);
      Executar(f, s, Some(m), fuel) == Execucao(e2.fim, e2.sessao, [Passo(s.stepAtual, Some(m), s.dados, o)] + e2.passos)
  {
    var f := Agendamento(codigo);
    var o := Returned(StepResult(mensagem := None, proximoStep := Some("escolherData"), aguardarResposta := Some(false)),
                      s.dados["servico" := v]);
    assert f.acao(s.stepAtual, s.dados, Some(m)) == o by {
      assert EscolherServico(ComHeranca, s.dados, Some(m)) == o;
    }
    assert LogBot(o) == [] && s.historico + [] == s.historico;
    Avanca(f, s, Some(m), fuel);
  }

  /**
   * As written, answering the service menu with an inherited name such as
   * `"constructor"` stores the inherited value as the service and goes on to
   * the date menu, which shows the service's name and duration as
   * `undefined` and waits.
   */
  lemma EscolherServicoHerdado(codigo: Dados -> string, s: Sessao, m: string, fuel: nat)
    requires fuel >= 2 && s.stepAtual == "escolherServico" && m in PropriedadesHerdadas
    ensures var e := Executar(Agendamento(codigo), s, Some(m), fuel);
      e.fim == Pausou(Some(PromptDaData("undefined", "undefined")), Some(true))
      && e.sessao.Some? && e.sessao.value.stepAtual == "escolherData"
      && e.sessao.value.dados == s.dados["servico" := Herdada(m)]
      && |e.passos| == 2
  {
    assert m != "" && m !in TabelaServicos;
    HerdadaSemCampos(m);
    ServicoSemCamposSegue(codigo, s, m, Herdada(m), fuel);
  }

  /**
   * From the availability check, a turn records the free slots and pauses on
   * the slot menu, listing them for the stored date.
   */
  lemma DisponibilidadeListaHorarios(b: Busca, codigo: Dados -> string, s: Sessao, fuel: nat)
    requires fuel >= 2 && s.stepAtual == "verificandoDisponibilidade"
    ensures var e := Executar(AgendamentoCom(b, codigo), s, None, fuel);
      e.fim == Pausou(Some(PromptDosHorarios(ToText(Get(s.dados, "data")), Strings(Horarios).items)), Some(true))
      && e.sessao.Some? && e.sessao.value.stepAtual == "escolherHorario"
      && e.sessao.value.dados == s.dados["horariosDisponiveis" := Strings(Horarios)]
      && |e.passos| == 2
  {
    var f := AgendamentoCom(b, codigo);
    var o := VerificandoDisponibilidade(s.dados);
    assert f.acao(s.stepAtual, s.dados, None) == o;
    var s2 := s.(dados := o.dados, historico := s.historico + LogBot(o), stepAtual := "escolherHorario");
    Avanca(f, s, None, fuel);
    assert Get(s2.dados, "data") == Get(s.dados, "data");
    var o2 := EscolherHorario(s2.dados, None);
    assert o2 == Returned(StepResult(mensagem := Some(PromptDosHorarios(ToText(Get(s.dados, "data")), Strings(Horarios).items)),
                                     aguardarResposta := Some(true)), s2.dados);
    assert f.acao(s2.stepAtual, s2.dados, None) == o2;
    UmPasso(f, s2, None, fuel - 1);
  }

  /**
   * As written, answering the date menu with an inherited name such as
   * `"toString"` stores the inherited value as the date and goes on to list
   * the slots "available for" that value's text.
   */
  lemma EscolherDataHerdada(codigo: Dados -> string, s: Sessao, m: string, fuel: nat)
    requires fuel >= 3 && s.stepAtual == "escolherData" && m in PropriedadesHerdadas
    ensures var e := Executar(Agendamento(codigo), s, Some(m), fuel);
      e.fim == Pausou(Some(PromptDosHorarios(ToText(Herdada(m)), Strings(Horarios).items)), Some(true))
      && e.sessao.Some? && e.sessao.value.stepAtual == "escolherHorario"
      && e.sessao.value.dados == s.dados["data" := Herdada(m)]["horariosDisponiveis" := Strings(Horarios)]
      && |e.passos| == 3
  {
    var f := Agendamento(codigo);
    var o := Returned(StepResult(mensagem := None, proximoStep := Some("verificandoDisponibilidade"), aguardarResposta := Some(false)),
                      s.dados["data" := Herdada(m)]);
    assert f.acao(s.stepAtual, s.dados, Some(m)) == o by {
      assert EscolherData(ComHeranca, s.dados, Some(m)) == o;
    }
    var s2 := s.(dados := o.dados, historico := s.historico + LogBot(o), stepAtual := "verificandoDisponibilidade");
    Avanca(f, s, Some(m), fuel);
    assert Get(s2.dados, "data") == Herdada(m);
    DisponibilidadeListaHorarios(ComHeranca, codigo, s2, fuel - 1);
  }

  /**
   * The corrected lookups, restricted to the tables' own keys, advance
   * exactly on the keys the prompts offer, and an inherited name on the
   * service menu only prompts again.
   */
  lemma TabelasSoChavesProprias(codigo: Dados -> string, dados: Dados, s: Sessao, m: string, fuel: nat)
    requires m != "" && fuel >= 1 && s.stepAtual == "escolherServico"
    ensures AutoAvanca(EscolherServico(SoProprias, dados, Some(m)).resultado) <==> m in {"1", "2", "3"}
    ensures AutoAvanca(EscolherData(SoProprias, dados, Some(m)).resultado) <==> m in {"1", "2", "3"}
    ensures m in PropriedadesHerdadas ==>
      var e := Executar(AgendamentoCorrigido(codigo), s, Some(m), fuel);
      e.fim == Pausou(Some(OpcaoInvalida), Some(true))
      && e.sessao == Some(s.(historico := s.historico + [Entrada(Bot, OpcaoInvalida)]))
  {
    EscolherServicoAceitaTabela(SoProprias, dados, m);
    EscolherDataAceitaTabela(SoProprias, dados, m);
    if m in PropriedadesHerdadas {
      var f := AgendamentoCorrigido(codigo);
      var o := EscolherServico(SoProprias, s.dados, Some(m));
      EscolherServicoAceitaTabela(SoProprias, s.dados, m);
      assert o == Returned(StepResult(mensagem := Some(OpcaoInvalida), aguardarResposta := Some(true)), s.dados);
      assert f.acao(s.stepAtual, s.dados, Some(m)) == o;
      UmPasso(f, s, Some(m), fuel);
    }
  }

  lemma AgendamentoFechado(b: Busca, codigo: Dados -> string)
    ensures Fechado(AgendamentoCom(b, codigo))
  {
    var f := AgendamentoCom(b, codigo);
    forall n, d, m | n in f.steps ensures AlvoEm(f.acao(n, d, m), f.steps) {
      AgendamentoPasso(b, codigo, n, d, m);
    }
  }

  function RankAgendamento(n: string): nat {
    if n == "verificandoDisponibilidade" || n == "processandoAgendamento" then 1 else 0
  }

  /** A turn of the booking runs at most three steps. */
  lemma AgendamentoTermina(b: Busca, codigo: Dados -> string, s: Sessao, entrada: Option<string>, fuel: nat)
    requires fuel >= 3
    ensures !Executar(AgendamentoCom(b, codigo), s, entrada, fuel).fim.SemCombustivel?
  {
    var f := AgendamentoCom(b, codigo);
    forall n, d | n in f.steps ensures Desce(RankAgendamento, n, f.acao(n, d, None)) {
      AgendamentoPasso(b, codigo, n, d, None);
    }
    Termina(f, RankAgendamento, 1, s, entrada, fuel);
  }

  /**
   * Routing of each booking step: it names only steps of the flow, and entered
   * with no message it goes on only downhill in `RankAgendamento`.
   */
  lemma EscolherServicoRota(b: Busca, d: Dados, m: Option<string>)
    ensures AlvoEm(EscolherServico(b, d, m), StepsAgendamento)
  {
  }

  lemma EscolherServicoDesce(b: Busca, d: Dados)
    ensures Desce(RankAgendamento, "escolherServico", EscolherServico(b, d, None))
  {
  }

  lemma EscolherDataRota(b: Busca, d: Dados, m: Option<string>)
    ensures AlvoEm(EscolherData(b, d, m), StepsAgendamento)
    ensures Desce(RankAgendamento, "escolherData", EscolherData(b, d, None))
  {
  }

  lemma VerificandoDisponibilidadeRota(d: Dados)
    ensures AlvoEm(VerificandoDisponibilidade(d), StepsAgendamento)
    ensures Desce(RankAgendamento, "verificandoDisponibilidade", VerificandoDisponibilidade(d))
  {
  }

  lemma EscolherHorarioRota(d: Dados, m: Option<string>)
    ensures AlvoEm(EscolherHorario(d, m), StepsAgendamento)
    ensures Desce(RankAgendamento, "escolherHorario", EscolherHorario(d, None))
  {
  }

  lemma ConfirmarAgendamentoRota(d: Dados, m: Option<string>)
    ensures AlvoEm(ConfirmarAgendamento(d, m), StepsAgendamento)
    ensures Desce(RankAgendamento, "confirmarAgendamento", ConfirmarAgendamento(d, None))
  {
  }

  lemma ProcessandoAgendamentoRota(codigo: Dados -> string, d: Dados)
    ensures AlvoEm(ProcessandoAgendamento(codigo, d), StepsAgendamento)
    ensures Desce(RankAgendamento, "processandoAgendamento", ProcessandoAgendamento(codigo, d))
  {
  }

  lemma AgendamentoConcluidoRota(d: Dados)
    ensures AlvoEm(AgendamentoConcluido(d), StepsAgendamento)
    ensures Desce(RankAgendamento, "agendamentoConcluido", AgendamentoConcluido(d))
  {
  }

  /** Every step of the booking keeps to the flow's steps and goes on only downhill. */
  lemma AgendamentoPasso(b: Busca, codigo: Dados -> string, n: string, d: Dados, m: Option<string>)
    requires n in StepsAgendamento
    ensures AlvoEm(AcaoAgendamento(b, codigo, n, d, m), StepsAgendamento)
    ensures m.None? ==> Desce(RankAgendamento, n, AcaoAgendamento(b, codigo, n, d, m))
  {
    var o := AcaoAgendamento(b, codigo, n, d, m);
    if n == "escolherServico" {
      EscolherServicoRota(b, d, m);
      EscolherServicoDesce(b, d);
      assert o == EscolherServico(b, d, m);
    } else if n == "escolherData" {
      EscolherDataRota(b, d, m);
      assert o == EscolherData(b, d, m);
    } else if n == "verificandoDisponibilidade" {
      VerificandoDisponibilidadeRota(d);
      assert o == VerificandoDisponibilidade(d);
    } else if n == "escolherHorario" {
      EscolherHorarioRota(d, m);
      assert o == EscolherHorario(d, m);
    } else if n == "confirmarAgendamento" {
      ConfirmarAgendamentoRota(d, m);
      assert o == ConfirmarAgendamento(d, m);
    } else if n == "processandoAgendamento" {
      ProcessandoAgendamentoRota(codigo, d);
      assert o == ProcessandoAgendamento(codigo, d);
    } else {
      AgendamentoConcluidoRota(d);
      assert o == AgendamentoConcluido(d);
    }
  }
}
