/**
 * The flow `atendimento_rbx` of `rbx-flow.js`: greet, ask for a CPF/CNPJ,
 * look the customer up in the RouterBox service, confirm the registration,
 * then offer a main menu and a financial menu from which the customer gets a
 * bank slip as a PDF link, as a PIX copy-and-paste code, or reports a
 * payment with its date.
 *
 * Every request to a web service is an oracle: a function from the request's
 * arguments to the answer the script reads from it (`null` when the request
 * fails). Reading the clock in São Paulo is an oracle too, and so is the
 * locale formatting of amounts, which is floating point.
 */
module RbxFlow {
  import opened Wrappers
  import opened JsText
  import opened JsValue
  import opened ChatbotFlow

  /** The answers of the outside world the flow depends on. */
  datatype Servicos = Servicos(
    /** `res.data` of the customer query for a document, or `null`. */
    cadastro: Value -> Value,
    /** `response.data.result` of the unpaid-document query for a customer code. */
    abertos: Value -> Value,
    /** `response.data.result.banking_billet_link` for a document id (`None` is `null`). */
    pdf: Value -> Option<string>,
    /** `response.data.result` of the PIX query for a document id (`None` is `null`). */
    pix: Value -> Option<string>,
    /** `response.data.result` of the payment notification for a document id, a date and a customer code. */
    aviso: (Value, string, Value) -> Value,
    /** `parseFloat(v).toLocaleString('pt-BR')`. */
    valor: Value -> string,
    /** Day of the week (0 is Sunday), hour and minute in São Paulo when a step runs. */
    relogio: Dados -> (int, int, int))

  // ---------------------------------------------------------------------
  // validarHorarioAtendimento
  // ---------------------------------------------------------------------

  /** The opening hours the function tests: weekdays 8:00 to 18:00, Saturdays 8:00 to 12:00. */
  predicate DentroDoHorario(dia: int, hora: int, minuto: int) {
    (1 <= dia <= 5 && hora >= 8 && (hora < 18 || (hora == 18 && minuto == 0)))
    || (dia == 6 && hora >= 8 && (hora < 12 || (hora == 12 && minuto == 0)))
  }

  /** `validarHorarioAtendimento`, branch by branch: every path returns `true`. */
  function ValidarHorarioAtendimento(dia: int, hora: int, minuto: int): bool {
    if 1 <= dia <= 5 then
      if hora >= 8 && (hora < 18 || (hora == 18 && minuto == 0)) then true else true
    else if dia == 6 then
      if hora >= 8 && (hora < 12 || (hora == 12 && minuto == 0)) then true else true
    else true
  }

  /** The service counts as open at every moment, even outside the hours the function tests. */
  lemma SempreAberto(dia: int, hora: int, minuto: int)
    ensures ValidarHorarioAtendimento(dia, hora, minuto)
    ensures !DentroDoHorario(0, hora, minuto) && ValidarHorarioAtendimento(0, hora, minuto)
  {
  }

  // ---------------------------------------------------------------------
  // Dates
  // ---------------------------------------------------------------------

  /** `partes[i]` in a template literal: missing pieces read as `undefined`. */
  function Parte(partes: seq<string>, i: nat): string {
    if i < |partes| then partes[i] else "undefined"
  }

  /** The listing's `yyyy-mm-dd` to `dd/mm/yyyy`. */
  function IsoParaBr(data: string): string {
    var p := Split(data, '-');
    Parte(p, 2) + "/" + Parte(p, 1) + "/" + Parte(p, 0)
  }

  /** `avisoPagamento`'s `dd/mm/yyyy` to `yyyy-mm-dd`. */
  function BrParaIso(data: string): string {
    var p := Split(data, '/');
    Parte(p, 2) + "-" + Parte(p, 1) + "-" + Parte(p, 0)
  }

  /** A date of three separator-free parts is reordered exactly as its parts say. */
  lemma ReordenaTresPartes(dia: string, mes: string, ano: string)
    requires '/' !in dia && '/' !in mes && '/' !in ano
    requires '-' !in dia && '-' !in mes && '-' !in ano
    ensures BrParaIso(dia + "/" + mes + "/" + ano) == ano + "-" + mes + "-" + dia
    ensures IsoParaBr(ano + "-" + mes + "-" + dia) == dia + "/" + mes + "/" + ano
  {
    SplitThree(dia, mes, ano, '/');
    assert dia + "/" + mes + "/" + ano == dia + ['/'] + mes + ['/'] + ano;
    SplitThree(ano, mes, dia, '-');
    assert ano + "-" + mes + "-" + dia == ano + ['-'] + mes + ['-'] + dia;
  }

  /** On such dates the two reorderings undo each other. */
  lemma ReordenacoesInversas(dia: string, mes: string, ano: string)
    requires '/' !in dia && '/' !in mes && '/' !in ano
    requires '-' !in dia && '-' !in mes && '-' !in ano
    ensures IsoParaBr(BrParaIso(dia + "/" + mes + "/" + ano)) == dia + "/" + mes + "/" + ano
    ensures BrParaIso(IsoParaBr(ano + "-" + mes + "-" + dia)) == ano + "-" + mes + "-" + dia
  {
    ReordenaTresPartes(dia, mes, ano);
  }

  // ---------------------------------------------------------------------
  // The service wrappers
  // ---------------------------------------------------------------------

  /** `buscarBoletosEmAberto(cliente)`: the result when it has a positive length, `null` otherwise or when `cliente` is nullish. */
  function BuscarBoletosEmAberto(o: Servicos, cliente: Value): (r: Value)
    ensures Truthy(r) ==> !Nullish(cliente) && r == o.abertos(Prop(cliente, "codigo").value)
    ensures var codigo := Prop(cliente, "codigo");
      codigo.Some? && o.abertos(codigo.value).List? && o.abertos(codigo.value).items != [] ==>
        r == o.abertos(codigo.value)
  {
    match Prop(cliente, "codigo")
    case None => Null
    case Some(codigo) =>
      var resultado := o.abertos(codigo);
      match Prop(resultado, "length")
      case Some(Num(n)) => if n > 0 then resultado else Null
      case _ => Null
  }

  /** `informarPagamento(cliente, boleto, data)`: `null` when `boleto` or `cliente` is nullish. */
  function InformarPagamento(o: Servicos, cliente: Value, boleto: Value, data: string): Value {
    match Prop(boleto, "id")
    case None => Null
    case Some(id) =>
      match Prop(cliente, "codigo")
      case None => Null
      case Some(codigo) => o.aviso(id, data, codigo)
  }

  /** `response.result[0].k` of a customer query's answer. */
  function CampoDoCadastro(resposta: Value, k: string): Option<Value> {
    match Prop(resposta, "result")
    case None => None
    case Some(lista) =>
      match Index(lista, Some(0))
      case None => None
      case Some(primeiro) => Prop(primeiro, k)
  }

  /** `parseInt(v)`, which reads `String(v)`. */
  function ParseIntValue(v: Value): Value {
    match ParseInt(ToText(v))
    case None => NaN
    case Some(k) => Num(k)
  }

  // ---------------------------------------------------------------------
  // Steps
  // ---------------------------------------------------------------------

  const StepsRbx: set<string> :=
    {"inicio", "apresentacao", "solicitarDocumento", "buscarCadastro", "erroCadastro", "confirmarCadastro",
     "menuInicial", "confirmarMenuInicial", "menuFinanceiro", "confirmarMenuFinanceiro",
     "menuBoletos", "confirmarBoletos", "menuBoletosPIX", "confirmarBoletosPIX",
     "menuBoletosAviso", "confirmarBoletosAviso", "avisoPagamento", "finalizar"}

  /** The steps that call `mensagem.trim()` without checking for `null` first. */
  const SemGuarda: set<string> :=
    {"confirmarMenuInicial", "confirmarMenuFinanceiro", "confirmarBoletos", "confirmarBoletosPIX", "confirmarBoletosAviso"}

  const Texto := Some("text")

  /** A result that shows `mensagem` and goes straight on to `proximo`. */
  function Informa(mensagem: string, proximo: string): StepResult {
    StepResult(mensagem := Some(mensagem), tipo := Texto, proximoStep := Some(proximo), aguardarResposta := Some(false))
  }

  /** A result with no message that goes straight on to `proximo` (`mensagem: null, tipo: null`). */
  function Avanca(proximo: string): StepResult {
    StepResult(mensagem := None, tipo := None, proximoStep := Some(proximo), aguardarResposta := Some(false))
  }

  /** A result that shows `mensagem` and waits for the answer on `proximo`, or in place when `proximo` is `None`. */
  function Pergunta(mensagem: string, proximo: Option<string>): StepResult {
    StepResult(mensagem := Some(mensagem), tipo := Texto, proximoStep := proximo, aguardarResposta := Some(true))
  }

  const Saudacao := "Olá, que bom que você entrou em contato com a Loga!"
  const Identificacao := "Eu sou a Lara, assistente virtual da RBXSoft!"
  const PedidoDeDocumento := "Preciso que você informe o CPF/CNPJ para o qual deseja atendimento"

  function Inicio(dados: Dados): Outcome {
    Returned(Informa(Saudacao, "apresentacao"), dados)
  }

  function Apresentacao(dados: Dados): Outcome {
    Returned(Informa(Identificacao, "solicitarDocumento"), dados)
  }

  /** Step `solicitarDocumento`: any message is taken as the document, trimmed (the check is commented out). */
  function SolicitarDocumento(dados: Dados, mensagem: Option<string>): Outcome {
    if !TruthyText(mensagem) then
      Returned(Pergunta(PedidoDeDocumento, None), dados)
    else
      Returned(Avanca("buscarCadastro"), dados["documento" := Str(Trim(mensagem.value))])
  }

  /** The customer record `buscarCadastro` builds from the first result of the query. */
  function Cliente(nome: Value, codigo: Value, documento: Value, whatsapp: Value): Value {
    Obj(map["nome" := nome, "codigo" := ParseIntValue(codigo), "documento" := documento, "whatsapp" := whatsapp,
            "boletos" := List([])])
  }

  /** The customer record read from a customer query's answer; `None` when reading a field throws. */
  function NovoCliente(resposta: Value, whatsapp: Value): Option<Value> {
    match CampoDoCadastro(resposta, "Nome")
    case None => None
    case Some(nome) =>
      match CampoDoCadastro(resposta, "Codigo")
      case None => None
      case Some(codigo) =>
        match CampoDoCadastro(resposta, "CNPJ_CNPF")
        case None => None
        case Some(documento) => Some(Cliente(nome, codigo, documento, whatsapp))
  }

  /** Step `buscarCadastro`: query the document; a truthy answer becomes `dados.cliente`. */
  function BuscarCadastro(o: Servicos, dados: Dados): Outcome {
    var resposta := o.cadastro(Get(dados, "documento"));
    if !Truthy(resposta) then Returned(Avanca("erroCadastro"), dados)
    else
      match NovoCliente(resposta, Get(dados, "usuarioId"))
      case None => Threw(dados)
      case Some(cliente) =>
        Returned(Informa("Aguarde enquanto localizo o cadastro!", "confirmarCadastro"), dados["cliente" := cliente])
  }

  const CadastroNaoEncontrado := "Cadastro não encontrado. Por favor, informe outro CPF/CNPJ!"

  function ErroCadastro(dados: Dados): Outcome {
    Returned(Pergunta(CadastroNaoEncontrado, Some("solicitarDocumento")), dados)
  }

  /**
   * Step `confirmarCadastro`: show the name found, then compare the trimmed
   * answer loosely with 1 and 2. Saving the contact is a request whose
   * answer nobody waits for, so it has no effect here.
   */
  function ConfirmarCadastro(dados: Dados, mensagem: Option<string>): Outcome {
    if !TruthyText(mensagem) then
      match Prop(Get(dados, "cliente"), "nome")
      case None => Threw(dados)
      case Some(nome) => Returned(Pergunta(CadastroLocalizado(nome), None), dados)
    else
      var opcao := Trim(mensagem.value);
      if LooseEquals(opcao, 1) then Returned(Avanca("menuInicial"), dados)
      else if LooseEquals(opcao, 2) then
        Returned(Pergunta(OutroDocumento, Some("solicitarDocumento")), dados)
      else
        Returned(Pergunta(SimOuNao, None), dados)
  }

  /** The question `confirmarCadastro` asks about the customer found. */
  function CadastroLocalizado(nome: Value): string {
    "✅ Consegui localizar o cadastro em nome de " + ToText(nome)
    + "\n\nÉ para esse cadastro que você deseja atendimento?\n\n▶️ 1 - Sim\n▶️ 2 - Não"
  }

  const OutroDocumento := "Entendido. Por favor, informe outro CPF/CNPJ!"
  const SimOuNao := "Opção inválida. Por favor, digite:\n▶️ 1 - Sim\n▶️ 2 - Não"

  /** The hand-over to a person: opens a ticket and ends the flow. */
  const Transferencia :=
    StepResult(mensagem := Some("Certo, vou transferir você para o atendimento humano!"), tipo := Texto,
               abrirChamado := true, finalizar := true)

  const MenuInicialTexto :=
    "▶️ 1 - Falar com financeiro\n▶️ 2 - Falar com suporte\n▶️ 3 - Falar com atendente\n▶️ 4 - Sair"

  const MenuInicialPergunta := "Para seguir com o atendimento, escolha uma das opções abaixo\n\n" + MenuInicialTexto

  function MenuInicial(dados: Dados): Outcome {
    Returned(Pergunta(MenuInicialPergunta, Some("confirmarMenuInicial")), dados)
  }

  /** Step `confirmarMenuInicial`: dispatch on the trimmed answer; `null` makes `trim` throw. */
  function ConfirmarMenuInicial(o: Servicos, dados: Dados, mensagem: Option<string>): Outcome {
    if mensagem.None? then Threw(dados)
    else
      var opcao := Trim(mensagem.value);
      if LooseEquals(opcao, 1) then Returned(Avanca("menuFinanceiro"), dados)
      else if LooseEquals(opcao, 2) || LooseEquals(opcao, 3) then
        var (dia, hora, minuto) := o.relogio(dados);
        if !ValidarHorarioAtendimento(dia, hora, minuto) then
          Returned(Informa("Estamos fechados no momento. Por favor, tente novamente mais tarde!", "finalizar"), dados)
        else
          Returned(Transferencia, dados)
      else if LooseEquals(opcao, 4) then Returned(Avanca("finalizar"), dados)
      else Returned(Pergunta("Opção inválida. Por favor, digite:\n" + MenuInicialTexto, None), dados)
  }

  const MenuFinanceiroTexto :=
    "▶️ 1 - Obter segunda via (Boleto em aberto)\n▶️ 2 - Obter Pix Copia e Cola (Boleto em aberto)\n▶️ 3 - Informar aviso de pagamento\n▶️ 4 - Voltar ao menu principal"

  const MenuFinanceiroPergunta := "Escolha uma das opções abaixo\n\n" + MenuFinanceiroTexto

  function MenuFinanceiro(dados: Dados): Outcome {
    Returned(Pergunta(MenuFinanceiroPergunta, Some("confirmarMenuFinanceiro")), dados)
  }

  /**
   * The options 1 to 3 of the financial menu: fetch the unpaid slips into
   * `dados.cliente.boletos` and list them on `listagem`, or say there are none
   * and finish.
   */
  function BuscarBoletos(o: Servicos, dados: Dados, listagem: string): Outcome {
    var cliente := Get(dados, "cliente");
    var boletos := BuscarBoletosEmAberto(o, cliente);
    if Truthy(boletos) then
      match SetProp(cliente, "boletos", boletos)
      case None => Threw(dados)
      case Some(cliente') =>
        var dados' := dados["cliente" := cliente'];
        match Prop(cliente', "nome")
        case None => Threw(dados')
        case Some(nome) => Returned(Informa(Encontrados(Prop(boletos, "length").value, nome), listagem), dados')
    else
      match Prop(cliente, "nome")
      case None => Threw(dados)
      case Some(nome) => Returned(Informa(NenhumBoleto(nome), "finalizar"), dados)
  }

  function Encontrados(quantos: Value, nome: Value): string {
    "Encontrei " + ToText(quantos) + " boleto(s) em aberto para  " + ToText(nome)
  }

  function NenhumBoleto(nome: Value): string {
    "Não exitem boleto(s) em aberto para esse cadastro " + ToText(nome)
  }

  /** Step `confirmarMenuFinanceiro`: dispatch on the trimmed answer; `null` makes `trim` throw. */
  function ConfirmarMenuFinanceiro(o: Servicos, dados: Dados, mensagem: Option<string>): Outcome {
    if mensagem.None? then Threw(dados)
    else
      var opcao := Trim(mensagem.value);
      if LooseEquals(opcao, 1) then BuscarBoletos(o, dados, "menuBoletos")
      else if LooseEquals(opcao, 2) then BuscarBoletos(o, dados, "menuBoletosPIX")
      else if LooseEquals(opcao, 3) then BuscarBoletos(o, dados, "menuBoletosAviso")
      else if LooseEquals(opcao, 4) then Returned(Avanca("menuInicial"), dados)
      else Returned(Pergunta("Opção inválida. Por favor, digite:\n" + MenuFinanceiroTexto, None), dados)
  }

  /** A slip the listing can show: its `due_date` is a string. */
  predicate Legivel(b: Value) {
    Prop(b, "due_date").Some? && Prop(b, "due_date").value.Str?
  }

  /** The listing line of slip `b` numbered `k`, with its due date as `dd/mm/yyyy`. */
  function Linha(o: Servicos, b: Value, k: int): string
    requires Legivel(b)
  {
    "▶️ " + IntToString(k) + " - " + IsoParaBr(Prop(b, "due_date").value.s) + " Valor R$" + o.valor(Prop(b, "value_init").value)
  }

  /** One line of the slip listing; `None` when reading the slip throws. */
  function LinhaBoleto(o: Servicos, boleto: Value, indice: int): Option<string> {
    if Legivel(boleto) then Some(Linha(o, boleto, indice + 1)) else None
  }

  /** The lines for `boletos`, numbered from `primeiro + 1`. */
  function LinhasBoletos(o: Servicos, boletos: seq<Value>, primeiro: int): (r: Option<seq<string>>)
    ensures r.Some? ==> |r.value| == |boletos|
  {
    if boletos == [] then Some([])
    else
      match LinhaBoleto(o, boletos[0], primeiro)
      case None => None
      case Some(linha) =>
        match LinhasBoletos(o, boletos[1..], primeiro + 1)
        case None => None
        case Some(resto) => Some([linha] + resto)
  }

  /**
   * Steps `menuBoletos`, `menuBoletosPIX` and `menuBoletosAviso`: list
   * `dados.cliente.boletos` and wait for the choice on `escolha`; `map` on
   * anything but an array throws.
   */
  function MenuBoletos(o: Servicos, dados: Dados, escolha: string): Outcome {
    match Prop(Get(dados, "cliente"), "boletos")
    case None => Threw(dados)
    case Some(boletos) =>
      if !boletos.List? then Threw(dados)
      else
        match LinhasBoletos(o, boletos.items, 0)
        case None => Threw(dados)
        case Some(linhas) =>
          Returned(Pergunta("Escolha um do(s) boleto(s) abaixo\n\n" + Join(linhas, "\n") + "\n▶️ 0 - Voltar ao menu financeiro",
                            Some(escolha)), dados)
  }

  /** `opcao <= v` for a number `opcao` and a `length` value `v`: false unless `v` is a number. */
  predicate AteOTamanho(opcao: int, v: Value) {
    v.Num? && opcao <= v.n
  }

  /**
   * How the three slip choices read the answer: `parseInt` of the trimmed
   * text, then 0 to go back, 1 to the number of slips to pick one. A
   * positive number reads `dados.cliente.boletos.length`.
   */
  datatype Escolha = Voltar | Boleto(boleto: Value) | Invalida | Excecao

  function Escolher(dados: Dados, m: string): Escolha {
    var opcao := ParseInt(Trim(m));
    if opcao == Some(0) then Voltar
    else if opcao.None? || opcao.value <= 0 then Invalida
    else
      match Prop(Get(dados, "cliente"), "boletos")
      case None => Excecao
      case Some(boletos) =>
        match Prop(boletos, "length")
        case None => Excecao
        case Some(n) =>
          if !AteOTamanho(opcao.value, n) then Invalida
          else
            match Index(boletos, Some(opcao.value - 1))
            case None => Excecao
            case Some(b) => Boleto(b)
  }

  /** What an invalid slip choice answers, in all three variants: back to the PDF listing. */
  function OpcaoInvalida(dados: Dados): Outcome {
    Returned(Informa("Opção inválida", "menuBoletos"), dados)
  }

  /** Step `confirmarBoletos`: send the chosen slip's PDF link. */
  function ConfirmarBoletos(o: Servicos, dados: Dados, mensagem: Option<string>): Outcome {
    if mensagem.None? then Threw(dados)
    else
      match Escolher(dados, mensagem.value)
      case Voltar => Returned(Avanca("menuFinanceiro"), dados)
      case Invalida => OpcaoInvalida(dados)
      case Excecao => Threw(dados)
      case Boleto(b) =>
        match Prop(b, "id")
        case None => Threw(dados)
        case Some(id) =>
          Returned(EnviaPdf(o.pdf(id)), dados)
  }

  /** The PDF link as an embed, or an error text when the service gave none; either way the farewell follows. */
  function EnviaPdf(link: Option<string>): (r: StepResult)
    ensures r.proximoStep == Some("finalizar") && AutoAvanca(r)
  {
    if TruthyText(link) then
      StepResult(mensagem := link, tipo := Some("embed"), proximoStep := Some("finalizar"), aguardarResposta := Some(false))
    else Informa("Ocorreu um erro ao tentar recuperar o pdf, tente novamente mais tarde!", "finalizar")
  }

  /** Step `confirmarBoletosPIX`: send the chosen slip's PIX code. */
  function ConfirmarBoletosPix(o: Servicos, dados: Dados, mensagem: Option<string>): Outcome {
    if mensagem.None? then Threw(dados)
    else
      match Escolher(dados, mensagem.value)
      case Voltar => Returned(Avanca("menuFinanceiro"), dados)
      case Invalida => OpcaoInvalida(dados)
      case Excecao => Threw(dados)
      case Boleto(b) =>
        match Prop(b, "id")
        case None => Threw(dados)
        case Some(id) =>
          Returned(Informa(CodigoPix(o.pix(id)), "finalizar"), dados)
  }

  /** The PIX copy-and-paste code, or an error text when the service gave none. */
  function CodigoPix(codigo: Option<string>): string {
    if TruthyText(codigo) then codigo.value else "Ocorreu um erro ao tentar recuperar o PIX, tente novamente mais tarde!"
  }

  /** Step `confirmarBoletosAviso`: keep the chosen slip in `dados.cliente.boletoSelecionado` and ask for the date. */
  function ConfirmarBoletosAviso(dados: Dados, mensagem: Option<string>): Outcome {
    if mensagem.None? then Threw(dados)
    else
      match Escolher(dados, mensagem.value)
      case Voltar => Returned(Avanca("menuFinanceiro"), dados)
      case Invalida => OpcaoInvalida(dados)
      case Excecao => Threw(dados)
      case Boleto(b) =>
        match SetProp(Get(dados, "cliente"), "boletoSelecionado", b)
        case None => Threw(dados)
        case Some(cliente') =>
          Returned(Pergunta("Informe a data de pagamento no formato 00/00/0000", Some("avisoPagamento")),
                   dados["cliente" := cliente'])
  }

  /** Step `avisoPagamento`: report the payment of the selected slip on the given date, rewritten as `yyyy-mm-dd`. */
  function AvisoPagamento(o: Servicos, dados: Dados, mensagem: Option<string>): Outcome {
    if !TruthyText(mensagem) then
      Returned(Pergunta("Preciso que você Informe a data de pagamento no formato 00/00/0000", None), dados)
    else
      var cliente := Get(dados, "cliente");
      match Prop(cliente, "boletoSelecionado")
      case None => Threw(dados)
      case Some(boleto) =>
        var resposta := InformarPagamento(o, cliente, boleto, BrParaIso(Trim(mensagem.value)));
        Returned(Informa(if Truthy(resposta) then AvisoAceito else AvisoRecusado, "finalizar"), dados)
  }

  const AvisoAceito := "Seu pagamento foi informado com sucesso, em breve seu sinal deve voltar ao normal"
  const AvisoRecusado := "Não foi possível informar o pagamento, tente novamente mais tarde!"

  function Finalizar(dados: Dados): Outcome {
    Returned(StepResult(mensagem := Some("Obrigada pelo contato, até mais!"), tipo := Texto, finalizar := true), dados)
  }

  /** `fluxoAtendimentoRBX.steps[n].acao`. */
  function AcaoRbx(o: Servicos, n: string, dados: Dados, mensagem: Option<string>): Outcome {
    if n == "inicio" then Inicio(dados)
    else if n == "apresentacao" then Apresentacao(dados)
    else if n == "solicitarDocumento" then SolicitarDocumento(dados, mensagem)
    else if n == "buscarCadastro" then BuscarCadastro(o, dados)
    else if n == "erroCadastro" then ErroCadastro(dados)
    else if n == "confirmarCadastro" then ConfirmarCadastro(dados, mensagem)
    else if n == "menuInicial" then MenuInicial(dados)
    else if n == "confirmarMenuInicial" then ConfirmarMenuInicial(o, dados, mensagem)
    else if n == "menuFinanceiro" then MenuFinanceiro(dados)
    else if n == "confirmarMenuFinanceiro" then ConfirmarMenuFinanceiro(o, dados, mensagem)
    else if n == "menuBoletos" then MenuBoletos(o, dados, "confirmarBoletos")
    else if n == "confirmarBoletos" then ConfirmarBoletos(o, dados, mensagem)
    else if n == "menuBoletosPIX" then MenuBoletos(o, dados, "confirmarBoletosPIX")
    else if n == "confirmarBoletosPIX" then ConfirmarBoletosPix(o, dados, mensagem)
    else if n == "menuBoletosAviso" then MenuBoletos(o, dados, "confirmarBoletosAviso")
    else if n == "confirmarBoletosAviso" then ConfirmarBoletosAviso(dados, mensagem)
    else if n == "avisoPagamento" then AvisoPagamento(o, dados, mensagem)
    else Finalizar(dados)
  }

  /** `fluxoAtendimentoRBX`, answered by the services `o`. */
  function Rbx(o: Servicos): (f: Fluxo)
    ensures f.stepInicial == "inicio" && f.steps == StepsRbx
  {
    Fluxo("atendimento_rbx", "inicio", StepsRbx, (n, d, m) => AcaoRbx(o, n, d, m))
  }

  // ---------------------------------------------------------------------
  // Properties
  // ---------------------------------------------------------------------

  // Dispatch, one branch at a time

  /**
   * The document step: with no message it prompts in place; any message at
   * all is stored trimmed as `documento` and the lookup runs at once.
   */
  lemma SolicitarDocumentoAceitaTudo(dados: Dados, mensagem: Option<string>)
    ensures var o := SolicitarDocumento(dados, mensagem);
      o.Returned?
      && (!TruthyText(mensagem) ==> Aguarda(o.resultado) && o.resultado.proximoStep.None? && o.dados == dados)
      && (TruthyText(mensagem) ==>
            AutoAvanca(o.resultado) && o.resultado.proximoStep == Some("buscarCadastro") && o.resultado.mensagem.None?
            && o.dados == dados["documento" := Str(Trim(mensagem.value))])
  {
  }

  /**
   * The lookup: a falsy answer goes on to `erroCadastro` with `dados`
   * unchanged; a customer found is stored with an empty slip list, the
   * answer's `Codigo` read by `parseInt` and `whatsapp` taken from `usuarioId`.
   */
  lemma BuscarCadastroGuardaCliente(o: Servicos, dados: Dados)
    ensures var r := BuscarCadastro(o, dados); var resposta := o.cadastro(Get(dados, "documento"));
      (!Truthy(resposta) ==> r == Returned(Avanca("erroCadastro"), dados))
      && (r.Returned? && Truthy(resposta) ==>
            r.resultado.proximoStep == Some("confirmarCadastro") && AutoAvanca(r.resultado)
            && r.dados == dados["cliente" := Cliente(CampoDoCadastro(resposta, "Nome").value,
                                                     CampoDoCadastro(resposta, "Codigo").value,
                                                     CampoDoCadastro(resposta, "CNPJ_CNPF").value, Get(dados, "usuarioId"))])
  {
  }

  /** `parseInt` of the stored code: a whole number read from the answer's text, `NaN` when there is none. */
  lemma CodigoDoCliente(codigo: Value)
    ensures var c := ParseIntValue(codigo); c.Num? || c.NaN?
    ensures codigo.Num? ==> ParseIntValue(codigo) == codigo
  {
    if codigo.Num? { NumText(codigo.n); }
  }

  /** The registration prompt: with no answer yet it shows the name found, and throws when no customer is stored. */
  lemma ConfirmarCadastroMostraNome(dados: Dados, mensagem: Option<string>)
    requires !TruthyText(mensagem)
    ensures var r := ConfirmarCadastro(dados, mensagem); var cliente := Get(dados, "cliente");
      (r.Threw? <==> Nullish(cliente))
      && (r.Returned? ==>
            r.dados == dados && Aguarda(r.resultado) && r.resultado.proximoStep.None?
            && r.resultado.mensagem == Some("✅ Consegui localizar o cadastro em nome de " + ToText(Prop(cliente, "nome").value)
                                           + "\n\nÉ para esse cadastro que você deseja atendimento?\n\n▶️ 1 - Sim\n▶️ 2 - Não"))
  {
  }

  /** An answer loosely equal to 1 confirms the registration and goes on to the main menu. */
  lemma ConfirmarCadastroSim(dados: Dados, m: string)
    requires m != "" && LooseEquals(Trim(m), 1)
    ensures ConfirmarCadastro(dados, Some(m)) == Returned(Avanca("menuInicial"), dados)
  {
  }

  /** An answer loosely equal to 2 asks for another document and waits for it on `solicitarDocumento`. */
  lemma ConfirmarCadastroNao(dados: Dados, m: string)
    requires m != "" && LooseEquals(Trim(m), 2)
    ensures ConfirmarCadastro(dados, Some(m)) == Returned(Pergunta(OutroDocumento, Some("solicitarDocumento")), dados)
  {
    LooseEqualsUnique(Trim(m), 1, 2);
  }

  /** Any other answer repeats the two options and waits in place. */
  lemma ConfirmarCadastroInvalida(dados: Dados, m: string)
    requires m != "" && !LooseEquals(Trim(m), 1) && !LooseEquals(Trim(m), 2)
    ensures ConfirmarCadastro(dados, Some(m)) == Returned(Pergunta(SimOuNao, None), dados)
  {
  }

  /** Main menu, 1: the financial menu, without waiting. */
  lemma ConfirmarMenuInicialFinanceiro(o: Servicos, dados: Dados, m: string)
    requires LooseEquals(Trim(m), 1)
    ensures ConfirmarMenuInicial(o, dados, Some(m)) == Returned(Avanca("menuFinanceiro"), dados)
  {
  }

  /** Main menu, 2 or 3: the hand-over to a person, whatever the clock says. */
  lemma ConfirmarMenuInicialAtendimento(o: Servicos, dados: Dados, m: string)
    requires LooseEquals(Trim(m), 2) || LooseEquals(Trim(m), 3)
    ensures ConfirmarMenuInicial(o, dados, Some(m)) == Returned(Transferencia, dados)
  {
    LooseEqualsUnique(Trim(m), 1, 2);
    LooseEqualsUnique(Trim(m), 1, 3);
    var (dia, hora, minuto) := o.relogio(dados);
    SempreAberto(dia, hora, minuto);
  }

  /** Main menu, 4: the farewell, without waiting. */
  lemma ConfirmarMenuInicialSair(o: Servicos, dados: Dados, m: string)
    requires LooseEquals(Trim(m), 4)
    ensures ConfirmarMenuInicial(o, dados, Some(m)) == Returned(Avanca("finalizar"), dados)
  {
    LooseEqualsUnique(Trim(m), 1, 4);
    LooseEqualsUnique(Trim(m), 2, 4);
    LooseEqualsUnique(Trim(m), 3, 4);
  }

  /** Main menu, anything else: the options again, waiting in place. */
  lemma ConfirmarMenuInicialInvalida(o: Servicos, dados: Dados, m: string)
    requires !LooseEquals(Trim(m), 1) && !LooseEquals(Trim(m), 2) && !LooseEquals(Trim(m), 3) && !LooseEquals(Trim(m), 4)
    ensures ConfirmarMenuInicial(o, dados, Some(m))
            == Returned(Pergunta("Opção inválida. Por favor, digite:\n" + MenuInicialTexto, None), dados)
  {
  }

  /** Typing an option's digit selects it: `"1"` to `"4"` are loosely equal to 1 to 4. */
  lemma OpcoesPorDigito(k: nat)
    requires 1 <= k <= 4
    ensures LooseEquals(Trim(NatToString(k)), k)
  {
    assert NatToString(k) == [DigitChar(k)];
    TrimStartNoSpace(NatToString(k));
    TrimEndNoSpace(NatToString(k));
    LooseEqualsNumeral(k);
  }

  /** The listing each of the financial options 1, 2 and 3 leads to. */
  function Listagem(k: int): string {
    if k == 1 then "menuBoletos" else if k == 2 then "menuBoletosPIX" else "menuBoletosAviso"
  }

  /** Financial menu, 1 to 3: fetch the slips for the PDF, the PIX or the payment report. */
  lemma ConfirmarMenuFinanceiroBoletos(o: Servicos, dados: Dados, m: string, k: int)
    requires 1 <= k <= 3 && LooseEquals(Trim(m), k)
    ensures ConfirmarMenuFinanceiro(o, dados, Some(m)) == BuscarBoletos(o, dados, Listagem(k))
  {
    if k != 1 {
      LooseEqualsUnique(Trim(m), 1, k);
    }
    if k == 3 {
      LooseEqualsUnique(Trim(m), 2, k);
    }
  }

  /** Financial menu, 4: back to the main menu, without waiting. */
  lemma ConfirmarMenuFinanceiroVoltar(o: Servicos, dados: Dados, m: string)
    requires LooseEquals(Trim(m), 4)
    ensures ConfirmarMenuFinanceiro(o, dados, Some(m)) == Returned(Avanca("menuInicial"), dados)
  {
    LooseEqualsUnique(Trim(m), 1, 4);
    LooseEqualsUnique(Trim(m), 2, 4);
    LooseEqualsUnique(Trim(m), 3, 4);
  }

  /** Financial menu, anything else: the options again, waiting in place. */
  lemma ConfirmarMenuFinanceiroInvalida(o: Servicos, dados: Dados, m: string)
    requires !LooseEquals(Trim(m), 1) && !LooseEquals(Trim(m), 2) && !LooseEquals(Trim(m), 3) && !LooseEquals(Trim(m), 4)
    ensures ConfirmarMenuFinanceiro(o, dados, Some(m))
            == Returned(Pergunta("Opção inválida. Por favor, digite:\n" + MenuFinanceiroTexto, None), dados)
  {
  }

  /** The slips of a customer record, when they form a list. */
  predicate TemBoletos(dados: Dados, xs: seq<Value>) {
    Get(dados, "cliente").Obj? && Prop(Get(dados, "cliente"), "boletos") == Some(List(xs))
  }

  /**
   * Slips found: they are stored in `dados.cliente.boletos`, where the
   * listing and the choice read them, and the flow goes on to the listing.
   */
  lemma BuscarBoletosEncontrou(o: Servicos, dados: Dados, listagem: string, xs: seq<Value>)
    requires Get(dados, "cliente").Obj? && BuscarBoletosEmAberto(o, Get(dados, "cliente")) == List(xs) && xs != []
    ensures var r := BuscarBoletos(o, dados, listagem);
      r.Returned? && !Aguarda(r.resultado) && !r.resultado.finalizar && r.resultado.proximoStep == Some(listagem)
      && r.dados == dados["cliente" := Obj(Get(dados, "cliente").fields["boletos" := List(xs)])]
      && TemBoletos(r.dados, xs)
  {
  }

  /** No slips: the flow says so and goes on to the farewell with `dados` unchanged; with no customer it throws. */
  lemma BuscarBoletosNenhum(o: Servicos, dados: Dados, listagem: string)
    requires !Truthy(BuscarBoletosEmAberto(o, Get(dados, "cliente")))
    ensures var r := BuscarBoletos(o, dados, listagem);
      (r.Threw? <==> Nullish(Get(dados, "cliente")))
      && (r.Returned? ==> r.dados == dados && AutoAvanca(r.resultado) && r.resultado.proximoStep == Some("finalizar"))
  {
  }

  /** `buscarBoletosEmAberto` only ever passes on a non-empty answer, and none at all for a missing customer. */
  lemma BoletosEmAbertoNaoVazios(o: Servicos, cliente: Value)
    ensures var r := BuscarBoletosEmAberto(o, cliente);
      (Nullish(cliente) ==> r == Null)
      && (Truthy(r) ==> Prop(r, "length").Some? && Prop(r, "length").value.Num? && Prop(r, "length").value.n > 0)
      && (r.List? ==> r.items != [])
  {
  }

  /** Line `i` of the listing shows slip `i` under the number `primeiro + i + 1`. */
  lemma {:induction false} LinhasNumeradas(o: Servicos, xs: seq<Value>, primeiro: int)
    requires forall i :: 0 <= i < |xs| ==> Legivel(xs[i])
    ensures var r := LinhasBoletos(o, xs, primeiro);
      r.Some? && |r.value| == |xs| && forall i :: 0 <= i < |xs| ==> r.value[i] == Linha(o, xs[i], primeiro + i + 1)
    decreases |xs|
  {
    if xs != [] {
      var primeira := Linha(o, xs[0], primeiro + 1);
      assert LinhaBoleto(o, xs[0], primeiro) == Some(primeira);
      LinhasNumeradas(o, xs[1..], primeiro + 1);
      var resto := LinhasBoletos(o, xs[1..], primeiro + 1).value;
      assert LinhasBoletos(o, xs, primeiro) == Some([primeira] + resto);
      LinhasSeguintes(o, xs, primeiro, resto);
    }
  }

  /** Putting the first line before the lines of the other slips keeps every line under its slip's number. */
  lemma LinhasSeguintes(o: Servicos, xs: seq<Value>, primeiro: int, resto: seq<string>)
    requires xs != [] && forall i :: 0 <= i < |xs| ==> Legivel(xs[i])
    requires |resto| == |xs| - 1
    requires forall i :: 0 <= i < |xs| - 1 ==> resto[i] == Linha(o, xs[1..][i], primeiro + 1 + i + 1)
    ensures forall i :: 0 <= i < |xs| ==> ([Linha(o, xs[0], primeiro + 1)] + resto)[i] == Linha(o, xs[i], primeiro + i + 1)
  {
    forall i | 1 <= i < |xs| ensures ([Linha(o, xs[0], primeiro + 1)] + resto)[i] == Linha(o, xs[i], primeiro + i + 1) {
      assert xs[1..][i - 1] == xs[i];
    }
  }

  /** A slip the listing cannot read (a nullish slip, or a `due_date` that is not a string) makes the listing throw. */
  lemma {:induction false} LinhasIlegiveis(o: Servicos, xs: seq<Value>, primeiro: int, j: int)
    requires 0 <= j < |xs| && !Legivel(xs[j])
    ensures LinhasBoletos(o, xs, primeiro).None?
    decreases |xs|
  {
    if j > 0 {
      LinhasIlegiveis(o, xs[1..], primeiro + 1, j - 1);
    }
  }

  /**
   * The three listings: every stored slip on its own line, numbered from 1
   * in order, then the option 0 to go back; the flow waits for the choice on
   * `escolha`.
   */
  lemma MenuBoletosLista(o: Servicos, dados: Dados, escolha: string, xs: seq<Value>)
    requires TemBoletos(dados, xs) && forall i :: 0 <= i < |xs| ==> Legivel(xs[i])
    ensures LinhasBoletos(o, xs, 0).Some?
    ensures var r := MenuBoletos(o, dados, escolha); var linhas := LinhasBoletos(o, xs, 0).value;
      r.Returned? && r.dados == dados && Aguarda(r.resultado) && r.resultado.proximoStep == Some(escolha)
      && r.resultado.mensagem
         == Some("Escolha um do(s) boleto(s) abaixo\n\n" + Join(linhas, "\n") + "\n▶️ 0 - Voltar ao menu financeiro")
      && |linhas| == |xs| && forall i :: 0 <= i < |xs| ==> linhas[i] == Linha(o, xs[i], i + 1)
  {
    LinhasNumeradas(o, xs, 0);
  }

  /**
   * Reading a slip choice: 0 goes back, a number from 1 to the number of
   * slips picks that slip (the one the listing numbered so), and anything
   * else is invalid.
   */
  lemma EscolherNoIntervalo(dados: Dados, m: string, xs: seq<Value>)
    requires TemBoletos(dados, xs)
    ensures var e := Escolher(dados, m); var k := ParseInt(Trim(m));
      (k == Some(0) <==> e.Voltar?)
      && (k.Some? && 1 <= k.value <= |xs| <==> e.Boleto?)
      && (k.Some? && 1 <= k.value <= |xs| ==> e.boleto == xs[k.value - 1])
      && (!(k.Some? && 0 <= k.value <= |xs|) <==> e.Invalida?)
  {
  }

  /**
   * All three slip choices: 0 returns to the financial menu, and an invalid
   * choice goes on to the PDF listing `menuBoletos`, even in the PIX and
   * payment-report variants.
   */
  lemma EscolhasDeBoleto(o: Servicos, dados: Dados, m: string, xs: seq<Value>)
    requires TemBoletos(dados, xs)
    ensures var k := ParseInt(Trim(m));
      (k == Some(0) ==>
         ConfirmarBoletos(o, dados, Some(m)) == Returned(Avanca("menuFinanceiro"), dados)
         && ConfirmarBoletosPix(o, dados, Some(m)) == Returned(Avanca("menuFinanceiro"), dados)
         && ConfirmarBoletosAviso(dados, Some(m)) == Returned(Avanca("menuFinanceiro"), dados))
      && (!(k.Some? && 0 <= k.value <= |xs|) ==>
         ConfirmarBoletos(o, dados, Some(m)) == OpcaoInvalida(dados)
         && ConfirmarBoletosPix(o, dados, Some(m)) == OpcaoInvalida(dados)
         && ConfirmarBoletosAviso(dados, Some(m)) == OpcaoInvalida(dados))
    ensures OpcaoInvalida(dados).resultado.proximoStep == Some("menuBoletos") && AutoAvanca(OpcaoInvalida(dados).resultado)
  {
    EscolherNoIntervalo(dados, m, xs);
  }

  /**
   * Picking slip `k` of the list: the PDF and PIX variants send that slip's
   * link or code (or an error text) and finish; the payment-report variant
   * stores that slip as `boletoSelecionado` and waits for the date.
   */
  lemma EscolherBoleto(o: Servicos, dados: Dados, m: string, xs: seq<Value>)
    requires TemBoletos(dados, xs)
    requires var k := ParseInt(Trim(m)); k.Some? && 1 <= k.value <= |xs| && xs[k.value - 1].Obj?
    ensures var b := xs[ParseInt(Trim(m)).value - 1]; var id := Prop(b, "id").value;
      var r := ConfirmarBoletos(o, dados, Some(m));
      r.Returned? && r.dados == dados && r.resultado.proximoStep == Some("finalizar") && AutoAvanca(r.resultado)
      && (TruthyText(o.pdf(id)) <==> r.resultado.mensagem == o.pdf(id) && r.resultado.tipo == Some("embed"))
    ensures var b := xs[ParseInt(Trim(m)).value - 1]; var id := Prop(b, "id").value;
      var r := ConfirmarBoletosPix(o, dados, Some(m));
      r.Returned? && r.dados == dados && r.resultado.proximoStep == Some("finalizar") && AutoAvanca(r.resultado)
      && (TruthyText(o.pix(id)) ==> r.resultado.mensagem == o.pix(id))
    ensures var b := xs[ParseInt(Trim(m)).value - 1]; var cliente := Get(dados, "cliente");
      ConfirmarBoletosAviso(dados, Some(m))
      == Returned(Pergunta("Informe a data de pagamento no formato 00/00/0000", Some("avisoPagamento")),
                  dados["cliente" := Obj(cliente.fields["boletoSelecionado" := b])])
  {
    EscolherNoIntervalo(dados, m, xs);
  }

  /**
   * The payment report sends the date typed as `dd/mm/yyyy` to the service
   * as `yyyy-mm-dd`, and says whether the service accepted it.
   */
  lemma AvisoPagamentoData(o: Servicos, dados: Dados, dia: string, mes: string, ano: string)
    requires '/' !in dia && '/' !in mes && '/' !in ano && '-' !in dia && '-' !in mes && '-' !in ano
    requires var t := dia + "/" + mes + "/" + ano; Trim(t) == t
    requires Get(dados, "cliente").Obj?
    ensures var cliente := Get(dados, "cliente"); var boleto := Prop(cliente, "boletoSelecionado").value;
      var r := AvisoPagamento(o, dados, Some(dia + "/" + mes + "/" + ano));
      r.Returned? && r.resultado.proximoStep == Some("finalizar") && r.dados == dados
      && (Truthy(InformarPagamento(o, cliente, boleto, ano + "-" + mes + "-" + dia))
          <==> r.resultado.mensagem == Some(AvisoAceito))
  {
    ReordenaTresPartes(dia, mes, ano);
  }

  /** The farewell always ends the conversation. */
  lemma FinalizarEncerra(dados: Dados)
    ensures Finalizar(dados).resultado.finalizar && Finalizar(dados).dados == dados
  {
  }

  // Whole turns through the announcements and menus

  /**
   * A new conversation greets, introduces the assistant and asks for the
   * document: three steps whose messages all go into the history, with the
   * session left waiting on `solicitarDocumento`.
   */
  lemma RbxAbertura(o: Servicos, s: Sessao, fuel: nat)
    requires fuel >= 3 && s.stepAtual == "inicio"
    ensures var e := Executar(Rbx(o), s, None, fuel);
      e.fim == Pausou(Some(PedidoDeDocumento), Some(true))
      && e.sessao == Some(s.(stepAtual := "solicitarDocumento",
                             historico := s.historico + [Entrada(Bot, Saudacao), Entrada(Bot, Identificacao), Entrada(Bot, PedidoDeDocumento)]))
      && |e.passos| == 3
  {
    var f := Rbx(o);
    var o1 := Inicio(s.dados);
    assert f.acao(s.stepAtual, s.dados, None) == o1;
    var s1 := s.(historico := s.historico + [Entrada(Bot, Saudacao)], stepAtual := "apresentacao");
    ChatbotFlow.Avanca(f, s, None, fuel);
    var o2 := Apresentacao(s1.dados);
    assert f.acao(s1.stepAtual, s1.dados, None) == o2;
    var s2 := s1.(historico := s1.historico + [Entrada(Bot, Identificacao)], stepAtual := "solicitarDocumento");
    ChatbotFlow.Avanca(f, s1, None, fuel - 1);
    var o3 := SolicitarDocumento(s2.dados, None);
    assert f.acao(s2.stepAtual, s2.dados, None) == o3;
    UmPasso(f, s2, None, fuel - 2);
    assert s2.historico + [Entrada(Bot, PedidoDeDocumento)]
        == s.historico + [Entrada(Bot, Saudacao), Entrada(Bot, Identificacao), Entrada(Bot, PedidoDeDocumento)];
  }

  /**
   * A document the customer service does not know: the lookup goes on to
   * `erroCadastro`, which asks for another document and waits for it on
   * `solicitarDocumento`, with `dados` unchanged.
   */
  lemma RbxCadastroNaoEncontrado(o: Servicos, s: Sessao, fuel: nat)
    requires fuel >= 2 && s.stepAtual == "buscarCadastro" && !Truthy(o.cadastro(Get(s.dados, "documento")))
    ensures var e := Executar(Rbx(o), s, None, fuel);
      e.fim == Pausou(Some(CadastroNaoEncontrado), Some(true))
      && e.sessao == Some(s.(stepAtual := "solicitarDocumento", historico := s.historico + [Entrada(Bot, CadastroNaoEncontrado)]))
      && |e.passos| == 2
  {
    var f := Rbx(o);
    var o1 := BuscarCadastro(o, s.dados);
    assert o1 == Returned(Avanca("erroCadastro"), s.dados);
    assert f.acao(s.stepAtual, s.dados, None) == o1;
    var s1 := s.(stepAtual := "erroCadastro");
    assert LogBot(o1) == [] && s.historico + [] == s.historico;
    ChatbotFlow.Avanca(f, s, None, fuel);
    var o2 := ErroCadastro(s1.dados);
    assert f.acao(s1.stepAtual, s1.dados, None) == o2;
    UmPasso(f, s1, None, fuel - 1);
  }

  /**
   * Confirming the registration (an answer loosely equal to 1) shows the
   * main menu and waits for the choice on `confirmarMenuInicial`.
   */
  lemma RbxMenuInicial(o: Servicos, s: Sessao, m: string, fuel: nat)
    requires fuel >= 2 && s.stepAtual == "confirmarCadastro" && m != "" && LooseEquals(Trim(m), 1)
    ensures var e := Executar(Rbx(o), s, Some(m), fuel);
      e.fim == Pausou(Some(MenuInicialPergunta), Some(true))
      && e.sessao == Some(s.(stepAtual := "confirmarMenuInicial", historico := s.historico + [Entrada(Bot, MenuInicialPergunta)]))
      && |e.passos| == 2
  {
    var f := Rbx(o);
    var o1 := ConfirmarCadastro(s.dados, Some(m));
    ConfirmarCadastroSim(s.dados, m);
    assert f.acao(s.stepAtual, s.dados, Some(m)) == o1;
    var s1 := s.(stepAtual := "menuInicial");
    assert LogBot(o1) == [] && s.historico + [] == s.historico;
    ChatbotFlow.Avanca(f, s, Some(m), fuel);
    var o2 := MenuInicial(s1.dados);
    assert f.acao(s1.stepAtual, s1.dados, None) == o2;
    UmPasso(f, s1, None, fuel - 1);
  }

  /**
   * Choosing the financial menu (an answer loosely equal to 1 on the main
   * menu) shows it and waits for the choice on `confirmarMenuFinanceiro`.
   */
  lemma RbxMenuFinanceiro(o: Servicos, s: Sessao, m: string, fuel: nat)
    requires fuel >= 2 && s.stepAtual == "confirmarMenuInicial" && LooseEquals(Trim(m), 1)
    ensures var e := Executar(Rbx(o), s, Some(m), fuel);
      e.fim == Pausou(Some(MenuFinanceiroPergunta), Some(true))
      && e.sessao == Some(s.(stepAtual := "confirmarMenuFinanceiro", historico := s.historico + [Entrada(Bot, MenuFinanceiroPergunta)]))
      && |e.passos| == 2
  {
    var f := Rbx(o);
    var o1 := ConfirmarMenuInicial(o, s.dados, Some(m));
    ConfirmarMenuInicialFinanceiro(o, s.dados, m);
    assert f.acao(s.stepAtual, s.dados, Some(m)) == o1;
    var s1 := s.(stepAtual := "menuFinanceiro");
    assert LogBot(o1) == [] && s.historico + [] == s.historico;
    ChatbotFlow.Avanca(f, s, Some(m), fuel);
    var o2 := MenuFinanceiro(s1.dados);
    assert f.acao(s1.stepAtual, s1.dados, None) == o2;
    UmPasso(f, s1, None, fuel - 1);
  }

  /** The five steps without a `null` check throw when entered with no message. */
  lemma SemGuardaLancamSemMensagem(o: Servicos, dados: Dados)
    ensures ConfirmarMenuInicial(o, dados, None).Threw? && ConfirmarMenuFinanceiro(o, dados, None).Threw?
    ensures ConfirmarBoletos(o, dados, None).Threw? && ConfirmarBoletosPix(o, dados, None).Threw?
    ensures ConfirmarBoletosAviso(dados, None).Threw?
  {
  }

  // Flow-wide properties, from what each step can return

  function RankRbx(n: string): nat {
    if n == "inicio" then 2 else if n == "apresentacao" || n == "buscarCadastro" then 1 else 0
  }

  /** What the flow-wide lemmas need of one step's outcome. */
  predicate PassoBom(n: string, saida: Outcome, mensagem: Option<string>) {
    AlvoEm(saida, StepsRbx) && ForaDe(saida, SemGuarda) && (mensagem.None? ==> Desce(RankRbx, n, saida))
  }

  /** The steps that do check for `null`. */
  const ComGuarda: set<string> :=
    {"inicio", "apresentacao", "solicitarDocumento", "buscarCadastro", "erroCadastro", "confirmarCadastro",
     "menuInicial", "menuFinanceiro", "menuBoletos", "menuBoletosPIX", "menuBoletosAviso", "avisoPagamento", "finalizar"}

  lemma ComGuardaSemGuarda(p: string)
    requires p in ComGuarda
    ensures p in StepsRbx && p !in SemGuarda
  {
  }

  /**
   * An outcome that goes on to step `p` of the flow, outside `SemGuarda`,
   * and below `n` in the ranking when there is no message.
   */
  lemma VaiPara(n: string, saida: Outcome, p: string, mensagem: Option<string>)
    requires saida.Returned? && saida.resultado.proximoStep == Some(p)
    requires p in ComGuarda && (mensagem.None? ==> RankRbx(p) < RankRbx(n))
    ensures PassoBom(n, saida, mensagem)
  {
    ComGuardaSemGuarda(p);
  }

  /** An outcome that waits for the user's answer on step `p` of the flow. */
  lemma EsperaEm(n: string, saida: Outcome, p: string, mensagem: Option<string>)
    requires saida.Returned? && Aguarda(saida.resultado) && saida.resultado.proximoStep == Some(p) && p in StepsRbx
    ensures PassoBom(n, saida, mensagem)
  {
  }

  /** An outcome that throws, or names no next step, names no step outside the flow. */
  lemma Fica(n: string, saida: Outcome, mensagem: Option<string>)
    requires saida.Threw? || saida.resultado.proximoStep.None?
    ensures PassoBom(n, saida, mensagem)
  {
  }

  lemma BuscarCadastroEncontrado(o: Servicos, dados: Dados)
    requires var resposta := o.cadastro(Get(dados, "documento"));
      Truthy(resposta) && NovoCliente(resposta, Get(dados, "usuarioId")).Some?
    ensures BuscarCadastro(o, dados).Returned? && BuscarCadastro(o, dados).resultado.proximoStep == Some("confirmarCadastro")
  {
  }

  lemma BuscarCadastroBom(o: Servicos, dados: Dados, mensagem: Option<string>)
    ensures PassoBom("buscarCadastro", BuscarCadastro(o, dados), mensagem)
  {
    var resposta := o.cadastro(Get(dados, "documento"));
    if !Truthy(resposta) {
      VaiPara("buscarCadastro", BuscarCadastro(o, dados), "erroCadastro", mensagem);
    } else if NovoCliente(resposta, Get(dados, "usuarioId")).Some? {
      BuscarCadastroEncontrado(o, dados);
      VaiPara("buscarCadastro", BuscarCadastro(o, dados), "confirmarCadastro", mensagem);
    } else {
      Fica("buscarCadastro", BuscarCadastro(o, dados), mensagem);
    }
  }

  lemma ConfirmarCadastroBom(dados: Dados, mensagem: Option<string>)
    ensures PassoBom("confirmarCadastro", ConfirmarCadastro(dados, mensagem), mensagem)
  {
    if !TruthyText(mensagem) {
      ConfirmarCadastroMostraNome(dados, mensagem);
      Fica("confirmarCadastro", ConfirmarCadastro(dados, mensagem), mensagem);
    } else if LooseEquals(Trim(mensagem.value), 1) {
      ConfirmarCadastroSim(dados, mensagem.value);
      VaiPara("confirmarCadastro", ConfirmarCadastro(dados, mensagem), "menuInicial", mensagem);
    } else if LooseEquals(Trim(mensagem.value), 2) {
      ConfirmarCadastroNao(dados, mensagem.value);
      EsperaEm("confirmarCadastro", ConfirmarCadastro(dados, mensagem), "solicitarDocumento", mensagem);
    } else {
      ConfirmarCadastroInvalida(dados, mensagem.value);
      Fica("confirmarCadastro", ConfirmarCadastro(dados, mensagem), mensagem);
    }
  }

  lemma ConfirmarMenuInicialBom(o: Servicos, dados: Dados, mensagem: Option<string>)
    ensures PassoBom("confirmarMenuInicial", ConfirmarMenuInicial(o, dados, mensagem), mensagem)
  {
    var saida := ConfirmarMenuInicial(o, dados, mensagem);
    if mensagem.None? {
      Fica("confirmarMenuInicial", saida, mensagem);
    } else {
      var t := Trim(mensagem.value);
      if LooseEquals(t, 1) {
        ConfirmarMenuInicialFinanceiro(o, dados, mensagem.value);
        VaiPara("confirmarMenuInicial", saida, "menuFinanceiro", mensagem);
      } else if LooseEquals(t, 2) || LooseEquals(t, 3) {
        ConfirmarMenuInicialAtendimento(o, dados, mensagem.value);
        Fica("confirmarMenuInicial", saida, mensagem);
      } else if LooseEquals(t, 4) {
        ConfirmarMenuInicialSair(o, dados, mensagem.value);
        VaiPara("confirmarMenuInicial", saida, "finalizar", mensagem);
      } else {
        ConfirmarMenuInicialInvalida(o, dados, mensagem.value);
        Fica("confirmarMenuInicial", saida, mensagem);
      }
    }
  }

  /** The search for slips goes on to the listing `listagem` or to the farewell, or throws. */
  lemma BuscarBoletosAlvo(o: Servicos, dados: Dados, listagem: string)
    ensures var r := BuscarBoletos(o, dados, listagem);
      r.Threw? || (r.resultado.proximoStep == Some(listagem) || r.resultado.proximoStep == Some("finalizar"))
  {
  }

  lemma BuscarBoletosBom(o: Servicos, dados: Dados, k: int, mensagem: Option<string>)
    requires 1 <= k <= 3 && mensagem.Some?
    ensures PassoBom("confirmarMenuFinanceiro", BuscarBoletos(o, dados, Listagem(k)), mensagem)
  {
    var saida := BuscarBoletos(o, dados, Listagem(k));
    BuscarBoletosAlvo(o, dados, Listagem(k));
    if saida.Threw? {
      Fica("confirmarMenuFinanceiro", saida, mensagem);
    } else if saida.resultado.proximoStep == Some("finalizar") {
      VaiPara("confirmarMenuFinanceiro", saida, "finalizar", mensagem);
    } else {
      VaiPara("confirmarMenuFinanceiro", saida, Listagem(k), mensagem);
    }
  }

  lemma ConfirmarMenuFinanceiroBom(o: Servicos, dados: Dados, mensagem: Option<string>)
    ensures PassoBom("confirmarMenuFinanceiro", ConfirmarMenuFinanceiro(o, dados, mensagem), mensagem)
  {
    var saida := ConfirmarMenuFinanceiro(o, dados, mensagem);
    if mensagem.None? {
      Fica("confirmarMenuFinanceiro", saida, mensagem);
    } else {
      var t := Trim(mensagem.value);
      if LooseEquals(t, 1) || LooseEquals(t, 2) || LooseEquals(t, 3) {
        var k := if LooseEquals(t, 1) then 1 else if LooseEquals(t, 2) then 2 else 3;
        ConfirmarMenuFinanceiroBoletos(o, dados, mensagem.value, k);
        BuscarBoletosBom(o, dados, k, mensagem);
      } else if LooseEquals(t, 4) {
        ConfirmarMenuFinanceiroVoltar(o, dados, mensagem.value);
        VaiPara("confirmarMenuFinanceiro", saida, "menuInicial", mensagem);
      } else {
        ConfirmarMenuFinanceiroInvalida(o, dados, mensagem.value);
        Fica("confirmarMenuFinanceiro", saida, mensagem);
      }
    }
  }

  /** Where a slip choice goes: back to the financial menu, on to the PDF listing, or to the farewell. */
  predicate AlvoDeEscolha(r: Outcome) {
    r.Threw? || r.resultado.proximoStep == Some("menuFinanceiro") || r.resultado.proximoStep == Some("menuBoletos")
    || r.resultado.proximoStep == Some("finalizar")
  }

  lemma ConfirmarBoletosAlvo(o: Servicos, dados: Dados, mensagem: Option<string>)
    ensures AlvoDeEscolha(ConfirmarBoletos(o, dados, mensagem))
  {
    if mensagem.Some? {
      var e := Escolher(dados, mensagem.value);
      if e.Voltar? {
        assert ConfirmarBoletos(o, dados, mensagem) == Returned(Avanca("menuFinanceiro"), dados);
      } else if e.Invalida? {
        assert ConfirmarBoletos(o, dados, mensagem) == OpcaoInvalida(dados);
      }
    }
  }

  lemma ConfirmarBoletosPixAlvo(o: Servicos, dados: Dados, mensagem: Option<string>)
    ensures AlvoDeEscolha(ConfirmarBoletosPix(o, dados, mensagem))
  {
    if mensagem.Some? {
      var e := Escolher(dados, mensagem.value);
      if e.Voltar? {
        assert ConfirmarBoletosPix(o, dados, mensagem) == Returned(Avanca("menuFinanceiro"), dados);
      } else if e.Invalida? {
        assert ConfirmarBoletosPix(o, dados, mensagem) == OpcaoInvalida(dados);
      }
    }
  }

  lemma ConfirmarBoletosAvisoAlvo(dados: Dados, mensagem: Option<string>)
    ensures var r := ConfirmarBoletosAviso(dados, mensagem);
      AlvoDeEscolha(r) || (Aguarda(r.resultado) && r.resultado.proximoStep == Some("avisoPagamento"))
  {
    if mensagem.Some? {
      var e := Escolher(dados, mensagem.value);
      if e.Voltar? {
        assert ConfirmarBoletosAviso(dados, mensagem) == Returned(Avanca("menuFinanceiro"), dados);
      } else if e.Invalida? {
        assert ConfirmarBoletosAviso(dados, mensagem) == OpcaoInvalida(dados);
      }
    }
  }

  /** A slip choice that auto-advances does so to one of the two menus or to the farewell. */
  lemma EscolhaBom(n: string, saida: Outcome, mensagem: Option<string>)
    requires mensagem.Some? && AlvoDeEscolha(saida)
    ensures PassoBom(n, saida, mensagem)
  {
    if saida.Threw? {
    } else if saida.resultado.proximoStep == Some("menuFinanceiro") {
      VaiPara(n, saida, "menuFinanceiro", mensagem);
    } else if saida.resultado.proximoStep == Some("menuBoletos") {
      VaiPara(n, saida, "menuBoletos", mensagem);
    } else {
      VaiPara(n, saida, "finalizar", mensagem);
    }
  }

  lemma ConfirmarBoletosBom(o: Servicos, dados: Dados, mensagem: Option<string>)
    ensures PassoBom("confirmarBoletos", ConfirmarBoletos(o, dados, mensagem), mensagem)
    ensures PassoBom("confirmarBoletosPIX", ConfirmarBoletosPix(o, dados, mensagem), mensagem)
    ensures PassoBom("confirmarBoletosAviso", ConfirmarBoletosAviso(dados, mensagem), mensagem)
  {
    if mensagem.None? {
      Fica("confirmarBoletos", ConfirmarBoletos(o, dados, mensagem), mensagem);
      Fica("confirmarBoletosPIX", ConfirmarBoletosPix(o, dados, mensagem), mensagem);
      Fica("confirmarBoletosAviso", ConfirmarBoletosAviso(dados, mensagem), mensagem);
    } else {
      ConfirmarBoletosAlvo(o, dados, mensagem);
      ConfirmarBoletosPixAlvo(o, dados, mensagem);
      ConfirmarBoletosAvisoAlvo(dados, mensagem);
      EscolhaBom("confirmarBoletos", ConfirmarBoletos(o, dados, mensagem), mensagem);
      EscolhaBom("confirmarBoletosPIX", ConfirmarBoletosPix(o, dados, mensagem), mensagem);
      var r := ConfirmarBoletosAviso(dados, mensagem);
      if r.Returned? && r.resultado.proximoStep == Some("avisoPagamento") && Aguarda(r.resultado) {
        EsperaEm("confirmarBoletosAviso", r, "avisoPagamento", mensagem);
      } else {
        EscolhaBom("confirmarBoletosAviso", r, mensagem);
      }
    }
  }

  lemma AvisoPagamentoBom(o: Servicos, dados: Dados, mensagem: Option<string>)
    ensures PassoBom("avisoPagamento", AvisoPagamento(o, dados, mensagem), mensagem)
  {
    var saida := AvisoPagamento(o, dados, mensagem);
    if saida.Returned? && TruthyText(mensagem) {
      VaiPara("avisoPagamento", saida, "finalizar", mensagem);
    } else {
      Fica("avisoPagamento", saida, mensagem);
    }
  }

  lemma SolicitarDocumentoBom(dados: Dados, mensagem: Option<string>)
    ensures PassoBom("solicitarDocumento", SolicitarDocumento(dados, mensagem), mensagem)
  {
    if TruthyText(mensagem) {
      VaiPara("solicitarDocumento", SolicitarDocumento(dados, mensagem), "buscarCadastro", mensagem);
    } else {
      Fica("solicitarDocumento", SolicitarDocumento(dados, mensagem), mensagem);
    }
  }

  /** The three listings wait for the choice on `escolha`, or throw. */
  lemma MenuBoletosBom(o: Servicos, dados: Dados, n: string, escolha: string, mensagem: Option<string>)
    requires escolha in StepsRbx
    ensures PassoBom(n, MenuBoletos(o, dados, escolha), mensagem)
  {
    var saida := MenuBoletos(o, dados, escolha);
    if saida.Returned? {
      EsperaEm(n, saida, escolha, mensagem);
    } else {
      Fica(n, saida, mensagem);
    }
  }

  /** Steps the greeting and the customer lookup. */
  lemma PassoBomRbx1(o: Servicos, n: string, dados: Dados, mensagem: Option<string>)
    requires n == "inicio" || n == "apresentacao" || n == "solicitarDocumento" || n == "buscarCadastro" || n == "erroCadastro" || n == "confirmarCadastro"
    ensures PassoBom(n, AcaoRbx(o, n, dados, mensagem), mensagem)
  {
    if n == "inicio" {
      VaiPara(n, Inicio(dados), "apresentacao", mensagem);
    } else if n == "apresentacao" {
      VaiPara(n, Apresentacao(dados), "solicitarDocumento", mensagem);
    } else if n == "solicitarDocumento" {
      SolicitarDocumentoBom(dados, mensagem);
    } else if n == "buscarCadastro" {
      BuscarCadastroBom(o, dados, mensagem);
    } else if n == "erroCadastro" {
      EsperaEm(n, ErroCadastro(dados), "solicitarDocumento", mensagem);
    } else {
      ConfirmarCadastroBom(dados, mensagem);
    }
  }

  /** Steps the two menus and the PDF choice. */
  lemma PassoBomRbx2(o: Servicos, n: string, dados: Dados, mensagem: Option<string>)
    requires n == "menuInicial" || n == "confirmarMenuInicial" || n == "menuFinanceiro" || n == "confirmarMenuFinanceiro" || n == "menuBoletos" || n == "confirmarBoletos"
    ensures PassoBom(n, AcaoRbx(o, n, dados, mensagem), mensagem)
  {
    if n == "menuInicial" {
      EsperaEm(n, MenuInicial(dados), "confirmarMenuInicial", mensagem);
    } else if n == "confirmarMenuInicial" {
      ConfirmarMenuInicialBom(o, dados, mensagem);
    } else if n == "menuFinanceiro" {
      EsperaEm(n, MenuFinanceiro(dados), "confirmarMenuFinanceiro", mensagem);
    } else if n == "confirmarMenuFinanceiro" {
      ConfirmarMenuFinanceiroBom(o, dados, mensagem);
    } else if n == "menuBoletos" {
      MenuBoletosBom(o, dados, n, "confirmarBoletos", mensagem);
    } else {
      ConfirmarBoletosBom(o, dados, mensagem);
    }
  }

  /** Steps the PIX and payment-report choices and the farewell. */
  lemma PassoBomRbx3(o: Servicos, n: string, dados: Dados, mensagem: Option<string>)
    requires n == "menuBoletosPIX" || n == "confirmarBoletosPIX" || n == "menuBoletosAviso" || n == "confirmarBoletosAviso" || n == "avisoPagamento" || n == "finalizar"
    ensures PassoBom(n, AcaoRbx(o, n, dados, mensagem), mensagem)
  {
    if n == "menuBoletosPIX" {
      MenuBoletosBom(o, dados, n, "confirmarBoletosPIX", mensagem);
    } else if n == "confirmarBoletosPIX" {
      ConfirmarBoletosBom(o, dados, mensagem);
    } else if n == "menuBoletosAviso" {
      MenuBoletosBom(o, dados, n, "confirmarBoletosAviso", mensagem);
    } else if n == "confirmarBoletosAviso" {
      ConfirmarBoletosBom(o, dados, mensagem);
    } else if n == "avisoPagamento" {
      AvisoPagamentoBom(o, dados, mensagem);
    } else {
      Fica(n, Finalizar(dados), mensagem);
    }
  }

  lemma PassoBomRbx(o: Servicos, n: string, dados: Dados, mensagem: Option<string>)
    requires n in StepsRbx
    ensures PassoBom(n, AcaoRbx(o, n, dados, mensagem), mensagem)
  {
    if n == "inicio" || n == "apresentacao" || n == "solicitarDocumento" || n == "buscarCadastro" || n == "erroCadastro" || n == "confirmarCadastro" {
      PassoBomRbx1(o, n, dados, mensagem);
    } else if n == "menuInicial" || n == "confirmarMenuInicial" || n == "menuFinanceiro" || n == "confirmarMenuFinanceiro" || n == "menuBoletos" || n == "confirmarBoletos" {
      PassoBomRbx2(o, n, dados, mensagem);
    } else {
      PassoBomRbx3(o, n, dados, mensagem);
    }
  }

  /** `stepInicial` and every `proximoStep` of the flow name one of its steps. */
  lemma RbxFechado(o: Servicos)
    ensures Fechado(Rbx(o))
  {
    var f := Rbx(o);
    forall n, d, m | n in f.steps ensures AlvoEm(f.acao(n, d, m), f.steps) {
      PassoBomRbx(o, n, d, m);
    }
  }

  /** Hence a turn of the flow, from any of its steps, never answers "Step não encontrado". */
  lemma RbxSemStepAusente(o: Servicos, s: Sessao, entrada: Option<string>, fuel: nat)
    requires s.stepAtual in StepsRbx
    ensures !Executar(Rbx(o), s, entrada, fuel).fim.StepAusente?
  {
    RbxFechado(o);
    FechadoSemStepAusente(Rbx(o), s, entrada, fuel);
  }

  /** The steps without a `null` check are never reached by an auto-advance, and the flow does not start on one. */
  lemma SemGuardaSoComResposta(o: Servicos)
    ensures SoComResposta(Rbx(o), SemGuarda) && Rbx(o).stepInicial !in SemGuarda
  {
    var f := Rbx(o);
    forall n, d, m | n in f.steps ensures ForaDe(f.acao(n, d, m), SemGuarda) {
      PassoBomRbx(o, n, d, m);
    }
  }

  /** So in a turn on the user's message those steps always get that message, and their `null` throw cannot happen. */
  lemma SemGuardaRecebeMensagem(o: Servicos, s: Sessao, m: string, fuel: nat)
    ensures var p := Executar(Rbx(o), s, Some(m), fuel).passos;
      forall i :: 0 <= i < |p| && p[i].step in SemGuarda ==> p[i].entrada == Some(m)
  {
    SemGuardaSoComResposta(o);
    AlvosSoNoInicio(Rbx(o), SemGuarda, s, Some(m), fuel);
  }

  /** A turn of the flow runs at most four steps. */
  lemma RbxTermina(o: Servicos, s: Sessao, entrada: Option<string>, fuel: nat)
    requires fuel >= 4
    ensures !Executar(Rbx(o), s, entrada, fuel).fim.SemCombustivel?
  {
    var f := Rbx(o);
    forall n, d | n in f.steps ensures Desce(RankRbx, n, f.acao(n, d, None)) {
      PassoBomRbx(o, n, d, None);
    }
    Termina(f, RankRbx, 2, s, entrada, fuel);
  }
}
