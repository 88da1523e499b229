# fluxo — a Dafny model of the conversational flow engine

`fluxo` is a WhatsApp-style chatbot written in Node.js. A *flow* is a set of
named *steps* and the name of the step it starts on. Each step has an action.
An action receives the session's `dados` object and the user's message, or
`null`, and returns a result:

- `mensagem`: the text to answer;
- `proximoStep`: the step to move to;
- `aguardarResposta`: whether to stop and wait for the user;
- `finalizar`: whether to end the conversation.

`FluxoEngine` keeps one session per user: the flow, the current step, `dados`
and a history of messages. It drives the actions:

- `iniciarFluxo` starts a session on the flow's first step;
- `processarMensagem` records the user's message and runs the current step;
- `executarStep` runs a step, moves to the step it names, and goes straight
  on, with no message, for as long as steps neither wait nor finish.

The model covers:

- the engine (`chatbot_flow.dfy`);
- the document check `validarCPFCNPJ`, the registration flow
  `atendimento_cadastro` and the support flow `suporte`
  (`chatbot_fluxos.dfy`);
- the four example flows: satisfaction survey, order tracking, full
  registration and booking (`exemplos_fluxos.dfy`);
- the RBX customer-service flow, which covers billing slips, PIX codes and
  payment reports, and its opening-hours check `validarHorarioAtendimento`
  (`rbx_flow.dfy`);
- the parts of JavaScript the actions rely on (`js_text.dfy`, `js_value.dfy`):
  - `trim`, `split`, `replace(/\D/g, '')`, `parseInt`, `toLowerCase`,
    `length` in UTF-16 code units;
  - the string-to-number conversion behind `opcao == 1`;
  - truthiness, property reads that throw on `undefined`/`null`, template
    literals.

## Where the model sits

`FluxoEngine` is a class whose fields are two maps,
`sessoes: map<string, Sessao>` and `fluxos: map<string, Fluxo>`. Its methods
update those fields as the JavaScript methods update their `Map`s.

`ExecutarStep` is recursive, like `executarStep`. Its auto-advance tail is the
separate method `AplicarSaida`. Every method is proved against the
specification function `ChatbotFlow.Executar`. That function runs one turn
and returns:

- how the turn ended: paused, finished, missing step, thrown, or out of fuel;
- the session afterwards, or `None` once it is deleted;
- the list of steps it ran, each with its input, the `dados` it saw and what
  its action did.

The flow-level lemmas are proved about `Executar`. They cover the chaining of
steps, the history, where the answer comes from, closed flows and
termination. For each concrete flow, the step actions are pure functions of
`dados` and the message.

Some inputs come from outside: network services, `Math.random` and the clock.
Each becomes an oracle, a function passed in as a parameter of the flow:

- `sucesso` stands for the simulated lookup;
- `sorteio` and `codigo` stand for the random draws;
- `Servicos` holds the RBX HTTP calls, the formatting of amounts and the
  clock.

A JavaScript exception inside an action becomes the outcome `Threw(dados)`.
It carries the `dados` as the action left them. For example, `null.trim()`
gives such an outcome. The engine then answers with the failure `Lancou`.

Where the code behaves differently from the system's documented design, the
model follows the code:

- A turn answers only the last step's `mensagem`. Earlier messages of an
  auto-advancing chain go only into the history.
- `finalizar` deletes the session and keeps only `mensagem`. Other fields of
  the result, such as `abrirChamado`, are dropped.
- Sessions live in memory and never expire.
- `iniciarFluxo` takes no context argument. The extra `contract` argument in
  `server.js` is ignored.
- A step that is not found answers "Erro: Step não encontrado" as final, but
  the session stays where it is.
- An action that throws after changing `dados` in place leaves those changes
  in the session. The session stays on that step.
- `validarHorarioAtendimento` returns `true` on every path, so RBX is always
  open (`RbxFlow.SempreAberto`).
- Cancelling a booking does not cancel it. The booking flow answers
  "Agendamento cancelado" and stays on `confirmarAgendamento`
  (`ExemplosFluxos.CancelarFica`).
- An invalid slip choice in the PIX and payment-report variants leads to the
  PDF listing `menuBoletos` (`RbxFlow.EscolhasDeBoleto`).
- The booking lookups `servicos[mensagem]` and `datas[mensagem]` find, as in
  JavaScript, the names every object inherits from `Object.prototype`, such
  as "constructor" and "toString" (`JsValue.Consultar`). The booking flow
  `ExemplosFluxos.Agendamento` reads them that way.
  `ExemplosFluxos.AgendamentoCorrigido` is the same flow with the lookups
  restricted to the keys "1", "2" and "3"; see Findings.

## Model

| member | source | states |
|---|---|---|
| ChatbotFlow.MensagemDeErro | chatbot-flow.js:56 | The unknown-flow error text is "Fluxo ", then the flow's name, then " não encontrado". Its length is the name's plus 21. `IniciarFluxo` returns it inside `FluxoNaoEncontrado`. |
| ChatbotFlow.Executar | chatbot-flow.js:87-131 | A turn runs at most `fuel` steps. The session is deleted exactly when the turn finishes. The session never changes flow. No step runs exactly when fuel is out or the current step is missing, and then the session is unchanged. The first step run is the current step's action on the session's `dados` and the turn's input. |
| ChatbotFlow.UmPasso | chatbot-flow.js:100-130 | One step. A throw keeps the session, with the action's `dados` and no bot entry, on the same step. `finalizar` deletes the session and answers the step's message. Otherwise the session moves to a truthy `proximoStep`. The turn goes on with no input when the step neither waits nor finishes, else it pauses with that step's message and `aguardarResposta`. |
| ChatbotFlow.Avanca | chatbot-flow.js:117-124 | An auto-advancing step is followed by the turn from its `proximoStep` with a `null` message. Its record heads that turn's list of steps. |
| ChatbotFlow.RespostaDe | chatbot-flow.js:92-130 | A pause, a finish and a missing step give an answer, and a throw gives a failure. `finalizado` is false exactly for a pause. |
| ChatbotFlow.StepNaoEncontradoMantemSessao | chatbot-flow.js:88-97 | On a step the flow lacks, nothing runs. The session is left as it was, and the answer is "Erro: Step não encontrado" with `finalizado` true. |
| ChatbotFlow.Gravar | chatbot-flow.js:108-119 | After a turn the user's session is gone when it finished, and otherwise is the turn's final session. Every other user's session is unchanged. |
| ChatbotFlow.Recebida | chatbot-flow.js:79-81 | Receiving a message sets `dados.ultimaMensagem` to it and keeps every other entry. It appends one user entry to the history. Flow and step are unchanged. |
| ChatbotFlow.PassosEncadeados | chatbot-flow.js:100-124 | Consecutive steps of a turn form a chain. Each step auto-advanced to the next. The next one ran with no message, on the `dados` the previous one left. |
| ChatbotFlow.HistoricoDoTurno | chatbot-flow.js:102-105 | A surviving session's history is the old history followed by one bot entry for each step of the turn whose message was truthy, in order. |
| ChatbotFlow.FimDoTurno | chatbot-flow.js:107-130 | The answer comes from the turn's last step alone: its message on a pause or finish, its step and `dados` on a throw. A missing step keeps the last `dados`. Running out of fuel means exactly `fuel` steps ran. |
| ChatbotFlow.CombustivelSuficiente | chatbot-flow.js:121-124 | Once a turn completes within some fuel, any larger fuel gives the identical turn. |
| ChatbotFlow.FechadoSemStepAusente | chatbot-flow.js:89-97 | In a flow whose first step and every `proximoStep` are its own steps, a turn never answers "Step não encontrado" and never leaves the flow's steps. |
| ChatbotFlow.AlvosSoNoInicio | chatbot-flow.js:87-124 | Some steps are never the target of an auto-advance. Such a step can only be the first of a turn, so it runs on the turn's own input. |
| ChatbotFlow.TerminaSemEntrada | chatbot-flow.js:121-124 | Suppose steps run with no message auto-advance only to lower-ranked steps. Then a message-less turn whose fuel exceeds the current rank does not run out of fuel. |
| ChatbotFlow.Termina | chatbot-flow.js:121-124 | Under the same ranking, any turn with fuel of at least the top rank plus two does not run out of fuel. |
| ChatbotFlow.FluxoEngine.constructor | chatbot-flow.js:44-47 | The engine starts with no sessions and no flows. |
| ChatbotFlow.FluxoEngine.RegistrarFluxo | chatbot-flow.js:49-51 | Registering sets the flow under its name, replacing an earlier one. Sessions are untouched. |
| ChatbotFlow.FluxoEngine.ObterSessao | chatbot-flow.js:133-135 | Returns the user's session exactly when there is one. |
| ChatbotFlow.FluxoEngine.IniciarFluxo | chatbot-flow.js:53-67 | An unknown flow fails with `FluxoNaoEncontrado(MensagemDeErro(nomeFluxo))`, the thrown error's message, and changes nothing. Otherwise a fresh session on `stepInicial` with empty `dados` and history runs one turn with no message. The sessions and the answer are those of that turn. |
| ChatbotFlow.FluxoEngine.ProcessarMensagem | chatbot-flow.js:69-85 | A user without a session gets "Sessão não encontrada…" with `finalizado` true, and nothing changes. Otherwise the message is recorded and one turn runs on it. The sessions and the answer are those of that turn. |
| ChatbotFlow.FluxoEngine.ExecutarStep | chatbot-flow.js:87-131 | The recursive method leaves the sessions and gives the answer of `Executar` on the user's session. Registered flows never change. |
| ChatbotFlow.FluxoEngine.AplicarSaida | chatbot-flow.js:100-130 | Applying an action's outcome, and running the rest of the chain, leaves the sessions and answer of `Executar` from that step. |
| ChatbotFluxos.ValidarCPFCNPJContaDigitos | chatbot-flow.js:7-11 | A document is accepted exactly when it holds 11 or 14 digit characters. The digits are counted independently of the digit extraction. |
| ChatbotFluxos.ValidarCPFCNPJIgnoraPontuacao | chatbot-flow.js:9 | Inserting punctuation or any other non-digit never changes the verdict. |
| ChatbotFluxos.ValidarCPFCNPJ | chatbot-flow.js:7-11 | `validarCPFCNPJ` keeps the digits and accepts 11 or 14 of them. Its properties are stated by `ValidarCPFCNPJContaDigitos` and `ValidarCPFCNPJIgnoraPontuacao`. |
| ChatbotFluxos.Atendimento | chatbot-flow.js:142-252 | The registration flow starts on `solicitarDocumento` and has exactly its four steps. |
| ChatbotFluxos.SolicitarDocumento | chatbot-flow.js:148-177 | Step `solicitarDocumento`. Its properties are stated by `SolicitarDocumentoAceitaValidos`. |
| ChatbotFluxos.ResultadoBusca | chatbot-flow.js:13-37 | What the simulated lookup resolves to: success with the fixed name and e-mail, or failure with "Cadastro não encontrado". Used by `BuscarCadastroSegueResultado`. |
| ChatbotFluxos.BuscarCadastro | chatbot-flow.js:180-204 | Step `buscarCadastro`. Its properties are stated by `BuscarCadastroSegueResultado`. |
| ChatbotFluxos.Sim | chatbot-flow.js:221 | The yes answers: "1" or "sim" in any case. Stated by `SimNaoDisjuntos` and `ConfirmarCadastroMaiusculas`. |
| ChatbotFluxos.Nao | chatbot-flow.js:227 | The no answers: "2", "não" or "nao" in any case. Stated by `SimNaoDisjuntos` and `ConfirmarCadastroMaiusculas`. |
| ChatbotFluxos.ConfirmarCadastro | chatbot-flow.js:207-240 | Step `confirmarCadastro`. Its properties are stated by `ConfirmarCadastroDespacha` and `AtendimentoSimFinaliza`. |
| ChatbotFluxos.FinalizarAtendimento | chatbot-flow.js:243-250 | Step `finalizar`. Its answer is stated by `AtendimentoSimFinaliza`. |
| ChatbotFluxos.SolicitarDocumentoAceitaValidos | chatbot-flow.js:148-177 | With no message it prompts and waits. A valid trimmed document is stored as `documento` and the lookup runs at once. An invalid one waits again with `dados` unchanged. |
| ChatbotFluxos.BuscarCadastroSegueResultado | chatbot-flow.js:180-204 | The lookup result is always stored as `resultadoBusca`. The flow auto-advances to the confirmation exactly when the lookup succeeded, else waits on `solicitarDocumento`. |
| ChatbotFluxos.SimNaoDisjuntos | chatbot-flow.js:219-227 | No answer counts as both yes and no. |
| ChatbotFluxos.ConfirmarCadastroDespacha | chatbot-flow.js:207-240 | On a non-empty answer the trimmed answer dispatches between three branches: yes goes on to `finalizar`; no waits on `solicitarDocumento`; anything else waits in place. `dados` is unchanged. |
| ChatbotFluxos.ConfirmarCadastroMaiusculas | chatbot-flow.js:219-227 | Take any answer that is white space, then a word `w` with no white space at either end, then white space. It counts as yes exactly when `w` is "1" or lower-cases to "sim". It counts as no exactly when `w` is "2" or lower-cases to "não" or "nao". So " SIM " is yes and "NÃO" is no. |
| ChatbotFluxos.AtendimentoSimFinaliza | chatbot-flow.js:207-250 | A yes at the confirmation runs `finalizar` in the same turn. The conversation ends with the thanks, the session is deleted, and the turn runs exactly two steps. |
| ChatbotFluxos.AtendimentoFechado | chatbot-flow.js:142-252 | Every step the flow names is one of its own, so a turn never reaches "Step não encontrado". |
| ChatbotFluxos.AtendimentoTermina | chatbot-flow.js:142-252 | A turn of the registration flow never needs more than three steps. |
| ChatbotFluxos.Suporte | chatbot-flow.js:258-280 | The support flow has the single step `menuPrincipal`, where it starts. |
| ChatbotFluxos.MenuPrincipal | chatbot-flow.js:263-277 | Step `menuPrincipal`. Its properties are stated by `SuporteFinalizaComResposta`. |
| ChatbotFluxos.SuporteFinalizaComResposta | chatbot-flow.js:263-277 | Any non-empty choice ends the conversation, quoting the choice, and stores it as `opcao`. |
| ChatbotFluxos.SuporteTermina | chatbot-flow.js:258-280 | A turn of the support flow runs at most one step and never needs more than one. |
| ExemplosFluxos.Pesquisa | exemplos-fluxos.js:7-94 | The survey starts on `introducao` and has exactly its four steps. |
| ExemplosFluxos.Introducao | exemplos-fluxos.js:13-21 | Step `introducao`. Its properties are stated by `PesquisaAbre`. |
| ExemplosFluxos.PerguntaNota | exemplos-fluxos.js:23-57 | Step `perguntaNota`. Its properties are stated by `PerguntaNotaDespacha` and `PerguntaNotaLeDigitos`. |
| ExemplosFluxos.FeedbackNegativo | exemplos-fluxos.js:60-77 | Step `feedbackNegativo`. Its properties are stated by `PesquisaFeedback`. |
| ExemplosFluxos.Agradecimento | exemplos-fluxos.js:79-91 | Step `agradecimento`. Its properties are stated by `AgradecimentoFinaliza`. |
| ExemplosFluxos.PerguntaNotaDespacha | exemplos-fluxos.js:24-56 | A grade that is not a number from 0 to 10 waits again with `dados` unchanged. A valid grade is stored as `nota` and goes on to the feedback question exactly when below 7, else to the thanks. The step never finishes. |
| ExemplosFluxos.PerguntaNotaAceitaNumeral | exemplos-fluxos.js:32-41 | Each of "0" to "10" is stored as that grade and auto-advances. |
| ExemplosFluxos.PerguntaNotaLeDigitos | exemplos-fluxos.js:32-41 | A run of digits followed by text that does not continue the number, such as "7 estrelas", is read as the number the digits spell. Up to 10 that grade is stored and the flow goes on. Above 10, as for "11", the question is asked again and nothing is stored. |
| ExemplosFluxos.AgradecimentoFinaliza | exemplos-fluxos.js:79-91 | The thanks finishes the conversation, quoting the grade as "…/10". It adds the improvement sentence exactly when some feedback was stored. |
| ExemplosFluxos.PesquisaFechada | exemplos-fluxos.js:7-94 | Every step the survey names is one of its own. |
| ExemplosFluxos.PesquisaDesce | exemplos-fluxos.js:13-91 | Run with no message, each survey step auto-advances only to a lower-ranked step. |
| ExemplosFluxos.PesquisaTermina | exemplos-fluxos.js:7-94 | A turn of the survey never needs more than three steps. |
| ExemplosFluxos.PesquisaAbre | exemplos-fluxos.js:13-30 | Starting the survey runs the introduction and pauses on `perguntaNota` with the grade question. `dados` is still empty. |
| ExemplosFluxos.PesquisaNotaCinco | exemplos-fluxos.js:32-67 | Grade "5" stores 5 and pauses on `feedbackNegativo` with the feedback question. |
| ExemplosFluxos.PesquisaFeedback | exemplos-fluxos.js:60-91 | Any feedback ends the survey with the thanks, the stored grade and the improvement sentence. |
| ExemplosFluxos.CenarioPesquisa | testar-exemplos.js:22-39 | The scripted conversation (start, "5", a complaint) ends with the thanks for 5/10 and the improvement sentence. |
| ExemplosFluxos.Rastreamento | exemplos-fluxos.js:100-182 | Order tracking starts on `solicitarPedido` and has exactly its three steps. |
| ExemplosFluxos.SolicitarPedido | exemplos-fluxos.js:105-129 | Step `solicitarPedido`. Its properties are stated by `SolicitarPedidoValida` and `SolicitarPedidoPorTamanho`. |
| ExemplosFluxos.BuscarPedido | exemplos-fluxos.js:132-150 | Step `buscarPedido`. Its properties are stated by `BuscarPedidoRegistra`. |
| ExemplosFluxos.ExibirStatus | exemplos-fluxos.js:152-178 | Step `exibirStatus`. Its properties are stated by `ExibirStatusDespacha`. |
| ExemplosFluxos.SolicitarPedidoValida | exemplos-fluxos.js:106-129 | An order number shorter than 5 UTF-16 units waits again with `dados` unchanged. A longer one is stored as `numeroPedido` and the search runs at once. |
| ExemplosFluxos.SolicitarPedidoPorTamanho | exemplos-fluxos.js:115-122 | Five characters always suffice, and two or fewer are always refused, whatever the characters. |
| ExemplosFluxos.BuscarPedidoRegistra | exemplos-fluxos.js:132-150 | The search adds exactly `status`, one of the four statuses, and `previsaoEntrega`, "25/01/2026". It then goes on to `exibirStatus`. |
| ExemplosFluxos.ExibirStatusDespacha | exemplos-fluxos.js:163-178 | "1" removes exactly `numeroPedido` and `status` and starts over. Any other answer finishes with `dados` unchanged. |
| ExemplosFluxos.RastreamentoFechado | exemplos-fluxos.js:100-182 | Every step order tracking names is one of its own. |
| ExemplosFluxos.RastreamentoTermina | exemplos-fluxos.js:100-182 | A turn of order tracking never needs more than three steps, even when the user asks for another order. |
| ExemplosFluxos.Cadastro | exemplos-fluxos.js:188-369 | The full registration starts on `bemVindo` and has exactly its seven steps. |
| ExemplosFluxos.BemVindo | exemplos-fluxos.js:193-201 | Step `bemVindo`. Its properties are stated by `CadastroAbre`. |
| ExemplosFluxos.NomeCompleto | exemplos-fluxos.js:212 | The full-name test. Stated by `NomeCompletoTemEspaco`. |
| ExemplosFluxos.ColetarNome | exemplos-fluxos.js:203-226 | Step `coletarNome`. Its properties are stated by `ColetarNomeValida`. |
| ExemplosFluxos.ColetarEmail | exemplos-fluxos.js:229-253 | Step `coletarEmail`. Its properties are stated by `ColetarEmailValida`. |
| ExemplosFluxos.ColetarTelefone | exemplos-fluxos.js:256-281 | Step `coletarTelefone`. Its properties are stated by `ColetarTelefoneValida`, `ColetarTelefoneEstavel` and `TelefoneLevaAoResumo`. |
| ExemplosFluxos.ValidandoDados | exemplos-fluxos.js:284-295 | Step `validandoDados`. Its properties are stated by `ValidandoLevaAoResumo`. |
| ExemplosFluxos.ConfirmarDados | exemplos-fluxos.js:297-353 | Step `confirmarDados`. Its properties are stated by `ConfirmarDadosDespacha`. |
| ExemplosFluxos.FinalizarCadastro | exemplos-fluxos.js:357-366 | Step `finalizarCadastro`. Its properties are stated by `FinalizarCadastroSaudaPrimeiroNome`. |
| ExemplosFluxos.NomeCompletoTemEspaco | exemplos-fluxos.js:212 | A name counts as full exactly when its trimmed form contains a space. |
| ExemplosFluxos.ColetarNomeValida | exemplos-fluxos.js:204-226 | A name with an inner space is stored as typed and the flow moves on to the e-mail. Otherwise it waits with `dados` unchanged. |
| ExemplosFluxos.ColetarEmailValida | exemplos-fluxos.js:230-253 | A text containing both "@" and "." is stored and the flow moves on to the phone. Otherwise it waits with `dados` unchanged. |
| ExemplosFluxos.ColetarTelefoneValida | exemplos-fluxos.js:257-281 | A text with 10 or 11 digit characters has its digits stored and goes on to validation. Otherwise it waits with `dados` unchanged. |
| ExemplosFluxos.ColetarTelefoneEstavel | exemplos-fluxos.js:265-274 | The stored phone is digits only. Typing it back stores the same value. |
| ExemplosFluxos.ConfirmarDadosDespacha | exemplos-fluxos.js:320-353 | "1" goes on to the end. "2", "3" and "4" remove exactly the name, the e-mail or the phone and go back to collect it. Any other answer waits with `dados` unchanged. |
| ExemplosFluxos.FinalizarCadastroSaudaPrimeiroNome | exemplos-fluxos.js:357-366 | The closing greets the first word of the stored name and finishes. With no name stored, the `split` throws. |
| ExemplosFluxos.CadastroAbre | exemplos-fluxos.js:193-210 | Starting the registration runs the greeting and pauses on `coletarNome` with the name question. `dados` is still empty and the turn runs two steps. |
| ExemplosFluxos.ValidandoLevaAoResumo | exemplos-fluxos.js:284-307 | Validation always goes on to the summary in the same turn and pauses on `confirmarDados`, waiting. `dados` is unchanged. |
| ExemplosFluxos.TelefoneLevaAoResumo | exemplos-fluxos.js:256-307 | A phone with 10 or 11 digit characters stores its digits, runs validation and pauses on the summary, all in one turn of three steps. |
| ExemplosFluxos.CadastroPasso | exemplos-fluxos.js:192-368 | Every registration step names only registration steps. Run with no message, it auto-advances only downhill. |
| ExemplosFluxos.CadastroFechado | exemplos-fluxos.js:188-369 | Every step the registration names is one of its own. |
| ExemplosFluxos.CadastroTermina | exemplos-fluxos.js:188-369 | A turn of the registration never needs more than three steps, even after a correction. |
| ExemplosFluxos.Agendamento | exemplos-fluxos.js:375-575 | The booking as written, with both table lookups also finding inherited names. It starts on `escolherServico` and has exactly its seven steps. |
| ExemplosFluxos.AgendamentoCom | exemplos-fluxos.js:375-575 | The booking with the table lookups read either way. It starts on `escolherServico` and has exactly its seven steps. |
| ExemplosFluxos.AgendamentoCorrigido | exemplos-fluxos.js:375-575 | The booking with the lookups restricted to the tables' own keys. Same first step and the same seven steps. `TabelasSoChavesProprias` states what it accepts. |
| ExemplosFluxos.EscolherServico | exemplos-fluxos.js:380-411 | Step `escolherServico`. Its properties are stated by `EscolherServicoAceitaTabela` and `EscolherServicoHerdado`. |
| ExemplosFluxos.EscolherData | exemplos-fluxos.js:414-445 | Step `escolherData`. Its properties are stated by `EscolherDataAceitaTabela` and `EscolherDataHerdada`. |
| ExemplosFluxos.VerificandoDisponibilidade | exemplos-fluxos.js:448-460 | Step `verificandoDisponibilidade`. Its properties are stated by `DisponibilidadeListaHorarios` and `EscolherHorarioPorNumero`. |
| ExemplosFluxos.EscolherHorario | exemplos-fluxos.js:463-492 | Step `escolherHorario`. Its properties are stated by `EscolherHorarioNoIntervalo`. |
| ExemplosFluxos.ConfirmarAgendamento | exemplos-fluxos.js:496-535 | Step `confirmarAgendamento`. Its properties are stated by `ConfirmarAgendamentoDespacha`, `CancelarFica` and `ConfirmarConclui`. |
| ExemplosFluxos.ProcessandoAgendamento | exemplos-fluxos.js:539-552 | Step `processandoAgendamento`. Its properties are stated by `ProcessandoFinaliza`. |
| ExemplosFluxos.AgendamentoConcluido | exemplos-fluxos.js:554-572 | Step `agendamentoConcluido`. Its properties are stated by `ConcluidoFinaliza`. |
| ExemplosFluxos.EscolherServicoAceitaTabela | exemplos-fluxos.js:389-410 | A non-empty answer goes on to the date exactly for "1", "2" and "3", and, as written, for every name inherited from `Object.prototype`. "1" to "3" store that service with its name and a duration of 120, 180 or 60 minutes. An inherited name stores the inherited value. Any other answer prompts again with `dados` unchanged. |
| ExemplosFluxos.EscolherDataAceitaTabela | exemplos-fluxos.js:414-445 | A non-empty answer goes on to the availability check exactly for "1", "2" and "3", and, as written, for every inherited name. "1" to "3" store that date. An inherited name stores the inherited value. Any other answer prompts again with `dados` unchanged. With no service stored, the date prompt throws. |
| ExemplosFluxos.Opcoes | exemplos-fluxos.js:466-468 | The numbered listing has one line per slot. |
| ExemplosFluxos.OpcoesNumeradas | exemplos-fluxos.js:466-468 | Line `i` of the listing is "number - slot" for slot `i`, numbered from 1. |
| ExemplosFluxos.EscolherHorarioNoIntervalo | exemplos-fluxos.js:476-492 | The flow goes on to confirmation exactly when `parseInt` of the answer is between 1 and the number of slots, storing that slot. Otherwise it waits with `dados` unchanged. |
| ExemplosFluxos.EscolherHorarioPorNumero | exemplos-fluxos.js:449-491 | After the availability step, typing "1" to "4" stores the matching offered slot. |
| ExemplosFluxos.ConfirmarAgendamentoDespacha | exemplos-fluxos.js:518-535 | "1" goes on to processing. "2" answers the cancellation text and waits in place. Anything else waits. `dados` is unchanged. |
| ExemplosFluxos.CancelarFica | exemplos-fluxos.js:524-529 | Answering "2" at confirmation pauses on `confirmarAgendamento` with the cancellation text. Nothing but the recorded message changes. |
| ExemplosFluxos.ProcessandoFinaliza | exemplos-fluxos.js:540-572 | Processing always runs on into the confirmation, which finishes the conversation in exactly two steps. |
| ExemplosFluxos.ConcluidoFinaliza | exemplos-fluxos.js:555-572 | The confirmation step alone finishes the conversation. |
| ExemplosFluxos.ConfirmarConclui | exemplos-fluxos.js:518-523 | Answering "1" at confirmation books in one turn of exactly three steps: confirm, process, conclude. The session is deleted. |
| ExemplosFluxos.EscolherServicoHerdado | exemplos-fluxos.js:389-421 | As written, an inherited name such as "constructor" at the service menu stores the inherited value as the service. The turn goes on to the date menu, which shows the service's name and duration as "undefined", and waits on `escolherData`. The turn runs two steps. |
| ExemplosFluxos.HerdadaSemCampos | exemplos-fluxos.js:418 | An inherited value has no `nome` and no `duracao`: both read as `undefined`. |
| ExemplosFluxos.DataSemCamposPausa | exemplos-fluxos.js:416-421 | Entered with a stored service without `nome` and `duracao`, the date step shows both as "undefined" and waits, in one step. |
| ExemplosFluxos.ServicoEncontradoSegue | exemplos-fluxos.js:389-411 | A truthy service the lookup finds is stored, no bot entry is added, and the turn goes on at `escolherData` with no message. |
| ExemplosFluxos.ServicoSemCamposSegue | exemplos-fluxos.js:389-421 | Any truthy service the lookup finds without `nome` and `duracao` is stored, and the turn pauses on the date menu showing both as "undefined". |
| ExemplosFluxos.DisponibilidadeListaHorarios | exemplos-fluxos.js:448-475 | The availability check stores the four slots and pauses on `escolherHorario`, listing them for the stored date. The turn runs two steps. |
| ExemplosFluxos.EscolherDataHerdada | exemplos-fluxos.js:423-475 | As written, an inherited name such as "toString" at the date menu stores the inherited value as the date. The turn runs the availability check and pauses on the slot menu, which shows the date as that value prints, a function's source text. The turn runs three steps. |
| ExemplosFluxos.TabelasSoChavesProprias | exemplos-fluxos.js:389-436 | With the lookups restricted to own keys, both steps go on exactly for "1", "2" and "3". Every inherited name prompts "Opção inválida" again: the turn pauses on `escolherServico`, and only the bot's answer is added to the session. |
| ExemplosFluxos.AgendamentoPasso | exemplos-fluxos.js:379-574 | Every booking step names only booking steps. Run with no message, it auto-advances only downhill. |
| ExemplosFluxos.AgendamentoFechado | exemplos-fluxos.js:375-575 | Every step the booking names is one of its own. |
| ExemplosFluxos.AgendamentoTermina | exemplos-fluxos.js:375-575 | A turn of the booking never needs more than three steps. |
| JsText.TrimStart | chatbot-flow.js:159 | `trimStart` drops exactly the leading white space: what remains does not start with white space. |
| JsText.TrimEnd | chatbot-flow.js:159 | `trimEnd` keeps a prefix and drops exactly the trailing white space. |
| JsText.TrimIsSlice | chatbot-flow.js:159 | Trimmed text is the slice between the first and last characters that are not white space. |
| JsText.TrimStartBlanks | chatbot-flow.js:219 | Leading white space makes no difference to `trimStart`, however much there is. |
| JsText.TrimEndBlanks | chatbot-flow.js:219 | Trailing white space makes no difference to `trimEnd`, however much there is. |
| JsText.TrimBlanks | chatbot-flow.js:219 | `trim` gives back a word with no white space at its ends, whatever white space surrounds it. |
| JsText.Digits | chatbot-flow.js:9 | Removing non-digits yields only digits and never lengthens the text. |
| JsText.DigitsLength | chatbot-flow.js:9-10 | The digits kept are exactly as many as the digit characters of the input. |
| JsText.DigitsIdempotent | exemplos-fluxos.js:265 | Removing non-digits twice is the same as once. |
| JsText.NonDigitIgnored | chatbot-flow.js:9 | Inserting a non-digit does not change the digits kept. |
| JsText.Split | exemplos-fluxos.js:212 | `split` always yields at least one piece. |
| JsText.SplitLength | exemplos-fluxos.js:212 | `split` yields one piece more than there are separators. |
| JsText.SplitPiecesFree | rbx-flow.js:298 | No piece contains the separator. |
| JsText.JoinSplit | rbx-flow.js:298 | Joining the pieces with the separator gives back the original text. |
| JsText.SplitHasTwoPieces | exemplos-fluxos.js:212 | There are at least two pieces exactly when the separator occurs. |
| JsText.SplitNoSeparator | exemplos-fluxos.js:363 | Text without the separator is a single piece. |
| JsText.SplitFirstSeparator | exemplos-fluxos.js:363 | The first piece is the text before the first separator, whatever follows. |
| JsText.SplitThree | rbx-flow.js:489 | `a/b/c` with separator-free parts splits into exactly `[a, b, c]`. |
| JsText.Utf16Length | exemplos-fluxos.js:115 | `length` lies between the number of code points and twice that. |
| JsText.ToLower | chatbot-flow.js:221 | Lower-casing keeps the length and maps each character on its own. |
| JsText.DigitPrefix | exemplos-fluxos.js:32 | `parseInt` reads the longest run of digits of the radix. The character after that run is not such a digit. |
| JsText.NatToString | exemplos-fluxos.js:467 | A number's decimal digits have no leading zero unless the number is 0. |
| JsText.NatToStringValue | exemplos-fluxos.js:467 | Reading the decimal digits back gives the number. |
| JsText.ParseIntToString | exemplos-fluxos.js:32 | `parseInt(String(i))` is `i` for every integer, negative ones included. |
| JsText.ParseIntIgnoresSuffix | exemplos-fluxos.js:32 | `parseInt` stops at the first non-digit and ignores what follows. |
| JsText.LooseEqualsDigits | rbx-flow.js:121 | A run of digits, leading zeros included, is loosely equal (`==`) to its value. |
| JsText.LooseEqualsNumeral | rbx-flow.js:121 | A number's decimal digits are loosely equal to it. |
| JsText.LooseEqualsUnique | rbx-flow.js:121-129 | A string loosely equals at most one number, so the option branches exclude each other. |
| JsValue.Prop | chatbot-flow.js:211 | A property read throws exactly on `undefined` and `null`, and reads an object's own property. |
| JsValue.GetAtualizado | exemplos-fluxos.js:404 | After `dados.k = x`, reading `k` gives `x`, and every other key reads as before. |
| JsValue.Herdada | exemplos-fluxos.js:395-397 | Every property inherited from `Object.prototype` is truthy. |
| JsValue.Consultar | exemplos-fluxos.js:395-397 | A bracket lookup on an object literal finds its own keys first. A missing key is `undefined` unless it is inherited and the lookup reads inherited names, in which case it is the truthy inherited value. |
| JsValue.Index | exemplos-fluxos.js:477 | Indexing throws exactly on `undefined`/`null`. An array gives the element in range and `undefined` outside it. |
| JsValue.PropSetProp | rbx-flow.js:223 | A property just written reads back as written. Other properties keep theirs. |
| JsValue.NumText | rbx-flow.js:71 | `parseInt` of a whole number's text gives the number back. |
| JsValue.CallSplit | exemplos-fluxos.js:363 | `split` succeeds exactly on strings and then yields at least one piece. |
| JsValue.Strings | exemplos-fluxos.js:453 | An array literal of strings holds those strings in order. |
| RbxFlow.SempreAberto | rbx-flow.js:604-630 | The hours check answers "open" for every day and time, even on a Sunday outside the hours it tests. |
| RbxFlow.ValidarHorarioAtendimento | rbx-flow.js:604-630 | `validarHorarioAtendimento` branch by branch. Stated by `SempreAberto`. |
| RbxFlow.IsoParaBr | rbx-flow.js:298-303 | The listing's date reordering. Stated by `ReordenaTresPartes` and `ReordenacoesInversas`. |
| RbxFlow.BrParaIso | rbx-flow.js:487-494 | The payment report's date reordering. Stated by `ReordenaTresPartes`, `ReordenacoesInversas` and `AvisoPagamentoData`. |
| RbxFlow.ReordenaTresPartes | rbx-flow.js:487-494 | A `dd/mm/yyyy` date becomes `yyyy-mm-dd` and a listing date `yyyy-mm-dd` becomes `dd/mm/yyyy`, part for part. |
| RbxFlow.ReordenacoesInversas | rbx-flow.js:298-303 | On such dates the two reorderings undo each other. |
| RbxFlow.BuscarBoletosEmAberto | rbx-flow.js:579-602 | A truthy result is the service's answer for this customer's code, never a result for a missing customer. Conversely, a non-empty list of open slips for that code is passed on unchanged. |
| RbxFlow.BoletosEmAbertoNaoVazios | rbx-flow.js:596 | A missing customer gives `null`. A truthy result has a positive numeric `length`, so a list is never empty. |
| RbxFlow.InformarPagamento | rbx-flow.js:681-706 | `informarPagamento`: the service's answer for the slip's id, the date and the customer's code. Stated by `AvisoPagamentoData`. |
| RbxFlow.CampoDoCadastro | rbx-flow.js:70-72 | A field of the first result of the customer query. Used by `BuscarCadastroGuardaCliente`. |
| RbxFlow.ParseIntValue | rbx-flow.js:71 | `parseInt` of a value's text. Stated by `CodigoDoCliente`. |
| RbxFlow.NovoCliente | rbx-flow.js:69-75 | The customer record built from the query's first result. Stated by `BuscarCadastroGuardaCliente`. |
| RbxFlow.LinhasBoletos | rbx-flow.js:297-306 | The listing, when it can be built, has one line per slip. |
| RbxFlow.LinhasNumeradas | rbx-flow.js:297-303 | When every slip has a string due date, line `i` shows slip `i` under the number `i + 1`, with its date reordered. |
| RbxFlow.LinhasIlegiveis | rbx-flow.js:297-298 | One slip without a string `due_date` makes the whole listing throw. |
| RbxFlow.MenuBoletosLista | rbx-flow.js:294-315 | All three listings show every stored slip, numbered from 1 in order, then the option 0. They wait for the choice on their own choice step, with `dados` unchanged. |
| RbxFlow.EnviaPdf | rbx-flow.js:331-346 | Sending the PDF, or its error text, always goes straight on to the farewell. |
| RbxFlow.Rbx | rbx-flow.js:3-524 | The RBX flow starts on `inicio` and has exactly its eighteen steps. |
| RbxFlow.Inicio | rbx-flow.js:8-18 | Step `inicio`. Stated by `RbxAbertura`. |
| RbxFlow.Apresentacao | rbx-flow.js:20-29 | Step `apresentacao`. Stated by `RbxAbertura`. |
| RbxFlow.SolicitarDocumento | rbx-flow.js:31-61 | Step `solicitarDocumento`. Stated by `SolicitarDocumentoAceitaTudo`. |
| RbxFlow.BuscarCadastro | rbx-flow.js:63-93 | Step `buscarCadastro`. Stated by `BuscarCadastroGuardaCliente` and `RbxCadastroNaoEncontrado`. |
| RbxFlow.ErroCadastro | rbx-flow.js:95-104 | Step `erroCadastro`. Stated by `RbxCadastroNaoEncontrado`. |
| RbxFlow.ConfirmarCadastro | rbx-flow.js:106-145 | Step `confirmarCadastro`. Stated by `ConfirmarCadastroMostraNome`, `ConfirmarCadastroSim`, `ConfirmarCadastroNao`, `ConfirmarCadastroInvalida` and `RbxMenuInicial`. |
| RbxFlow.MenuInicial | rbx-flow.js:147-156 | Step `menuInicial`. Stated by `RbxMenuInicial`. |
| RbxFlow.ConfirmarMenuInicial | rbx-flow.js:158-202 | Step `confirmarMenuInicial`. Stated by the four `ConfirmarMenuInicial…` lemmas and `RbxMenuFinanceiro`. |
| RbxFlow.MenuFinanceiro | rbx-flow.js:204-213 | Step `menuFinanceiro`. Stated by `RbxMenuFinanceiro`. |
| RbxFlow.ConfirmarMenuFinanceiro | rbx-flow.js:215-292 | Step `confirmarMenuFinanceiro`. Stated by the three `ConfirmarMenuFinanceiro…` lemmas. |
| RbxFlow.BuscarBoletos | rbx-flow.js:219-275 | The slip fetch of options 1 to 3. Stated by `BuscarBoletosEncontrou` and `BuscarBoletosNenhum`. |
| RbxFlow.MenuBoletos | rbx-flow.js:294-315 | Steps `menuBoletos`, `menuBoletosPIX` and `menuBoletosAviso`. Stated by `MenuBoletosLista` and `LinhasIlegiveis`. |
| RbxFlow.Escolher | rbx-flow.js:319-329 | How a slip choice is read. Stated by `EscolherNoIntervalo`. |
| RbxFlow.ConfirmarBoletos | rbx-flow.js:317-356 | Step `confirmarBoletos`. Stated by `EscolhasDeBoleto`, `EscolherBoleto` and `EnviaPdf`. |
| RbxFlow.ConfirmarBoletosPix | rbx-flow.js:381-420 | Step `confirmarBoletosPIX`. Stated by `EscolhasDeBoleto` and `EscolherBoleto`. |
| RbxFlow.ConfirmarBoletosAviso | rbx-flow.js:445-474 | Step `confirmarBoletosAviso`. Stated by `EscolhasDeBoleto` and `EscolherBoleto`. |
| RbxFlow.AvisoPagamento | rbx-flow.js:476-512 | Step `avisoPagamento`. Stated by `AvisoPagamentoData`. |
| RbxFlow.Finalizar | rbx-flow.js:514-521 | Step `finalizar`. Stated by `FinalizarEncerra`. |
| RbxFlow.SolicitarDocumentoAceitaTudo | rbx-flow.js:31-61 | With no message it prompts and waits. Any message at all is stored trimmed as `documento` and the lookup runs at once, with no validation. |
| RbxFlow.BuscarCadastroGuardaCliente | rbx-flow.js:63-93 | A falsy lookup goes on to `erroCadastro` with `dados` unchanged. A customer found is stored, with name, code, document, `whatsapp` and an empty slip list, and the flow goes on to the confirmation. |
| RbxFlow.CodigoDoCliente | rbx-flow.js:71 | `parseInt` of the stored code is a whole number or `NaN`. A number stays itself. |
| RbxFlow.ConfirmarCadastroMostraNome | rbx-flow.js:108-117 | With no answer it shows the customer's name and waits. It throws exactly when no customer is stored. |
| RbxFlow.ConfirmarCadastroSim | rbx-flow.js:119-128 | An answer loosely equal to 1 goes on to the main menu with `dados` unchanged. |
| RbxFlow.ConfirmarCadastroNao | rbx-flow.js:129-136 | An answer loosely equal to 2 asks for another document and waits on `solicitarDocumento`. |
| RbxFlow.ConfirmarCadastroInvalida | rbx-flow.js:137-142 | Any other answer repeats the two options and waits in place. |
| RbxFlow.OpcoesPorDigito | rbx-flow.js:162 | Typing the digit "1" to "4" selects that option. |
| RbxFlow.ConfirmarMenuInicialFinanceiro | rbx-flow.js:160-168 | Option 1 goes on to the financial menu. |
| RbxFlow.ConfirmarMenuInicialAtendimento | rbx-flow.js:169-185 | Options 2 and 3 hand the user over to a person, whatever the clock says. |
| RbxFlow.ConfirmarMenuInicialSair | rbx-flow.js:186-193 | Option 4 goes on to the farewell. |
| RbxFlow.ConfirmarMenuInicialInvalida | rbx-flow.js:194-200 | Anything else shows the options again and waits in place. |
| RbxFlow.ConfirmarMenuFinanceiroBoletos | rbx-flow.js:219-275 | Options 1, 2 and 3 fetch the open slips and lead to the listing for the PDF, the PIX code or the payment report. |
| RbxFlow.ConfirmarMenuFinanceiroVoltar | rbx-flow.js:276-283 | Option 4 goes back to the main menu. |
| RbxFlow.ConfirmarMenuFinanceiroInvalida | rbx-flow.js:284-290 | Anything else shows the options again and waits in place. |
| RbxFlow.BuscarBoletosEncontrou | rbx-flow.js:219-230 | Found slips are stored in `dados.cliente.boletos` and the flow goes on to the chosen listing. |
| RbxFlow.BuscarBoletosNenhum | rbx-flow.js:231-237 | With no open slips the flow goes on to the farewell with `dados` unchanged. It throws exactly when no customer is stored. |
| RbxFlow.EscolherNoIntervalo | rbx-flow.js:319-329 | The trimmed choice reads as 0 to go back, or 1 to the number of slips to pick the slip listed under that number. Anything else is invalid. |
| RbxFlow.EscolhasDeBoleto | rbx-flow.js:319-354 | In all three slip choices, 0 returns to the financial menu. An invalid choice goes on to the PDF listing `menuBoletos`. |
| RbxFlow.EscolherBoleto | rbx-flow.js:328-346 | Picking slip `k`: the PDF variant sends that slip's link as an embed exactly when the service gave one, and finishes. The PIX variant sends its code when there is one, and finishes. The payment variant stores the slip as `boletoSelecionado` and waits for the date. |
| RbxFlow.AvisoPagamentoData | rbx-flow.js:476-511 | The typed `dd/mm/yyyy` reaches the service as `yyyy-mm-dd`. The answer says the report was accepted exactly when the service returned a truthy value. The flow goes on to the farewell. |
| RbxFlow.FinalizarEncerra | rbx-flow.js:514-521 | The farewell always ends the conversation. |
| RbxFlow.RbxAbertura | rbx-flow.js:8-61 | Starting the RBX flow shows the greeting and the introduction and pauses on `solicitarDocumento` asking for the document, in three steps. Only the three bot entries are added to the session. |
| RbxFlow.RbxCadastroNaoEncontrado | rbx-flow.js:63-104 | When the lookup finds nothing, the turn goes on to `erroCadastro` and pauses on `solicitarDocumento` asking for another document, in two steps. `dados` is unchanged. |
| RbxFlow.RbxMenuInicial | rbx-flow.js:106-156 | A yes at the registration confirmation shows the main menu in the same turn and pauses on `confirmarMenuInicial`. |
| RbxFlow.RbxMenuFinanceiro | rbx-flow.js:158-213 | Option 1 of the main menu shows the financial menu in the same turn and pauses on `confirmarMenuFinanceiro`. |
| RbxFlow.SemGuardaLancamSemMensagem | rbx-flow.js:158-160 | The five choice steps with no `null` check throw when entered with no message. |
| RbxFlow.PassoBomRbx | rbx-flow.js:7-523 | Every RBX step names only RBX steps. None of them auto-advances into a step that lacks a `null` check. Run with no message, each auto-advances only downhill. |
| RbxFlow.RbxFechado | rbx-flow.js:5-523 | Every step the RBX flow names is one of its own. |
| RbxFlow.RbxSemStepAusente | rbx-flow.js:5-523 | A turn of the RBX flow never answers "Step não encontrado". |
| RbxFlow.SemGuardaSoComResposta | rbx-flow.js:147-443 | The steps without a `null` check are entered only by waiting for the user. The flow does not start on one. |
| RbxFlow.SemGuardaRecebeMensagem | rbx-flow.js:152-153 | In a turn on a user message, those steps always run on that message, so their `null` throw cannot happen. |
| RbxFlow.RbxTermina | rbx-flow.js:3-524 | A turn of the RBX flow never needs more than four steps. |

## Left out

- Network calls: the simulated `buscarCadastroPorDocumento`, `salvarContato`, the RBX HTTP requests to the register, slip, PDF, PIX and payment-report services, their URLs, headers and keys. The lookup result and each service answer are oracle parameters, so every lemma holds for all answers. `salvarContato` is fire-and-forget and has no effect.
- `Math.random`: the 80% lookup success, the delivery status draw and the booking code are oracles.
- The oracles are functions of `dados` alone. This covers `sorteio` (tracking), `codigo` (booking), and every field of RBX's `Servicos`, the clock `relogio` included. So two calls with equal `dados` draw equal values, where the source draws afresh on each call with `Math.random` and `new Date`. No lemma relies on two draws being equal.
- `setTimeout`, every `await`, and the interleaving of concurrent turns of one user. Turns are atomic here.
- The clock and time zone for `validarHorarioAtendimento`. They are a parameter, which changes nothing since every path returns `true`.
- `parseFloat(valor).toLocaleString('pt-BR')` in the slip listing. It is an oracle: floating point and locale formatting are not modelled.
- Redis, `cache.js`, `connection.js`, `redis.js`, the Express routes of `server.js`, `simularChat`, `criarAPIExpress` and all `console.log` output.
- ChatbotFlow.Executar: the source has no step bound; the model's `fuel` does. Running out of fuel is a failure only the model has. The `Termina` lemmas show that three steps suffice for every turn of the registration, support, survey, tracking, full-registration and booking flows, and four for RBX.
- Objects are values: `obterSessao` returns a copy, so later changes through a caller's reference to the session are not modelled.
- Step lookup `fluxo.steps[stepAtual]` sees only the flow's own step names. In JavaScript an inherited name such as "constructor" would be found and then throw. No flow here ever moves to such a name.
- JsValue.Index: on a string it indexes code points, not UTF-16 code units. No flow indexes a string with non-BMP characters.
- JsText.ToLower: maps only the ASCII and Latin-1 capitals. Other characters are kept. The words compared against are "sim", "não" and "nao".
- JsText.LooseEquals: numbers are exact rationals, so a numeral that rounds to 1 as a double (more than 17 significant digits) is not equal to 1 here.
- RbxFlow.BuscarBoletosEmAberto: a `length` that is not a number counts as not positive. JavaScript would convert it.
- RbxFlow.AteOTamanho: `opcao <= length` is false when `length` is not a number. JavaScript would convert it.
- RbxFlow.EscolherBoleto: the PIX variant's message states only the case where a code was returned. The error text that replaces a missing code is not related back to the code.
- The PDF link and the PIX code are `Option<string>`. A non-string answer from those services is not modelled.
- `dados.usuarioId` is never set by the engine, so the customer's `whatsapp` is always `undefined`. The model reads it from `dados` as the code does.
- Numbers are unbounded integers (`Num(n: int)`) plus `NaN`. Fractions, `Infinity`, `-0` and the rounding of doubles above 2^53 are not modelled. `${n}` prints every digit, where JavaScript writes 1e+21 and larger numbers in exponent form. No flow computes with numbers that large.
- ChatbotFlow.FluxoEngine.ProcessarMensagem: the message is always a string. `server.js:53-62` passes on whatever JSON value the request holds; a number there would make `mensagem.trim()` throw in the RBX steps, and other non-strings would behave in other ways. That is not modelled.
- Functions are values `Func(nome)` that are truthy and print as their source text. Their own properties are not modelled: reading one gives `undefined`, and `SetProp` on a function drops the write where JavaScript would keep it. The booking flow reads `nome` and `duracao` of an inherited function at `exemplos-fluxos.js:418`, `502-505` and `560`. Those are `undefined` in JavaScript too, so the model's answer agrees. No flow writes a property of a stored function.
- `tipo` (including `embed`) and RBX's `abrirChamado` (`rbx-flow.js:183`) are carried in results and never interpreted. The engine drops them: its answer carries only `mensagem`, `finalizado` and `aguardandoResposta` (`chatbot-flow.js:111-130`).

## Findings

| source | as written | input that shows it | evidently intended | confidence | as-written member | corrected member |
|---|---|---|---|---|---|---|
| exemplos-fluxos.js:395-397 | `servicos[mensagem]` also finds properties inherited from `Object.prototype` | the message "constructor" stores the `Object` function as the service; the flow moves on to `escolherData`, whose prompt shows the name and the duration as "undefined" | only "1", "2" and "3" select a service | not executed | ExemplosFluxos.EscolherServicoHerdado | ExemplosFluxos.TabelasSoChavesProprias |
| exemplos-fluxos.js:429-431 | `datas[mensagem]` also finds inherited properties | the message "toString" stores a function as the date; the slot menu then shows the date as the function's source text | only "1", "2" and "3" select a date | not executed | ExemplosFluxos.EscolherDataHerdada | ExemplosFluxos.TabelasSoChavesProprias |
