/** The PostgreSQL tables the bot and the panel share, as rows held in memory, and
    the process environment. Every table is a sequence in a single `Store` object;
    the order of a sequence is the order in which an unordered `SELECT` returns the
    rows, so `LIMIT 1` without `ORDER BY` picks the first matching row. The
    messaging gateway is the `outbox`: every message it accepts is appended there. */
module Database {
  import opened Text

  /** A row of `contas`, with the columns the core reads. */
  datatype Conta = Conta(
    id: int,
    whatsappNumber: Option<string>,
    subaccountSid: Option<string>,
    authToken: Option<string>)

  /** A row of `produtos`; the price is held in integer cents. */
  datatype Product = Product(
    id: int,
    contaId: int,
    nome: string,
    descricao: Option<string>,
    precoCents: int,
    categoria: Option<string>,
    ativo: bool)

  /** A row of `vendas`, with the columns the core reads or writes. */
  datatype Venda = Venda(
    id: int,
    contaId: int,
    clienteId: string,
    status: string,
    modoAtendimento: Option<string>,
    statusAtendimento: Option<string>)

  /** A row of `conversas`: one inbound message and the reply logged for it. */
  datatype Conversa = Conversa(
    contaId: int,
    contato: string,
    mensagemUsuario: string,
    respostaBot: string,
    dataHora: int,
    lido: bool)

  /** A row of `carrinho`, keyed by (telefone, idProduto). */
  datatype CartRow = CartRow(telefone: string, idProduto: int, quantidade: int)

  /** A row of `clientes_fluxo`: a registration in progress. */
  datatype FlowRow = FlowRow(telefone: string, etapa: string, nome: Option<string>, bairro: Option<string>)

  /** A row of `clientes`. */
  datatype Cliente = Cliente(nome: Option<string>, telefone: string, bairro: string)

  /** One question/answer pair of a tenant's FAQ. */
  datatype FaqEntry = FaqEntry(question: string, answer: string)

  /** A row of `configuracoes_bot`, keyed by `contaId`. The FAQ column holds the
      list itself rather than its JSON text. */
  datatype BotConfigRow = BotConfigRow(
    contaId: int,
    nomeLojaPublico: Option<string>,
    horarioFuncionamento: Option<string>,
    endereco: Option<string>,
    linkGoogleMaps: Option<string>,
    nomeAssistente: Option<string>,
    saudacaoPersonalizada: Option<string>,
    usarEmojis: bool,
    faqConhecimento: seq<FaqEntry>,
    diretrizPrincipalPrompt: Option<string>,
    conhecimentoEspecifico: Option<string>,
    ultimaAtualizacao: int)

  /** A plain text message accepted by the messaging gateway. */
  datatype OutMsg = OutMsg(to: string, from: Option<string>, body: string)

  /** The environment variables the core reads, and whether the database and the
      gateway answer during the call being modelled. */
  datatype Env = Env(
    twilioAccountSid: Option<string>,
    twilioAuthToken: Option<string>,
    twilioWhatsappNumber: Option<string>,
    testModeEnabled: Option<string>,
    developerWhatsappNumber: Option<string>,
    dbUp: bool,
    gatewayUp: bool)

  /** Python truthiness of a value that may be `None` or a string. */
  predicate Truthy(o: Option<string>)
  {
    o.Some? && o.value != []
  }

  /** The database and the gateway's record of sent messages. */
  class Store {
    var contas: seq<Conta>
    var produtos: seq<Product>
    var vendas: seq<Venda>
    var conversas: seq<Conversa>
    var carrinho: seq<CartRow>
    var clientesFluxo: seq<FlowRow>
    var clientes: seq<Cliente>
    var configuracoes: seq<BotConfigRow>
    var outbox: seq<OutMsg>

    constructor ()
      ensures contas == [] && produtos == [] && vendas == [] && conversas == []
      ensures carrinho == [] && clientesFluxo == [] && clientes == []
      ensures configuracoes == [] && outbox == []
    {
      contas, produtos, vendas, conversas := [], [], [], [];
      carrinho, clientesFluxo, clientes := [], [], [];
      configuracoes, outbox := [], [];
    }
  }
}
