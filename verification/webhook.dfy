/** The WhatsApp webhook (app.py): a chain of guards that may answer early, a
    keyword router over the stripped message, the product search, and the final
    log-then-send step. Replies produced by code outside this model (the cart and
    checkout helpers with the signatures the webhook calls, the category menu it
    calls with a tenant, the AI assistant) are given as `Collaborators`. */
module Webhook {
  import opened Text
  import opened Database
  import opened DbUtils

  const Insufficient := "Dados insuficientes"
  const Ok := "OK"
  const ManualMarker := "--- MENSAGEM RECEBIDA EM MODO MANUAL ---"
  const AlertReply := "Entendido. Um de nossos atendentes entrará em contato em breve. Por favor, aguarde."
  const GreetingReply := "Olá! Bem-vindo(a)!\nComandos: `produtos`, `carrinho`, `finalizar`."
  const AddUsageReply := "Formato inválido. Use: `add <ID> <quantidade>`."
  const Fallback := "Desculpe, não entendi. Digite 'menu' para ver as opções."
  const NoReplyLog := "Erro: Sem resposta gerada."

  const AlertKeywords: seq<string> := ["ajuda", "atendente", "humano", "problema", "reclamação"]
  const Greetings: seq<string> := ["oi", "olá", "ola", "menu", "começar"]
  const CartWords: seq<string> := ["carrinho", "ver carrinho"]
  const CatalogWords: seq<string> := ["produtos", "ver produtos", "catalogo"]

  // ---------------------------------------------------------------------------
  // The keyword router
  // ---------------------------------------------------------------------------

  /** Some alert keyword occurs in the lower-cased message. */
  predicate HasAlertKeyword(low: string)
  {
    exists k :: k in AlertKeywords && Contains(low, k)
  }

  /** The branch of the if/elif chain a message takes. */
  datatype Branch =
    | Alert
    | Greeting
    | AddItem(idProduto: int, quantidade: int)
    | AddUsage
    | ShowCart
    | Checkout
    | Catalog
    | Search

  /** The branch chosen for the stripped message `msg`. The first matching
      condition wins: an alert keyword anywhere, then exact greeting words, then
      the `add ` prefix (whose second and third whitespace-separated tokens must
      both be integers), then the exact cart, checkout and catalogue words, and
      the product search for everything else. */
  function Route(msg: string): (r: Branch)
    ensures r == Alert <==> HasAlertKeyword(Lower(msg))
    ensures r == Greeting ==> Lower(msg) in Greetings
    ensures (r.AddItem? || r == AddUsage) <==>
              !HasAlertKeyword(Lower(msg)) && Lower(msg) !in Greetings && StartsWith(Lower(msg), "add ")
    ensures r.AddItem? || r == AddUsage ==> r == AddRoute(Split(msg))
    ensures r == ShowCart ==> Lower(msg) in CartWords
    ensures r == Checkout ==> Lower(msg) == "finalizar"
    ensures r == Catalog ==> Lower(msg) in CatalogWords
    ensures r == Search ==> !IsFixedWord(Lower(msg)) && !StartsWith(Lower(msg), "add ")
  {
    var low := Lower(msg);
    if HasAlertKeyword(low) then Alert
    else if low in Greetings then Greeting
    else if StartsWith(low, "add ") then AddRoute(Split(msg))
    else if low in CartWords then ShowCart
    else if low == "finalizar" then Checkout
    else if low in CatalogWords then Catalog
    else Search
  }

  lemma {:induction false} ContainsLength(s: string, sub: string)
    requires Contains(s, sub)
    ensures |sub| <= |s|
    decreases |s|
  {
    if !StartsWith(s, sub) {
      ContainsLength(s[1..], sub);
    }
  }

  /** A text lacking `j`, `b` and `ã`, and lacking `h` or `m`, and lacking `n` or
      `d`, holds no alert keyword: each keyword has one of those letters or
      pairs. */
  lemma NoAlertWithoutLetters(low: string)
    requires LacksAlertLetters(low)
    ensures !HasAlertKeyword(low)
  {
    forall k | k in AlertKeywords && Contains(low, k) ensures false {
      if k == "ajuda" {
        ContainsChars(low, k, 'j');
      } else if k == "atendente" {
        ContainsChars(low, k, 'n');
        ContainsChars(low, k, 'd');
      } else if k == "humano" {
        ContainsChars(low, k, 'h');
        ContainsChars(low, k, 'm');
      } else if k == "problema" {
        ContainsChars(low, k, 'b');
      } else {
        ContainsChars(low, k, 'ã');
      }
    }
  }

  /** The words the greeting, cart, checkout and catalogue branches compare with. */
  predicate IsFixedWord(low: string)
  {
    low in Greetings || low in CartWords || low == "finalizar" || low in CatalogWords
  }

  /** No fixed word holds an alert keyword or starts with `add `. */
  lemma FixedWordsHaveNoAlert(w: string)
    requires IsFixedWord(w)
    ensures !HasAlertKeyword(w) && !StartsWith(w, "add ")
  {
    FixedWordsLetters(w);
    NoAlertWithoutLetters(w);
    FixedWordsStartOtherwise(w);
  }

  /** The letter test of `NoAlertWithoutLetters`. */
  predicate LacksAlertLetters(w: string)
  {
    && 'j' !in w && 'b' !in w && 'ã' !in w
    && ('h' !in w || 'm' !in w) && ('n' !in w || 'd' !in w)
  }

  lemma FixedWordsLetters(w: string)
    requires IsFixedWord(w)
    ensures LacksAlertLetters(w)
  {
    if w in Greetings {
      GreetingLetters(w);
    } else if w in CartWords {
      CartWordLetters(w);
    } else if w in CatalogWords {
      CatalogWordLetters(w);
    } else {
      assert w == "finalizar";
    }
  }

  lemma GreetingLetters(w: string)
    requires w in Greetings
    ensures LacksAlertLetters(w)
  {
  }

  lemma CartWordLetters(w: string)
    requires w in CartWords
    ensures LacksAlertLetters(w)
  {
  }

  lemma CatalogWordLetters(w: string)
    requires w in CatalogWords
    ensures LacksAlertLetters(w)
  {
  }

  /** No fixed word begins with `a`, so none starts with `add `. */
  lemma FixedWordsStartOtherwise(w: string)
    ensures StartsWith(w, "add ") ==> !IsFixedWord(w)
  {
    if StartsWith(w, "add ") {
      assert w[0] == 'a' by {
        assert w[..4][0] == w[0];
      }
    }
  }

  /** A message equal, up to case, to one of the fixed words takes that word's
      branch: the word sets are matched exactly and no earlier branch captures
      them. */
  lemma FixedWordsRoute(msg: string)
    ensures Lower(msg) in Greetings ==> Route(msg) == Greeting
    ensures Lower(msg) in CartWords ==> Route(msg) == ShowCart
    ensures Lower(msg) == "finalizar" ==> Route(msg) == Checkout
    ensures Lower(msg) in CatalogWords ==> Route(msg) == Catalog
  {
    var low := Lower(msg);
    if IsFixedWord(low) {
      FixedWordsHaveNoAlert(low);
    }
  }

  lemma LowerAppend(a: string, b: string)
    ensures Lower(a + b) == Lower(a) + Lower(b)
  {
    assert forall i :: 0 <= i < |a + b| ==> Lower(a + b)[i] == (Lower(a) + Lower(b))[i];
  }

  /** Lower-casing a decimal rendering changes nothing, and adds no letter. */
  lemma LowerIntToString(n: int)
    ensures Lower(IntToString(n)) == IntToString(n)
    ensures forall c :: c in IntToString(n) ==> IsDigit(c) || c == '-'
  {
    IntToStringIsToken(n);
  }

  /** The `add` branch: the second and third tokens of the message, when both
      parse as integers, and the usage text otherwise. */
  function AddRoute(parts: seq<string>): (r: Branch)
    ensures r.AddItem? || r == AddUsage
    ensures r.AddItem? <==> |parts| >= 3 && ParseInt(parts[1]).Some? && ParseInt(parts[2]).Some?
    ensures r.AddItem? ==> ParseInt(parts[1]) == Some(r.idProduto) && ParseInt(parts[2]) == Some(r.quantidade)
  {
    if |parts| >= 3 && ParseInt(parts[1]).Some? && ParseInt(parts[2]).Some?
    then AddItem(ParseInt(parts[1]).value, ParseInt(parts[2]).value)
    else AddUsage
  }

  /** A message starting with `add ` (any case) and holding no alert keyword
      takes the `add` branch. */
  lemma RouteOfAddPrefix(msg: string)
    requires !HasAlertKeyword(Lower(msg)) && StartsWith(Lower(msg), "add ")
    ensures Route(msg) == AddRoute(Split(msg))
  {
    FixedWordsStartOtherwise(Lower(msg));
  }

  lemma JoinedAddStartsWithAdd(ws: seq<string>)
    requires |ws| >= 2 && Lower(ws[0]) == "add"
    ensures StartsWith(Lower(JoinWords(ws)), "add ")
  {
    var msg := JoinWords(ws);
    assert msg == ws[0] + " " + JoinWords(ws[1..]);
    LowerAppend(ws[0] + " ", JoinWords(ws[1..]));
    LowerAppend(ws[0], " ");
  }

  /** Whatever the case of `add` and however many tokens follow, the message is
      routed on its own tokens, so (by the contract of `AddRoute`) the second and
      third tokens are what the cart receives, provided both parse as integers,
      and otherwise the reply is the usage text. The message must hold no alert
      keyword, which would take precedence. */
  lemma AddUsesSecondAndThirdTokens(ws: seq<string>)
    requires forall i :: 0 <= i < |ws| ==> IsToken(ws[i])
    requires |ws| >= 2 && Lower(ws[0]) == "add"
    requires !HasAlertKeyword(Lower(JoinWords(ws)))
    ensures Route(JoinWords(ws)) == AddRoute(ws)
  {
    var msg := JoinWords(ws);
    JoinedAddStartsWithAdd(ws);
    RouteOfAddPrefix(msg);
    SplitJoinWords(ws);
  }

  /** A text without upper-case letters is its own lower-case form. */
  lemma LowerNoUpper(s: string)
    requires forall i :: 0 <= i < |s| ==> !IsUpperLetter(s[i])
    ensures Lower(s) == s
  {
  }

  /** The text `add <a> <b>` is made of `a`, `d`, spaces, signs and digits. */
  lemma AddTextChars(a: int, b: int)
    ensures forall c :: c in "add " + IntToString(a) + " " + IntToString(b) ==>
                          c == 'a' || c == 'd' || c == ' ' || c == '-' || IsDigit(c)
  {
    LowerIntToString(a);
    LowerIntToString(b);
  }

  /** The text `add <a> <b>` is already lower case and has no alert letter. */
  lemma AddTextLacksAlertLetters(a: int, b: int)
    ensures var msg := "add " + IntToString(a) + " " + IntToString(b);
      Lower(msg) == msg && LacksAlertLetters(msg)
  {
    var msg := "add " + IntToString(a) + " " + IntToString(b);
    AddTextChars(a, b);
    assert forall i :: 0 <= i < |msg| ==> msg[i] in msg;
    LowerNoUpper(msg);
  }

  /** The text `add <a> <b>` is its three tokens joined by spaces. */
  lemma AddTextWords(a: int, b: int)
    ensures var ws := ["add", IntToString(a), IntToString(b)];
      && (forall i :: 0 <= i < |ws| ==> IsToken(ws[i]))
      && JoinWords(ws) == "add " + IntToString(a) + " " + IntToString(b)
  {
    var ws := ["add", IntToString(a), IntToString(b)];
    IntToStringIsToken(a);
    IntToStringIsToken(b);
    assert JoinWords(ws[1..]) == IntToString(a) + " " + JoinWords(ws[2..]);
  }

  /** `add <id> <quantity>` written with two integers reaches the cart with those
      integers, zero and negative values included. */
  lemma AddRoundTrip(idProduto: int, quantidade: int)
    ensures Route("add " + IntToString(idProduto) + " " + IntToString(quantidade))
         == AddItem(idProduto, quantidade)
  {
    var ws := ["add", IntToString(idProduto), IntToString(quantidade)];
    AddTextWords(idProduto, quantidade);
    AddTextLacksAlertLetters(idProduto, quantidade);
    NoAlertWithoutLetters(JoinWords(ws));
    ParseIntToString(idProduto);
    ParseIntToString(quantidade);
    AddUsesSecondAndThirdTokens(ws);
  }

  lemma {:induction false} ContainsSuffix(s: string, sub: string)
    ensures Contains(s + sub, sub)
    decreases |s|
  {
    if s == [] {
      assert s + sub == sub;
    } else {
      assert (s + sub)[1..] == s[1..] + sub;
      ContainsSuffix(s[1..], sub);
    }
  }

  /** An alert keyword beats the `add` command: `add 1 2 ajuda` raises the alert. */
  lemma AlertBeatsAdd(prefix: string, k: string)
    requires k in AlertKeywords
    ensures Route(prefix + " " + k) == Alert
  {
    AlertKeywordAtEnd(prefix, k);
  }

  lemma AlertKeywordsAreLower(k: string)
    requires k in AlertKeywords
    ensures Lower(k) == k
  {
    var i :| 0 <= i < |AlertKeywords| && AlertKeywords[i] == k;
    KeywordHasNoUpper(i);
    LowerNoUpper(k);
  }

  lemma KeywordHasNoUpper(i: int)
    requires 0 <= i < |AlertKeywords|
    ensures forall j :: 0 <= j < |AlertKeywords[i]| ==> !IsUpperLetter(AlertKeywords[i][j])
  {
    var k := AlertKeywords[i];
    forall j | 0 <= j < |k|
      ensures !IsUpperLetter(k[j])
    {
    }
  }


  lemma AlertKeywordAtEnd(prefix: string, k: string)
    requires k in AlertKeywords
    ensures HasAlertKeyword(Lower(prefix + " " + k))
  {
    LowerAppend(prefix + " ", k);
    AlertKeywordsAreLower(k);
    ContainsSuffix(Lower(prefix + " "), k);
  }

  // ---------------------------------------------------------------------------
  // buscar_produto_detalhado and carregar_produtos_db
  // ---------------------------------------------------------------------------

  /** A product the search may return: the tenant's, active, and with the
      lower-cased message inside its lower-cased name. */
  predicate SearchHit(p: Product, contaId: int, msg: string)
  {
    p.contaId == contaId && p.ativo && Contains(Lower(p.nome), Lower(msg))
  }

  function FirstHit(produtos: seq<Product>, contaId: int, msg: string): (r: Option<Product>)
    ensures r.None? <==> forall i :: 0 <= i < |produtos| ==> !SearchHit(produtos[i], contaId, msg)
    ensures r.Some? ==> exists i :: 0 <= i < |produtos| && produtos[i] == r.value
                                    && SearchHit(r.value, contaId, msg)
                                    && forall j :: 0 <= j < i ==> !SearchHit(produtos[j], contaId, msg)
  {
    if produtos == [] then None
    else if SearchHit(produtos[0], contaId, msg) then Some(produtos[0])
    else
      var r := FirstHit(produtos[1..], contaId, msg);
      if r.Some? then
        var tail := produtos[1..];
        var i :| 0 <= i < |tail| && tail[i] == r.value && SearchHit(r.value, contaId, msg)
                 && forall j :: 0 <= j < i ==> !SearchHit(tail[j], contaId, msg);
        assert produtos[i + 1] == tail[i];
        assert forall j :: 1 <= j < i + 1 ==> produtos[j] == tail[j - 1];
        r
      else r
  }

  /** `buscar_produto_detalhado`: nothing for a message shorter than three
      characters once stripped or when the database fails; otherwise the first
      product of the tenant, active, whose name contains the message ignoring
      case. */
  function SearchProduct(produtos: seq<Product>, contaId: int, msg: string, dbUp: bool): (r: Option<Product>)
    ensures |Strip(msg)| < 3 || !dbUp ==> r.None?
    ensures r.Some? ==> r.value in produtos && SearchHit(r.value, contaId, msg)
    ensures |Strip(msg)| >= 3 && dbUp && r.None? ==>
              forall i :: 0 <= i < |produtos| ==> !SearchHit(produtos[i], contaId, msg)
  {
    if |Strip(msg)| < 3 || !dbUp then None else FirstHit(produtos, contaId, msg)
  }

  /** `carregar_produtos_db`: the tenant's active products, or none when the
      database fails. */
  function ActiveCatalog(produtos: seq<Product>, contaId: int, dbUp: bool): (r: seq<Product>)
    ensures !dbUp ==> r == []
    ensures dbUp ==> forall p :: p in r <==> p in produtos && p.ativo && p.contaId == contaId
  {
    if !dbUp || produtos == [] then []
    else
      var init := ActiveCatalog(produtos[..|produtos| - 1], contaId, dbUp);
      var last := produtos[|produtos| - 1];
      assert produtos == produtos[..|produtos| - 1] + [last];
      if last.ativo && last.contaId == contaId then init + [last] else init
  }

  /** Every product the search finds is in the catalogue the assistant is given. */
  lemma SearchHitInCatalog(produtos: seq<Product>, contaId: int, msg: string, dbUp: bool)
    requires SearchProduct(produtos, contaId, msg, dbUp).Some?
    ensures SearchProduct(produtos, contaId, msg, dbUp).value in ActiveCatalog(produtos, contaId, dbUp)
  {
  }

  /** The reply for a product found by the search; a missing description prints
      as `None`. */
  function FoundReply(p: Product): (r: string)
    ensures r != []
  {
    "Encontrei: *" + p.nome + "* - R$ " + Money(p.precoCents) + "\n_"
      + (if p.descricao.Some? then p.descricao.value else "None") + "_"
  }

  // ---------------------------------------------------------------------------
  // The guard chain
  // ---------------------------------------------------------------------------

  /** Replies computed by code outside this model. */
  datatype Collaborators = Collaborators(
    addToCart: (int, int) -> string,
    cart: string,
    checkout: string,
    categories: string,
    assistant: string)

  /** How a webhook call ends. */
  datatype Outcome =
    | MissingData
    | UnknownTenant
    | TestModeIgnored
    | ManualMode(contaId: int, sender: string, msg: string)
    | Answered(contaId: int, sender: string, msg: string, reply: string)

  /** The first open sale of a customer with a tenant. */
  function FirstOpenVenda(vendas: seq<Venda>, clienteId: string, contaId: int): (r: Option<Venda>)
    ensures r.None? <==> forall i :: 0 <= i < |vendas| ==> !IsOpenSaleOf(vendas[i], clienteId, contaId)
    ensures r.Some? ==> r.value in vendas && IsOpenSaleOf(r.value, clienteId, contaId)
  {
    if vendas == [] then None
    else if IsOpenSaleOf(vendas[0], clienteId, contaId) then Some(vendas[0])
    else FirstOpenVenda(vendas[1..], clienteId, contaId)
  }

  predicate IsOpenSaleOf(v: Venda, clienteId: string, contaId: int)
  {
    v.clienteId == clienteId && v.status == "aberto" && v.contaId == contaId
  }

  /** `TEST_MODE_ENABLED`, defaulting to `FALSE`, upper-cased equals `TRUE`. */
  predicate TestMode(env: Env)
  {
    Upper(if env.testModeEnabled.Some? then env.testModeEnabled.value else "FALSE") == "TRUE"
  }

  /** The reply the router produces for a message of a resolved tenant. */
  function Answer(produtos: seq<Product>, contaId: int, msg: string, dbUp: bool, c: Collaborators): string
  {
    match Route(msg)
    case Alert => AlertReply
    case Greeting => GreetingReply
    case AddItem(a, b) => c.addToCart(a, b)
    case AddUsage => AddUsageReply
    case ShowCart => c.cart
    case Checkout => c.checkout
    case Catalog => c.categories
    case Search =>
      var hit := SearchProduct(produtos, contaId, msg, dbUp);
      if hit.Some? then FoundReply(hit.value) else c.assistant
  }

  /** How the webhook ends for the `From` and `Body` form fields. */
  function Decide(contas: seq<Conta>, vendas: seq<Venda>, produtos: seq<Product>, env: Env,
                  from: Option<string>, body: Option<string>, c: Collaborators): Outcome
  {
    var withPrefix := if from.Some? then from.value else "";
    var sender := RemoveAll(withPrefix, "whatsapp:");
    var msg := Strip(if body.Some? then body.value else "");
    if sender == [] || msg == [] then MissingData
    else
      var contaId := ContaIdFromNumber(contas, withPrefix, env.dbUp);
      if contaId.None? || contaId.value == 0 then UnknownTenant
      else if TestMode(env) && env.developerWhatsappNumber != Some(withPrefix) then TestModeIgnored
      else
        var venda := FirstOpenVenda(vendas, sender, contaId.value);
        if venda.Some? && venda.value.modoAtendimento == Some("manual") then
          ManualMode(contaId.value, sender, msg)
        else
          Answered(contaId.value, sender, msg, Answer(produtos, contaId.value, msg, env.dbUp, c))
  }

  /** The body of the HTTP answer; the status is always 200. */
  function ResponseText(o: Outcome): string
  {
    if o.MissingData? then Insufficient else Ok
  }

  /** The rows the call appends to the conversation log. */
  function LogOf(o: Outcome, now: int): seq<Conversa>
  {
    match o
    case ManualMode(contaId, sender, msg) => [Conversa(contaId, sender, msg, ManualMarker, now, false)]
    case Answered(contaId, sender, msg, reply) =>
      [Conversa(contaId, sender, msg, if reply != [] then reply else NoReplyLog, now, false)]
    case _ => []
  }

  /** The messages the gateway accepts during the call. */
  function SendsOf(o: Outcome, env: Env): seq<OutMsg>
  {
    if o.Answered? && env.gatewayUp then
      [OutMsg(o.sender, None, if o.reply != [] then o.reply else Fallback)]
    else []
  }

  // ---------------------------------------------------------------------------
  // The webhook
  // ---------------------------------------------------------------------------

  /** Hands one plain text message to the gateway; a failure is swallowed. */
  method Deliver(db: Store, env: Env, to: string, body: string)
    modifies db`outbox
    ensures db.outbox == old(db.outbox) + if env.gatewayUp then [OutMsg(to, None, body)] else []
  {
    if env.gatewayUp {
      db.outbox := db.outbox + [OutMsg(to, None, body)];
    }
  }

  /** `whatsapp_webhook`, with `now` the time stamped on the log row: the guard
      chain decides how the call ends, then the log row is written and the
      message sent. */
  method HandleMessage(db: Store, env: Env, from: Option<string>, body: Option<string>,
                       c: Collaborators, now: int) returns (response: string, status: int)
    modifies db`conversas, db`outbox
    ensures var o := Decide(db.contas, db.vendas, db.produtos, env, from, body, c);
      && response == ResponseText(o) && status == 200
      && db.conversas == old(db.conversas) + LogOf(o, now)
      && db.outbox == old(db.outbox) + SendsOf(o, env)
  {
    var o := RunGuards(db, env, from, body, c);
    match o {
      case ManualMode(cid, sender, msg) =>
        SaveConversation(db, env, cid, sender, msg, ManualMarker, now);
      case Answered(cid, sender, msg, resposta) =>
        LogAndSend(db, env, cid, sender, msg, resposta, now);
      case _ =>
    }
    response, status := ResponseText(o), 200;
  }

  /** The guards of the webhook, each of which may end the call, and the router
      for a message that passes them all. */
  method RunGuards(db: Store, env: Env, from: Option<string>, body: Option<string>, c: Collaborators)
    returns (o: Outcome)
    ensures o == Decide(db.contas, db.vendas, db.produtos, env, from, body, c)
    ensures o.ManualMode? || o.Answered? ==> env.dbUp
  {
    var withPrefix := if from.Some? then from.value else "";
    var sender := RemoveAll(withPrefix, "whatsapp:");
    var msg := Strip(if body.Some? then body.value else "");
    if sender == [] || msg == [] {
      return MissingData;
    }
    var contaId := ContaIdFromNumber(db.contas, withPrefix, env.dbUp);
    if contaId.None? || contaId.value == 0 {
      return UnknownTenant;
    }
    var testValue := if env.testModeEnabled.Some? then env.testModeEnabled.value else "FALSE";
    if Upper(testValue) == "TRUE" && env.developerWhatsappNumber != Some(withPrefix) {
      return TestModeIgnored;
    }
    var cid := contaId.value;
    var venda := FirstOpenVenda(db.vendas, sender, cid);
    if venda.Some? && venda.value.modoAtendimento == Some("manual") {
      return ManualMode(cid, sender, msg);
    }
    var resposta := Answer(db.produtos, cid, msg, env.dbUp, c);
    return Answered(cid, sender, msg, resposta);
  }

  /** Logs the reply and sends it; an empty reply is logged as an error and the
      fallback is sent instead. */
  method LogAndSend(db: Store, env: Env, contaId: int, sender: string, msg: string, resposta: string, now: int)
    requires env.dbUp
    modifies db`conversas, db`outbox
    ensures var o := Answered(contaId, sender, msg, resposta);
      && db.conversas == old(db.conversas) + LogOf(o, now)
      && db.outbox == old(db.outbox) + SendsOf(o, env)
  {
    if resposta != [] {
      SaveConversation(db, env, contaId, sender, msg, resposta, now);
      Deliver(db, env, sender, resposta);
    } else {
      SaveConversation(db, env, contaId, sender, msg, NoReplyLog, now);
      Deliver(db, env, sender, Fallback);
    }
  }

  // ---------------------------------------------------------------------------
  // Properties of the guard chain
  // ---------------------------------------------------------------------------

  /** A sender that is missing or empty once "whatsapp:" is removed, or a
      message that is missing or blank, answers "Dados insuficientes" and neither
      logs nor sends. */
  lemma MissingDataIsSilent(contas: seq<Conta>, vendas: seq<Venda>, produtos: seq<Product>, env: Env,
                            from: Option<string>, body: Option<string>, c: Collaborators, now: int)
    requires RemoveAll(if from.Some? then from.value else "", "whatsapp:") == []
          || Strip(if body.Some? then body.value else "") == []
    ensures var o := Decide(contas, vendas, produtos, env, from, body, c);
      ResponseText(o) == Insufficient && LogOf(o, now) == [] && SendsOf(o, env) == []
  {
  }

  /** A sender whose tenant lookup finds nothing (no conta owns the number, or
      the database cannot be reached) or finds the id 0 answers "OK" and neither
      logs nor sends. */
  lemma UnknownTenantIsSilent(contas: seq<Conta>, vendas: seq<Venda>, produtos: seq<Product>, env: Env,
                              from: string, body: string, c: Collaborators, now: int)
    requires RemoveAll(from, "whatsapp:") != [] && Strip(body) != []
    requires ContaIdFromNumber(contas, from, env.dbUp).None? || ContaIdFromNumber(contas, from, env.dbUp) == Some(0)
    ensures var o := Decide(contas, vendas, produtos, env, Some(from), Some(body), c);
      o == UnknownTenant && ResponseText(o) == Ok && LogOf(o, now) == [] && SendsOf(o, env) == []
  {
  }

  /** With test mode on, only the developer's number gets past the guard. */
  lemma TestModeAdmitsOnlyDeveloper(contas: seq<Conta>, vendas: seq<Venda>, produtos: seq<Product>, env: Env,
                                    from: string, body: string, c: Collaborators)
    requires TestMode(env)
    ensures var o := Decide(contas, vendas, produtos, env, Some(from), Some(body), c);
      (o.ManualMode? || o.Answered?) ==> env.developerWhatsappNumber == Some(from)
  {
  }

  /** When the customer's first open sale with the tenant is in manual mode the
      message is logged with the manual marker and nothing is sent. */
  lemma ManualModeSilencesBot(contas: seq<Conta>, vendas: seq<Venda>, produtos: seq<Product>, env: Env,
                              from: string, body: string, c: Collaborators, now: int, contaId: int)
    requires RemoveAll(from, "whatsapp:") != [] && Strip(body) != []
    requires ContaIdFromNumber(contas, from, env.dbUp) == Some(contaId) && contaId != 0
    requires !TestMode(env) || env.developerWhatsappNumber == Some(from)
    requires FirstOpenVenda(vendas, RemoveAll(from, "whatsapp:"), contaId).Some?
    requires FirstOpenVenda(vendas, RemoveAll(from, "whatsapp:"), contaId).value.modoAtendimento == Some("manual")
    ensures var o := Decide(contas, vendas, produtos, env, Some(from), Some(body), c);
      && LogOf(o, now) == [Conversa(contaId, RemoveAll(from, "whatsapp:"), Strip(body), ManualMarker, now, false)]
      && SendsOf(o, env) == []
      && ResponseText(o) == Ok
  {
  }

  /** Past the guards, exactly one row is logged, with a non-empty reply, and
      one send is attempted; an empty reply is logged as an error and answered
      with the fixed fallback. */
  lemma AnsweredLogsOnceSendsOnce(o: Outcome, env: Env, now: int)
    requires o.Answered?
    ensures |LogOf(o, now)| == 1 && LogOf(o, now)[0].respostaBot != []
    ensures LogOf(o, now)[0].contaId == o.contaId && LogOf(o, now)[0].contato == o.sender
    ensures env.gatewayUp ==> SendsOf(o, env) == [OutMsg(o.sender, None, if o.reply == [] then Fallback else o.reply)]
    ensures !env.gatewayUp ==> SendsOf(o, env) == [] && |LogOf(o, now)| == 1
  {
  }

  /** Only a collaborator can leave the reply empty: the fixed replies and the
      product found by the search never are. */
  lemma EmptyReplyComesFromCollaborator(produtos: seq<Product>, contaId: int, msg: string, dbUp: bool, c: Collaborators)
    requires Answer(produtos, contaId, msg, dbUp, c) == []
    ensures Route(msg) in {ShowCart, Checkout, Catalog, Search} || Route(msg).AddItem?
    ensures Route(msg) == Search ==> SearchProduct(produtos, contaId, msg, dbUp).None? && c.assistant == []
  {
  }
}
