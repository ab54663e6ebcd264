/** The customer-facing screens (utils/view_handlers.py). A screen is the
    sequence of send requests it makes; the sends run in order and the first one
    that raises ends the screen, since no view catches the exception. */
module Views {
  import opened Text
  import opened Database
  import opened Twilio

  /** One call into the messaging helpers. */
  datatype Request =
    | TextReq(body: string)
    | ButtonsReq(body: string, buttons: seq<Button>)
    | ListReq(body: string, buttonText: string, sections: seq<Section>)

  /** The columns of a product dictionary a view reads; `descricao` is `None`
      when the dictionary has no such key. */
  datatype ViewProduct = ViewProduct(id: int, nome: string, descricao: Option<string>, precoCents: int)

  const DefaultGreeting := "Olá! Bem-vindo(a). Como posso ajudar?"
  const NoCatalog := "Ainda não temos produtos cadastrados em nosso catálogo."
  const CategoriesBody := "Excelente! Toque na categoria que deseja explorar."
  const CategoriesButton := "Categorias"
  const CategoriesSection := "Nossas Categorias"
  const NoDescription := "Sem descrição."
  const TalkToHumanText := "Entendido. Um de nossos atendentes entrará em contato consigo em breve através deste chat. Por favor, aguarde."

  /** The three buttons of the main menu. */
  const MainMenu := [
    Button("view_categories", "🛍️ Ver Produtos"),
    Button("talk_to_human", "💬 Falar com Atendente"),
    Button("view_faq", "ℹ️ Dúvidas Frequentes")
  ]

  // ---------------------------------------------------------------------------
  // Running a screen
  // ---------------------------------------------------------------------------

  /** How one request ends. */
  function Attempt(contas: seq<Conta>, env: Env, contaId: Option<int>, req: Request): Status
  {
    match req
    case TextReq(_) => TextStatus(contas, env, contaId)
    case ButtonsReq(_, buttons) => ButtonsStatus(contas, env, contaId, buttons)
    case ListReq(_, _, sections) => ListStatus(contas, env, contaId, sections)
  }

  /** The text that reaches the gateway for a request that goes through. */
  function Rendered(req: Request): string
  {
    match req
    case TextReq(body) => body
    case ButtonsReq(body, buttons) => ButtonsFallback(body, buttons)
    case ListReq(body, _, sections) => ListFallback(body, sections)
  }

  /** The requests run in order until one raises: the final status (`Sent` when
      none raised) and the messages delivered. */
  function Run(contas: seq<Conta>, env: Env, contaId: Option<int>, to: string, from: string,
               reqs: seq<Request>): (Status, seq<OutMsg>)
  {
    if reqs == [] then (Sent, [])
    else
      var prev := Run(contas, env, contaId, to, from, reqs[..|reqs| - 1]);
      var last := reqs[|reqs| - 1];
      if prev.0 != Sent then prev
      else
        var s := Attempt(contas, env, contaId, last);
        if s == Sent then (Sent, prev.1 + [OutMsg(to, Some(from), Rendered(last))]) else (s, prev.1)
  }

  lemma RunStep(contas: seq<Conta>, env: Env, contaId: Option<int>, to: string, from: string,
                reqs: seq<Request>, k: nat)
    requires k < |reqs|
    ensures var prev := Run(contas, env, contaId, to, from, reqs[..k]);
            var s := Attempt(contas, env, contaId, reqs[k]);
            Run(contas, env, contaId, to, from, reqs[..k + 1]) ==
              if prev.0 != Sent then prev
              else if s == Sent then (Sent, prev.1 + [OutMsg(to, Some(from), Rendered(reqs[k]))])
              else (s, prev.1)
  {
    assert reqs[..k + 1][..k] == reqs[..k];
  }

  /** Every button request of a screen stays within the three-button limit. */
  predicate WithinButtonLimit(reqs: seq<Request>)
  {
    forall i :: 0 <= i < |reqs| && reqs[i].ButtonsReq? ==> |reqs[i].buttons| <= 3
  }

  /** A screen whose button requests respect the limit never raises the
      too-many-buttons error. */
  lemma {:induction false} NoTooManyButtons(contas: seq<Conta>, env: Env, contaId: Option<int>,
                                            to: string, from: string, reqs: seq<Request>)
    requires WithinButtonLimit(reqs)
    ensures Run(contas, env, contaId, to, from, reqs).0 != Raised(TooManyButtons)
  {
    if reqs != [] {
      var init := reqs[..|reqs| - 1];
      assert forall i :: 0 <= i < |init| ==> init[i] == reqs[i];
      NoTooManyButtons(contas, env, contaId, to, from, init);
    }
  }

  /** Without credentials a screen stops at its first request and sends nothing. */
  lemma {:induction false} RunWithoutCredentials(contas: seq<Conta>, env: Env, contaId: Option<int>,
                                                 to: string, from: string, reqs: seq<Request>)
    requires reqs != []
    requires ChooseCredentials(contas, env, contaId).None?
    ensures Run(contas, env, contaId, to, from, reqs) == (Raised(NoCredentials), [])
  {
    var init := reqs[..|reqs| - 1];
    if init != [] {
      RunWithoutCredentials(contas, env, contaId, to, from, init);
    }
  }

  /** Every list request of a screen is well formed. */
  predicate ListsValid(reqs: seq<Request>)
  {
    forall i :: 0 <= i < |reqs| && reqs[i].ListReq? ==> SectionsValid(reqs[i].sections)
  }

  /** With credentials, a working gateway and well-formed requests, every request
      of the screen delivers its text, one message each, in order. */
  lemma {:induction false} RunDeliversAll(contas: seq<Conta>, env: Env, contaId: Option<int>,
                                          to: string, from: string, reqs: seq<Request>)
    requires ChooseCredentials(contas, env, contaId).Some? && env.gatewayUp
    requires WithinButtonLimit(reqs) && ListsValid(reqs)
    ensures Run(contas, env, contaId, to, from, reqs).0 == Sent
    ensures |Run(contas, env, contaId, to, from, reqs).1| == |reqs|
    ensures forall i :: 0 <= i < |reqs| ==>
              Run(contas, env, contaId, to, from, reqs).1[i] == OutMsg(to, Some(from), Rendered(reqs[i]))
  {
    if reqs != [] {
      var init := reqs[..|reqs| - 1];
      assert forall i :: 0 <= i < |init| ==> init[i] == reqs[i];
      RunDeliversAll(contas, env, contaId, to, from, init);
    }
  }

  /** A screen of well-formed requests is all or nothing: whether it goes through
      depends only on the credentials and the gateway, so either every request
      is delivered or none is. */
  lemma AllOrNothing(contas: seq<Conta>, env: Env, contaId: Option<int>,
                     to: string, from: string, reqs: seq<Request>)
    requires WithinButtonLimit(reqs) && ListsValid(reqs)
    ensures var run := Run(contas, env, contaId, to, from, reqs);
            (run.0 == Sent && |run.1| == |reqs|) || run.1 == []
  {
    if reqs == [] {
    } else if ChooseCredentials(contas, env, contaId).None? {
      RunWithoutCredentials(contas, env, contaId, to, from, reqs);
    } else if !env.gatewayUp {
      assert reqs[..0] == [];
      RunStep(contas, env, contaId, to, from, reqs, 0);
      RunStopped(contas, env, contaId, to, from, reqs, 1);
    } else {
      RunDeliversAll(contas, env, contaId, to, from, reqs);
    }
  }

  // ---------------------------------------------------------------------------
  // The screens as request sequences
  // ---------------------------------------------------------------------------

  /** `send_initial_view`; `greeting` is the configured greeting, `None` when the
      configuration has none. */
  function InitialView(greeting: Option<string>): seq<Request>
  {
    [ButtonsReq(if greeting.Some? then greeting.value else DefaultGreeting, MainMenu)]
  }

  /** One list row per category. */
  function CategoryRows(categorias: seq<string>): seq<Row>
  {
    seq(|categorias|, i requires 0 <= i < |categorias| => Row("category_" + categorias[i], categorias[i]))
  }

  /** `send_categories_view` over the categories the catalogue lists. */
  function CategoriesView(categorias: seq<string>): seq<Request>
  {
    if categorias == [] then [TextReq(NoCatalog)]
    else [ListReq(CategoriesBody, CategoriesButton, [Section(CategoriesSection, Some(CategoryRows(categorias)))])]
  }

  function NotFoundText(categoryName: string): string
  {
    "Não encontrei produtos na categoria '" + categoryName + "'."
  }

  function HeaderText(categoryName: string): string
  {
    "Certo, aqui estão os produtos de *" + categoryName + "*:"
  }

  /** The card of one product: bold name, italic description, price. */
  function ProductText(p: ViewProduct): string
  {
    "*" + p.nome + "*\n"
    + "_" + (if p.descricao.Some? then p.descricao.value else NoDescription) + "_\n\n"
    + "Preço: R$ " + Money(p.precoCents)
  }

  function ProductButtons(id: int): seq<Button>
  {
    [Button("add_cart_" + IntToString(id), "🛒 Adicionar"), Button("more_details_" + IntToString(id), "+ Detalhes")]
  }

  function ProductRequest(p: ViewProduct): Request
  {
    ButtonsReq(ProductText(p), ProductButtons(p.id))
  }

  /** `send_products_from_category_view` over the products the catalogue lists. */
  function ProductsView(categoryName: string, produtos: seq<ViewProduct>): seq<Request>
  {
    if produtos == [] then [TextReq(NotFoundText(categoryName))]
    else [TextReq(HeaderText(categoryName))] + Cards(produtos)
  }

  /** One card per product, in order. */
  function Cards(produtos: seq<ViewProduct>): seq<Request>
  {
    seq(|produtos|, i requires 0 <= i < |produtos| => ProductRequest(produtos[i]))
  }

  /** `send_talk_to_human_view`. */
  function TalkToHumanView(): seq<Request>
  {
    [TextReq(TalkToHumanText)]
  }

  /** No screen asks for more than three buttons, so the limit check of the
      messaging helpers is never what stops a screen. */
  lemma ViewsWithinButtonLimit(greeting: Option<string>, categorias: seq<string>,
                               categoryName: string, produtos: seq<ViewProduct>)
    ensures WithinButtonLimit(InitialView(greeting))
    ensures WithinButtonLimit(CategoriesView(categorias))
    ensures WithinButtonLimit(ProductsView(categoryName, produtos))
    ensures WithinButtonLimit(TalkToHumanView())
  {
  }

  /** Every list a screen sends is well formed. */
  lemma ViewsListsValid(greeting: Option<string>, categorias: seq<string>,
                        categoryName: string, produtos: seq<ViewProduct>)
    ensures ListsValid(InitialView(greeting))
    ensures ListsValid(CategoriesView(categorias))
    ensures ListsValid(ProductsView(categoryName, produtos))
    ensures ListsValid(TalkToHumanView())
  {
  }

  /** A non-empty product list gives one header and then one card per product,
      in order, each with exactly its own add-to-cart and details buttons. */
  lemma ProductsViewShape(categoryName: string, produtos: seq<ViewProduct>)
    requires produtos != []
    ensures |ProductsView(categoryName, produtos)| == 1 + |produtos|
    ensures ProductsView(categoryName, produtos)[0] == TextReq(HeaderText(categoryName))
    ensures forall i :: 0 <= i < |produtos| ==>
              ProductsView(categoryName, produtos)[i + 1].ButtonsReq?
              && ProductsView(categoryName, produtos)[i + 1].buttons ==
                   [Button("add_cart_" + IntToString(produtos[i].id), "🛒 Adicionar"),
                    Button("more_details_" + IntToString(produtos[i].id), "+ Detalhes")]
  {
    ProductsViewCards(categoryName, produtos);
    var v := ProductsView(categoryName, produtos);
    var cards := Cards(produtos);
    forall i | 0 <= i < |produtos|
      ensures v[i + 1] == ProductRequest(produtos[i])
    {
      AfterHead(TextReq(HeaderText(categoryName)), cards, i);
    }
  }

  lemma ProductsViewCards(categoryName: string, produtos: seq<ViewProduct>)
    requires produtos != []
    ensures ProductsView(categoryName, produtos) == [TextReq(HeaderText(categoryName))] + Cards(produtos)
  {
  }

  /** The category list holds one row per category, in order, keyed by the
      category name. */
  lemma CategoriesViewShape(categorias: seq<string>)
    requires categorias != []
    ensures |CategoriesView(categorias)| == 1 && CategoriesView(categorias)[0].ListReq?
    ensures CategoriesView(categorias)[0].sections == [Section(CategoriesSection, Some(CategoryRows(categorias)))]
    ensures |CategoryRows(categorias)| == |categorias|
    ensures forall i :: 0 <= i < |categorias| ==>
              CategoryRows(categorias)[i].id == "category_" + categorias[i]
              && CategoryRows(categorias)[i].title == categorias[i]
  {
  }

  // ---------------------------------------------------------------------------
  // The screens as procedures
  // ---------------------------------------------------------------------------

  /** Sends the main menu with the configured greeting. */
  method SendInitialView(db: Store, env: Env, contaId: Option<int>, to: string, from: string,
                         greeting: Option<string>) returns (r: Status)
    modifies db`outbox
    ensures var run := Run(db.contas, env, contaId, to, from, InitialView(greeting));
            r == run.0 && db.outbox == old(db.outbox) + run.1
  {
    var body := if greeting.Some? then greeting.value else DefaultGreeting;
    r := SendReplyButtons(db, env, to, from, body, MainMenu, contaId);
    assert InitialView(greeting)[..0] == [];
  }

  /** Builds the rows of the category list with one append per category. */
  method BuildCategoryRows(categorias: seq<string>) returns (rows: seq<Row>)
    ensures |rows| == |categorias|
    ensures forall i :: 0 <= i < |categorias| ==> rows[i] == Row("category_" + categorias[i], categorias[i])
    ensures rows == CategoryRows(categorias)
  {
    rows := [];
    for i := 0 to |categorias|
      invariant |rows| == i
      invariant forall j :: 0 <= j < i ==> rows[j] == Row("category_" + categorias[j], categorias[j])
    {
      rows := rows + [Row("category_" + categorias[i], categorias[i])];
    }
  }

  /** Sends the category list, or the empty-catalogue text. */
  method SendCategoriesView(db: Store, env: Env, contaId: Option<int>, to: string, from: string,
                            categorias: seq<string>) returns (r: Status)
    modifies db`outbox
    ensures var run := Run(db.contas, env, contaId, to, from, CategoriesView(categorias));
            r == run.0 && db.outbox == old(db.outbox) + run.1
  {
    if categorias == [] {
      r := SendText(db, env, to, from, NoCatalog, contaId);
      assert CategoriesView(categorias)[..0] == [];
      return;
    }
    var rows := BuildCategoryRows(categorias);
    var sections := [Section(CategoriesSection, Some(rows))];
    r := SendListPicker(db, env, to, from, CategoriesBody, CategoriesButton, sections, contaId);
    assert CategoriesView(categorias)[..0] == [];
  }

  /** Sends the header and then one card per product, stopping at the first
      send that raises. */
  method SendProductsView(db: Store, env: Env, contaId: Option<int>, to: string, from: string,
                          categoryName: string, produtos: seq<ViewProduct>) returns (r: Status)
    modifies db`outbox
    ensures var run := Run(db.contas, env, contaId, to, from, ProductsView(categoryName, produtos));
            r == run.0 && db.outbox == old(db.outbox) + run.1
  {
    ghost var reqs := ProductsView(categoryName, produtos);
    ghost var contas := db.contas;
    if produtos == [] {
      r := SendText(db, env, to, from, NotFoundText(categoryName), contaId);
      RunOne(contas, env, contaId, to, from, reqs[0]);
      return;
    }
    ghost var header := [TextReq(HeaderText(categoryName))];
    ProductsViewCards(categoryName, produtos);
    r := SendText(db, env, to, from, HeaderText(categoryName), contaId);
    if r != Sent {
      RunFirstFails(contas, env, contaId, to, from, reqs);
      return;
    }
    assert db.outbox == old(db.outbox) + Msgs(to, from, header);
    SendCards(db, env, contaId, to, from, produtos);
    // Once the header went through, the credentials and the gateway are known
    // to work and a card has two buttons, so no card send can raise.
    assert forall i :: 0 <= i < |reqs| ==> Attempt(contas, env, contaId, reqs[i]) == Sent;
    RunAllSent(contas, env, contaId, to, from, reqs);
    MsgsAppend(to, from, header, Cards(produtos));
    AppendAssoc(old(db.outbox), Msgs(to, from, header), Msgs(to, from, Cards(produtos)));
  }

  /** A screen of one request sends it when it goes through. */
  lemma RunOne(contas: seq<Conta>, env: Env, contaId: Option<int>, to: string, from: string, req: Request)
    ensures var s := Attempt(contas, env, contaId, req);
            Run(contas, env, contaId, to, from, [req]) == (s, if s == Sent then [OutMsg(to, Some(from), Rendered(req))] else [])
  {
    assert [req][..0] == [];
    var m := OutMsg(to, Some(from), Rendered(req));
    assert Run(contas, env, contaId, to, from, []) == (Sent, []);
    assert [] + [m] == [m];
  }

  /** A screen whose first request raises sends nothing. */
  lemma RunFirstFails(contas: seq<Conta>, env: Env, contaId: Option<int>, to: string, from: string, reqs: seq<Request>)
    requires reqs != [] && Attempt(contas, env, contaId, reqs[0]) != Sent
    ensures Run(contas, env, contaId, to, from, reqs) == (Attempt(contas, env, contaId, reqs[0]), [])
  {
    RunOne(contas, env, contaId, to, from, reqs[0]);
    assert reqs[..1] == [reqs[0]];
    RunStopped(contas, env, contaId, to, from, reqs, 1);
  }

  /** Sends one card per product; once a text send is known to go through, every
      card does. */
  method SendCards(db: Store, env: Env, contaId: Option<int>, to: string, from: string, produtos: seq<ViewProduct>)
    requires TextStatus(db.contas, env, contaId) == Sent
    modifies db`outbox
    ensures db.outbox == old(db.outbox) + Msgs(to, from, Cards(produtos))
  {
    ghost var cards := Cards(produtos);
    for k := 0 to |produtos|
      invariant db.outbox == old(db.outbox) + Msgs(to, from, cards[..k])
    {
      var r := SendProductCard(db, env, contaId, to, from, produtos[k]);
      MsgsSnoc(to, from, cards, k);
    }
    assert cards[..|produtos|] == cards;
  }

  /** The messages that reach the gateway when every request goes through. */
  function Msgs(to: string, from: string, reqs: seq<Request>): seq<OutMsg>
  {
    seq(|reqs|, i requires 0 <= i < |reqs| => OutMsg(to, Some(from), Rendered(reqs[i])))
  }

  lemma MsgsAppend(to: string, from: string, a: seq<Request>, b: seq<Request>)
    ensures Msgs(to, from, a + b) == Msgs(to, from, a) + Msgs(to, from, b)
  {
  }

  lemma MsgsSnoc(to: string, from: string, reqs: seq<Request>, k: nat)
    requires k < |reqs|
    ensures Msgs(to, from, reqs[..k + 1]) == Msgs(to, from, reqs[..k]) + [OutMsg(to, Some(from), Rendered(reqs[k]))]
  {
  }

  /** When every request of a screen goes through, all of them are sent, in
      order. */
  lemma {:induction false} RunAllSent(contas: seq<Conta>, env: Env, contaId: Option<int>, to: string, from: string,
                                      reqs: seq<Request>)
    requires forall i :: 0 <= i < |reqs| ==> Attempt(contas, env, contaId, reqs[i]) == Sent
    ensures Run(contas, env, contaId, to, from, reqs) == (Sent, Msgs(to, from, reqs))
  {
    if reqs != [] {
      var n := |reqs| - 1;
      RunAllSent(contas, env, contaId, to, from, reqs[..n]);
      assert reqs[..n + 1] == reqs;
      MsgsSnoc(to, from, reqs, n);
    } else {
      assert |Msgs(to, from, reqs)| == 0;
    }
  }

  /** Sends the card of one product with its two buttons. */
  method SendProductCard(db: Store, env: Env, contaId: Option<int>, to: string, from: string, p: ViewProduct)
    returns (r: Status)
    modifies db`outbox
    ensures r == Attempt(db.contas, env, contaId, ProductRequest(p))
    ensures db.outbox == old(db.outbox) + if r == Sent then [OutMsg(to, Some(from), Rendered(ProductRequest(p)))] else []
  {
    var text := "*" + p.nome + "*\n";
    text := text + "_" + (if p.descricao.Some? then p.descricao.value else NoDescription) + "_\n\n";
    text := text + "Preço: R$ " + Money(p.precoCents);
    r := SendReplyButtons(db, env, to, from, text, ProductButtons(p.id), contaId);
  }

  /** Once a prefix of the requests has raised, the rest changes nothing. */
  lemma {:induction false} RunStopped(contas: seq<Conta>, env: Env, contaId: Option<int>, to: string, from: string,
                                      reqs: seq<Request>, k: nat)
    requires k <= |reqs|
    requires Run(contas, env, contaId, to, from, reqs[..k]).0 != Sent
    ensures Run(contas, env, contaId, to, from, reqs) == Run(contas, env, contaId, to, from, reqs[..k])
    decreases |reqs| - k
  {
    if k < |reqs| {
      RunStep(contas, env, contaId, to, from, reqs, k);
      RunStopped(contas, env, contaId, to, from, reqs, k + 1);
    } else {
      assert reqs[..k] == reqs;
    }
  }

  /** Sends the fixed hand-over text. */
  method SendTalkToHumanView(db: Store, env: Env, contaId: Option<int>, to: string, from: string)
    returns (r: Status)
    modifies db`outbox
    ensures var run := Run(db.contas, env, contaId, to, from, TalkToHumanView());
            r == run.0 && db.outbox == old(db.outbox) + run.1
  {
    r := SendText(db, env, to, from, TalkToHumanText, contaId);
    assert TalkToHumanView()[..0] == [];
  }
}
