/** The shopkeeper's product list (routes/ver_produtos.py, `ver_produtos`): the
    filter query built from the optional name, category and status fields, the
    rows it selects, and the distinct sorted categories offered as a filter. */
module ProductsPanel {
  import opened Text
  import opened Database
  import opened Sorting

  const SelectHead := "SELECT id, nome, descricao, "
  const SelectTail := "preco, categoria, ativo, imagem "
  const FromWhere := "FROM produtos WHERE TRUE"
  const BaseQuery := SelectHead + SelectTail + FromWhere
  const NameHead := " AND nome ILIKE "
  const NameClause := NameHead + "%s"
  const CategoryHead := " AND categoria = "
  const CategoryClause := CategoryHead + "%s"
  const AtivoHead := " AND ativo = "
  const ActiveClause := AtivoHead + "TRUE"
  const InactiveClause := AtivoHead + "FALSE"
  const OrderHead := " ORDER BY "
  const OrderClause := OrderHead + "id"

  /** A parameterised SQL statement and its parameters, in placeholder order. */
  datatype Query = Query(sql: string, params: seq<string>)

  /** The pieces the statement is assembled from. */
  datatype Clause = Base | NameLike | CategoryEq | IsActive | IsInactive | OrderById

  function ClauseText(c: Clause): string
  {
    match c
    case Base => BaseQuery
    case NameLike => NameClause
    case CategoryEq => CategoryClause
    case IsActive => ActiveClause
    case IsInactive => InactiveClause
    case OrderById => OrderClause
  }

  /** A clause that carries a `%s` placeholder. */
  predicate TakesParam(c: Clause)
  {
    c == NameLike || c == CategoryEq
  }

  /** The texts of a clause sequence, clause by clause. */
  function Texts(cs: seq<Clause>): seq<string>
  {
    seq(|cs|, i requires 0 <= i < |cs| => ClauseText(cs[i]))
  }

  /** The texts joined in order. */
  function Concat(ts: seq<string>): string
  {
    if ts == [] then "" else Concat(ts[..|ts| - 1]) + ts[|ts| - 1]
  }

  /** The statement text of a clause sequence. */
  function Render(cs: seq<Clause>): string
  {
    Concat(Texts(cs))
  }

  // ---------------------------------------------------------------------------
  // The query builder
  // ---------------------------------------------------------------------------

  /** The clause a status filter adds, compared case-insensitively. */
  function StatusClauses(status: string): seq<Clause>
  {
    if status == [] then []
    else if Lower(status) == "ativo" then [IsActive]
    else if Lower(status) == "inativo" then [IsInactive]
    else []
  }

  /** The clauses for the stripped filter fields: the base selection, then one
      per non-empty filter in the order name, category, status, then the
      ordering by id. */
  function Clauses(nome: string, categoria: string, status: string): seq<Clause>
  {
    [Base] + (if nome != [] then [NameLike] else []) + (if categoria != [] then [CategoryEq] else [])
    + StatusClauses(status) + [OrderById]
  }

  /** The name filter's pattern: the name wrapped in `%` wildcards. */
  function NamePattern(nome: string): string
  {
    "%" + nome + "%"
  }

  /** The parameters: the name pattern, then the category. */
  function Params(nome: string, categoria: string): seq<string>
  {
    (if nome != [] then [NamePattern(nome)] else []) + (if categoria != [] then [categoria] else [])
  }

  function QueryFor(nome: string, categoria: string, status: string): Query
  {
    Query(Render(Clauses(nome, categoria, status)), Params(nome, categoria))
  }

  lemma TextsAppend(a: seq<Clause>, b: seq<Clause>)
    ensures Texts(a + b) == Texts(a) + Texts(b)
  {
    assert forall i :: 0 <= i < |a| ==> (a + b)[i] == a[i];
    assert forall i :: |a| <= i < |a + b| ==> (a + b)[i] == b[i - |a|];
  }

  lemma {:induction false} ConcatAppend(a: seq<string>, b: seq<string>)
    ensures Concat(a + b) == Concat(a) + Concat(b)
    decreases |b|
  {
    if b == [] {
      assert a + b == a;
    } else {
      var n := |b| - 1;
      assert (a + b)[..|a + b| - 1] == a + b[..n];
      ConcatAppend(a, b[..n]);
    }
  }

  lemma RenderAppend(a: seq<Clause>, b: seq<Clause>)
    ensures Render(a + b) == Render(a) + Render(b)
  {
    TextsAppend(a, b);
    ConcatAppend(Texts(a), Texts(b));
  }

  lemma RenderOne(c: Clause)
    ensures Render([c]) == ClauseText(c)
  {
    var ts := Texts([c]);
    assert ts[..0] == [];
    assert Concat(ts) == Concat([]) + ts[0];
    assert [] + ts[0] == ts[0];
  }

  lemma RenderSnoc(cs: seq<Clause>, c: Clause)
    ensures Render(cs + [c]) == Render(cs) + ClauseText(c)
  {
    RenderAppend(cs, [c]);
    RenderOne(c);
  }

  /** Builds the statement step by step from the request fields, which the
      page has already stripped. Alongside the text, the ghost `cs` records the
      clauses appended so far. */
  method BuildQuery(nome: string, categoria: string, status: string) returns (q: Query)
    ensures q == QueryFor(nome, categoria, status)
  {
    var query := BaseQuery;
    var params: seq<string> := [];
    ghost var cs := [Base];
    RenderOne(Base);
    if nome != [] {
      RenderSnoc(cs, NameLike);
      query := query + NameClause;
      params := params + [NamePattern(nome)];
      cs := cs + [NameLike];
    }
    assert cs == [Base] + (if nome != [] then [NameLike] else []);
    if categoria != [] {
      RenderSnoc(cs, CategoryEq);
      query := query + CategoryClause;
      params := params + [categoria];
      cs := cs + [CategoryEq];
    }
    assert params == Params(nome, categoria);
    ghost var filtered := cs;
    assert filtered == [Base] + (if nome != [] then [NameLike] else [])
      + (if categoria != [] then [CategoryEq] else []);
    if status != [] {
      var lowered := Lower(status);
      if lowered == "ativo" {
        RenderSnoc(cs, IsActive);
        query := query + ActiveClause;
        cs := cs + [IsActive];
      } else if lowered == "inativo" {
        RenderSnoc(cs, IsInactive);
        query := query + InactiveClause;
        cs := cs + [IsInactive];
      }
    }
    assert cs == filtered + StatusClauses(status);
    RenderSnoc(cs, OrderById);
    query := query + OrderClause;
    cs := cs + [OrderById];
    q := Query(query, params);
  }

  /** The number of `%s` placeholders in a statement. */
  function Placeholders(s: string): nat
  {
    if |s| < 2 then 0 else (if s[0] == '%' && s[1] == 's' then 1 else 0) + Placeholders(s[1..])
  }

  predicate NoPercent(s: string)
  {
    forall i :: 0 <= i < |s| ==> s[i] != '%'
  }

  lemma {:induction false} NoPercentNoPlaceholder(s: string)
    requires NoPercent(s)
    ensures Placeholders(s) == 0
  {
    if |s| >= 2 {
      NoPercentNoPlaceholder(s[1..]);
    }
  }

  lemma NoPercentAppend(a: string, b: string)
    requires NoPercent(a) && NoPercent(b)
    ensures NoPercent(a + b)
  {
    forall i | 0 <= i < |a + b|
      ensures (a + b)[i] != '%'
    {
      if i >= |a| {
        assert (a + b)[i] == b[i - |a|];
      }
    }
  }

  /** Placeholders add up across a concatenation whose left part does not end
      with `%`. */
  lemma {:induction false} PlaceholdersAppend(a: string, b: string)
    requires a == [] || a[|a| - 1] != '%'
    ensures Placeholders(a + b) == Placeholders(a) + Placeholders(b)
  {
    if a == [] {
      assert a + b == b;
    } else if |a| == 1 {
      if |b| >= 1 {
        assert (a + b)[1..] == b;
      }
    } else {
      assert (a + b)[1..] == a[1..] + b;
      PlaceholdersAppend(a[1..], b);
    }
  }

  /** A clause made of a fixed text and one trailing placeholder. */
  lemma OnePlaceholder(head: string)
    requires NoPercent(head)
    ensures Placeholders(head + "%s") == 1
    ensures (head + "%s")[|head + "%s"| - 1] == 's'
  {
    NoPercentNoPlaceholder(head);
    assert head == [] || head[|head| - 1] != '%';
    PlaceholdersAppend(head, "%s");
  }

  /** A fixed clause without `%` holds no placeholder and does not end in `%`. */
  lemma FixedClause(s: string)
    requires s != [] && NoPercent(s)
    ensures Placeholders(s) == 0 && s[|s| - 1] != '%'
  {
    NoPercentNoPlaceholder(s);
  }

  lemma BaseShape()
    ensures Placeholders(BaseQuery) == 0 && BaseQuery != [] && BaseQuery[|BaseQuery| - 1] != '%'
  {
    assert NoPercent(SelectHead);
    assert NoPercent(SelectTail);
    assert NoPercent(FromWhere);
    NoPercentAppend(SelectHead, SelectTail);
    NoPercentAppend(SelectHead + SelectTail, FromWhere);
    FixedClause(BaseQuery);
  }

  lemma NameShape()
    ensures Placeholders(NameClause) == 1 && NameClause[|NameClause| - 1] == 's'
  {
    assert NoPercent(NameHead);
    OnePlaceholder(NameHead);
  }

  lemma CategoryShape()
    ensures Placeholders(CategoryClause) == 1 && CategoryClause[|CategoryClause| - 1] == 's'
  {
    assert NoPercent(CategoryHead);
    OnePlaceholder(CategoryHead);
  }

  lemma ActiveShape()
    ensures Placeholders(ActiveClause) == 0 && ActiveClause != [] && ActiveClause[|ActiveClause| - 1] != '%'
  {
    assert NoPercent(AtivoHead) && NoPercent("TRUE");
    NoPercentAppend(AtivoHead, "TRUE");
    FixedClause(ActiveClause);
  }

  lemma InactiveShape()
    ensures Placeholders(InactiveClause) == 0 && InactiveClause != []
    ensures InactiveClause[|InactiveClause| - 1] != '%'
  {
    assert NoPercent(AtivoHead) && NoPercent("FALSE");
    NoPercentAppend(AtivoHead, "FALSE");
    FixedClause(InactiveClause);
  }

  lemma OrderShape()
    ensures Placeholders(OrderClause) == 0 && OrderClause != [] && OrderClause[|OrderClause| - 1] != '%'
  {
    assert NoPercent(OrderHead) && NoPercent("id");
    NoPercentAppend(OrderHead, "id");
    FixedClause(OrderClause);
  }

  /** Each clause holds one placeholder when it takes a parameter and none
      otherwise, and none ends in `%`. */
  lemma ClausePlaceholders(c: Clause)
    ensures Placeholders(ClauseText(c)) == if TakesParam(c) then 1 else 0
    ensures ClauseText(c) != [] && ClauseText(c)[|ClauseText(c)| - 1] != '%'
  {
    match c
    case Base => BaseShape();
    case NameLike => NameShape();
    case CategoryEq => CategoryShape();
    case IsActive => ActiveShape();
    case IsInactive => InactiveShape();
    case OrderById => OrderShape();
  }

  function ParamClauses(cs: seq<Clause>): nat
  {
    if cs == [] then 0 else ParamClauses(cs[..|cs| - 1]) + if TakesParam(cs[|cs| - 1]) then 1 else 0
  }

  lemma {:induction false} RenderPlaceholders(cs: seq<Clause>)
    ensures Placeholders(Render(cs)) == ParamClauses(cs)
    ensures Render(cs) == [] || Render(cs)[|Render(cs)| - 1] != '%'
  {
    if cs != [] {
      var init := cs[..|cs| - 1];
      var c := cs[|cs| - 1];
      assert cs == init + [c];
      RenderSnoc(init, c);
      RenderPlaceholders(init);
      ClausePlaceholders(c);
      PlaceholdersAppend(Render(init), ClauseText(c));
      var r := Render(init) + ClauseText(c);
      assert r[|r| - 1] == ClauseText(c)[|ClauseText(c)| - 1];
    }
  }

  lemma {:induction false} ParamClausesAppend(a: seq<Clause>, b: seq<Clause>)
    ensures ParamClauses(a + b) == ParamClauses(a) + ParamClauses(b)
    decreases |b|
  {
    if b == [] {
      assert a + b == a;
    } else {
      var n := |b| - 1;
      assert (a + b)[..|a + b| - 1] == a + b[..n];
      ParamClausesAppend(a, b[..n]);
    }
  }

  lemma ParamClausesOne(c: Clause)
    ensures ParamClauses([c]) == if TakesParam(c) then 1 else 0
  {
    assert [c][..0] == [];
  }

  /** The statement has exactly one placeholder per parameter, so the driver
      always receives a matching parameter list. */
  lemma PlaceholdersMatchParams(nome: string, categoria: string, status: string)
    ensures Placeholders(QueryFor(nome, categoria, status).sql) == |QueryFor(nome, categoria, status).params|
  {
    RenderPlaceholders(Clauses(nome, categoria, status));
    ClausesTakingParams(nome, categoria, status);
  }

  /** The name and the category clauses are the ones that take a parameter. */
  lemma ClausesTakingParams(nome: string, categoria: string, status: string)
    ensures ParamClauses(Clauses(nome, categoria, status)) == |Params(nome, categoria)|
  {
    var na := if nome != [] then [NameLike] else [];
    var ca := if categoria != [] then [CategoryEq] else [];
    var st := StatusClauses(status);
    ParamClausesAppend([Base] + na + ca + st, [OrderById]);
    ParamClausesAppend([Base] + na + ca, st);
    ParamClausesAppend([Base] + na, ca);
    ParamClausesAppend([Base], na);
    ParamClausesOne(Base);
    ParamClausesOne(OrderById);
    if nome != [] { ParamClausesOne(NameLike); }
    if categoria != [] { ParamClausesOne(CategoryEq); }
    if st != [] { ParamClausesOne(st[0]); }
  }

  /** A text framed by a fixed head and tail starts with the head and ends with
      the tail. */
  lemma Framed(head: string, mid: string, tail: string)
    ensures StartsWith(head + mid + tail, head)
    ensures var t := head + mid + tail; t[|t| - |tail|..] == tail
  {
    var t := head + mid + tail;
    assert t[..|head|] == head;
    assert t[|t| - |tail|..] == tail;
  }

  /** The clauses between the base selection and the ordering. */
  function Filters(nome: string, categoria: string, status: string): seq<Clause>
  {
    (if nome != [] then [NameLike] else []) + (if categoria != [] then [CategoryEq] else [])
    + StatusClauses(status)
  }

  lemma RenderFramed(mid: seq<Clause>)
    ensures Render([Base] + mid + [OrderById]) == BaseQuery + Render(mid) + OrderClause
  {
    RenderAppend([Base] + mid, [OrderById]);
    RenderAppend([Base], mid);
    RenderOne(Base);
    RenderOne(OrderById);
  }

  /** The statement always starts with the base selection and ends with the
      ordering. */
  lemma QueryFrame(nome: string, categoria: string, status: string)
    ensures var sql := QueryFor(nome, categoria, status).sql;
            && StartsWith(sql, BaseQuery)
            && |sql| >= |OrderClause|
            && sql[|sql| - |OrderClause|..] == OrderClause
  {
    var mid := Filters(nome, categoria, status);
    assert Clauses(nome, categoria, status) == [Base] + mid + [OrderById];
    RenderFramed(mid);
    var sql := QueryFor(nome, categoria, status).sql;
    assert sql == BaseQuery + Render(mid) + OrderClause;
    Framed(BaseQuery, Render(mid), OrderClause);
  }

  /** With no filter the statement is the base selection and the ordering, with
      no parameters. */
  lemma QueryWithoutFilters(nome: string, categoria: string, status: string)
    requires nome == [] && categoria == [] && StatusClauses(status) == []
    ensures QueryFor(nome, categoria, status) == Query(BaseQuery + OrderClause, [])
  {
    assert Clauses(nome, categoria, status) == [Base] + [] + [OrderById];
    RenderFramed([]);
    assert Render([]) == [];
    assert BaseQuery + [] == BaseQuery;
  }

  // ---------------------------------------------------------------------------
  // What the query selects
  // ---------------------------------------------------------------------------

  /** A product passes the stripped filters: the name contains the text (case
      ignored), the category is equal, and the status matches. */
  predicate Matches(p: Product, nome: string, categoria: string, status: string)
  {
    && (nome != [] ==> Contains(Lower(p.nome), Lower(nome)))
    && (categoria != [] ==> p.categoria == Some(categoria))
    && (Lower(status) == "ativo" ==> p.ativo)
    && (Lower(status) == "inativo" ==> !p.ativo)
  }

  /** The matching products in table order. */
  function Filter(produtos: seq<Product>, nome: string, categoria: string, status: string): (r: seq<Product>)
    ensures forall p :: p in r <==> p in produtos && Matches(p, nome, categoria, status)
    ensures |r| <= |produtos|
  {
    if produtos == [] then []
    else
      var init := produtos[..|produtos| - 1];
      var last := produtos[|produtos| - 1];
      assert produtos == init + [last];
      Filter(init, nome, categoria, status) + if Matches(last, nome, categoria, status) then [last] else []
  }

  /** The rows `ver_produtos` lists: the matches ordered by id; nothing when the
      database cannot be reached. */
  function Listed(produtos: seq<Product>, nome: string, categoria: string, status: string, dbUp: bool): seq<Product>
  {
    if !dbUp then [] else SortBy(Filter(produtos, nome, categoria, status), (p: Product) => p.id)
  }

  // ---------------------------------------------------------------------------
  // categorias_unicas
  // ---------------------------------------------------------------------------

  predicate StrictlyAscending(s: seq<string>)
  {
    forall i, j :: 0 <= i < j < |s| ==> Less(s[i], s[j])
  }

  /** Adds a category to a strictly ascending list, keeping it so. */
  function InsertCategory(c: string, s: seq<string>): (r: seq<string>)
    requires StrictlyAscending(s)
    ensures StrictlyAscending(r)
    ensures forall x :: x in r <==> x in s || x == c
  {
    if s == [] then [c]
    else if c == s[0] then s
    else if Less(c, s[0]) then
      assert forall j :: 0 < j < |s| ==> Less(s[0], s[j]);
      forall j | 0 < j < |s|
        ensures Less(c, s[j])
      {
        LessTransitive(c, s[0], s[j]);
      }
      [c] + s
    else
      LessTotal(c, s[0]);
      var rest := InsertCategory(c, s[1..]);
      assert forall x :: x in s[1..] ==> Less(s[0], x);
      [s[0]] + rest
  }

  /** The product has a category, and it is `c`. */
  predicate HasCategory(ps: seq<Product>, c: string)
  {
    exists i :: 0 <= i < |ps| && ps[i].categoria == Some(c) && c != []
  }

  /** `sorted(set(...))` of the non-empty categories of the listed products. */
  function UniqueCategories(ps: seq<Product>): (r: seq<string>)
    ensures StrictlyAscending(r)
    ensures forall c :: c in r <==> HasCategory(ps, c)
  {
    if ps == [] then []
    else
      var init := ps[..|ps| - 1];
      var last := ps[|ps| - 1];
      var prev := UniqueCategories(init);
      assert forall c :: HasCategory(init, c) ==> HasCategory(ps, c) by {
        forall c | HasCategory(init, c)
          ensures HasCategory(ps, c)
        {
          var i :| 0 <= i < |init| && init[i].categoria == Some(c) && c != [];
          assert ps[i] == init[i];
        }
      }
      assert forall c :: HasCategory(ps, c) ==> HasCategory(init, c) || last.categoria == Some(c) by {
        forall c | HasCategory(ps, c)
          ensures HasCategory(init, c) || last.categoria == Some(c)
        {
          var i :| 0 <= i < |ps| && ps[i].categoria == Some(c) && c != [];
          if i < |init| {
            assert init[i] == ps[i];
          }
        }
      }
      if Truthy(last.categoria) then InsertCategory(last.categoria.value, prev) else prev
  }

  /** A category repeated in the list appears once. */
  lemma CategoriesDistinct(ps: seq<Product>)
    ensures forall i, j :: 0 <= i < j < |UniqueCategories(ps)| ==> UniqueCategories(ps)[i] != UniqueCategories(ps)[j]
  {
    var r := UniqueCategories(ps);
    forall i, j | 0 <= i < j < |r|
      ensures r[i] != r[j]
    {
      LessIrreflexive(r[i]);
    }
  }

  // ---------------------------------------------------------------------------
  // The page
  // ---------------------------------------------------------------------------

  /** `ver_produtos`: the listed products and the category options. */
  function ProductsPage(produtos: seq<Product>, nomeArg: string, categoriaArg: string, statusArg: string, dbUp: bool)
    : (seq<Product>, seq<string>)
  {
    var listed := Listed(produtos, Strip(nomeArg), Strip(categoriaArg), Strip(statusArg), dbUp);
    (listed, UniqueCategories(listed))
  }

  /** The page lists exactly the matching products, ordered by id, and offers
      their distinct non-empty categories in ascending order; when the database
      fails both lists are empty. */
  lemma ProductsPageCorrect(produtos: seq<Product>, nomeArg: string, categoriaArg: string, statusArg: string, dbUp: bool)
    ensures var (listed, cats) := ProductsPage(produtos, nomeArg, categoriaArg, statusArg, dbUp);
            var (nome, categoria, status) := (Strip(nomeArg), Strip(categoriaArg), Strip(statusArg));
            && (!dbUp ==> listed == [] && cats == [])
            && (dbUp ==> multiset(listed) == multiset(Filter(produtos, nome, categoria, status)))
            && (dbUp ==> forall p :: p in listed <==> p in produtos && Matches(p, nome, categoria, status))
            && (forall i, j :: 0 <= i < j < |listed| ==> listed[i].id <= listed[j].id)
            && StrictlyAscending(cats)
            && (forall c :: c in cats <==> HasCategory(listed, c))
  {
    var (nome, categoria, status) := (Strip(nomeArg), Strip(categoriaArg), Strip(statusArg));
    if dbUp {
      var f := Filter(produtos, nome, categoria, status);
      forall p
        ensures p in Listed(produtos, nome, categoria, status, dbUp) <==> p in f
      {
        SortByMembers(f, (p: Product) => p.id, p);
      }
    }
  }

  /** The page for the stripped filter fields: runs the statement, copies the
      fetched rows and collects their categories; nothing when the database is
      unreachable. */
  method ListProducts(db: Store, env: Env, nome: string, categoria: string, status: string)
    returns (produtos: seq<Product>, categorias: seq<string>)
    ensures produtos == Listed(db.produtos, nome, categoria, status, env.dbUp)
    ensures categorias == UniqueCategories(produtos)
  {
    // The statement is what the driver runs; `Listed` is what it selects.
    var q := BuildQuery(nome, categoria, status);
    if !env.dbUp {
      return [], [];
    }
    var rows := Listed(db.produtos, nome, categoria, status, env.dbUp);
    produtos := [];
    for i := 0 to |rows|
      invariant produtos == rows[..i]
    {
      produtos := produtos + [rows[i]];
    }
    assert rows[..|rows|] == rows;
    categorias := UniqueCategories(produtos);
  }

  /** `ver_produtos`: strips the three filter fields and lists the page. */
  method ShowProducts(db: Store, env: Env, nomeArg: string, categoriaArg: string, statusArg: string)
    returns (produtos: seq<Product>, categorias: seq<string>)
    ensures (produtos, categorias) == ProductsPage(db.produtos, nomeArg, categoriaArg, statusArg, env.dbUp)
  {
    produtos, categorias := ListProducts(db, env, Strip(nomeArg), Strip(categoriaArg), Strip(statusArg));
  }
}
