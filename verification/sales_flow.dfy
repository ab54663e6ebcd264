/** The sales flow (utils/fluxo_vendas.py): the product listing by name
    fragment, and the cart table keyed by (telefone, id_produto).
    None of these operations is scoped to a tenant. */
module SalesFlow {
  import opened Text
  import opened Database

  const NoProductInCategory := "Nenhum produto encontrado nessa categoria."
  const ListingHeader := "Produtos encontrados:\n"
  const ListingTrailer := "\nDigite o número do produto para adicionar ao carrinho."
  const AddedToCart := "Produto adicionado ao carrinho!"
  const EmptyCart := "Seu carrinho está vazio."
  const CartHeader := "Seu carrinho:\n"

  // ---------------------------------------------------------------------------
  // listar_produtos_categoria
  // ---------------------------------------------------------------------------

  /** The `LOWER(nome) LIKE '%<fragment>%'` condition. */
  predicate NameMatches(p: Product, fragment: string)
  {
    Contains(Lower(p.nome), Lower(fragment))
  }

  /** The rows the listing query returns, in table order: every product, of any
      tenant and active or not, whose lower-cased name contains the lower-cased
      fragment. */
  function ProductsNamed(produtos: seq<Product>, fragment: string): (r: seq<Product>)
    ensures forall p :: p in r <==> p in produtos && NameMatches(p, fragment)
    ensures |r| <= |produtos|
  {
    if produtos == [] then []
    else
      var init := ProductsNamed(produtos[..|produtos| - 1], fragment);
      var last := produtos[|produtos| - 1];
      assert produtos == produtos[..|produtos| - 1] + [last];
      if NameMatches(last, fragment) then init + [last] else init
  }

  /** The query keeps table order: filtering a concatenation filters each part. */
  lemma {:induction false} ProductsNamedAppend(a: seq<Product>, b: seq<Product>, fragment: string)
    ensures ProductsNamed(a + b, fragment) == ProductsNamed(a, fragment) + ProductsNamed(b, fragment)
    decreases |b|
  {
    if b == [] {
      assert a + b == a;
    } else {
      var b' := b[..|b| - 1];
      assert (a + b)[..|a + b| - 1] == a + b';
      ProductsNamedAppend(a, b', fragment);
    }
  }

  /** One line of the listing: id, capitalised name and price. */
  function ListingLine(p: Product): string
  {
    IntToString(p.id) + ". " + Capitalize(p.nome) + " - R$ " + Money(p.precoCents) + "\n"
  }

  function ListingLines(ps: seq<Product>): string
  {
    if ps == [] then [] else ListingLines(ps[..|ps| - 1]) + ListingLine(ps[|ps| - 1])
  }

  lemma ListingLinesStep(ps: seq<Product>, i: nat)
    requires i < |ps|
    ensures ListingLines(ps[..i + 1]) == ListingLines(ps[..i]) + ListingLine(ps[i])
  {
    assert ps[..i + 1][..i] == ps[..i];
  }

  /** The reply for a list of matched products. */
  function ListingText(ps: seq<Product>): string
  {
    if ps == [] then NoProductInCategory else ListingHeader + ListingLines(ps) + ListingTrailer
  }

  /** Only the empty match list produces the "none found" reply. */
  lemma ListingTextEmptyIff(ps: seq<Product>)
    ensures ListingText(ps) == NoProductInCategory <==> ps == []
  {
    if ps != [] {
      assert |ListingText(ps)| >= |ListingHeader| + |ListingTrailer| > |NoProductInCategory|;
    }
  }

  /** `listar_produtos_categoria`: the matched products, one line each in query
      order between the header and the trailer, or the fixed "none found" reply. */
  method ListProductsInCategory(db: Store, categoria: string) returns (r: string)
    ensures r == ListingText(ProductsNamed(db.produtos, categoria))
    ensures r == NoProductInCategory <==> ProductsNamed(db.produtos, categoria) == []
  {
    var produtos := ProductsNamed(db.produtos, categoria);
    ListingTextEmptyIff(produtos);
    if produtos == [] {
      r := NoProductInCategory;
    } else {
      var linhas := "";
      var i := 0;
      while i < |produtos|
        invariant 0 <= i <= |produtos|
        invariant linhas == ListingLines(produtos[..i])
      {
        ListingLinesStep(produtos, i);
        linhas := linhas + ListingLine(produtos[i]);
        i := i + 1;
      }
      assert produtos[..i] == produtos;
      r := ListingHeader + linhas + ListingTrailer;
    }
  }

  /** A product whose name contains the fragment is listed whatever its tenant and
      whether or not it is active. */
  lemma ListingIgnoresTenantAndStatus(produtos: seq<Product>, p: Product, fragment: string)
    requires p in produtos && NameMatches(p, fragment)
    ensures p in ProductsNamed(produtos, fragment)
    ensures ListingText(ProductsNamed(produtos, fragment)) != NoProductInCategory
  {
    var ps := ProductsNamed(produtos, fragment);
    assert |ListingText(ps)| > |NoProductInCategory|;
  }

  // ---------------------------------------------------------------------------
  // adicionar_ao_carrinho
  // ---------------------------------------------------------------------------

  predicate HasKey(row: CartRow, telefone: string, idProduto: int)
  {
    row.telefone == telefone && row.idProduto == idProduto
  }

  /** No two cart rows share a (telefone, id_produto) key. */
  ghost predicate KeysUnique(rows: seq<CartRow>)
  {
    forall i, j :: 0 <= i < j < |rows| ==> !HasKey(rows[j], rows[i].telefone, rows[i].idProduto)
  }

  /** The position of the first row with the key, or `|rows|` when there is none. */
  function FindKey(rows: seq<CartRow>, telefone: string, idProduto: int): (k: nat)
    ensures k <= |rows|
    ensures k < |rows| ==> HasKey(rows[k], telefone, idProduto)
    ensures forall j :: 0 <= j < k ==> !HasKey(rows[j], telefone, idProduto)
  {
    if rows == [] then 0
    else if HasKey(rows[0], telefone, idProduto) then 0
    else 1 + FindKey(rows[1..], telefone, idProduto)
  }

  /** The quantity stored under a key, 0 when the key is absent. */
  function Quantity(rows: seq<CartRow>, telefone: string, idProduto: int): int
  {
    var k := FindKey(rows, telefone, idProduto);
    if k < |rows| then rows[k].quantidade else 0
  }

  /** The upsert `INSERT ... VALUES (telefone, id, 1) ON CONFLICT DO UPDATE SET
      quantidade = quantidade + 1`. */
  function Increment(rows: seq<CartRow>, telefone: string, idProduto: int): (r: seq<CartRow>)
    ensures |r| == |rows| || r == rows + [CartRow(telefone, idProduto, 1)]
  {
    var k := FindKey(rows, telefone, idProduto);
    if k < |rows| then rows[k := CartRow(telefone, idProduto, rows[k].quantidade + 1)]
    else rows + [CartRow(telefone, idProduto, 1)]
  }

  /** The upsert adds one to the quantity under its key and touches no other
      key's quantity. */
  lemma IncrementQuantity(rows: seq<CartRow>, telefone: string, idProduto: int, t: string, p: int)
    ensures Quantity(Increment(rows, telefone, idProduto), t, p)
         == Quantity(rows, t, p) + (if t == telefone && p == idProduto then 1 else 0)
  {
    var r := Increment(rows, telefone, idProduto);
    var k := FindKey(rows, telefone, idProduto);
    if k < |rows| {
      FindKeySame(rows, r, t, p, k);
    } else {
      assert r[..|rows|] == rows;
      FindKeyPrefix(rows, r, t, p);
      if t == telefone && p == idProduto {
        FindKeyIsFirst(r, t, p, |rows|);
      }
    }
  }

  /** The upsert keeps the keys unique. */
  lemma IncrementKeepsKeysUnique(rows: seq<CartRow>, telefone: string, idProduto: int)
    requires KeysUnique(rows)
    ensures KeysUnique(Increment(rows, telefone, idProduto))
  {
    var r := Increment(rows, telefone, idProduto);
    var k := FindKey(rows, telefone, idProduto);
    forall i, j | 0 <= i < j < |r|
      ensures !HasKey(r[j], r[i].telefone, r[i].idProduto)
    {
      if j < |rows| {
        assert HasKey(r[i], rows[i].telefone, rows[i].idProduto) && HasKey(r[j], rows[j].telefone, rows[j].idProduto);
      } else {
        assert r[i] == rows[i] && !HasKey(rows[i], telefone, idProduto);
      }
    }
  }

  /** Rewriting a row with a row of the same key does not move any key's first
      occurrence. */
  lemma FindKeySame(rows: seq<CartRow>, r: seq<CartRow>, t: string, p: int, k: nat)
    requires k < |rows| && |r| == |rows|
    requires forall j :: 0 <= j < |rows| && j != k ==> r[j] == rows[j]
    requires r[k].telefone == rows[k].telefone && r[k].idProduto == rows[k].idProduto
    ensures FindKey(r, t, p) == FindKey(rows, t, p)
  {
    var a := FindKey(rows, t, p);
    assert forall j :: 0 <= j < |rows| ==> (HasKey(r[j], t, p) <==> HasKey(rows[j], t, p));
    FindKeyIsFirst(r, t, p, a);
  }

  /** Appending a row does not move the first occurrence of a key already present. */
  lemma FindKeyPrefix(rows: seq<CartRow>, r: seq<CartRow>, t: string, p: int)
    requires |rows| < |r| && r[..|rows|] == rows
    ensures FindKey(rows, t, p) < |rows| ==> FindKey(r, t, p) == FindKey(rows, t, p)
    ensures FindKey(rows, t, p) == |rows| ==> FindKey(r, t, p) >= |rows|
  {
    var a := FindKey(rows, t, p);
    assert forall j :: 0 <= j < |rows| ==> r[j] == rows[j];
    if a < |rows| {
      FindKeyIsFirst(r, t, p, a);
    }
  }

  /** `adicionar_ao_carrinho`: upserts the (telefone, id_produto) row and answers
      with the fixed confirmation. */
  method AddToCart(db: Store, telefone: string, idProduto: int) returns (r: string)
    modifies db`carrinho
    ensures db.carrinho == Increment(old(db.carrinho), telefone, idProduto)
    ensures r == AddedToCart
  {
    var i := 0;
    while i < |db.carrinho| && !HasKey(db.carrinho[i], telefone, idProduto)
      invariant 0 <= i <= |db.carrinho|
      invariant forall j :: 0 <= j < i ==> !HasKey(db.carrinho[j], telefone, idProduto)
    {
      i := i + 1;
    }
    FindKeyIsFirst(db.carrinho, telefone, idProduto, i);
    if i < |db.carrinho| {
      db.carrinho := db.carrinho[i := CartRow(telefone, idProduto, db.carrinho[i].quantidade + 1)];
    } else {
      db.carrinho := db.carrinho + [CartRow(telefone, idProduto, 1)];
    }
    r := AddedToCart;
  }

  /** The first position carrying the key is the one `FindKey` names. */
  lemma {:induction false} FindKeyIsFirst(rows: seq<CartRow>, telefone: string, idProduto: int, i: nat)
    requires i <= |rows|
    requires forall j :: 0 <= j < i ==> !HasKey(rows[j], telefone, idProduto)
    requires i < |rows| ==> HasKey(rows[i], telefone, idProduto)
    ensures FindKey(rows, telefone, idProduto) == i
  {
    if rows != [] && !HasKey(rows[0], telefone, idProduto) && i > 0 {
      FindKeyIsFirst(rows[1..], telefone, idProduto, i - 1);
    }
  }

  /** `n` upserts of the same key. */
  function IncrementTimes(rows: seq<CartRow>, telefone: string, idProduto: int, n: nat): seq<CartRow>
  {
    if n == 0 then rows else Increment(IncrementTimes(rows, telefone, idProduto, n - 1), telefone, idProduto)
  }

  /** `n` additions of the same product to a cart without it leave quantity `n`. */
  lemma {:induction false} IncrementTimesQuantity(rows: seq<CartRow>, telefone: string, idProduto: int, n: nat)
    ensures Quantity(IncrementTimes(rows, telefone, idProduto, n), telefone, idProduto)
         == Quantity(rows, telefone, idProduto) + n
  {
    if n > 0 {
      IncrementTimesQuantity(rows, telefone, idProduto, n - 1);
      IncrementQuantity(IncrementTimes(rows, telefone, idProduto, n - 1), telefone, idProduto, telefone, idProduto);
    }
  }

  /** Upserts of two keys commute: either order leaves the same quantity under
      every key. */
  lemma IncrementCommutes(rows: seq<CartRow>, t1: string, p1: int, t2: string, p2: int, t: string, p: int)
    ensures Quantity(Increment(Increment(rows, t1, p1), t2, p2), t, p)
         == Quantity(Increment(Increment(rows, t2, p2), t1, p1), t, p)
  {
    IncrementQuantity(rows, t1, p1, t, p);
    IncrementQuantity(rows, t2, p2, t, p);
    IncrementQuantity(Increment(rows, t1, p1), t2, p2, t, p);
    IncrementQuantity(Increment(rows, t2, p2), t1, p1, t, p);
  }

  // ---------------------------------------------------------------------------
  // ver_carrinho
  // ---------------------------------------------------------------------------

  /** One row of the cart query: product name, current price, quantity. */
  datatype CartLine = CartLine(nome: string, precoCents: int, quantidade: int)

  /** The inner join of one cart row with the products carrying its id. */
  function Joined(row: CartRow, produtos: seq<Product>): seq<CartLine>
  {
    if produtos == [] then []
    else
      var init := Joined(row, produtos[..|produtos| - 1]);
      var p := produtos[|produtos| - 1];
      if p.id == row.idProduto then init + [CartLine(p.nome, p.precoCents, row.quantidade)] else init
  }

  /** The cart query `carrinho JOIN produtos WHERE telefone = ...`, cart rows in
      table order. */
  function CartLines(carrinho: seq<CartRow>, produtos: seq<Product>, telefone: string): seq<CartLine>
  {
    if carrinho == [] then []
    else
      var init := CartLines(carrinho[..|carrinho| - 1], produtos, telefone);
      var row := carrinho[|carrinho| - 1];
      if row.telefone == telefone then init + Joined(row, produtos) else init
  }

  function LinesTotal(ls: seq<CartLine>): int
  {
    if ls == [] then 0 else LinesTotal(ls[..|ls| - 1]) + ls[|ls| - 1].precoCents * ls[|ls| - 1].quantidade
  }

  function CartLineText(l: CartLine): string
  {
    "- " + Capitalize(l.nome) + " x" + IntToString(l.quantidade) + " - R$ " + Money(l.precoCents * l.quantidade) + "\n"
  }

  function CartLinesText(ls: seq<CartLine>): string
  {
    if ls == [] then [] else CartLinesText(ls[..|ls| - 1]) + CartLineText(ls[|ls| - 1])
  }

  lemma CartLinesStep(ls: seq<CartLine>, i: nat)
    requires i < |ls|
    ensures CartLinesText(ls[..i + 1]) == CartLinesText(ls[..i]) + CartLineText(ls[i])
    ensures LinesTotal(ls[..i + 1]) == LinesTotal(ls[..i]) + ls[i].precoCents * ls[i].quantidade
  {
    assert ls[..i + 1][..i] == ls[..i];
  }

  /** The reply for the joined cart rows. */
  function CartText(ls: seq<CartLine>): string
  {
    if ls == [] then EmptyCart
    else CartHeader + CartLinesText(ls) + "\nTotal: R$ " + Money(LinesTotal(ls)) + "\nDeseja finalizar o pedido? (Sim/Não)"
  }

  /** Only an empty join produces the empty-cart reply. */
  lemma CartTextEmptyIff(ls: seq<CartLine>)
    ensures CartText(ls) == EmptyCart <==> ls == []
  {
    if ls != [] {
      assert |CartText(ls)| >= |CartHeader| + |"\nDeseja finalizar o pedido? (Sim/Não)"| > |EmptyCart|;
    }
  }

  /** `ver_carrinho`: one line per joined row with its subtotal, then the total of
      price times quantity, or the fixed empty-cart reply. */
  method ViewCart(db: Store, telefone: string) returns (r: string)
    ensures r == CartText(CartLines(db.carrinho, db.produtos, telefone))
    ensures r == EmptyCart <==> CartLines(db.carrinho, db.produtos, telefone) == []
  {
    var itens := CartLines(db.carrinho, db.produtos, telefone);
    CartTextEmptyIff(itens);
    if itens == [] {
      r := EmptyCart;
    } else {
      var linhas := "";
      var total := 0;
      var i := 0;
      while i < |itens|
        invariant 0 <= i <= |itens|
        invariant linhas == CartLinesText(itens[..i])
        invariant total == LinesTotal(itens[..i])
      {
        CartLinesStep(itens, i);
        var subtotal := itens[i].precoCents * itens[i].quantidade;
        total := total + subtotal;
        linhas := linhas + CartLineText(itens[i]);
        i := i + 1;
      }
      assert itens[..i] == itens;
      r := CartHeader + linhas + "\nTotal: R$ " + Money(total) + "\nDeseja finalizar o pedido? (Sim/Não)";
    }
  }

  /** The sum of the current prices of the products carrying an id (the price of
      the product when ids are unique, 0 when it no longer exists). */
  function PriceOf(produtos: seq<Product>, idProduto: int): int
  {
    if produtos == [] then 0
    else
      var p := produtos[|produtos| - 1];
      PriceOf(produtos[..|produtos| - 1], idProduto) + (if p.id == idProduto then p.precoCents else 0)
  }

  /** The value of a phone's cart: current price times quantity over its rows. */
  function PhoneTotal(carrinho: seq<CartRow>, produtos: seq<Product>, telefone: string): int
  {
    if carrinho == [] then 0
    else
      var row := carrinho[|carrinho| - 1];
      PhoneTotal(carrinho[..|carrinho| - 1], produtos, telefone)
        + (if row.telefone == telefone then row.quantidade * PriceOf(produtos, row.idProduto) else 0)
  }

  lemma {:induction false} LinesTotalAppend(a: seq<CartLine>, b: seq<CartLine>)
    ensures LinesTotal(a + b) == LinesTotal(a) + LinesTotal(b)
    decreases |b|
  {
    if b != [] {
      assert (a + b)[..|a + b| - 1] == a + b[..|b| - 1];
      LinesTotalAppend(a, b[..|b| - 1]);
    } else {
      assert a + b == a;
    }
  }

  lemma MulAdd(q: int, a: int, b: int)
    ensures q * (a + b) == q * a + b * q
  {
  }

  lemma {:induction false} JoinedTotal(row: CartRow, produtos: seq<Product>)
    ensures LinesTotal(Joined(row, produtos)) == row.quantidade * PriceOf(produtos, row.idProduto)
  {
    if produtos != [] {
      var init := produtos[..|produtos| - 1];
      var p := produtos[|produtos| - 1];
      JoinedTotal(row, init);
      var q, prev := row.quantidade, PriceOf(init, row.idProduto);
      if p.id == row.idProduto {
        var line := CartLine(p.nome, p.precoCents, q);
        LinesTotalAppend(Joined(row, init), [line]);
        assert [line][..0] == [];
        assert LinesTotal([line]) == p.precoCents * q;
        assert PriceOf(produtos, row.idProduto) == prev + p.precoCents;
        MulAdd(q, prev, p.precoCents);
      } else {
        assert PriceOf(produtos, row.idProduto) == prev;
      }
    }
  }

  /** The total `ver_carrinho` shows is the phone's current price times quantity,
      summed over that phone's rows; rows of other phones and rows whose product
      no longer exists add nothing. */
  lemma {:induction false} CartTotalIsPhoneTotal(carrinho: seq<CartRow>, produtos: seq<Product>, telefone: string)
    ensures LinesTotal(CartLines(carrinho, produtos, telefone)) == PhoneTotal(carrinho, produtos, telefone)
  {
    if carrinho != [] {
      var init := carrinho[..|carrinho| - 1];
      var row := carrinho[|carrinho| - 1];
      CartTotalIsPhoneTotal(init, produtos, telefone);
      if row.telefone == telefone {
        LinesTotalAppend(CartLines(init, produtos, telefone), Joined(row, produtos));
        JoinedTotal(row, produtos);
      }
    }
  }

  lemma {:induction false} PhoneTotalUpdate(carrinho: seq<CartRow>, produtos: seq<Product>, telefone: string, k: nat, row: CartRow)
    requires k < |carrinho|
    requires row.telefone == carrinho[k].telefone && row.idProduto == carrinho[k].idProduto
    ensures PhoneTotal(carrinho[k := row], produtos, telefone)
         == PhoneTotal(carrinho, produtos, telefone)
            + (if row.telefone == telefone
               then (row.quantidade - carrinho[k].quantidade) * PriceOf(produtos, row.idProduto) else 0)
  {
    var n := |carrinho|;
    var u := carrinho[k := row];
    if k == n - 1 {
      assert u[..n - 1] == carrinho[..n - 1];
    } else {
      assert u[..n - 1] == carrinho[..n - 1][k := row];
      PhoneTotalUpdate(carrinho[..n - 1], produtos, telefone, k, row);
    }
  }

  /** Adding a product to a phone's cart raises the total `ver_carrinho` shows by
      the product's current price and leaves every other phone's total as it was. */
  lemma AddToCartRaisesTotal(carrinho: seq<CartRow>, produtos: seq<Product>, telefone: string, idProduto: int, other: string)
    ensures LinesTotal(CartLines(Increment(carrinho, telefone, idProduto), produtos, telefone))
         == LinesTotal(CartLines(carrinho, produtos, telefone)) + PriceOf(produtos, idProduto)
    ensures other != telefone ==>
              (LinesTotal(CartLines(Increment(carrinho, telefone, idProduto), produtos, other))
               == LinesTotal(CartLines(carrinho, produtos, other)))
  {
    var r := Increment(carrinho, telefone, idProduto);
    CartTotalIsPhoneTotal(carrinho, produtos, telefone);
    CartTotalIsPhoneTotal(r, produtos, telefone);
    CartTotalIsPhoneTotal(carrinho, produtos, other);
    CartTotalIsPhoneTotal(r, produtos, other);
    var k := FindKey(carrinho, telefone, idProduto);
    if k < |carrinho| {
      var row := CartRow(telefone, idProduto, carrinho[k].quantidade + 1);
      PhoneTotalUpdate(carrinho, produtos, telefone, k, row);
      PhoneTotalUpdate(carrinho, produtos, other, k, row);
    } else {
      assert r[..|r| - 1] == carrinho;
    }
  }

  /** A phone with no cart row joined to an existing product sees the empty-cart
      reply; in particular, one whose rows all belong to other phones. */
  lemma EmptyCartWhenNoOwnRows(carrinho: seq<CartRow>, produtos: seq<Product>, telefone: string)
    requires forall i :: 0 <= i < |carrinho| ==> carrinho[i].telefone != telefone
    ensures CartText(CartLines(carrinho, produtos, telefone)) == EmptyCart
  {
    NoOwnRowsNoLines(carrinho, produtos, telefone);
  }

  lemma {:induction false} NoOwnRowsNoLines(carrinho: seq<CartRow>, produtos: seq<Product>, telefone: string)
    requires forall i :: 0 <= i < |carrinho| ==> carrinho[i].telefone != telefone
    ensures CartLines(carrinho, produtos, telefone) == []
  {
    if carrinho != [] {
      NoOwnRowsNoLines(carrinho[..|carrinho| - 1], produtos, telefone);
    }
  }
}
