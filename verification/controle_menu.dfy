/** The menu controller: the cart being built by the logged-in user, and the
    order operations it runs against the store, each as one transaction
    that is committed on success and rolled back on failure. What the
    screen shows is reduced to an `Outcome`. */
module MenuController {
  import opened Model
  import opened Orders
  import opened FoodDao
  import opened OrderDao

  /** What an action reports back to the user. */
  datatype Outcome =
    | ItemAdded | InvalidQuantity | FoodNotFound | AddRejected
    | ItemRemoved | NotInCart
    | EmptyCart | InvalidUser | OrderSubmitted(id: int) | SubmitFailed
    | Cancelled | OrderDeleted | OrderNotFound
    | ItemUpdated | ItemDeleted | ItemNotFound | DatabaseError
    | OrderRated | InvalidRating

  /** Whether some entry of cart `m` is for food `idAlimento`. */
  predicate HasFood(m: map<Alimento, int>, idAlimento: int)
  {
    exists a :: a in m && a.id == idAlimento
  }

  /** The quantity held for food `idAlimento` in a cart with distinct food
      ids, or 0 when the cart holds none. */
  ghost function QuantityOfFood(m: map<Alimento, int>, idAlimento: int): int
  {
    if HasFood(m, idAlimento) then
      var a :| a in m && a.id == idAlimento; m[a]
    else 0
  }

  /** Every entry of cart `m` is an item built from the catalog row of its
      own food id. */
  ghost predicate FromCatalog(m: map<Alimento, int>, catalogo: map<int, FoodRow>)
  {
    forall a {:trigger a.Data()} :: a in m ==> BuscarAlimentoPorId(catalogo, a.id) == Some(a.Data())
  }

  class ControleMenu {
    const usuarioLogado: Option<Usuario>
    /** The order under construction. */
    var pedidoAtual: Pedido
    /** The order store. */
    const db: Database
    /** The joined food catalog, keyed by food id. */
    const catalogo: map<int, FoodRow>

    /** The cart, the store and the catalog are well formed, the cart under
        construction is never rated, and every item in it was built from the
        catalog. */
    ghost predicate Valid()
      reads this, pedidoAtual, db
    {
      && pedidoAtual.Valid() && db.Valid() && KeyedById(catalogo) && pedidoAtual.avaliacao == None
      && FromCatalog(pedidoAtual.itens, catalogo)
    }

    /** A controller for `usuarioLogado` with an empty cart tied to that user. */
    constructor (usuarioLogado: Option<Usuario>, db: Database, catalogo: map<int, FoodRow>, now: Timestamp)
      requires db.Valid() && KeyedById(catalogo)
      ensures Valid() && fresh(pedidoAtual)
      ensures this.usuarioLogado == usuarioLogado && this.db == db && this.catalogo == catalogo
      ensures pedidoAtual.itens == map[] && pedidoAtual.usuario == usuarioLogado
      ensures pedidoAtual.avaliacao == None && pedidoAtual.dataHora == Some(now) && pedidoAtual.id == 0
    {
      this.usuarioLogado := usuarioLogado;
      this.db := db;
      this.catalogo := catalogo;
      pedidoAtual := new Pedido.ForUser(usuarioLogado, now);
    }

    /** The first cart entry found for food `idAlimento`, or null when there
        is none. */
    method BuscarNoPedido(idAlimento: int) returns (found: Alimento?)
      ensures found == null <==> !HasFood(pedidoAtual.itens, idAlimento)
      ensures found != null ==> found in pedidoAtual.itens && found.id == idAlimento
    {
      var chaves := pedidoAtual.itens.Keys;
      found := null;
      while chaves != {}
        invariant chaves <= pedidoAtual.itens.Keys
        invariant forall a :: a in pedidoAtual.itens && a !in chaves ==> a.id != idAlimento
        decreases chaves
      {
        var a :| a in chaves;
        if a.id == idAlimento {
          found := a;
          break;
        }
        chaves := chaves - {a};
      }
    }

    /** Adds `quantidade` units of food `idAlimento` to the cart. The food
        is looked up in the catalog and a new item object is built for it,
        so it always becomes a new entry, even when the cart already holds
        that food. */
    method AdicionarAlimentoAoPedidoAtual(idAlimento: int, quantidade: int) returns (o: Outcome, novo: Alimento?)
      requires Valid()
      modifies pedidoAtual`itens
      ensures Valid()
      ensures o in {ItemAdded, InvalidQuantity, FoodNotFound, AddRejected}
      ensures o == InvalidQuantity <==> quantidade <= 0
      ensures o == FoodNotFound <==> quantidade > 0 && BuscarAlimentoPorId(catalogo, idAlimento).None?
      ensures o == AddRejected <==>
        quantidade > MaxInt32 && BuscarAlimentoPorId(catalogo, idAlimento).Some?
      ensures o != ItemAdded ==> pedidoAtual.itens == old(pedidoAtual.itens)
      ensures o == ItemAdded ==>
        && novo != null && fresh(novo)
        && Some(novo.Data()) == BuscarAlimentoPorId(catalogo, idAlimento)
        && pedidoAtual.itens == old(pedidoAtual.itens)[novo := quantidade]
    {
      novo := null;
      if quantidade <= 0 {
        return InvalidQuantity, novo;
      }
      var d := BuscarAlimentoPorId(catalogo, idAlimento);
      if d.None? {
        return FoodNotFound, novo;
      }
      novo := new Alimento(d.value);
      var ok := pedidoAtual.AdicionarItem(novo, quantidade);
      o := if ok then ItemAdded else AddRejected;
    }

    /** Adds `quantidade` units of food `idAlimento`, adding them to the
        entry `alvo` the cart already holds for that food if there is one,
        so the cart never holds two entries for the same food. */
    method AdicionarAlimentoSomandoPorId(idAlimento: int, quantidade: int) returns (o: Outcome, alvo: Alimento?)
      requires Valid() && DistinctFoodIds(pedidoAtual.itens)
      modifies pedidoAtual`itens
      ensures Valid() && DistinctFoodIds(pedidoAtual.itens)
      ensures o in {ItemAdded, InvalidQuantity, FoodNotFound, AddRejected}
      ensures o == InvalidQuantity <==> quantidade <= 0
      ensures o == FoodNotFound <==> quantidade > 0 && BuscarAlimentoPorId(catalogo, idAlimento).None?
      ensures o == AddRejected <==>
        && quantidade > 0 && BuscarAlimentoPorId(catalogo, idAlimento).Some?
        && QuantityOfFood(old(pedidoAtual.itens), idAlimento) + quantidade > MaxInt32
      ensures o != ItemAdded ==> pedidoAtual.itens == old(pedidoAtual.itens)
      ensures o == ItemAdded ==>
        && alvo != null && alvo.id == idAlimento
        && Some(alvo.Data()) == BuscarAlimentoPorId(catalogo, idAlimento)
        && (alvo in old(pedidoAtual.itens) <==> HasFood(old(pedidoAtual.itens), idAlimento))
        && (alvo !in old(pedidoAtual.itens) ==> fresh(alvo))
        && pedidoAtual.itens == Added(old(pedidoAtual.itens), alvo, quantidade)
    {
      alvo := null;
      if quantidade <= 0 {
        return InvalidQuantity, alvo;
      }
      var d := BuscarAlimentoPorId(catalogo, idAlimento);
      if d.None? {
        return FoodNotFound, alvo;
      }
      alvo := BuscarNoPedido(idAlimento);
      if alvo == null {
        alvo := new Alimento(d.value);
      } else {
        ghost var b :| b in pedidoAtual.itens && b.id == idAlimento && QuantityOfFood(pedidoAtual.itens, idAlimento) == pedidoAtual.itens[b];
        assert b == alvo;
      }
      AddedKeepsDistinct(pedidoAtual.itens, alvo, quantidade);
      var ok := pedidoAtual.AdicionarItem(alvo, quantidade);
      o := if ok then ItemAdded else AddRejected;
    }

    /** Removes the whole entry found for food `idAlimento`, if any. */
    method RemoverAlimentoDoPedidoAtual(idAlimento: int) returns (o: Outcome, removido: Alimento?)
      requires Valid()
      modifies pedidoAtual`itens
      ensures Valid()
      ensures o in {ItemRemoved, NotInCart}
      ensures o == NotInCart <==> !HasFood(old(pedidoAtual.itens), idAlimento)
      ensures o == NotInCart ==> pedidoAtual.itens == old(pedidoAtual.itens)
      ensures o == ItemRemoved ==>
        && removido != null && removido in old(pedidoAtual.itens) && removido.id == idAlimento
        && pedidoAtual.itens == Removed(old(pedidoAtual.itens), removido)
    {
      removido := BuscarNoPedido(idAlimento);
      if removido == null {
        return NotInCart, removido;
      }
      pedidoAtual.RemoverItem(removido);
      o := ItemRemoved;
    }

    /** Submits the cart: an empty cart or a missing or non-positive user is
        refused; otherwise the cart is tied to the user and stored in one
        transaction. On commit the cart starts over empty; on failure the
        transaction is rolled back and the cart is kept (with the id it was
        given by the failed insert). */
    method FazerPedido(now: Timestamp) returns (o: Outcome)
      requires Valid()
      modifies this`pedidoAtual, pedidoAtual`usuario, pedidoAtual`id, db
      ensures Valid()
      ensures o.OrderSubmitted? || o in {EmptyCart, InvalidUser, SubmitFailed}
      ensures o == EmptyCart <==> old(pedidoAtual.itens) == map[]
      ensures o == InvalidUser <==>
        old(pedidoAtual.itens) != map[] && (usuarioLogado.None? || usuarioLogado.value.id <= 0)
      ensures o in {EmptyCart, InvalidUser} ==>
        && pedidoAtual == old(pedidoAtual) && pedidoAtual.usuario == old(pedidoAtual.usuario)
        && pedidoAtual.id == old(pedidoAtual.id) && db.State() == old(db.State())
        && db.nextId == old(db.nextId)
      ensures o !in {EmptyCart, InvalidUser} ==>
        && (o.OrderSubmitted? <==> DistinctFoodIds(old(pedidoAtual.itens)))
        && db.nextId == old(db.nextId) + 1
      ensures o.OrderSubmitted? ==>
        && o.id == old(db.nextId)
        && db.State() == WithPedido(old(db.State()), o.id,
             HeaderOf(old(pedidoAtual.dataHora), old(pedidoAtual.avaliacao), usuarioLogado.value, now),
             old(pedidoAtual.itens))
        && fresh(pedidoAtual) && pedidoAtual.itens == map[] && pedidoAtual.usuario == usuarioLogado
        && pedidoAtual.avaliacao == None && pedidoAtual.dataHora == Some(now) && pedidoAtual.id == 0
      ensures o.OrderSubmitted? ==>
        && o.id in db.pedidos && db.pedidos[o.id].avaliacao == None
        && db.pedidos[o.id].idUsuario == usuarioLogado.value.id
      ensures o == SubmitFailed ==>
        && db.State() == old(db.State())
        && pedidoAtual == old(pedidoAtual) && pedidoAtual.itens == old(pedidoAtual.itens)
        && pedidoAtual.usuario == usuarioLogado && pedidoAtual.id == old(db.nextId)
    {
      if pedidoAtual.itens == map[] {
        return EmptyCart;
      }
      if usuarioLogado.None? || usuarioLogado.value.id <= 0 {
        return InvalidUser;
      }
      pedidoAtual.usuario := usuarioLogado;
      var saved := db.State();
      ghost var carrinho := pedidoAtual.itens;
      ghost var h := HeaderOf(pedidoAtual.dataHora, pedidoAtual.avaliacao, usuarioLogado.value, now);
      var status, id := db.CriarPedido(pedidoAtual, now);
      if status == Done {
        assert db.State() == WithPedido(saved, id, h, carrinho);
        o := OrderSubmitted(id);
        pedidoAtual := new Pedido.ForUser(usuarioLogado, now);
      } else {
        db.Rollback(saved);
        o := SubmitFailed;
      }
    }

    /** Deletes order `idPedido` once the user has confirmed; an id that
        matches no order is reported and the transaction rolled back. */
    method ExcluirPedidoSelecionado(idPedido: int, confirmado: bool) returns (o: Outcome)
      requires Valid()
      modifies db`pedidos, db`itens
      ensures Valid()
      ensures o in {Cancelled, OrderDeleted, OrderNotFound}
      ensures o == Cancelled <==> !confirmado
      ensures o == OrderDeleted <==> confirmado && idPedido in old(db.pedidos)
      ensures o == OrderDeleted ==> db.State() == WithoutPedido(old(db.State()), idPedido)
      ensures o != OrderDeleted ==> db.State() == old(db.State())
    {
      if !confirmado {
        return Cancelled;
      }
      var saved := db.State();
      var found := db.ExcluirPedido(idPedido);
      if found {
        o := OrderDeleted;
      } else {
        db.Rollback(saved);
        o := OrderNotFound;
      }
    }

    /** Sets the quantity of food `idAlimento` in stored order `idPedido`.
        A negative quantity is refused; zero deletes the line, but only if
        it exists; a positive quantity inserts or overwrites the line, and
        fails when the order does not exist. Failures roll back. */
    method EditarItemPedido(idPedido: int, idAlimento: int, novaQuantidade: int) returns (o: Outcome)
      requires Valid()
      modifies db`pedidos, db`itens
      ensures Valid()
      ensures o in {InvalidQuantity, ItemNotFound, ItemDeleted, ItemUpdated, DatabaseError}
      ensures o == InvalidQuantity <==> novaQuantidade < 0
      ensures o == ItemNotFound <==> novaQuantidade == 0 && (idPedido, idAlimento) !in old(db.itens)
      ensures o == ItemDeleted <==> novaQuantidade == 0 && (idPedido, idAlimento) in old(db.itens)
      ensures o == DatabaseError <==> novaQuantidade > 0 && idPedido !in old(db.pedidos)
      ensures o == ItemDeleted ==> db.State() == WithoutItem(old(db.State()), idPedido, idAlimento)
      ensures o == ItemUpdated ==> db.State() == WithItem(old(db.State()), idPedido, idAlimento, novaQuantidade)
      ensures o !in {ItemDeleted, ItemUpdated} ==> db.State() == old(db.State())
    {
      if novaQuantidade < 0 {
        return InvalidQuantity;
      }
      var saved := db.State();
      if novaQuantidade <= 0 {
        var existe := db.VerificarItemExisteNoPedido(idPedido, idAlimento);
        if !existe {
          db.Rollback(saved);
          return ItemNotFound;
        }
      }
      var status := db.AdicionarOuAtualizarItemPedido(idPedido, idAlimento, novaQuantidade);
      if status != Done {
        db.Rollback(saved);
        return DatabaseError;
      }
      o := if novaQuantidade > 0 then ItemUpdated else ItemDeleted;
    }

    /** Rates stored order `idPedido` with `nota`: a rating outside 0..5 or
        an unknown order is reported and the transaction rolled back. */
    method AvaliarPedidoSelecionado(idPedido: int, nota: int) returns (o: Outcome)
      requires Valid()
      modifies db`pedidos, db`itens
      ensures Valid()
      ensures o in {InvalidRating, OrderNotFound, OrderRated}
      ensures o == InvalidRating <==> nota < 0 || nota > 5
      ensures o == OrderNotFound <==> 0 <= nota <= 5 && idPedido !in old(db.pedidos)
      ensures o == OrderRated ==> db.State() == WithRating(old(db.State()), idPedido, nota)
      ensures o != OrderRated ==> db.State() == old(db.State())
    {
      var saved := db.State();
      var status := db.AvaliarPedido(idPedido, nota);
      if status == Done {
        o := OrderRated;
      } else {
        db.Rollback(saved);
        o := if status == IllegalArgument then InvalidRating else OrderNotFound;
      }
    }
  }

  /** Adding to the entry already held for a food, or adding a food the
      cart does not hold yet, keeps food ids distinct. */
  lemma AddedKeepsDistinct(m: map<Alimento, int>, a: Alimento, q: int)
    requires DistinctFoodIds(m)
    requires a in m || !HasFood(m, a.id)
    ensures DistinctFoodIds(Added(m, a, q))
  {
  }

  /** A cart with a single entry has distinct food ids and a single line. */
  lemma SingleEntryRows(id: int, a: Alimento, q: int)
    ensures DistinctFoodIds(map[a := q])
    ensures Rows(id, map[a := q]) == map[(id, a.id) := q]
  {
    RowsAdd(id, map[], a, q);
  }

  /** A catalog with one regular food item, id 7. */
  function OneFoodCatalog(): (c: map<int, FoodRow>)
    ensures BuscarAlimentoPorId(c, 7).Some?
  {
    map[7 := FoodRow(7, "Pastel", "", 8.0, "COMIDA", None, 1, "Feira", "Rua 1")]
  }

  /** Adding the same food twice through the menu and then submitting fails:
      the two adds make two cart entries for food 7, and their two line
      inserts clash on the primary key of the order lines. */
  method DuplicateFoodSubmitFails() returns (o: Outcome)
    ensures o == SubmitFailed
  {
    var db := new Database();
    var menu := new ControleMenu(Some(Usuario(1, "Ana", "ana@example.com")), db, OneFoodCatalog(), Timestamp(0));
    var o1, a1 := menu.AdicionarAlimentoAoPedidoAtual(7, 1);
    assert o1 == ItemAdded && a1 in menu.pedidoAtual.itens;
    var o2, a2 := menu.AdicionarAlimentoAoPedidoAtual(7, 1);
    assert o2 == ItemAdded && a1 != a2;
    assert a1 in menu.pedidoAtual.itens && a2 in menu.pedidoAtual.itens && a1.id == a2.id;
    assert !DistinctFoodIds(menu.pedidoAtual.itens);
    o := menu.FazerPedido(Timestamp(0));
  }

  /** A new menu for user 1 over an empty store, after adding food 7 twice
      through the id-merging add: the cart holds one entry of quantity 2. */
  method MergedCart() returns (menu: ControleMenu, a: Alimento)
    ensures fresh(menu) && fresh(menu.db) && fresh(menu.pedidoAtual) && menu.Valid()
    ensures menu.usuarioLogado == Some(Usuario(1, "Ana", "ana@example.com"))
    ensures menu.db.State() == Tables(map[], map[]) && menu.db.nextId == 1
    ensures a.id == 7 && menu.pedidoAtual.itens == map[a := 2]
  {
    var db := new Database();
    menu := new ControleMenu(Some(Usuario(1, "Ana", "ana@example.com")), db, OneFoodCatalog(), Timestamp(0));
    var o1, a1 := menu.AdicionarAlimentoSomandoPorId(7, 1);
    assert o1 == ItemAdded && menu.pedidoAtual.itens == map[a1 := 1];
    assert a1 in menu.pedidoAtual.itens && a1.id == 7;
    var o2, b := menu.AdicionarAlimentoSomandoPorId(7, 1);
    assert o2 == ItemAdded && b == a1;
    a := a1;
  }

  /** The same two adds through the id-merging add leave one entry, and the
      submit then stores order 1 with a single line of quantity 2. */
  method MergedFoodSubmitSucceeds() returns (o: Outcome, linhas: map<(int, int), int>)
    ensures o == OrderSubmitted(1)
    ensures linhas == map[(1, 7) := 2]
  {
    var menu, a := MergedCart();
    SingleEntryRows(1, a, 2);
    o := menu.FazerPedido(Timestamp(0));
    linhas := menu.db.itens;
  }
}
