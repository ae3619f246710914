/** The order store: the `Pedido` table (order headers) and the
    `Pedido_Alimento` table (order lines keyed by order id and food id), with
    the operations of the order data-access object. */
module OrderDao {
  import opened Model
  import opened Orders

  /** One row of `Pedido`, without its key. */
  datatype Header = Header(dataHora: Timestamp, avaliacao: Option<int>, idUsuario: int)

  /** Both tables as values: `pedidos` maps `id_pedido` to its header,
      `itens` maps (`id_pedido`, `id_alimento`) to `quantidade`. */
  datatype Tables = Tables(pedidos: map<int, Header>, itens: map<(int, int), int>)

  /** How a store operation ended. `IllegalArgument` is an argument check
      failing before the store is touched; `NotFound` is an update that
      matched no row; `ConstraintViolation` is a key or foreign-key violation
      reported by the database. */
  datatype Status = Done | IllegalArgument | NotFound | ConstraintViolation

  /** Every order line belongs to an existing order (the foreign key from
      `Pedido_Alimento` to `Pedido`). */
  ghost predicate Integrity(t: Tables)
  {
    forall k :: k in t.itens ==> k.0 in t.pedidos
  }

  /** The tables are consistent with the id sequence whose next value is
      `nextId`: every order id was handed out by it, every line belongs to an
      order and holds a positive quantity. */
  ghost predicate Consistent(t: Tables, nextId: int)
  {
    && nextId > 0
    && (forall p :: p in t.pedidos ==> 0 < p < nextId)
    && Integrity(t)
    && (forall k :: k in t.itens ==> t.itens[k] > 0)
  }

  // ---------------------------------------------------------------------
  // The store operations on table values

  /** The header inserted for an order with the given timestamp, rating and
      user; a missing timestamp is replaced by `now`. */
  function HeaderOf(dataHora: Option<Timestamp>, avaliacao: Option<int>, usuario: Usuario, now: Timestamp): (r: Header)
    ensures r.idUsuario == usuario.id && r.avaliacao == avaliacao
    ensures dataHora.Some? ==> r.dataHora == dataHora.value
    ensures dataHora.None? ==> r.dataHora == now
  {
    Header(if dataHora.Some? then dataHora.value else now, avaliacao, usuario.id)
  }

  /** The lines inserted for order `id` from cart `m`: one per entry, keyed by
      the entry's food id. */
  ghost function Rows(id: int, m: map<Alimento, int>): (r: map<(int, int), int>)
    requires DistinctFoodIds(m)
    ensures forall a :: a in m ==> (id, a.id) in r && r[(id, a.id)] == m[a]
    ensures forall k :: k in r ==> k.0 == id
  {
    map a | a in m :: (id, a.id) := m[a]
  }

  /** Every inserted line comes from a cart entry. */
  lemma RowsWitness(id: int, m: map<Alimento, int>, k: (int, int)) returns (a: Alimento)
    requires DistinctFoodIds(m) && k in Rows(id, m)
    ensures a in m && k == (id, a.id) && Rows(id, m)[k] == m[a]
  {
    a :| a in m && k == (id, a.id);
  }

  /** Adding one entry with a new food id to a cart adds exactly its line. */
  lemma RowsAdd(id: int, rest: map<Alimento, int>, a: Alimento, q: int)
    requires a !in rest && DistinctFoodIds(rest[a := q])
    ensures DistinctFoodIds(rest)
    ensures (id, a.id) !in Rows(id, rest)
    ensures Rows(id, rest[a := q]) == Rows(id, rest)[(id, a.id) := q]
  {
    var m := rest[a := q];
    var r := Rows(id, rest);
    var full := Rows(id, m);
    var grown := r[(id, a.id) := q];
    forall k | k in full
      ensures k in grown && grown[k] == full[k]
    {
      var b := RowsWitness(id, m, k);
      if b != a {
        assert b in rest;
      }
    }
    forall k | k in grown
      ensures k in full
    {
      if k != (id, a.id) {
        var b := RowsWitness(id, rest, k);
        assert b in m;
      }
    }
    assert full == grown;
  }

  /** The tables after inserting order `id` with header `h` and the lines of `m`. */
  ghost function WithPedido(t: Tables, id: int, h: Header, m: map<Alimento, int>): (r: Tables)
    requires DistinctFoodIds(m)
    ensures r.pedidos.Keys == t.pedidos.Keys + {id} && r.pedidos[id] == h
    ensures forall p :: p in t.pedidos && p != id ==> r.pedidos[p] == t.pedidos[p]
    ensures forall a :: a in m ==> (id, a.id) in r.itens && r.itens[(id, a.id)] == m[a]
    ensures forall k :: k in t.itens && k.0 != id ==> k in r.itens && r.itens[k] == t.itens[k]
    ensures forall k :: k in r.itens ==> k in t.itens || k.0 == id
  {
    Tables(t.pedidos[id := h], t.itens + Rows(id, m))
  }

  /** The tables after deleting line (`p`, `a`). */
  function WithoutItem(t: Tables, p: int, a: int): (r: Tables)
    ensures r.pedidos == t.pedidos && (p, a) !in r.itens
    ensures forall k :: k != (p, a) ==> (k in r.itens <==> k in t.itens)
    ensures forall k :: k != (p, a) && k in t.itens ==> r.itens[k] == t.itens[k]
  {
    t.(itens := t.itens - {(p, a)})
  }

  /** The tables after setting line (`p`, `a`) to `q`, inserted or overwritten. */
  function WithItem(t: Tables, p: int, a: int, q: int): (r: Tables)
    ensures r.pedidos == t.pedidos && (p, a) in r.itens && r.itens[(p, a)] == q
    ensures forall k :: k != (p, a) ==> (k in r.itens <==> k in t.itens)
    ensures forall k :: k != (p, a) && k in t.itens ==> r.itens[k] == t.itens[k]
  {
    t.(itens := t.itens[(p, a) := q])
  }

  /** The tables after deleting order `p`; its lines go with it (ON DELETE CASCADE). */
  function WithoutPedido(t: Tables, p: int): (r: Tables)
    ensures r.pedidos.Keys == t.pedidos.Keys - {p}
    ensures forall k :: k in r.itens <==> k in t.itens && k.0 != p
  {
    Tables(t.pedidos - {p}, map k | k in t.itens && k.0 != p :: t.itens[k])
  }

  /** The tables after setting the rating of existing order `p` to `nota`. */
  function WithRating(t: Tables, p: int, nota: int): (r: Tables)
    requires p in t.pedidos
    ensures r.pedidos.Keys == t.pedidos.Keys && r.itens == t.itens
    ensures r.pedidos[p] == t.pedidos[p].(avaliacao := Some(nota))
    ensures forall q :: q in t.pedidos && q != p ==> r.pedidos[q] == t.pedidos[q]
  {
    t.(pedidos := t.pedidos[p := t.pedidos[p].(avaliacao := Some(nota))])
  }

  // ---------------------------------------------------------------------
  // Properties of the operations

  /** Inserting an order with a fresh id keeps the tables consistent, and
      adds exactly one header and one line per cart entry. */
  lemma WithPedidoConsistent(t: Tables, nextId: int, h: Header, m: map<Alimento, int>)
    requires Consistent(t, nextId) && DistinctFoodIds(m) && PositiveQuantities(m)
    ensures Consistent(WithPedido(t, nextId, h, m), nextId + 1)
    ensures |WithPedido(t, nextId, h, m).pedidos| == |t.pedidos| + 1
    ensures |WithPedido(t, nextId, h, m).itens| == |t.itens| + |m|
  {
    LinesConsistent(Tables(t.pedidos[nextId := h], t.itens), nextId + 1, nextId, m);
    WithPedidoSizes(t, nextId, h, m);
  }

  /** An order under a fresh id adds one header and one line per cart entry. */
  lemma WithPedidoSizes(t: Tables, nextId: int, h: Header, m: map<Alimento, int>)
    requires Consistent(t, nextId) && DistinctFoodIds(m)
    ensures |WithPedido(t, nextId, h, m).pedidos| == |t.pedidos| + 1
    ensures |WithPedido(t, nextId, h, m).itens| == |t.itens| + |m|
  {
    var r := Rows(nextId, m);
    var w := WithPedido(t, nextId, h, m);
    assert nextId !in t.pedidos && w.pedidos == t.pedidos[nextId := h];
    assert t.itens.Keys !! r.Keys;
    RowsCount(nextId, m);
    var u := t.itens + r;
    assert u.Keys == t.itens.Keys + r.Keys;
    assert |u.Keys| == |t.itens.Keys| + |r.Keys|;
    assert w.itens == u;
  }

  /** Adding the lines of `m` under an existing order that has no lines yet
      keeps the tables consistent. */
  lemma LinesConsistent(t: Tables, nextId: int, id: int, m: map<Alimento, int>)
    requires Consistent(t, nextId) && id in t.pedidos && DistinctFoodIds(m) && PositiveQuantities(m)
    ensures Consistent(Tables(t.pedidos, t.itens + Rows(id, m)), nextId)
  {
  }

  /** The entries of `m` whose item is not in `pendentes`. */
  ghost function Restrict(m: map<Alimento, int>, pendentes: set<Alimento>): (r: map<Alimento, int>)
    ensures r.Keys <= m.Keys && forall a :: a in r ==> r[a] == m[a]
  {
    map a | a in m && a !in pendentes :: m[a]
  }

  /** Nothing left pending is the whole cart. */
  lemma RestrictAll(m: map<Alimento, int>)
    ensures Restrict(m, {}) == m
  {
  }

  /** Everything pending is the empty cart. */
  lemma RestrictNone(m: map<Alimento, int>)
    ensures Restrict(m, m.Keys) == map[]
  {
  }

  /** Taking one pending entry out adds exactly that entry. */
  lemma RestrictStep(m: map<Alimento, int>, pendentes: set<Alimento>, a: Alimento)
    requires a in pendentes && pendentes <= m.Keys
    ensures a !in Restrict(m, pendentes)
    ensures Restrict(m, pendentes - {a}) == Restrict(m, pendentes)[a := m[a]]
  {
  }

  /** Lines of part of a cart with distinct food ids, added under an
      existing order with no lines, keep the tables consistent and touch
      no line of another order. */
  lemma BatchConsistent(t: Tables, nextId: int, id: int, done: map<Alimento, int>, after: map<(int, int), int>)
    requires Consistent(t, nextId) && id in t.pedidos && forall k :: k in t.itens ==> k.0 != id
    requires DistinctFoodIds(done) && forall a :: a in done ==> 0 < done[a]
    requires after == t.itens + Rows(id, done)
    ensures Consistent(Tables(t.pedidos, after), nextId)
    ensures forall k :: k in after ==> (k in t.itens && after[k] == t.itens[k]) || k.0 == id
  {
  }

  /** There are as many inserted lines as cart entries. */
  lemma {:induction false} RowsCount(id: int, m: map<Alimento, int>)
    requires DistinctFoodIds(m)
    ensures |Rows(id, m)| == |m|
    decreases |m|
  {
    if m != map[] {
      var a :| a in m;
      var rest := m - {a};
      assert m == rest[a := m[a]];
      RowsAdd(id, rest, a, m[a]);
      RowsCount(id, rest);
    }
  }

  /** Line and order deletions, upserts and ratings keep the tables consistent. */
  lemma UpdatesConsistent(t: Tables, nextId: int, p: int, a: int, q: int)
    requires Consistent(t, nextId)
    ensures Consistent(WithoutItem(t, p, a), nextId)
    ensures Consistent(WithoutPedido(t, p), nextId)
    ensures p in t.pedidos && q > 0 ==> Consistent(WithItem(t, p, a, q), nextId)
    ensures p in t.pedidos ==> Consistent(WithRating(t, p, q), nextId)
  {
  }

  /** Deleting an order leaves no line of it behind and every other line as it was. */
  lemma DeleteCascades(t: Tables, p: int)
    ensures forall a :: (p, a) !in WithoutPedido(t, p).itens
    ensures forall k :: k in t.itens && k.0 != p ==> WithoutPedido(t, p).itens[k] == t.itens[k]
    ensures p !in WithoutPedido(t, p).pedidos
  {
  }

  /** Upserting a line twice keeps one line with the last quantity. */
  lemma UpsertOverwrites(t: Tables, p: int, a: int, q1: int, q2: int)
    ensures WithItem(WithItem(t, p, a, q1), p, a, q2) == WithItem(t, p, a, q2)
  {
  }

  /** Inserting the line of a cart entry whose food id has no line yet, on
      top of lines of other orders, extends the inserted cart. */
  lemma InsertLine(base: map<(int, int), int>, id: int, done: map<Alimento, int>, a: Alimento, q: int)
    requires forall k :: k in base ==> k.0 != id
    requires DistinctFoodIds(done) && a !in done && (id, a.id) !in base + Rows(id, done)
    ensures DistinctFoodIds(done[a := q])
    ensures (base + Rows(id, done))[(id, a.id) := q] == base + Rows(id, done[a := q])
  {
    RowsAdd(id, done, a, q);
    MergeUpdate(base, Rows(id, done), (id, a.id), q);
  }

  /** A line of the order already present for the food id of a cart entry
      not yet inserted means two cart entries share that food id. */
  lemma DuplicateLine(base: map<(int, int), int>, id: int, done: map<Alimento, int>, m: map<Alimento, int>, a: Alimento)
    requires forall k :: k in base ==> k.0 != id
    requires DistinctFoodIds(done) && done.Keys <= m.Keys && a in m && a !in done
    requires (id, a.id) in base + Rows(id, done)
    ensures !DistinctFoodIds(m)
  {
    var b := RowsWitness(id, done, (id, a.id));
    assert b in m && b != a && b.id == a.id;
  }

  /** Updating a merged map is updating its right-hand side. */
  lemma MergeUpdate<K, V>(left: map<K, V>, right: map<K, V>, k: K, v: V)
    ensures (left + right)[k := v] == left + right[k := v]
  {
  }

  /** The batch of line inserts of `criarPedido` on top of the lines `base`,
      which hold no line of order `id`: one line (`id`, food id) per entry of
      `m`, in map order. A food id seen twice violates the primary key and
      stops the batch; `done` is the part of the cart inserted by then. */
  method InsertBatch(base: map<(int, int), int>, id: int, m: map<Alimento, int>)
    returns (ok: bool, after: map<(int, int), int>, ghost done: map<Alimento, int>)
    requires forall k :: k in base ==> k.0 != id
    ensures ok <==> DistinctFoodIds(m)
    ensures done.Keys <= m.Keys && (forall a :: a in done ==> done[a] == m[a]) && DistinctFoodIds(done)
    ensures after == base + Rows(id, done)
    ensures ok ==> done == m
  {
    var pendentes := m.Keys;
    after := base;
    RestrictNone(m);
    while pendentes != {}
      invariant pendentes <= m.Keys
      invariant DistinctFoodIds(Restrict(m, pendentes))
      invariant after == base + Rows(id, Restrict(m, pendentes))
      decreases pendentes
    {
      var a :| a in pendentes;
      RestrictStep(m, pendentes, a);
      if (id, a.id) in after {
        DuplicateLine(base, id, Restrict(m, pendentes), m, a);
        return false, after, Restrict(m, pendentes);
      }
      InsertLine(base, id, Restrict(m, pendentes), a, m[a]);
      after := after[(id, a.id) := m[a]];
      pendentes := pendentes - {a};
    }
    RestrictAll(m);
    ok, done := true, m;
  }

  // ---------------------------------------------------------------------
  // The store object

  class Database {
    var pedidos: map<int, Header>
    var itens: map<(int, int), int>
    /** Next value of the `id_pedido` sequence. */
    var nextId: int

    function State(): Tables
      reads this
    {
      Tables(pedidos, itens)
    }

    ghost predicate Valid()
      reads this
    {
      Consistent(State(), nextId)
    }

    /** An empty store. */
    constructor ()
      ensures Valid() && pedidos == map[] && itens == map[] && nextId == 1
    {
      pedidos := map[];
      itens := map[];
      nextId := 1;
    }

    /** Inserts the header of `pedido` under a fresh id, records that id in
        `pedido`, then inserts one line per cart entry. A missing or
        non-positive user is rejected before anything is written. Two
        entries with the same food id (different objects) make the second
        insert violate the primary key of `Pedido_Alimento`; the header and
        the lines before it are then left in place for the caller to roll back. */
    method CriarPedido(pedido: Pedido, now: Timestamp) returns (status: Status, id: int)
      requires Valid() && pedido.Valid()
      modifies this, pedido`id
      ensures Valid() && nextId >= old(nextId)
      ensures status in {Done, IllegalArgument, ConstraintViolation}
      ensures status == IllegalArgument <==> pedido.usuario.None? || pedido.usuario.value.id <= 0
      ensures status == IllegalArgument ==> State() == old(State()) && pedido.id == old(pedido.id) && nextId == old(nextId)
      ensures status != IllegalArgument ==>
        && id == old(nextId) && id !in old(pedidos) && pedido.id == id && nextId == old(nextId) + 1
        && pedidos == old(pedidos)[id := HeaderOf(pedido.dataHora, pedido.avaliacao, pedido.usuario.value, now)]
      ensures status == Done <==> status != IllegalArgument && DistinctFoodIds(pedido.itens)
      ensures status == Done ==>
        State() == WithPedido(old(State()), id, HeaderOf(pedido.dataHora, pedido.avaliacao, pedido.usuario.value, now), pedido.itens)
      ensures status == ConstraintViolation ==>
        && (forall k :: k in itens ==> (k in old(itens) && itens[k] == old(itens)[k]) || k.0 == id)
        && (forall k :: k in old(itens) ==> k in itens && itens[k] == old(itens)[k])
    {
      if pedido.usuario.None? || pedido.usuario.value.id <= 0 {
        return IllegalArgument, -1;
      }
      id := nextId;
      nextId := nextId + 1;
      pedidos := pedidos[id := HeaderOf(pedido.dataHora, pedido.avaliacao, pedido.usuario.value, now)];
      pedido.id := id;
      var ok := InserirItens(id, pedido.itens);
      status := if ok then Done else ConstraintViolation;
    }

    /** The line inserts of `criarPedido` for order `id`, run as one batch. */
    method InserirItens(id: int, m: map<Alimento, int>) returns (ok: bool)
      requires Consistent(State(), nextId) && id in pedidos && forall k :: k in itens ==> k.0 != id
      requires forall a :: a in m ==> 0 < m[a]
      modifies this`itens
      ensures Valid()
      ensures ok <==> DistinctFoodIds(m)
      ensures ok ==> itens == old(itens) + Rows(id, m)
      ensures !ok ==> forall k :: k in itens ==> (k in old(itens) && itens[k] == old(itens)[k]) || k.0 == id
      ensures forall k :: k in old(itens) ==> k in itens && itens[k] == old(itens)[k]
    {
      ghost var t0 := State();
      ghost var done;
      ok, itens, done := InsertBatch(itens, id, m);
      BatchConsistent(t0, nextId, id, done, itens);
    }

    /** Deletes line (`idPedido`, `idAlimento`); nothing happens if it is absent. */
    method RemoverItemPedido(idPedido: int, idAlimento: int)
      requires Valid()
      modifies this`itens
      ensures Valid()
      ensures State() == WithoutItem(old(State()), idPedido, idAlimento)
    {
      itens := itens - {(idPedido, idAlimento)};
    }

    /** Sets line (`idPedido`, `idAlimento`) to `quantidade`, inserting it or
        overwriting its quantity. A quantity of zero or less deletes the line
        instead. Inserting a line for an order that does not exist violates
        the foreign key and changes nothing. */
    method AdicionarOuAtualizarItemPedido(idPedido: int, idAlimento: int, quantidade: int) returns (status: Status)
      requires Valid()
      modifies this`itens
      ensures Valid()
      ensures quantidade <= 0 ==> status == Done && State() == WithoutItem(old(State()), idPedido, idAlimento)
      ensures quantidade > 0 && idPedido in pedidos ==>
        status == Done && State() == WithItem(old(State()), idPedido, idAlimento, quantidade)
      ensures quantidade > 0 && idPedido !in pedidos ==>
        status == ConstraintViolation && State() == old(State())
    {
      if quantidade <= 0 {
        RemoverItemPedido(idPedido, idAlimento);
        return Done;
      }
      if idPedido !in pedidos {
        return ConstraintViolation;
      }
      itens := itens[(idPedido, idAlimento) := quantidade];
      status := Done;
    }

    /** Deletes order `idPedido` and, by cascade, its lines; `found` tells
        whether a header was deleted. Nothing checks who owns the order. */
    method ExcluirPedido(idPedido: int) returns (found: bool)
      requires Valid()
      modifies this`pedidos, this`itens
      ensures Valid()
      ensures found <==> idPedido in old(pedidos)
      ensures State() == WithoutPedido(old(State()), idPedido)
      ensures !found ==> State() == old(State())
    {
      found := idPedido in pedidos;
      pedidos := pedidos - {idPedido};
      itens := map k | k in itens && k.0 != idPedido :: itens[k];
      if !found {
        assert itens == old(itens);
      }
    }

    /** Sets the rating of order `idPedido`. A rating outside 0..5 is rejected
        before the store is touched; no matching order is reported as
        `NotFound` with the store unchanged. Nothing checks who owns the order. */
    method AvaliarPedido(idPedido: int, novaAvaliacao: int) returns (status: Status)
      requires Valid()
      modifies this`pedidos
      ensures Valid()
      ensures status in {Done, IllegalArgument, NotFound}
      ensures status == IllegalArgument <==> novaAvaliacao < 0 || novaAvaliacao > 5
      ensures status == NotFound <==> 0 <= novaAvaliacao <= 5 && idPedido !in old(pedidos)
      ensures status == Done ==> State() == WithRating(old(State()), idPedido, novaAvaliacao)
      ensures status != Done ==> State() == old(State())
    {
      if novaAvaliacao < 0 || novaAvaliacao > 5 {
        return IllegalArgument;
      }
      if idPedido !in pedidos {
        return NotFound;
      }
      pedidos := pedidos[idPedido := pedidos[idPedido].(avaliacao := Some(novaAvaliacao))];
      status := Done;
    }

    /** Whether line (`idPedido`, `idAlimento`) exists. */
    method VerificarItemExisteNoPedido(idPedido: int, idAlimento: int) returns (existe: bool)
      ensures existe <==> (idPedido, idAlimento) in itens
    {
      existe := (idPedido, idAlimento) in itens;
    }

    /** Undoes a transaction: both tables go back to `saved`. The id sequence
        is not rolled back, as database sequences are not transactional. */
    method Rollback(saved: Tables)
      requires Valid() && Consistent(saved, nextId)
      modifies this`pedidos, this`itens
      ensures Valid() && State() == saved
    {
      pedidos := saved.pedidos;
      itens := saved.itens;
    }
  }
}
