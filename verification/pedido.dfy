/** The in-memory order (cart): a map from food item objects to positive
    quantities, with add / remove / decrease operations, the rating setter and
    the order total. */
module Orders {
  import opened Model

  /** Quantity stored for `a`, or 0 when `a` is not in the map (`getOrDefault`). */
  function QuantityOf(m: map<Alimento, int>, a: Alimento): int
  {
    if a in m then m[a] else 0
  }

  /** The cart invariant: every stored quantity is positive and fits a Java `int`. */
  ghost predicate PositiveQuantities(m: map<Alimento, int>)
  {
    forall a :: a in m ==> 0 < m[a] <= MaxInt32
  }

  /** No two keys carry the same food id. Keys are compared by identity, so a
      map may hold two different objects for the same food. */
  ghost predicate DistinctFoodIds(m: map<Alimento, int>)
  {
    forall a, b :: a in m && b in m && a.id == b.id ==> a == b
  }

  // ---------------------------------------------------------------------
  // The item operations on map values

  /** Whether `adicionarItem(a, q)` accepts its arguments: a real item, a
      positive quantity, and a sum that stays within a Java `int`. */
  predicate AddAccepted(m: map<Alimento, int>, a: Alimento?, q: int)
  {
    a != null && q > 0 && QuantityOf(m, a) + q <= MaxInt32
  }

  /** The map after adding `q` units of `a`. */
  function Added(m: map<Alimento, int>, a: Alimento, q: int): (r: map<Alimento, int>)
    ensures r.Keys == m.Keys + {a}
  {
    m[a := QuantityOf(m, a) + q]
  }

  /** The map after removing `a` altogether. */
  function Removed(m: map<Alimento, int>, a: Alimento): (r: map<Alimento, int>)
    ensures r.Keys == m.Keys - {a}
  {
    m - {a}
  }

  /** The map after taking `q` units of `a` away: an absent item is left
      alone, an entry that would drop to zero or below is removed. */
  function Diminished(m: map<Alimento, int>, a: Alimento, q: int): (r: map<Alimento, int>)
    ensures r.Keys <= m.Keys
  {
    if a !in m then m
    else if m[a] - q <= 0 then m - {a}
    else m[a := m[a] - q]
  }

  lemma AddedKeepsInvariant(m: map<Alimento, int>, a: Alimento, q: int)
    requires PositiveQuantities(m) && AddAccepted(m, a, q)
    ensures PositiveQuantities(Added(m, a, q))
    ensures QuantityOf(Added(m, a, q), a) == QuantityOf(m, a) + q
    ensures forall b :: b != a ==> QuantityOf(Added(m, a, q), b) == QuantityOf(m, b)
  {
  }

  lemma DiminishedKeepsInvariant(m: map<Alimento, int>, a: Alimento, q: int)
    requires PositiveQuantities(m) && q > 0
    ensures PositiveQuantities(Diminished(m, a, q))
    ensures a in m && q >= m[a] ==> a !in Diminished(m, a, q)
    ensures a in m && q < m[a] ==> QuantityOf(Diminished(m, a, q), a) == m[a] - q
    ensures forall b :: b != a ==> QuantityOf(Diminished(m, a, q), b) == QuantityOf(m, b)
  {
  }

  /** Decreasing by the amount just added undoes the addition, whether the
      item was already present or not. */
  lemma DiminishUndoesAdd(m: map<Alimento, int>, a: Alimento, q: int)
    requires PositiveQuantities(m) && AddAccepted(m, a, q)
    ensures Diminished(Added(m, a, q), a, q) == m
  {
    var r := Diminished(Added(m, a, q), a, q);
    if a in m {
      assert r == m[a := m[a]];
    } else {
      assert r == m - {a};
    }
  }

  /** Removing an item just added to a cart that did not hold it gives the
      original cart back. */
  lemma RemoveUndoesAddOfNewItem(m: map<Alimento, int>, a: Alimento, q: int)
    requires a !in m
    ensures Removed(Added(m, a, q), a) == m
  {
    assert Removed(Added(m, a, q), a).Keys == m.Keys;
  }

  // ---------------------------------------------------------------------
  // Repeated additions of the same item

  function Sum(qs: seq<int>): int
  {
    if qs == [] then 0 else qs[0] + Sum(qs[1..])
  }

  /** The map after adding every quantity of `qs`, in order, for item `a`. */
  function AddedAll(m: map<Alimento, int>, a: Alimento, qs: seq<int>): map<Alimento, int>
    decreases |qs|
  {
    if qs == [] then m else AddedAll(Added(m, a, qs[0]), a, qs[1..])
  }

  /** Multiplication by a price distributes over a sum of quantities. */
  lemma Distributes(p: real, x: real, y: real)
    ensures p * (x + y) == p * x + p * y
  {
  }

  /** Adding the same item several times yields the sum of the quantities. */
  lemma {:induction false} AddedAllSums(m: map<Alimento, int>, a: Alimento, qs: seq<int>)
    ensures QuantityOf(AddedAll(m, a, qs), a) == QuantityOf(m, a) + Sum(qs)
    ensures AddedAll(m, a, qs).Keys == if qs == [] then m.Keys else m.Keys + {a}
    ensures forall b :: b != a ==> QuantityOf(AddedAll(m, a, qs), b) == QuantityOf(m, b)
    decreases |qs|
  {
    if qs != [] {
      AddedAllSums(Added(m, a, qs[0]), a, qs[1..]);
    }
  }

  /** Adding an item several times is adding the sum of the quantities once. */
  lemma AddedAllIsAdded(m: map<Alimento, int>, a: Alimento, qs: seq<int>)
    requires qs != []
    ensures AddedAll(m, a, qs) == Added(m, a, Sum(qs))
  {
    AddedAllSums(m, a, qs);
    var r, r' := AddedAll(m, a, qs), Added(m, a, Sum(qs));
    forall b | b in r
      ensures r[b] == r'[b]
    {
      assert QuantityOf(r, b) == r[b];
    }
  }

  // ---------------------------------------------------------------------
  // The order total

  /** Sum of price times quantity over the entries of `m` whose keys are in `keys`. */
  ghost function SumOver(m: map<Alimento, int>, keys: set<Alimento>): real
    requires keys <= m.Keys
    decreases keys
  {
    if keys == {} then 0.0
    else
      var a :| a in keys;
      a.preco * (m[a] as real) + SumOver(m, keys - {a})
  }

  /** The total of an order: the sum of price times quantity over all of its
      entries. No beverage tax is added. */
  ghost function Total(m: map<Alimento, int>): (r: real)
    ensures m == map[] ==> r == 0.0
  {
    SumOver(m, m.Keys)
  }

  /** With no negative price or quantity, an order's total is not negative. */
  lemma TotalNonNegative(m: map<Alimento, int>)
    requires forall a :: a in m ==> 0.0 <= a.preco && 0 <= m[a]
    ensures 0.0 <= Total(m)
  {
    SumOverNonNegative(m, m.Keys);
  }

  /** With no negative price or quantity, no partial sum is negative. */
  lemma {:induction false} SumOverNonNegative(m: map<Alimento, int>, keys: set<Alimento>)
    requires keys <= m.Keys
    ensures (forall a :: a in keys ==> 0.0 <= a.preco && 0 <= m[a]) ==> 0.0 <= SumOver(m, keys)
    decreases keys
  {
    if keys != {} {
      var b :| b in keys;
      SumOverRemove(m, keys, b);
      SumOverNonNegative(m, keys - {b});
      if forall a :: a in keys ==> 0.0 <= a.preco && 0 <= m[a] {
        assert 0.0 <= b.preco * (m[b] as real);
      }
    }
  }

  /** The sum does not depend on which entry is taken first. */
  lemma {:induction false} SumOverRemove(m: map<Alimento, int>, keys: set<Alimento>, b: Alimento)
    requires keys <= m.Keys && b in keys
    ensures SumOver(m, keys) == b.preco * (m[b] as real) + SumOver(m, keys - {b})
    decreases keys
  {
    var a :| a in keys && SumOver(m, keys) == a.preco * (m[a] as real) + SumOver(m, keys - {a});
    if a != b {
      SumOverRemove(m, keys - {a}, b);
      SumOverRemove(m, keys - {b}, a);
      assert keys - {a} - {b} == keys - {b} - {a};
    }
  }

  /** The sum only reads the entries it ranges over. */
  lemma {:induction false} SumOverFrame(m1: map<Alimento, int>, m2: map<Alimento, int>, keys: set<Alimento>)
    requires keys <= m1.Keys && keys <= m2.Keys
    requires forall a :: a in keys ==> m1[a] == m2[a]
    ensures SumOver(m1, keys) == SumOver(m2, keys)
    decreases keys
  {
    if keys != {} {
      var a :| a in keys;
      SumOverRemove(m1, keys, a);
      SumOverRemove(m2, keys, a);
      SumOverFrame(m1, m2, keys - {a});
    }
  }

  /** Removing an entry takes its price times quantity off the total. */
  lemma TotalRemoved(m: map<Alimento, int>, a: Alimento)
    ensures Total(Removed(m, a)) == Total(m) - a.preco * (QuantityOf(m, a) as real)
  {
    if a in m {
      SumOverRemove(m, m.Keys, a);
      SumOverFrame(m, m - {a}, m.Keys - {a});
      assert (m - {a}).Keys == m.Keys - {a};
    } else {
      assert m - {a} == m && a.preco * (QuantityOf(m, a) as real) == 0.0;
    }
  }

  /** Adding `q` units of `a` adds `a`'s price times `q` to the total. */
  lemma TotalAdded(m: map<Alimento, int>, a: Alimento, q: int)
    ensures Total(Added(m, a, q)) == Total(m) + a.preco * (q as real)
  {
    var r := Added(m, a, q);
    var before := QuantityOf(m, a) as real;
    assert (m - {a}).Keys == r.Keys - {a};
    SumOverRemove(r, r.Keys, a);
    SumOverFrame(r, m - {a}, r.Keys - {a});
    assert r[a] as real == before + q as real && Removed(m, a) == m - {a};
    assert Total(r) == a.preco * (before + q as real) + Total(Removed(m, a));
    TotalRemoved(m, a);
    Distributes(a.preco, before, q as real);
  }

  /** Adding the same item several times raises the total by its price times
      the sum of the quantities. */
  lemma TotalAddedAll(m: map<Alimento, int>, a: Alimento, qs: seq<int>)
    ensures Total(AddedAll(m, a, qs)) == Total(m) + a.preco * (Sum(qs) as real)
  {
    if qs != [] {
      AddedAllIsAdded(m, a, qs);
      TotalAdded(m, a, Sum(qs));
    } else {
      assert AddedAll(m, a, qs) == m && a.preco * (Sum(qs) as real) == 0.0;
    }
  }

  // ---------------------------------------------------------------------
  // Java `int` addition, as `adicionarItem` actually computes it

  /** `x + y` on Java `int`s: the mathematical sum wrapped into 32 bits. */
  function AddInt32(x: int, y: int): (r: int)
    ensures MinInt32 <= r <= MaxInt32
    ensures MinInt32 <= x + y <= MaxInt32 ==> r == x + y
    ensures (x + y - r) % 0x1_0000_0000 == 0
  {
    (x + y - MinInt32) % 0x1_0000_0000 + MinInt32
  }

  /** The map after `adicionarItem(a, q)` exactly as written, where the new
      quantity is computed with wrapping `int` addition. */
  function AddedAsWritten(m: map<Alimento, int>, a: Alimento, q: int): (r: map<Alimento, int>)
    ensures r.Keys == m.Keys + {a}
  {
    m[a := AddInt32(QuantityOf(m, a), q)]
  }

  /** As written, adding one unit to an entry that already holds
      Integer.MAX_VALUE stores a negative quantity, breaking the cart invariant. */
  lemma AddedAsWrittenBreaksInvariant(m: map<Alimento, int>, a: Alimento)
    requires PositiveQuantities(m) && a in m && m[a] == MaxInt32
    ensures AddedAsWritten(m, a, 1)[a] == MinInt32
    ensures !PositiveQuantities(AddedAsWritten(m, a, 1))
  {
    assert AddedAsWritten(m, a, 1)[a] == MinInt32;
  }

  // ---------------------------------------------------------------------
  // The order object

  class Pedido {
    var id: int
    var dataHora: Option<Timestamp>
    var avaliacao: Option<int>
    var usuario: Option<Usuario>
    var itens: map<Alimento, int>

    ghost predicate Valid()
      reads this
    {
      PositiveQuantities(itens)
    }

    /** A new order stamped with the current instant `now`. */
    constructor (now: Timestamp)
      ensures Valid()
      ensures itens == map[] && dataHora == Some(now)
      ensures id == 0 && avaliacao == None && usuario == None
    {
      id := 0;
      dataHora := Some(now);
      avaliacao := None;
      usuario := None;
      itens := map[];
    }

    /** A new order of `usuario`, stamped with `now`. */
    constructor ForUser(usuario: Option<Usuario>, now: Timestamp)
      ensures Valid()
      ensures itens == map[] && dataHora == Some(now) && this.usuario == usuario
      ensures id == 0 && avaliacao == None
    {
      id := 0;
      dataHora := Some(now);
      avaliacao := None;
      this.usuario := usuario;
      itens := map[];
    }

    /** An order loaded from the store; the rating is taken as given. */
    constructor Loaded(id: int, dataHora: Option<Timestamp>, avaliacao: Option<int>, usuario: Option<Usuario>)
      ensures Valid()
      ensures itens == map[]
      ensures this.id == id && this.dataHora == dataHora
      ensures this.avaliacao == avaliacao && this.usuario == usuario
    {
      this.id := id;
      this.dataHora := dataHora;
      this.avaliacao := avaliacao;
      this.usuario := usuario;
      itens := map[];
    }

    /** A copy of the item map; every quantity in it is positive. */
    function GetItens(): (m: map<Alimento, int>)
      reads this
      requires Valid()
      ensures PositiveQuantities(m)
      ensures m.Keys == itens.Keys
      ensures forall a :: a in m ==> m[a] == itens[a]
    {
      itens
    }

    /** Sets the rating; only an absent rating or one in 0..5 is accepted,
        otherwise the previous rating is kept and `ok` is false. */
    method SetAvaliacao(nota: Option<int>) returns (ok: bool)
      modifies this`avaliacao
      ensures ok <==> nota.None? || 0 <= nota.value <= 5
      ensures avaliacao == if ok then nota else old(avaliacao)
    {
      if nota.Some? && (nota.value < 0 || nota.value > 5) {
        ok := false;
        return;
      }
      ok := true;
      avaliacao := nota;
    }

    /** Adds `quantidade` units of `alimento`, summing with what is already
        there. A null item, a non-positive quantity or a sum beyond
        Integer.MAX_VALUE is rejected and the map is left unchanged. */
    method AdicionarItem(alimento: Alimento?, quantidade: int) returns (ok: bool)
      requires Valid()
      modifies this`itens
      ensures Valid()
      ensures ok <==> AddAccepted(old(itens), alimento, quantidade)
      ensures ok ==> itens == Added(old(itens), alimento, quantidade)
      ensures !ok ==> itens == old(itens)
    {
      if alimento == null || quantidade <= 0 || QuantityOf(itens, alimento) + quantidade > MaxInt32 {
        ok := false;
        return;
      }
      AddedKeepsInvariant(itens, alimento, quantidade);
      itens := itens[alimento := QuantityOf(itens, alimento) + quantidade];
      ok := true;
    }

    /** Removes `alimento` completely; a null or absent item changes nothing. */
    method RemoverItem(alimento: Alimento?)
      requires Valid()
      modifies this`itens
      ensures Valid()
      ensures alimento == null ==> itens == old(itens)
      ensures alimento != null ==> itens == Removed(old(itens), alimento)
    {
      if alimento != null {
        itens := itens - {alimento};
      }
    }

    /** Takes `quantidade` units of `alimento` away, removing the entry when
        nothing would be left. A null item or a non-positive amount is
        rejected; an absent item is left alone. */
    method DiminuirQuantidadeItem(alimento: Alimento?, quantidade: int) returns (ok: bool)
      requires Valid()
      modifies this`itens
      ensures Valid()
      ensures ok <==> alimento != null && quantidade > 0
      ensures ok ==> itens == Diminished(old(itens), alimento, quantidade)
      ensures !ok ==> itens == old(itens)
    {
      if alimento == null || quantidade <= 0 {
        ok := false;
        return;
      }
      ok := true;
      DiminishedKeepsInvariant(itens, alimento, quantidade);
      if alimento in itens {
        var novaQuantidade := itens[alimento] - quantidade;
        if novaQuantidade <= 0 {
          itens := itens - {alimento};
        } else {
          itens := itens[alimento := novaQuantidade];
        }
      }
    }

    /** The order total, accumulated entry by entry. */
    method CalcularTotal() returns (total: real)
      ensures total == Total(itens)
      ensures itens == map[] ==> total == 0.0
    {
      total := 0.0;
      var pendentes := itens.Keys;
      while pendentes != {}
        invariant pendentes <= itens.Keys
        invariant total + SumOver(itens, pendentes) == Total(itens)
        decreases pendentes
      {
        var a :| a in pendentes;
        SumOverRemove(itens, pendentes, a);
        total := total + a.preco * (itens[a] as real);
        pendentes := pendentes - {a};
      }
    }
  }
}
