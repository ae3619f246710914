/** Turning one catalog row (a food item joined with its establishment) into a
    food item of the right kind. */
module FoodDao {
  import opened Model

  /** One row of `Alimento` joined with its `Estabelecimento`.
      `percentualImposto` is None when the column is SQL NULL. */
  datatype FoodRow = FoodRow(
    idAlimento: int,
    nome: string,
    descricao: string,
    preco: real,
    tipoAlimento: string,
    percentualImposto: Option<real>,
    idEstabelecimento: int,
    nomeEstabelecimento: string,
    endereco: string)

  /** The tax column as read by the driver: a NULL reads as 0. */
  function ImpostoColumn(row: FoodRow): (r: real)
    ensures row.percentualImposto.None? ==> r == 0.0
    ensures row.percentualImposto.Some? ==> r == row.percentualImposto.value
  {
    match row.percentualImposto
    case None => 0.0
    case Some(v) => v
  }

  /** The establishment built from the same row. */
  function EstabelecimentoOf(row: FoodRow): Estabelecimento
  {
    Estabelecimento(row.idEstabelecimento, row.nomeEstabelecimento, row.endereco)
  }

  /** The food item a row stands for: a regular item for "COMIDA", a beverage
      for "BEBIDA" (alcohol inferred as 5.0 when the tax column is positive,
      0.0 otherwise), and nothing for any other type string. */
  function FromRow(row: FoodRow): (r: Option<FoodData>)
    ensures r.Some? <==> row.tipoAlimento == "COMIDA" || row.tipoAlimento == "BEBIDA"
    ensures r.Some? ==>
      && r.value.id == row.idAlimento
      && r.value.nome == row.nome
      && r.value.descricao == row.descricao
      && r.value.preco == row.preco
      && r.value.estabelecimento == Estabelecimento(row.idEstabelecimento, row.nomeEstabelecimento, row.endereco)
    ensures row.tipoAlimento == "COMIDA" ==> r.Some? && r.value.variant == Comida
    ensures row.tipoAlimento == "BEBIDA" && ImpostoColumn(row) > 0.0 ==> r.Some? && r.value.variant == Bebida(5.0)
    ensures row.tipoAlimento == "BEBIDA" && ImpostoColumn(row) <= 0.0 ==> r.Some? && r.value.variant == Bebida(0.0)
  {
    var estabelecimento := EstabelecimentoOf(row);
    if row.tipoAlimento == "COMIDA" then
      Some(FoodData(row.idAlimento, row.nome, row.descricao, row.preco, estabelecimento, Comida))
    else if row.tipoAlimento == "BEBIDA" then
      var percentualAlcool := if ImpostoColumn(row) > 0.0 then 5.0 else 0.0;
      Some(FoodData(row.idAlimento, row.nome, row.descricao, row.preco, estabelecimento, Bebida(percentualAlcool)))
    else
      None
  }

  /** The catalog is keyed by the food id of each row, as the lookup's
      `WHERE id_alimento = ?` on the primary key makes it. */
  ghost predicate KeyedById(rows: map<int, FoodRow>)
  {
    forall id :: id in rows ==> rows[id].idAlimento == id
  }

  /** Looks up food `id` in the joined catalog `rows` (keyed by food id) and
      builds the item; no row, or a row of unknown type, gives None. */
  function BuscarAlimentoPorId(rows: map<int, FoodRow>, id: int): (r: Option<FoodData>)
    ensures id !in rows ==> r == None
    ensures r.Some? ==> id in rows && r.value.id == rows[id].idAlimento
    ensures r.Some? && KeyedById(rows) ==> r.value.id == id
    ensures id in rows && rows[id].tipoAlimento in {"COMIDA", "BEBIDA"} ==> r.Some?
  {
    if id in rows then FromRow(rows[id]) else None
  }

  /** The alcohol percentage of a loaded beverage is always 0.0 or 5.0, and
      the 8 % tax applies to it exactly when the row's tax column is positive. */
  lemma LoadedBeverageTax(row: FoodRow, preco: real)
    requires row.tipoAlimento == "BEBIDA"
    ensures FromRow(row).Some? && FromRow(row).value.variant.Bebida?
    ensures FromRow(row).value.variant.percentualAlcool in {0.0, 5.0}
    ensures FromRow(row).value.variant.CalcularImposto(preco) ==
      if ImpostoColumn(row) > 0.0 then preco * PercentualImposto else 0.0
  {
  }

  /** The row a food item is stored as, with `impostoCol` as the tax column. */
  function ToRow(d: FoodData, impostoCol: Option<real>): FoodRow
  {
    FoodRow(d.id, d.nome, d.descricao, d.preco,
      if d.variant.Comida? then "COMIDA" else "BEBIDA",
      impostoCol,
      d.estabelecimento.id, d.estabelecimento.nome, d.estabelecimento.endereco)
  }

  /** Whether the tax column `impostoCol` is the one that makes `d` read back
      as itself: for a beverage, positive exactly when its alcohol is 5.0. */
  predicate Representable(d: FoodData, impostoCol: Option<real>)
  {
    match d.variant
    case Comida => true
    case Bebida(alcool) =>
      var col := match impostoCol case None => 0.0 case Some(v) => v;
      (alcool == 5.0 && col > 0.0) || (alcool == 0.0 && col <= 0.0)
  }

  /** Reading back a stored item gives the item itself exactly when its
      alcohol percentage is one of the two values the reader can infer. */
  lemma FromRowToRow(d: FoodData, impostoCol: Option<real>)
    ensures FromRow(ToRow(d, impostoCol)) == Some(d) <==> Representable(d, impostoCol)
  {
  }
}
