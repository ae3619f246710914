/** Entities of the food-ordering domain: users, establishments and the food
    item hierarchy (regular food and beverages), with the beverage tax. */
module Model {

  datatype Option<+T> = None | Some(value: T)

  /** Bounds of a Java `int`. */
  const MaxInt32: int := 0x7fff_ffff
  const MinInt32: int := -0x8000_0000

  /** The instant stored in `data_hora`; only equality matters here. */
  datatype Timestamp = Timestamp(ticks: int)

  /** A logged-in user, as far as orders need it (the password is not used). */
  datatype Usuario = Usuario(id: int, nome: string, email: string)

  datatype Estabelecimento = Estabelecimento(id: int, nome: string, endereco: string)

  /** Tax rate on alcoholic beverages (8 %). */
  const PercentualImposto: real := 0.08

  /** The two concrete kinds of food item: regular food (`Comida`) and a
      beverage (`Bebida`), which carries an alcohol percentage. */
  datatype Variant = Comida | Bebida(percentualAlcool: real)
  {
    /** Tax owed by a beverage on the price passed in (not on its own price):
        8 % when it is alcoholic, nothing otherwise. */
    function CalcularImposto(preco: real): (r: real)
      requires Bebida?
      ensures percentualAlcool <= 0.0 ==> r == 0.0
      ensures percentualAlcool > 0.0 ==> r == preco * PercentualImposto
      ensures 0.0 <= preco ==> 0.0 <= r <= preco
    {
      if percentualAlcool > 0.0 then preco * PercentualImposto else 0.0
    }
  }

  /** The plain data of a food item. */
  datatype FoodData = FoodData(
    id: int,
    nome: string,
    descricao: string,
    preco: real,
    estabelecimento: Estabelecimento,
    variant: Variant)

  /** A food item object. Orders key their item maps by the object itself:
      two objects with the same `id` are two different keys. */
  class Alimento {
    const id: int
    const nome: string
    const descricao: string
    const preco: real
    const estabelecimento: Estabelecimento
    const variant: Variant

    constructor (d: FoodData)
      ensures Data() == d
    {
      id := d.id;
      nome := d.nome;
      descricao := d.descricao;
      preco := d.preco;
      estabelecimento := d.estabelecimento;
      variant := d.variant;
    }

    function Data(): FoodData
    {
      FoodData(id, nome, descricao, preco, estabelecimento, variant)
    }
  }
}
