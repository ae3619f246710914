# FEIfood order core in Dafny

FEIfood is a desktop food-ordering application. A logged-in user builds an
order (`Pedido`) from catalog items (`Alimento`, either `Comida` or
`Bebida`) and submits it. Later the user can delete a stored order, edit
one of its lines, or rate it. Orders live in two relational tables:

- `Pedido`: the order headers.
- `Pedido_Alimento`: the order lines, keyed by (order id, food id).

This project models the sequential logic around those orders:

- `model.dfy` (module `Model`):
  - the entities;
  - the two kinds of food item;
  - the 8 % alcohol tax of `Bebida.calcularImposto`.
- `pedido.dfy` (module `Orders`):
  - the in-memory order as a class whose item map (food object → quantity) is updated in place;
  - the value-level functions that specify each update;
  - the order total as an order-independent sum, and the lemmas relating them.
- `alimento_dao.dfy` (module `FoodDao`): the mapping from one joined catalog row to a food item of the right kind.
- `pedido_dao.dfy` (module `OrderDao`):
  - the two tables as map fields of a `Database` class;
  - one method per order data-access operation, each proved against a function on table values;
  - the consistency invariant: every line belongs to an order, quantities are positive, ids come from the sequence.
- `controle_menu.dfy` (module `MenuController`):
  - the menu controller's guard and transaction logic;
  - every action returns an `Outcome` in place of a dialog;
  - a transaction is a snapshot of the tables, restored by `Rollback` on failure.

Food items are compared by object identity in the program: `Alimento`
defines neither `equals` nor `hashCode`. The model therefore keys carts by
references to a Dafny `class Alimento`, never by food id.

## Model

| member | source | states |
|---|---|---|
| Model.Variant.CalcularImposto | src/model/Bebida.java:12-41 | For a non-alcoholic beverage the tax is 0. Otherwise it is the given price (the argument, not the stored price) times 0.08. It lies between 0 and the price for non-negative prices. |
| Model.Alimento.constructor | src/model/Alimento.java:20-26 | A new food item object carries exactly the given data. |
| Orders.Added | src/model/Pedido.java:125 | Adding puts the item among the keys and keeps every other key. |
| Orders.Removed | src/model/Pedido.java:132-136 | Removing takes exactly that key out. |
| Orders.Diminished | src/model/Pedido.java:148-157 | Decreasing never adds a key. |
| Orders.AddedKeepsInvariant | src/model/Pedido.java:121-125 | An accepted add keeps every quantity in 1..Integer.MAX_VALUE. The item's quantity becomes old-or-0 plus q. Every other entry is unchanged. |
| Orders.DiminishedKeepsInvariant | src/model/Pedido.java:148-157 | Decreasing keeps quantities positive. The entry is removed when the amount reaches its quantity, otherwise reduced by the amount. Every other entry is unchanged. |
| Orders.DiminishUndoesAdd | src/model/Pedido.java:120-158 | Decreasing by the amount just added restores the previous cart, whether or not the item was present. |
| Orders.RemoveUndoesAddOfNewItem | src/model/Pedido.java:120-136 | Removing an item just added to a cart without it restores the cart. |
| Orders.AddedAllSums | src/model/Pedido.java:120-126 | Repeated adds of one item store the sum of the quantities and touch no other entry. |
| Orders.AddedAllIsAdded | src/model/Pedido.java:120-126 | Several adds of one item leave the same cart as one add of the sum of their quantities. |
| Orders.SumOverRemove | src/model/Pedido.java:164-176 | The total does not depend on the order in which entries are visited. |
| Orders.SumOverFrame | src/model/Pedido.java:164-176 | The total reads only the quantities of the entries it sums. |
| Orders.Total | src/model/Pedido.java:164-176 | An empty order totals 0. The total is the sum of price times quantity over every entry, with no tax; how it changes under adds and removes is stated by `TotalAdded` and `TotalRemoved`. |
| Orders.TotalNonNegative | src/model/Pedido.java:164-176 | With no negative price or quantity, the total is not negative. |
| Orders.TotalRemoved | src/model/Pedido.java:164-176 | Removing an entry lowers the total by its price times quantity. |
| Orders.TotalAdded | src/model/Pedido.java:164-176 | Adding q units raises the total by price times q. |
| Orders.TotalAddedAll | src/model/Pedido.java:164-176 | Repeated adds raise the total by price times the sum of the quantities. |
| Orders.AddInt32 | src/model/Pedido.java:125 | Java `int` addition: the result is always in the 32-bit range, differs from the true sum by a multiple of 2^32 (two's-complement wrap-around), and equals the true sum when that sum fits. |
| Orders.AddedAsWritten | src/model/Pedido.java:125 | The add as written, with wrapping `int` addition. |
| Orders.AddedAsWrittenBreaksInvariant | src/model/Pedido.java:125 | As written, adding 1 to a quantity of Integer.MAX_VALUE stores Integer.MIN_VALUE, so quantities are no longer all positive. |
| Orders.Pedido.constructor | src/model/Pedido.java:27-30 | A new order has no items, the current time, no id, no rating and no user. |
| Orders.Pedido.ForUser | src/model/Pedido.java:36-39 | A new order for a user has no items, the current time and that user. |
| Orders.Pedido.Loaded | src/model/Pedido.java:48-54 | The full constructor stores the given fields and starts with no items. |
| Orders.Pedido.GetItens | src/model/Pedido.java:102-106 | The returned copy has the same entries as the order. |
| Orders.Pedido.SetAvaliacao | src/model/Pedido.java:83-88 | A missing rating or one in 0..5 is stored. Any other value is refused and the previous rating kept. |
| Orders.Pedido.AdicionarItem | src/model/Pedido.java:120-126 | A null item or a quantity ≤ 0 is refused with the cart unchanged. Otherwise the cart becomes `Added` and the invariant holds. The corrected form also refuses a sum above Integer.MAX_VALUE (see Findings). |
| Orders.Pedido.RemoverItem | src/model/Pedido.java:132-136 | A null item changes nothing. Otherwise the cart becomes `Removed`. |
| Orders.Pedido.DiminuirQuantidadeItem | src/model/Pedido.java:144-158 | A null item or an amount ≤ 0 is refused with the cart unchanged. Otherwise the cart becomes `Diminished`, and the invariant holds. |
| Orders.Pedido.CalcularTotal | src/model/Pedido.java:164-176 | The loop computes the sum of price times quantity over all entries, with no tax; an empty order totals 0. |
| FoodDao.FromRow | src/dao/AlimentoDAO.java:98-124 | A row gives an item exactly when its type is "COMIDA" or "BEBIDA", with that row's id, name, description, price and establishment. "COMIDA" gives regular food. "BEBIDA" gives a beverage with alcohol 5.0 when the tax column (NULL read as 0) is positive, else 0.0. |
| FoodDao.ImpostoColumn | src/dao/AlimentoDAO.java:111 | The tax column as the driver reads it: NULL reads as 0, any other value as itself. |
| FoodDao.BuscarAlimentoPorId | src/dao/AlimentoDAO.java:85-125 | No row gives nothing. A found item carries the row's food id, which is the id looked up. A row of a known type always gives an item. |
| FoodDao.LoadedBeverageTax | src/dao/AlimentoDAO.java:116-119 | A loaded beverage has alcohol 0.0 or 5.0. It is taxed 8 % exactly when its row's tax column is positive. |
| FoodDao.FromRowToRow | src/dao/AlimentoDAO.java:114-120 | Storing an item and reading it back gives the same item exactly when its alcohol value is the one the reader infers from the tax column. |
| OrderDao.Rows | src/dao/PedidoDAO.java:82-90 | The lines of a cart: each entry gives line (order, food id) with its quantity. Every line belongs to that order. |
| OrderDao.HeaderOf | src/dao/PedidoDAO.java:51-58 | The inserted header holds the order's stored time, or the current time when it has none; its rating, NULL when it has none; and its user's id. |
| OrderDao.WithPedido | src/dao/PedidoDAO.java:45-93 | Inserting an order adds its header under the new id and keeps every other header. It adds one line (id, food id) per cart entry with that entry's quantity, keeps every line of other orders, and adds no line of any other order. |
| OrderDao.RowsAdd | src/dao/PedidoDAO.java:82-90 | One more cart entry with a new food id adds exactly its line. |
| OrderDao.RowsCount | src/dao/PedidoDAO.java:82-91 | With distinct food ids there is exactly one line per cart entry. |
| OrderDao.WithoutItem | src/dao/PedidoDAO.java:133-141 | Deleting line (p, a) removes that line only; every other line keeps its quantity. |
| OrderDao.WithItem | src/dao/PedidoDAO.java:115-121 | The upsert leaves line (p, a) holding q, with no other key added or removed and every other line keeping its quantity. |
| OrderDao.WithoutPedido | src/dao/PedidoDAO.java:153-162 | Deleting an order removes its header. By cascade it removes exactly the lines of that order. |
| OrderDao.WithRating | src/dao/PedidoDAO.java:178-183 | Rating replaces only that order's rating, keeping its time and user, every other header and every line. |
| OrderDao.WithPedidoConsistent | src/dao/PedidoDAO.java:45-96 | Inserting an order under the next id keeps the tables consistent. It adds one header and exactly one line per cart entry. |
| OrderDao.UpdatesConsistent | src/dao/PedidoDAO.java:108-192 | Line deletes, order deletes, upserts into existing orders with positive quantity, and ratings keep the tables consistent. |
| OrderDao.DeleteCascades | src/dao/PedidoDAO.java:143-162 | After deleting an order, no line of it remains and all other lines keep their quantities. |
| OrderDao.UpsertOverwrites | src/dao/PedidoDAO.java:115-121 | Upserting the same line twice equals upserting the last quantity. |
| OrderDao.DuplicateLine | src/dao/PedidoDAO.java:82-91 | A line already present for a food id not yet inserted means two cart entries share that food id. |
| OrderDao.InsertBatch | src/dao/PedidoDAO.java:78-93 | The batch loop succeeds exactly when the cart's food ids are distinct. It then adds exactly the cart's lines. On a primary-key clash it has added the lines of a clash-free part of the cart. |
| OrderDao.Database.constructor | src/dao/PedidoDAO.java:39-97 | An empty, consistent store whose sequence starts at 1. |
| OrderDao.Database.CriarPedido | src/dao/PedidoDAO.java:39-97 | A missing user or user id ≤ 0 is refused with nothing changed, the id sequence included. Otherwise the header is inserted under the next id: stored or current time, the rating, the user id. The id is written back into the order. The sequence advances by one. The call succeeds exactly when the cart's food ids are distinct, and then the store is `WithPedido`. On failure every existing line is kept with its quantity, and the only other lines are lines of the new order. |
| OrderDao.Database.InserirItens | src/dao/PedidoDAO.java:77-93 | The line batch for an existing order with no lines keeps the store consistent. It succeeds exactly when food ids are distinct, and then adds exactly the cart's lines. Every existing line is kept with its quantity, whatever the outcome. |
| OrderDao.Database.RemoverItemPedido | src/dao/PedidoDAO.java:133-141 | The store becomes `WithoutItem`; an absent line is no error. |
| OrderDao.Database.AdicionarOuAtualizarItemPedido | src/dao/PedidoDAO.java:108-124 | A quantity ≤ 0 acts exactly like the line delete. Otherwise the store becomes `WithItem` for an existing order. An unknown order is a constraint violation with the store unchanged. |
| OrderDao.Database.ExcluirPedido | src/dao/PedidoDAO.java:153-162 | The result is true exactly when the order existed. The store becomes `WithoutPedido`, which is unchanged when nothing matched. No owner is checked. |
| OrderDao.Database.AvaliarPedido | src/dao/PedidoDAO.java:173-192 | A rating outside 0..5 is refused before the store is touched. An unknown order is not-found with the store unchanged. Otherwise the store becomes `WithRating`. |
| OrderDao.Database.VerificarItemExisteNoPedido | src/dao/PedidoDAO.java:299-312 | True exactly when line (p, a) exists. Nothing changes. |
| OrderDao.Database.Rollback | src/controller/ControleMenu.java:480-482 | The tables return to the snapshot; the id sequence is not reset. |
| MenuController.ControleMenu.constructor | src/controller/ControleMenu.java:26-30 | The controller starts with an empty, unrated cart tied to the logged-in user, stamped with the current time and with no id yet. |
| MenuController.ControleMenu.BuscarNoPedido | src/controller/ControleMenu.java:389-395 | The search loop returns a cart key with the given food id, or null exactly when there is none. |
| MenuController.ControleMenu.AdicionarAlimentoAoPedidoAtual | src/controller/ControleMenu.java:329-373 | A quantity ≤ 0 is refused before the lookup. An unknown food is reported. Otherwise a freshly built item equal to the catalog's is added as a new entry. The cart is unchanged on every refusal. |
| MenuController.ControleMenu.AdicionarAlimentoSomandoPorId | src/controller/ControleMenu.java:329-373 | The corrected add: the quantity joins the entry already held for that food id, if any, so food ids stay distinct. The entry's item carries the catalog's data for that id. An add that would exceed Integer.MAX_VALUE is refused. |
| MenuController.ControleMenu.RemoverAlimentoDoPedidoAtual | src/controller/ControleMenu.java:378-405 | When some key has the food id, a key with that id is removed. Otherwise the cart is unchanged and "not in cart" is reported. |
| MenuController.ControleMenu.FazerPedido | src/controller/ControleMenu.java:442-499 | An empty cart or an invalid user changes nothing, the id sequence included. Otherwise the sequence advances by one. The submit succeeds exactly when the cart's food ids are distinct: the store gets the new order, whose header has no rating and the user's id, and the cart becomes a fresh empty, unrated order for the user with the current time and no id. On failure the store is rolled back and the cart kept. |
| MenuController.ControleMenu.ExcluirPedidoSelecionado | src/controller/ControleMenu.java:507-581 | Nothing happens unless confirmed. A found order is deleted with its lines. An unknown id is rolled back with the store unchanged. The id sequence is never touched. |
| MenuController.ControleMenu.EditarItemPedido | src/controller/ControleMenu.java:591-668 | A negative quantity is refused. Zero deletes the line only if it exists, otherwise "not found" with the store unchanged. A positive quantity upserts into an existing order. An unknown order rolls back with the store unchanged. The id sequence is never touched. |
| MenuController.ControleMenu.AvaliarPedidoSelecionado | src/controller/ControleMenu.java:263-320 | An out-of-range rating or an unknown order rolls back with the store unchanged. Otherwise only that order's rating changes. The id sequence is never touched. |
| MenuController.AddedKeepsDistinct | src/controller/ControleMenu.java:353-356 | Adding to the entry already held for a food, or a food not yet held, keeps food ids distinct. |
| MenuController.DuplicateFoodSubmitFails | src/controller/ControleMenu.java:353-356 | Adding food 7 twice through the menu and then submitting fails. |
| MenuController.MergedFoodSubmitSucceeds | src/controller/ControleMenu.java:465-473 | With the merging add, the same two adds followed by a submit store order 1 with the single line (1, 7) → 2. |

## Left out

Not modelled:

- The Swing screens and dialogs: listing food and orders, showing details, the cart display, and the rating slider listener. Each action returns an `Outcome` instead.
- Parsing of the text fields (`Integer.parseInt` and its `NumberFormatException`). Controller actions take integers.
- Connection handling:
  - opening and closing connections;
  - `setAutoCommit`;
  - errors raised by the driver or the network.
  A transaction is a snapshot of both tables, restored on failure.
- The listing queries of both data-access objects, and the user store, login and registration.
- `double` rounding and `%.2f` formatting. Prices and tax are `real`.
- Timestamps. `LocalDateTime.now()` becomes a `now` parameter, and a timestamp is an opaque value.

Modelling choices:

- The setters of `Alimento` are not used by the ordering code. Its fields are constants, and only object identity matters for cart keys.
- Of the foreign keys, only `Pedido_Alimento.id_pedido → Pedido` is modelled: an upsert into a missing order fails, and deletes cascade. The food table is not part of the order store, so `id_alimento` is unchecked.
- Rollback restores both tables but not the id sequence, as database sequences are not transactional.
- The catalog is a map from food id to its joined row. `KeyedById` records that each row sits under its own id, and the controller invariant `FromCatalog` records that every cart item was built from the catalog row of its own id.
- No ownership check is made when an order is deleted or rated, matching the program, although its messages mention ownership.

Weakened contracts:

- OrderDao.Database.CriarPedido: the "no rows affected" and "no generated key" failures of the header insert are not modelled. An insert into the in-memory tables always succeeds and the sequence always yields a key.
- OrderDao.Database.CriarPedido: on a primary-key clash, which lines of the batch were written depends on map iteration order. The contract only says that every existing line is kept and that any added line belongs to the new order. The controller always rolls back.
- MenuController.ControleMenu.RemoverAlimentoDoPedidoAtual: when the cart holds several entries for one food id (see Findings), the program removes the first one in `HashMap` iteration order. The model removes some matching entry, because that order is not specified.
- MenuController.ControleMenu.BuscarNoPedido: for the same reason, it returns some cart key with the food id, not the first in iteration order.
- MenuController.ControleMenu.FazerPedido: the `IllegalArgumentException` path of the data-access call cannot arise here, because the controller checks the user first. It is covered only through `CriarPedido`.

## Findings

| source | as written | input that shows it | evidently intended | confidence | as-written member | corrected member |
|---|---|---|---|---|---|---|
| src/model/Pedido.java:125 | `getOrDefault(alimento, 0) + quantidade` is Java `int` addition, which wraps | an entry holding 2147483647, then `adicionarItem` of the same item with quantity 1, stores -2147483648 | quantities stay positive; an add past Integer.MAX_VALUE is refused like other bad input | not executed | Orders.AddedAsWrittenBreaksInvariant | Orders.Pedido.AdicionarItem |
| src/controller/ControleMenu.java:353-356 | every add builds a new `Alimento` object, so a cart keyed by identity gets a second entry for a food already in it | add food 7 twice, then submit: the batch at src/dao/PedidoDAO.java:82-91 inserts (id, 7) twice and violates the primary key, so the order cannot be submitted | a repeated food adds to the existing entry's quantity | not executed | MenuController.DuplicateFoodSubmitFails | MenuController.ControleMenu.AdicionarAlimentoSomandoPorId |
