/** Order creation from the catalog, with the points it awards, and the status
    change of an existing order. */
module OrderService {
  import opened Wrappers
  import opened Repository
  import opened Store
  import Text
  import P = ProductModel
  import O = OrderModel
  import I = OrderItemModel
  import U = UserModel
  import L = LoyaltyLogModel

  /** One element of the request's `itemsData`. */
  datatype ItemRequest = ItemRequest(producto_id: int, cantidad: int, notas: Option<string>)

  /** A priced line before the order exists: everything `order_items` stores but the order id. */
  datatype Line = Line(producto_id: int, cantidad: int, precio_unitario: int, notas: string)

  /** The product exists and is offered. */
  predicate Orderable(products: Table<P.Product>, id: int)
  {
    id in products.rows && products.rows[id].disponible
  }

  /** The error a request line that cannot be priced raises. */
  function Refusal(products: Table<P.Product>, req: ItemRequest): string
  {
    if req.producto_id !in products.rows then "Producto con ID " + Text.IntToString(req.producto_id) + " no encontrado"
    else "El producto " + products.rows[req.producto_id].nombre + " no está disponible"
  }

  /** One turn of the pricing loop: the catalog price is frozen into the line and missing notes become `''`. */
  function PriceOne(products: Table<P.Product>, req: ItemRequest): (r: Result<Line, string>)
    ensures r.Ok? <==> Orderable(products, req.producto_id)
    ensures r.Ok? ==> && r.value.producto_id == req.producto_id && r.value.cantidad == req.cantidad
                      && r.value.precio_unitario == products.rows[req.producto_id].precio
                      && r.value.notas == StrOr(req.notas, "")
    ensures r.Err? ==> r.error == Refusal(products, req)
  {
    if req.producto_id !in products.rows then Err(Refusal(products, req))
    else
      var product := products.rows[req.producto_id];
      if !product.disponible then Err(Refusal(products, req))
      else Ok(Line(req.producto_id, req.cantidad, product.precio, StrOr(req.notas, "")))
  }

  /** The whole pricing loop: every line priced in order, or the first refusal. */
  function PriceItems(products: Table<P.Product>, reqs: seq<ItemRequest>): (r: Result<seq<Line>, string>)
    ensures r.Ok? <==> forall i :: 0 <= i < |reqs| ==> Orderable(products, reqs[i].producto_id)
    ensures r.Ok? ==> |r.value| == |reqs|
    ensures r.Ok? ==> forall i :: 0 <= i < |reqs| ==> PriceOne(products, reqs[i]) == Ok(r.value[i])
  {
    if reqs == [] then Ok([])
    else
      var init := reqs[..|reqs| - 1];
      var prev := PriceItems(products, init);
      assert forall i :: 0 <= i < |init| ==> init[i] == reqs[i];
      if prev.Err? then prev
      else
        var line := PriceOne(products, reqs[|reqs| - 1]);
        if line.Err? then Err(line.error) else Ok(prev.value + [line.value])
  }

  /** Once a line is refused the loop stops with that line's error: earlier lines priced, later ones never looked at. */
  lemma {:induction false} PriceItemsStops(products: Table<P.Product>, reqs: seq<ItemRequest>, i: int)
    requires 0 <= i < |reqs|
    requires PriceItems(products, reqs[..i]).Ok? && !Orderable(products, reqs[i].producto_id)
    ensures PriceItems(products, reqs) == Err(Refusal(products, reqs[i]))
    decreases |reqs|
  {
    var init := reqs[..|reqs| - 1];
    if i < |reqs| - 1 {
      assert init[..i] == reqs[..i];
      PriceItemsStops(products, init, i);
    } else {
      assert init == reqs[..i];
    }
  }

  /** Extending a priced prefix by one more priced line. */
  lemma PriceItemsStep(products: Table<P.Product>, reqs: seq<ItemRequest>, i: int, lines: seq<Line>)
    requires 0 <= i < |reqs|
    requires PriceItems(products, reqs[..i]) == Ok(lines) && Orderable(products, reqs[i].producto_id)
    ensures PriceItems(products, reqs[..i + 1]) == Ok(lines + [PriceOne(products, reqs[i]).value])
  {
    assert reqs[..i + 1][..i] == reqs[..i];
  }

  /** `totalCalculado`: the sum of price times quantity over the lines. */
  function LinesTotal(lines: seq<Line>): int
  {
    if lines == [] then 0
    else LinesTotal(lines[..|lines| - 1]) + lines[|lines| - 1].precio_unitario * lines[|lines| - 1].cantidad
  }

  /** The reference total: the current catalog price of each requested product times its quantity. */
  function CatalogTotal(products: Table<P.Product>, reqs: seq<ItemRequest>): int
    requires forall i :: 0 <= i < |reqs| ==> reqs[i].producto_id in products.rows
  {
    if reqs == [] then 0
    else
      var last := reqs[|reqs| - 1];
      CatalogTotal(products, reqs[..|reqs| - 1]) + products.rows[last.producto_id].precio * last.cantidad
  }

  /** Pricing one more request line adds that line's catalog price times its quantity. */
  lemma {:induction false} PricedTotalStep(products: Table<P.Product>, reqs: seq<ItemRequest>)
    requires reqs != [] && PriceItems(products, reqs).Ok?
    ensures PriceItems(products, reqs[..|reqs| - 1]).Ok?
    ensures reqs[|reqs| - 1].producto_id in products.rows
    ensures LinesTotal(PriceItems(products, reqs).value)
         == LinesTotal(PriceItems(products, reqs[..|reqs| - 1]).value)
            + products.rows[reqs[|reqs| - 1].producto_id].precio * reqs[|reqs| - 1].cantidad
  {
    var init := reqs[..|reqs| - 1];
    var last := reqs[|reqs| - 1];
    assert forall i :: 0 <= i < |init| ==> init[i] == reqs[i];
    var prev := PriceItems(products, init).value;
    var line := PriceOne(products, last).value;
    var lines := PriceItems(products, reqs).value;
    assert lines == prev + [line];
    assert lines[..|lines| - 1] == prev;
  }

  /** The order total the loop charges is the catalog total of the request. */
  lemma {:induction false} PricedTotal(products: Table<P.Product>, reqs: seq<ItemRequest>)
    requires PriceItems(products, reqs).Ok?
    ensures LinesTotal(PriceItems(products, reqs).value) == CatalogTotal(products, reqs)
    decreases |reqs|
  {
    if reqs != [] {
      PricedTotalStep(products, reqs);
      PricedTotal(products, reqs[..|reqs| - 1]);
    }
  }

  /** `Math.floor(totalCalculado / 10)` with the total in cents: one point per 10 currency units. */
  function Points(total: int): (r: int)
    ensures 1000 * r <= total < 1000 * r + 1000
  {
    total / 1000
  }

  /** The bulk-created rows: each line with the new order's id. */
  function Attach(lines: seq<Line>, orderId: int): (r: seq<I.OrderItem>)
    ensures |r| == |lines|
    ensures forall i :: 0 <= i < |r| ==>
      r[i] == I.OrderItem(orderId, lines[i].producto_id, lines[i].cantidad, lines[i].precio_unitario, Some(lines[i].notas))
  {
    if lines == [] then []
    else
      var init := lines[..|lines| - 1];
      var last := lines[|lines| - 1];
      assert forall i :: 0 <= i < |init| ==> init[i] == lines[i];
      Attach(init, orderId) + [I.OrderItem(orderId, last.producto_id, last.cantidad, last.precio_unitario, Some(last.notas))]
  }

  /** The error `user.increment` raises when `User.findByPk` found nobody. */
  const NullUser := "Cannot read properties of null (reading 'increment')"

  /** The header `createOrder` writes for priced lines. */
  function Header(userId: int, lines: seq<Line>, now: int): O.Order
  {
    var total := LinesTotal(lines);
    O.Order(userId, O.Pendiente, total, Points(total), Some("efectivo"), now)
  }

  /** The accrual entry `createOrder` logs for an order. */
  function Accrual(userId: int, orderId: int, lines: seq<Line>, now: int): L.Entry
  {
    L.Entry(userId, Some(orderId), L.Acumulacion, Points(LinesTotal(lines)), now)
  }

  /** The committed writes of `createOrder`: the header under the next order id,
      one item row per line, the balance increment and the accrual entry. */
  function Committed(s: State, userId: int, lines: seq<Line>, now: int): (s': State)
    requires TablesWf(s)
    ensures TablesWf(s')
  {
    var orderId := s.orders.nextId;
    s.(orders := Insert(s.orders, Header(userId, lines, now)).0,
       items := InsertAll(s.items, Attach(lines, orderId)),
       users := Credit(s.users, userId, Points(LinesTotal(lines))),
       log := s.log + [Accrual(userId, orderId, lines, now)])
  }

  /** `createOrder` as written. The order header is written through the repository,
      which drops the `{ transaction }` option, so it is committed at once; the
      item rows, the balance increment and the log entry are inside the database
      transaction. Only a missing user can fail after the header is written, and
      the rollback then keeps the header. The new order's id is the next id. */
  function OrderCreation(s: State, userId: int, reqs: seq<ItemRequest>, now: int): (res: (State, Result<int, string>))
    requires TablesWf(s)
    ensures res.1.Ok? <==> PriceItems(s.products, reqs).Ok? && userId in s.users.rows
    ensures PriceItems(s.products, reqs).Err? ==> res == (s, Err(PriceItems(s.products, reqs).error))
    ensures res.1.Ok? ==> res.1.value == s.orders.nextId && res.1.value !in s.orders.rows && res.1.value in res.0.orders.rows
    ensures PriceItems(s.products, reqs).Ok? && userId !in s.users.rows ==>
      && res.1 == Err(NullUser)
      && res.0.orders.rows.Keys == s.orders.rows.Keys + {s.orders.nextId}
      && res.0.items == s.items && res.0.users == s.users && res.0.log == s.log
  {
    var priced := PriceItems(s.products, reqs);
    if priced.Err? then (s, Err(priced.error))
    else if userId !in s.users.rows then (s.(orders := Insert(s.orders, Header(userId, priced.value, now)).0), Err(NullUser))
    else (Committed(s, userId, priced.value, now), Ok(s.orders.nextId))
  }

  /** `createOrder` with the header inside the database transaction, as the rollback
      intends: on any error nothing is written. */
  function AtomicOrderCreation(s: State, userId: int, reqs: seq<ItemRequest>, now: int): (res: (State, Result<int, string>))
    requires TablesWf(s)
    ensures res.1.Err? ==> res.0 == s
    ensures res.1.Ok? <==> PriceItems(s.products, reqs).Ok? && userId in s.users.rows
  {
    var (after, r) := OrderCreation(s, userId, reqs, now);
    if r.Err? then (s, r) else (after, r)
  }

  /** A committed order creation adds exactly the header, under a fresh id. */
  lemma CommittedOrder(s: State, userId: int, lines: seq<Line>, now: int)
    requires TablesWf(s)
    ensures var s' := Committed(s, userId, lines, now);
      && s.orders.nextId !in s.orders.rows
      && s'.orders.rows == s.orders.rows[s.orders.nextId := O.Order(userId, O.Pendiente, LinesTotal(lines),
                                                                   Points(LinesTotal(lines)), Some("efectivo"), now)]
      && s'.products == s.products && s'.transactions == s.transactions
  {
  }

  /** A committed order creation adds one item row per line, in order, each carrying
      the new order's id, and keeps every earlier item row. */
  lemma CommittedItems(s: State, userId: int, lines: seq<Line>, now: int)
    requires TablesWf(s)
    ensures var s' := Committed(s, userId, lines, now);
      && s'.items.nextId == s.items.nextId + |lines|
      && (forall k :: s.items.nextId <= k < s'.items.nextId ==>
            && k in s'.items.rows
            && var line := lines[k - s.items.nextId];
               s'.items.rows[k] ==
               I.OrderItem(s.orders.nextId, line.producto_id, line.cantidad, line.precio_unitario, Some(line.notas)))
      && (forall k :: k in s.items.rows ==> k in s'.items.rows && s'.items.rows[k] == s.items.rows[k])
  {
    var attached := Attach(lines, s.orders.nextId);
    var s' := Committed(s, userId, lines, now);
    assert s'.items == InsertAll(s.items, attached);
    forall k | s.items.nextId <= k < s'.items.nextId
      ensures k in s'.items.rows && s'.items.rows[k] == attached[k - s.items.nextId]
    {
      InsertAllAt(s.items, attached, k - s.items.nextId);
    }
  }

  /** A committed order creation raises only the buyer's balance, by the order's
      points, and logs exactly one accrual of that amount for the new order. */
  lemma CommittedBalance(s: State, userId: int, lines: seq<Line>, now: int)
    requires TablesWf(s) && userId in s.users.rows
    ensures var s' := Committed(s, userId, lines, now);
      var points := Points(LinesTotal(lines));
      && s'.users.rows.Keys == s.users.rows.Keys
      && s'.users.rows[userId].puntos_actuales == s.users.rows[userId].puntos_actuales + points
      && (forall u :: u in s.users.rows && u != userId ==> s'.users.rows[u] == s.users.rows[u])
      && s'.log == s.log + [L.Entry(userId, Some(s.orders.nextId), L.Acumulacion, points, now)]
  {
  }

  /** A successful order creation charges the catalog total of the request, and each
      item row freezes the catalog price of its product. */
  lemma CreateOrderPricesFromCatalog(s: State, userId: int, reqs: seq<ItemRequest>, now: int)
    requires TablesWf(s)
    ensures var (s', r) := AtomicOrderCreation(s, userId, reqs, now);
      r.Ok? ==>
        var total := CatalogTotal(s.products, reqs);
        && s'.orders.rows[r.value].total_pagar == total
        && s'.orders.rows[r.value].puntos_ganados == Points(total)
        && (forall k :: s.items.nextId <= k < s.items.nextId + |reqs| ==>
              && k in s'.items.rows
              && var item, req := s'.items.rows[k], reqs[k - s.items.nextId];
                 && item.pedido_id == r.value && item.producto_id == req.producto_id
                 && item.cantidad == req.cantidad
                 && item.precio_unitario == s.products.rows[req.producto_id].precio
                 && item.notas_personalizadas == Some(StrOr(req.notas, "")))
  {
    var (s', r) := AtomicOrderCreation(s, userId, reqs, now);
    if r.Ok? {
      var lines := PriceItems(s.products, reqs).value;
      PricedTotal(s.products, reqs);
      CommittedOrder(s, userId, lines, now);
      CommittedItems(s, userId, lines, now);
      forall i | 0 <= i < |reqs|
        ensures PriceOne(s.products, reqs[i]) == Ok(lines[i])
      {
      }
    }
  }

  /** Order creation keeps every balance equal to the net of its log entries. */
  lemma CreateOrderKeepsLedger(s: State, userId: int, reqs: seq<ItemRequest>, now: int)
    requires TablesWf(s) && LedgerConsistent(s)
    ensures LedgerConsistent(AtomicOrderCreation(s, userId, reqs, now).0)
  {
    var (s', r) := AtomicOrderCreation(s, userId, reqs, now);
    if r.Ok? {
      var lines := PriceItems(s.products, reqs).value;
      CreditLogged(s, Accrual(userId, s.orders.nextId, lines, now));
    }
  }

  /** An empty request is not refused: an order with total 0 and no points is written. */
  lemma EmptyOrderAccepted(s: State, userId: int, now: int)
    requires TablesWf(s) && userId in s.users.rows
    ensures var (s', r) := AtomicOrderCreation(s, userId, [], now);
      r.Ok? && s'.orders.rows[r.value].total_pagar == 0 && s'.orders.rows[r.value].puntos_ganados == 0
      && s'.items == s.items
  {
  }

  /** A request for one unit less than nothing is priced as one line at the catalog
      price, and the creation commits exactly that line. */
  lemma NegativeLinePriced(s: State, userId: int, productId: int, now: int)
    requires TablesWf(s) && userId in s.users.rows && Orderable(s.products, productId)
    ensures var lines := [Line(productId, -1, s.products.rows[productId].precio, "")];
      && LinesTotal(lines) == -s.products.rows[productId].precio
      && AtomicOrderCreation(s, userId, [ItemRequest(productId, -1, None)], now)
         == (Committed(s, userId, lines, now), Ok(s.orders.nextId))
  {
    var reqs := [ItemRequest(productId, -1, None)];
    var lines := [Line(productId, -1, s.products.rows[productId].precio, "")];
    assert reqs[..|reqs| - 1] == [];
    assert PriceOne(s.products, reqs[0]) == Ok(lines[0]);
    assert [] + [lines[0]] == lines;
    assert PriceItems(s.products, reqs) == Ok(lines);
    assert lines[..0] == [];
  }

  /** Bulk creation skips the `cantidad >= 1` validator: a negative quantity is stored
      and lowers the order total. */
  lemma NegativeQuantityStored(s: State, userId: int, productId: int, now: int)
    requires TablesWf(s) && userId in s.users.rows && Orderable(s.products, productId)
    ensures var (s', r) := AtomicOrderCreation(s, userId, [ItemRequest(productId, -1, None)], now);
      && r.Ok? && s.items.nextId in s'.items.rows && !I.Valid(s'.items.rows[s.items.nextId])
      && r.value in s'.orders.rows && s'.orders.rows[r.value].total_pagar == -s.products.rows[productId].precio
  {
    var price := s.products.rows[productId].precio;
    var lines := [Line(productId, -1, price, "")];
    NegativeLinePriced(s, userId, productId, now);
    var c := Committed(s, userId, lines, now);
    CommittedOrder(s, userId, lines, now);
    CommittedItems(s, userId, lines, now);
    var k := s.items.nextId;
    assert k in c.items.rows && c.items.rows[k] == I.OrderItem(s.orders.nextId, productId, -1, price, Some(""));
    assert c.orders.rows[s.orders.nextId].total_pagar == -price;
  }

  /** As written, a request for a user who no longer exists fails but leaves its
      order header behind, owned by nobody. */
  lemma MissingUserLeavesOrder(s: State, userId: int, reqs: seq<ItemRequest>, now: int)
    requires TablesWf(s) && userId !in s.users.rows && PriceItems(s.products, reqs).Ok?
    ensures var (s', r) := OrderCreation(s, userId, reqs, now);
      && r == Err(NullUser) && |s'.orders.rows| == |s.orders.rows| + 1
      && s'.orders.rows[s.orders.nextId].usuario_id !in s'.users.rows
      && s'.items == s.items && s'.users == s.users && s'.log == s.log
  {
  }

  /** `createOrder` on the connection: the pricing loop over the catalog, then the
      writes; on a missing user the transaction is rolled back, header included. */
  method CreateOrder(db: Db, userId: int, reqs: seq<ItemRequest>, now: int) returns (r: Result<int, string>)
    requires TablesWf(db.Snapshot())
    modifies db
    ensures (db.Snapshot(), r) == AtomicOrderCreation(old(db.Snapshot()), userId, reqs, now)
  {
    var saved := db.Snapshot();
    var total := 0;
    var lines: seq<Line> := [];
    var i := 0;
    while i < |reqs|
      invariant 0 <= i <= |reqs|
      invariant db.Snapshot() == saved
      invariant PriceItems(db.products, reqs[..i]) == Ok(lines)
      invariant total == LinesTotal(lines)
    {
      var req := reqs[i];
      var product := Lookup(db.products, req.producto_id);
      if product.None? || !product.value.disponible {
        PriceItemsStops(db.products, reqs, i);
        return Err(Refusal(db.products, req));
      }
      PriceItemsStep(db.products, reqs, i, lines);
      var line := Line(req.producto_id, req.cantidad, product.value.precio, StrOr(req.notas, ""));
      assert (lines + [line])[..|lines|] == lines;
      total := total + line.precio_unitario * line.cantidad;
      lines := lines + [line];
      i := i + 1;
    }
    assert reqs[..|reqs|] == reqs;
    r := WriteOrder(db, userId, lines, total, now);
  }

  /** The writes of `createOrder` after pricing: the header, the item rows, the
      balance increment and the accrual entry, all rolled back on a missing user. */
  method WriteOrder(db: Db, userId: int, lines: seq<Line>, total: int, now: int) returns (r: Result<int, string>)
    requires TablesWf(db.Snapshot()) && total == LinesTotal(lines)
    modifies db
    ensures userId !in old(db.users.rows) ==> db.Snapshot() == old(db.Snapshot()) && r == Err(NullUser)
    ensures userId in old(db.users.rows) ==>
      db.Snapshot() == Committed(old(db.Snapshot()), userId, lines, now) && r == Ok(old(db.orders.nextId))
  {
    var saved := db.Snapshot();
    var points := Points(total);
    var created := Insert(db.orders, O.Order(userId, O.Pendiente, total, points, Some("efectivo"), now));
    db.orders := created.0;
    var orderId := created.1;
    db.items := InsertAll(db.items, Attach(lines, orderId));
    if userId !in db.users.rows {
      db.Restore(saved);
      return Err(NullUser);
    }
    db.users := Credit(db.users, userId, points);
    db.log := db.log + [L.Entry(userId, Some(orderId), L.Acumulacion, points, now)];
    assert db.Snapshot() == Committed(saved, userId, lines, now);
    r := Ok(orderId);
  }

  /** `updateStatus(orderId, status)`: null for a missing order, a validation error
      for a status outside the enumeration, otherwise the order with only its
      `estado` replaced. */
  function StatusUpdate(orders: Table<O.Order>, orderId: int, status: string): (res: (Table<O.Order>, Result<Option<O.Order>, string>))
    ensures res.1.Ok? && res.1.value.None? <==> orderId !in orders.rows
    ensures res.1.Err? <==> orderId in orders.rows && status !in O.StatusWires
    ensures res.1.Ok? && res.1.value.Some? ==>
      && O.Wire(res.1.value.value.estado) == status
      && res.1.value.value == orders.rows[orderId].(estado := res.1.value.value.estado)
      && res.0.rows == orders.rows[orderId := res.1.value.value] && res.0.nextId == orders.nextId
    ensures !(res.1.Ok? && res.1.value.Some?) ==> res.0 == orders
  {
    if orderId !in orders.rows then (orders, Ok(None))
    else
      var parsed := O.ParseStatus(status);
      if parsed.None? then (orders, Err("Validation error: Validation isIn on estado failed"))
      else
        var updated := orders.rows[orderId].(estado := parsed.value);
        (Modify(orders, orderId, (o: O.Order) => o.(estado := parsed.value)), Ok(Some(updated)))
  }

  method UpdateStatus(db: Db, orderId: int, status: string) returns (r: Result<Option<O.Order>, string>)
    modifies db
    ensures (db.orders, r) == StatusUpdate(old(db.orders), orderId, status)
    ensures db.Snapshot() == old(db.Snapshot()).(orders := db.orders)
  {
    var res := StatusUpdate(db.orders, orderId, status);
    db.orders := res.0;
    r := res.1;
  }
}
