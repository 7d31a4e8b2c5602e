/** The payment flow against the card gateway: creating an intent with its local
    transaction row, confirming a paid intent (which may materialise the order),
    and refunding a settled payment. The gateway is never called: what it answers
    is a parameter of each operation. */
module PaymentService {
  import opened Wrappers
  import opened Repository
  import opened Store
  import Text
  import TR = TransactionRepository
  import T = TransactionModel
  import O = OrderModel
  import I = OrderItemModel
  import P = ProductModel
  import U = UserModel
  import L = LoyaltyLogModel

  /** What the gateway reports about an intent's first charge; `None` is a missing property. */
  datatype Charge = Charge(id: Option<string>, methodType: Option<string>, last4: Option<string>)

  /** A retrieved payment intent. `amount` is in cents. */
  datatype Intent = Intent(
    status: string,
    charge: Option<Charge>,
    lastError: Option<string>,
    amount: int,
    clientSecret: Option<string>)

  /** A payment intent the gateway has just created. */
  datatype CreatedIntent = CreatedIntent(id: string, clientSecret: Option<string>)

  /** A refund the gateway has just made; `amount` is in cents. */
  datatype GatewayRefund = GatewayRefund(id: string, amount: int)

  /** One element of the client's `productos`, priced by the client. */
  datatype ClientItem = ClientItem(producto_id: int, cantidad: int, precio_unitario: int, notas: Option<string>)

  /** The answer of `createPaymentIntent`. */
  datatype IntentReply = IntentReply(clientSecret: Option<string>, transactionId: int, paymentIntentId: string)

  /** The answer of `confirmPayment`: only `Confirmed` carries `success: true`. */
  datatype ConfirmReply =
    | Confirmed(amount: int, transactionId: int, orderId: Option<int>, paymentIntentId: string)
    | NeedsAction(clientSecret: Option<string>)
    | Processing
    | Declined(error: string)

  /** The answer of `refundPayment`; `amount` is in cents. */
  datatype RefundReply = RefundReply(refundId: string, amount: int)

  // ---------------------------------------------------------------- createPaymentIntent

  const BelowMinimum := "El monto mínimo es $0.50 USD"

  function CreateError(msg: string): string
  {
    "Error al crear pago: " + msg
  }

  /** The pending row recorded for a new intent; `amount` is in cents, which is what
      `monto = amount / 100` dollars stores. */
  function IntentRow(userId: int, pi: string, amount: int, description: Option<string>, now: int): T.Transaction
    requires amount >= 0
  {
    T.Build(T.TxFields(Some(userId), Some(pi), Some(amount), Some("USD"), Some("pending"), description), now).value
  }

  /** `createPaymentIntent(userId, amount, description)`: an amount under 50 cents is
      refused before the gateway is asked; a gateway failure leaves no row; otherwise
      one pending row keyed by the new intent id is added. */
  function IntentCreation(s: State, userId: int, amount: int, description: Option<string>,
                          gateway: Result<CreatedIntent, string>, now: int): (res: (State, Result<IntentReply, string>))
    requires TablesWf(s)
    ensures TablesWf(res.0)
    ensures amount < 50 ==> res == (s, Err(CreateError(BelowMinimum)))
    ensures amount >= 50 && gateway.Err? ==> res == (s, Err(CreateError(gateway.error)))
    ensures res.1.Ok? <==> amount >= 50 && gateway.Ok?
    ensures res.1.Err? ==> res.0 == s
    ensures res.1.Ok? ==>
      var id := res.1.value.transactionId;
      && id !in s.transactions.rows && id in res.0.transactions.rows
      && res.0 == s.(transactions := res.0.transactions)
      && res.0.transactions.rows == s.transactions.rows[id := res.0.transactions.rows[id]]
      && res.1.value.paymentIntentId == gateway.value.id
      && res.1.value.clientSecret == gateway.value.clientSecret
  {
    if amount < 50 then (s, Err(CreateError(BelowMinimum)))
    else if gateway.Err? then (s, Err(CreateError(gateway.error)))
    else
      var pi := gateway.value;
      var (transactions, id) := Insert(s.transactions, IntentRow(userId, pi.id, amount, description, now));
      (s.(transactions := transactions), Ok(IntentReply(pi.clientSecret, id, pi.id)))
  }

  /** The recorded row is pending, in USD, for the whole amount, owned by the payer,
      linked to no order and found again by its intent id. */
  lemma IntentRecorded(s: State, userId: int, amount: int, description: Option<string>, pi: CreatedIntent, now: int)
    requires TablesWf(s) && amount >= 50 && TR.IntentKey(s.transactions, pi.id).None?
    ensures var (s', r) := IntentCreation(s, userId, amount, description, Ok(pi), now);
      && r.Ok?
      && var row := s'.transactions.rows[r.value.transactionId];
      && row.estado == T.Pending && row.monto == amount && row.moneda == "USD"
      && row.usuario_id == userId && row.descripcion == description && row.pedido_id.None?
      && row.stripe_payment_intent_id == Some(pi.id) && row.fecha_creacion == now
      && row.fecha_confirmacion.None? && T.Valid(row)
      && TR.IntentKey(s'.transactions, pi.id) == Some(r.value.transactionId)
  {
    TR.IntentKeyInserted(s.transactions, pi.id, IntentRow(userId, pi.id, amount, description, now));
  }

  method CreatePaymentIntent(db: Db, userId: int, amount: int, description: Option<string>,
                             gateway: Result<CreatedIntent, string>, now: int) returns (r: Result<IntentReply, string>)
    requires TablesWf(db.Snapshot())
    modifies db
    ensures (db.Snapshot(), r) == IntentCreation(old(db.Snapshot()), userId, amount, description, gateway, now)
  {
    if amount < 50 {
      return Err(CreateError(BelowMinimum));
    }
    if gateway.Err? {
      return Err(CreateError(gateway.error));
    }
    var created := Insert(db.transactions, IntentRow(userId, gateway.value.id, amount, description, now));
    db.transactions := created.0;
    r := Ok(IntentReply(gateway.value.clientSecret, created.1, gateway.value.id));
  }

  // ---------------------------------------------------------------- confirmPayment

  const TxNotFound := "Transacción no encontrada en la base de datos"
  const QuantityRefused := "Validation error: Validation min on cantidad failed"

  function ConfirmError(msg: string): string
  {
    "Error al confirmar pago: " + msg
  }

  /** The columns a paid intent writes: the state, the charge id (or null), the
      payment method type (default `card`) and the last four digits (or null). */
  function ChargePatch(c: Option<Charge>): T.TxPatch
  {
    T.NoChange.(estado := Some(T.Succeeded),
                stripe_charge_id := Some(NullIfEmpty(if c.Some? then c.value.id else None)),
                metodo_pago := Some(Some(StrOr(if c.Some? then c.value.methodType else None, "card"))),
                ultimos_4_digitos := Some(NullIfEmpty(if c.Some? then c.value.last4 else None)))
  }

  /** One transaction row rewritten by a patch. */
  function Patched(s: State, txId: int, p: T.TxPatch): State
  {
    s.(transactions := Modify(s.transactions, txId, (t: T.Transaction) => T.Apply(t, p)))
  }

  /** `transaction.update({ pedido_id })`. */
  function Linked(s: State, txId: int, orderId: int): State
  {
    Patched(s, txId, T.NoChange.(pedido_id := Some(Some(orderId))))
  }

  /** The `reduce` over the client's items: the sum of the client's unit price times quantity. */
  function ClientTotal(ps: seq<ClientItem>): int
  {
    if ps == [] then 0
    else ClientTotal(ps[..|ps| - 1]) + ps[|ps| - 1].precio_unitario * ps[|ps| - 1].cantidad
  }

  /** `Math.floor(totalPagar * 1)` with the total in cents: one point per currency unit. */
  function ConfirmPoints(total: int): (r: int)
    ensures 100 * r <= total < 100 * r + 100
  {
    total / 100
  }

  /** The item rows the confirm path creates for a new order, one per client item. */
  function ClientRows(orderId: int, ps: seq<ClientItem>): (r: seq<I.OrderItem>)
    ensures |r| == |ps|
  {
    seq(|ps|, i requires 0 <= i < |ps| =>
      I.OrderItem(orderId, ps[i].producto_id, ps[i].cantidad, ps[i].precio_unitario, NullIfEmpty(ps[i].notas)))
  }

  /** Every row passes `OrderItem.create`'s validation. */
  predicate AllValid(rows: seq<I.OrderItem>)
  {
    forall i :: 0 <= i < |rows| ==> I.Valid(rows[i])
  }

  /** Every client item asks for at least one unit. */
  predicate PositiveQuantities(ps: seq<ClientItem>)
  {
    forall i :: 0 <= i < |ps| ==> ps[i].cantidad >= 1
  }

  /** The rows pass validation exactly when every item asks for at least one unit. */
  lemma ClientRowsValid(orderId: int, ps: seq<ClientItem>)
    ensures AllValid(ClientRows(orderId, ps)) <==> PositiveQuantities(ps)
  {
    var rows := ClientRows(orderId, ps);
    if AllValid(rows) {
      forall i | 0 <= i < |ps|
        ensures ps[i].cantidad >= 1
      {
        assert I.Valid(rows[i]);
      }
    }
  }

  /** The order header the confirm path writes for the client's items. */
  function PaidHeader(userId: int, ps: seq<ClientItem>, now: int): O.Order
  {
    var total := ClientTotal(ps);
    O.Order(userId, O.EnPreparacion, total, ConfirmPoints(total), Some("tarjeta"), now)
  }

  /** The new-order branch inside the database transaction: the header, one validated
      item row per client item, then the balance increment. The first row refused by
      validation aborts the branch. */
  function NewOrderWrites(s: State, userId: int, ps: seq<ClientItem>, now: int): (res: Result<(State, int), string>)
    requires TablesWf(s)
    ensures res.Ok? <==> PositiveQuantities(ps)
    ensures res.Ok? ==> TablesWf(res.value.0) && res.value.1 == s.orders.nextId
  {
    var (orders, orderId) := Insert(s.orders, PaidHeader(userId, ps, now));
    var rows := ClientRows(orderId, ps);
    ClientRowsValid(orderId, ps);
    if !AllValid(rows) then Err(QuantityRefused)
    else Ok((s.(orders := orders, items := InsertAll(s.items, rows),
                users := Credit(s.users, userId, ConfirmPoints(ClientTotal(ps)))), orderId))
  }

  /** What the database transaction does after the transaction row is marked paid:
      create the order (no `orderId`, some items), or move the given order to
      preparation, then link the transaction to the order. */
  function Settle(s: State, txId: int, orderId: Option<int>, userId: int, ps: seq<ClientItem>, now: int): (res: Result<(State, Option<int>), string>)
    requires TablesWf(s)
    ensures res.Ok? ==> TablesWf(res.value.0)
  {
    if !Truthy(orderId) && |ps| > 0 then
      var w := NewOrderWrites(s, userId, ps, now);
      if w.Err? then Err(w.error) else Ok((Linked(w.value.0, txId, w.value.1), Some(w.value.1)))
    else if Truthy(orderId) then
      var s' := s.(orders := Modify(s.orders, orderId.value, (o: O.Order) => o.(estado := O.EnPreparacion, metodo_pago := Some("tarjeta"))));
      Ok((Linked(s', txId, orderId.value), orderId))
    else Ok((s, orderId))
  }

  /** The row the intent id finds, and the buyer: the given user id when truthy,
      else the transaction's owner. */
  function Buyer(userId: Option<int>, tx: T.Transaction): int
  {
    if Truthy(userId) then userId.value else tx.usuario_id
  }

  /** `confirmPayment(pi, orderId, userId, productos)` as written, with `gw` the
      retrieved intent. The update that marks the row paid goes through the
      repository, which drops the `{ transaction }` option, so it is committed at
      once; everything after it is rolled back on an error. No loyalty entry is
      written, and the client's prices are trusted. */
  function Confirmation(s: State, pi: string, orderId: Option<int>, userId: Option<int>, ps: seq<ClientItem>,
                        gw: Result<Intent, string>, now: int): (res: (State, Result<ConfirmReply, string>))
    requires TablesWf(s)
    ensures TablesWf(res.0)
    ensures gw.Err? ==> res == (s, Err(ConfirmError(gw.error)))
    ensures gw.Ok? && TR.IntentKey(s.transactions, pi).None? ==> res == (s, Err(ConfirmError(TxNotFound)))
  {
    if gw.Err? then (s, Err(ConfirmError(gw.error)))
    else
      var intent := gw.value;
      var key := TR.IntentKey(s.transactions, pi);
      if key.None? then (s, Err(ConfirmError(TxNotFound)))
      else
        var id := key.value;
        var tx := s.transactions.rows[id];
        if intent.status == "succeeded" then
          var paid := Patched(s, id, ChargePatch(intent.charge));
          var settled := Settle(paid, id, orderId, Buyer(userId, tx), ps, now);
          if settled.Err? then (paid, Err(ConfirmError(settled.error)))
          else (settled.value.0, Ok(Confirmed(intent.amount, id, settled.value.1, pi)))
        else if intent.status == "requires_action" then
          (Patched(s, id, T.NoChange.(estado := Some(T.RequiresAction))), Ok(NeedsAction(intent.clientSecret)))
        else if intent.status == "processing" then
          (Patched(s, id, T.NoChange.(estado := Some(T.Pending))), Ok(Processing))
        else
          var msg := StrOr(intent.lastError, "Pago rechazado");
          (Patched(s, id, T.NoChange.(estado := Some(T.Failed), error_mensaje := Some(Some(msg)))), Ok(Declined(msg)))
  }

  /** Whether a confirmation of this intent materialises a new order. */
  predicate CreatesOrder(intent: Intent, orderId: Option<int>, ps: seq<ClientItem>)
  {
    intent.status == "succeeded" && !Truthy(orderId) && |ps| > 0
  }

  /** `confirmPayment` as evidently intended: a payment already settled against an
      order is answered again without writing anything; a new order's points are
      logged as an accrual; and an error rolls back every write, the paid mark
      included. */
  function SettledConfirmation(s: State, pi: string, orderId: Option<int>, userId: Option<int>, ps: seq<ClientItem>,
                               gw: Result<Intent, string>, now: int): (res: (State, Result<ConfirmReply, string>))
    requires TablesWf(s)
    ensures TablesWf(res.0)
    ensures res.1.Err? ==> res.0 == s
  {
    var key := TR.IntentKey(s.transactions, pi);
    if gw.Err? || key.None? then Confirmation(s, pi, orderId, userId, ps, gw, now)
    else
      var intent := gw.value;
      var tx := s.transactions.rows[key.value];
      if intent.status == "succeeded" && tx.estado == T.Succeeded && tx.pedido_id.Some? then
        (s, Ok(Confirmed(intent.amount, key.value, tx.pedido_id, pi)))
      else
        var (s', r) := Confirmation(s, pi, orderId, userId, ps, gw, now);
        if r.Err? then (s, r)
        else if CreatesOrder(intent, orderId, ps) then
          var points := ConfirmPoints(ClientTotal(ps));
          (s'.(log := s'.log + [L.Entry(Buyer(userId, tx), Some(s.orders.nextId), L.Acumulacion, points, now)]), r)
        else (s', r)
  }

  /** A paid intent on a row not yet settled: the corrected confirmation is the
      settlement of the paid row, with the accrual entry for a new order, or the
      untouched state after a refused settlement. */
  lemma SettledPaid(s: State, pi: string, id: int, orderId: Option<int>, userId: Option<int>, ps: seq<ClientItem>,
                    intent: Intent, now: int)
    requires TablesWf(s) && TR.IntentKey(s.transactions, pi) == Some(id) && intent.status == "succeeded"
    requires !(s.transactions.rows[id].estado == T.Succeeded && s.transactions.rows[id].pedido_id.Some?)
    ensures var buyer := Buyer(userId, s.transactions.rows[id]);
      var settled := Settle(Patched(s, id, ChargePatch(intent.charge)), id, orderId, buyer, ps, now);
      var res := SettledConfirmation(s, pi, orderId, userId, ps, Ok(intent), now);
      && (settled.Err? ==> res == (s, Err(ConfirmError(settled.error))))
      && (settled.Ok? ==> res.1 == Ok(Confirmed(intent.amount, id, settled.value.1, pi)))
      && (settled.Ok? && CreatesOrder(intent, orderId, ps) ==>
            res.0 == settled.value.0.(log := settled.value.0.log
                       + [L.Entry(buyer, Some(s.orders.nextId), L.Acumulacion, ConfirmPoints(ClientTotal(ps)), now)]))
      && (settled.Ok? && !CreatesOrder(intent, orderId, ps) ==> res.0 == settled.value.0)
  {
  }

  /** The total the client is charged is the sum of the item rows written for it. */
  lemma {:induction false} ClientRowsTotal(orderId: int, ps: seq<ClientItem>)
    ensures I.LineTotal(ClientRows(orderId, ps)) == ClientTotal(ps)
    decreases |ps|
  {
    if ps != [] {
      var init := ps[..|ps| - 1];
      ClientRowsTotal(orderId, init);
      assert ClientRows(orderId, ps)[..|ps| - 1] == ClientRows(orderId, init);
    }
  }

  /** With every item row valid, the new-order branch writes the header, all the
      item rows and the credit. */
  lemma NewOrderWritesAll(s: State, userId: int, ps: seq<ClientItem>, now: int)
    requires TablesWf(s) && PositiveQuantities(ps)
    ensures NewOrderWrites(s, userId, ps, now)
         == Ok((s.(orders := Insert(s.orders, PaidHeader(userId, ps, now)).0,
                   items := InsertAll(s.items, ClientRows(s.orders.nextId, ps)),
                   users := Credit(s.users, userId, ConfirmPoints(ClientTotal(ps)))), s.orders.nextId))
  {
  }

  /** The settlement's three branches: with an order id, that order moves to
      preparation paid by card and nothing is created; without one and with client
      items, a new order is written under the next id, unless an item is refused;
      with neither, nothing changes. Whatever order results is linked to the row. */
  lemma SettleOutcome(s: State, txId: int, orderId: Option<int>, userId: int, ps: seq<ClientItem>, now: int)
    requires TablesWf(s)
    ensures var res := Settle(s, txId, orderId, userId, ps, now);
      && (res.Ok? <==> Truthy(orderId) || |ps| == 0 || PositiveQuantities(ps))
      && (!Truthy(orderId) && |ps| == 0 ==> res == Ok((s, orderId)))
      && (res.Ok? && !Truthy(orderId) && |ps| > 0 ==> res.value.1 == Some(s.orders.nextId))
      && (res.Ok? ==> res.value.0.transactions.rows.Keys == s.transactions.rows.Keys
                      && s.orders.rows.Keys <= res.value.0.orders.rows.Keys)
      && (res.Ok? && Truthy(orderId) ==>
            && res.value.1 == orderId && res.value.0.items == s.items && res.value.0.users == s.users
            && (orderId.value in s.orders.rows ==>
                  res.value.0.orders.rows[orderId.value]
                  == s.orders.rows[orderId.value].(estado := O.EnPreparacion, metodo_pago := Some("tarjeta"))))
      && (res.Ok? && Truthy(res.value.1) && txId in s.transactions.rows ==>
            res.value.0.transactions.rows[txId].pedido_id == res.value.1)
  {
  }

  /** Settling leaves the paid row as it was except for its order link, which is the
      settled order when there is one, and touches no other transaction row. */
  lemma SettleKeepsPaidRow(s: State, txId: int, orderId: Option<int>, userId: int, ps: seq<ClientItem>, now: int)
    requires TablesWf(s) && txId in s.transactions.rows
    requires Settle(s, txId, orderId, userId, ps, now).Ok?
    ensures var (s', linked) := Settle(s, txId, orderId, userId, ps, now).value;
      && s'.transactions.nextId == s.transactions.nextId && s'.transactions.rows.Keys == s.transactions.rows.Keys
      && (forall k :: k in s.transactions.rows && k != txId ==> s'.transactions.rows[k] == s.transactions.rows[k])
      && s'.transactions.rows[txId] == s.transactions.rows[txId].(pedido_id := s'.transactions.rows[txId].pedido_id)
      && s'.transactions.rows[txId].pedido_id == (if Truthy(linked) then linked else s.transactions.rows[txId].pedido_id)
  {
  }

  /** A paid intent marks its row `succeeded` with the charge's id, method (default
      `card`) and last four digits, whatever happens afterwards; the confirmation
      time is left as it was. */
  lemma ConfirmMarksPaid(s: State, pi: string, orderId: Option<int>, userId: Option<int>, ps: seq<ClientItem>, intent: Intent, now: int)
    requires TablesWf(s) && intent.status == "succeeded" && TR.IntentKey(s.transactions, pi).Some?
    ensures var id := TR.IntentKey(s.transactions, pi).value;
      var (s', _) := Confirmation(s, pi, orderId, userId, ps, Ok(intent), now);
      var row, before := s'.transactions.rows[id], s.transactions.rows[id];
      var c := intent.charge;
      && id in s'.transactions.rows
      && row.estado == T.Succeeded
      && row.stripe_charge_id == NullIfEmpty(if c.Some? then c.value.id else None)
      && row.metodo_pago == Some(StrOr(if c.Some? then c.value.methodType else None, "card"))
      && row.ultimos_4_digitos == NullIfEmpty(if c.Some? then c.value.last4 else None)
      && row.fecha_confirmacion == before.fecha_confirmacion
      && row.monto == before.monto && row.usuario_id == before.usuario_id
  {
    var id := TR.IntentKey(s.transactions, pi).value;
    var tx := s.transactions.rows[id];
    var paid := Patched(s, id, ChargePatch(intent.charge));
    var settled := Settle(paid, id, orderId, Buyer(userId, tx), ps, now);
    if settled.Ok? {
      SettleKeepsPaidRow(paid, id, orderId, Buyer(userId, tx), ps, now);
    }
  }

  /** The state and answer of a confirmation that materialises an order with valid items. */
  lemma ConfirmNewOrderState(s: State, pi: string, userId: Option<int>, ps: seq<ClientItem>, intent: Intent, now: int)
    requires TablesWf(s) && TR.IntentKey(s.transactions, pi).Some?
    requires CreatesOrder(intent, None, ps) && PositiveQuantities(ps)
    ensures var id := TR.IntentKey(s.transactions, pi).value;
      var buyer := Buyer(userId, s.transactions.rows[id]);
      var paid := Patched(s, id, ChargePatch(intent.charge));
      Confirmation(s, pi, None, userId, ps, Ok(intent), now)
        == (Linked(paid.(orders := Insert(s.orders, PaidHeader(buyer, ps, now)).0,
                         items := InsertAll(s.items, ClientRows(s.orders.nextId, ps)),
                         users := Credit(s.users, buyer, ConfirmPoints(ClientTotal(ps)))), id, s.orders.nextId),
            Ok(Confirmed(intent.amount, id, Some(s.orders.nextId), pi)))
  {
    var id := TR.IntentKey(s.transactions, pi).value;
    var paid := Patched(s, id, ChargePatch(intent.charge));
    NewOrderWritesAll(paid, Buyer(userId, s.transactions.rows[id]), ps, now);
  }

  /** A paid intent with no order and some items creates one order in preparation,
      paid by card, for the client's total and one point per currency unit, and
      links the payment to it. */
  lemma ConfirmCreatesOrder(s: State, pi: string, userId: Option<int>, ps: seq<ClientItem>, intent: Intent, now: int)
    requires TablesWf(s) && TR.IntentKey(s.transactions, pi).Some?
    requires CreatesOrder(intent, None, ps) && PositiveQuantities(ps)
    ensures var id := TR.IntentKey(s.transactions, pi).value;
      var buyer := Buyer(userId, s.transactions.rows[id]);
      var orderId := s.orders.nextId;
      var (s', r) := Confirmation(s, pi, None, userId, ps, Ok(intent), now);
      && r == Ok(Confirmed(intent.amount, id, Some(orderId), pi))
      && orderId !in s.orders.rows && s'.orders.nextId == orderId + 1
      && s'.orders.rows == s.orders.rows[orderId := O.Order(buyer, O.EnPreparacion, ClientTotal(ps),
                                                            ConfirmPoints(ClientTotal(ps)), Some("tarjeta"), now)]
      && s'.transactions.rows[id].pedido_id == Some(orderId)
  {
    ConfirmNewOrderState(s, pi, userId, ps, intent, now);
  }

  /** The same confirmation bulk-writes one item row per client item, in order
      (`InsertAllAt`), raises the buyer's balance by the order's points, and logs nothing. */
  lemma ConfirmCreditsWithoutLog(s: State, pi: string, userId: Option<int>, ps: seq<ClientItem>, intent: Intent, now: int)
    requires TablesWf(s) && TR.IntentKey(s.transactions, pi).Some?
    requires CreatesOrder(intent, None, ps) && PositiveQuantities(ps)
    ensures var id := TR.IntentKey(s.transactions, pi).value;
      var s' := Confirmation(s, pi, None, userId, ps, Ok(intent), now).0;
      && s'.items == InsertAll(s.items, ClientRows(s.orders.nextId, ps))
      && s'.users == Credit(s.users, Buyer(userId, s.transactions.rows[id]), ConfirmPoints(ClientTotal(ps)))
      && s'.log == s.log
  {
    ConfirmNewOrderState(s, pi, userId, ps, intent, now);
  }

  /** A paid intent for a given order moves that order, if it exists, to preparation
      paid by card and links the payment to it; no order, item, balance or log entry
      is created. */
  lemma ConfirmUpdatesGivenOrder(s: State, pi: string, orderId: int, userId: Option<int>, ps: seq<ClientItem>, intent: Intent, now: int)
    requires TablesWf(s) && TR.IntentKey(s.transactions, pi).Some?
    requires intent.status == "succeeded" && orderId != 0
    ensures var id := TR.IntentKey(s.transactions, pi).value;
      var (s', r) := Confirmation(s, pi, Some(orderId), userId, ps, Ok(intent), now);
      && r == Ok(Confirmed(intent.amount, id, Some(orderId), pi))
      && s'.orders.rows.Keys == s.orders.rows.Keys && s'.orders.nextId == s.orders.nextId
      && (orderId in s.orders.rows ==>
            s'.orders.rows[orderId] == s.orders.rows[orderId].(estado := O.EnPreparacion, metodo_pago := Some("tarjeta")))
      && (forall k :: k in s.orders.rows && k != orderId ==> s'.orders.rows[k] == s.orders.rows[k])
      && s'.transactions.rows[id].pedido_id == Some(orderId)
      && s'.items == s.items && s'.users == s.users && s'.log == s.log
  {
  }

  /** Any other gateway status rewrites only the payment's state: `requires_action`
      stays `requires_action`, `processing` becomes `pending`, anything else becomes
      `failed` with the gateway's message or `Pago rechazado`. Nothing is a success. */
  lemma ConfirmRecordsOtherStatus(s: State, pi: string, orderId: Option<int>, userId: Option<int>, ps: seq<ClientItem>, intent: Intent, now: int)
    requires TablesWf(s) && TR.IntentKey(s.transactions, pi).Some? && intent.status != "succeeded"
    ensures var id := TR.IntentKey(s.transactions, pi).value;
      var (s', r) := Confirmation(s, pi, orderId, userId, ps, Ok(intent), now);
      var row := s'.transactions.rows[id];
      && r.Ok? && !r.value.Confirmed?
      && s'.orders == s.orders && s'.items == s.items && s'.users == s.users && s'.log == s.log
      && s'.transactions.rows.Keys == s.transactions.rows.Keys
      && (forall k :: k in s.transactions.rows && k != id ==> s'.transactions.rows[k] == s.transactions.rows[k])
      && (intent.status == "requires_action" ==> row.estado == T.RequiresAction)
      && (intent.status == "processing" ==> row.estado == T.Pending)
      && (intent.status != "requires_action" && intent.status != "processing" ==>
            && row.estado == T.Failed && row.error_mensaje == Some(StrOr(intent.lastError, "Pago rechazado"))
            && r.value == Declined(StrOr(intent.lastError, "Pago rechazado")))
  {
  }

  /** As written, an item refused by validation rolls the order back but not the
      paid mark: the call fails while the payment row stays `succeeded` with no order. */
  lemma ConfirmRefusedItemKeepsPaidMark(s: State, pi: string, userId: Option<int>, ps: seq<ClientItem>, intent: Intent, now: int)
    requires TablesWf(s) && TR.IntentKey(s.transactions, pi).Some?
    requires CreatesOrder(intent, None, ps) && !PositiveQuantities(ps)
    ensures var id := TR.IntentKey(s.transactions, pi).value;
      var (s', r) := Confirmation(s, pi, None, userId, ps, Ok(intent), now);
      && r == Err(ConfirmError(QuantityRefused))
      && s'.transactions.rows[id].estado == T.Succeeded
      && s'.transactions.rows[id].pedido_id == s.transactions.rows[id].pedido_id
      && s'.orders == s.orders && s'.items == s.items && s'.users == s.users
      && (s.transactions.rows[id].estado != T.Succeeded ==> s' != s)
  {
    ConfirmMarksPaid(s, pi, None, userId, ps, intent, now);
  }

  /** The confirm path trusts the client's prices: the catalog is never consulted. */
  lemma ConfirmIgnoresCatalog(s: State, products: Table<P.Product>, pi: string, orderId: Option<int>, userId: Option<int>,
                              ps: seq<ClientItem>, gw: Result<Intent, string>, now: int)
    requires TablesWf(s) && Wf(products)
    ensures var (s1, r1) := Confirmation(s, pi, orderId, userId, ps, gw, now);
      Confirmation(s.(products := products), pi, orderId, userId, ps, gw, now) == (s1.(products := products), r1)
  {
  }

  /** A patch never changes which row an intent id finds, and rewrites only that row. */
  lemma PatchedKeepsKey(s: State, id: int, p: T.TxPatch, pi: string)
    requires TablesWf(s) && TR.IntentKey(s.transactions, pi) == Some(id)
    ensures var s' := Patched(s, id, p);
      && TablesWf(s') && TR.IntentKey(s'.transactions, pi) == Some(id)
      && s'.transactions == s.transactions.(rows := s.transactions.rows[id := T.Apply(s.transactions.rows[id], p)])
  {
    var row := T.Apply(s.transactions.rows[id], p);
    T.ApplyKeepsIdentity(s.transactions.rows[id], p);
    TR.IntentKeyStable(s.transactions, pi, id, row);
  }

  /** Writing the same patch twice is writing it once. */
  lemma PatchedTwice(s: State, id: int, p: T.TxPatch)
    ensures Patched(Patched(s, id, p), id, p) == Patched(s, id, p)
  {
    if id in s.transactions.rows {
      T.ApplyKeepsIdentity(s.transactions.rows[id], p);
    }
  }

  /** Settling keeps the paid row where the intent id finds it, with its owner. */
  lemma SettleKeepsKey(s: State, txId: int, orderId: Option<int>, userId: int, ps: seq<ClientItem>, now: int, pi: string)
    requires TablesWf(s) && TR.IntentKey(s.transactions, pi) == Some(txId)
    requires Settle(s, txId, orderId, userId, ps, now).Ok?
    ensures var s' := Settle(s, txId, orderId, userId, ps, now).value.0;
      && TR.IntentKey(s'.transactions, pi) == Some(txId)
      && s'.transactions.rows[txId].usuario_id == s.transactions.rows[txId].usuario_id
  {
    if !Truthy(orderId) && |ps| > 0 {
      var w := NewOrderWrites(s, userId, ps, now).value;
      PatchedKeepsKey(w.0, txId, T.NoChange.(pedido_id := Some(Some(w.1))), pi);
    } else if Truthy(orderId) {
      var s' := s.(orders := Modify(s.orders, orderId.value, (o: O.Order) => o.(estado := O.EnPreparacion, metodo_pago := Some("tarjeta"))));
      PatchedKeepsKey(s', txId, T.NoChange.(pedido_id := Some(Some(orderId.value))), pi);
    }
  }

  /** A confirmation keeps the paid row where the intent id finds it, with its owner. */
  lemma ConfirmKeepsKey(s: State, pi: string, orderId: Option<int>, userId: Option<int>, ps: seq<ClientItem>, intent: Intent, now: int)
    requires TablesWf(s) && TR.IntentKey(s.transactions, pi).Some?
    ensures var id := TR.IntentKey(s.transactions, pi).value;
      var s' := Confirmation(s, pi, orderId, userId, ps, Ok(intent), now).0;
      && TR.IntentKey(s'.transactions, pi) == Some(id)
      && s'.transactions.rows[id].usuario_id == s.transactions.rows[id].usuario_id
  {
    var id := TR.IntentKey(s.transactions, pi).value;
    var tx := s.transactions.rows[id];
    if intent.status == "succeeded" {
      var paid := Patched(s, id, ChargePatch(intent.charge));
      PatchedKeepsKey(s, id, ChargePatch(intent.charge), pi);
      T.ApplyKeepsIdentity(tx, ChargePatch(intent.charge));
      if Settle(paid, id, orderId, Buyer(userId, tx), ps, now).Ok? {
        SettleKeepsKey(paid, id, orderId, Buyer(userId, tx), ps, now, pi);
      }
    } else if intent.status == "requires_action" {
      PatchedKeepsKey(s, id, T.NoChange.(estado := Some(T.RequiresAction)), pi);
    } else if intent.status == "processing" {
      PatchedKeepsKey(s, id, T.NoChange.(estado := Some(T.Pending)), pi);
    } else {
      var msg := StrOr(intent.lastError, "Pago rechazado");
      PatchedKeepsKey(s, id, T.NoChange.(estado := Some(T.Failed), error_mensaje := Some(Some(msg))), pi);
    }
  }

  /** As written, a confirmation that creates an order with points leaves the buyer's
      balance ahead of the buyer's log by exactly those points. */
  lemma ConfirmUnbalancesLedger(s: State, pi: string, userId: Option<int>, ps: seq<ClientItem>, intent: Intent, now: int)
    requires TablesWf(s) && LedgerConsistent(s) && TR.IntentKey(s.transactions, pi).Some?
    requires CreatesOrder(intent, None, ps) && PositiveQuantities(ps) && ConfirmPoints(ClientTotal(ps)) != 0
    requires Buyer(userId, s.transactions.rows[TR.IntentKey(s.transactions, pi).value]) in s.users.rows
    ensures var buyer := Buyer(userId, s.transactions.rows[TR.IntentKey(s.transactions, pi).value]);
      var s' := Confirmation(s, pi, None, userId, ps, Ok(intent), now).0;
      && s'.users.rows[buyer].puntos_actuales == L.LogSum(s'.log, buyer) + ConfirmPoints(ClientTotal(ps))
      && !LedgerConsistent(s')
  {
    var buyer := Buyer(userId, s.transactions.rows[TR.IntentKey(s.transactions, pi).value]);
    ConfirmCreditsWithoutLog(s, pi, userId, ps, intent, now);
    CreditUnlogged(s, buyer, ConfirmPoints(ClientTotal(ps)));
  }

  /** Confirming a paid intent that creates an order leaves a state in which the same
      intent is found on the same row, for the same buyer, and can be confirmed again. */
  lemma ConfirmAgain(s: State, pi: string, userId: Option<int>, ps: seq<ClientItem>, intent: Intent, now: int)
    requires TablesWf(s) && TR.IntentKey(s.transactions, pi).Some?
    requires CreatesOrder(intent, None, ps) && PositiveQuantities(ps)
    ensures var id := TR.IntentKey(s.transactions, pi).value;
      var s1 := Confirmation(s, pi, None, userId, ps, Ok(intent), now).0;
      && TablesWf(s1) && TR.IntentKey(s1.transactions, pi) == Some(id)
      && Buyer(userId, s1.transactions.rows[id]) == Buyer(userId, s.transactions.rows[id])
      && s1.orders.nextId == s.orders.nextId + 1
      && s1.orders.rows[s.orders.nextId].total_pagar == ClientTotal(ps)
      && s1.users == Credit(s.users, Buyer(userId, s.transactions.rows[id]), ConfirmPoints(ClientTotal(ps)))
  {
    ConfirmCreatesOrder(s, pi, userId, ps, intent, now);
    ConfirmCreditsWithoutLog(s, pi, userId, ps, intent, now);
    ConfirmKeepsKey(s, pi, None, userId, ps, intent, now);
  }

  /** As written, confirming the same paid intent twice creates a second order for
      the same payment. */
  lemma ConfirmTwiceCreatesTwoOrders(s: State, pi: string, userId: Option<int>, ps: seq<ClientItem>, intent: Intent, now: int)
    requires TablesWf(s) && TR.IntentKey(s.transactions, pi).Some?
    requires CreatesOrder(intent, None, ps) && PositiveQuantities(ps)
    ensures var id := TR.IntentKey(s.transactions, pi).value;
      var s1 := Confirmation(s, pi, None, userId, ps, Ok(intent), now).0;
      var (s2, r2) := Confirmation(s1, pi, None, userId, ps, Ok(intent), now);
      && r2 == Ok(Confirmed(intent.amount, id, Some(s.orders.nextId + 1), pi))
      && s.orders.nextId in s2.orders.rows && s.orders.nextId + 1 in s2.orders.rows
      && s2.orders.rows[s.orders.nextId].total_pagar == ClientTotal(ps)
      && s2.orders.rows[s.orders.nextId + 1].total_pagar == ClientTotal(ps)
  {
    ConfirmAgain(s, pi, userId, ps, intent, now);
    var s1 := Confirmation(s, pi, None, userId, ps, Ok(intent), now).0;
    ConfirmCreatesOrder(s1, pi, userId, ps, intent, now);
  }

  /** As written, confirming the same paid intent twice credits the buyer twice. */
  lemma ConfirmTwiceCreditsTwice(s: State, pi: string, userId: Option<int>, ps: seq<ClientItem>, intent: Intent, now: int)
    requires TablesWf(s) && TR.IntentKey(s.transactions, pi).Some?
    requires CreatesOrder(intent, None, ps) && PositiveQuantities(ps)
    ensures var buyer := Buyer(userId, s.transactions.rows[TR.IntentKey(s.transactions, pi).value]);
      var s1 := Confirmation(s, pi, None, userId, ps, Ok(intent), now).0;
      var s2 := Confirmation(s1, pi, None, userId, ps, Ok(intent), now).0;
      buyer in s.users.rows ==>
        s2.users.rows[buyer].puntos_actuales == s.users.rows[buyer].puntos_actuales + 2 * ConfirmPoints(ClientTotal(ps))
  {
    var id := TR.IntentKey(s.transactions, pi).value;
    var buyer := Buyer(userId, s.transactions.rows[id]);
    var points := ConfirmPoints(ClientTotal(ps));
    ConfirmAgain(s, pi, userId, ps, intent, now);
    var s1 := Confirmation(s, pi, None, userId, ps, Ok(intent), now).0;
    ConfirmCreditsWithoutLog(s1, pi, userId, ps, intent, now);
    var s2 := Confirmation(s1, pi, None, userId, ps, Ok(intent), now).0;
    assert s1.users == Credit(s.users, buyer, points);
    assert s2.users == Credit(s1.users, buyer, points);
  }

  /** Outside the new-order branch a confirmation changes no balance and logs nothing. */
  lemma ConfirmKeepsBalances(s: State, pi: string, orderId: Option<int>, userId: Option<int>, ps: seq<ClientItem>,
                             gw: Result<Intent, string>, now: int)
    requires TablesWf(s) && !(gw.Ok? && CreatesOrder(gw.value, orderId, ps))
    ensures var s' := Confirmation(s, pi, orderId, userId, ps, gw, now).0;
      s'.users == s.users && s'.log == s.log
  {
  }

  /** Corrected: every confirmation keeps each balance equal to the net of its log. */
  lemma SettledConfirmationKeepsLedger(s: State, pi: string, orderId: Option<int>, userId: Option<int>, ps: seq<ClientItem>,
                                       gw: Result<Intent, string>, now: int)
    requires TablesWf(s) && LedgerConsistent(s)
    ensures LedgerConsistent(SettledConfirmation(s, pi, orderId, userId, ps, gw, now).0)
  {
    var (s2, r2) := SettledConfirmation(s, pi, orderId, userId, ps, gw, now);
    var key := TR.IntentKey(s.transactions, pi);
    if gw.Ok? && key.Some? && r2.Ok? && s2 != s {
      var (s', r) := Confirmation(s, pi, orderId, userId, ps, gw, now);
      if CreatesOrder(gw.value, None, ps) && !Truthy(orderId) {
        var tx := s.transactions.rows[key.value];
        var points := ConfirmPoints(ClientTotal(ps));
        var e := L.Entry(Buyer(userId, tx), Some(s.orders.nextId), L.Acumulacion, points, now);
        assert PositiveQuantities(ps);
        ConfirmCreditsWithoutLog(s, pi, userId, ps, gw.value, now);
        CreditLogged(s, e);
        assert s2.users == s.(users := Credit(s.users, e.usuario_id, e.cantidad_puntos)).users;
      } else {
        ConfirmKeepsBalances(s, pi, orderId, userId, ps, gw, now);
      }
    }
  }

  /** A settled confirmation answers success and leaves its row linked to the order
      the answer names, or to the order it was linked to before. */
  lemma ConfirmLinksOrder(s: State, pi: string, orderId: Option<int>, userId: Option<int>, ps: seq<ClientItem>, intent: Intent, now: int)
    requires TablesWf(s) && TR.IntentKey(s.transactions, pi).Some? && intent.status == "succeeded"
    ensures var id := TR.IntentKey(s.transactions, pi).value;
      var (s', r) := Confirmation(s, pi, orderId, userId, ps, Ok(intent), now);
      r.Ok? ==> && r.value.Confirmed?
                && s'.transactions.rows[id].pedido_id
                   == if Truthy(r.value.orderId) then r.value.orderId else s.transactions.rows[id].pedido_id
  {
    var id := TR.IntentKey(s.transactions, pi).value;
    var tx := s.transactions.rows[id];
    var paid := Patched(s, id, ChargePatch(intent.charge));
    if Settle(paid, id, orderId, Buyer(userId, tx), ps, now).Ok? {
      SettleKeepsPaidRow(paid, id, orderId, Buyer(userId, tx), ps, now);
    }
  }

  /** A confirmation that creates an order names it in its answer. */
  lemma ConfirmNamesNewOrder(s: State, pi: string, orderId: Option<int>, userId: Option<int>, ps: seq<ClientItem>, intent: Intent, now: int)
    requires TablesWf(s) && TR.IntentKey(s.transactions, pi).Some? && CreatesOrder(intent, orderId, ps)
    ensures var r := Confirmation(s, pi, orderId, userId, ps, Ok(intent), now).1;
      r.Ok? ==> r.value.Confirmed? && Truthy(r.value.orderId)
  {
    if PositiveQuantities(ps) {
      assert orderId == None || orderId == Some(0);
      ConfirmCreatesOrder(s, pi, userId, ps, intent, now);
      assert Confirmation(s, pi, orderId, userId, ps, Ok(intent), now) == Confirmation(s, pi, None, userId, ps, Ok(intent), now);
    }
  }

  /** Corrected: confirming twice is confirming once. The state is the same, and so
      is the answer, except that a payment linked to an order earlier is now
      answered with that order. */
  lemma SettledConfirmationIdempotent(s: State, pi: string, orderId: Option<int>, userId: Option<int>, ps: seq<ClientItem>,
                                      gw: Result<Intent, string>, now: int)
    requires TablesWf(s)
    ensures var (s1, r1) := SettledConfirmation(s, pi, orderId, userId, ps, gw, now);
      var (s2, r2) := SettledConfirmation(s1, pi, orderId, userId, ps, gw, now);
      && s2 == s1
      && (r1.Ok? <==> r2.Ok?)
      && (r1.Ok? && r1.value.Confirmed? ==> r2.value.Confirmed? && r2.value.transactionId == r1.value.transactionId)
      && (r1.Err? || !r1.value.Confirmed? || Truthy(r1.value.orderId) ==> r2 == r1)
  {
    var (s1, r1) := SettledConfirmation(s, pi, orderId, userId, ps, gw, now);
    var key := TR.IntentKey(s.transactions, pi);
    if gw.Err? || key.None? || r1.Err? || s1 == s {
      return;
    }
    var id := key.value;
    var tx := s.transactions.rows[id];
    var intent := gw.value;
    var (s', r) := Confirmation(s, pi, orderId, userId, ps, gw, now);
    ConfirmKeepsKey(s, pi, orderId, userId, ps, intent, now);
    if intent.status == "succeeded" {
      ConfirmMarksPaid(s, pi, orderId, userId, ps, intent, now);
      ConfirmLinksOrder(s, pi, orderId, userId, ps, intent, now);
      if CreatesOrder(intent, orderId, ps) {
        ConfirmNamesNewOrder(s, pi, orderId, userId, ps, intent, now);
        assert s1.transactions == s'.transactions;
      } else if !Truthy(orderId) {
        PatchedTwice(s, id, ChargePatch(intent.charge));
      }
    } else if intent.status == "requires_action" {
      PatchedTwice(s, id, T.NoChange.(estado := Some(T.RequiresAction)));
    } else if intent.status == "processing" {
      PatchedTwice(s, id, T.NoChange.(estado := Some(T.Pending)));
    } else {
      var msg := StrOr(intent.lastError, "Pago rechazado");
      PatchedTwice(s, id, T.NoChange.(estado := Some(T.Failed), error_mensaje := Some(Some(msg))));
    }
  }

  /** A paid row confirmed through this path keeps a null confirmation time, so the
      revenue count never sees it. */
  lemma ConfirmedNotCounted(s: State, pi: string, orderId: Option<int>, userId: Option<int>, ps: seq<ClientItem>,
                            intent: Intent, now: int, start: int, end: int)
    requires TablesWf(s) && TR.IntentKey(s.transactions, pi).Some? && intent.status == "succeeded"
    requires s.transactions.rows[TR.IntentKey(s.transactions, pi).value].fecha_confirmacion.None?
    ensures var id := TR.IntentKey(s.transactions, pi).value;
      var s' := Confirmation(s, pi, orderId, userId, ps, Ok(intent), now).0;
      s'.transactions.rows[id].estado == T.Succeeded && !TR.SucceededWithin(start, end, s'.transactions.rows[id])
  {
    ConfirmMarksPaid(s, pi, orderId, userId, ps, intent, now);
  }

  // ---------------------------------------------------------------- refundPayment

  const RefundNotFound := "Transacción no encontrada"
  const RefundNotSucceeded := "Solo se pueden reembolsar pagos exitosos"
  const StateRefused := "Validation error: Validation isIn on estado failed"

  function RefundError(msg: string): string
  {
    "Error al reembolsar: " + msg
  }

  /** A nullable column inside a template literal: null renders as `null`. */
  function Rendered(d: Option<string>): string
  {
    if d.Some? then d.value else "null"
  }

  /** The columns a refund of `amount` cents writes on the row `tx`. */
  function RefundPatch(tx: T.Transaction, amount: int): T.TxPatch
  {
    T.NoChange.(estado := Some(T.Refunded),
                descripcion := Some(Some(Rendered(tx.descripcion) + " - Reembolsado: $" + Text.DollarsText(amount))))
  }

  /** `refundPayment(pi)`, with `gw` the gateway's refund and `accepts` the row
      validation the update runs. Only a `succeeded` row is refunded; its order, if
      any, is cancelled. Any error, the refused update included, rolls back. */
  function Refund(s: State, pi: string, gw: Result<GatewayRefund, string>, accepts: T.Transaction -> bool): (res: (State, Result<RefundReply, string>))
    requires TablesWf(s)
    ensures TablesWf(res.0)
    ensures res.1.Err? ==> res.0 == s
    ensures res.1.Ok? <==>
      && TR.IntentKey(s.transactions, pi).Some?
      && s.transactions.rows[TR.IntentKey(s.transactions, pi).value].estado == T.Succeeded
      && gw.Ok?
      && var tx := s.transactions.rows[TR.IntentKey(s.transactions, pi).value];
         accepts(T.Apply(tx, RefundPatch(tx, gw.value.amount)))
    ensures res.1.Ok? ==> res.1.value == RefundReply(gw.value.id, gw.value.amount)
    ensures TR.IntentKey(s.transactions, pi).None? ==> res == (s, Err(RefundError(RefundNotFound)))
    ensures TR.IntentKey(s.transactions, pi).Some? ==>
      var tx := s.transactions.rows[TR.IntentKey(s.transactions, pi).value];
      && (tx.estado != T.Succeeded ==> res == (s, Err(RefundError(RefundNotSucceeded))))
      && (tx.estado == T.Succeeded && gw.Err? ==> res == (s, Err(RefundError(gw.error))))
      && (tx.estado == T.Succeeded && gw.Ok? && !accepts(T.Apply(tx, RefundPatch(tx, gw.value.amount))) ==>
            res == (s, Err(RefundError(StateRefused))))
  {
    var key := TR.IntentKey(s.transactions, pi);
    if key.None? then (s, Err(RefundError(RefundNotFound)))
    else
      var tx := s.transactions.rows[key.value];
      if tx.estado != T.Succeeded then (s, Err(RefundError(RefundNotSucceeded)))
      else if gw.Err? then (s, Err(RefundError(gw.error)))
      else
        var updated := T.Apply(tx, RefundPatch(tx, gw.value.amount));
        if !accepts(updated) then (s, Err(RefundError(StateRefused)))
        else
          var s' := s.(transactions := s.transactions.(rows := s.transactions.rows[key.value := updated]));
          var s'' := if Truthy(tx.pedido_id)
                     then s'.(orders := Modify(s'.orders, tx.pedido_id.value, (o: O.Order) => o.(estado := O.Cancelado)))
                     else s';
          (s'', Ok(RefundReply(gw.value.id, gw.value.amount)))
  }

  /** As written, the model's validator refuses `refunded`, so every refund fails and
      changes nothing, even after the gateway has returned the money. */
  lemma RefundRefusedAsWritten(s: State, pi: string, gw: Result<GatewayRefund, string>)
    requires TablesWf(s)
    ensures var (s', r) := Refund(s, pi, gw, T.ValidAsWritten);
      && s' == s && r.Err?
      && (TR.IntentKey(s.transactions, pi).Some?
          && s.transactions.rows[TR.IntentKey(s.transactions, pi).value].estado == T.Succeeded && gw.Ok?
          ==> r == Err(RefundError(StateRefused)))
  {
  }

  /** Corrected: a succeeded, valid row is refunded. Its state becomes `refunded`, its
      description gains the refunded amount, its other columns stay, its order (if
      any) is cancelled, and no other row or table changes. */
  lemma RefundSettles(s: State, pi: string, refund: GatewayRefund)
    requires TablesWf(s) && TR.IntentKey(s.transactions, pi).Some?
    requires var tx := s.transactions.rows[TR.IntentKey(s.transactions, pi).value];
      tx.estado == T.Succeeded && T.Valid(tx)
    ensures var id := TR.IntentKey(s.transactions, pi).value;
      var tx := s.transactions.rows[id];
      var (s', r) := Refund(s, pi, Ok(refund), T.Valid);
      && r == Ok(RefundReply(refund.id, refund.amount))
      && s'.transactions.rows == s.transactions.rows[id := s'.transactions.rows[id]]
      && s'.transactions.rows[id] == tx.(estado := T.Refunded,
                                         descripcion := Some(Rendered(tx.descripcion) + " - Reembolsado: $" + Text.DollarsText(refund.amount)))
      && T.Valid(s'.transactions.rows[id])
      && (Truthy(tx.pedido_id) && tx.pedido_id.value in s.orders.rows ==>
            s'.orders.rows[tx.pedido_id.value].estado == O.Cancelado)
      && s'.orders.rows.Keys == s.orders.rows.Keys
      && (forall k :: k in s.orders.rows && Some(k) != tx.pedido_id ==> s'.orders.rows[k] == s.orders.rows[k])
      && s'.items == s.items && s'.users == s.users && s'.log == s.log && s'.products == s.products
  {
  }

  /** Corrected: a refunded payment cannot be refunded again. */
  lemma RefundOnce(s: State, pi: string, first: GatewayRefund, second: Result<GatewayRefund, string>)
    requires TablesWf(s)
    ensures var s1 := Refund(s, pi, Ok(first), T.Valid).0;
      var (s2, r2) := Refund(s1, pi, second, T.Valid);
      Refund(s, pi, Ok(first), T.Valid).1.Ok? ==> s2 == s1 && r2 == Err(RefundError(RefundNotSucceeded))
  {
    var (s1, r1) := Refund(s, pi, Ok(first), T.Valid);
    if r1.Ok? {
      var id := TR.IntentKey(s.transactions, pi).value;
      var tx := s.transactions.rows[id];
      TR.IntentKeyStable(s.transactions, pi, id, T.Apply(tx, RefundPatch(tx, first.amount)));
    }
  }

  /** The new-order branch on the connection: the header, one `OrderItem.create` per
      client item (the first refused one stops the loop), then the credit. After an
      error the caller rolls back. */
  method WriteNewOrder(db: Db, userId: int, ps: seq<ClientItem>, now: int) returns (r: Result<int, string>)
    requires TablesWf(db.Snapshot())
    modifies db
    ensures r.Ok? ==> NewOrderWrites(old(db.Snapshot()), userId, ps, now) == Ok((db.Snapshot(), r.value))
    ensures r.Err? ==> NewOrderWrites(old(db.Snapshot()), userId, ps, now) == Err(r.error)
  {
    var start := db.Snapshot();
    var created := Insert(db.orders, PaidHeader(userId, ps, now));
    db.orders := created.0;
    var rows := ClientRows(created.1, ps);
    var i := 0;
    while i < |ps|
      invariant 0 <= i <= |ps|
      invariant db.items == InsertAll(start.items, rows[..i])
      invariant db.orders == created.0 && db.users == start.users
      invariant db.products == start.products && db.transactions == start.transactions && db.log == start.log
      invariant forall j :: 0 <= j < i ==> ps[j].cantidad >= 1
    {
      if ps[i].cantidad < 1 {
        ClientRowsValid(created.1, ps);
        return Err(QuantityRefused);
      }
      assert rows[..i + 1][..i] == rows[..i];
      db.items := Insert(db.items, rows[i]).0;
      i := i + 1;
    }
    assert rows[..|ps|] == rows;
    db.users := Credit(db.users, userId, ConfirmPoints(ClientTotal(ps)));
    NewOrderWritesAll(start, userId, ps, now);
    r := Ok(created.1);
  }

  /** `confirmPayment` on the connection, as corrected: the gateway's answer and the
      local row are fetched, then the paid or the unpaid branch runs. */
  method ConfirmPayment(db: Db, pi: string, orderId: Option<int>, userId: Option<int>, ps: seq<ClientItem>,
                        gw: Result<Intent, string>, now: int) returns (r: Result<ConfirmReply, string>)
    requires TablesWf(db.Snapshot())
    modifies db
    ensures (db.Snapshot(), r) == SettledConfirmation(old(db.Snapshot()), pi, orderId, userId, ps, gw, now)
  {
    if gw.Err? {
      return Err(ConfirmError(gw.error));
    }
    var key := TR.IntentKey(db.transactions, pi);
    if key.None? {
      return Err(ConfirmError(TxNotFound));
    }
    if gw.value.status == "succeeded" {
      r := ConfirmPaid(db, pi, key.value, orderId, userId, ps, gw.value, now);
    } else {
      r := RecordUnpaid(db, pi, key.value, orderId, userId, ps, gw.value, now);
    }
  }

  /** The paid branch: unless the payment is already settled against an order, the
      paid mark and the settlement run; a refused item rolls back everything, and a
      new order's points are logged as an accrual. */
  method ConfirmPaid(db: Db, pi: string, id: int, orderId: Option<int>, userId: Option<int>, ps: seq<ClientItem>,
                     intent: Intent, now: int) returns (r: Result<ConfirmReply, string>)
    requires TablesWf(db.Snapshot()) && TR.IntentKey(db.transactions, pi) == Some(id) && intent.status == "succeeded"
    modifies db
    ensures (db.Snapshot(), r) == SettledConfirmation(old(db.Snapshot()), pi, orderId, userId, ps, Ok(intent), now)
  {
    var saved := db.Snapshot();
    var tx := db.transactions.rows[id];
    if tx.estado == T.Succeeded && tx.pedido_id.Some? {
      return Ok(Confirmed(intent.amount, id, tx.pedido_id, pi));
    }
    var buyer := Buyer(userId, tx);
    db.transactions := Patched(saved, id, ChargePatch(intent.charge)).transactions;
    var settled := SettleOnDb(db, id, orderId, buyer, ps, now);
    SettledPaid(saved, pi, id, orderId, userId, ps, intent, now);
    if settled.Err? {
      db.Restore(saved);
      return Err(ConfirmError(settled.error));
    }
    if CreatesOrder(intent, orderId, ps) {
      db.log := db.log + [L.Entry(buyer, Some(saved.orders.nextId), L.Acumulacion, ConfirmPoints(ClientTotal(ps)), now)];
    }
    r := Ok(Confirmed(intent.amount, id, settled.value, pi));
  }

  /** The settlement on the connection: the new order (`WriteNewOrder`) or the given
      order's update, then the link. */
  method SettleOnDb(db: Db, txId: int, orderId: Option<int>, userId: int, ps: seq<ClientItem>, now: int)
    returns (r: Result<Option<int>, string>)
    requires TablesWf(db.Snapshot())
    modifies db
    ensures r.Ok? ==> Settle(old(db.Snapshot()), txId, orderId, userId, ps, now) == Ok((db.Snapshot(), r.value))
    ensures r.Err? ==> Settle(old(db.Snapshot()), txId, orderId, userId, ps, now) == Err(r.error)
  {
    if !Truthy(orderId) && |ps| > 0 {
      var written := WriteNewOrder(db, userId, ps, now);
      if written.Err? {
        return Err(written.error);
      }
      db.transactions := Linked(db.Snapshot(), txId, written.value).transactions;
      r := Ok(Some(written.value));
    } else if Truthy(orderId) {
      db.orders := Modify(db.orders, orderId.value, (o: O.Order) => o.(estado := O.EnPreparacion, metodo_pago := Some("tarjeta")));
      db.transactions := Linked(db.Snapshot(), txId, orderId.value).transactions;
      r := Ok(orderId);
    } else {
      r := Ok(orderId);
    }
  }

  /** The unpaid branches: only the row's state (and, on failure, its message) is written. */
  method RecordUnpaid(db: Db, pi: string, id: int, orderId: Option<int>, userId: Option<int>, ps: seq<ClientItem>,
                      intent: Intent, now: int) returns (r: Result<ConfirmReply, string>)
    requires TablesWf(db.Snapshot()) && TR.IntentKey(db.transactions, pi) == Some(id) && intent.status != "succeeded"
    modifies db
    ensures (db.Snapshot(), r) == SettledConfirmation(old(db.Snapshot()), pi, orderId, userId, ps, Ok(intent), now)
  {
    var tx := db.transactions.rows[id];
    if intent.status == "requires_action" {
      db.transactions := db.transactions.(rows := db.transactions.rows[id := tx.(estado := T.RequiresAction)]);
      r := Ok(NeedsAction(intent.clientSecret));
    } else if intent.status == "processing" {
      db.transactions := db.transactions.(rows := db.transactions.rows[id := tx.(estado := T.Pending)]);
      r := Ok(Processing);
    } else {
      var msg := StrOr(intent.lastError, "Pago rechazado");
      db.transactions := db.transactions.(rows := db.transactions.rows[id := tx.(estado := T.Failed, error_mensaje := Some(msg))]);
      r := Ok(Declined(msg));
    }
  }

  /** `refundPayment` on the connection, with the corrected validator. */
  method RefundPayment(db: Db, pi: string, gw: Result<GatewayRefund, string>) returns (r: Result<RefundReply, string>)
    requires TablesWf(db.Snapshot())
    modifies db
    ensures (db.Snapshot(), r) == Refund(old(db.Snapshot()), pi, gw, T.Valid)
  {
    var key := TR.IntentKey(db.transactions, pi);
    if key.None? {
      return Err(RefundError(RefundNotFound));
    }
    var tx := db.transactions.rows[key.value];
    if tx.estado != T.Succeeded {
      return Err(RefundError(RefundNotSucceeded));
    }
    if gw.Err? {
      return Err(RefundError(gw.error));
    }
    var updated := T.Apply(tx, RefundPatch(tx, gw.value.amount));
    if !T.Valid(updated) {
      return Err(RefundError(StateRefused));
    }
    db.transactions := db.transactions.(rows := db.transactions.rows[key.value := updated]);
    if Truthy(tx.pedido_id) {
      db.orders := Modify(db.orders, tx.pedido_id.value, (o: O.Order) => o.(estado := O.Cancelado));
    }
    r := Ok(RefundReply(gw.value.id, gw.value.amount));
  }
}
