/** The HTTP layer of the payment routes: it reads the request body, refuses
    malformed requests with 400 before any service is called, and maps the
    service's answer or thrown error to a status code. A thrown error reaches the
    error middleware, which answers 500 with the error's message. */
module PaymentController {
  import opened Wrappers
  import opened Store
  import Text
  import opened Repository
  import TR = TransactionRepository
  import T = TransactionModel
  import PS = PaymentService

  /** A response: its status code and either the data or the error message. */
  datatype Response<D> = Response(status: int, body: Result<D, string>)

  /** What the error middleware answers for a thrown error without a status code. */
  function Thrown<D>(message: string): Response<D>
  {
    Response(500, Err(message))
  }

  // ---------------------------------------------------------------- create-intent

  /** The body of `POST /create-intent`. Amounts are numbers of currency units,
      held here in hundredths so that `amount * 100` is exact; `None` is a missing
      property. */
  datatype IntentBody = IntentBody(amount: Option<int>, monto: Option<int>, description: Option<string>, orderId: Option<int>)

  const InvalidAmount := "Monto inválido. Por favor proporciona \"amount\" o \"monto\""

  /** `req.body.amount || req.body.monto`. */
  function RequestedAmount(b: IntentBody): (a: Option<int>)
    ensures Truthy(b.amount) ==> a == b.amount
    ensures !Truthy(b.amount) ==> a == b.monto
  {
    if Truthy(b.amount) then b.amount else b.monto
  }

  /** `description || 'Pago para orden #' + (orderId || 'general')`. */
  function IntentDescription(b: IntentBody): (d: string)
    ensures Filled(b.description) ==> d == b.description.value
    ensures !Filled(b.description) && Truthy(b.orderId) ==> d == "Pago para orden #" + Text.IntToString(b.orderId.value)
    ensures !Filled(b.description) && !Truthy(b.orderId) ==> d == "Pago para orden #general"
  {
    if Filled(b.description) then b.description.value
    else "Pago para orden #" + (if Truthy(b.orderId) then Text.IntToString(b.orderId.value) else "general")
  }

  /** `createPaymentIntent(req, res)` for the authenticated user `userId`: a missing,
      zero or negative amount answers 400 and calls nothing; otherwise the service
      gets the amount in cents and the description, and its result answers 201. */
  function CreateIntent(s: State, userId: int, b: IntentBody, gateway: Result<PS.CreatedIntent, string>, now: int)
    : (res: (State, Response<PS.IntentReply>))
    requires TablesWf(s)
    ensures TablesWf(res.0)
    ensures res.1.status == 400 <==> !Truthy(RequestedAmount(b)) || RequestedAmount(b).value <= 0
    ensures res.1.status == 400 ==> res == (s, Response(400, Err(InvalidAmount)))
    ensures res.1.status != 400 ==>
      var (s', r) := PS.IntentCreation(s, userId, RequestedAmount(b).value, Some(IntentDescription(b)), gateway, now);
      && res.0 == s'
      && (r.Ok? ==> res.1 == Response(201, Ok(r.value)))
      && (r.Err? ==> res.1 == Response(500, Err(r.error)))
  {
    var amount := RequestedAmount(b);
    if !Truthy(amount) || amount.value <= 0 then (s, Response(400, Err(InvalidAmount)))
    else
      var (s', r) := PS.IntentCreation(s, userId, amount.value, Some(IntentDescription(b)), gateway, now);
      (s', if r.Ok? then Response(201, Ok(r.value)) else Thrown(r.error))
  }

  /** A request the controller lets through is still refused by the service below
      its 50-cent minimum, and then nothing is written. */
  lemma SmallAmountRefusedBelow(s: State, userId: int, b: IntentBody, gateway: Result<PS.CreatedIntent, string>, now: int)
    requires TablesWf(s) && Truthy(RequestedAmount(b)) && 0 < RequestedAmount(b).value < 50
    ensures CreateIntent(s, userId, b, gateway, now) == (s, Response(500, Err(PS.CreateError(PS.BelowMinimum))))
  {
  }

  /** A created intent's row records the description the controller chose. */
  lemma CreatedIntentDescribed(s: State, userId: int, b: IntentBody, pi: PS.CreatedIntent, now: int)
    requires TablesWf(s) && Truthy(RequestedAmount(b)) && RequestedAmount(b).value >= 50
    requires TR.IntentKey(s.transactions, pi.id).None?
    ensures var (s', r) := CreateIntent(s, userId, b, Ok(pi), now);
      && r.status == 201 && r.body.Ok?
      && s'.transactions.rows[r.body.value.transactionId].descripcion == Some(IntentDescription(b))
      && s'.transactions.rows[r.body.value.transactionId].monto == RequestedAmount(b).value
  {
    PS.IntentRecorded(s, userId, RequestedAmount(b).value, Some(IntentDescription(b)), pi, now);
  }

  // ---------------------------------------------------------------- confirm

  /** The body of `POST /confirm`; `productos` is `None` when missing. */
  datatype ConfirmBody = ConfirmBody(
    paymentIntentId: Option<string>,
    payment_intent_id: Option<string>,
    orderId: Option<int>,
    pedido_id: Option<int>,
    productos: Option<seq<PS.ClientItem>>)

  const MissingIntentId := "PaymentIntentId o payment_intent_id es requerido"

  /** `req.body.paymentIntentId || req.body.payment_intent_id`. */
  function ConfirmIntentId(b: ConfirmBody): (id: Option<string>)
    ensures Filled(b.paymentIntentId) ==> id == b.paymentIntentId
    ensures !Filled(b.paymentIntentId) ==> id == b.payment_intent_id
  {
    if Filled(b.paymentIntentId) then b.paymentIntentId else b.payment_intent_id
  }

  /** The payment service the controller is wired to: the service as the program
      has it, or the corrected service that settles a paid intent once and
      accepts a `refunded` row. */
  datatype Service = AsWritten | Corrected

  /** The confirmation the wired service performs. */
  function ConfirmWith(svc: Service, s: State, pi: string, orderId: Option<int>, userId: Option<int>,
                       ps: seq<PS.ClientItem>, gw: Result<PS.Intent, string>, now: int)
    : (res: (State, Result<PS.ConfirmReply, string>))
    requires TablesWf(s)
    ensures TablesWf(res.0)
    ensures gw.Err? ==> res == (s, Err(PS.ConfirmError(gw.error)))
    ensures svc == Corrected && res.1.Err? ==> res.0 == s
  {
    if svc == AsWritten then PS.Confirmation(s, pi, orderId, userId, ps, gw, now)
    else PS.SettledConfirmation(s, pi, orderId, userId, ps, gw, now)
  }

  /** `confirmPayment(req, res)`: without an intent id it answers 400 and calls
      nothing; otherwise it answers 200 exactly when the service reports success,
      400 for any other answer and 500 for a thrown error. */
  function Confirm(s: State, svc: Service, userId: int, b: ConfirmBody, gw: Result<PS.Intent, string>, now: int)
    : (res: (State, Response<PS.ConfirmReply>))
    requires TablesWf(s)
    ensures TablesWf(res.0)
    ensures !Filled(ConfirmIntentId(b)) ==> res == (s, Response(400, Err(MissingIntentId)))
    ensures Filled(ConfirmIntentId(b)) ==>
      var orderId := if Truthy(b.orderId) then b.orderId else b.pedido_id;
      var ps := if b.productos.Some? then b.productos.value else [];
      var (s', r) := ConfirmWith(svc, s, ConfirmIntentId(b).value, orderId, Some(userId), ps, gw, now);
      && res.0 == s'
      && (res.1.status == 200 <==> r.Ok? && r.value.Confirmed?)
      && (res.1.status == 400 <==> r.Ok? && !r.value.Confirmed?)
      && (r.Ok? ==> res.1.body == Ok(r.value))
      && (r.Err? ==> res.1 == Response(500, Err(r.error)))
  {
    var pi := ConfirmIntentId(b);
    if !Filled(pi) then (s, Response(400, Err(MissingIntentId)))
    else
      var orderId := if Truthy(b.orderId) then b.orderId else b.pedido_id;
      var ps := if b.productos.Some? then b.productos.value else [];
      var (s', r) := ConfirmWith(svc, s, pi.value, orderId, Some(userId), ps, gw, now);
      if r.Err? then (s', Thrown(r.error))
      else (s', Response(if r.value.Confirmed? then 200 else 400, Ok(r.value)))
  }

  /** As the program is wired, a paid intent whose client items hold a zero
      quantity is answered 500, yet its transaction row stays marked succeeded and
      no order is written. */
  lemma ConfirmRefusedItemAnswers500(s: State, userId: int, b: ConfirmBody, intent: PS.Intent, now: int)
    requires TablesWf(s) && Filled(ConfirmIntentId(b))
    requires TR.IntentKey(s.transactions, ConfirmIntentId(b).value).Some?
    requires !Truthy(b.orderId) && b.pedido_id == None && b.productos.Some?
    requires PS.CreatesOrder(intent, None, b.productos.value) && !PS.PositiveQuantities(b.productos.value)
    ensures var id := TR.IntentKey(s.transactions, ConfirmIntentId(b).value).value;
      var (s', res) := Confirm(s, AsWritten, userId, b, Ok(intent), now);
      && res == Response(500, Err(PS.ConfirmError(PS.QuantityRefused)))
      && s'.transactions.rows[id].estado == T.Succeeded
      && s'.orders == s.orders && s'.items == s.items
  {
    PS.ConfirmRefusedItemKeepsPaidMark(s, ConfirmIntentId(b).value, Some(userId), b.productos.value, intent, now);
  }

  // ---------------------------------------------------------------- refund

  /** The body of `POST /refund`; the requested amount only reaches the gateway,
      whose answer is the parameter `gw`. */
  datatype RefundBody = RefundBody(paymentIntentId: Option<string>, amount: Option<int>)

  const MissingRefundId := "PaymentIntentId es requerido"

  /** The check the wired service runs on the refunded row before saving it. */
  function RefundAccepts(svc: Service): (accepts: T.Transaction -> bool)
    ensures svc == AsWritten ==> accepts == T.ValidAsWritten
    ensures svc == Corrected ==> accepts == T.Valid
  {
    if svc == AsWritten then T.ValidAsWritten else T.Valid
  }

  /** `refundPayment(req, res)`: 400 without an intent id, 200 with the service's
      answer, 500 when the service throws. */
  function RefundRequest(s: State, svc: Service, b: RefundBody, gw: Result<PS.GatewayRefund, string>)
    : (res: (State, Response<PS.RefundReply>))
    requires TablesWf(s)
    ensures TablesWf(res.0)
    ensures !Filled(b.paymentIntentId) ==> res == (s, Response(400, Err(MissingRefundId)))
    ensures Filled(b.paymentIntentId) ==>
      var (s', r) := PS.Refund(s, b.paymentIntentId.value, gw, RefundAccepts(svc));
      && res.0 == s'
      && (res.1.status == 200 <==> r.Ok?)
      && (r.Ok? ==> res.1.body == Ok(r.value))
      && (r.Err? ==> res.1 == Response(500, Err(r.error)))
  {
    if !Filled(b.paymentIntentId) then (s, Response(400, Err(MissingRefundId)))
    else
      var (s', r) := PS.Refund(s, b.paymentIntentId.value, gw, RefundAccepts(svc));
      (s', if r.Ok? then Response(200, Ok(r.value)) else Thrown(r.error))
  }

  /** As the program is wired, no refund request with an intent id ever succeeds:
      every one is answered 500 and nothing changes, and a succeeded payment the
      gateway refunded is answered with the refused-state message. */
  lemma RefundAnswers500AsWritten(s: State, b: RefundBody, gw: Result<PS.GatewayRefund, string>)
    requires TablesWf(s) && Filled(b.paymentIntentId)
    ensures var (s', res) := RefundRequest(s, AsWritten, b, gw);
      && s' == s && res.status == 500
      && var key := TR.IntentKey(s.transactions, b.paymentIntentId.value);
         key.Some? && s.transactions.rows[key.value].estado == T.Succeeded && gw.Ok?
         ==> res.body == Err(PS.RefundError(PS.StateRefused))
  {
    PS.RefundRefusedAsWritten(s, b.paymentIntentId.value, gw);
  }

  // ---------------------------------------------------------------- revenue-stats

  /** The figures of `getRevenueStats`: the number of counted payments and their sum in cents. */
  datatype Revenue = Revenue(count: nat, total: int)

  const MissingDates := "startDate y endDate son requeridos (formato: YYYY-MM-DD)"
  const BadDate := "Formato de fecha inválido"

  /** `getRevenueStats(req, res)`, with `parseDate` standing for `new Date(...)`
      (`None` for an invalid date): both dates are required and must parse;
      otherwise 400 and nothing is queried. */
  function RevenueStats(t: Table<T.Transaction>, startDate: Option<string>, endDate: Option<string>,
                        parseDate: string -> Option<int>): (res: Response<Revenue>)
    requires Wf(t)
    ensures !Filled(startDate) || !Filled(endDate) ==> res == Response(400, Err(MissingDates))
    ensures var bad := Filled(startDate) && Filled(endDate)
                       && (parseDate(startDate.value).None? || parseDate(endDate.value).None?);
      bad ==> res == Response(400, Err(BadDate))
    ensures res.status == 200 <==> Filled(startDate) && Filled(endDate)
                                   && parseDate(startDate.value).Some? && parseDate(endDate.value).Some?
    ensures res.status == 200 ==>
      var start, end := parseDate(startDate.value).value, parseDate(endDate.value).value;
      res.body == Ok(Revenue(TR.CountSuccessful(t, start, end), TR.SumSuccessful(t, start, end)))
    ensures res.status != 200 ==> res.status == 400
  {
    if !Filled(startDate) || !Filled(endDate) then Response(400, Err(MissingDates))
    else
      var start, end := parseDate(startDate.value), parseDate(endDate.value);
      if start.None? || end.None? then Response(400, Err(BadDate))
      else Response(200, Ok(Revenue(TR.CountSuccessful(t, start.value, end.value), TR.SumSuccessful(t, start.value, end.value))))
  }

  /** A period with no counted payment reports a zero total, and totals are never negative. */
  lemma RevenueConsistent(t: Table<T.Transaction>, startDate: Option<string>, endDate: Option<string>,
                          parseDate: string -> Option<int>)
    requires Wf(t) && forall k :: k in t.rows ==> T.Valid(t.rows[k])
    ensures var res := RevenueStats(t, startDate, endDate, parseDate);
      res.status == 200 ==> res.body.value.total >= 0 && (res.body.value.count == 0 ==> res.body.value.total == 0)
  {
    var res := RevenueStats(t, startDate, endDate, parseDate);
    if res.status == 200 {
      var start, end := parseDate(startDate.value).value, parseDate(endDate.value).value;
      TR.SumSuccessfulNonNegative(t, start, end);
    }
  }
}
