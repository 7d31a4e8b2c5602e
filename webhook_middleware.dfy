/** The gateway's webhook: a signed event is dispatched on its type to one of four
    handlers, each of which finds the local transaction row and rewrites it (and
    possibly the state of its order). Every handler swallows its own errors, so once
    the signature is accepted the answer is always `received`. */
module WebhookMiddleware {
  import opened Wrappers
  import opened Repository
  import opened Store
  import Text
  import TR = TransactionRepository
  import T = TransactionModel
  import O = OrderModel
  import PS = PaymentService

  /** The fields of `event.data.object` the handlers read. For the intent events,
      `id` is the intent id, `charge` its first charge and `lastError` the message
      of its last payment error; for `charge.refunded`, `id` is the charge id,
      `amount` the charged amount and `refundAmount` the amount of its first refund
      (`None` when the refund list is empty), both in cents. */
  datatype Payload = Payload(
    id: string,
    charge: Option<PS.Charge>,
    lastError: Option<string>,
    amount: int,
    refundAmount: Option<int>)

  /** A verified event: its type and its object. */
  datatype Event = Event(kind: string, data: Payload)

  /** The answer: the signature check failed (400), or the event was received (200). */
  datatype Reply = BadSignature(message: string) | Received

  function StatusCode(r: Reply): (code: int)
    ensures code == 400 <==> r.BadSignature?
    ensures code == 200 <==> r.Received?
  {
    if r.BadSignature? then 400 else 200
  }

  /** `Order.update({ estado }, { where: { id } })` on the order a row is attached to. */
  function MoveOrder(s: State, orderId: Option<int>, status: O.Status): State
  {
    if Truthy(orderId)
    then s.(orders := Modify(s.orders, orderId.value, (o: O.Order) => o.(estado := status)))
    else s
  }

  // ---------------------------------------------------------------- the four handlers

  /** The columns `payment_intent.succeeded` writes: those of a paid confirmation
      plus the confirmation time. */
  function SucceededPatch(p: Payload, now: int): T.TxPatch
  {
    PS.ChargePatch(p.charge).(fecha_confirmacion := Some(Some(now)))
  }

  /** `handlePaymentIntentSucceeded`: the row found by intent id becomes `succeeded`,
      and its order, if any, moves to preparation. */
  function OnSucceeded(s: State, p: Payload, now: int): (s': State)
    requires TablesWf(s)
    ensures TablesWf(s') && OnlyRewrites(s, s')
    ensures TR.IntentKey(s.transactions, p.id).None? ==> s' == s
    ensures TR.IntentKey(s.transactions, p.id).Some? ==>
      var id := TR.IntentKey(s.transactions, p.id).value;
      s'.transactions.rows[id].estado == T.Succeeded && s'.transactions.rows[id].fecha_confirmacion == Some(now)
  {
    var key := TR.IntentKey(s.transactions, p.id);
    if key.None? then s
    else
      var tx := s.transactions.rows[key.value];
      MoveOrder(PS.Patched(s, key.value, SucceededPatch(p, now)), tx.pedido_id, O.EnPreparacion)
  }

  /** The columns `payment_intent.payment_failed` writes. */
  function FailedPatch(p: Payload, now: int): T.TxPatch
  {
    T.NoChange.(estado := Some(T.Failed),
                error_mensaje := Some(Some(StrOr(p.lastError, "Pago rechazado"))),
                fecha_fallida := Some(Some(now)))
  }

  /** `handlePaymentIntentFailed`: the row found by intent id becomes `failed` with
      the gateway's message or `Pago rechazado`; no order is touched. */
  function OnFailed(s: State, p: Payload, now: int): (s': State)
    requires TablesWf(s)
    ensures TablesWf(s') && OnlyRewrites(s, s') && s'.orders == s.orders
    ensures TR.IntentKey(s.transactions, p.id).None? ==> s' == s
    ensures TR.IntentKey(s.transactions, p.id).Some? ==>
      var id := TR.IntentKey(s.transactions, p.id).value;
      s'.transactions.rows[id].estado == T.Failed && s'.transactions.rows[id].fecha_fallida == Some(now)
  {
    var key := TR.IntentKey(s.transactions, p.id);
    if key.None? then s else PS.Patched(s, key.value, FailedPatch(p, now))
  }

  /** The amount a refund event reports: the first refund's amount when it is a
      non-zero number, else the charge's amount. */
  function RefundedAmount(p: Payload): (amount: int)
    ensures Truthy(p.refundAmount) ==> amount == p.refundAmount.value
    ensures !Truthy(p.refundAmount) ==> amount == p.amount
  {
    if Truthy(p.refundAmount) then p.refundAmount.value else p.amount
  }

  /** `handleChargeRefunded`, with `accepts` the row validation the update runs: the
      row found by charge id becomes `refunded` with the amount appended to its
      description, and its order, if any, is cancelled. A refused update throws
      before the order is touched, and the handler swallows the error. */
  function OnRefunded(s: State, p: Payload, accepts: T.Transaction -> bool): (s': State)
    requires TablesWf(s)
    ensures TablesWf(s') && OnlyRewrites(s, s')
    ensures TR.ChargeKey(s.transactions, p.id).None? ==> s' == s
    ensures TR.ChargeKey(s.transactions, p.id).Some? ==>
      var id := TR.ChargeKey(s.transactions, p.id).value;
      var tx := s.transactions.rows[id];
      if accepts(T.Apply(tx, PS.RefundPatch(tx, RefundedAmount(p))))
      then s'.transactions.rows[id].estado == T.Refunded
      else s' == s
  {
    var key := TR.ChargeKey(s.transactions, p.id);
    if key.None? then s
    else
      var tx := s.transactions.rows[key.value];
      var patch := PS.RefundPatch(tx, RefundedAmount(p));
      if !accepts(T.Apply(tx, patch)) then s
      else MoveOrder(PS.Patched(s, key.value, patch), tx.pedido_id, O.Cancelado)
  }

  /** The columns `payment_intent.canceled` writes on the row `tx`. */
  function CanceledPatch(tx: T.Transaction): T.TxPatch
  {
    T.NoChange.(estado := Some(T.Canceled), descripcion := Some(Some(PS.Rendered(tx.descripcion) + " - Cancelado")))
  }

  /** `handlePaymentIntentCanceled`: the row found by intent id becomes `canceled`
      with ` - Cancelado` appended to its description; no order is touched. */
  function OnCanceled(s: State, p: Payload): (s': State)
    requires TablesWf(s)
    ensures TablesWf(s') && OnlyRewrites(s, s') && s'.orders == s.orders
    ensures TR.IntentKey(s.transactions, p.id).None? ==> s' == s
    ensures TR.IntentKey(s.transactions, p.id).Some? ==>
      s'.transactions.rows[TR.IntentKey(s.transactions, p.id).value].estado == T.Canceled
  {
    var key := TR.IntentKey(s.transactions, p.id);
    if key.None? then s
    else PS.Patched(s, key.value, CanceledPatch(s.transactions.rows[key.value]))
  }

  // ---------------------------------------------------------------- dispatch

  const EventTypes: seq<string> :=
    ["payment_intent.succeeded", "payment_intent.payment_failed", "charge.refunded", "payment_intent.canceled"]

  /** `handleStripeWebhook`, with `verified` the outcome of the signature check
      (the event, or the check's message) and `accepts` the row validation. */
  function HandleWebhook(s: State, verified: Result<Event, string>, now: int, accepts: T.Transaction -> bool)
    : (res: (State, Reply))
    requires TablesWf(s)
    ensures TablesWf(res.0)
    ensures verified.Err? ==> res == (s, BadSignature("Webhook Error: " + verified.error))
    ensures verified.Ok? ==> res.1 == Received
    ensures verified.Ok? && verified.value.kind !in EventTypes ==> res.0 == s
  {
    if verified.Err? then (s, BadSignature("Webhook Error: " + verified.error))
    else
      var ev := verified.value;
      var s' :=
        if ev.kind == "payment_intent.succeeded" then OnSucceeded(s, ev.data, now)
        else if ev.kind == "payment_intent.payment_failed" then OnFailed(s, ev.data, now)
        else if ev.kind == "charge.refunded" then OnRefunded(s, ev.data, accepts)
        else if ev.kind == "payment_intent.canceled" then OnCanceled(s, ev.data)
        else s;
      (s', Received)
  }

  /** The table the event's handler looks the row up in finds nothing: no state changes. */
  predicate Unmatched(s: State, ev: Event)
    requires TablesWf(s)
  {
    if ev.kind == "charge.refunded" then TR.ChargeKey(s.transactions, ev.data.id).None?
    else TR.IntentKey(s.transactions, ev.data.id).None?
  }

  // ---------------------------------------------------------------- properties

  /** An event whose row is missing is received and changes nothing. */
  lemma UnmatchedIgnored(s: State, ev: Event, now: int, accepts: T.Transaction -> bool)
    requires TablesWf(s) && Unmatched(s, ev)
    ensures HandleWebhook(s, Ok(ev), now, accepts) == (s, Received)
  {
  }

  /** No table gains or loses a row, and only transaction rows and order rows change. */
  predicate OnlyRewrites(s: State, s': State)
  {
    && s'.items == s.items && s'.users == s.users && s'.log == s.log && s'.products == s.products
    && s'.orders.nextId == s.orders.nextId && s'.orders.rows.Keys == s.orders.rows.Keys
    && s'.transactions.nextId == s.transactions.nextId && s'.transactions.rows.Keys == s.transactions.rows.Keys
  }

  lemma PatchedMoveRewrites(s: State, id: int, patch: T.TxPatch, orderId: Option<int>, status: O.Status)
    ensures OnlyRewrites(s, PS.Patched(s, id, patch))
    ensures OnlyRewrites(s, MoveOrder(PS.Patched(s, id, patch), orderId, status))
  {
  }

  /** The handlers never create anything: no order, item, user balance, log entry or
      product changes, and no row is added to or removed from any table. */
  lemma WebhookCreatesNothing(s: State, verified: Result<Event, string>, now: int, accepts: T.Transaction -> bool)
    requires TablesWf(s)
    ensures OnlyRewrites(s, HandleWebhook(s, verified, now, accepts).0)
  {
    if verified.Ok? {
      var ev := verified.value;
      var p := ev.data;
      if ev.kind == "payment_intent.succeeded" {
        var key := TR.IntentKey(s.transactions, p.id);
        if key.Some? {
          PatchedMoveRewrites(s, key.value, SucceededPatch(p, now), s.transactions.rows[key.value].pedido_id, O.EnPreparacion);
        }
      } else if ev.kind == "payment_intent.payment_failed" {
        var key := TR.IntentKey(s.transactions, p.id);
        if key.Some? {
          PatchedMoveRewrites(s, key.value, FailedPatch(p, now), None, O.Cancelado);
        }
      } else if ev.kind == "charge.refunded" {
        var key := TR.ChargeKey(s.transactions, p.id);
        if key.Some? {
          var tx := s.transactions.rows[key.value];
          PatchedMoveRewrites(s, key.value, PS.RefundPatch(tx, RefundedAmount(p)), tx.pedido_id, O.Cancelado);
        }
      } else if ev.kind == "payment_intent.canceled" {
        var key := TR.IntentKey(s.transactions, p.id);
        if key.Some? {
          PatchedMoveRewrites(s, key.value, CanceledPatch(s.transactions.rows[key.value]), None, O.Cancelado);
        }
      }
    }
  }

  /** `payment_intent.succeeded` marks the row paid with the charge's metadata and the
      event's time, keeping every other column, and moves its order, if any, to
      preparation; other rows and orders are untouched. */
  lemma SucceededMarksPaid(s: State, p: Payload, now: int)
    requires TablesWf(s) && TR.IntentKey(s.transactions, p.id).Some?
    ensures var id := TR.IntentKey(s.transactions, p.id).value;
      var tx := s.transactions.rows[id];
      var s' := OnSucceeded(s, p, now);
      var c := p.charge;
      && s'.transactions.rows == s.transactions.rows[id := s'.transactions.rows[id]]
      && s'.transactions.rows[id] == tx.(estado := T.Succeeded,
                                         stripe_charge_id := NullIfEmpty(if c.Some? then c.value.id else None),
                                         metodo_pago := Some(StrOr(if c.Some? then c.value.methodType else None, "card")),
                                         ultimos_4_digitos := NullIfEmpty(if c.Some? then c.value.last4 else None),
                                         fecha_confirmacion := Some(now))
      && (Truthy(tx.pedido_id) && tx.pedido_id.value in s.orders.rows ==>
            s'.orders.rows[tx.pedido_id.value] == s.orders.rows[tx.pedido_id.value].(estado := O.EnPreparacion))
      && (forall k :: k in s.orders.rows && (!Truthy(tx.pedido_id) || k != tx.pedido_id.value) ==>
            s'.orders.rows[k] == s.orders.rows[k])
  {
  }

  /** `payment_intent.payment_failed` marks the row failed with the gateway's message,
      or `Pago rechazado`, and the event's time, whatever state it was in. */
  lemma FailedMarksFailed(s: State, p: Payload, now: int)
    requires TablesWf(s) && TR.IntentKey(s.transactions, p.id).Some?
    ensures var id := TR.IntentKey(s.transactions, p.id).value;
      var tx := s.transactions.rows[id];
      var s' := OnFailed(s, p, now);
      && s'.transactions.rows == s.transactions.rows[id := s'.transactions.rows[id]]
      && s'.transactions.rows[id] == tx.(estado := T.Failed,
                                         error_mensaje := Some(if Filled(p.lastError) then p.lastError.value else "Pago rechazado"),
                                         fecha_fallida := Some(now))
      && s'.orders == s.orders
  {
  }

  /** `payment_intent.canceled` marks the row canceled and appends ` - Cancelado` to
      its description (a null description renders as `null`). */
  lemma CanceledMarksCanceled(s: State, p: Payload)
    requires TablesWf(s) && TR.IntentKey(s.transactions, p.id).Some?
    ensures var id := TR.IntentKey(s.transactions, p.id).value;
      var tx := s.transactions.rows[id];
      var s' := OnCanceled(s, p);
      && s'.transactions.rows == s.transactions.rows[id := s'.transactions.rows[id]]
      && s'.transactions.rows[id] == tx.(estado := T.Canceled,
                                         descripcion := Some((if tx.descripcion.Some? then tx.descripcion.value else "null") + " - Cancelado"))
      && s'.orders == s.orders
  {
  }

  /** As written, the model's validator refuses `refunded`, so a refund event never
      changes anything, not even the order it paid for. */
  lemma RefundedIgnoredAsWritten(s: State, p: Payload)
    requires TablesWf(s)
    ensures OnRefunded(s, p, T.ValidAsWritten) == s
  {
  }

  /** Corrected: a refund event marks a valid row refunded, records the refunded
      amount in its description and cancels its order, if any. */
  lemma RefundedCancelsOrder(s: State, p: Payload)
    requires TablesWf(s) && TR.ChargeKey(s.transactions, p.id).Some?
    requires T.Valid(s.transactions.rows[TR.ChargeKey(s.transactions, p.id).value])
    ensures var id := TR.ChargeKey(s.transactions, p.id).value;
      var tx := s.transactions.rows[id];
      var s' := OnRefunded(s, p, T.Valid);
      && s'.transactions.rows == s.transactions.rows[id := s'.transactions.rows[id]]
      && s'.transactions.rows[id] == tx.(estado := T.Refunded,
           descripcion := Some(PS.Rendered(tx.descripcion) + " - Reembolsado: $" + Text.DollarsText(RefundedAmount(p))))
      && (Truthy(tx.pedido_id) && tx.pedido_id.value in s.orders.rows ==>
            s'.orders.rows[tx.pedido_id.value] == s.orders.rows[tx.pedido_id.value].(estado := O.Cancelado))
      && (forall k :: k in s.orders.rows && (!Truthy(tx.pedido_id) || k != tx.pedido_id.value) ==>
            s'.orders.rows[k] == s.orders.rows[k])
  {
  }

  /** Moving an order to a state twice is moving it once. */
  lemma MoveOrderTwice(s: State, orderId: Option<int>, status: O.Status)
    ensures MoveOrder(MoveOrder(s, orderId, status), orderId, status) == MoveOrder(s, orderId, status)
  {
  }

  /** A redelivered `payment_intent.succeeded` event changes nothing more. */
  lemma SucceededTwice(s: State, p: Payload, now: int)
    requires TablesWf(s)
    ensures OnSucceeded(OnSucceeded(s, p, now), p, now) == OnSucceeded(s, p, now)
  {
    var key := TR.IntentKey(s.transactions, p.id);
    if key.Some? {
      var id := key.value;
      var tx := s.transactions.rows[id];
      var patch := SucceededPatch(p, now);
      var paid := PS.Patched(s, id, patch);
      PS.PatchedKeepsKey(s, id, patch, p.id);
      var once := MoveOrder(paid, tx.pedido_id, O.EnPreparacion);
      assert TR.IntentKey(once.transactions, p.id) == Some(id);
      T.ApplyKeepsIdentity(tx, patch);
      assert once.transactions.rows[id].pedido_id == tx.pedido_id;
      PS.PatchedTwice(s, id, patch);
      MoveOrderTwice(paid, tx.pedido_id, O.EnPreparacion);
    }
  }

  /** The handlers check no prior state: a late `payment_intent.payment_failed` turns a
      paid row back into a failed one, while the order the payment moved to
      preparation stays there. */
  lemma FailedAfterSucceeded(s: State, paid: Payload, failed: Payload, t1: int, t2: int)
    requires TablesWf(s) && TR.IntentKey(s.transactions, paid.id).Some? && failed.id == paid.id
    ensures var id := TR.IntentKey(s.transactions, paid.id).value;
      var s1 := OnSucceeded(s, paid, t1);
      var s2 := OnFailed(s1, failed, t2);
      && s1.transactions.rows[id].estado == T.Succeeded
      && s2.transactions.rows[id].estado == T.Failed
      && s2.orders == s1.orders
  {
    var id := TR.IntentKey(s.transactions, paid.id).value;
    var tx := s.transactions.rows[id];
    PS.PatchedKeepsKey(s, id, SucceededPatch(paid, t1), paid.id);
  }

  // ---------------------------------------------------------------- on the connection

  /** `handleStripeWebhook` on the connection, with the corrected validation. */
  method HandleStripeWebhook(db: Db, verified: Result<Event, string>, now: int) returns (r: Reply)
    requires TablesWf(db.Snapshot())
    modifies db
    ensures (db.Snapshot(), r) == HandleWebhook(old(db.Snapshot()), verified, now, T.Valid)
  {
    if verified.Err? {
      return BadSignature("Webhook Error: " + verified.error);
    }
    var ev := verified.value;
    if ev.kind == "payment_intent.succeeded" {
      HandleSucceeded(db, ev.data, now);
    } else if ev.kind == "payment_intent.payment_failed" {
      HandleFailed(db, ev.data, now);
    } else if ev.kind == "charge.refunded" {
      HandleRefunded(db, ev.data);
    } else if ev.kind == "payment_intent.canceled" {
      HandleCanceled(db, ev.data);
    }
    r := Received;
  }

  method HandleSucceeded(db: Db, p: Payload, now: int)
    requires TablesWf(db.Snapshot())
    modifies db
    ensures db.Snapshot() == OnSucceeded(old(db.Snapshot()), p, now)
  {
    var key := TR.IntentKey(db.transactions, p.id);
    if key.None? {
      return;
    }
    var tx := db.transactions.rows[key.value];
    db.transactions := db.transactions.(rows := db.transactions.rows[key.value := T.Apply(tx, SucceededPatch(p, now))]);
    if Truthy(tx.pedido_id) {
      db.orders := Modify(db.orders, tx.pedido_id.value, (o: O.Order) => o.(estado := O.EnPreparacion));
    }
  }

  method HandleFailed(db: Db, p: Payload, now: int)
    requires TablesWf(db.Snapshot())
    modifies db
    ensures db.Snapshot() == OnFailed(old(db.Snapshot()), p, now)
  {
    var key := TR.IntentKey(db.transactions, p.id);
    if key.None? {
      return;
    }
    var tx := db.transactions.rows[key.value];
    db.transactions := db.transactions.(rows := db.transactions.rows[key.value := T.Apply(tx, FailedPatch(p, now))]);
  }

  method HandleRefunded(db: Db, p: Payload)
    requires TablesWf(db.Snapshot())
    modifies db
    ensures db.Snapshot() == OnRefunded(old(db.Snapshot()), p, T.Valid)
  {
    var key := TR.ChargeKey(db.transactions, p.id);
    if key.None? {
      return;
    }
    var tx := db.transactions.rows[key.value];
    var updated := T.Apply(tx, PS.RefundPatch(tx, RefundedAmount(p)));
    if !T.Valid(updated) {
      return;
    }
    db.transactions := db.transactions.(rows := db.transactions.rows[key.value := updated]);
    if Truthy(tx.pedido_id) {
      db.orders := Modify(db.orders, tx.pedido_id.value, (o: O.Order) => o.(estado := O.Cancelado));
    }
  }

  method HandleCanceled(db: Db, p: Payload)
    requires TablesWf(db.Snapshot())
    modifies db
    ensures db.Snapshot() == OnCanceled(old(db.Snapshot()), p)
  {
    var key := TR.IntentKey(db.transactions, p.id);
    if key.None? {
      return;
    }
    var tx := db.transactions.rows[key.value];
    db.transactions := db.transactions.(rows := db.transactions.rows[key.value := T.Apply(tx, CanceledPatch(tx))]);
  }
}
