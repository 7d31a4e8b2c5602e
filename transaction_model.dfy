/** The `transactions` table: the local record of one payment intent of the
    gateway, with its state enumeration and the model's constraints. */
module TransactionModel {
  import opened Wrappers

  /** Every state the services write. `Refunded` is written by the refund paths
      although the model's validator does not list it (see `StatesAsWritten`). */
  datatype TxState = Pending | Succeeded | Failed | Canceled | RequiresAction | Refunded

  function Wire(s: TxState): string
  {
    match s
    case Pending => "pending"
    case Succeeded => "succeeded"
    case Failed => "failed"
    case Canceled => "canceled"
    case RequiresAction => "requires_action"
    case Refunded => "refunded"
  }

  /** The values the `isIn` validator of `estado` accepts, as the model declares them. */
  const StatesAsWritten: seq<string> := ["pending", "succeeded", "failed", "canceled", "requires_action"]

  /** The state a stored string denotes, over all six states the services write. */
  function ParseState(w: string): (r: Option<TxState>)
    ensures r.Some? ==> Wire(r.value) == w
    ensures r.Some? <==> w in StatesAsWritten || w == "refunded"
  {
    if w == "pending" then Some(Pending)
    else if w == "succeeded" then Some(Succeeded)
    else if w == "failed" then Some(Failed)
    else if w == "canceled" then Some(Canceled)
    else if w == "requires_action" then Some(RequiresAction)
    else if w == "refunded" then Some(Refunded)
    else None
  }

  lemma ParseWire(s: TxState)
    ensures ParseState(Wire(s)) == Some(s)
  {
    match s
    case Pending =>
    case Succeeded =>
    case Failed =>
    case Canceled =>
    case RequiresAction =>
    case Refunded =>
  }

  /** A stored transaction. `monto` is in cents; the `fecha_*` columns are opaque
      clock readings; `fecha_creacion` is assigned by the database on insert. */
  datatype Transaction = Transaction(
    usuario_id: int,
    pedido_id: Option<int>,
    stripe_payment_intent_id: Option<string>,
    stripe_charge_id: Option<string>,
    monto: int,
    moneda: string,
    estado: TxState,
    metodo_pago: Option<string>,
    ultimos_4_digitos: Option<string>,
    descripcion: Option<string>,
    error_mensaje: Option<string>,
    fecha_creacion: int,
    fecha_confirmacion: Option<int>,
    fecha_fallida: Option<int>)

  /** The row validation as the model declares it: `monto >= 0` and `estado` in
      the five-value list, which leaves `refunded` out. */
  predicate ValidAsWritten(t: Transaction)
  {
    t.monto >= 0 && Wire(t.estado) in StatesAsWritten
  }

  /** The row validation with the evidently intended enumeration, which also admits `refunded`. */
  predicate Valid(t: Transaction)
  {
    t.monto >= 0
  }

  /** The only row the as-written validator refuses and the corrected one accepts is a refunded one. */
  lemma ValidAsWrittenDiffers(t: Transaction)
    ensures ValidAsWritten(t) <==> Valid(t) && t.estado != Refunded
  {
  }

  /** The attributes a caller passes to `Transaction.create`; `None` is an omitted attribute. */
  datatype TxFields = TxFields(
    usuario_id: Option<int>,
    stripe_payment_intent_id: Option<string>,
    monto: Option<int>,
    moneda: Option<string>,
    estado: Option<string>,
    descripcion: Option<string>)

  datatype ValidationError = NullViolation(field: string) | BelowMin(field: string, min: int) | NotInList(field: string, value: string)

  /** `Transaction.create` before the insert: defaults, not-null checks, `monto >= 0`
      and the `isIn` list as declared. */
  function Build(f: TxFields, now: int): (r: Result<Transaction, ValidationError>)
    ensures r.Ok? <==> && f.usuario_id.Some? && f.monto.Some? && f.monto.value >= 0
                       && f.estado.Some? && f.estado.value in StatesAsWritten
    ensures r.Ok? ==> ValidAsWritten(r.value) && Wire(r.value.estado) == f.estado.value
    ensures r.Ok? ==> r.value.moneda == (if f.moneda.Some? then f.moneda.value else "USD")
    ensures r.Ok? ==> && r.value.usuario_id == f.usuario_id.value && r.value.monto == f.monto.value
                      && r.value.stripe_payment_intent_id == f.stripe_payment_intent_id
                      && r.value.descripcion == f.descripcion && r.value.pedido_id.None?
                      && r.value.fecha_creacion == now
  {
    if f.usuario_id.None? then Err(NullViolation("usuario_id"))
    else if f.monto.None? then Err(NullViolation("monto"))
    else if f.monto.value < 0 then Err(BelowMin("monto", 0))
    else if f.estado.None? then Err(NullViolation("estado"))
    else if f.estado.value !in StatesAsWritten then Err(NotInList("estado", f.estado.value))
    else
      var estado := ParseState(f.estado.value);
      Ok(Transaction(f.usuario_id.value, None, f.stripe_payment_intent_id, None, f.monto.value,
                     if f.moneda.Some? then f.moneda.value else "USD",
                     estado.value, None, None, f.descripcion, None, now, None, None))
  }

  /** The attributes a caller passes to `update`: `None` leaves a column alone,
      `Some(v)` writes `v` (which for a nullable column may itself be null). */
  datatype TxPatch = TxPatch(
    pedido_id: Option<Option<int>>,
    stripe_charge_id: Option<Option<string>>,
    estado: Option<TxState>,
    metodo_pago: Option<Option<string>>,
    ultimos_4_digitos: Option<Option<string>>,
    descripcion: Option<Option<string>>,
    error_mensaje: Option<Option<string>>,
    fecha_confirmacion: Option<Option<int>>,
    fecha_fallida: Option<Option<int>>)

  const NoChange: TxPatch := TxPatch(None, None, None, None, None, None, None, None, None)

  function Put<T>(current: T, supplied: Option<T>): T
  {
    if supplied.Some? then supplied.value else current
  }

  /** `record.update(data)`: supplied columns take the supplied value, all others keep theirs. */
  function Apply(t: Transaction, p: TxPatch): Transaction
  {
    t.(pedido_id := Put(t.pedido_id, p.pedido_id),
       stripe_charge_id := Put(t.stripe_charge_id, p.stripe_charge_id),
       estado := Put(t.estado, p.estado),
       metodo_pago := Put(t.metodo_pago, p.metodo_pago),
       ultimos_4_digitos := Put(t.ultimos_4_digitos, p.ultimos_4_digitos),
       descripcion := Put(t.descripcion, p.descripcion),
       error_mensaje := Put(t.error_mensaje, p.error_mensaje),
       fecha_confirmacion := Put(t.fecha_confirmacion, p.fecha_confirmacion),
       fecha_fallida := Put(t.fecha_fallida, p.fecha_fallida))
  }

  /** An update never touches the owner, the intent id, the amount, the currency or
      the creation time, and writing the same patch twice is writing it once. */
  lemma ApplyKeepsIdentity(t: Transaction, p: TxPatch)
    ensures var t' := Apply(t, p);
      && t'.usuario_id == t.usuario_id && t'.stripe_payment_intent_id == t.stripe_payment_intent_id
      && t'.monto == t.monto && t'.moneda == t.moneda && t'.fecha_creacion == t.fecha_creacion
    ensures Apply(Apply(t, p), p) == Apply(t, p)
    ensures Valid(t) ==> Valid(Apply(t, p))
  {
  }
}
