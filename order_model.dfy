/** The `orders` table: an order header with its status enumeration and the
    constraints the model enforces when a row is created. */
module OrderModel {
  import opened Wrappers

  /** The five order statuses, in their stored spelling. */
  datatype Status = Pendiente | EnPreparacion | Listo | Entregado | Cancelado

  function Wire(s: Status): string
  {
    match s
    case Pendiente => "pendiente"
    case EnPreparacion => "en_preparacion"
    case Listo => "listo"
    case Entregado => "entregado"
    case Cancelado => "cancelado"
  }

  /** The values the `isIn` validator of `estado` accepts. */
  const StatusWires: seq<string> := ["pendiente", "en_preparacion", "listo", "entregado", "cancelado"]

  /** The status a stored string denotes; `None` for a string the validator rejects. */
  function ParseStatus(w: string): (r: Option<Status>)
    ensures r.Some? <==> w in StatusWires
    ensures r.Some? ==> Wire(r.value) == w
  {
    if w == "pendiente" then Some(Pendiente)
    else if w == "en_preparacion" then Some(EnPreparacion)
    else if w == "listo" then Some(Listo)
    else if w == "entregado" then Some(Entregado)
    else if w == "cancelado" then Some(Cancelado)
    else None
  }

  /** Every status is stored as a string the validator accepts, and reads back as itself. */
  lemma ParseWire(s: Status)
    ensures ParseStatus(Wire(s)) == Some(s)
  {
    match s
    case Pendiente =>
    case EnPreparacion =>
    case Listo =>
    case Entregado =>
    case Cancelado =>
  }

  /** A stored order. Money is in integer cents; `fecha_creacion` is the
      time the database assigned on insert. */
  datatype Order = Order(
    usuario_id: int,
    estado: Status,
    total_pagar: int,
    puntos_ganados: int,
    metodo_pago: Option<string>,
    fecha_creacion: int)

  /** The attributes a caller passes to `Order.create`; `None` is an omitted attribute. */
  datatype OrderFields = OrderFields(
    usuario_id: Option<int>,
    estado: Option<string>,
    total_pagar: Option<int>,
    puntos_ganados: Option<int>,
    metodo_pago: Option<string>)

  datatype ValidationError = NullViolation(field: string) | NotInList(field: string, value: string)

  /** `Order.create` before the insert: defaults first, then the not-null and `isIn` checks. */
  function Build(f: OrderFields, now: int): (r: Result<Order, ValidationError>)
    ensures r.Ok? <==> f.usuario_id.Some? && f.total_pagar.Some? && (f.estado.None? || f.estado.value in StatusWires)
    ensures r.Ok? ==> r.value.usuario_id == f.usuario_id.value && r.value.total_pagar == f.total_pagar.value
    ensures r.Ok? ==> Wire(r.value.estado) == (if f.estado.Some? then f.estado.value else "pendiente")
    ensures r.Ok? ==> r.value.puntos_ganados == (if f.puntos_ganados.Some? then f.puntos_ganados.value else 0)
    ensures r.Ok? ==> r.value.metodo_pago == f.metodo_pago && r.value.fecha_creacion == now
  {
    if f.usuario_id.None? then Err(NullViolation("usuario_id"))
    else if f.total_pagar.None? then Err(NullViolation("total_pagar"))
    else
      var estado := if f.estado.Some? then ParseStatus(f.estado.value) else Some(Pendiente);
      if estado.None? then Err(NotInList("estado", f.estado.value))
      else Ok(Order(f.usuario_id.value, estado.value, f.total_pagar.value,
                    if f.puntos_ganados.Some? then f.puntos_ganados.value else 0,
                    f.metodo_pago, now))
  }
}
