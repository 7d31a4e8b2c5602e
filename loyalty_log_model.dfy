/** The `loyalty_logs` table: one signed movement of a user's points. */
module LoyaltyLogModel {
  import opened Wrappers

  /** Accrual, redemption and manual adjustment. */
  datatype Kind = Acumulacion | Canje | AjusteManual

  function Wire(k: Kind): string
  {
    match k
    case Acumulacion => "acumulacion"
    case Canje => "canje"
    case AjusteManual => "ajuste_manual"
  }

  /** The values the `isIn` validator of `tipo_movimiento` accepts. */
  const KindWires: seq<string> := ["acumulacion", "canje", "ajuste_manual"]

  function ParseKind(w: string): (r: Option<Kind>)
    ensures r.Some? <==> w in KindWires
    ensures r.Some? ==> Wire(r.value) == w
  {
    if w == "acumulacion" then Some(Acumulacion)
    else if w == "canje" then Some(Canje)
    else if w == "ajuste_manual" then Some(AjusteManual)
    else None
  }

  lemma ParseWire(k: Kind)
    ensures ParseKind(Wire(k)) == Some(k)
  {
    match k
    case Acumulacion =>
    case Canje =>
    case AjusteManual =>
  }

  /** A stored movement; `fecha` is the time the database assigned on insert. */
  datatype Entry = Entry(
    usuario_id: int,
    pedido_id: Option<int>,
    tipo_movimiento: Kind,
    cantidad_puntos: int,
    fecha: int)

  /** The attributes a caller passes to `LoyaltyLog.create`; `None` is an omitted attribute. */
  datatype EntryFields = EntryFields(
    usuario_id: Option<int>,
    pedido_id: Option<int>,
    tipo_movimiento: Option<string>,
    cantidad_puntos: Option<int>)

  datatype ValidationError = NullViolation(field: string) | NotInList(field: string, value: string)

  /** `LoyaltyLog.create` before the insert: owner, kind (from the list) and integer
      amount are required; the order reference is optional. */
  function Build(f: EntryFields, now: int): (r: Result<Entry, ValidationError>)
    ensures r.Ok? <==> && f.usuario_id.Some? && f.tipo_movimiento.Some?
                       && f.tipo_movimiento.value in KindWires && f.cantidad_puntos.Some?
    ensures r.Ok? ==> && r.value.usuario_id == f.usuario_id.value && r.value.pedido_id == f.pedido_id
                      && Wire(r.value.tipo_movimiento) == f.tipo_movimiento.value
                      && r.value.cantidad_puntos == f.cantidad_puntos.value && r.value.fecha == now
  {
    if f.usuario_id.None? then Err(NullViolation("usuario_id"))
    else if f.tipo_movimiento.None? then Err(NullViolation("tipo_movimiento"))
    else if f.cantidad_puntos.None? then Err(NullViolation("cantidad_puntos"))
    else
      var kind := ParseKind(f.tipo_movimiento.value);
      if kind.None? then Err(NotInList("tipo_movimiento", f.tipo_movimiento.value))
      else Ok(Entry(f.usuario_id.value, f.pedido_id, kind.value, f.cantidad_puntos.value, now))
  }

  /** The net points the log records for one user. */
  function LogSum(log: seq<Entry>, user: int): int
  {
    if log == [] then 0
    else LogSum(log[..|log| - 1], user)
         + (if log[|log| - 1].usuario_id == user then log[|log| - 1].cantidad_puntos else 0)
  }

  /** Appending a movement changes only its owner's net points, by its amount. */
  lemma LogSumAppend(log: seq<Entry>, e: Entry, user: int)
    ensures LogSum(log + [e], user) == LogSum(log, user) + (if e.usuario_id == user then e.cantidad_puntos else 0)
  {
    assert (log + [e])[..|log + [e]| - 1] == log;
  }
}
