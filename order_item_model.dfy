/** The `order_items` table: one priced line of an order. */
module OrderItemModel {
  import opened Wrappers

  /** A stored line item. `precio_unitario` is in cents, frozen when the row is written. */
  datatype OrderItem = OrderItem(
    pedido_id: int,
    producto_id: int,
    cantidad: int,
    precio_unitario: int,
    notas_personalizadas: Option<string>)

  /** The attributes a caller passes to `OrderItem.create`; `None` is an omitted attribute. */
  datatype ItemFields = ItemFields(
    pedido_id: Option<int>,
    producto_id: Option<int>,
    cantidad: Option<int>,
    precio_unitario: Option<int>,
    notas_personalizadas: Option<string>)

  datatype ValidationError = NullViolation(field: string) | BelowMin(field: string, min: int)

  /** The row-level constraint that survives once every required column is present. */
  predicate Valid(i: OrderItem)
  {
    i.cantidad >= 1
  }

  /** `OrderItem.create` before the insert: the four required columns, then `cantidad >= 1`. */
  function Build(f: ItemFields): (r: Result<OrderItem, ValidationError>)
    ensures r.Ok? <==> && f.pedido_id.Some? && f.producto_id.Some? && f.cantidad.Some?
                       && f.precio_unitario.Some? && f.cantidad.value >= 1
    ensures r.Ok? ==> Valid(r.value)
    ensures r.Ok? ==> r.value == OrderItem(f.pedido_id.value, f.producto_id.value, f.cantidad.value,
                                           f.precio_unitario.value, f.notas_personalizadas)
  {
    if f.pedido_id.None? then Err(NullViolation("pedido_id"))
    else if f.producto_id.None? then Err(NullViolation("producto_id"))
    else if f.cantidad.None? then Err(NullViolation("cantidad"))
    else if f.precio_unitario.None? then Err(NullViolation("precio_unitario"))
    else if f.cantidad.value < 1 then Err(BelowMin("cantidad", 1))
    else Ok(OrderItem(f.pedido_id.value, f.producto_id.value, f.cantidad.value,
                      f.precio_unitario.value, f.notas_personalizadas))
  }

  /** The amount a run of lines charges: the sum of unit price times quantity. */
  function LineTotal(items: seq<OrderItem>): int
  {
    if items == [] then 0
    else LineTotal(items[..|items| - 1]) + items[|items| - 1].precio_unitario * items[|items| - 1].cantidad
  }

  /** Line totals add up over concatenation. */
  lemma {:induction false} LineTotalAppend(a: seq<OrderItem>, b: seq<OrderItem>)
    ensures LineTotal(a + b) == LineTotal(a) + LineTotal(b)
    decreases |b|
  {
    if b != [] {
      LineTotalAppend(a, b[..|b| - 1]);
      assert (a + b)[..|a + b| - 1] == a + b[..|b| - 1];
    } else {
      assert a + b == a;
    }
  }

  /** Valid lines at non-negative prices never charge a negative amount. */
  lemma {:induction false} LineTotalNonNegative(items: seq<OrderItem>)
    requires forall i :: 0 <= i < |items| ==> Valid(items[i]) && items[i].precio_unitario >= 0
    ensures LineTotal(items) >= 0
  {
    if items != [] {
      LineTotalNonNegative(items[..|items| - 1]);
    }
  }
}
