/** What the two payment modals (the admin page's and the till page's)
    share: the amount field, the request fields derived from an order and the
    user, and the change shown in the confirmation alert. */
module PaymentForm {
  import opened Seqs
  import opened Text
  import opened Ledger
  import PagosStore

  /** The "Paga con" field: empty, a number (in cents), or text that
      `parseFloat` reads as `NaN`. */
  datatype AmountField = Blank | Amount(value: int) | Unparsable

  /** `pagadoCon ? parseFloat(pagadoCon) : 0`; `None` is `NaN`. */
  function Tendered(field: AmountField): Option<int>
  {
    match field
    case Blank => Some(0)
    case Amount(v) => Some(v)
    case Unparsable => None
  }

  /** `esPagoSuficiente = pagadoConNum >= total` (false for `NaN`). */
  predicate Sufficient(field: AmountField, total: int)
  {
    var t := Tendered(field);
    t.Some? && t.value >= total
  }

  /** The submit button of both payment modals (while not processing): it
      is disabled for a cash payment whose field is blank or does not cover
      the total, and enabled otherwise. */
  predicate SubmitEnabled(metodo: MetodoPago, field: AmountField, total: int)
  {
    !(metodo == Efectivo && (field.Blank? || !Sufficient(field, total)))
  }

  /** `vuelto = pagadoCon ? Math.max(0, parseFloat(pagadoCon) - total) : 0`,
      the change shown to the cashier; `None` is `NaN`. */
  function ShownVuelto(field: AmountField, total: int): Option<int>
  {
    match field
    case Blank => Some(0)
    case Amount(v) => Some(if v - total > 0 then v - total else 0)
    case Unparsable => None
  }

  /** When the amount covers a bill that is not negative, the change shown
      is the change the payment store records for that amount. */
  lemma ShownVueltoIsRecorded(field: AmountField, total: int)
    requires total >= 0 && Sufficient(field, total)
    ensures ShownVuelto(field, total) == Some(PagosStore.Vuelto(total, Tendered(field).value))
  {
  }

  /** `pedido.firebaseId || pedido.id.toString()`: the document id when it is
      present and not empty, else the decimal local id, which reads back as
      that id. */
  function PedidoKey(p: Pedido): (k: string)
    ensures HasFirebaseId(p) ==> k == p.firebaseId.value
    ensures !HasFirebaseId(p) ==> ParseInt(k) == Some(p.id)
  {
    if HasFirebaseId(p) then p.firebaseId.value
    else
      ParseIntOfIntToString(p.id);
      IntToString(p.id)
  }

  /** `user?.email || "unknown"`; `email` is the signed-in user's address. */
  function CajeroOf(email: Option<string>): (c: string)
    ensures c != ""
    ensures email.Some? && email.value != "" ==> c == email.value
  {
    if email.Some? && email.value != "" then email.value else "unknown"
  }

  /** `items.map(item => ({ name, quantity, price }))`. */
  function PagoItems(items: seq<PedidoItem>): (r: seq<PagoItem>)
    ensures |r| == |items|
    ensures forall k :: 0 <= k < |r| ==>
      r[k].name == items[k].name && r[k].quantity == items[k].quantity && r[k].price == items[k].price
  {
    seq(|items|, k requires 0 <= k < |items| => PagoItem(items[k].name, items[k].quantity, items[k].price))
  }

  /** Price times quantity summed over the snapshot. */
  function PagoItemsTotal(items: seq<PagoItem>): int
  {
    if items == [] then 0 else items[0].price * items[0].quantity + PagoItemsTotal(items[1..])
  }

  /** The snapshot stored in a payment adds up to the billed lines' total. */
  lemma {:induction false} PagoItemsKeepTotal(items: seq<PedidoItem>)
    ensures PagoItemsTotal(PagoItems(items)) == ItemsTotal(items)
  {
    if items != [] {
      assert PagoItems(items)[1..] == PagoItems(items[1..]);
      PagoItemsKeepTotal(items[1..]);
    }
  }

  /** `pedidos.flatMap(p => p.items)`. */
  function BillItems(pedidos: seq<Pedido>): seq<PedidoItem>
  {
    if pedidos == [] then [] else pedidos[0].items + BillItems(pedidos[1..])
  }

  /** The bill of a set of orders: price times quantity over all their
      lines. */
  function BillTotal(pedidos: seq<Pedido>): int
  {
    ItemsTotal(BillItems(pedidos))
  }

  /** Billing the lines of all orders at once is billing each order and
      adding up (`calcularTotalMesa`), and the bill has one line per order
      line. */
  lemma {:induction false} BillTotalIsSumOfOrders(pedidos: seq<Pedido>)
    ensures BillTotal(pedidos) == SumBy(pedidos, PedidoTotal)
    ensures |BillItems(pedidos)| == SumBy(pedidos, LineCount)
  {
    if pedidos != [] {
      SumByAppend(pedidos[0].items, BillItems(pedidos[1..]), LineTotal);
      BillTotalIsSumOfOrders(pedidos[1..]);
    }
  }

  /** What a payment form's submit does: refuse an insufficient amount,
      fail because there is no order to take the id from, or submit the
      request to `registrarPago`. */
  datatype PaymentDecision = Insufficient | NoOrders | Submit(input: PagoInput)

  /** The admin page's payment of a whole table (`ModalPago` there): the
      bill covers every line of every order given; only a cash payment is
      checked against the total, a card or transfer payment is recorded as
      paying the exact total; the request takes its order id from the first
      order, so no orders means the submit fails. */
  function TablePaymentRequest(pedidos: seq<Pedido>, mesa: string, metodo: MetodoPago,
                               field: AmountField, email: Option<string>): (d: PaymentDecision)
    ensures d.Insufficient? <==> metodo == Efectivo && !Sufficient(field, BillTotal(pedidos))
    ensures d.NoOrders? <==> pedidos == [] && !d.Insufficient?
    ensures d.Submit? ==>
      var i := d.input;
      pedidos != [] && i.total == BillTotal(pedidos) && i.mesa == mesa && i.metodoPago == metodo &&
      i.pedidoId == PedidoKey(pedidos[0]) && i.cajero == CajeroOf(email) &&
      i.items == PagoItems(BillItems(pedidos)) && i.pagadoCon >= i.total &&
      (metodo == Efectivo ==> Tendered(field) == Some(i.pagadoCon)) &&
      (metodo != Efectivo ==> i.pagadoCon == i.total)
  {
    var total := BillTotal(pedidos);
    if metodo == Efectivo && !Sufficient(field, total) then Insufficient
    else if pedidos == [] then NoOrders
    else
      var monto := if metodo == Efectivo then Tendered(field).value else total;
      Submit(PagoInput(PedidoKey(pedidos[0]), mesa, total, monto, metodo, CajeroOf(email),
                       PagoItems(BillItems(pedidos))))
  }

  /** A card or transfer payment of a table with orders is always submitted,
      with no change; a cash payment that is submitted gets back exactly the
      change shown; and the lines stored add up to the amount billed. */
  lemma TablePaymentSettles(pedidos: seq<Pedido>, mesa: string, metodo: MetodoPago,
                            field: AmountField, email: Option<string>)
    requires BillTotal(pedidos) >= 0
    ensures var d := TablePaymentRequest(pedidos, mesa, metodo, field, email);
      (metodo != Efectivo && pedidos != [] ==> d.Submit? && PagosStore.Vuelto(d.input.total, d.input.pagadoCon) == 0) &&
      (metodo == Efectivo && d.Submit? ==>
         ShownVuelto(field, d.input.total) == Some(PagosStore.Vuelto(d.input.total, d.input.pagadoCon))) &&
      (d.Submit? ==> PagoItemsTotal(d.input.items) == d.input.total)
  {
    var d := TablePaymentRequest(pedidos, mesa, metodo, field, email);
    if d.Submit? {
      PagoItemsKeepTotal(BillItems(pedidos));
      if metodo == Efectivo {
        ShownVueltoIsRecorded(field, d.input.total);
      }
    }
  }

  /** On the admin page the button and the submit handler agree: an
      enabled button is never refused as insufficient, and with something
      typed in the field the button is enabled exactly when the handler
      does not refuse. A blank cash field keeps the button disabled even
      for a bill of 0, which the handler alone would accept. */
  lemma SubmitEnabledMatchesRefusal(pedidos: seq<Pedido>, mesa: string, metodo: MetodoPago,
                                    field: AmountField, email: Option<string>)
    ensures var d := TablePaymentRequest(pedidos, mesa, metodo, field, email);
      (SubmitEnabled(metodo, field, BillTotal(pedidos)) ==> !d.Insufficient?) &&
      (!field.Blank? ==> (SubmitEnabled(metodo, field, BillTotal(pedidos)) <==> !d.Insufficient?)) &&
      (metodo == Efectivo && field.Blank? ==>
         !SubmitEnabled(metodo, field, BillTotal(pedidos)) && (d.Insufficient? <==> BillTotal(pedidos) > 0))
  {
  }
}
