/** The kitchen card of one order line (`PedidoItemCard`): the single button
    it shows for the line's status and what a click on it requests. */
module PedidoItemCard {
  import opened Seqs
  import opened Ledger

  /** The button offered: the status it requests and whether the click asks
      for a confirmation first. */
  datatype Button = Button(target: Estado, confirmFirst: bool)

  /** `pendiente` offers "Iniciar Preparación", `preparando` offers "Marcar
      como Listo", `listo` offers "Pedido Entregado" behind a `confirm`, and a
      delivered line offers nothing. */
  function OfferedButton(e: Estado): (b: Option<Button>)
    ensures b.None? <==> e == Entregado
    ensures b.Some? ==> Successor(e) == Some(b.value.target)
    ensures b.Some? ==> (b.value.confirmFirst <==> e == Listo)
  {
    match e
    case Pendiente => Some(Button(Preparando, false))
    case Preparando => Some(Button(Listo, false))
    case Listo => Some(Button(Entregado, true))
    case Entregado => None
  }

  /** The status `onUpdateStatus` is called with when the line's button is
      clicked and the confirmation dialog is answered with `confirmed`;
      `None` when no call is made. The card only ever moves a line one step
      forward, and withholds the step exactly when the line is delivered or
      the delivery is not confirmed. */
  function ClickRequest(e: Estado, confirmed: bool): (r: Option<Estado>)
    ensures r.Some? ==> Successor(e) == r && Rank(r.value) == Rank(e) + 1
    ensures r.None? <==> e == Entregado || (e == Listo && !confirmed)
  {
    match OfferedButton(e)
    case None => None
    case Some(b) => if b.confirmFirst && !confirmed then None else Some(b.target)
  }
}
