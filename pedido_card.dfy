/** The order card (`PedidoCard`): the order's total and the one-line
    summary of its lines' statuses. */
module PedidoCard {
  import opened Seqs
  import opened Ledger

  /** `items.every(i => i.estado === "entregado")`. */
  predicate AllEntregados(items: seq<PedidoItem>)
  {
    Every(items, (i: PedidoItem) => i.estado == Entregado)
  }

  /** Every line is `listo` or `entregado`. */
  predicate AllListos(items: seq<PedidoItem>)
  {
    Every(items, (i: PedidoItem) => i.estado == Listo || i.estado == Entregado)
  }

  /** `items.some(i => i.estado === "preparando")`. */
  predicate SomePreparando(items: seq<PedidoItem>)
  {
    Any(items, (i: PedidoItem) => i.estado == Preparando)
  }

  /** The four texts the card can show. */
  datatype Summary = CompletamenteEntregado | TodosListos | EnPreparacion | EsperandoPreparacion

  /** The summary, tested in the card's order: all delivered, then all
      ready, then some being prepared, else waiting. */
  function StatusSummary(items: seq<PedidoItem>): (m: Summary)
    ensures m == CompletamenteEntregado <==> forall k :: 0 <= k < |items| ==> items[k].estado == Entregado
    ensures m == TodosListos <==>
      (exists k :: 0 <= k < |items| && items[k].estado == Listo) &&
      forall k :: 0 <= k < |items| ==> items[k].estado in {Listo, Entregado}
    ensures m == EnPreparacion <==> exists k :: 0 <= k < |items| && items[k].estado == Preparando
    ensures m == EsperandoPreparacion <==>
      (exists k :: 0 <= k < |items| && items[k].estado == Pendiente) &&
      forall k :: 0 <= k < |items| ==> items[k].estado != Preparando
  {
    if AllEntregados(items) then CompletamenteEntregado
    else if AllListos(items) then
      assert exists k :: 0 <= k < |items| && items[k].estado != Entregado;
      TodosListos
    else if SomePreparando(items) then EnPreparacion
    else EsperandoPreparacion
  }

  /** An order with no lines reads as completely delivered. */
  lemma EmptyOrderReadsDelivered()
    ensures StatusSummary([]) == CompletamenteEntregado
  {
  }

  /** The total shown is the order's total, and it is not negative when no
      line has a negative price or quantity. */
  lemma {:induction false} CardTotalNonNegative(items: seq<PedidoItem>)
    requires forall k :: 0 <= k < |items| ==> items[k].price >= 0 && items[k].quantity >= 0
    ensures ItemsTotal(items) >= 0
  {
    if items != [] {
      CardTotalNonNegative(items[1..]);
    }
  }
}
