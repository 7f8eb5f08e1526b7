/** The admin dashboard (`app/dashboard/admin/page.tsx`): the summary tiles,
    the active-table cards, collecting a table's payment, the payment
    history search and closing the till. */
module AdminPage {
  import opened Seqs
  import opened Text
  import opened Ledger
  import Sorting
  import Grouping
  import PagosStore
  import SesionesStore
  import opened PaymentForm

  /** The "Cobrar" flow: the modal is given the table's orders
      (`pedidos.filter(p => p.mesa === mesaACobrar)`), decides, and on a
      submit records the payment, which also deletes the table's orders. A
      refused submit or a failed save records nothing; when the save succeeds
      but the clean-up fails, the payment stays stored and the table's orders
      stay too. */
  method CobrarMesa(store: PagosStore.Store, pedidos: seq<Pedido>, mesa: string, metodo: MetodoPago,
                    field: AmountField, email: Option<string>, db: Database, newDocId: string, now: int,
                    fault: PagosStore.PagoFault, refreshFault: Option<string>) returns (d: PaymentDecision)
    modifies store, db
    ensures d == TablePaymentRequest(Filter(pedidos, AtMesa(mesa)), mesa, metodo, field, email)
    ensures !d.Submit? ==> db.pagos == old(db.pagos) && db.pedidos == old(db.pedidos) && store.pagos == old(store.pagos)
    ensures d.Submit? && fault.NoFault? ==>
      db.pagos == old(db.pagos) + [PagosStore.NuevoPago(d.input, newDocId, now)] &&
      db.pedidos == PagosStore.RemoveMesa(old(db.pedidos), mesa)
    ensures d.Submit? && fault.SaveFails? ==>
      db.pagos == old(db.pagos) && db.pedidos == old(db.pedidos) &&
      store.pagos == old(store.pagos) && store.error == Some(fault.reason)
    ensures d.Submit? && fault.CleanupFails? ==>
      db.pagos == old(db.pagos) + [PagosStore.NuevoPago(d.input, newDocId, now)] &&
      db.pedidos == old(db.pedidos) && store.pagos == old(store.pagos) && store.error == Some(fault.reason)
    ensures db.sesiones == old(db.sesiones)
  {
    d := TablePaymentRequest(Filter(pedidos, AtMesa(mesa)), mesa, metodo, field, email);
    if d.Submit? {
      var r := store.RegistrarPago(d.input, db, newDocId, now, fault, refreshFault);
    }
  }

  /** The `mesasMap` loop: `mesasMap.set(pedido.mesa, [...existing, pedido])`
      for each order in turn. */
  method GroupByMesa(pedidos: seq<Pedido>) returns (groups: seq<(string, seq<Pedido>)>)
    ensures groups == Grouping.GroupBy(pedidos, MesaOf, Grouping.Same)
  {
    groups := [];
    var i := 0;
    while i < |pedidos|
      invariant 0 <= i <= |pedidos|
      invariant groups == Grouping.GroupBy(pedidos[..i], MesaOf, Grouping.Same)
    {
      assert pedidos[..i + 1][..i] == pedidos[..i];
      groups := Grouping.Place(groups, pedidos[i].mesa, pedidos[i]);
      i := i + 1;
    }
    assert pedidos[..|pedidos|] == pedidos;
  }

  /** The four tiles of `ResumenGeneral`. */
  datatype Resumen = Resumen(mesasActivas: int, totalItems: int, ventaPendiente: int,
                             ventasDia: int, transaccionesHoy: int)

  /** `ResumenGeneral`, with the start of today as a parameter: the number
      of tables with orders, the number of order lines, the bill of all
      open orders, today's sales and today's payment count. */
  method ResumenGeneral(pedidos: seq<Pedido>, pagos: seq<Pago>, inicioDia: int) returns (r: Resumen)
    ensures r.totalItems == |BillItems(pedidos)|
    ensures r.ventaPendiente == BillTotal(pedidos)
    ensures r.mesasActivas == |Grouping.KeysOf(pedidos, MesaOf)|
    ensures r.mesasActivas <= |pedidos| && (pedidos != [] ==> r.mesasActivas >= 1)
    ensures r.ventasDia == PagosStore.TotalVentasDesde(pagos, inicioDia)
    ensures r.transaccionesHoy == |PagosStore.PagosDesde(pagos, inicioDia)| <= |pagos|
  {
    var groups := GroupByMesa(pedidos);
    Grouping.GroupByBuckets(pedidos, MesaOf, Grouping.Same);
    Grouping.GroupByCount(pedidos, MesaOf, Grouping.Same);
    Grouping.GroupsAtMostSizes(groups);
    if pedidos != [] {
      Grouping.GroupByKeys(pedidos, MesaOf, Grouping.Same);
    }
    Grouping.GroupCountIsKeyCount(pedidos, MesaOf, Grouping.Same);
    BillTotalIsSumOfOrders(pedidos);
    r := Resumen(|groups|, SumBy(pedidos, LineCount), SumBy(pedidos, PedidoTotal),
                 PagosStore.TotalVentasDesde(pagos, inicioDia), |PagosStore.PagosDesde(pagos, inicioDia)|);
  }

  /** Number of lines in `estado`. */
  function EstadoCount(items: seq<PedidoItem>, e: Estado): int
  {
    if items == [] then 0 else (if items[0].estado == e then 1 else 0) + EstadoCount(items[1..], e)
  }

  /** Lines in `estado` over a table's orders. */
  function CountEstado(pedidos: seq<Pedido>, e: Estado): int
  {
    if pedidos == [] then 0 else EstadoCount(pedidos[0].items, e) + CountEstado(pedidos[1..], e)
  }

  /** `i => i.estado === e`. */
  function HasEstado(e: Estado): PedidoItem -> bool
  {
    (i: PedidoItem) => i.estado == e
  }

  /** The count is the number of lines the source's `filter` keeps. */
  lemma {:induction false} EstadoCountIsFilter(items: seq<PedidoItem>, e: Estado)
    ensures EstadoCount(items, e) == |Filter(items, HasEstado(e))|
  {
    if items != [] {
      EstadoCountIsFilter(items[1..], e);
    }
  }

  /** Over a table's orders, the count is the number of the bill's lines
      in `estado`. */
  lemma {:induction false} CountEstadoIsFilter(pedidos: seq<Pedido>, e: Estado)
    ensures CountEstado(pedidos, e) == |Filter(BillItems(pedidos), HasEstado(e))|
  {
    if pedidos != [] {
      EstadoCountIsFilter(pedidos[0].items, e);
      CountEstadoIsFilter(pedidos[1..], e);
      FilterAppend(pedidos[0].items, BillItems(pedidos[1..]), HasEstado(e));
    }
  }

  lemma {:induction false} EstadoCountsCover(items: seq<PedidoItem>)
    ensures EstadoCount(items, Pendiente) + EstadoCount(items, Preparando) +
            EstadoCount(items, Listo) + EstadoCount(items, Entregado) == |items|
  {
    if items != [] {
      EstadoCountsCover(items[1..]);
    }
  }

  lemma {:induction false} CountEstadosCover(pedidos: seq<Pedido>)
    ensures CountEstado(pedidos, Pendiente) + CountEstado(pedidos, Preparando) +
            CountEstado(pedidos, Listo) + CountEstado(pedidos, Entregado) == SumBy(pedidos, LineCount)
  {
    if pedidos != [] {
      EstadoCountsCover(pedidos[0].items);
      CountEstadosCover(pedidos[1..]);
    }
  }

  /** One card of `MesasActivas`. */
  datatype MesaSummary = MesaSummary(mesa: string, pedidos: seq<Pedido>, totalPedidos: int,
                                     totalItems: int, totalVenta: int, itemsPendientes: int,
                                     itemsPreparando: int, itemsListos: int, itemsEntregados: int)

  /** The card of one table: each status count is the number of the bill's
      lines in that status, the four split its lines, and its total is the
      table's bill. */
  function Summarize(g: (string, seq<Pedido>)): (m: MesaSummary)
    ensures m.mesa == g.0 && m.pedidos == g.1 && m.totalPedidos == |g.1|
    ensures m.totalItems == |BillItems(g.1)| && m.totalVenta == BillTotal(g.1)
    ensures m.itemsPendientes == |Filter(BillItems(g.1), HasEstado(Pendiente))|
    ensures m.itemsPreparando == |Filter(BillItems(g.1), HasEstado(Preparando))|
    ensures m.itemsListos == |Filter(BillItems(g.1), HasEstado(Listo))|
    ensures m.itemsEntregados == |Filter(BillItems(g.1), HasEstado(Entregado))|
    ensures m.itemsPendientes + m.itemsPreparando + m.itemsListos + m.itemsEntregados == m.totalItems
  {
    BillTotalIsSumOfOrders(g.1);
    CountEstadosCover(g.1);
    CountEstadoIsFilter(g.1, Pendiente);
    CountEstadoIsFilter(g.1, Preparando);
    CountEstadoIsFilter(g.1, Listo);
    CountEstadoIsFilter(g.1, Entregado);
    MesaSummary(g.0, g.1, |g.1|, SumBy(g.1, LineCount), SumBy(g.1, PedidoTotal),
                CountEstado(g.1, Pendiente), CountEstado(g.1, Preparando),
                CountEstado(g.1, Listo), CountEstado(g.1, Entregado))
  }

  function Summaries(groups: seq<(string, seq<Pedido>)>): (r: seq<MesaSummary>)
    ensures |r| == |groups|
    ensures forall k :: 0 <= k < |r| ==> r[k] == Summarize(groups[k])
  {
    if groups == [] then [] else [Summarize(groups[0])] + Summaries(groups[1..])
  }

  function TotalVentaOf(m: MesaSummary): int
  {
    m.totalVenta
  }

  function TotalPedidosOf(m: MesaSummary): int
  {
    m.totalPedidos
  }

  lemma {:induction false} SummariesAddUp(groups: seq<(string, seq<Pedido>)>)
    ensures SumBy(Summaries(groups), TotalVentaOf) == Grouping.GroupTotal(groups, PedidoTotal)
    ensures SumBy(Summaries(groups), TotalPedidosOf) == Grouping.GroupSizes(groups)
  {
    if groups != [] {
      BillTotalIsSumOfOrders(groups[0].1);
      SummariesAddUp(groups[1..]);
    }
  }

  /** The sort key `Number(mesa)`; a table name that is not a number sorts
      as 0. */
  function TableKey(m: MesaSummary): int
  {
    match TableNumber(m.mesa)
    case Some(n) => n
    case None => 0
  }

  /** `MesasActivas`: one card per table, ordered by table number. Each
      card holds exactly its table's orders in arrival order, every order's
      table has a card, the cards' totals add up to the bill of all open
      orders and their order counts to the number of orders. */
  method MesasActivas(pedidos: seq<Pedido>) returns (mesas: seq<MesaSummary>)
    ensures forall k :: 0 <= k < |mesas| ==>
      mesas[k].pedidos == Grouping.Bucket(pedidos, MesaOf, Grouping.Same, mesas[k].mesa) && mesas[k].pedidos != []
    ensures forall i :: 0 <= i < |pedidos| ==> exists k :: 0 <= k < |mesas| && mesas[k].mesa == pedidos[i].mesa
    ensures SumBy(mesas, TotalVentaOf) == BillTotal(pedidos)
    ensures SumBy(mesas, TotalPedidosOf) == |pedidos|
    ensures forall i, j :: 0 <= i < j < |mesas| ==> TableKey(mesas[i]) <= TableKey(mesas[j])
    ensures forall i, j :: 0 <= i < j < |mesas| ==> mesas[i].mesa != mesas[j].mesa
    ensures forall k :: 0 <= k < |mesas| ==> mesas[k] == Summarize((mesas[k].mesa, mesas[k].pedidos))
    ensures |mesas| == |Grouping.KeysOf(pedidos, MesaOf)|
  {
    var groups := GroupByMesa(pedidos);
    var summaries := Summaries(groups);
    mesas := Sorting.SortBy(summaries, TableKey);
    Grouping.GroupByKeys(pedidos, MesaOf, Grouping.Same);
    Grouping.GroupByCount(pedidos, MesaOf, Grouping.Same);
    Grouping.GroupByTotal(pedidos, MesaOf, Grouping.Same, PedidoTotal);
    Grouping.SumMappedSame(pedidos, PedidoTotal);
    BillTotalIsSumOfOrders(pedidos);
    SummariesAddUp(groups);
    SumByPermutation(mesas, summaries, TotalVentaOf);
    SumByPermutation(mesas, summaries, TotalPedidosOf);
    assert Sorting.SortedBy(mesas, TableKey);
    CardsMatchTables(mesas, groups, pedidos);
    ReorderKeepsTablesDistinct(mesas, summaries);
    CardsAreSummaries(mesas, groups);
    Grouping.GroupCountIsKeyCount(pedidos, MesaOf, Grouping.Same);
    assert |mesas| == |multiset(mesas)| == |multiset(summaries)| == |groups|;
  }

  /** Reordered cards of the tables' groups: each holds exactly its table's
      orders and is not empty, and every order's table has a card. */
  lemma CardsMatchTables(mesas: seq<MesaSummary>, groups: seq<(string, seq<Pedido>)>, pedidos: seq<Pedido>)
    requires groups == Grouping.GroupBy(pedidos, MesaOf, Grouping.Same)
    requires multiset(mesas) == multiset(Summaries(groups))
    ensures forall k :: 0 <= k < |mesas| ==>
      mesas[k].pedidos == Grouping.Bucket(pedidos, MesaOf, Grouping.Same, mesas[k].mesa) && mesas[k].pedidos != []
    ensures forall i :: 0 <= i < |pedidos| ==> exists k :: 0 <= k < |mesas| && mesas[k].mesa == pedidos[i].mesa
  {
    var summaries := Summaries(groups);
    Grouping.GroupByKeys(pedidos, MesaOf, Grouping.Same);
    Grouping.GroupByBuckets(pedidos, MesaOf, Grouping.Same);
    forall k | 0 <= k < |mesas|
      ensures mesas[k].pedidos == Grouping.Bucket(pedidos, MesaOf, Grouping.Same, mesas[k].mesa) && mesas[k].pedidos != []
    {
      assert mesas[k] in multiset(summaries);
      var j :| 0 <= j < |summaries| && summaries[j] == mesas[k];
    }
    forall i | 0 <= i < |pedidos|
      ensures exists k :: 0 <= k < |mesas| && mesas[k].mesa == pedidos[i].mesa
    {
      var j :| 0 <= j < |groups| && groups[j].0 == MesaOf(pedidos[i]);
      assert summaries[j] in multiset(mesas);
      var k :| 0 <= k < |mesas| && mesas[k] == summaries[j];
    }
  }

  /** Reordered summaries of groups are each the summary of their own table
      and orders. */
  lemma CardsAreSummaries(mesas: seq<MesaSummary>, groups: seq<(string, seq<Pedido>)>)
    requires multiset(mesas) == multiset(Summaries(groups))
    ensures forall k :: 0 <= k < |mesas| ==> mesas[k] == Summarize((mesas[k].mesa, mesas[k].pedidos))
  {
    var summaries := Summaries(groups);
    forall k | 0 <= k < |mesas|
      ensures mesas[k] == Summarize((mesas[k].mesa, mesas[k].pedidos))
    {
      assert mesas[k] in multiset(summaries);
      var j :| 0 <= j < |summaries| && summaries[j] == mesas[k];
      assert groups[j] == (mesas[k].mesa, mesas[k].pedidos);
    }
  }

  /** Reordering cards whose tables are pairwise different keeps them so. */
  lemma ReorderKeepsTablesDistinct(mesas: seq<MesaSummary>, summaries: seq<MesaSummary>)
    requires multiset(mesas) == multiset(summaries)
    requires forall i, j :: 0 <= i < j < |summaries| ==> summaries[i].mesa != summaries[j].mesa
    ensures forall i, j :: 0 <= i < j < |mesas| ==> mesas[i].mesa != mesas[j].mesa
  {
    assert Distinct(summaries);
    forall i, j | 0 <= i < j < |mesas|
      ensures mesas[i].mesa != mesas[j].mesa
    {
      if mesas[i].mesa == mesas[j].mesa {
        assert mesas[i] in multiset(summaries) && mesas[j] in multiset(summaries);
        var a :| 0 <= a < |summaries| && summaries[a] == mesas[i];
        var b :| 0 <= b < |summaries| && summaries[b] == mesas[j];
        assert a == b;
        OccursTwice(mesas, i, j);
        DistinctOccursOnce(summaries, mesas[i]);
        assert false;
      }
    }
  }

  /** Every table is a number: the cards are in ascending table number. */
  lemma NumericTablesAscend(mesas: seq<MesaSummary>)
    requires forall i, j :: 0 <= i < j < |mesas| ==> TableKey(mesas[i]) <= TableKey(mesas[j])
    requires forall k :: 0 <= k < |mesas| ==> TableNumber(mesas[k].mesa).Some?
    ensures forall i, j :: 0 <= i < j < |mesas| ==>
      TableNumber(mesas[i].mesa).value <= TableNumber(mesas[j].mesa).value
  {
  }

  /** The payment history search: the query, lower-cased, occurs in the
      lower-cased table, cashier or method. */
  predicate Matches(p: Pago, busqueda: string)
  {
    var q := ToLower(busqueda);
    Includes(ToLower(p.mesa), q) || Includes(ToLower(p.cajero), q) ||
    Includes(ToLower(MetodoName(p.metodoPago)), q)
  }

  function MatchesQuery(busqueda: string): Pago -> bool
  {
    (p: Pago) => Matches(p, busqueda)
  }

  function PagoTimestamp(p: Pago): int
  {
    p.timestamp
  }

  /** `HistorialPagos`: the matching payments, newest first. */
  function Historial(pagos: seq<Pago>, busqueda: string): (r: seq<Pago>)
    ensures multiset(r) == multiset(Filter(pagos, MatchesQuery(busqueda)))
    ensures forall k :: 0 <= k < |r| ==> r[k] in pagos && Matches(r[k], busqueda)
    ensures forall k :: 0 <= k < |pagos| && Matches(pagos[k], busqueda) ==> pagos[k] in r
    ensures forall i, j :: 0 <= i < j < |r| ==> r[i].timestamp >= r[j].timestamp
  {
    var shown := Filter(pagos, MatchesQuery(busqueda));
    var r := Sorting.SortByDescending(shown, PagoTimestamp);
    Sorting.SameMembers(r, shown);
    r
  }

  /** An empty search shows every payment. */
  lemma EmptySearchShowsAll(pagos: seq<Pago>)
    ensures multiset(Historial(pagos, "")) == multiset(pagos)
  {
    forall k | 0 <= k < |pagos|
      ensures MatchesQuery("")(pagos[k])
    {
      IncludesEmpty(ToLower(pagos[k].mesa));
    }
    FilterAll(pagos, MatchesQuery(""));
  }

  /** The search ignores the case of the query. */
  lemma SearchIgnoresCase(p: Pago, busqueda: string)
    ensures Matches(p, busqueda) == Matches(p, ToLower(busqueda))
  {
    ToLowerIdempotent(busqueda);
  }

  /** What the "Cerrar Caja" confirmation does. */
  datatype CloseDecision = NoUser | NoTransactions | Cancelled | Close(cajero: string)

  /** `handleCerrarCaja`'s guards in order: a signed-in user, at least one
      payment, then the confirmation dialog. */
  function CloseTillDecision(email: Option<string>, pagos: seq<Pago>, confirmed: bool): (d: CloseDecision)
    ensures d.Close? <==> email.Some? && pagos != [] && confirmed
    ensures d.Close? ==> d.cajero == email.value
    ensures d.NoUser? <==> email.None?
    ensures d.NoTransactions? <==> email.Some? && pagos == []
  {
    if email.None? then NoUser
    else if |pagos| == 0 then NoTransactions
    else if !confirmed then Cancelled
    else Close(email.value)
  }

  /** `ModalCerrarCaja`: only a confirmed close by a signed-in user with
      payments touches the database; it records the session of these
      payments under the user and empties the order and payment
      collections. A failed session write changes nothing; a failed purge
      leaves the session stored with the orders and payments still there. */
  method CerrarCaja(sesiones: SesionesStore.Store, email: Option<string>, pagos: seq<Pago>, confirmed: bool,
                    db: Database, newDocId: string, now: int,
                    fault: SesionesStore.CloseFault, reloadFault: Option<string>) returns (d: CloseDecision)
    modifies sesiones, db
    ensures d == CloseTillDecision(email, pagos, confirmed)
    ensures !d.Close? ==> db.pedidos == old(db.pedidos) && db.pagos == old(db.pagos) && db.sesiones == old(db.sesiones)
    ensures d.Close? && fault.CloseOk? ==>
      db.pedidos == [] && db.pagos == [] &&
      db.sesiones == old(db.sesiones) + [SesionDoc(newDocId, SesionesStore.BuildSesion(pagos, email.value, now))]
    ensures d.Close? && fault.SessionSaveFails? ==>
      db.pedidos == old(db.pedidos) && db.pagos == old(db.pagos) && db.sesiones == old(db.sesiones) &&
      sesiones.sesiones == old(sesiones.sesiones)
    ensures d.Close? && fault.PurgeFails? ==>
      db.pedidos == old(db.pedidos) && db.pagos == old(db.pagos) &&
      db.sesiones == old(db.sesiones) + [SesionDoc(newDocId, SesionesStore.BuildSesion(pagos, email.value, now))] &&
      sesiones.sesiones == old(sesiones.sesiones)
  {
    d := CloseTillDecision(email, pagos, confirmed);
    if d.Close? {
      var r := sesiones.CerrarCaja(pagos, d.cajero, db, newDocId, now, fault, reloadFault);
    }
  }
}
