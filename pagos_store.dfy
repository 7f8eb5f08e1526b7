/** The payment store (`usePagosStore`): the local list of payments, the
    recording of a payment (which also deletes the paid table's orders) and
    the sales totals. */
module PagosStore {
  import opened Seqs
  import opened Ledger
  import Sorting

  /** The change stored with a payment: what was tendered above the total,
      never negative. */
  function Vuelto(total: int, pagadoCon: int): (v: int)
    ensures v >= 0
    ensures pagadoCon >= total ==> total + v == pagadoCon
    ensures pagadoCon < total ==> v == 0
  {
    var d := pagadoCon - total;
    if d >= 0 then d else 0
  }

  /** The document `registrarPago` writes: the caller's fields untouched, plus
      the change and the time. */
  function NuevoPago(input: PagoInput, docId: string, now: int): (d: PagoDoc)
    ensures d.input == input && d.vuelto == Vuelto(input.total, input.pagadoCon) && d.timestamp == now
  {
    PagoDoc(docId, input, Vuelto(input.total, input.pagadoCon), now)
  }

  /** A payment as `fetchPagos` reads it back from its document. */
  function LoadPago(d: PagoDoc): (p: Pago)
    ensures p.id == d.docId && p.firebaseId == Some(d.docId)
  {
    Pago(d.docId, Some(d.docId), d.input.pedidoId, d.input.mesa, d.input.total, d.input.pagadoCon,
         d.vuelto, d.input.metodoPago, d.input.cajero, d.timestamp, d.input.items)
  }

  /** A recorded payment reads back with every field the caller gave, the
      non-negative change and the recording time. */
  lemma RecordedPagoReadsBack(input: PagoInput, docId: string, now: int)
    ensures var p := LoadPago(NuevoPago(input, docId, now));
      p.pedidoId == input.pedidoId && p.mesa == input.mesa && p.total == input.total &&
      p.pagadoCon == input.pagadoCon && p.metodoPago == input.metodoPago &&
      p.cajero == input.cajero && p.items == input.items &&
      p.timestamp == now && p.vuelto >= 0 &&
      (input.pagadoCon >= input.total ==> p.vuelto == input.pagadoCon - input.total)
  {
  }

  /** `query(pagos, orderBy("timestamp", "desc"))`, each document loaded:
      the documents' payments, reordered newest first. Loading keeps the
      timestamp, so ordering the loaded payments orders the documents. */
  function LoadPagos(docs: seq<PagoDoc>): (r: seq<Pago>)
    ensures |r| == |docs|
    ensures multiset(r) == multiset(Map(docs, LoadPago))
    ensures forall i, j :: 0 <= i < j < |r| ==> r[i].timestamp >= r[j].timestamp
  {
    Sorting.SortByDescending(Map(docs, LoadPago), (p: Pago) => p.timestamp)
  }

  /** `d => d.mesa !== mesa`. */
  function NotAtMesa(mesa: string): PedidoDoc -> bool
  {
    (d: PedidoDoc) => d.mesa != mesa
  }

  /** `p => p.timestamp >= desde`. */
  function Since(desde: int): Pago -> bool
  {
    (p: Pago) => p.timestamp >= desde
  }

  /** The orders left after the paid table's orders are deleted. */
  function RemoveMesa(docs: seq<PedidoDoc>, mesa: string): (r: seq<PedidoDoc>)
    ensures forall k :: 0 <= k < |r| ==> r[k].mesa != mesa && r[k] in docs
    ensures forall k :: 0 <= k < |docs| && docs[k].mesa != mesa ==> docs[k] in r
  {
    Filter(docs, NotAtMesa(mesa))
  }

  /** The orders left after the deletes keep their stored order. */
  lemma RemoveMesaKeepsOrder(docs: seq<PedidoDoc>, mesa: string)
    ensures exists idx :: OrderedEmbedding(idx, RemoveMesa(docs, mesa), docs) &&
                          forall i :: 0 <= i < |docs| ==> (docs[i].mesa != mesa <==> i in idx)
  {
    FilterEmbeds(docs, NotAtMesa(mesa));
    assert RemoveMesa(docs, mesa) == Filter(docs, NotAtMesa(mesa));
  }

  /** `p => p.mesa === mesa`. */
  function PagoAtMesa(mesa: string): Pago -> bool
  {
    (p: Pago) => p.mesa == mesa
  }

  /** `getPagosByMesa`: the payments of the table, in stored order. */
  function PagosByMesa(pagos: seq<Pago>, mesa: string): (r: seq<Pago>)
    ensures forall k :: 0 <= k < |r| ==> r[k].mesa == mesa && r[k] in pagos
    ensures forall k :: 0 <= k < |pagos| && pagos[k].mesa == mesa ==> pagos[k] in r
    ensures exists idx :: OrderedEmbedding(idx, r, pagos) &&
                          forall i :: 0 <= i < |pagos| ==> (pagos[i].mesa == mesa <==> i in idx)
  {
    FilterEmbeds(pagos, PagoAtMesa(mesa));
    Filter(pagos, PagoAtMesa(mesa))
  }

  /** The payments recorded at or after `desde`. */
  function PagosDesde(pagos: seq<Pago>, desde: int): seq<Pago>
  {
    Filter(pagos, Since(desde))
  }

  /** Sum of `total` over the payments at or after `desde`: the day's sales
      with the start of today, the month's with the first of the month. */
  function TotalVentasDesde(pagos: seq<Pago>, desde: int): int
  {
    SumBy(PagosDesde(pagos, desde), PagoTotal)
  }

  /** The window of a day lies inside the window of its month, so with
      non-negative totals the month's sales are at least the day's. */
  lemma MonthCoversDay(pagos: seq<Pago>, inicioMes: int, inicioDia: int)
    requires inicioMes <= inicioDia
    requires forall p :: p in pagos ==> p.total >= 0
    ensures TotalVentasDesde(pagos, inicioDia) <= TotalVentasDesde(pagos, inicioMes)
  {
    SumByFilterMonotone(pagos, PagoTotal, Since(inicioMes), Since(inicioDia));
  }

  /** One more payment adds its total to a window it falls in and nothing
      to a window it does not. */
  lemma {:induction false} TotalVentasAppend(pagos: seq<Pago>, p: Pago, desde: int)
    ensures TotalVentasDesde(pagos + [p], desde) ==
      TotalVentasDesde(pagos, desde) + (if p.timestamp >= desde then p.total else 0)
  {
    FilterAppend(pagos, [p], Since(desde));
    SumByAppend(PagosDesde(pagos, desde), PagosDesde([p], desde), PagoTotal);
  }

  /** The query `where("mesa", "==", mesa)` followed by one `deleteDoc` per
      match, as the loop over the query's documents performs them. */
  method DeletePedidosOfMesa(docs: seq<PedidoDoc>, mesa: string) returns (remaining: seq<PedidoDoc>)
    ensures remaining == RemoveMesa(docs, mesa)
    ensures forall k :: 0 <= k < |remaining| ==> remaining[k].mesa != mesa
  {
    remaining := [];
    var i := 0;
    while i < |docs|
      invariant 0 <= i <= |docs|
      invariant remaining == RemoveMesa(docs[..i], mesa)
    {
      var d := docs[i];
      FilterAppend(docs[..i], [d], NotAtMesa(mesa));
      assert docs[..i + 1] == docs[..i] + [d];
      if d.mesa != mesa {
        remaining := remaining + [d];
      }
      i := i + 1;
    }
    assert docs[..i] == docs;
  }

  /** Where `registrarPago` can fail: before anything is written, or after
      the payment is written but while the table's orders are looked up. */
  datatype PagoFault = NoFault | SaveFails(reason: string) | CleanupFails(reason: string)

  class Store {
    var pagos: seq<Pago>
    var isLoading: bool
    var error: Option<string>

    constructor ()
      ensures pagos == [] && !isLoading && error.None?
    {
      pagos, isLoading, error := [], false, None;
    }

    /** `fetchPagos`: the payment documents, newest first. */
    method FetchPagos(db: Database, fault: Option<string>)
      modifies this
      ensures fault.None? ==> pagos == LoadPagos(db.pagos) && error.None?
      ensures fault.Some? ==> pagos == old(pagos) && error == fault
      ensures !isLoading
    {
      isLoading, error := true, None;
      if fault.Some? {
        error, isLoading := fault, false;
        return;
      }
      pagos, isLoading := LoadPagos(db.pagos), false;
    }

    /** `registrarPago`: writes the payment with its change, deletes every
        order of the paid table, then reloads the local list (`refreshFault`
        is the fault of that reload, which the source does not await). On a
        failure the error is recorded and rethrown. */
    method RegistrarPago(input: PagoInput, db: Database, newDocId: string, now: int,
                         fault: PagoFault, refreshFault: Option<string>) returns (r: Result<string>)
      modifies this, db
      ensures fault.NoFault? ==>
        r == Ok(newDocId) &&
        db.pagos == old(db.pagos) + [NuevoPago(input, newDocId, now)] &&
        db.pedidos == RemoveMesa(old(db.pedidos), input.mesa) &&
        (refreshFault.None? ==> pagos == LoadPagos(db.pagos) && error.None?) &&
        (refreshFault.Some? ==> pagos == old(pagos) && error == refreshFault)
      ensures fault.SaveFails? ==>
        r == Err(fault.reason) && db.pagos == old(db.pagos) && db.pedidos == old(db.pedidos) &&
        pagos == old(pagos) && error == Some(fault.reason)
      ensures fault.CleanupFails? ==>
        r == Err(fault.reason) && db.pagos == old(db.pagos) + [NuevoPago(input, newDocId, now)] &&
        db.pedidos == old(db.pedidos) && pagos == old(pagos) && error == Some(fault.reason)
      ensures !isLoading && db.sesiones == old(db.sesiones)
    {
      isLoading, error := true, None;
      if fault.SaveFails? {
        error, isLoading := Some(fault.reason), false;
        return Err(fault.reason);
      }
      var nuevo := NuevoPago(input, newDocId, now);
      db.pagos := db.pagos + [nuevo];
      if fault.CleanupFails? {
        error, isLoading := Some(fault.reason), false;
        return Err(fault.reason);
      }
      var remaining := DeletePedidosOfMesa(db.pedidos, input.mesa);
      db.pedidos := remaining;
      isLoading := false;
      FetchPagos(db, refreshFault);
      r := Ok(newDocId);
    }

    function GetPagosByMesa(mesa: string): seq<Pago>
      reads this
    {
      PagosByMesa(pagos, mesa)
    }

    /** `getTotalVentasDia`, with the start of today as a parameter. */
    function GetTotalVentasDia(inicioDia: int): int
      reads this
    {
      TotalVentasDesde(pagos, inicioDia)
    }

    /** `getTotalVentasMes`, with the first of the month as a parameter. */
    function GetTotalVentasMes(inicioMes: int): int
      reads this
    {
      TotalVentasDesde(pagos, inicioMes)
    }
  }
}
