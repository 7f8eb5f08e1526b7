/** The till-session store (`useSesionesStore`): closing the till folds the
    payments into one closed session, writes it, and purges the active order
    and payment collections. */
module SesionesStore {
  import opened Seqs
  import opened Ledger
  import Sorting

  /** `totalVentas`: the sum of the payments' totals. */
  function TotalVentas(pagos: seq<Pago>): int
  {
    SumBy(pagos, PagoTotal)
  }

  /** Whether a payment was made with the method. */
  function PaidWith(m: MetodoPago): Pago -> bool
  {
    (p: Pago) => p.metodoPago == m
  }

  /** Sum of the totals paid with one method. */
  function TotalPorMetodo(pagos: seq<Pago>, m: MetodoPago): int
  {
    SumBy(Filter(pagos, PaidWith(m)), PagoTotal)
  }

  /** Every payment has one of the three methods, so the three per-method
      sums add up to the total sales. */
  lemma {:induction false} MethodsSplitTotal(pagos: seq<Pago>)
    ensures TotalPorMetodo(pagos, Efectivo) + TotalPorMetodo(pagos, Tarjeta) +
            TotalPorMetodo(pagos, Transferencia) == TotalVentas(pagos)
  {
    if pagos != [] {
      MethodsSplitTotal(pagos[1..]);
      MethodTotalStep(pagos, Efectivo);
      MethodTotalStep(pagos, Tarjeta);
      MethodTotalStep(pagos, Transferencia);
    }
  }

  /** One method's sum, peeling off the first payment. */
  lemma MethodTotalStep(pagos: seq<Pago>, m: MetodoPago)
    requires pagos != []
    ensures TotalPorMetodo(pagos, m) ==
            (if pagos[0].metodoPago == m then pagos[0].total else 0) + TotalPorMetodo(pagos[1..], m)
  {
  }

  /** With no negative payment, no method's sum is negative. */
  lemma MethodTotalNonNegative(pagos: seq<Pago>, m: MetodoPago)
    ensures (forall p :: p in pagos ==> p.total >= 0) ==> TotalPorMetodo(pagos, m) >= 0
  {
    if forall p :: p in pagos ==> p.total >= 0 {
      SumByNonNegative(Filter(pagos, PaidWith(m)), PagoTotal);
    }
  }

  /** `desglosePorMetodo`: one sum per method. The entries add up to the
      total sales and, with no negative payment, each lies between 0 and
      that total. */
  function DesglosePorMetodo(pagos: seq<Pago>): (d: Desglose)
    ensures d.efectivo + d.tarjeta + d.transferencia == TotalVentas(pagos)
    ensures (forall p :: p in pagos ==> p.total >= 0) ==>
      0 <= d.efectivo <= TotalVentas(pagos) && 0 <= d.tarjeta <= TotalVentas(pagos) &&
      0 <= d.transferencia <= TotalVentas(pagos)
  {
    MethodsSplitTotal(pagos);
    MethodTotalNonNegative(pagos, Efectivo);
    MethodTotalNonNegative(pagos, Tarjeta);
    MethodTotalNonNegative(pagos, Transferencia);
    Desglose(TotalPorMetodo(pagos, Efectivo), TotalPorMetodo(pagos, Tarjeta), TotalPorMetodo(pagos, Transferencia))
  }

  /** The `reduce` that keeps the earliest payment: `best` is the winner
      among the first `i` payments, and a later payment replaces it only
      when strictly earlier. */
  function EarliestIndex(pagos: seq<Pago>, best: nat, i: nat): (r: nat)
    requires best < i <= |pagos|
    requires forall j :: 0 <= j < i ==> pagos[j].timestamp >= pagos[best].timestamp
    requires forall j :: 0 <= j < best ==> pagos[j].timestamp > pagos[best].timestamp
    ensures r < |pagos|
    ensures forall j :: 0 <= j < |pagos| ==> pagos[j].timestamp >= pagos[r].timestamp
    ensures forall j :: 0 <= j < r ==> pagos[j].timestamp > pagos[r].timestamp
    decreases |pagos| - i
  {
    if i == |pagos| then best
    else EarliestIndex(pagos, if pagos[i].timestamp < pagos[best].timestamp then i else best, i + 1)
  }

  /** `fechaApertura`: the smallest payment timestamp (the first payment
      listed with it wins the tie), or `now` with no payments. */
  function FechaApertura(pagos: seq<Pago>, now: int): (t: int)
    ensures pagos == [] ==> t == now
    ensures pagos != [] ==> (exists k :: 0 <= k < |pagos| && pagos[k].timestamp == t) &&
                            forall j :: 0 <= j < |pagos| ==> t <= pagos[j].timestamp
  {
    if |pagos| > 0 then pagos[EarliestIndex(pagos, 0, 1)].timestamp else now
  }

  /** The session's copy of the payments, field by field (`pagos.map`). */
  function CopyPagos(pagos: seq<Pago>): (r: seq<Pago>)
    ensures r == pagos
  {
    seq(|pagos|, k requires 0 <= k < |pagos| =>
      var p := pagos[k];
      Pago(p.id, p.firebaseId, p.pedidoId, p.mesa, p.total, p.pagadoCon, p.vuelto,
           p.metodoPago, p.cajero, p.timestamp, p.items))
  }

  /** The session `cerrarCaja` writes. */
  function BuildSesion(pagos: seq<Pago>, cajero: string, now: int): (s: SesionData)
    ensures s.estado == Cerrada && s.cajero == cajero && s.fechaCierre == now
    ensures s.totalTransacciones == |pagos| && s.pagos == pagos
    ensures s.totalVentas == TotalVentas(pagos)
    ensures s.desglosePorMetodo.efectivo + s.desglosePorMetodo.tarjeta + s.desglosePorMetodo.transferencia == s.totalVentas
    ensures pagos != [] ==> forall j :: 0 <= j < |pagos| ==> s.fechaApertura <= pagos[j].timestamp
    ensures s.fechaApertura == FechaApertura(pagos, now) && s.desglosePorMetodo == DesglosePorMetodo(pagos)
  {
    SesionData(FechaApertura(pagos, now), now, cajero, TotalVentas(pagos), |pagos|,
               CopyPagos(pagos), DesglosePorMetodo(pagos), Cerrada)
  }

  /** `query(sesiones, orderBy("fechaCierre", "desc"))`, with the document id
      as both `id` and `firebaseId`. */
  function LoadSesiones(docs: seq<SesionDoc>): (r: seq<Sesion>)
    ensures |r| == |docs|
    ensures multiset(r) == multiset(Map(docs, LoadSesion))
    ensures forall i, j :: 0 <= i < j < |r| ==> r[i].data.fechaCierre >= r[j].data.fechaCierre
  {
    Sorting.SortByDescending(Map(docs, LoadSesion), (s: Sesion) => s.data.fechaCierre)
  }

  /** A session as read back from its document. */
  function LoadSesion(d: SesionDoc): Sesion
  {
    Sesion(d.docId, Some(d.docId), d.data)
  }

  /** The ids of every document of a collection, as the loop that fills the
      delete batch collects them. */
  method BatchIds<T>(docs: seq<T>, id: T -> string) returns (batch: seq<string>)
    ensures |batch| == |docs|
    ensures forall k :: 0 <= k < |docs| ==> id(docs[k]) in batch
  {
    batch := [];
    var i := 0;
    while i < |docs|
      invariant 0 <= i <= |docs|
      invariant |batch| == i
      invariant forall k :: 0 <= k < i ==> batch[k] == id(docs[k])
    {
      batch := batch + [id(docs[i])];
      i := i + 1;
    }
  }

  /** Committing deletes that remove every document leaves none. */
  lemma CommitDeletesAll<T>(docs: seq<T>, keep: T -> bool)
    requires forall k :: 0 <= k < |docs| ==> !keep(docs[k])
    ensures Filter(docs, keep) == []
  {
  }

  /** The batch of `cerrarCaja`: one delete per order and per payment
      document, committed together. */
  method PurgeActive(db: Database)
    modifies db
    ensures db.pedidos == [] && db.pagos == []
    ensures db.sesiones == old(db.sesiones)
  {
    var pedidos, pagos := db.pedidos, db.pagos;
    var pedidoIds := BatchIds(pedidos, (d: PedidoDoc) => d.docId);
    var pagoIds := BatchIds(pagos, (d: PagoDoc) => d.docId);
    var keepPedido := (d: PedidoDoc) => d.docId !in pedidoIds;
    var keepPago := (d: PagoDoc) => d.docId !in pagoIds;
    CommitDeletesAll(pedidos, keepPedido);
    CommitDeletesAll(pagos, keepPago);
    db.pedidos, db.pagos := Filter(pedidos, keepPedido), Filter(pagos, keepPago);
  }

  /** Where `cerrarCaja` can fail: writing the session, or afterwards, while
      the collections are read or the batch is committed (the batch is
      atomic, so nothing is purged then). */
  datatype CloseFault = CloseOk | SessionSaveFails(reason: string) | PurgeFails(reason: string)

  class Store {
    var sesiones: seq<Sesion>
    var isLoading: bool

    constructor ()
      ensures sesiones == [] && !isLoading
    {
      sesiones, isLoading := [], false;
    }

    /** `fetchSesiones`: newest close first; a failure is only logged. */
    method FetchSesiones(db: Database, fault: Option<string>)
      modifies this
      ensures fault.None? ==> sesiones == LoadSesiones(db.sesiones)
      ensures fault.Some? ==> sesiones == old(sesiones)
      ensures !isLoading
    {
      isLoading := true;
      if fault.Some? {
        isLoading := false;
        return;
      }
      sesiones, isLoading := LoadSesiones(db.sesiones), false;
    }

    /** `cerrarCaja`: writes the closed session built from `pagos`, then
        deletes every order and payment document in one batch and reloads
        the sessions. Any failure resets `isLoading` and is rethrown. */
    method CerrarCaja(pagos: seq<Pago>, cajero: string, db: Database, newDocId: string, now: int,
                      fault: CloseFault, reloadFault: Option<string>) returns (r: Result<()>)
      modifies this, db
      ensures fault.CloseOk? ==>
        r == Ok(()) &&
        db.sesiones == old(db.sesiones) + [SesionDoc(newDocId, BuildSesion(pagos, cajero, now))] &&
        db.pedidos == [] && db.pagos == [] &&
        (reloadFault.None? ==> sesiones == LoadSesiones(db.sesiones)) &&
        (reloadFault.Some? ==> sesiones == old(sesiones))
      ensures fault.SessionSaveFails? ==>
        r == Err(fault.reason) && db.sesiones == old(db.sesiones) &&
        db.pedidos == old(db.pedidos) && db.pagos == old(db.pagos) && sesiones == old(sesiones)
      ensures fault.PurgeFails? ==>
        r == Err(fault.reason) &&
        db.sesiones == old(db.sesiones) + [SesionDoc(newDocId, BuildSesion(pagos, cajero, now))] &&
        db.pedidos == old(db.pedidos) && db.pagos == old(db.pagos) && sesiones == old(sesiones)
      ensures !isLoading
    {
      isLoading := true;
      var sesion := BuildSesion(pagos, cajero, now);
      if fault.SessionSaveFails? {
        isLoading := false;
        return Err(fault.reason);
      }
      db.sesiones := db.sesiones + [SesionDoc(newDocId, sesion)];
      if fault.PurgeFails? {
        isLoading := false;
        return Err(fault.reason);
      }
      PurgeActive(db);
      FetchSesiones(db, reloadFault);
      isLoading := false;
      r := Ok(());
    }
  }
}
