/** The records of the order and till ledger (the `Pedido`, `Pago` and
    `Sesion` types of the mock data files), the status pipeline, and the
    three document collections the stores read and write (`pedidos`, `pagos`,
    `sesiones`). Money is in integer cents, timestamps in integer
    milliseconds. */
module Ledger {
  import opened Seqs

  /** Status of one order line. */
  datatype Estado = Pendiente | Preparando | Listo | Entregado

  /** Position in the pipeline pendiente -> preparando -> listo -> entregado. */
  function Rank(e: Estado): (r: nat)
    ensures r <= 3
  {
    match e
    case Pendiente => 0
    case Preparando => 1
    case Listo => 2
    case Entregado => 3
  }

  /** The immediate successor in the pipeline; `entregado` is terminal. */
  function Successor(e: Estado): (r: Option<Estado>)
    ensures r.None? <==> e == Entregado
    ensures r.Some? ==> Rank(r.value) == Rank(e) + 1
  {
    match e
    case Pendiente => Some(Preparando)
    case Preparando => Some(Listo)
    case Listo => Some(Entregado)
    case Entregado => None
  }

  datatype PedidoItem = PedidoItem(id: int, name: string, quantity: int, price: int, estado: Estado)

  /** An open order. `firebaseId` is the optional document id. */
  datatype Pedido = Pedido(id: int, firebaseId: Option<string>, mesa: string, items: seq<PedidoItem>, timestamp: int)

  /** A truthy `firebaseId`: present and not the empty string. */
  predicate HasFirebaseId(p: Pedido)
  {
    p.firebaseId.Some? && p.firebaseId.value != ""
  }

  /** One line of the cart: menu item id, name, unit price and quantity. */
  datatype CartItem = CartItem(id: int, name: string, price: int, quantity: int)

  datatype MetodoPago = Efectivo | Tarjeta | Transferencia

  /** The string stored for a payment method. */
  function MetodoName(m: MetodoPago): string
  {
    match m
    case Efectivo => "efectivo"
    case Tarjeta => "tarjeta"
    case Transferencia => "transferencia"
  }

  /** The line snapshot kept in a payment. */
  datatype PagoItem = PagoItem(name: string, quantity: int, price: int)

  /** What a caller hands to `registrarPago`: a payment without id, timestamp
      and change. */
  datatype PagoInput = PagoInput(pedidoId: string, mesa: string, total: int, pagadoCon: int,
                                 metodoPago: MetodoPago, cajero: string, items: seq<PagoItem>)

  datatype Pago = Pago(id: string, firebaseId: Option<string>, pedidoId: string, mesa: string,
                       total: int, pagadoCon: int, vuelto: int, metodoPago: MetodoPago,
                       cajero: string, timestamp: int, items: seq<PagoItem>)

  datatype Desglose = Desglose(efectivo: int, tarjeta: int, transferencia: int)

  datatype SesionEstado = Abierta | Cerrada

  /** A till session as written to the `sesiones` collection (without ids). */
  datatype SesionData = SesionData(fechaApertura: int, fechaCierre: int, cajero: string,
                                   totalVentas: int, totalTransacciones: int, pagos: seq<Pago>,
                                   desglosePorMetodo: Desglose, estado: SesionEstado)

  datatype Sesion = Sesion(id: string, firebaseId: Option<string>, data: SesionData)

  /** Price times quantity of one line. */
  function LineTotal(i: PedidoItem): int
  {
    i.price * i.quantity
  }

  /** `items.reduce((sum, i) => sum + i.price * i.quantity, 0)`. */
  function ItemsTotal(items: seq<PedidoItem>): int
  {
    SumBy(items, LineTotal)
  }

  /** The table an order belongs to. */
  function MesaOf(p: Pedido): string
  {
    p.mesa
  }

  /** `p => p.mesa === mesa`. */
  function AtMesa(mesa: string): Pedido -> bool
  {
    (p: Pedido) => p.mesa == mesa
  }

  /** Number of lines of an order. */
  function LineCount(p: Pedido): int
  {
    |p.items|
  }

  /** Total billed for one order. */
  function PedidoTotal(p: Pedido): int
  {
    ItemsTotal(p.items)
  }

  /** Amount billed by one payment. */
  function PagoTotal(p: Pago): int
  {
    p.total
  }

  /** Stored documents. The `pedidos` document holds table, lines and
      creation time; a `pagos` document holds what `registrarPago` wrote. */
  datatype PedidoDoc = PedidoDoc(docId: string, mesa: string, items: seq<PedidoItem>, timestamp: int)
  datatype PagoDoc = PagoDoc(docId: string, input: PagoInput, vuelto: int, timestamp: int)
  datatype SesionDoc = SesionDoc(docId: string, data: SesionData)

  /** `updateDoc(doc(db, "pedidos", id), { items })`: rewrites the items of the
      document with that id and leaves every other document as it was. */
  function SetDocItems(docs: seq<PedidoDoc>, docId: string, items: seq<PedidoItem>): (r: seq<PedidoDoc>)
    ensures |r| == |docs|
    ensures forall k :: 0 <= k < |docs| ==>
      r[k] == if docs[k].docId == docId then docs[k].(items := items) else docs[k]
  {
    seq(|docs|, k requires 0 <= k < |docs| => if docs[k].docId == docId then docs[k].(items := items) else docs[k])
  }

  /** `deleteDoc(doc(db, "pedidos", id))`. */
  function DeleteDoc(docs: seq<PedidoDoc>, docId: string): (r: seq<PedidoDoc>)
    ensures forall k :: 0 <= k < |r| ==> r[k] in docs && r[k].docId != docId
    ensures forall k :: 0 <= k < |docs| && docs[k].docId != docId ==> docs[k] in r
  {
    Filter(docs, (d: PedidoDoc) => d.docId != docId)
  }

  /** Whether a document with that id exists (`updateDoc` fails otherwise,
      `deleteDoc` does not). */
  predicate HasDoc(docs: seq<PedidoDoc>, docId: string)
  {
    exists k :: 0 <= k < |docs| && docs[k].docId == docId
  }

  /** The hosted document store: the three collections. */
  class Database {
    var pedidos: seq<PedidoDoc>
    var pagos: seq<PagoDoc>
    var sesiones: seq<SesionDoc>

    constructor ()
      ensures pedidos == [] && pagos == [] && sesiones == []
    {
      pedidos, pagos, sesiones := [], [], [];
    }
  }
}
