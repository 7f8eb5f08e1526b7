/** The orders API route (`app/api/pedidos/route.ts`) over the relational
    database: `GET` lists the orders with their lines, newest first; `POST`
    validates a new order and creates it with all lines `pendiente`. The
    database calls are parameters: their rows, or their failure. */
module PedidosRoute {
  import opened Seqs
  import opened Ledger
  import Sorting

  /** A line of the request body; a falsy `menuItemId` (absent, null or 0)
      is 0. */
  datatype BodyItem = BodyItem(id: int, menuItemId: int, name: string, quantity: int, price: int)

  /** The parsed request body (`mesa` absent is the empty string, `items`
      absent is `None`), or a body `request.json()` cannot parse, with the
      message of the error it throws. */
  datatype RequestBody = Body(mesa: string, items: Option<seq<BodyItem>>) | Unparsable(message: string)

  /** A line as the database stores it. */
  datatype ItemRow = ItemRow(id: int, menuItemId: int, name: string, quantity: int, price: int, estado: Estado)

  datatype PedidoRow = PedidoRow(id: int, mesa: string, timestamp: int, items: seq<ItemRow>)

  /** What `prisma.pedido.create` did: created the order with the ids and
      time the database chose, or threw. */
  datatype CreateOutcome = CreatedWith(pedidoId: int, itemIds: seq<int>, timestamp: int) | CreateFails(message: string)

  datatype ResponseBody = Listing(pedidos: seq<PedidoRow>) | Created(pedido: PedidoRow) | Failure(error: string, details: Option<string>)

  datatype Response = Response(status: int, body: ResponseBody)

  const Required := "Mesa e items son requeridos"
  const CreateError := "Error al crear pedido"
  const ListError := "Error al obtener pedidos"

  /** `!mesa || !items || items.length === 0`. */
  predicate Invalid(mesa: string, items: Option<seq<BodyItem>>)
  {
    mesa == "" || items.None? || items.value == []
  }

  /** The line created for a body line: `menuItemId || id`, status
      `pendiente`. */
  function NewItem(it: BodyItem, rowId: int): (r: ItemRow)
    ensures r.menuItemId == (if it.menuItemId != 0 then it.menuItemId else it.id)
    ensures r.name == it.name && r.quantity == it.quantity && r.price == it.price && r.estado == Pendiente
  {
    ItemRow(rowId, if it.menuItemId != 0 then it.menuItemId else it.id, it.name, it.quantity, it.price, Pendiente)
  }

  /** The rows created, one per body line in order; a line without a
      database id (the outcome names fewer ids than lines) gets 0. */
  function NewItems(items: seq<BodyItem>, ids: seq<int>): (r: seq<ItemRow>)
    ensures |r| == |items|
    ensures forall k :: 0 <= k < |r| ==> r[k] == NewItem(items[k], if k < |ids| then ids[k] else 0)
  {
    seq(|items|, k requires 0 <= k < |items| => NewItem(items[k], if k < |ids| then ids[k] else 0))
  }

  /** `POST /api/pedidos`. A body that does not parse and a failed create
      answer 500 with the thrown error's message as details; a missing table or an empty list of lines answers 400
      without touching the database; otherwise the created order answers
      201 with exactly the body's lines, each new and `pendiente`. */
  function Post(body: RequestBody, create: CreateOutcome): (r: Response)
    ensures r.status == 400 <==> body.Body? && Invalid(body.mesa, body.items)
    ensures r.status == 400 ==> r.body == Failure(Required, None)
    ensures body.Unparsable? ==> r == Response(500, Failure(CreateError, Some(body.message)))
    ensures r.status == 201 <==> body.Body? && !Invalid(body.mesa, body.items) && create.CreatedWith?
    ensures r.status == 201 ==>
      r.body.Created? && r.body.pedido.mesa == body.mesa && r.body.pedido.id == create.pedidoId &&
      |r.body.pedido.items| == |body.items.value| &&
      forall k :: 0 <= k < |r.body.pedido.items| ==>
        r.body.pedido.items[k].estado == Pendiente && r.body.pedido.items[k].name == body.items.value[k].name &&
        r.body.pedido.items[k].quantity == body.items.value[k].quantity &&
        r.body.pedido.items[k].price == body.items.value[k].price &&
        r.body.pedido.items[k].menuItemId ==
          (if body.items.value[k].menuItemId != 0 then body.items.value[k].menuItemId else body.items.value[k].id)
    ensures body.Body? && !Invalid(body.mesa, body.items) && create.CreateFails? ==>
      r == Response(500, Failure(CreateError, Some(create.message)))
  {
    match body
    case Unparsable(message) => Response(500, Failure(CreateError, Some(message)))
    case Body(mesa, items) =>
      if Invalid(mesa, items) then Response(400, Failure(Required, None))
      else match create
        case CreateFails(message) => Response(500, Failure(CreateError, Some(message)))
        case CreatedWith(pedidoId, itemIds, timestamp) =>
          Response(201, Created(PedidoRow(pedidoId, mesa, timestamp, NewItems(items.value, itemIds))))
  }

  function RowTimestamp(p: PedidoRow): int
  {
    p.timestamp
  }

  /** `GET /api/pedidos`: the orders the database returned (`None` when the
      query threw), newest first. */
  function Get(rows: Option<seq<PedidoRow>>): (r: Response)
    ensures rows.None? ==> r == Response(500, Failure(ListError, None))
    ensures rows.Some? ==>
      r.status == 200 && r.body.Listing? && multiset(r.body.pedidos) == multiset(rows.value) &&
      forall i, j :: 0 <= i < j < |r.body.pedidos| ==> r.body.pedidos[i].timestamp >= r.body.pedidos[j].timestamp
  {
    match rows
    case None => Response(500, Failure(ListError, None))
    case Some(ps) => Response(200, Listing(Sorting.SortByDescending(ps, RowTimestamp)))
  }
}
