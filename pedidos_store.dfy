/** The order store (`usePedidosStore`): the waiter's cart, the local list of
    open orders, the notification feed, and the operations that write order
    documents. Every operation that talks to the document store takes the
    `Database` and a `fault` (the message of the exception the call would
    throw, or `None`); "now" is a parameter. The store never writes its own
    `pedidos` list when it writes a document: the real-time listener reloads
    it, and that listener is not part of this model. */
module PedidosStore {
  import opened Seqs
  import opened Text
  import opened Ledger
  import Sorting

  datatype NoticeType = Success | Info | Warning

  /** The notification texts, by what they report. */
  datatype Message =
    | NuevoPedido(mesa: string, lineas: nat)
    | ErrorEnvio(reason: string)
    | EnPreparacion(mesa: string, item: string)
    | ItemListo(mesa: string, item: string)
    | PedidoEntregado(mesa: string)
    | ErrorActualizar(reason: string)
    | SoloPendientes
    | PedidoCancelado(mesa: string)
    | ItemCancelado(item: string, mesa: string)
    | ErrorCancelar(reason: string)

  /** A notification; its id is `Date.now().toString()`. */
  datatype Notification = Notification(id: string, message: Message, kind: NoticeType, timestamp: int)

  /** What `updateDoc` reports when the document no longer exists. */
  const MissingDocument: string := "No document to update"

  // ---------------------------------------------------------------- cart

  /** Cart ids are unique and every quantity is at least 1. */
  ghost predicate ValidCart(cart: seq<CartItem>)
  {
    (forall i, j :: 0 <= i < j < |cart| ==> cart[i].id != cart[j].id) &&
    (forall i :: 0 <= i < |cart| ==> cart[i].quantity >= 1)
  }

  predicate InCart(cart: seq<CartItem>, id: int)
  {
    exists k :: 0 <= k < |cart| && cart[k].id == id
  }

  /** How many units of menu item `id` the cart holds. */
  function Quantity(cart: seq<CartItem>, id: int): int
  {
    if cart == [] then 0
    else (if cart[0].id == id then cart[0].quantity else 0) + Quantity(cart[1..], id)
  }

  /** `addToCart`: a known id gets one more unit in place; a new id is
      appended with quantity 1. */
  function CartAdd(cart: seq<CartItem>, id: int, name: string, price: int): (r: seq<CartItem>)
    ensures InCart(cart, id) ==> (|r| == |cart| &&
      forall k :: 0 <= k < |cart| ==>
        r[k].id == cart[k].id && r[k].name == cart[k].name && r[k].price == cart[k].price &&
        r[k].quantity == cart[k].quantity + (if cart[k].id == id then 1 else 0))
    ensures !InCart(cart, id) ==> r == cart + [CartItem(id, name, price, 1)]
  {
    if InCart(cart, id) then
      seq(|cart|, k requires 0 <= k < |cart| =>
        if cart[k].id == id then cart[k].(quantity := cart[k].quantity + 1) else cart[k])
    else cart + [CartItem(id, name, price, 1)]
  }

  /** `removeFromCart`: drops every line with that id, keeping the order of
      the others. */
  function CartRemove(cart: seq<CartItem>, id: int): (r: seq<CartItem>)
    ensures forall k :: 0 <= k < |r| ==> r[k].id != id && r[k] in cart
    ensures forall k :: 0 <= k < |cart| && cart[k].id != id ==> cart[k] in r
    ensures exists idx :: OrderedEmbedding(idx, r, cart) &&
                          forall i :: 0 <= i < |cart| ==> (cart[i].id != id <==> i in idx)
  {
    var keep := (l: CartItem) => l.id != id;
    FilterEmbeds(cart, keep);
    Filter(cart, keep)
  }

  lemma {:induction false} QuantityAppend(a: seq<CartItem>, b: seq<CartItem>, id: int)
    ensures Quantity(a + b, id) == Quantity(a, id) + Quantity(b, id)
  {
    if a != [] {
      assert (a + b)[1..] == a[1..] + b;
      QuantityAppend(a[1..], b, id);
    } else {
      assert a + b == b;
    }
  }

  lemma {:induction false} QuantityAbsent(cart: seq<CartItem>, id: int)
    requires !InCart(cart, id)
    ensures Quantity(cart, id) == 0
  {
    if cart != [] {
      assert !InCart(cart[1..], id) by {
        forall k | 0 <= k < |cart[1..]| ensures cart[1..][k].id != id {
          assert cart[1..][k] == cart[k + 1];
        }
      }
      QuantityAbsent(cart[1..], id);
    }
  }

  lemma {:induction false} QuantityIncrement(cart: seq<CartItem>, r: seq<CartItem>, id: int, x: int)
    requires |r| == |cart|
    requires forall k :: 0 <= k < |cart| ==>
      r[k].id == cart[k].id && r[k].quantity == cart[k].quantity + (if cart[k].id == id then 1 else 0)
    requires forall i, j :: 0 <= i < j < |cart| ==> cart[i].id != cart[j].id
    requires InCart(cart, id)
    ensures Quantity(r, x) == Quantity(cart, x) + (if x == id then 1 else 0)
  {
    if cart[0].id == id {
      assert !InCart(cart[1..], id) by {
        forall k | 0 <= k < |cart[1..]| ensures cart[1..][k].id != id {
          assert cart[1..][k] == cart[k + 1];
        }
      }
      QuantityUnchanged(cart[1..], r[1..], id, x);
    } else {
      var k :| 0 <= k < |cart| && cart[k].id == id;
      assert cart[1..][k - 1].id == id;
      QuantityIncrement(cart[1..], r[1..], id, x);
    }
  }

  lemma {:induction false} QuantityUnchanged(cart: seq<CartItem>, r: seq<CartItem>, id: int, x: int)
    requires |r| == |cart|
    requires forall k :: 0 <= k < |cart| ==>
      r[k].id == cart[k].id && r[k].quantity == cart[k].quantity + (if cart[k].id == id then 1 else 0)
    requires !InCart(cart, id)
    ensures Quantity(r, x) == Quantity(cart, x)
  {
    if cart != [] {
      assert !InCart(cart[1..], id) by {
        forall k | 0 <= k < |cart[1..]| ensures cart[1..][k].id != id {
          assert cart[1..][k] == cart[k + 1];
        }
      }
      QuantityUnchanged(cart[1..], r[1..], id, x);
    }
  }

  /** Adding an item keeps the cart valid and raises that item's quantity by
      exactly one, whether its line existed or not; every other quantity is
      unchanged. */
  lemma CartAddKeepsValid(cart: seq<CartItem>, id: int, name: string, price: int, x: int)
    requires ValidCart(cart)
    ensures ValidCart(CartAdd(cart, id, name, price))
    ensures Quantity(CartAdd(cart, id, name, price), x) == Quantity(cart, x) + (if x == id then 1 else 0)
  {
    var r := CartAdd(cart, id, name, price);
    if InCart(cart, id) {
      QuantityIncrement(cart, r, id, x);
    } else {
      QuantityAppend(cart, [CartItem(id, name, price, 1)], x);
      assert [CartItem(id, name, price, 1)][1..] == [];
      QuantityAbsent(cart, id);
    }
  }

  lemma {:induction false} QuantityFilter(cart: seq<CartItem>, id: int, x: int)
    ensures Quantity(CartRemove(cart, id), x) == if x == id then 0 else Quantity(cart, x)
  {
    if cart != [] {
      QuantityFilter(cart[1..], id, x);
      var p := (l: CartItem) => l.id != id;
      if p(cart[0]) {
        assert CartRemove(cart, id) == [cart[0]] + CartRemove(cart[1..], id);
        assert ([cart[0]] + CartRemove(cart[1..], id))[1..] == CartRemove(cart[1..], id);
      }
    }
  }

  /** Removing an item keeps the cart valid, zeroes that item's quantity and
      leaves every other item's quantity as it was. */
  lemma CartRemoveKeepsValid(cart: seq<CartItem>, id: int, x: int)
    requires ValidCart(cart)
    ensures ValidCart(CartRemove(cart, id))
    ensures Quantity(CartRemove(cart, id), x) == if x == id then 0 else Quantity(cart, x)
  {
    QuantityFilter(cart, id, x);
    FilterKeepsDistinctIds(cart, id);
  }

  /** Removal keeps the lines' ids distinct: the lines kept sit at
      increasing positions of the cart. */
  lemma FilterKeepsDistinctIds(cart: seq<CartItem>, id: int)
    requires forall a, b :: 0 <= a < b < |cart| ==> cart[a].id != cart[b].id
    ensures forall a, b :: 0 <= a < b < |CartRemove(cart, id)| ==> CartRemove(cart, id)[a].id != CartRemove(cart, id)[b].id
  {
    var r := CartRemove(cart, id);
    var idx :| OrderedEmbedding(idx, r, cart) && forall i :: 0 <= i < |cart| ==> (cart[i].id != id <==> i in idx);
    forall a, b | 0 <= a < b < |r|
      ensures r[a].id != r[b].id
    {
      assert cart[idx[a]] == r[a] && cart[idx[b]] == r[b] && idx[a] < idx[b];
    }
  }

  /** The order lines `submitOrder` creates: one per cart line, same id,
      name, quantity and price, all `pendiente`. */
  function CartToItems(cart: seq<CartItem>): (r: seq<PedidoItem>)
    ensures |r| == |cart|
    ensures forall k :: 0 <= k < |cart| ==>
      r[k].id == cart[k].id && r[k].name == cart[k].name &&
      r[k].quantity == cart[k].quantity && r[k].price == cart[k].price && r[k].estado == Pendiente
  {
    seq(|cart|, k requires 0 <= k < |cart| =>
      PedidoItem(cart[k].id, cart[k].name, cart[k].quantity, cart[k].price, Pendiente))
  }

  // --------------------------------------------------------- item status

  /** `items.map(i => i.id === itemId ? { ...i, estado } : i)`. Any target
      status is accepted, whatever the current one. */
  function SetEstado(items: seq<PedidoItem>, itemId: int, estado: Estado): (r: seq<PedidoItem>)
    ensures |r| == |items|
    ensures forall k :: 0 <= k < |items| ==>
      r[k].(estado := items[k].estado) == items[k] &&
      r[k].estado == (if items[k].id == itemId then estado else items[k].estado)
  {
    seq(|items|, k requires 0 <= k < |items| =>
      if items[k].id == itemId then items[k].(estado := estado) else items[k])
  }

  /** The store writes a status that skips the pipeline, e.g. a `pendiente`
      line marked `entregado` directly. */
  lemma StoreAcceptsSkip(items: seq<PedidoItem>, k: nat)
    requires k < |items| && items[k].estado == Pendiente
    ensures Successor(items[k].estado) != Some(Entregado)
    ensures SetEstado(items, items[k].id, Entregado)[k].estado == Entregado
  {
  }

  /** The "order complete" check of `updateItemStatus`: every line other than
      the updated one is already `entregado`. */
  predicate AllDeliveredAfter(items: seq<PedidoItem>, itemId: int)
  {
    Every(items, (i: PedidoItem) => i.id == itemId || i.estado == Entregado)
  }

  /** The notification `updateItemStatus` raises after a successful write. */
  function StatusNotice(mesa: string, item: PedidoItem, items: seq<PedidoItem>, estado: Estado): (r: Option<(Message, NoticeType)>)
    ensures r.Some? && r.value.0.PedidoEntregado? <==> estado == Entregado && AllDeliveredAfter(items, item.id)
    ensures r.None? <==> estado == Pendiente || (estado == Entregado && !AllDeliveredAfter(items, item.id))
  {
    match estado
    case Preparando => Some((EnPreparacion(mesa, item.name), Info))
    case Listo => Some((ItemListo(mesa, item.name), Success))
    case Entregado => if AllDeliveredAfter(items, item.id) then Some((PedidoEntregado(mesa), Success)) else None
    case Pendiente => None
  }

  /** Once the write succeeds, the "complete" notice means the whole order is
      delivered: every line of the updated list is `entregado`. */
  lemma CompleteNoticeMeansAllDelivered(mesa: string, item: PedidoItem, items: seq<PedidoItem>)
    requires StatusNotice(mesa, item, items, Entregado) == Some((PedidoEntregado(mesa), Success))
    ensures forall k :: 0 <= k < |items| ==> SetEstado(items, item.id, Entregado)[k].estado == Entregado
  {
    forall k | 0 <= k < |items| ensures SetEstado(items, item.id, Entregado)[k].estado == Entregado {
      assert (items[k].id == item.id || items[k].estado == Entregado);
    }
  }

  /** `updateItemFromSocket`: every order with the id gets its lines with the
      item id set to the status; nothing else changes. */
  function ApplyItemEstado(pedidos: seq<Pedido>, pedidoId: int, itemId: int, estado: Estado): (r: seq<Pedido>)
    ensures |r| == |pedidos|
    ensures forall k :: 0 <= k < |pedidos| ==>
      r[k] == if pedidos[k].id == pedidoId then pedidos[k].(items := SetEstado(pedidos[k].items, itemId, estado)) else pedidos[k]
  {
    seq(|pedidos|, k requires 0 <= k < |pedidos| =>
      if pedidos[k].id == pedidoId then pedidos[k].(items := SetEstado(pedidos[k].items, itemId, estado)) else pedidos[k])
  }

  /** The first order with the id and, in it, the first line with the item id
      (`pedidos.find`, then `items.find`). */
  function FindTarget(pedidos: seq<Pedido>, pedidoId: int, itemId: int): (r: Option<(Pedido, PedidoItem)>)
    ensures r.Some? ==> r.value.0 in pedidos && r.value.0.id == pedidoId &&
                        r.value.1 in r.value.0.items && r.value.1.id == itemId
    ensures r.None? ==> ((forall k :: 0 <= k < |pedidos| ==> pedidos[k].id != pedidoId) ||
      (exists k :: 0 <= k < |pedidos| && pedidos[k].id == pedidoId &&
         (forall j :: 0 <= j < k ==> pedidos[j].id != pedidoId) &&
         forall m :: 0 <= m < |pedidos[k].items| ==> pedidos[k].items[m].id != itemId))
  {
    match FindFirst(pedidos, (p: Pedido) => p.id == pedidoId)
    case None => None
    case Some(k) =>
      match FindFirst(pedidos[k].items, (i: PedidoItem) => i.id == itemId)
      case None => None
      case Some(m) => Some((pedidos[k], pedidos[k].items[m]))
  }

  /** What `find` promises: the order found is the first order with the id,
      and the line found is the first line of it with the item id. */
  lemma FindTargetIsFirst(pedidos: seq<Pedido>, pedidoId: int, itemId: int)
    ensures var r := FindTarget(pedidos, pedidoId, itemId);
      r.Some? ==>
        (exists k :: 0 <= k < |pedidos| && pedidos[k] == r.value.0 && pedidos[k].id == pedidoId &&
                     forall j :: 0 <= j < k ==> pedidos[j].id != pedidoId) &&
        (exists m :: 0 <= m < |r.value.0.items| && r.value.0.items[m] == r.value.1 && r.value.1.id == itemId &&
                     forall j :: 0 <= j < m ==> r.value.0.items[j].id != itemId)
  {
    var r := FindTarget(pedidos, pedidoId, itemId);
    if r.Some? {
      var k := FindFirst(pedidos, (p: Pedido) => p.id == pedidoId).value;
      var m := FindFirst(pedidos[k].items, (i: PedidoItem) => i.id == itemId).value;
      assert pedidos[k] == r.value.0 && pedidos[k].items[m] == r.value.1;
    }
  }

  // ------------------------------------------------------------ loading

  /** `parseInt(doc.id) || Date.now()`: a document id that parses to a
      non-zero integer gives the order id, anything else gives `now`. */
  function PedidoIdOf(docId: string, now: int): int
  {
    match ParseInt(docId)
    case Some(n) => if n != 0 then n else now
    case None => now
  }

  /** The order the loaders build from a document; they never set
      `firebaseId`. */
  function LoadPedido(d: PedidoDoc, now: int): (p: Pedido)
    ensures p.firebaseId.None?
    ensures p.mesa == d.mesa && p.items == d.items && p.timestamp == d.timestamp
  {
    Pedido(PedidoIdOf(d.docId, now), None, d.mesa, d.items, d.timestamp)
  }

  /** `query(pedidos, orderBy("timestamp", "desc"))`, each document loaded. */
  /** `LoadPedido` at a fixed `now`, as a function on documents. */
  function LoadPedidoAt(now: int): PedidoDoc -> Pedido
  {
    (d: PedidoDoc) => LoadPedido(d, now)
  }

  /** `query(pedidos, orderBy("timestamp", "desc"))`, each document loaded:
      the documents' orders, reordered newest first. Loading keeps the
      timestamp, so ordering the loaded orders orders the documents. */
  function LoadPedidos(docs: seq<PedidoDoc>, now: int): (r: seq<Pedido>)
    ensures |r| == |docs|
    ensures multiset(r) == multiset(Map(docs, LoadPedidoAt(now)))
    ensures forall k :: 0 <= k < |r| ==> r[k].firebaseId.None?
    ensures forall i, j :: 0 <= i < j < |r| ==> r[i].timestamp >= r[j].timestamp
  {
    var r := Sorting.SortByDescending(Map(docs, LoadPedidoAt(now)), (p: Pedido) => p.timestamp);
    ReorderedLoadsHaveNoFirebaseId(r, docs, now);
    r
  }

  /** Any reordering of the loaded orders has no `firebaseId`. */
  lemma ReorderedLoadsHaveNoFirebaseId(r: seq<Pedido>, docs: seq<PedidoDoc>, now: int)
    requires multiset(r) == multiset(Map(docs, LoadPedidoAt(now)))
    ensures forall k :: 0 <= k < |r| ==> r[k].firebaseId.None?
  {
    var loaded := Map(docs, LoadPedidoAt(now));
    forall k | 0 <= k < |r|
      ensures r[k].firebaseId.None?
    {
      assert r[k] in multiset(loaded);
      var j :| 0 <= j < |loaded| && loaded[j] == r[k];
      assert loaded[j] == LoadPedido(docs[j], now);
    }
  }

  /** With the orders as the loaders build them, a status update or a
      cancellation that finds its order always stops at the `firebaseId`
      guard. */
  lemma LoadedOrdersStopAtGuard(docs: seq<PedidoDoc>, now: int, pedidoId: int, itemId: int)
    ensures var t := FindTarget(LoadPedidos(docs, now), pedidoId, itemId);
            t.Some? ==> !HasFirebaseId(t.value.0)
  {
    var ps := LoadPedidos(docs, now);
    var t := FindTarget(ps, pedidoId, itemId);
    if t.Some? {
      var k :| 0 <= k < |ps| && ps[k] == t.value.0;
    }
  }

  // ---------------------------------------------------- kitchen projection

  /** The (order, line) pairs of one order whose line has the status, in
      line order. */
  function PairsOf(p: Pedido, items: seq<PedidoItem>, estado: Estado): seq<(Pedido, PedidoItem)>
  {
    if items == [] then []
    else PairsOf(p, items[..|items| - 1], estado) +
         (if items[|items| - 1].estado == estado then [(p, items[|items| - 1])] else [])
  }

  /** `getItemsByEstado`: the pairs of every order, in order-then-line
      order. */
  function ItemsByEstado(pedidos: seq<Pedido>, estado: Estado): seq<(Pedido, PedidoItem)>
  {
    if pedidos == [] then []
    else ItemsByEstado(pedidos[..|pedidos| - 1], estado) +
         PairsOf(pedidos[|pedidos| - 1], pedidos[|pedidos| - 1].items, estado)
  }

  lemma {:induction false} PairsOfMembers(p: Pedido, items: seq<PedidoItem>, estado: Estado, q: Pedido, it: PedidoItem)
    ensures (q, it) in PairsOf(p, items, estado) <==> q == p && it in items && it.estado == estado
  {
    if items != [] {
      var init := items[..|items| - 1];
      PairsOfMembers(p, init, estado, q, it);
      assert items == init + [items[|items| - 1]];
    }
  }

  /** The projection holds exactly the pairs whose line has the status. */
  lemma {:induction false} ItemsByEstadoMembers(pedidos: seq<Pedido>, estado: Estado, q: Pedido, it: PedidoItem)
    ensures (q, it) in ItemsByEstado(pedidos, estado) <==> q in pedidos && it in q.items && it.estado == estado
  {
    if pedidos != [] {
      var init := pedidos[..|pedidos| - 1];
      var last := pedidos[|pedidos| - 1];
      ItemsByEstadoMembers(init, estado, q, it);
      PairsOfMembers(last, last.items, estado, q, it);
      assert pedidos == init + [last];
    }
  }

  // ---------------------------------------------------------------- store

  class Store {
    var pedidos: seq<Pedido>
    var currentCart: seq<CartItem>
    var notifications: seq<Notification>
    var lastUpdate: int
    var isLoading: bool
    var error: Option<string>

    ghost predicate CartValid()
      reads this
    {
      ValidCart(currentCart)
    }

    constructor (now: int)
      ensures pedidos == [] && currentCart == [] && notifications == []
      ensures lastUpdate == now && !isLoading && error.None?
      ensures CartValid()
    {
      pedidos, currentCart, notifications := [], [], [];
      lastUpdate, isLoading, error := now, false, None;
    }

    /** `addNotification` (the five-second auto-removal timer is not
        modelled). */
    method AddNotification(message: Message, kind: NoticeType, now: int)
      modifies this`notifications
      ensures notifications == old(notifications) + [Notification(IntToString(now), message, kind, now)]
    {
      notifications := notifications + [Notification(IntToString(now), message, kind, now)];
    }

    method ClearNotification(id: string)
      modifies this`notifications
      ensures forall k :: 0 <= k < |notifications| ==> notifications[k].id != id && notifications[k] in old(notifications)
      ensures forall k :: 0 <= k < |old(notifications)| && old(notifications)[k].id != id ==> old(notifications)[k] in notifications
      ensures exists idx :: OrderedEmbedding(idx, notifications, old(notifications)) &&
                            forall i :: 0 <= i < |old(notifications)| ==> (old(notifications)[i].id != id <==> i in idx)
    {
      var keep := (n: Notification) => n.id != id;
      FilterEmbeds(notifications, keep);
      notifications := Filter(notifications, keep);
    }

    method AddToCart(id: int, name: string, price: int)
      modifies this`currentCart
      ensures currentCart == CartAdd(old(currentCart), id, name, price)
      ensures old(CartValid()) ==> CartValid()
    {
      var cart := currentCart;
      var existing := FindFirst(cart, (i: CartItem) => i.id == id);
      if existing.Some? {
        currentCart := seq(|cart|, k requires 0 <= k < |cart| =>
          if cart[k].id == id then cart[k].(quantity := cart[k].quantity + 1) else cart[k]);
      } else {
        currentCart := cart + [CartItem(id, name, price, 1)];
      }
      if ValidCart(cart) {
        CartAddKeepsValid(cart, id, name, price, id);
      }
    }

    method RemoveFromCart(id: int)
      modifies this`currentCart
      ensures currentCart == CartRemove(old(currentCart), id)
      ensures old(CartValid()) ==> CartValid()
    {
      if ValidCart(currentCart) {
        CartRemoveKeepsValid(currentCart, id, id);
      }
      currentCart := Filter(currentCart, (i: CartItem) => i.id != id);
    }

    method ClearCart()
      modifies this`currentCart
      ensures currentCart == [] && CartValid()
    {
      currentCart := [];
    }

    /** `submitOrder`: an empty cart changes nothing. Otherwise one order
        document with every cart line as a `pendiente` line; on success the
        cart is emptied. */
    method SubmitOrder(mesa: string, db: Database, newDocId: string, now: int, fault: Option<string>)
      modifies this, db
      ensures old(currentCart) == [] ==>
        currentCart == [] && pedidos == old(pedidos) && notifications == old(notifications) &&
        isLoading == old(isLoading) && error == old(error) && db.pedidos == old(db.pedidos)
      ensures old(currentCart) != [] && fault.None? ==>
        db.pedidos == old(db.pedidos) + [PedidoDoc(newDocId, mesa, CartToItems(old(currentCart)), now)] &&
        currentCart == [] && !isLoading && error.None? &&
        notifications == old(notifications) + [Notification(IntToString(now), NuevoPedido(mesa, |old(currentCart)|), Info, now)]
      ensures old(currentCart) != [] && fault.Some? ==>
        db.pedidos == old(db.pedidos) && currentCart == old(currentCart) && !isLoading && error == fault &&
        notifications == old(notifications) + [Notification(IntToString(now), ErrorEnvio(fault.value), Warning, now)]
      ensures pedidos == old(pedidos) && lastUpdate == old(lastUpdate)
      ensures db.pagos == old(db.pagos) && db.sesiones == old(db.sesiones)
      ensures old(CartValid()) ==> CartValid()
    {
      var cart := currentCart;
      if |cart| == 0 {
        return;
      }
      isLoading, error := true, None;
      var items := CartToItems(cart);
      if fault.Some? {
        error, isLoading := fault, false;
        AddNotification(ErrorEnvio(fault.value), Warning, now);
        return;
      }
      db.pedidos := db.pedidos + [PedidoDoc(newDocId, mesa, items, now)];
      currentCart, isLoading := [], false;
      AddNotification(NuevoPedido(mesa, |cart|), Info, now);
    }

    /** `updateItemStatus`: nothing happens without the order, the line or
        a truthy `firebaseId` (absent or empty stops it). Otherwise the document's lines are written
        with the line's new status (any status), and a notice follows. */
    method UpdateItemStatus(pedidoId: int, itemId: int, estado: Estado, db: Database, now: int, fault: Option<string>)
      modifies this, db
      ensures var t := FindTarget(old(pedidos), pedidoId, itemId);
        t.None? || !HasFirebaseId(t.value.0) ==>
          db.pedidos == old(db.pedidos) && notifications == old(notifications) &&
          isLoading == old(isLoading) && error == old(error)
      ensures var t := FindTarget(old(pedidos), pedidoId, itemId);
        t.Some? && HasFirebaseId(t.value.0) ==>
          var p := t.value.0;
          var fid := p.firebaseId.value;
          !isLoading &&
          if fault.None? && HasDoc(old(db.pedidos), fid) then
            db.pedidos == SetDocItems(old(db.pedidos), fid, SetEstado(p.items, itemId, estado)) &&
            error.None? &&
            notifications == old(notifications) +
              (match StatusNotice(p.mesa, t.value.1, p.items, estado)
               case None => []
               case Some(n) => [Notification(IntToString(now), n.0, n.1, now)])
          else
            var reason := if fault.Some? then fault.value else MissingDocument;
            db.pedidos == old(db.pedidos) && error == Some(reason) &&
            notifications == old(notifications) + [Notification(IntToString(now), ErrorActualizar(reason), Warning, now)]
      ensures pedidos == old(pedidos) && currentCart == old(currentCart) && lastUpdate == old(lastUpdate)
      ensures db.pagos == old(db.pagos) && db.sesiones == old(db.sesiones)
    {
      var t := FindTarget(pedidos, pedidoId, itemId);
      if t.None? {
        return;
      }
      var (pedido, item) := t.value;
      if !HasFirebaseId(pedido) {
        return;
      }
      var fid := pedido.firebaseId.value;
      isLoading, error := true, None;
      var updatedItems := SetEstado(pedido.items, itemId, estado);
      if fault.Some? || !HasDoc(db.pedidos, fid) {
        var reason := if fault.Some? then fault.value else MissingDocument;
        error, isLoading := Some(reason), false;
        AddNotification(ErrorActualizar(reason), Warning, now);
        return;
      }
      db.pedidos := SetDocItems(db.pedidos, fid, updatedItems);
      isLoading := false;
      var notice := StatusNotice(pedido.mesa, item, pedido.items, estado);
      if notice.Some? {
        AddNotification(notice.value.0, notice.value.1, now);
      }
    }

    /** `cancelarItem`: only a `pendiente` line can be cancelled (otherwise a
        warning and nothing else). Every line with the id is dropped; when
        none is left the order document is deleted. */
    method CancelarItem(pedidoId: int, itemId: int, db: Database, now: int, fault: Option<string>)
      modifies this, db
      ensures var t := FindTarget(old(pedidos), pedidoId, itemId);
        t.None? ==>
          db.pedidos == old(db.pedidos) && notifications == old(notifications) &&
          isLoading == old(isLoading) && error == old(error)
      ensures var t := FindTarget(old(pedidos), pedidoId, itemId);
        t.Some? && t.value.1.estado != Pendiente ==>
          db.pedidos == old(db.pedidos) && isLoading == old(isLoading) && error == old(error) &&
          notifications == old(notifications) + [Notification(IntToString(now), SoloPendientes, Warning, now)]
      ensures var t := FindTarget(old(pedidos), pedidoId, itemId);
        t.Some? && t.value.1.estado == Pendiente && !HasFirebaseId(t.value.0) ==>
          db.pedidos == old(db.pedidos) && notifications == old(notifications) &&
          isLoading == old(isLoading) && error == old(error)
      ensures var t := FindTarget(old(pedidos), pedidoId, itemId);
        t.Some? && t.value.1.estado == Pendiente && HasFirebaseId(t.value.0) ==>
          var p := t.value.0;
          var fid := p.firebaseId.value;
          var rest := Filter(p.items, (i: PedidoItem) => i.id != itemId);
          !isLoading &&
          if fault.Some? || (rest != [] && !HasDoc(old(db.pedidos), fid)) then
            var reason := if fault.Some? then fault.value else MissingDocument;
            db.pedidos == old(db.pedidos) && error == Some(reason) &&
            notifications == old(notifications) + [Notification(IntToString(now), ErrorCancelar(reason), Warning, now)]
          else if rest == [] then
            db.pedidos == DeleteDoc(old(db.pedidos), fid) && error.None? &&
            notifications == old(notifications) + [Notification(IntToString(now), PedidoCancelado(p.mesa), Info, now)]
          else
            db.pedidos == SetDocItems(old(db.pedidos), fid, rest) && error.None? &&
            notifications == old(notifications) + [Notification(IntToString(now), ItemCancelado(t.value.1.name, p.mesa), Warning, now)]
      ensures pedidos == old(pedidos) && currentCart == old(currentCart) && lastUpdate == old(lastUpdate)
      ensures db.pagos == old(db.pagos) && db.sesiones == old(db.sesiones)
    {
      var t := FindTarget(pedidos, pedidoId, itemId);
      if t.None? {
        return;
      }
      var (pedido, item) := t.value;
      if item.estado != Pendiente {
        AddNotification(SoloPendientes, Warning, now);
        return;
      }
      if !HasFirebaseId(pedido) {
        return;
      }
      var fid := pedido.firebaseId.value;
      isLoading, error := true, None;
      var updatedItems := Filter(pedido.items, (i: PedidoItem) => i.id != itemId);
      if fault.Some? || (updatedItems != [] && !HasDoc(db.pedidos, fid)) {
        var reason := if fault.Some? then fault.value else MissingDocument;
        error, isLoading := Some(reason), false;
        AddNotification(ErrorCancelar(reason), Warning, now);
        return;
      }
      if |updatedItems| == 0 {
        db.pedidos := DeleteDoc(db.pedidos, fid);
        AddNotification(PedidoCancelado(pedido.mesa), Info, now);
      } else {
        db.pedidos := SetDocItems(db.pedidos, fid, updatedItems);
        AddNotification(ItemCancelado(item.name, pedido.mesa), Warning, now);
      }
      isLoading := false;
    }

    /** `fetchPedidos`: the documents, newest first, loaded as orders. */
    method FetchPedidos(db: Database, now: int, fault: Option<string>)
      modifies this
      ensures fault.None? ==> pedidos == LoadPedidos(db.pedidos, now) && lastUpdate == now && error.None?
      ensures fault.Some? ==> pedidos == old(pedidos) && lastUpdate == old(lastUpdate) && error == fault
      ensures !isLoading && currentCart == old(currentCart) && notifications == old(notifications)
    {
      isLoading, error := true, None;
      if fault.Some? {
        error, isLoading := fault, false;
        return;
      }
      pedidos, lastUpdate, isLoading := LoadPedidos(db.pedidos, now), now, false;
    }

    method AddPedidoFromSocket(pedido: Pedido, now: int)
      modifies this`pedidos, this`lastUpdate
      ensures pedidos == old(pedidos) + [pedido] && lastUpdate == now
    {
      pedidos, lastUpdate := pedidos + [pedido], now;
    }

    /** `updateItemFromSocket`: the same per-line rewrite as
        `updateItemStatus`, applied to the local list. */
    method UpdateItemFromSocket(pedidoId: int, itemId: int, estado: Estado, now: int)
      modifies this`pedidos, this`lastUpdate
      ensures pedidos == ApplyItemEstado(old(pedidos), pedidoId, itemId, estado) && lastUpdate == now
    {
      var ps := pedidos;
      pedidos := seq(|ps|, k requires 0 <= k < |ps| =>
        if ps[k].id == pedidoId then ps[k].(items := SetEstado(ps[k].items, itemId, estado)) else ps[k]);
      lastUpdate := now;
    }

    /** `getItemsByEstado`, by the nested `forEach` loops of the source. */
    method GetItemsByEstado(estado: Estado) returns (result: seq<(Pedido, PedidoItem)>)
      ensures result == ItemsByEstado(pedidos, estado)
      ensures forall q, it :: (q, it) in result <==> q in pedidos && it in q.items && it.estado == estado
    {
      result := [];
      var i := 0;
      while i < |pedidos|
        invariant 0 <= i <= |pedidos|
        invariant result == ItemsByEstado(pedidos[..i], estado)
      {
        var pedido := pedidos[i];
        var j := 0;
        ghost var before := result;
        while j < |pedido.items|
          invariant 0 <= j <= |pedido.items|
          invariant result == before + PairsOf(pedido, pedido.items[..j], estado)
        {
          var item := pedido.items[j];
          if item.estado == estado {
            result := result + [(pedido, item)];
          }
          assert pedido.items[..j + 1][..j] == pedido.items[..j];
          j := j + 1;
        }
        assert pedido.items[..j] == pedido.items;
        assert pedidos[..i + 1][..i] == pedidos[..i];
        i := i + 1;
      }
      assert pedidos[..i] == pedidos;
      forall q, it ensures (q, it) in result <==> q in pedidos && it in q.items && it.estado == estado {
        ItemsByEstadoMembers(pedidos, estado, q, it);
      }
    }
  }
}
