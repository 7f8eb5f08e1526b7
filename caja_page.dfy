/** The till page (`app/dashboard/admin/caja/page.tsx`): the open tables
    with their bills, collecting a payment, and today's figures. */
module CajaPage {
  import opened Seqs
  import opened Ledger
  import Grouping
  import PagosStore
  import opened PaymentForm

  /** The `pedidosPorMesa` record after the first `pedidos` orders of the
      `reduce`: each order pushed onto its table's list. */
  function PorMesa(pedidos: seq<Pedido>): map<string, seq<Pedido>>
  {
    if pedidos == [] then map[]
    else
      var acc := PorMesa(pedidos[..|pedidos| - 1]);
      var p := pedidos[|pedidos| - 1];
      acc[p.mesa := (if p.mesa in acc then acc[p.mesa] else []) + [p]]
  }

  /** The record has a key for exactly the tables with orders, and each
      table's list is its orders in arrival order. */
  lemma {:induction false} PorMesaBuckets(pedidos: seq<Pedido>)
    ensures forall m :: m in PorMesa(pedidos) <==> exists i :: 0 <= i < |pedidos| && pedidos[i].mesa == m
    ensures forall m :: m in PorMesa(pedidos) ==>
      PorMesa(pedidos)[m] == Grouping.Bucket(pedidos, MesaOf, Grouping.Same, m) && PorMesa(pedidos)[m] != []
  {
    if pedidos != [] {
      var prefix := pedidos[..|pedidos| - 1];
      var p := pedidos[|pedidos| - 1];
      PorMesaBuckets(prefix);
      forall m
        ensures m in PorMesa(pedidos) <==> exists i :: 0 <= i < |pedidos| && pedidos[i].mesa == m
      {
        if m in PorMesa(prefix) {
          var i :| 0 <= i < |prefix| && prefix[i].mesa == m;
          assert pedidos[i] == prefix[i];
        }
        if exists i :: 0 <= i < |pedidos| && pedidos[i].mesa == m {
          var i :| 0 <= i < |pedidos| && pedidos[i].mesa == m;
          if i < |prefix| {
            assert prefix[i] == pedidos[i];
          }
        }
      }
      forall m | m in PorMesa(pedidos)
        ensures PorMesa(pedidos)[m] == Grouping.Bucket(pedidos, MesaOf, Grouping.Same, m)
      {
        assert Grouping.Bucket(pedidos, MesaOf, Grouping.Same, m) ==
          Grouping.Bucket(prefix, MesaOf, Grouping.Same, m) + (if p.mesa == m then [p] else []);
        if m == p.mesa && m !in PorMesa(prefix) {
          Grouping.BucketAbsent(prefix, MesaOf, Grouping.Same, m);
        }
      }
    }
  }

  /** The `reduce` that builds `pedidosPorMesa`. */
  method PedidosPorMesa(pedidos: seq<Pedido>) returns (acc: map<string, seq<Pedido>>)
    ensures acc == PorMesa(pedidos)
  {
    acc := map[];
    var i := 0;
    while i < |pedidos|
      invariant 0 <= i <= |pedidos|
      invariant acc == PorMesa(pedidos[..i])
    {
      assert pedidos[..i + 1][..i] == pedidos[..i];
      var p := pedidos[i];
      if p.mesa !in acc {
        acc := acc[p.mesa := []];
      }
      acc := acc[p.mesa := acc[p.mesa] + [p]];
      i := i + 1;
    }
    assert pedidos[..|pedidos|] == pedidos;
  }

  /** The names a plain `{}` inherits from `Object.prototype`. Reading any of
      them yields a function (or, for `__proto__`, the prototype itself), so
      `!acc[name]` is false although no list was ever stored under it. */
  const InheritedNames: set<string> :=
    {"constructor", "hasOwnProperty", "isPrototypeOf", "propertyIsEnumerable",
     "toLocaleString", "toString", "valueOf", "__proto__",
     "__defineGetter__", "__defineSetter__", "__lookupGetter__", "__lookupSetter__"}

  /** The `reduce` as written, over a plain `{}`: an order whose table is an
      inherited name skips the `acc[pedido.mesa] = []` and then calls `push`
      on a value without it, which throws (`None`); otherwise the record. */
  function PorMesaAsWritten(pedidos: seq<Pedido>): Option<map<string, seq<Pedido>>>
  {
    if pedidos == [] then Some(map[])
    else
      var acc := PorMesaAsWritten(pedidos[..|pedidos| - 1]);
      var p := pedidos[|pedidos| - 1];
      if acc.None? then None
      else if p.mesa !in acc.value && p.mesa in InheritedNames then None
      else Some(acc.value[p.mesa := (if p.mesa in acc.value then acc.value[p.mesa] else []) + [p]])
  }

  /** As written, the page fails to render exactly when some table is named
      after an inherited member; otherwise it builds `PorMesa`, whose keys
      are never inherited names. */
  lemma {:induction false} PorMesaAsWrittenFails(pedidos: seq<Pedido>)
    ensures PorMesaAsWritten(pedidos).None? <==> exists i :: 0 <= i < |pedidos| && pedidos[i].mesa in InheritedNames
    ensures PorMesaAsWritten(pedidos).Some? ==> PorMesaAsWritten(pedidos).value == PorMesa(pedidos)
  {
    if pedidos != [] {
      var prefix := pedidos[..|pedidos| - 1];
      var p := pedidos[|pedidos| - 1];
      PorMesaAsWrittenFails(prefix);
      PorMesaBuckets(prefix);
      if exists i :: 0 <= i < |prefix| && prefix[i].mesa in InheritedNames {
        var i :| 0 <= i < |prefix| && prefix[i].mesa in InheritedNames;
        assert pedidos[i] == prefix[i];
      }
      if exists i :: 0 <= i < |pedidos| && pedidos[i].mesa in InheritedNames {
        var i :| 0 <= i < |pedidos| && pedidos[i].mesa in InheritedNames;
        if i < |prefix| {
          assert prefix[i] == pedidos[i];
        } else if PorMesaAsWritten(prefix).Some? {
          assert p.mesa !in PorMesa(prefix);
        }
      }
    }
  }

  /** A single order at a table named "constructor": the page as written
      fails, while the corrected record lists the order under its table. */
  lemma ConstructorTableExample()
    ensures var a := Pedido(1, Some("a"), "constructor", [PedidoItem(1, "Lomo", 1, 1000, Pendiente)], 10);
      PorMesaAsWritten([a]).None? && PorMesa([a]) == map["constructor" := [a]]
  {
    var a := Pedido(1, Some("a"), "constructor", [PedidoItem(1, "Lomo", 1, 1000, Pendiente)], 10);
    assert [a][..0] == [];
    assert PorMesa([a]) == map[]["constructor" := [] + [a]];
    assert [] + [a] == [a];
  }

  /** The till page and the admin page see the same tables with the same
      orders: every group of the admin page's `mesasMap` is an entry of
      `pedidosPorMesa`, and every key has a group. */
  lemma TablesAgree(pedidos: seq<Pedido>)
    ensures var g := Grouping.GroupBy(pedidos, MesaOf, Grouping.Same);
      (forall j :: 0 <= j < |g| ==> g[j].0 in PorMesa(pedidos) && PorMesa(pedidos)[g[j].0] == g[j].1) &&
      (forall m :: m in PorMesa(pedidos) ==> exists j :: 0 <= j < |g| && g[j].0 == m)
  {
    var g := Grouping.GroupBy(pedidos, MesaOf, Grouping.Same);
    PorMesaBuckets(pedidos);
    Grouping.GroupByBuckets(pedidos, MesaOf, Grouping.Same);
    Grouping.GroupByKeys(pedidos, MesaOf, Grouping.Same);
    forall j | 0 <= j < |g|
      ensures g[j].0 in PorMesa(pedidos)
    {
      if g[j].0 !in PorMesa(pedidos) {
        Grouping.BucketAbsent(pedidos, MesaOf, Grouping.Same, g[j].0);
      }
    }
    forall m | m in PorMesa(pedidos)
      ensures exists j :: 0 <= j < |g| && g[j].0 == m
    {
      var i :| 0 <= i < |pedidos| && pedidos[i].mesa == m;
      var j :| 0 <= j < |g| && g[j].0 == MesaOf(pedidos[i]);
    }
  }

  /** `calcularTotalMesa`: the bill of all the table's orders. */
  function CalcularTotalMesa(pedidosMesa: seq<Pedido>): (t: int)
    ensures t == BillTotal(pedidosMesa)
  {
    BillTotalIsSumOfOrders(pedidosMesa);
    SumBy(pedidosMesa, PedidoTotal)
  }

  /** Grouping by table and then filtering the orders by table agree. */
  lemma {:induction false} BucketIsFilter(pedidos: seq<Pedido>, m: string)
    ensures Grouping.Bucket(pedidos, MesaOf, Grouping.Same, m) == Filter(pedidos, AtMesa(m))
  {
    if pedidos != [] {
      var prefix := pedidos[..|pedidos| - 1];
      var p := pedidos[|pedidos| - 1];
      var last := if p.mesa == m then [p] else [];
      assert pedidos == prefix + [p];
      calc {
        Grouping.Bucket(pedidos, MesaOf, Grouping.Same, m);
        Grouping.Bucket(prefix, MesaOf, Grouping.Same, m) + last;
        { BucketIsFilter(prefix, m); }
        Filter(prefix, AtMesa(m)) + last;
        { assert [p][1..] == []; }
        Filter(prefix, AtMesa(m)) + Filter([p], AtMesa(m));
        { FilterAppend(prefix, [p], AtMesa(m)); }
        Filter(pedidos, AtMesa(m));
      }
    }
  }

  /** The amount field is shown only for a cash payment. */
  predicate AmountFieldShown(metodo: MetodoPago)
  {
    metodo == Efectivo
  }

  /** `ModalPago` of this page as written: it bills the one order it is
      given, refuses any method whose amount is short of the total, and
      records the amount typed as `pagadoCon`. */
  function CajaPaymentRequest(pedido: Pedido, metodo: MetodoPago, field: AmountField,
                              email: Option<string>): (d: PaymentDecision)
    ensures d.Insufficient? <==> !Sufficient(field, PedidoTotal(pedido))
    ensures !d.NoOrders?
    ensures d.Submit? ==>
      var i := d.input;
      i.total == PedidoTotal(pedido) && i.mesa == pedido.mesa && i.metodoPago == metodo &&
      i.pedidoId == PedidoKey(pedido) && i.cajero == CajeroOf(email) &&
      i.items == PagoItems(pedido.items) && Tendered(field) == Some(i.pagadoCon) && i.pagadoCon >= i.total
  {
    var total := PedidoTotal(pedido);
    if !Sufficient(field, total) then Insufficient
    else
      Submit(PagoInput(PedidoKey(pedido), pedido.mesa, total, Tendered(field).value, metodo,
                       CajeroOf(email), PagoItems(pedido.items)))
  }

  /** A card or transfer payment of an order with a positive bill cannot go
      through with the amount field it hides left empty: the button is
      enabled, and the submit refuses the payment as insufficient. */
  lemma CardPaymentRefused(pedido: Pedido, metodo: MetodoPago, email: Option<string>)
    requires PedidoTotal(pedido) > 0 && metodo != Efectivo
    ensures !AmountFieldShown(metodo)
    ensures SubmitEnabled(metodo, Blank, PedidoTotal(pedido))
    ensures CajaPaymentRequest(pedido, metodo, Blank, email) == Insufficient
  {
  }

  /** "Cobrar Mesa" opens the modal on the table's first order
      (`pedidosMesa[0]`), while the card shows, and `registrarPago` then
      deletes, all of the table's orders: with a second order of positive
      bill, the payment recorded is short of the table's bill by the other
      orders' bills. */
  lemma {:induction false} CobrarMesaBillsFirstOrderOnly(pedidosMesa: seq<Pedido>)
    requires |pedidosMesa| >= 2
    requires forall k :: 0 <= k < |pedidosMesa| ==> PedidoTotal(pedidosMesa[k]) >= 0
    requires exists k :: 1 <= k < |pedidosMesa| && PedidoTotal(pedidosMesa[k]) > 0
    ensures PedidoTotal(pedidosMesa[0]) < CalcularTotalMesa(pedidosMesa)
    ensures PedidoTotal(pedidosMesa[0]) + SumBy(pedidosMesa[1..], PedidoTotal) == CalcularTotalMesa(pedidosMesa)
  {
    var k :| 1 <= k < |pedidosMesa| && PedidoTotal(pedidosMesa[k]) > 0;
    var rest := pedidosMesa[1..];
    assert rest[k - 1] == pedidosMesa[k];
    PositiveTermPositiveSum(rest, k - 1);
  }

  lemma {:induction false} PositiveTermPositiveSum(s: seq<Pedido>, k: nat)
    requires k < |s|
    requires forall j :: 0 <= j < |s| ==> PedidoTotal(s[j]) >= 0
    requires PedidoTotal(s[k]) > 0
    ensures SumBy(s, PedidoTotal) > 0
  {
    if k == 0 {
      SumByNonNegative(s[1..], PedidoTotal);
    } else {
      PositiveTermPositiveSum(s[1..], k - 1);
    }
  }

  /** Two orders at table "1": the page's table total is 1500, a cash
      payment of 1000 through "Cobrar Mesa" is accepted and records a total
      of 1000, and deleting the table's orders removes both documents. */
  lemma TwoOrderTableExample()
    ensures var a := Pedido(1, Some("a"), "1", [PedidoItem(1, "Lomo", 1, 1000, Listo)], 10);
      var b := Pedido(2, Some("b"), "1", [PedidoItem(2, "Chicha", 1, 500, Listo)], 20);
      var porMesa := PorMesa([a, b]);
      var d := CajaPaymentRequest(porMesa["1"][0], Efectivo, Amount(1000), None);
      porMesa["1"] == [a, b] && CalcularTotalMesa(porMesa["1"]) == 1500 &&
      d.Submit? && d.input.total == 1000 && d.input.mesa == "1" &&
      PagosStore.RemoveMesa([PedidoDoc("a", "1", a.items, 10), PedidoDoc("b", "1", b.items, 20)], "1") == []
  {
    var a := Pedido(1, Some("a"), "1", [PedidoItem(1, "Lomo", 1, 1000, Listo)], 10);
    var b := Pedido(2, Some("b"), "1", [PedidoItem(2, "Chicha", 1, 500, Listo)], 20);
    assert [a, b][..1] == [a];
    assert [a][..0] == [];
    assert PorMesa([a]) == PorMesa([])["1" := [] + [a]];
    assert [] + [a] == [a];
    assert SumBy([b], PedidoTotal) == 500;
  }

  /** With the table's whole order list, the corrected payment bills the
      table's total, which is the bill of exactly the orders of that table
      (those `registrarPago` deletes), and a card or transfer payment always
      goes through, recorded as paying the exact total. */
  lemma CorrectedCobrarMesa(pedidos: seq<Pedido>, mesa: string, metodo: MetodoPago,
                            field: AmountField, email: Option<string>)
    requires mesa in PorMesa(pedidos)
    ensures var table := PorMesa(pedidos)[mesa];
      var d := TablePaymentRequest(table, mesa, metodo, field, email);
      table == Filter(pedidos, AtMesa(mesa)) &&
      (d.Submit? ==> d.input.total == CalcularTotalMesa(table) && d.input.mesa == mesa) &&
      (metodo != Efectivo ==> d.Submit? && d.input.pagadoCon == d.input.total)
  {
    PorMesaBuckets(pedidos);
    BucketIsFilter(pedidos, mesa);
  }

  /** "Cobrar Mesa" with the corrected modal: the whole table's orders are
      billed and paid in one payment, which deletes them. A failed save
      records nothing; a failed clean-up leaves the payment stored and the
      table's orders in place. */
  method CobrarMesa(store: PagosStore.Store, pedidos: seq<Pedido>, mesa: string, metodo: MetodoPago,
                    field: AmountField, email: Option<string>, db: Database, newDocId: string, now: int,
                    fault: PagosStore.PagoFault, refreshFault: Option<string>) returns (d: PaymentDecision)
    modifies store, db
    ensures d == TablePaymentRequest(if mesa in PorMesa(pedidos) then PorMesa(pedidos)[mesa] else [],
                                     mesa, metodo, field, email)
    ensures !d.Submit? ==> db.pagos == old(db.pagos) && db.pedidos == old(db.pedidos) && store.pagos == old(store.pagos)
    ensures d.Submit? && fault.NoFault? ==>
      db.pagos == old(db.pagos) + [PagosStore.NuevoPago(d.input, newDocId, now)] &&
      db.pedidos == PagosStore.RemoveMesa(old(db.pedidos), mesa)
    ensures d.Submit? && fault.SaveFails? ==>
      db.pagos == old(db.pagos) && db.pedidos == old(db.pedidos) &&
      store.pagos == old(store.pagos) && store.error == Some(fault.reason)
    ensures d.Submit? && fault.CleanupFails? ==>
      db.pagos == old(db.pagos) + [PagosStore.NuevoPago(d.input, newDocId, now)] &&
      db.pedidos == old(db.pedidos) && store.pagos == old(store.pagos) && store.error == Some(fault.reason)
    ensures db.sesiones == old(db.sesiones)
  {
    var porMesa := PedidosPorMesa(pedidos);
    var table := if mesa in porMesa then porMesa[mesa] else [];
    d := TablePaymentRequest(table, mesa, metodo, field, email);
    if d.Submit? {
      var r := store.RegistrarPago(d.input, db, newDocId, now, fault, refreshFault);
    }
  }

  /** "Historial de Pagos (Hoy)": today's payments in the store's order
      (newest first), at most ten. */
  function HistorialHoy(pagos: seq<Pago>, inicioDia: int): (r: seq<Pago>)
    ensures |r| == if |PagosStore.PagosDesde(pagos, inicioDia)| <= 10 then |PagosStore.PagosDesde(pagos, inicioDia)| else 10
    ensures r <= PagosStore.PagosDesde(pagos, inicioDia)
    ensures |PagosStore.PagosDesde(pagos, inicioDia)| <= 10 ==> r == PagosStore.PagosDesde(pagos, inicioDia)
    ensures forall k :: 0 <= k < |r| ==> r[k] in pagos && r[k].timestamp >= inicioDia
  {
    var hoy := PagosStore.PagosDesde(pagos, inicioDia);
    if |hoy| <= 10 then hoy else hoy[..10]
  }
}
