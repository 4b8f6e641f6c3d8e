/** What sales and refunds keep: the state of each sale says exactly how much of it came back,
    and each promotion counts exactly the sales that still use it. */
module VentasInvariante {
  import opened Comun
  import opened Sumas
  import opened Dinero
  import opened Kardex
  import opened Movimientos
  import opened Existencias
  import opened Inventario
  import opened Invariante
  import opened Promociones
  import opened Ventas

  // ------------------------------------------------------------------ the arithmetic of a line

  /** Net value, tax and fixed taxes of a line are its total. */
  predicate ImporteCuadra(c: LineaCalculada) {
    c.total == Valor(c.cantidad, c.valorUnitario) + c.montoImpuesto + c.montoOtrosTributos
  }

  /** However the tax is charged, the parts of a line add up. */
  lemma {:induction false} LineaSuma(l: LineaPedida, precio: real, almacen: Option<AlmacenId>, promos: seq<Promocion>, totalVenta: real)
    requires l.cantidad > 0.0
    ensures var c := CalcularLinea(l, precio, almacen, promos, totalVenta);
      && ImporteCuadra(c)
      && c.total == c.montoBruto - c.descuentoMonto + (if c.impuestoIncluido then 0.0 else c.montoImpuesto) + c.montoOtrosTributos
  {
    var c := CalcularLinea(l, precio, almacen, promos, totalVenta);
    var neto := c.montoBruto - c.descuentoMonto - (if c.impuestoIncluido then c.montoImpuesto else 0.0);
    EntreYPor(neto, l.cantidad);
  }

  lemma {:induction false} EntreYPor(neto: real, cantidad: real)
    requires cantidad > 0.0
    ensures Valor(cantidad, neto / cantidad) == neto
  {
  }

  ghost predicate LineaCalculadaBien(l: LineaPedida, c: LineaCalculada, ids: set<nat>) {
    c.variante == l.variante && c.cantidad == l.cantidad && ImporteCuadra(c) && IdsDe(c.descuentos) <= ids
  }

  lemma {:induction false} LineaBien(l: LineaPedida, precio: real, almacen: Option<AlmacenId>, promos: seq<Promocion>, totalVenta: real)
    requires l.cantidad > 0.0
    ensures LineaCalculadaBien(l, CalcularLinea(l, precio, almacen, promos, totalVenta), Ids(promos))
  {
    var lp := LineaPromo(l.productoId, l.cantidad, precio, Valor(l.cantidad, precio));
    LineaSuma(l, precio, almacen, promos, totalVenta);
    DetallesDeLaLista(promos, lp, totalVenta);
    assert CalcularLinea(l, precio, almacen, promos, totalVenta).descuentos == if |promos| == 0 then [] else Detalles(promos, lp, totalVenta);
  }

  lemma {:induction false} CalcularUna(vs: map<VarianteId, Variante>, promos: seq<Promocion>, totalVenta: real,
                                       almacenDefault: Option<AlmacenId>, previas: seq<LineaCalculada>, l: LineaPedida)
    requires l.cantidad > 0.0 && Calcular(vs, promos, totalVenta, almacenDefault)(previas, l).Ok?
    ensures var r := Calcular(vs, promos, totalVenta, almacenDefault)(previas, l).value;
      |r| == |previas| + 1 && r[..|previas|] == previas && LineaCalculadaBien(l, r[|previas|], Ids(promos))
  {
    var almacen := if vs[l.variante].isStockTracked then (if l.almacen.Some? then l.almacen else almacenDefault) else None;
    LineaBien(l, l.precio.value, almacen, promos, totalVenta);
    assert Calcular(vs, promos, totalVenta, almacenDefault)(previas, l).value
        == previas + [CalcularLinea(l, l.precio.value, almacen, promos, totalVenta)];
  }

  /** Every requested line is calculated, in order. */
  lemma {:induction false} CalcularTodas(vs: map<VarianteId, Variante>, promos: seq<Promocion>, totalVenta: real,
                                         almacenDefault: Option<AlmacenId>, ls: seq<LineaPedida>)
    requires forall i :: 0 <= i < |ls| ==> ls[i].cantidad > 0.0
    requires Plegar([], ls, Calcular(vs, promos, totalVenta, almacenDefault)).Ok?
    ensures var r := Plegar([], ls, Calcular(vs, promos, totalVenta, almacenDefault)).value;
      |r| == |ls| && forall i :: 0 <= i < |ls| ==> LineaCalculadaBien(ls[i], r[i], Ids(promos))
  {
    var n := |ls| - 1;
    if n >= 0 {
      CalcularTodas(vs, promos, totalVenta, almacenDefault, ls[..n]);
      var p := Plegar([], ls[..n], Calcular(vs, promos, totalVenta, almacenDefault)).value;
      var r := Plegar([], ls, Calcular(vs, promos, totalVenta, almacenDefault)).value;
      CalcularUna(vs, promos, totalVenta, almacenDefault, p, ls[n]);
      forall i | 0 <= i < |ls| ensures LineaCalculadaBien(ls[i], r[i], Ids(promos)) {
        if i < n {
          assert LineaCalculadaBien(ls[..n][i], p[i], Ids(promos)) && r[..n][i] == p[i];
        }
      }
    }
  }

  // ------------------------------------------------------------------ the invariant

  predicate Cuenta(v: Venta, p: nat) {
    p in Usadas(v.lineas) && v.estado != DEVUELTA
  }

  /** Sales that use promotion p and have not been returned in full. */
  function Usos(ventas: seq<Venta>, p: nat): nat {
    if |ventas| == 0 then 0 else Usos(ventas[..|ventas| - 1], p) + (if Cuenta(ventas[|ventas| - 1], p) then 1 else 0)
  }

  lemma {:induction false} UsosCambia(ventas: seq<Venta>, i: nat, v: Venta, p: nat)
    requires i < |ventas|
    ensures Usos(ventas[i := v], p)
         == Usos(ventas, p) - (if Cuenta(ventas[i], p) then 1 else 0) + (if Cuenta(v, p) then 1 else 0)
  {
    var n := |ventas| - 1;
    if i == n {
      assert ventas[i := v][..n] == ventas[..n];
    } else {
      UsosCambia(ventas[..n], i, v, p);
      assert ventas[i := v][..n] == ventas[..n][i := v];
    }
  }

  lemma {:induction false} UsosAlMenos(ventas: seq<Venta>, i: nat, p: nat)
    requires i < |ventas| && Cuenta(ventas[i], p)
    ensures Usos(ventas, p) >= 1
  {
    if i < |ventas| - 1 {
      UsosAlMenos(ventas[..|ventas| - 1], i, p);
    }
  }

  ghost predicate VentaBien(v: Venta, reembolsos: seq<Reembolso>, i: nat) {
    && |v.lineas| > 0 && (forall l :: 0 <= l < |v.lineas| ==> v.lineas[l].cantidad > 0.0)
    && (v.estado == DEVUELTA <==> Todo(v, reembolsos, i))
    && (v.estado == DEVUELTA_PARCIALMENTE <==> Algo(v, reembolsos, i) && !Todo(v, reembolsos, i))
  }

  ghost predicate ReembolsoBien(r: Reembolso, n: nat) {
    && r.venta < n && |r.lineas| > 0
    && (forall j :: 0 <= j < |r.lineas| ==> r.lineas[j].cantidad > 0.0)
  }

  ghost predicate UsosCuadran(s: EstadoVentas) {
    && (forall p :: 0 <= p < |s.promociones| ==> s.promociones[p].usoActual == Usos(s.ventas, p))
    && (forall i, p :: 0 <= i < |s.ventas| && p in Usadas(s.ventas[i].lineas) ==> p < |s.promociones|)
  }

  ghost predicate VentasBien(s: EstadoVentas) {
    && Valido(s.inv)
    && (forall i :: 0 <= i < |s.ventas| ==> VentaBien(s.ventas[i], s.reembolsos, i))
    && (forall j :: 0 <= j < |s.reembolsos| ==> ReembolsoBien(s.reembolsos[j], |s.ventas|))
    && UsosCuadran(s)
  }

  // ------------------------------------------------------------------ a sale

  lemma {:induction false} VigentesBien(filas: seq<FilaPromocion>, ids: set<nat>, activas: set<nat>, id: nat)
    requires id in Ids(CargarVigentes(filas, ids, activas))
    ensures id < |filas| && id in ids && id in activas
    ensures filas[id].usoMaximo.Some? ==> filas[id].usoActual < filas[id].usoMaximo.value
  {
    var n := |filas| - 1;
    var previas := CargarVigentes(filas[..n], ids, activas);
    if id in Ids(previas) {
      VigentesBien(filas[..n], ids, activas, id);
    } else {
      assert id == n;
    }
  }

  lemma {:induction false} UsadasDe(lineas: seq<LineaCalculada>, ids: set<nat>)
    requires forall i :: 0 <= i < |lineas| ==> IdsDe(lineas[i].descuentos) <= ids
    ensures Usadas(lineas) <= ids
  {
    if |lineas| > 0 {
      UsadasDe(lineas[..|lineas| - 1], ids);
    }
  }

  lemma {:induction false} NadaDevuelto(reembolsos: seq<Reembolso>, n: nat, venta: nat, l: nat)
    requires forall j :: 0 <= j < |reembolsos| ==> ReembolsoBien(reembolsos[j], n)
    requires n <= venta
    ensures Devuelto(reembolsos, venta, l) == 0.0
  {
    forall j | 0 <= j < |reembolsos| ensures DevueltoEn(venta, l)(reembolsos[j]) == 0.0 {
      assert ReembolsoBien(reembolsos[j], n);
    }
    SumaNula(reembolsos, DevueltoEn(venta, l));
  }

  lemma {:induction false} ReembolsosCrecen(reembolsos: seq<Reembolso>, n: nat, m: nat)
    requires forall j :: 0 <= j < |reembolsos| ==> ReembolsoBien(reembolsos[j], n)
    requires n <= m
    ensures forall j :: 0 <= j < |reembolsos| ==> ReembolsoBien(reembolsos[j], m)
  {
    forall j | 0 <= j < |reembolsos| ensures ReembolsoBien(reembolsos[j], m) {
      assert ReembolsoBien(reembolsos[j], n);
    }
  }

  lemma {:induction false} VentaNuevaBien(s: EstadoVentas, p: PedidoVenta, lineas: seq<LineaCalculada>)
    requires forall j :: 0 <= j < |s.reembolsos| ==> ReembolsoBien(s.reembolsos[j], |s.ventas|)
    requires |lineas| > 0 && forall l :: 0 <= l < |lineas| ==> lineas[l].cantidad > 0.0
    ensures VentaBien(VentaDe(p, lineas), s.reembolsos, |s.ventas|)
  {
    var v := VentaDe(p, lineas);
    forall l: nat ensures Devuelto(s.reembolsos, |s.ventas|, l) == 0.0 {
      NadaDevuelto(s.reembolsos, |s.ventas|, |s.ventas|, l);
    }
    assert !LineaCompleta(v, s.reembolsos, |s.ventas|, 0);
  }

  /** The calculated lines have the quantities asked for and use only promotions with uses left. */
  lemma {:induction false} LineasBien(s: EstadoVentas, p: PedidoVenta)
    requires CalcularLineas(s, p).Ok? && forall i :: 0 <= i < |p.lineas| ==> p.lineas[i].cantidad > 0.0
    ensures var lineas := CalcularLineas(s, p).value;
      && |lineas| == |p.lineas|
      && (forall i :: 0 <= i < |lineas| ==> lineas[i].cantidad == p.lineas[i].cantidad && ImporteCuadra(lineas[i]))
      && Usadas(lineas) <= Ids(CargarVigentes(s.promociones, p.promocionIds, p.activas))
  {
    var promos := CargarVigentes(s.promociones, p.promocionIds, p.activas);
    var totalVenta := Plegar(0.0, p.lineas, SumarBruto(s.inv.variantes)).value;
    var lineas := CalcularLineas(s, p).value;
    CalcularTodas(s.inv.variantes, promos, totalVenta, p.almacenDefault, p.lineas);
    forall i | 0 <= i < |lineas|
      ensures lineas[i].cantidad == p.lineas[i].cantidad && ImporteCuadra(lineas[i]) && IdsDe(lineas[i].descuentos) <= Ids(promos) {
      assert LineaCalculadaBien(p.lineas[i], lineas[i], Ids(promos));
    }
    UsadasDe(lineas, Ids(promos));
  }

  /** A sale uses only confirmed promotions that are in force and have uses left. */
  lemma {:induction false} CrearUsa(s: EstadoVentas, p: PedidoVenta, id: nat)
    requires CalcularLineas(s, p).Ok? && forall i :: 0 <= i < |p.lineas| ==> p.lineas[i].cantidad > 0.0
    requires id in Usadas(CalcularLineas(s, p).value)
    ensures id < |s.promociones| && id in p.promocionIds && id in p.activas
    ensures s.promociones[id].usoMaximo.Some? ==> s.promociones[id].usoActual < s.promociones[id].usoMaximo.value
  {
    LineasBien(s, p);
    VigentesBien(s.promociones, p.promocionIds, p.activas, id);
  }

  lemma {:induction false} TrasVender(s: EstadoVentas, p: PedidoVenta, lineas: seq<LineaCalculada>, inv: Estado)
    requires VentasBien(s) && |p.lineas| > 0 && forall i :: 0 <= i < |p.lineas| ==> p.lineas[i].cantidad > 0.0
    requires CalcularLineas(s, p) == Ok(lineas) && Valido(inv)
    ensures VentasBien(EstadoVentas(inv, s.ventas + [VentaDe(p, lineas)], s.reembolsos, ContarUsos(s.promociones, Usadas(lineas))))
  {
    LineasBien(s, p);
    VentaNuevaBien(s, p, lineas);
    ReembolsosCrecen(s.reembolsos, |s.ventas|, |s.ventas| + 1);
    forall q | q in Usadas(lineas) ensures q < |s.promociones| {
      CrearUsa(s, p, q);
    }
    UsosTrasVender(s, EstadoVentas(inv, s.ventas + [VentaDe(p, lineas)], s.reembolsos, ContarUsos(s.promociones, Usadas(lineas))), VentaDe(p, lineas));
  }

  lemma {:induction false} CrearMantiene(s: EstadoVentas, p: PedidoVenta)
    requires VentasBien(s) && Crear(s, p).Ok?
    ensures VentasBien(Crear(s, p).value)
  {
    if !VentaConClave(s.ventas, p.clave) {
      var lineas := CalcularLineas(s, p).value;
      VenderMantiene(s.inv, |s.ventas|, LineasConStock(lineas), p.hoy);
      TrasVender(s, p, lineas, Vender(s.inv, |s.ventas|, LineasConStock(lineas), p.hoy).value);
    }
  }

  lemma {:induction false} UsosTrasVender(s: EstadoVentas, s': EstadoVentas, v: Venta)
    requires UsosCuadran(s) && s'.ventas == s.ventas + [v] && v.estado != DEVUELTA
    requires s'.promociones == ContarUsos(s.promociones, Usadas(v.lineas))
    requires forall q :: q in Usadas(v.lineas) ==> q < |s.promociones|
    ensures UsosCuadran(s')
  {
    assert s'.ventas[..|s.ventas|] == s.ventas;
  }

  // ------------------------------------------------------------------ a refund

  predicate DevueltaBien(v: Venta, reembolsos: seq<Reembolso>, venta: nat, it: ItemDevolucion, d: LineaDevuelta) {
    && it.linea < |v.lineas| && d == DevolverLinea(v.lineas[it.linea], it)
    && it.cantidad + Devuelto(reembolsos, venta, it.linea) <= v.lineas[it.linea].cantidad
  }

  lemma {:induction false} CalcularDevueltas(v: Venta, reembolsos: seq<Reembolso>, venta: nat, items: seq<ItemDevolucion>)
    requires Plegar([], items, CalcularDevuelta(v, reembolsos, venta)).Ok?
    ensures var r := Plegar([], items, CalcularDevuelta(v, reembolsos, venta)).value;
      |r| == |items| && forall j :: 0 <= j < |items| ==> DevueltaBien(v, reembolsos, venta, items[j], r[j])
  {
    var n := |items| - 1;
    if n >= 0 {
      CalcularDevueltas(v, reembolsos, venta, items[..n]);
      var p := Plegar([], items[..n], CalcularDevuelta(v, reembolsos, venta)).value;
      var r := Plegar([], items, CalcularDevuelta(v, reembolsos, venta)).value;
      forall j | 0 <= j < |items| ensures DevueltaBien(v, reembolsos, venta, items[j], r[j]) {
        if j < n {
          assert DevueltaBien(v, reembolsos, venta, items[..n][j], p[j]) && r[j] == p[j];
        }
      }
    }
  }

  lemma {:induction false} ReposicionesSiguen(k: Kardex, vs: map<VarianteId, Variante>, v: Venta, devolucion: nat,
                                             almacenDefault: Option<AlmacenId>, items: seq<ItemDevolucion>)
    requires Cuadra(k) && Firme(k, vs) && forall i :: 0 <= i < |items| ==> items[i].cantidad > 0.0
    requires Plegar(k, items, ReponerLinea(vs, v, devolucion, almacenDefault)).Ok?
    ensures var k' := Plegar(k, items, ReponerLinea(vs, v, devolucion, almacenDefault)).value;
      Sigue(k, k', vs) && SinLotes(k.ledger, k'.ledger)
  {
    var n := |items| - 1;
    if n < 0 {
      SigueReflexiva(k, vs);
    } else {
      ReposicionesSiguen(k, vs, v, devolucion, almacenDefault, items[..n]);
      var p := Plegar(k, items[..n], ReponerLinea(vs, v, devolucion, almacenDefault)).value;
      var it, variante := items[n], v.lineas[items[n].linea].variante;
      if it.restock.GetOr(true) && vs[variante].isStockTracked {
        var almacen := if it.almacen.Some? then it.almacen else almacenDefault;
        var c := Celda(almacen.value, variante);
        ReingresarSigue(p, c, it.cantidad, devolucion, vs);
        SigueTransitiva(k, p, Reingresar(p, c, it.cantidad, devolucion).value, vs);
      }
    }
  }

  /** A refund adds its own lines to what was returned of its sale and of no other. */
  lemma {:induction false} DevueltoTras(reembolsos: seq<Reembolso>, r: Reembolso, venta: nat, l: nat)
    ensures Devuelto(reembolsos + [r], venta, l) == Devuelto(reembolsos, venta, l) + DevueltoEn(venta, l)(r)
  {
  }

  lemma {:induction false} DevueltoNoBaja(r: Reembolso, venta: nat, l: nat, n: nat)
    requires ReembolsoBien(r, n)
    ensures DevueltoEn(venta, l)(r) >= 0.0
  {
    SumaNoNegativa(r.lineas, CantidadDeLinea(l));
  }

  lemma {:induction false} DevuelveAlgo(r: Reembolso, n: nat)
    requires ReembolsoBien(r, n)
    ensures DevueltoEn(r.venta, r.lineas[0].linea)(r) > 0.0
  {
    SumaAcota(r.lineas, 0, CantidadDeLinea(r.lineas[0].linea));
  }

  lemma {:induction false} DevueltoNoNegativo(reembolsos: seq<Reembolso>, n: nat, venta: nat, l: nat)
    requires forall j :: 0 <= j < |reembolsos| ==> ReembolsoBien(reembolsos[j], n)
    ensures Devuelto(reembolsos, venta, l) >= 0.0
  {
    forall j | 0 <= j < |reembolsos| ensures DevueltoEn(venta, l)(reembolsos[j]) >= 0.0 {
      assert ReembolsoBien(reembolsos[j], n);
      DevueltoNoBaja(reembolsos[j], venta, l, n);
    }
    SumaNoNegativa(reembolsos, DevueltoEn(venta, l));
  }

  /** The sale the refund is about. */
  lemma {:induction false} VentaDevuelta(s: EstadoVentas, v: Venta, r: Reembolso)
    requires VentasBien(s) && r.venta < |s.ventas| && s.ventas[r.venta] == v && ReembolsoBien(r, |s.ventas|)
    requires r.lineas[0].linea < |v.lineas|
    ensures var rs := s.reembolsos + [r];
      && Algo(v, rs, r.venta)
      && VentaBien(v.(estado := EstadoTrasDevolver(v, rs, r.venta)), rs, r.venta)
  {
    var rs, l := s.reembolsos + [r], r.lineas[0].linea;
    assert VentaBien(v, s.reembolsos, r.venta);
    DevuelveAlgo(r, |s.ventas|);
    DevueltoNoNegativo(s.reembolsos, |s.ventas|, r.venta, l);
    DevueltoTras(s.reembolsos, r, r.venta, l);
    assert Devuelto(rs, r.venta, l) > 0.0;
    var v' := v.(estado := EstadoTrasDevolver(v, rs, r.venta));
    assert Todo(v', rs, r.venta) <==> Todo(v, rs, r.venta) by {
      assert forall i :: 0 <= i < |v.lineas| ==> (LineaCompleta(v', rs, r.venta, i) <==> LineaCompleta(v, rs, r.venta, i));
    }
    assert Algo(v', rs, r.venta) <==> Algo(v, rs, r.venta);
  }

  lemma {:induction false} OtraVenta(v: Venta, reembolsos: seq<Reembolso>, r: Reembolso, i: nat)
    requires VentaBien(v, reembolsos, i) && i != r.venta
    ensures VentaBien(v, reembolsos + [r], i)
  {
    forall l: nat ensures Devuelto(reembolsos + [r], i, l) == Devuelto(reembolsos, i, l) {
      DevueltoTras(reembolsos, r, i, l);
    }
    assert Todo(v, reembolsos + [r], i) <==> Todo(v, reembolsos, i) by {
      assert forall l :: 0 <= l < |v.lineas| ==> (LineaCompleta(v, reembolsos + [r], i, l) <==> LineaCompleta(v, reembolsos, i, l));
    }
  }

  lemma {:induction false} UsosTrasDevolver(s: EstadoVentas, i: nat, v': Venta, todo: bool)
    requires UsosCuadran(s) && i < |s.ventas| && s.ventas[i].estado != DEVUELTA
    requires v'.lineas == s.ventas[i].lineas && (v'.estado == DEVUELTA <==> todo)
    ensures var s' := s.(ventas := s.ventas[i := v'],
                         promociones := if todo then LiberarUsos(s.promociones, Usadas(v'.lineas)) else s.promociones);
      UsosCuadran(s')
  {
    var s' := s.(ventas := s.ventas[i := v'],
                 promociones := if todo then LiberarUsos(s.promociones, Usadas(v'.lineas)) else s.promociones);
    forall p | 0 <= p < |s'.promociones| ensures s'.promociones[p].usoActual == Usos(s'.ventas, p) {
      UsosCambia(s.ventas, i, v', p);
      if Cuenta(s.ventas[i], p) {
        UsosAlMenos(s.ventas, i, p);
      }
    }
  }

  lemma {:induction false} ReembolsoNuevo(s: EstadoVentas, p: PedidoDevolucion, lineas: seq<LineaDevuelta>)
    requires p.venta < |s.ventas| && |p.items| > 0 && forall i :: 0 <= i < |p.items| ==> p.items[i].cantidad > 0.0
    requires Plegar([], p.items, CalcularDevuelta(s.ventas[p.venta], s.reembolsos, p.venta)) == Ok(lineas)
    ensures ReembolsoBien(ReembolsoDe(p, lineas), |s.ventas|)
    ensures lineas[0].linea < |s.ventas[p.venta].lineas| && !LineaCompleta(s.ventas[p.venta], s.reembolsos, p.venta, lineas[0].linea)
  {
    var v := s.ventas[p.venta];
    CalcularDevueltas(v, s.reembolsos, p.venta, p.items);
    assert DevueltaBien(v, s.reembolsos, p.venta, p.items[0], lineas[0]);
    forall j | 0 <= j < |lineas| ensures lineas[j].cantidad > 0.0 {
      assert DevueltaBien(v, s.reembolsos, p.venta, p.items[j], lineas[j]);
    }
  }

  lemma {:induction false} VentasTrasDevolver(s: EstadoVentas, r: Reembolso, ventas: seq<Venta>)
    requires VentasBien(s) && ReembolsoBien(r, |s.ventas|) && r.lineas[0].linea < |s.ventas[r.venta].lineas|
    requires var v := s.ventas[r.venta];
      ventas == s.ventas[r.venta := v.(estado := EstadoTrasDevolver(v, s.reembolsos + [r], r.venta))]
    ensures forall i :: 0 <= i < |ventas| ==> VentaBien(ventas[i], s.reembolsos + [r], i)
  {
    VentaDevuelta(s, s.ventas[r.venta], r);
    forall i | 0 <= i < |ventas| ensures VentaBien(ventas[i], s.reembolsos + [r], i) {
      if i != r.venta {
        OtraVenta(s.ventas[i], s.reembolsos, r, i);
      }
    }
  }

  lemma {:induction false} TrasDevolver(s: EstadoVentas, r: Reembolso, inv: Estado)
    requires VentasBien(s) && Valido(inv) && ReembolsoBien(r, |s.ventas|)
    requires r.lineas[0].linea < |s.ventas[r.venta].lineas|
          && !LineaCompleta(s.ventas[r.venta], s.reembolsos, r.venta, r.lineas[0].linea)
    ensures var v, rs := s.ventas[r.venta], s.reembolsos + [r];
      VentasBien(EstadoVentas(inv, s.ventas[r.venta := v.(estado := EstadoTrasDevolver(v, rs, r.venta))], rs,
                              if Todo(v, rs, r.venta) then LiberarUsos(s.promociones, Usadas(v.lineas)) else s.promociones))
  {
    var v, rs := s.ventas[r.venta], s.reembolsos + [r];
    var v' := v.(estado := EstadoTrasDevolver(v, rs, r.venta));
    var todo := Todo(v, rs, r.venta);
    assert v.estado != DEVUELTA by {
      assert VentaBien(v, s.reembolsos, r.venta);
    }
    assert Algo(v, rs, r.venta) by {
      VentaDevuelta(s, v, r);
    }
    UsosTrasDevolver(s, r.venta, v', todo);
    VentasTrasDevolver(s, r, s.ventas[r.venta := v']);
    assert forall j :: 0 <= j < |s.reembolsos| ==> rs[j] == s.reembolsos[j];
  }

  lemma {:induction false} DevolverMantiene(s: EstadoVentas, p: PedidoDevolucion)
    requires VentasBien(s) && Devolver(s, p).Ok?
    ensures VentasBien(Devolver(s, p).value)
  {
    if !ReembolsoConClave(s.reembolsos, p.clave) {
      var inv, v := Devolver(s, p).value.inv, s.ventas[p.venta];
      var lineas := Plegar([], p.items, CalcularDevuelta(v, s.reembolsos, p.venta)).value;
      ReembolsoNuevo(s, p, lineas);
      ReposicionesSiguen(s.inv.kardex, s.inv.variantes, v, |s.reembolsos|, p.almacenDefault, p.items);
      SoloKardexMantiene(s.inv, inv.kardex);
      TrasDevolver(s, ReembolsoDe(p, lineas), inv);
    }
  }
}
