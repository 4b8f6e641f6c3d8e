/** Runs of sales, refunds, promotion edits and stock requests, and what refunds may and may not
    give back: quantities, money and promotion uses. */
module VentasCorridas {
  import opened Comun
  import opened Sumas
  import opened Dinero
  import opened Kardex
  import opened Inventario
  import opened Invariante
  import opened Corridas
  import opened Promociones
  import opened Ventas
  import opened VentasInvariante

  datatype PeticionVentas =
    | VStock(peticion: Peticion)
    | VVenta(pedido: PedidoVenta)
    | VDevolver(devolucion: PedidoDevolucion)
    | VPromocionNueva(promo: Promocion, usoMaximo: Option<int>)
    | VPromocionEditada(id: nat, promo: Promocion, usoMaximo: Option<int>)

  /** Stock leaves by sale and comes back by refund only as part of a sale or a refund. */
  function AtenderVentas(s: EstadoVentas, p: PeticionVentas): Resultado<EstadoVentas> {
    match p
    case VStock(q) => if q.PVenta? || q.PDevolucion? then Err(Invalido) else Ok(s.(inv := Paso(s.inv, q)))
    case VVenta(q) => Crear(s, q)
    case VDevolver(q) => Devolver(s, q)
    case VPromocionNueva(promo, m) => Ok(CrearPromocion(s, promo, m))
    case VPromocionEditada(id, promo, m) => EditarPromocion(s, id, promo, m)
  }

  function PasoVentas(s: EstadoVentas, p: PeticionVentas): EstadoVentas {
    AtenderVentas(s, p).GetOr(s)
  }

  function CorrerVentas(s: EstadoVentas, ps: seq<PeticionVentas>): EstadoVentas {
    if |ps| == 0 then s else PasoVentas(CorrerVentas(s, ps[..|ps| - 1]), ps[|ps| - 1])
  }

  lemma {:induction false} PromocionNuevaMantiene(s: EstadoVentas, promo: Promocion, m: Option<int>)
    requires VentasBien(s)
    ensures VentasBien(CrearPromocion(s, promo, m))
  {
    SinUsos(s, s.ventas);
  }

  /** No sale uses a promotion that does not exist yet. */
  lemma {:induction false} SinUsos(s: EstadoVentas, ventas: seq<Venta>)
    requires UsosCuadran(s) && ventas <= s.ventas
    ensures Usos(ventas, |s.promociones|) == 0
  {
    if |ventas| > 0 {
      SinUsos(s, ventas[..|ventas| - 1]);
      assert ventas[|ventas| - 1] == s.ventas[|ventas| - 1];
    }
  }

  lemma {:induction false} PasoVentasMantiene(s: EstadoVentas, p: PeticionVentas)
    requires VentasBien(s)
    ensures VentasBien(PasoVentas(s, p))
  {
    if AtenderVentas(s, p).Ok? {
      match p
      case VStock(q) => PasoMantiene(s.inv, q);
      case VVenta(q) => CrearMantiene(s, q);
      case VDevolver(q) => DevolverMantiene(s, q);
      case VPromocionNueva(promo, m) => PromocionNuevaMantiene(s, promo, m);
      case VPromocionEditada(_, _, _) =>
    }
  }

  lemma {:induction false} CorrerVentasMantiene(ps: seq<PeticionVentas>)
    ensures VentasBien(CorrerVentas(VENTAS_INICIAL, ps))
  {
    if |ps| == 0 {
      InicialValido();
    } else {
      CorrerVentasMantiene(ps[..|ps| - 1]);
      PasoVentasMantiene(CorrerVentas(VENTAS_INICIAL, ps[..|ps| - 1]), ps[|ps| - 1]);
    }
  }

  /** After any run a promotion counts exactly the sales that used it and are not DEVUELTA. */
  lemma {:induction false} UsosSiempreExactos(ps: seq<PeticionVentas>)
    ensures var s := CorrerVentas(VENTAS_INICIAL, ps);
      forall id :: 0 <= id < |s.promociones| ==> s.promociones[id].usoActual == Usos(s.ventas, id)
  {
    CorrerVentasMantiene(ps);
  }

  /** After any run a sale is DEVUELTA exactly when every line has come back in full, and
      DEVUELTA_PARCIALMENTE exactly when something has but not everything. */
  lemma {:induction false} EstadoSiempreExacto(ps: seq<PeticionVentas>, i: nat)
    ensures var s := CorrerVentas(VENTAS_INICIAL, ps);
      i < |s.ventas| ==>
      var v := s.ventas[i];
      && (v.estado == DEVUELTA <==> forall l :: 0 <= l < |v.lineas| ==> Devuelto(s.reembolsos, i, l) >= v.lineas[l].cantidad)
      && (v.estado == DEVUELTA_PARCIALMENTE <==>
            (exists l :: 0 <= l < |v.lineas| && Devuelto(s.reembolsos, i, l) > 0.0)
            && (exists l :: 0 <= l < |v.lineas| && Devuelto(s.reembolsos, i, l) < v.lineas[l].cantidad))
  {
    CorrerVentasMantiene(ps);
    var s := CorrerVentas(VENTAS_INICIAL, ps);
    if i < |s.ventas| {
      var v := s.ventas[i];
      assert VentaBien(v, s.reembolsos, i);
      assert Todo(v, s.reembolsos, i) <==> forall l :: 0 <= l < |v.lineas| ==> Devuelto(s.reembolsos, i, l) >= v.lineas[l].cantidad by {
        assert forall l :: 0 <= l < |v.lineas| ==> (LineaCompleta(v, s.reembolsos, i, l) <==> Devuelto(s.reembolsos, i, l) >= v.lineas[l].cantidad);
      }
    }
  }

  // ------------------------------------------------------------------ the usage limit

  ghost predicate DentroDelTope(s: EstadoVentas) {
    forall id :: 0 <= id < |s.promociones| && s.promociones[id].usoMaximo.Some? ==>
      s.promociones[id].usoActual <= s.promociones[id].usoMaximo.value
  }

  /** The request neither starts a promotion below zero uses nor lowers a limit. */
  predicate NoBajaElTope(s: EstadoVentas, p: PeticionVentas) {
    match p
    case VPromocionNueva(_, m) => m.None? || m.value >= 0
    case VPromocionEditada(id, _, m) =>
      id < |s.promociones| && m.Some? ==> s.promociones[id].usoMaximo.Some? && s.promociones[id].usoMaximo.value <= m.value
    case _ => true
  }

  predicate NuncaBajaElTope(ps: seq<PeticionVentas>) {
    |ps| > 0 ==>
      NuncaBajaElTope(ps[..|ps| - 1]) && NoBajaElTope(CorrerVentas(VENTAS_INICIAL, ps[..|ps| - 1]), ps[|ps| - 1])
  }

  lemma {:induction false} VenderRespetaTope(s: EstadoVentas, p: PedidoVenta)
    requires DentroDelTope(s) && Crear(s, p).Ok?
    ensures DentroDelTope(Crear(s, p).value)
  {
    if !VentaConClave(s.ventas, p.clave) {
      var usadas := Usadas(CalcularLineas(s, p).value);
      forall id | 0 <= id < |s.promociones| && id in usadas && s.promociones[id].usoMaximo.Some?
        ensures s.promociones[id].usoActual < s.promociones[id].usoMaximo.value {
        CrearUsa(s, p, id);
      }
    }
  }

  lemma {:induction false} PasoRespetaTope(s: EstadoVentas, p: PeticionVentas)
    requires DentroDelTope(s) && NoBajaElTope(s, p)
    ensures DentroDelTope(PasoVentas(s, p))
  {
    if AtenderVentas(s, p).Ok? {
      match p
      case VVenta(q) => VenderRespetaTope(s, q);
      case VDevolver(q) =>
      case _ =>
    }
  }

  /** As long as no limit is lowered, no promotion is ever used more often than it allows. */
  lemma {:induction false} UsosDentroDelTope(ps: seq<PeticionVentas>)
    requires NuncaBajaElTope(ps)
    ensures DentroDelTope(CorrerVentas(VENTAS_INICIAL, ps))
  {
    if |ps| > 0 {
      UsosDentroDelTope(ps[..|ps| - 1]);
      PasoRespetaTope(CorrerVentas(VENTAS_INICIAL, ps[..|ps| - 1]), ps[|ps| - 1]);
    }
  }

  // ------------------------------------------------------------------ quantities returned

  ghost predicate CadaLineaUnaVez(items: seq<ItemDevolucion>) {
    forall i, j :: 0 <= i < j < |items| ==> items[i].linea != items[j].linea
  }

  function Pedida(l: nat): ItemDevolucion -> real {
    (it: ItemDevolucion) => if it.linea == l then it.cantidad else 0.0
  }

  lemma {:induction false} DevueltasSuman(v: Venta, reembolsos: seq<Reembolso>, venta: nat, items: seq<ItemDevolucion>, l: nat)
    requires Plegar([], items, CalcularDevuelta(v, reembolsos, venta)).Ok?
    ensures Suma(Plegar([], items, CalcularDevuelta(v, reembolsos, venta)).value, CantidadDeLinea(l)) == Suma(items, Pedida(l))
  {
    if |items| > 0 {
      var n := |items| - 1;
      DevueltasSuman(v, reembolsos, venta, items[..n], l);
      var p := Plegar([], items[..n], CalcularDevuelta(v, reembolsos, venta)).value;
    }
  }

  predicate EsNueva(s: EstadoVentas, p: PedidoDevolucion) {
    !ReembolsoConClave(s.reembolsos, p.clave)
  }

  /** A refund adds to each line of its sale exactly what the request names of it. */
  lemma {:induction false} DevolverSuma(s: EstadoVentas, p: PedidoDevolucion, i: nat, l: nat)
    requires Devolver(s, p).Ok? && EsNueva(s, p)
    ensures Devuelto(Devolver(s, p).value.reembolsos, i, l)
         == Devuelto(s.reembolsos, i, l) + (if i == p.venta then Suma(p.items, Pedida(l)) else 0.0)
  {
    var v := s.ventas[p.venta];
    var lineas := Plegar([], p.items, CalcularDevuelta(v, s.reembolsos, p.venta)).value;
    DevueltasSuman(v, s.reembolsos, p.venta, p.items, l);
    DevueltoTras(s.reembolsos, ReembolsoDe(p, lineas), i, l);
  }

  /** "Never more than was sold" holds of a line after a refund if and only if the request asks
      in total for no more than was pending; the service checks each item by itself. */
  lemma {:induction false} NoSobredevuelveSii(s: EstadoVentas, p: PedidoDevolucion, l: nat)
    requires Devolver(s, p).Ok? && EsNueva(s, p) && l < |s.ventas[p.venta].lineas|
    ensures var vendida := s.ventas[p.venta].lineas[l].cantidad;
      (Devuelto(Devolver(s, p).value.reembolsos, p.venta, l) <= vendida) <==>
      (Suma(p.items, Pedida(l)) <= vendida - Devuelto(s.reembolsos, p.venta, l))
  {
    DevolverSuma(s, p, p.venta, l);
  }

  lemma {:induction false} PedidaUnaVez(items: seq<ItemDevolucion>, l: nat)
    requires CadaLineaUnaVez(items)
    ensures forall j :: 0 <= j < |items| && items[j].linea == l ==> Suma(items, Pedida(l)) == items[j].cantidad
    ensures (forall j :: 0 <= j < |items| ==> items[j].linea != l) ==> Suma(items, Pedida(l)) == 0.0
  {
    if |items| > 0 {
      PedidaUnaVez(items[..|items| - 1], l);
    }
  }

  ghost predicate SinSobredevolver(s: EstadoVentas) {
    forall i, l :: 0 <= i < |s.ventas| && 0 <= l < |s.ventas[i].lineas| ==>
      Devuelto(s.reembolsos, i, l) <= s.ventas[i].lineas[l].cantidad
  }

  lemma {:induction false} DevolverSinExceso(s: EstadoVentas, p: PedidoDevolucion)
    requires SinSobredevolver(s) && Devolver(s, p).Ok? && CadaLineaUnaVez(p.items)
    ensures SinSobredevolver(Devolver(s, p).value)
  {
    if EsNueva(s, p) {
      var s' := Devolver(s, p).value;
      forall i, l | 0 <= i < |s'.ventas| && 0 <= l < |s'.ventas[i].lineas|
        ensures Devuelto(s'.reembolsos, i, l) <= s'.ventas[i].lineas[l].cantidad {
        assert Devuelto(s.reembolsos, i, l) <= s.ventas[i].lineas[l].cantidad;
        DevolverSuma(s, p, i, l);
        if i == p.venta {
          PedidaCabe(s, p, l);
        }
      }
    }
  }

  lemma {:induction false} PedidaCabe(s: EstadoVentas, p: PedidoDevolucion, l: nat)
    requires Devolver(s, p).Ok? && EsNueva(s, p) && CadaLineaUnaVez(p.items) && l < |s.ventas[p.venta].lineas|
    requires Devuelto(s.reembolsos, p.venta, l) <= s.ventas[p.venta].lineas[l].cantidad
    ensures Suma(p.items, Pedida(l)) + Devuelto(s.reembolsos, p.venta, l) <= s.ventas[p.venta].lineas[l].cantidad
  {
    var v := s.ventas[p.venta];
    PedidaUnaVez(p.items, l);
    CalcularDevueltas(v, s.reembolsos, p.venta, p.items);
    if exists j :: 0 <= j < |p.items| && p.items[j].linea == l {
      var j :| 0 <= j < |p.items| && p.items[j].linea == l;
      var r := Plegar([], p.items, CalcularDevuelta(v, s.reembolsos, p.venta)).value;
      assert DevueltaBien(v, s.reembolsos, p.venta, p.items[j], r[j]);
    }
  }

  predicate DevuelveLineasUnaVez(p: PeticionVentas) {
    p.VDevolver? ==> forall i, j :: 0 <= i < j < |p.devolucion.items| ==> p.devolucion.items[i].linea != p.devolucion.items[j].linea
  }

  lemma {:induction false} VenderSinExceso(s: EstadoVentas, p: PedidoVenta)
    requires VentasBien(s) && SinSobredevolver(s) && Crear(s, p).Ok?
    ensures SinSobredevolver(Crear(s, p).value)
  {
    if !VentaConClave(s.ventas, p.clave) {
      var s', n := Crear(s, p).value, |s.ventas|;
      CrearMantiene(s, p);
      assert VentaBien(s'.ventas[n], s'.reembolsos, n);
      forall l: nat ensures Devuelto(s.reembolsos, n, l) == 0.0 {
        NadaDevuelto(s.reembolsos, n, n, l);
      }
    }
  }

  /** Over requests that name each sale line once, no sequence of refunds returns more of a line
      than was sold; so a sale is DEVUELTA exactly when every line was returned exactly. */
  lemma {:induction false} NuncaSobredevuelve(ps: seq<PeticionVentas>)
    requires forall i :: 0 <= i < |ps| ==> DevuelveLineasUnaVez(ps[i])
    ensures SinSobredevolver(CorrerVentas(VENTAS_INICIAL, ps))
  {
    if |ps| > 0 {
      NuncaSobredevuelve(ps[..|ps| - 1]);
      CorrerVentasMantiene(ps[..|ps| - 1]);
      var s, p := CorrerVentas(VENTAS_INICIAL, ps[..|ps| - 1]), ps[|ps| - 1];
      if AtenderVentas(s, p).Ok? {
        match p
        case VVenta(q) => VenderSinExceso(s, q);
        case VDevolver(q) => DevolverSinExceso(s, q);
        case _ =>
      }
    }
  }

  // ------------------------------------------------------------------ the request that returns too much

  /** A service is put on sale, two units of it are sold for twenty soles and paid. */
  const UN_SERVICIO: PeticionVentas := VStock(PVariante(0, false, false, true))
  const PEDIDO: PedidoVenta := PedidoVenta("v", [LineaPedida(0, 2.0, None, 0, Some(10.0), [])], {}, {}, [20.0], None, 0)

  const DOS_UNIDADES: LineaCalculada :=
    LineaCalculada(0, None, 2.0, 10.0, 20.0, 0.0, [], 0.0, 0.0, false, INAFECTO, 10.0, 20.0)

  const CON_SERVICIO: EstadoVentas := VENTAS_INICIAL.(inv := INICIAL.(variantes := map[0 := Variante(false, false, true)]))
  const UNA_VENTA: EstadoVentas :=
    CON_SERVICIO.(ventas := [Venta("v", PAGADA, [DOS_UNIDADES], 20.0, 0.0, 0.0, 0.0, 20.0, 20.0)])

  lemma {:induction false} LineasDelPedido()
    ensures CalcularLineas(CON_SERVICIO, PEDIDO) == Ok([DOS_UNIDADES])
  {
    var l, vs, nada: seq<LineaCalculada>, sin: seq<Promocion> := PEDIDO.lineas[0], CON_SERVICIO.inv.variantes, [], [];
    assert PEDIDO.lineas == [l] && [l][..0] == [];
    assert CalcularLinea(l, 10.0, None, sin, 20.0) == DOS_UNIDADES;
    assert Calcular(vs, sin, 20.0, None)(nada, l) == Ok([DOS_UNIDADES]) by { assert nada + [DOS_UNIDADES] == [DOS_UNIDADES]; }
    assert Plegar(0.0, [l], SumarBruto(vs)) == Ok(20.0);
  }

  lemma {:induction false} VentaDelPedido()
    ensures VentaDe(PEDIDO, [DOS_UNIDADES]) == UNA_VENTA.ventas[0]
  {
    SumaUno(DOS_UNIDADES, Base());
    SumaUno(DOS_UNIDADES, Rebaja());
    SumaUno(DOS_UNIDADES, Igv());
    SumaUno(DOS_UNIDADES, Otros());
    SumaUno(DOS_UNIDADES, Importe());
    SumaUno(20.0, Pago());
  }

  lemma {:induction false} PedidoVendido()
    ensures Crear(CON_SERVICIO, PEDIDO) == Ok(UNA_VENTA)
  {
    LineasDelPedido();
    VentaDelPedido();
    assert [DOS_UNIDADES][..0] == [];
    assert LineasConStock([DOS_UNIDADES]) == [];
    assert Vender(CON_SERVICIO.inv, 0, [], 0) == Ok(CON_SERVICIO.inv);
    assert CON_SERVICIO.ventas + [UNA_VENTA.ventas[0]] == UNA_VENTA.ventas;
  }

  lemma {:induction false} VentaAlcanzable()
    ensures CorrerVentas(VENTAS_INICIAL, [UN_SERVICIO, VVenta(PEDIDO)]) == UNA_VENTA
  {
    var ps := [UN_SERVICIO, VVenta(PEDIDO)];
    assert ps[..1] == [UN_SERVICIO] && [UN_SERVICIO][..0] == [];
    assert CorrerVentas(VENTAS_INICIAL, [UN_SERVICIO]) == CON_SERVICIO;
    PedidoVendido();
  }

  /** Two items that name one line pass the check together. */
  const ITEM: ItemDevolucion := ItemDevolucion(0, 2.0, None, None)
  const DOBLE: PedidoDevolucion := PedidoDevolucion(0, "d", "DEV-1", [ITEM, ITEM], None)
  const DEVUELTA_ENTERA: LineaDevuelta := LineaDevuelta(0, 2.0, 0.0, 20.0, true)

  lemma {:induction false} DosDevueltas()
    ensures Plegar([], DOBLE.items, CalcularDevuelta(UNA_VENTA.ventas[0], [], 0)) == Ok([DEVUELTA_ENTERA, DEVUELTA_ENTERA])
  {
    var d, nada: seq<LineaDevuelta>, sin: seq<Reembolso> := DEVUELTA_ENTERA, [], [];
    var f := CalcularDevuelta(UNA_VENTA.ventas[0], sin, 0);
    RedondearEntero(2000);
    assert DevolverLinea(DOS_UNIDADES, ITEM) == d by {
      assert Redondear2(Proporcion(20.0, 2.0, 2.0)) == 20.0;
      assert Redondear2(Proporcion(0.0, 2.0, 2.0)) == 0.0;
    }
    assert Devuelto(sin, 0, 0) == 0.0;
    assert f(nada, ITEM) == Ok([d]) by { assert nada + [d] == [d]; }
    assert f([d], ITEM) == Ok([d, d]) by { assert [d] + [d] == [d, d]; }
    assert DOBLE.items[..1] == [ITEM] && [ITEM][..0] == [];
    assert Plegar(nada, [ITEM], f) == Ok([d]);
  }

  lemma {:induction false} NadaQueReponer()
    ensures Plegar(UNA_VENTA.inv.kardex, DOBLE.items, ReponerLinea(UNA_VENTA.inv.variantes, UNA_VENTA.ventas[0], 0, None))
         == Ok(UNA_VENTA.inv.kardex)
  {
    var k, g := UNA_VENTA.inv.kardex, ReponerLinea(UNA_VENTA.inv.variantes, UNA_VENTA.ventas[0], 0, None);
    assert g(k, ITEM) == Ok(k);
    assert DOBLE.items[..1] == [ITEM] && [ITEM][..0] == [];
    assert Plegar(k, [ITEM], g) == Ok(k);
  }

  lemma {:induction false} DevueltaDosVeces()
    ensures Devolver(UNA_VENTA, DOBLE) == Ok(AplicarReembolso(UNA_VENTA, ReembolsoDe(DOBLE, [DEVUELTA_ENTERA, DEVUELTA_ENTERA])))
  {
    DosDevueltas();
    NadaQueReponer();
  }

  lemma {:induction false} ReembolsoDoble()
    ensures var r := ReembolsoDe(DOBLE, [DEVUELTA_ENTERA, DEVUELTA_ENTERA]);
      r.total == 40.0 && Suma(r.lineas, CantidadDeLinea(0)) == 4.0
  {
    var d := DEVUELTA_ENTERA;
    assert [d, d] == [d] + [d];
    SumaUno(d, CantidadDeLinea(0));
    SumaUno(d, TotalDevuelto());
  }

  /** After that run, one request that names a line twice returns four units, and forty soles, of
      the two units sold for twenty. */
  lemma {:induction false} SobredevolucionPosible()
    ensures var s := CorrerVentas(VENTAS_INICIAL, [UN_SERVICIO, VVenta(PEDIDO)]);
      && s == UNA_VENTA && Devolver(s, DOBLE).Ok?
      && Devuelto(Devolver(s, DOBLE).value.reembolsos, 0, 0) == 4.0
      && Devolver(s, DOBLE).value.reembolsos[0].total == 40.0
  {
    VentaAlcanzable();
    DevueltaDosVeces();
    ReembolsoDoble();
    SumaUno(ReembolsoDe(DOBLE, [DEVUELTA_ENTERA, DEVUELTA_ENTERA]), DevueltoEn(0, 0));
  }

  // ------------------------------------------------------------------ the lines of every sale

  ghost predicate ImportesCuadran(s: EstadoVentas) {
    forall i, l :: 0 <= i < |s.ventas| && 0 <= l < |s.ventas[i].lineas| ==> ImporteCuadra(s.ventas[i].lineas[l])
  }

  lemma {:induction false} VenderImportes(s: EstadoVentas, p: PedidoVenta)
    requires ImportesCuadran(s) && Crear(s, p).Ok?
    ensures ImportesCuadran(Crear(s, p).value)
  {
    if !VentaConClave(s.ventas, p.clave) {
      LineasBien(s, p);
    }
  }

  /** Requests that sell nothing leave the lines of every sale as they were. */
  lemma {:induction false} LineasIguales(s: EstadoVentas, p: PeticionVentas)
    requires !p.VVenta?
    ensures var s' := PasoVentas(s, p);
      |s'.ventas| == |s.ventas| && forall i :: 0 <= i < |s.ventas| ==> s'.ventas[i].lineas == s.ventas[i].lineas
  {
  }

  lemma {:induction false} PasoImportes(s: EstadoVentas, p: PeticionVentas)
    requires ImportesCuadran(s)
    ensures ImportesCuadran(PasoVentas(s, p))
  {
    if p.VVenta? {
      if Crear(s, p.pedido).Ok? {
        VenderImportes(s, p.pedido);
      }
    } else {
      LineasIguales(s, p);
    }
  }

  /** After any run the parts of every line of every sale add up to its total. */
  lemma {:induction false} ImportesSiempreCuadran(ps: seq<PeticionVentas>)
    ensures ImportesCuadran(CorrerVentas(VENTAS_INICIAL, ps))
  {
    if |ps| > 0 {
      ImportesSiempreCuadran(ps[..|ps| - 1]);
      PasoImportes(CorrerVentas(VENTAS_INICIAL, ps[..|ps| - 1]), ps[|ps| - 1]);
    }
  }

  // ------------------------------------------------------------------ money returned

  lemma {:induction false} ProporcionSuma(monto: real, a: real, b: real, de: real)
    ensures Proporcion(monto, a + b, de) == Proporcion(monto, a, de) + Proporcion(monto, b, de)
    ensures Proporcion(monto, 0.0, de) == 0.0
    ensures de != 0.0 ==> Proporcion(monto, de, de) == monto
  {
    if de != 0.0 {
      assert (a + b) / de == a / de + b / de;
    }
  }

  /** The item was refunded at the price of the line it names. */
  predicate ItemExacto(v: Venta, d: LineaDevuelta) {
    && d.linea < |v.lineas|
    && d.total == Redondear2(Proporcion(v.lineas[d.linea].total, d.cantidad, v.lineas[d.linea].cantidad))
    && d.montoImpuesto == Redondear2(Proporcion(v.lineas[d.linea].montoImpuesto, d.cantidad, v.lineas[d.linea].cantidad))
  }

  ghost predicate ReembolsoExacto(v: Venta, r: Reembolso) {
    && (forall j :: 0 <= j < |r.lineas| ==> ItemExacto(v, r.lineas[j]))
    && r.subtotal + r.totalImpuesto == r.total
    && r.total == Suma(r.lineas, TotalDevuelto()) && r.totalImpuesto == Suma(r.lineas, ImpuestoDevuelto())
  }

  ghost predicate ReembolsosExactos(s: EstadoVentas) {
    forall j :: 0 <= j < |s.reembolsos| ==>
      s.reembolsos[j].venta < |s.ventas| && ReembolsoExacto(s.ventas[s.reembolsos[j].venta], s.reembolsos[j])
  }

  lemma {:induction false} ReembolsoNuevoExacto(s: EstadoVentas, p: PedidoDevolucion, lineas: seq<LineaDevuelta>)
    requires p.venta < |s.ventas|
    requires Plegar([], p.items, CalcularDevuelta(s.ventas[p.venta], s.reembolsos, p.venta)) == Ok(lineas)
    ensures ReembolsoExacto(s.ventas[p.venta], ReembolsoDe(p, lineas))
  {
    var v := s.ventas[p.venta];
    CalcularDevueltas(v, s.reembolsos, p.venta, p.items);
    forall j | 0 <= j < |lineas| ensures ItemExacto(v, lineas[j]) {
      assert DevueltaBien(v, s.reembolsos, p.venta, p.items[j], lineas[j]);
    }
    SumaMasMenos(lineas, TotalDevuelto(), Neto(), ImpuestoDevuelto());
  }

  /** A refund changes no price: the same lines stay behind every earlier refund. */
  lemma {:induction false} VentasConservanLineas(s: EstadoVentas, s': EstadoVentas)
    requires ReembolsosExactos(s) && |s.ventas| <= |s'.ventas|
    requires forall i :: 0 <= i < |s.ventas| ==> s'.ventas[i].lineas == s.ventas[i].lineas
    requires s'.reembolsos == s.reembolsos
          || (exists r :: s'.reembolsos == s.reembolsos + [r] && r.venta < |s'.ventas| && ReembolsoExacto(s'.ventas[r.venta], r))
    ensures ReembolsosExactos(s')
  {
    forall j | 0 <= j < |s.reembolsos| ensures ReembolsoExacto(s'.ventas[s.reembolsos[j].venta], s.reembolsos[j]) {
      var v, v' := s.ventas[s.reembolsos[j].venta], s'.ventas[s.reembolsos[j].venta];
      assert forall i :: 0 <= i < |s.reembolsos[j].lineas| ==> ItemExacto(v, s.reembolsos[j].lineas[i]);
    }
  }

  lemma {:induction false} PasoExacto(s: EstadoVentas, p: PeticionVentas)
    requires ReembolsosExactos(s)
    ensures ReembolsosExactos(PasoVentas(s, p))
  {
    var s' := PasoVentas(s, p);
    if p.VDevolver? && Devolver(s, p.devolucion).Ok? && EsNueva(s, p.devolucion) {
      var q := p.devolucion;
      var v := s.ventas[q.venta];
      var lineas := Plegar([], q.items, CalcularDevuelta(v, s.reembolsos, q.venta)).value;
      ReembolsoNuevoExacto(s, q, lineas);
      var r := ReembolsoDe(q, lineas);
      assert s'.reembolsos == s.reembolsos + [r];
      assert forall j :: 0 <= j < |r.lineas| ==> ItemExacto(v, r.lineas[j]);
      assert ReembolsoExacto(s'.ventas[q.venta], r);
    }
    VentasConservanLineas(s, s');
  }

  lemma {:induction false} CorrerExacto(ps: seq<PeticionVentas>)
    ensures ReembolsosExactos(CorrerVentas(VENTAS_INICIAL, ps))
  {
    if |ps| > 0 {
      CorrerExacto(ps[..|ps| - 1]);
      PasoExacto(CorrerVentas(VENTAS_INICIAL, ps[..|ps| - 1]), ps[|ps| - 1]);
    }
  }

  function MontoDeLinea(l: nat): LineaDevuelta -> real {
    (d: LineaDevuelta) => if d.linea == l then d.total else 0.0
  }

  function ImpuestoDeLinea(l: nat): LineaDevuelta -> real {
    (d: LineaDevuelta) => if d.linea == l then d.montoImpuesto else 0.0
  }

  function EsDeLinea(l: nat): LineaDevuelta -> real {
    (d: LineaDevuelta) => if d.linea == l then 1.0 else 0.0
  }

  function MontoEn(venta: nat, l: nat): Reembolso -> real {
    (r: Reembolso) => if r.venta == venta then Suma(r.lineas, MontoDeLinea(l)) else 0.0
  }

  function ImpuestoEn(venta: nat, l: nat): Reembolso -> real {
    (r: Reembolso) => if r.venta == venta then Suma(r.lineas, ImpuestoDeLinea(l)) else 0.0
  }

  /** How many refunded items of a refund are about line l. */
  function VecesEn(venta: nat, l: nat): Reembolso -> real {
    (r: Reembolso) => if r.venta == venta then Suma(r.lineas, EsDeLinea(l)) else 0.0
  }

  predicate Cerca(x: real, y: real, veces: real) {
    -MEDIO_CENTIMO * veces <= x - y <= MEDIO_CENTIMO * veces
  }

  /** One more rounded share on top of shares that are close stays close. */
  lemma {:induction false} CercaMas(monto: real, de: real, x: real, a: real, veces: real, b: real)
    requires Cerca(x, Proporcion(monto, a, de), veces)
    ensures Cerca(x + Redondear2(Proporcion(monto, b, de)), Proporcion(monto, a + b, de), veces + 1.0)
  {
    ProporcionSuma(monto, a, b, de);
    RedondearCerca(Proporcion(monto, b, de));
  }

  lemma {:induction false} CercaJuntas(monto: real, de: real, x: real, a: real, m: real, y: real, b: real, n: real)
    requires Cerca(x, Proporcion(monto, a, de), m) && Cerca(y, Proporcion(monto, b, de), n)
    ensures Cerca(x + y, Proporcion(monto, a + b, de), m + n)
  {
    ProporcionSuma(monto, a, b, de);
  }

  lemma {:induction false} ItemsCerca(v: Venta, ds: seq<LineaDevuelta>, l: nat)
    requires l < |v.lineas| && forall j :: 0 <= j < |ds| ==> ItemExacto(v, ds[j])
    ensures var q, veces, c := Suma(ds, CantidadDeLinea(l)), Suma(ds, EsDeLinea(l)), v.lineas[l].cantidad;
      && Cerca(Suma(ds, MontoDeLinea(l)), Proporcion(v.lineas[l].total, q, c), veces)
      && Cerca(Suma(ds, ImpuestoDeLinea(l)), Proporcion(v.lineas[l].montoImpuesto, q, c), veces)
  {
    var t, i, c := v.lineas[l].total, v.lineas[l].montoImpuesto, v.lineas[l].cantidad;
    if |ds| == 0 {
      ProporcionSuma(t, 0.0, 0.0, c);
      ProporcionSuma(i, 0.0, 0.0, c);
    } else {
      var previas, d := ds[..|ds| - 1], ds[|ds| - 1];
      ItemsCerca(v, previas, l);
      assert ItemExacto(v, d);
      if d.linea == l {
        var q, veces := Suma(previas, CantidadDeLinea(l)), Suma(previas, EsDeLinea(l));
        CercaMas(t, c, Suma(previas, MontoDeLinea(l)), q, veces, d.cantidad);
        CercaMas(i, c, Suma(previas, ImpuestoDeLinea(l)), q, veces, d.cantidad);
      }
    }
  }

  lemma {:induction false} ReembolsosCerca(s: EstadoVentas, rs: seq<Reembolso>, i: nat, l: nat)
    requires i < |s.ventas| && l < |s.ventas[i].lineas|
    requires forall j :: 0 <= j < |rs| && rs[j].venta == i ==> ReembolsoExacto(s.ventas[i], rs[j])
    ensures var linea, q, veces := s.ventas[i].lineas[l], Devuelto(rs, i, l), Suma(rs, VecesEn(i, l));
      && Cerca(Suma(rs, MontoEn(i, l)), Proporcion(linea.total, q, linea.cantidad), veces)
      && Cerca(Suma(rs, ImpuestoEn(i, l)), Proporcion(linea.montoImpuesto, q, linea.cantidad), veces)
  {
    var t, m, c := s.ventas[i].lineas[l].total, s.ventas[i].lineas[l].montoImpuesto, s.ventas[i].lineas[l].cantidad;
    if |rs| == 0 {
      ProporcionSuma(t, 0.0, 0.0, c);
      ProporcionSuma(m, 0.0, 0.0, c);
    } else {
      var previos, r := rs[..|rs| - 1], rs[|rs| - 1];
      ReembolsosCerca(s, previos, i, l);
      if r.venta == i {
        var a, veces := Devuelto(previos, i, l), Suma(previos, VecesEn(i, l));
        var b, mas := Suma(r.lineas, CantidadDeLinea(l)), Suma(r.lineas, EsDeLinea(l));
        ItemsCerca(s.ventas[i], r.lineas, l);
        CercaJuntas(t, c, Suma(previos, MontoEn(i, l)), a, veces, Suma(r.lineas, MontoDeLinea(l)), b, mas);
        CercaJuntas(m, c, Suma(previos, ImpuestoEn(i, l)), a, veces, Suma(r.lineas, ImpuestoDeLinea(l)), b, mas);
      }
    }
  }

  /** After any run, the money returned for a line, and the tax in it, differ from the exact shares of its
      total and of its tax by at most half a cent for each time it was refunded. */
  lemma {:induction false} DevolucionesProporcionales(ps: seq<PeticionVentas>, i: nat, l: nat)
    ensures var s := CorrerVentas(VENTAS_INICIAL, ps);
      i < |s.ventas| && l < |s.ventas[i].lineas| ==>
      var linea, q, veces := s.ventas[i].lineas[l], Devuelto(s.reembolsos, i, l), Suma(s.reembolsos, VecesEn(i, l));
      && Cerca(Suma(s.reembolsos, MontoEn(i, l)), Proporcion(linea.total, q, linea.cantidad), veces)
      && Cerca(Suma(s.reembolsos, ImpuestoEn(i, l)), Proporcion(linea.montoImpuesto, q, linea.cantidad), veces)
  {
    var s := CorrerVentas(VENTAS_INICIAL, ps);
    CorrerExacto(ps);
    if i < |s.ventas| && l < |s.ventas[i].lineas| {
      ReembolsosCerca(s, s.reembolsos, i, l);
    }
  }

  /** After any run every refund is net plus tax, item by item and in total. */
  lemma {:induction false} ReembolsosCuadran(ps: seq<PeticionVentas>, j: nat)
    ensures var rs := CorrerVentas(VENTAS_INICIAL, ps).reembolsos;
      j < |rs| ==>
      var r := rs[j];
      && r.subtotal + r.totalImpuesto == r.total == Suma(r.lineas, TotalDevuelto())
      && r.totalImpuesto == Suma(r.lineas, ImpuestoDevuelto())
  {
    CorrerExacto(ps);
    var s := CorrerVentas(VENTAS_INICIAL, ps);
    if j < |s.reembolsos| {
      assert ReembolsoExacto(s.ventas[s.reembolsos[j].venta], s.reembolsos[j]);
    }
  }

  /** Returning a whole line at once returns exactly its total if and only if that is whole cents. */
  lemma {:induction false} LineaEnteraExacta(l: LineaCalculada, it: ItemDevolucion)
    requires l.cantidad > 0.0 && it.cantidad == l.cantidad
    ensures DevolverLinea(l, it).total == l.total <==> EnCentimos(l.total)
    ensures DevolverLinea(l, it).montoImpuesto == l.montoImpuesto <==> EnCentimos(l.montoImpuesto)
  {
    ProporcionSuma(l.total, 0.0, 0.0, l.cantidad);
    ProporcionSuma(l.montoImpuesto, 0.0, 0.0, l.cantidad);
  }
}
