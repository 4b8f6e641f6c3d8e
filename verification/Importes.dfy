/** What the lines of a sale come to: the promotions loaded, the gross, the tax that is a rate and the fixed
    ones, the total and the state of the sale; and that every sale of a run keeps what was asked for. */
module Importes {
  import opened Comun
  import opened Sumas
  import opened Dinero
  import opened Kardex
  import opened Inventario
  import opened Promociones
  import opened Ventas
  import opened VentasInvariante
  import opened VentasCorridas

  // ------------------------------------------------------------------ the promotions of a sale

  /** Promotion number n was confirmed for the sale, is in force and has uses left. */
  predicate Vigente(filas: seq<FilaPromocion>, ids: set<nat>, activas: set<nat>, n: nat) {
    && n < |filas| && n in ids && n in activas
    && (filas[n].usoMaximo.Some? ==> filas[n].usoActual < filas[n].usoMaximo.value)
  }

  /** Exactly those promotions are loaded, each under its own id. */
  lemma {:induction false} VigentesSii(filas: seq<FilaPromocion>, ids: set<nat>, activas: set<nat>, p: Promocion)
    ensures p in CargarVigentes(filas, ids, activas) <==>
      Vigente(filas, ids, activas, p.id) && p == filas[p.id].promo.(id := p.id)
  {
    if |filas| > 0 {
      VigentesSii(filas[..|filas| - 1], ids, activas, p);
    }
  }

  lemma {:induction false} VigentesDistintas(filas: seq<FilaPromocion>, ids: set<nat>, activas: set<nat>)
    ensures IdsDistintos(CargarVigentes(filas, ids, activas))
  {
    if |filas| > 0 {
      var previas := CargarVigentes(filas[..|filas| - 1], ids, activas);
      VigentesDistintas(filas[..|filas| - 1], ids, activas);
      forall i | 0 <= i < |previas| ensures previas[i].id < |filas| - 1 {
        VigentesSii(filas[..|filas| - 1], ids, activas, previas[i]);
      }
    }
  }

  // ------------------------------------------------------------------ taxes

  /** Tax number i is a rate, and every one before it is a fixed amount. */
  predicate EsPrincipal(ts: seq<Tributo>, i: nat) {
    i < |ts| && !ts[i].montoFijo && forall j :: 0 <= j < i ==> ts[j].montoFijo
  }

  lemma {:induction false} PrincipalEsPrimero(ts: seq<Tributo>)
    ensures Principal(ts).None? <==> forall i :: 0 <= i < |ts| ==> ts[i].montoFijo
    ensures forall i :: 0 <= i < |ts| && EsPrincipal(ts, i) ==> Principal(ts) == Some(ts[i])
  {
    if |ts| > 0 {
      PrincipalEsPrimero(ts[..|ts| - 1]);
      forall i | 0 <= i < |ts| && EsPrincipal(ts, i) ensures Principal(ts) == Some(ts[i]) {
        if i < |ts| - 1 {
          assert EsPrincipal(ts[..|ts| - 1], i);
        }
      }
    }
  }

  lemma {:induction false} TasaSobreNeto(base: real, tasa: Tasa)
    ensures var impuesto := base * tasa / (100.0 + tasa);
      impuesto == (base - impuesto) * tasa / 100.0
  {
    var impuesto := base * tasa / (100.0 + tasa);
    assert impuesto * (100.0 + tasa) == base * tasa;
  }

  function MontoFijo(): Tributo -> real {
    (t: Tributo) => if t.montoFijo then t.rate else 0.0
  }

  /** Fixed amounts are charged for each unit. */
  lemma {:induction false} FijosPorUnidad(ts: seq<Tributo>, cantidad: real)
    ensures Suma(ts, FijoPor(cantidad)) == Suma(ts, MontoFijo()) * cantidad
  {
    if |ts| > 0 {
      FijosPorUnidad(ts[..|ts| - 1], cantidad);
      assert (Suma(ts[..|ts| - 1], MontoFijo()) + MontoFijo()(ts[|ts| - 1])) * cantidad
          == Suma(ts[..|ts| - 1], MontoFijo()) * cantidad + MontoFijo()(ts[|ts| - 1]) * cantidad;
    }
  }

  // ------------------------------------------------------------------ one line

  /** A rate, in percent, on the net value of the line. */
  function SobreNeto(c: LineaCalculada, tasa: real): real {
    Valor(c.cantidad, c.valorUnitario) * tasa / 100.0
  }

  /** The tax of a line is its rate on the net value, whether the price includes it or not; without a tax
      that is a rate there is none, and the line is unaffected. */
  ghost predicate ImpuestoJusto(ts: seq<Tributo>, c: LineaCalculada) {
    && (forall i :: 0 <= i < |ts| && EsPrincipal(ts, i) ==>
          && c.montoImpuesto == SobreNeto(c, ts[i].rate)
          && c.impuestoIncluido == ts[i].includedInPrice && c.afectacion == ts[i].affectation)
    && ((forall i :: 0 <= i < |ts| ==> ts[i].montoFijo) ==>
          c.montoImpuesto == 0.0 && !c.impuestoIncluido && c.afectacion == INAFECTO)
    && c.montoOtrosTributos == Suma(ts, MontoFijo()) * c.cantidad
  }

  /** What is charged for a line is its gross less its discount, plus the taxes the price does not include. */
  predicate CobroJusto(c: LineaCalculada) {
    && c.montoBruto == Valor(c.cantidad, c.precioUnitario)
    && c.total == c.montoBruto - c.descuentoMonto + (if c.impuestoIncluido then 0.0 else c.montoImpuesto) + c.montoOtrosTributos
    && c.total == Valor(c.cantidad, c.valorUnitario) + c.montoImpuesto + c.montoOtrosTributos
  }

  /** Whether the price includes it or not, the tax is the rate on what is left without it. */
  lemma {:induction false} TasaDeLinea(base: real, tasa: Tasa, incluido: bool, cantidad: real, impuesto: real, valorUnitario: real)
    requires cantidad > 0.0
    requires impuesto == if incluido then base * tasa / (100.0 + tasa) else base * tasa / 100.0
    requires valorUnitario == (if incluido then base - impuesto else base) / cantidad
    ensures impuesto == Valor(cantidad, valorUnitario) * tasa / 100.0
  {
    EntreYPor(if incluido then base - impuesto else base, cantidad);
    if incluido {
      TasaSobreNeto(base, tasa);
    }
  }

  /** What the taxes of a line come to, given the one that is a rate. */
  predicate ImpuestoCon(principal: Option<Tributo>, c: LineaCalculada) {
    && c.impuestoIncluido == (principal.Some? && principal.value.includedInPrice)
    && c.afectacion == (if principal.Some? then principal.value.affectation else INAFECTO)
    && c.montoImpuesto == Impuesto(c.montoBruto - c.descuentoMonto, principal)
    && c.cantidad > 0.0
    && c.valorUnitario == (c.montoBruto - c.descuentoMonto - (if c.impuestoIncluido then c.montoImpuesto else 0.0)) / c.cantidad
  }

  lemma {:induction false} ImpuestoConTasa(t: Tributo, c: LineaCalculada)
    requires ImpuestoCon(Some(t), c)
    ensures c.montoImpuesto == SobreNeto(c, t.rate) && c.impuestoIncluido == t.includedInPrice && c.afectacion == t.affectation
  {
    TasaDeLinea(c.montoBruto - c.descuentoMonto, t.rate, t.includedInPrice, c.cantidad, c.montoImpuesto, c.valorUnitario);
  }

  lemma {:induction false} ImpuestoSinTasa(c: LineaCalculada)
    requires ImpuestoCon(None, c)
    ensures c.montoImpuesto == 0.0 && !c.impuestoIncluido && c.afectacion == INAFECTO
  {
  }

  lemma {:induction false} ImpuestoDe(ts: seq<Tributo>, c: LineaCalculada)
    requires ImpuestoCon(Principal(ts), c) && c.montoOtrosTributos == Suma(ts, FijoPor(c.cantidad))
    ensures ImpuestoJusto(ts, c)
  {
    PrincipalEsPrimero(ts);
    FijosPorUnidad(ts, c.cantidad);
    match Principal(ts)
    case Some(t) => ImpuestoConTasa(t, c);
    case None => ImpuestoSinTasa(c);
  }

  lemma {:induction false} LineaConImpuesto(l: LineaPedida, precio: real, almacen: Option<AlmacenId>, promos: seq<Promocion>, totalVenta: real)
    requires l.cantidad > 0.0
    ensures var c := CalcularLinea(l, precio, almacen, promos, totalVenta);
      ImpuestoCon(Principal(l.tributos), c) && c.montoOtrosTributos == Suma(l.tributos, FijoPor(c.cantidad))
  {
  }

  lemma {:induction false} ImpuestoDeLinea(l: LineaPedida, precio: real, almacen: Option<AlmacenId>, promos: seq<Promocion>, totalVenta: real)
    requires l.cantidad > 0.0
    ensures ImpuestoJusto(l.tributos, CalcularLinea(l, precio, almacen, promos, totalVenta))
  {
    LineaConImpuesto(l, precio, almacen, promos, totalVenta);
    ImpuestoDe(l.tributos, CalcularLinea(l, precio, almacen, promos, totalVenta));
  }

  lemma {:induction false} CobroDeLinea(l: LineaPedida, precio: real, almacen: Option<AlmacenId>, promos: seq<Promocion>, totalVenta: real)
    requires l.cantidad > 0.0
    ensures var c := CalcularLinea(l, precio, almacen, promos, totalVenta);
      CobroJusto(c) && c.precioUnitario == precio && c.cantidad == l.cantidad && c.variante == l.variante && c.almacen == almacen
  {
    LineaSuma(l, precio, almacen, promos, totalVenta);
  }

  /** The discount of a line is the one the promotion engine gives its product, quantity and price. */
  predicate RebajaJusta(l: LineaPedida, precio: real, c: LineaCalculada, promos: seq<Promocion>, totalVenta: real) {
    var lp := LineaPromo(l.productoId, l.cantidad, precio, Valor(l.cantidad, precio));
    && (promos == [] ==> c.descuentoMonto == 0.0 && c.descuentos == [])
    && (promos != [] ==> c.descuentoMonto == TotalLinea(promos, lp, totalVenta) && c.descuentos == Detalles(promos, lp, totalVenta))
  }

  /** Tracked variants leave from the warehouse of the line or, without one, from the branch's. */
  function AlmacenDe(vs: map<VarianteId, Variante>, l: LineaPedida, porDefecto: Option<AlmacenId>): Option<AlmacenId> {
    if l.variante in vs && vs[l.variante].isStockTracked then (if l.almacen.Some? then l.almacen else porDefecto) else None
  }

  ghost predicate LineaJusta(vs: map<VarianteId, Variante>, l: LineaPedida, c: LineaCalculada, porDefecto: Option<AlmacenId>,
                             promos: seq<Promocion>, totalVenta: real) {
    && l.precio.Some? && c.precioUnitario == l.precio.value && c.cantidad == l.cantidad && c.variante == l.variante
    && c.almacen == AlmacenDe(vs, l, porDefecto)
    && ImpuestoJusto(l.tributos, c) && CobroJusto(c) && RebajaJusta(l, l.precio.value, c, promos, totalVenta)
  }

  lemma {:induction false} RebajaDeLinea(l: LineaPedida, precio: real, almacen: Option<AlmacenId>, promos: seq<Promocion>, totalVenta: real)
    ensures RebajaJusta(l, precio, CalcularLinea(l, precio, almacen, promos, totalVenta), promos, totalVenta)
  {
  }

  lemma {:induction false} UnaLineaJusta(vs: map<VarianteId, Variante>, promos: seq<Promocion>, totalVenta: real, porDefecto: Option<AlmacenId>,
                                         previas: seq<LineaCalculada>, l: LineaPedida)
    requires l.cantidad > 0.0 && Calcular(vs, promos, totalVenta, porDefecto)(previas, l).Ok?
    ensures var r := Calcular(vs, promos, totalVenta, porDefecto)(previas, l).value;
      |r| == |previas| + 1 && r[..|previas|] == previas && LineaJusta(vs, l, r[|previas|], porDefecto, promos, totalVenta)
  {
    var precio, almacen := l.precio.value, AlmacenDe(vs, l, porDefecto);
    ImpuestoDeLinea(l, precio, almacen, promos, totalVenta);
    CobroDeLinea(l, precio, almacen, promos, totalVenta);
    RebajaDeLinea(l, precio, almacen, promos, totalVenta);
    UnaLineaSigue(vs, promos, totalVenta, porDefecto, previas, l, CalcularLinea(l, precio, almacen, promos, totalVenta));
  }

  lemma {:induction false} UnaLineaSigue(vs: map<VarianteId, Variante>, promos: seq<Promocion>, totalVenta: real, porDefecto: Option<AlmacenId>,
                                         previas: seq<LineaCalculada>, l: LineaPedida, c: LineaCalculada)
    requires Calcular(vs, promos, totalVenta, porDefecto)(previas, l).Ok?
    requires c == CalcularLinea(l, l.precio.value, AlmacenDe(vs, l, porDefecto), promos, totalVenta)
    ensures Calcular(vs, promos, totalVenta, porDefecto)(previas, l).value == previas + [c]
  {
  }

  // ------------------------------------------------------------------ every line

  function BrutoPedido(): LineaPedida -> real {
    (l: LineaPedida) => l.cantidad * l.precio.GetOr(0.0)
  }

  /** A line can be sold: its variant is active, has a price in force and, when tracked, a warehouse. */
  predicate Vendible(vs: map<VarianteId, Variante>, l: LineaPedida, porDefecto: Option<AlmacenId>) {
    && l.variante in vs && vs[l.variante].activa && l.precio.Some?
    && (vs[l.variante].isStockTracked ==> l.almacen.Some? || porDefecto.Some?)
  }

  predicate ConPrecio(vs: map<VarianteId, Variante>, l: LineaPedida) {
    l.variante in vs && vs[l.variante].activa && l.precio.Some?
  }

  lemma {:induction false} BrutosSuman(vs: map<VarianteId, Variante>, ls: seq<LineaPedida>)
    ensures var r := Plegar(0.0, ls, SumarBruto(vs));
      && (r.Ok? <==> forall i :: 0 <= i < |ls| ==> ConPrecio(vs, ls[i]))
      && (r.Ok? ==> r.value == Suma(ls, BrutoPedido()))
  {
    if |ls| > 0 {
      var n := |ls| - 1;
      BrutosSuman(vs, ls[..n]);
      if forall i :: 0 <= i < |ls| ==> ConPrecio(vs, ls[i]) {
        assert forall i :: 0 <= i < n ==> ls[..n][i] == ls[i];
        assert ConPrecio(vs, ls[n]);
      } else if Plegar(0.0, ls[..n], SumarBruto(vs)).Ok? {
        assert forall i :: 0 <= i < n ==> ConPrecio(vs, ls[..n][i]) && ls[..n][i] == ls[i];
        assert !ConPrecio(vs, ls[n]);
      }
    }
  }

  lemma {:induction false} UnaSiVendible(vs: map<VarianteId, Variante>, promos: seq<Promocion>, totalVenta: real, porDefecto: Option<AlmacenId>,
                                         previas: seq<LineaCalculada>, l: LineaPedida)
    requires ConPrecio(vs, l)
    ensures Calcular(vs, promos, totalVenta, porDefecto)(previas, l).Ok? <==> Vendible(vs, l, porDefecto)
  {
  }

  lemma {:induction false} LineasSiVendibles(vs: map<VarianteId, Variante>, promos: seq<Promocion>, totalVenta: real,
                                             porDefecto: Option<AlmacenId>, ls: seq<LineaPedida>)
    requires forall i :: 0 <= i < |ls| ==> ConPrecio(vs, ls[i])
    ensures Plegar([], ls, Calcular(vs, promos, totalVenta, porDefecto)).Ok? <==>
      forall i :: 0 <= i < |ls| ==> Vendible(vs, ls[i], porDefecto)
  {
    if |ls| > 0 {
      var n, paso := |ls| - 1, Calcular(vs, promos, totalVenta, porDefecto);
      assert forall i :: 0 <= i < n ==> ls[..n][i] == ls[i];
      LineasSiVendibles(vs, promos, totalVenta, porDefecto, ls[..n]);
      var r := Plegar([], ls[..n], paso);
      if r.Ok? {
        UnaSiVendible(vs, promos, totalVenta, porDefecto, r.value, ls[n]);
      }
    }
  }

  lemma {:induction false} LineasJustas(vs: map<VarianteId, Variante>, promos: seq<Promocion>, totalVenta: real,
                                        porDefecto: Option<AlmacenId>, ls: seq<LineaPedida>)
    requires forall i :: 0 <= i < |ls| ==> ls[i].cantidad > 0.0
    requires Plegar([], ls, Calcular(vs, promos, totalVenta, porDefecto)).Ok?
    ensures var r := Plegar([], ls, Calcular(vs, promos, totalVenta, porDefecto)).value;
      |r| == |ls| && forall i :: 0 <= i < |ls| ==> LineaJusta(vs, ls[i], r[i], porDefecto, promos, totalVenta)
  {
    if |ls| > 0 {
      var n := |ls| - 1;
      LineasJustas(vs, promos, totalVenta, porDefecto, ls[..n]);
      var p := Plegar([], ls[..n], Calcular(vs, promos, totalVenta, porDefecto)).value;
      var r := Plegar([], ls, Calcular(vs, promos, totalVenta, porDefecto)).value;
      UnaLineaJusta(vs, promos, totalVenta, porDefecto, p, ls[n]);
      forall i | 0 <= i < |ls| ensures LineaJusta(vs, ls[i], r[i], porDefecto, promos, totalVenta) {
        if i < n {
          assert LineaJusta(vs, ls[..n][i], p[i], porDefecto, promos, totalVenta) && r[..n][i] == p[i];
        }
      }
    }
  }

  /** The lines of a sale can be calculated exactly when each can be sold, and then each is charged its own
      price, discount and taxes; promotions see the gross of the whole sale. */
  lemma {:induction false} CalcularLineasSii(s: EstadoVentas, p: PedidoVenta)
    requires forall i :: 0 <= i < |p.lineas| ==> p.lineas[i].cantidad > 0.0
    ensures CalcularLineas(s, p).Ok? <==> forall i :: 0 <= i < |p.lineas| ==> Vendible(s.inv.variantes, p.lineas[i], p.almacenDefault)
    ensures CalcularLineas(s, p).Ok? ==>
      var r := CalcularLineas(s, p).value;
      |r| == |p.lineas| && forall i :: 0 <= i < |r| ==>
        LineaJusta(s.inv.variantes, p.lineas[i], r[i], p.almacenDefault,
                   CargarVigentes(s.promociones, p.promocionIds, p.activas), Suma(p.lineas, BrutoPedido()))
  {
    var vs := s.inv.variantes;
    var promos, total := CargarVigentes(s.promociones, p.promocionIds, p.activas), Suma(p.lineas, BrutoPedido());
    BrutosSuman(vs, p.lineas);
    if forall i :: 0 <= i < |p.lineas| ==> ConPrecio(vs, p.lineas[i]) {
      LineasSiVendibles(vs, promos, total, p.almacenDefault, p.lineas);
      if CalcularLineas(s, p).Ok? {
        LineasJustas(vs, promos, total, p.almacenDefault, p.lineas);
      }
    } else {
      var i :| 0 <= i < |p.lineas| && !ConPrecio(vs, p.lineas[i]);
      assert !Vendible(vs, p.lineas[i], p.almacenDefault);
    }
  }

  // ------------------------------------------------------------------ the sale

  function TotalDeLinea(): LineaCalculada -> real { (c: LineaCalculada) => c.total }
  function ImpuestoDeUna(): LineaCalculada -> real { (c: LineaCalculada) => c.montoImpuesto }
  function RebajaDeUna(): LineaCalculada -> real { (c: LineaCalculada) => c.descuentoMonto }
  function BrutoDeUna(): LineaCalculada -> real { (c: LineaCalculada) => c.montoBruto }
  function FijosDeUna(): LineaCalculada -> real { (c: LineaCalculada) => c.montoOtrosTributos }

  /** Totals of a sale: the sums over its lines. */
  ghost predicate TotalesJustos(v: Venta) {
    && v.total == Suma(v.lineas, TotalDeLinea()) && v.totalImpuesto == Suma(v.lineas, ImpuestoDeUna())
    && v.totalDescuento == Suma(v.lineas, RebajaDeUna()) && v.otrosTributos == Suma(v.lineas, FijosDeUna())
    && v.subtotal == Suma(v.lineas, BrutoDeUna()) - v.totalDescuento
  }

  lemma {:induction false} VentaSuma(p: PedidoVenta, lineas: seq<LineaCalculada>)
    ensures TotalesJustos(VentaDe(p, lineas))
  {
    SumaIgual(lineas, Importe(), TotalDeLinea());
    SumaIgual(lineas, Igv(), ImpuestoDeUna());
    SumaIgual(lineas, Rebaja(), RebajaDeUna());
    SumaIgual(lineas, Otros(), FijosDeUna());
    SumaMasMenos(lineas, BrutoDeUna(), Base(), Rebaja());
  }

  function Entregado(): real -> real { (x: real) => x }

  /** A new sale is paid when its payments reach a total above zero, partly paid when there is any payment,
      and otherwise pending. */
  lemma {:induction false} VentaPagada(p: PedidoVenta, lineas: seq<LineaCalculada>)
    requires forall i :: 0 <= i < |p.pagos| ==> p.pagos[i] > 0.0
    ensures var v := VentaDe(p, lineas);
      && v.totalPagado == Suma(p.pagos, Entregado()) >= 0.0
      && (v.estado == PAGADA <==> v.total > 0.0 && v.totalPagado >= v.total)
      && (v.estado == PENDIENTE_PAGO <==> p.pagos == [] )
      && (v.estado == PAGADA || v.estado == PAGADA_PARCIALMENTE || v.estado == PENDIENTE_PAGO)
  {
    SumaIgual(p.pagos, Pago(), Entregado());
    SumaNoNegativa(p.pagos, Pago());
    if |p.pagos| > 0 {
      SumaNoNegativa(p.pagos[..|p.pagos| - 1], Pago());
    }
  }

  /** The sale is what was asked for: every line at its price, discount and taxes, and the sums of them. */
  ghost predicate ComoSePidio(s: EstadoVentas, p: PedidoVenta, v: Venta) {
    && v.clave == p.clave && |v.lineas| == |p.lineas| && TotalesJustos(v) && v.totalPagado == Suma(p.pagos, Entregado())
    && forall i :: 0 <= i < |p.lineas| ==>
         LineaJusta(s.inv.variantes, p.lineas[i], v.lineas[i], p.almacenDefault,
                    CargarVigentes(s.promociones, p.promocionIds, p.activas), Suma(p.lineas, BrutoPedido()))
  }

  lemma {:induction false} CrearComoSePidio(s: EstadoVentas, p: PedidoVenta)
    requires Crear(s, p).Ok? && !VentaConClave(s.ventas, p.clave)
    ensures var s' := Crear(s, p).value;
      && |s'.ventas| == |s.ventas| + 1 && s'.ventas[..|s.ventas|] == s.ventas
      && ComoSePidio(s, p, s'.ventas[|s.ventas|])
  {
    CalcularLineasSii(s, p);
    VentaSuma(p, CalcularLineas(s, p).value);
    VentaPagada(p, CalcularLineas(s, p).value);
  }

  /** A new sale commits exactly when it asks for something, every line can be sold, and the stock of its
      lines can leave. */
  lemma {:induction false} CrearSii(s: EstadoVentas, p: PedidoVenta)
    requires !VentaConClave(s.ventas, p.clave)
    ensures Crear(s, p).Ok? <==>
      && |p.lineas| > 0 && (forall i :: 0 <= i < |p.lineas| ==> p.lineas[i].cantidad > 0.0)
      && (forall i :: 0 <= i < |p.pagos| ==> p.pagos[i] > 0.0)
      && (forall i :: 0 <= i < |p.lineas| ==> Vendible(s.inv.variantes, p.lineas[i], p.almacenDefault))
      && (CalcularLineas(s, p).Ok? ==> Vender(s.inv, |s.ventas|, LineasConStock(CalcularLineas(s, p).value), p.hoy).Ok?)
  {
    if PedidoValido(p) {
      CalcularLineasSii(s, p);
    }
  }

  /** Nothing that happens later changes a sale but its state. */
  ghost predicate SoloCambiaEstado(s: EstadoVentas, s': EstadoVentas) {
    |s.ventas| <= |s'.ventas| && forall i :: 0 <= i < |s.ventas| ==> s'.ventas[i] == s.ventas[i].(estado := s'.ventas[i].estado)
  }

  lemma {:induction false} PasoSoloEstado(s: EstadoVentas, p: PeticionVentas)
    ensures SoloCambiaEstado(s, PasoVentas(s, p))
  {
  }

  lemma {:induction false} CorrerSoloEstado(s: EstadoVentas, ps: seq<PeticionVentas>)
    ensures SoloCambiaEstado(s, CorrerVentas(s, ps))
  {
    if |ps| > 0 {
      CorrerSoloEstado(s, ps[..|ps| - 1]);
      PasoSoloEstado(CorrerVentas(s, ps[..|ps| - 1]), ps[|ps| - 1]);
    }
  }

  /** Once made, a sale is for ever what was asked for, whatever requests follow. */
  lemma {:induction false} VentaComoSePidio(ps: seq<PeticionVentas>, p: PedidoVenta, qs: seq<PeticionVentas>)
    ensures var s := CorrerVentas(VENTAS_INICIAL, ps);
      Crear(s, p).Ok? && !VentaConClave(s.ventas, p.clave) ==>
        var fin := CorrerVentas(Crear(s, p).value, qs);
        |s.ventas| < |fin.ventas| && ComoSePidio(s, p, fin.ventas[|s.ventas|])
  {
    var s := CorrerVentas(VENTAS_INICIAL, ps);
    if Crear(s, p).Ok? && !VentaConClave(s.ventas, p.clave) {
      CrearComoSePidio(s, p);
      CorrerSoloEstado(Crear(s, p).value, qs);
    }
  }
  // ------------------------------------------------------------------ refunds

  /** The refund is what was asked for: of that sale, under that key and number, line by line for those
      quantities, put back in stock unless the request says it is scrapped. */
  ghost predicate DevueltoComoSePidio(p: PedidoDevolucion, r: Reembolso) {
    && r.venta == p.venta && r.clave == p.clave && r.number == p.number && |r.lineas| == |p.items|
    && forall j :: 0 <= j < |p.items| ==>
         && r.lineas[j].linea == p.items[j].linea && r.lineas[j].cantidad == p.items[j].cantidad
         && (r.lineas[j].restock <==> p.items[j].restock != Some(false))
  }

  lemma {:induction false} DevolverComoSePidio(s: EstadoVentas, p: PedidoDevolucion)
    requires Devolver(s, p).Ok? && !ReembolsoConClave(s.reembolsos, p.clave)
    ensures var s', n := Devolver(s, p).value, |s.reembolsos|;
      && |s'.reembolsos| == n + 1 && s'.reembolsos[..n] == s.reembolsos
      && DevueltoComoSePidio(p, s'.reembolsos[n])
  {
    var v := s.ventas[p.venta];
    var lineas := Plegar([], p.items, CalcularDevuelta(v, s.reembolsos, p.venta)).value;
    CalcularDevueltas(v, s.reembolsos, p.venta, p.items);
    forall j | 0 <= j < |p.items|
      ensures && lineas[j].linea == p.items[j].linea && lineas[j].cantidad == p.items[j].cantidad
              && (lineas[j].restock <==> p.items[j].restock != Some(false)) {
      assert DevueltaBien(v, s.reembolsos, p.venta, p.items[j], lineas[j]);
    }
  }

  /** Refunds are never taken away or changed. */
  lemma {:induction false} ReembolsosQuedan(s: EstadoVentas, ps: seq<PeticionVentas>)
    ensures s.reembolsos <= CorrerVentas(s, ps).reembolsos
  {
    if |ps| > 0 {
      ReembolsosQuedan(s, ps[..|ps| - 1]);
      ReembolsosCrecenEnUno(CorrerVentas(s, ps[..|ps| - 1]), ps[|ps| - 1]);
    }
  }

  lemma {:induction false} ReembolsosCrecenEnUno(s: EstadoVentas, p: PeticionVentas)
    ensures s.reembolsos <= PasoVentas(s, p).reembolsos
  {
  }

  /** Once made, a refund is for ever what was asked for, whatever requests follow. */
  lemma {:induction false} DevolucionComoSePidio(s: EstadoVentas, p: PedidoDevolucion, qs: seq<PeticionVentas>)
    requires Devolver(s, p).Ok? && !ReembolsoConClave(s.reembolsos, p.clave)
    ensures var fin := CorrerVentas(Devolver(s, p).value, qs);
      |s.reembolsos| < |fin.reembolsos| && DevueltoComoSePidio(p, fin.reembolsos[|s.reembolsos|])
  {
    DevolverComoSePidio(s, p);
    ReembolsosQuedan(Devolver(s, p).value, qs);
  }
}
