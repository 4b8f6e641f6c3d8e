/** Sales and refunds as functions of the tables: prices, promotions and taxes of each line, the
    stock that leaves and comes back, the state of the sale and the uses of each promotion. */
module Ventas {
  import opened Comun
  import opened Sumas
  import opened Dinero
  import opened Kardex
  import opened Movimientos
  import opened Existencias
  import opened Inventario
  import opened Promociones

  // ------------------------------------------------------------------ tables

  datatype Afectacion = GRAVADO | EXONERADO | INAFECTO | GRATUITO | EXPORTACION

  type Tasa = r: real | r >= 0.0 witness 0.0

  /** An active tax of a product: a rate on the base, or a fixed amount for each unit. */
  datatype Tributo = Tributo(montoFijo: bool, rate: Tasa, includedInPrice: bool, affectation: Afectacion)

  datatype LineaCalculada = LineaCalculada(
    variante: VarianteId, almacen: Option<AlmacenId>, cantidad: real, precioUnitario: real, montoBruto: real,
    descuentoMonto: real, descuentos: seq<Descuento>, montoImpuesto: real, montoOtrosTributos: real,
    impuestoIncluido: bool, afectacion: Afectacion, valorUnitario: real, total: real)

  datatype EstadoVenta = PENDIENTE_PAGO | PAGADA_PARCIALMENTE | PAGADA | ANULADA | DEVUELTA_PARCIALMENTE | DEVUELTA

  datatype Venta = Venta(
    clave: string, estado: EstadoVenta, lineas: seq<LineaCalculada>, subtotal: real, totalDescuento: real,
    totalImpuesto: real, otrosTributos: real, total: real, totalPagado: real)

  datatype LineaDevuelta = LineaDevuelta(linea: nat, cantidad: real, montoImpuesto: real, total: real, restock: bool)

  /** One SaleRefund row with its items. Nothing rejects or cancels a refund once it is made. */
  datatype Reembolso = Reembolso(
    venta: nat, clave: string, number: string, subtotal: real, totalImpuesto: real, total: real,
    lineas: seq<LineaDevuelta>)

  datatype FilaPromocion = FilaPromocion(promo: Promocion, usoMaximo: Option<int>, usoActual: int)

  /** An id is the row's position in its table. */
  datatype EstadoVentas = EstadoVentas(
    inv: Estado, ventas: seq<Venta>, reembolsos: seq<Reembolso>, promociones: seq<FilaPromocion>)

  const VENTAS_INICIAL: EstadoVentas := EstadoVentas(INICIAL, [], [], [])

  // ------------------------------------------------------------------ requests

  /** A requested line together with what the catalogue answers for it: its product, the price in
      force for that quantity (none when no price list has one) and its active taxes. */
  datatype LineaPedida = LineaPedida(
    variante: VarianteId, cantidad: real, almacen: Option<AlmacenId>,
    productoId: nat, precio: Option<real>, tributos: seq<Tributo>)

  /** `activas` are the promotions in force by state and dates when the sale is made. */
  datatype PedidoVenta = PedidoVenta(
    clave: string, lineas: seq<LineaPedida>, promocionIds: set<nat>, activas: set<nat>, pagos: seq<real>,
    almacenDefault: Option<AlmacenId>, hoy: nat)

  datatype ItemDevolucion = ItemDevolucion(linea: nat, cantidad: real, almacen: Option<AlmacenId>, restock: Option<bool>)

  datatype PedidoDevolucion = PedidoDevolucion(
    venta: nat, clave: string, number: string, items: seq<ItemDevolucion>, almacenDefault: Option<AlmacenId>)

  // ------------------------------------------------------------------ the lines of a sale

  /** cargarVigentes: confirmed, in force and with uses left. */
  function CargarVigentes(filas: seq<FilaPromocion>, ids: set<nat>, activas: set<nat>): seq<Promocion> {
    if |filas| == 0 then []
    else
      var n := |filas| - 1;
      var f := filas[n];
      CargarVigentes(filas[..n], ids, activas)
        + (if n in ids && n in activas && (f.usoMaximo.None? || f.usoActual < f.usoMaximo.value) then [f.promo.(id := n)] else [])
  }

  function SumarBruto(vs: map<VarianteId, Variante>): (real, LineaPedida) -> Resultado<real> {
    (acumulado: real, l: LineaPedida) =>
      if !VarianteActiva(vs, l.variante) then Err(NoEncontrado)
      else if l.precio.None? then Err(Conflicto)
      else Ok(acumulado + Valor(l.cantidad, l.precio.value))
  }

  /** The first tax that is a rate. */
  function Principal(ts: seq<Tributo>): Option<Tributo> {
    if |ts| == 0 then None
    else
      match Principal(ts[..|ts| - 1])
      case Some(t) => Some(t)
      case None => if ts[|ts| - 1].montoFijo then None else Some(ts[|ts| - 1])
  }

  function FijoPor(cantidad: real): Tributo -> real {
    (t: Tributo) => if t.montoFijo then t.rate * cantidad else 0.0
  }

  function Impuesto(base: real, principal: Option<Tributo>): real {
    match principal
    case None => 0.0
    case Some(t) => if t.includedInPrice then base * t.rate / (100.0 + t.rate) else base * t.rate / 100.0
  }

  /** One line: the discount comes off the gross, the tax is taken on what is left, and the fixed
      taxes go on top. */
  function CalcularLinea(l: LineaPedida, precio: real, almacen: Option<AlmacenId>, promos: seq<Promocion>, totalVenta: real): LineaCalculada {
    var bruto := Valor(l.cantidad, precio);
    var lp := LineaPromo(l.productoId, l.cantidad, precio, bruto);
    var sinPromos := |promos| == 0;
    var descuento := if sinPromos then 0.0 else TotalLinea(promos, lp, totalVenta);
    var base := bruto - descuento;
    var principal := Principal(l.tributos);
    var incluido := principal.Some? && principal.value.includedInPrice;
    var impuesto := Impuesto(base, principal);
    var otros := Suma(l.tributos, FijoPor(l.cantidad));
    var neto := if incluido then base - impuesto else base;
    LineaCalculada(
      l.variante, almacen, l.cantidad, precio, bruto, descuento,
      if sinPromos then [] else Detalles(promos, lp, totalVenta), impuesto, otros, incluido,
      if principal.Some? then principal.value.affectation else INAFECTO,
      if l.cantidad > 0.0 then neto / l.cantidad else 0.0,
      (if incluido then base else base + impuesto) + otros)
  }

  function Calcular(vs: map<VarianteId, Variante>, promos: seq<Promocion>, totalVenta: real, almacenDefault: Option<AlmacenId>)
    : (seq<LineaCalculada>, LineaPedida) -> Resultado<seq<LineaCalculada>>
  {
    (previas: seq<LineaCalculada>, l: LineaPedida) =>
      if l.precio.None? || l.variante !in vs then Err(Conflicto)
      else if !vs[l.variante].isStockTracked then Ok(previas + [CalcularLinea(l, l.precio.value, None, promos, totalVenta)])
      else
        var almacen := if l.almacen.Some? then l.almacen else almacenDefault;
        if almacen.None? then Err(Conflicto)
        else Ok(previas + [CalcularLinea(l, l.precio.value, almacen, promos, totalVenta)])
  }

  function CalcularLineas(s: EstadoVentas, p: PedidoVenta): Resultado<seq<LineaCalculada>> {
    var totalVenta :- Plegar(0.0, p.lineas, SumarBruto(s.inv.variantes));
    Plegar([], p.lineas, Calcular(s.inv.variantes, CargarVigentes(s.promociones, p.promocionIds, p.activas), totalVenta, p.almacenDefault))
  }

  function Base(): LineaCalculada -> real { (l: LineaCalculada) => l.montoBruto - l.descuentoMonto }
  function Rebaja(): LineaCalculada -> real { (l: LineaCalculada) => l.descuentoMonto }
  function Igv(): LineaCalculada -> real { (l: LineaCalculada) => l.montoImpuesto }
  function Otros(): LineaCalculada -> real { (l: LineaCalculada) => l.montoOtrosTributos }
  function Importe(): LineaCalculada -> real { (l: LineaCalculada) => l.total }
  function Pago(): real -> real { (x: real) => x }

  function ResolverEstado(total: real, totalPagado: real): EstadoVenta {
    if totalPagado >= total && total > 0.0 then PAGADA
    else if totalPagado > 0.0 then PAGADA_PARCIALMENTE
    else PENDIENTE_PAGO
  }

  /** The lines that move stock, numbered as in the sale. */
  function LineasConStock(lineas: seq<LineaCalculada>): seq<LineaStock> {
    if |lineas| == 0 then []
    else
      var l := lineas[|lineas| - 1];
      LineasConStock(lineas[..|lineas| - 1])
        + (if l.almacen.Some? then [LineaStock(Celda(l.almacen.value, l.variante), l.cantidad, |lineas|)] else [])
  }

  /** The promotions a sale used, each once. */
  function Usadas(lineas: seq<LineaCalculada>): set<nat> {
    if |lineas| == 0 then {} else Usadas(lineas[..|lineas| - 1]) + IdsDe(lineas[|lineas| - 1].descuentos)
  }

  function ContarUsos(filas: seq<FilaPromocion>, ids: set<nat>): (r: seq<FilaPromocion>)
    ensures |r| == |filas|
    ensures forall i :: 0 <= i < |filas| ==>
      r[i] == if i in ids then filas[i].(usoActual := filas[i].usoActual + 1) else filas[i]
  {
    if |filas| == 0 then []
    else
      var n := |filas| - 1;
      ContarUsos(filas[..n], ids) + [if n in ids then filas[n].(usoActual := filas[n].usoActual + 1) else filas[n]]
  }

  function LiberarUsos(filas: seq<FilaPromocion>, ids: set<nat>): (r: seq<FilaPromocion>)
    ensures |r| == |filas|
    ensures forall i :: 0 <= i < |filas| ==>
      r[i] == if i in ids && filas[i].usoActual > 0 then filas[i].(usoActual := filas[i].usoActual - 1) else filas[i]
  {
    if |filas| == 0 then []
    else
      var n := |filas| - 1;
      LiberarUsos(filas[..n], ids)
        + [if n in ids && filas[n].usoActual > 0 then filas[n].(usoActual := filas[n].usoActual - 1) else filas[n]]
  }

  predicate VentaConClave(ventas: seq<Venta>, clave: string) {
    exists i :: 0 <= i < |ventas| && ventas[i].clave == clave
  }

  function VentaDe(p: PedidoVenta, lineas: seq<LineaCalculada>): Venta {
    var total, pagado := Suma(lineas, Importe()), Suma(p.pagos, Pago());
    Venta(p.clave, ResolverEstado(total, pagado), lineas, Suma(lineas, Base()), Suma(lineas, Rebaja()),
          Suma(lineas, Igv()), Suma(lineas, Otros()), total, pagado)
  }

  predicate PedidoValido(p: PedidoVenta) {
    && |p.lineas| > 0 && (forall i :: 0 <= i < |p.lineas| ==> p.lineas[i].cantidad > 0.0)
    && forall i :: 0 <= i < |p.pagos| ==> p.pagos[i] > 0.0
  }

  /** crear: lines, stock and promotion uses in one transaction. */
  function Crear(s: EstadoVentas, p: PedidoVenta): Resultado<EstadoVentas> {
    if !PedidoValido(p) then Err(Invalido)
    else if VentaConClave(s.ventas, p.clave) then Ok(s)
    else
      var lineas :- CalcularLineas(s, p);
      var inv :- Vender(s.inv, |s.ventas|, LineasConStock(lineas), p.hoy);
      Ok(EstadoVentas(inv, s.ventas + [VentaDe(p, lineas)], s.reembolsos, ContarUsos(s.promociones, Usadas(lineas))))
  }

  // ------------------------------------------------------------------ refunds

  function CantidadDeLinea(l: nat): LineaDevuelta -> real {
    (d: LineaDevuelta) => if d.linea == l then d.cantidad else 0.0
  }

  function DevueltoEn(venta: nat, l: nat): Reembolso -> real {
    (r: Reembolso) => if r.venta == venta then Suma(r.lineas, CantidadDeLinea(l)) else 0.0
  }

  /** What has been returned of a line so far. */
  function Devuelto(reembolsos: seq<Reembolso>, venta: nat, l: nat): real {
    Suma(reembolsos, DevueltoEn(venta, l))
  }

  /** The part of an amount that corresponds to a part of a quantity. */
  function Proporcion(monto: real, cantidad: real, de: real): real {
    if de == 0.0 then 0.0 else monto * (cantidad / de)
  }

  function DevolverLinea(l: LineaCalculada, it: ItemDevolucion): LineaDevuelta {
    LineaDevuelta(it.linea, it.cantidad, Redondear2(Proporcion(l.montoImpuesto, it.cantidad, l.cantidad)),
                  Redondear2(Proporcion(l.total, it.cantidad, l.cantidad)), it.restock.GetOr(true))
  }

  /** Each item is checked against what earlier refunds returned, not against the other items. */
  function CalcularDevuelta(v: Venta, reembolsos: seq<Reembolso>, venta: nat)
    : (seq<LineaDevuelta>, ItemDevolucion) -> Resultado<seq<LineaDevuelta>>
  {
    (previas: seq<LineaDevuelta>, it: ItemDevolucion) =>
      if it.linea >= |v.lineas| then Err(NoEncontrado)
      else if it.cantidad + Devuelto(reembolsos, venta, it.linea) > v.lineas[it.linea].cantidad then Err(Conflicto)
      else Ok(previas + [DevolverLinea(v.lineas[it.linea], it)])
  }

  /** The stock of one refunded line: put back unless it is scrapped or the variant is not tracked. */
  function ReponerLinea(vs: map<VarianteId, Variante>, v: Venta, devolucion: nat, almacenDefault: Option<AlmacenId>)
    : (Kardex, ItemDevolucion) -> Resultado<Kardex>
  {
    (k: Kardex, it: ItemDevolucion) =>
      if it.linea >= |v.lineas| || v.lineas[it.linea].variante !in vs then Err(NoEncontrado)
      else
        var variante := v.lineas[it.linea].variante;
        if !it.restock.GetOr(true) || !vs[variante].isStockTracked then Ok(k)
        else
          var almacen := if it.almacen.Some? then it.almacen else almacenDefault;
          if almacen.None? then Err(Conflicto)
          else Reingresar(k, Celda(almacen.value, variante), it.cantidad, devolucion)
  }

  function Neto(): LineaDevuelta -> real { (d: LineaDevuelta) => d.total - d.montoImpuesto }
  function ImpuestoDevuelto(): LineaDevuelta -> real { (d: LineaDevuelta) => d.montoImpuesto }
  function TotalDevuelto(): LineaDevuelta -> real { (d: LineaDevuelta) => d.total }

  predicate LineaCompleta(v: Venta, reembolsos: seq<Reembolso>, venta: nat, l: nat)
    requires l < |v.lineas|
  {
    Devuelto(reembolsos, venta, l) >= v.lineas[l].cantidad
  }

  predicate Todo(v: Venta, reembolsos: seq<Reembolso>, venta: nat) {
    forall l :: 0 <= l < |v.lineas| ==> LineaCompleta(v, reembolsos, venta, l)
  }

  predicate Algo(v: Venta, reembolsos: seq<Reembolso>, venta: nat) {
    exists l :: 0 <= l < |v.lineas| && Devuelto(reembolsos, venta, l) > 0.0
  }

  function ReembolsoDe(p: PedidoDevolucion, lineas: seq<LineaDevuelta>): Reembolso {
    Reembolso(p.venta, p.clave, p.number, Suma(lineas, Neto()), Suma(lineas, ImpuestoDevuelto()), Suma(lineas, TotalDevuelto()), lineas)
  }

  function EstadoTrasDevolver(v: Venta, reembolsos: seq<Reembolso>, venta: nat): EstadoVenta {
    if !Algo(v, reembolsos, venta) then v.estado
    else if Todo(v, reembolsos, venta) then DEVUELTA else DEVUELTA_PARCIALMENTE
  }

  /** A refund on record: its sale changes state, and gives its promotion uses back when nothing of
      it is left. */
  function AplicarReembolso(s: EstadoVentas, r: Reembolso): EstadoVentas
    requires r.venta < |s.ventas|
  {
    var v, reembolsos := s.ventas[r.venta], s.reembolsos + [r];
    EstadoVentas(
      s.inv,
      s.ventas[r.venta := v.(estado := EstadoTrasDevolver(v, reembolsos, r.venta))],
      reembolsos,
      if Todo(v, reembolsos, r.venta) then LiberarUsos(s.promociones, Usadas(v.lineas)) else s.promociones)
  }

  predicate DevolucionValida(p: PedidoDevolucion) {
    |p.items| > 0 && forall i :: 0 <= i < |p.items| ==> p.items[i].cantidad > 0.0
  }

  predicate ReembolsoConClave(reembolsos: seq<Reembolso>, clave: string) {
    exists i :: 0 <= i < |reembolsos| && reembolsos[i].clave == clave
  }

  predicate ReembolsoConNumero(reembolsos: seq<Reembolso>, number: string) {
    exists i :: 0 <= i < |reembolsos| && reembolsos[i].number == number
  }

  /** devolver: amounts, stock, state of the sale and promotion uses in one transaction. */
  function Devolver(s: EstadoVentas, p: PedidoDevolucion): Resultado<EstadoVentas> {
    if !DevolucionValida(p) then Err(Invalido)
    else if p.venta >= |s.ventas| then Err(NoEncontrado)
    else if ReembolsoConClave(s.reembolsos, p.clave) then Ok(s)
    else if s.ventas[p.venta].estado == ANULADA then Err(Conflicto)
    else
      var v := s.ventas[p.venta];
      var lineas :- Plegar([], p.items, CalcularDevuelta(v, s.reembolsos, p.venta));
      if ReembolsoConNumero(s.reembolsos, p.number) then Err(ClaveRepetida)
      else
        var k :- Plegar(s.inv.kardex, p.items, ReponerLinea(s.inv.variantes, v, |s.reembolsos|, p.almacenDefault));
        Ok(AplicarReembolso(s.(inv := s.inv.(kardex := k)), ReembolsoDe(p, lineas)))
  }

  // ------------------------------------------------------------------ promotions table

  function CrearPromocion(s: EstadoVentas, p: Promocion, usoMaximo: Option<int>): EstadoVentas {
    s.(promociones := s.promociones + [FilaPromocion(p, usoMaximo, 0)])
  }

  /** actualizarPromocion may change anything but the number of uses. */
  function EditarPromocion(s: EstadoVentas, id: nat, p: Promocion, usoMaximo: Option<int>): Resultado<EstadoVentas> {
    if id >= |s.promociones| then Err(NoEncontrado)
    else Ok(s.(promociones := s.promociones[id := FilaPromocion(p, usoMaximo, s.promociones[id].usoActual)]))
  }
}
