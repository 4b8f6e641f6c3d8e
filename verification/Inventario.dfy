/** The stock services as functions of the tables they read and write. Every operation is one
    transaction: it yields the next state, or an error and no state at all. */
module Inventario {
  import opened Comun
  import opened Sumas
  import opened Kardex
  import opened Movimientos
  import opened Lotes
  import opened Existencias

  // ------------------------------------------------------------------ tables

  datatype EstadoReserva = ACTIVA | PARCIALMENTE_ATENDIDA | LIBERADA
  datatype Reserva = Reserva(celda: Celda, cantidad: real, cantidadAtendida: real, estado: EstadoReserva)

  datatype EstadoTransferencia = EN_TRANSITO | RECIBIDA_PARCIALMENTE | RECIBIDA | CANCELADA
  datatype Articulo = Articulo(variante: VarianteId, shippedQty: real, receivedQty: real)
  datatype Transferencia = Transferencia(
    origen: AlmacenId, destino: AlmacenId, estado: EstadoTransferencia, articulos: seq<Articulo>)

  datatype EstadoConteo = EN_PROGRESO | ENVIADO | CONTABILIZADO | CANCELADO
  datatype ItemConteo = ItemConteo(variante: VarianteId, esperada: real, contada: Option<real>, diferencia: Option<real>)
  datatype ConteoFisico = ConteoFisico(almacen: AlmacenId, estado: EstadoConteo, articulos: seq<ItemConteo>)

  datatype RecepcionCompra = RecepcionCompra(clave: string, numero: string)

  /** A quantity of a variant, as requests carry them. */
  datatype Pedido = Pedido(variante: VarianteId, cantidad: real)

  datatype ItemCompra = ItemCompra(
    variante: VarianteId, cantidad: real, costoUnitario: real, lotNumber: string, venceEn: Option<nat>)

  /** A request names something, and asks for some of each thing it names. */
  predicate TodosPositivos(ps: seq<Pedido>) {
    |ps| > 0 && forall i :: 0 <= i < |ps| ==> ps[i].cantidad > 0.0
  }

  predicate NingunoNegativo(ps: seq<Pedido>) {
    |ps| > 0 && forall i :: 0 <= i < |ps| ==> ps[i].cantidad >= 0.0
  }

  /** Rows are never deleted, so an id is the row's position in its table. */
  datatype Estado = Estado(
    almacenes: map<AlmacenId, bool>,
    variantes: map<VarianteId, Variante>,
    kardex: Kardex,
    lotes: seq<Lote>,
    recepciones: seq<RecepcionCompra>,
    recibidos: seq<ItemRecepcion>,
    reservas: seq<Reserva>,
    transferencias: seq<Transferencia>,
    conteos: seq<ConteoFisico>)

  const INICIAL: Estado := Estado(map[], map[], Kardex(map[], []), [], [], [], [], [], [])

  predicate AlmacenActivo(s: Estado, a: AlmacenId) {
    a in s.almacenes && s.almacenes[a]
  }

  predicate VarianteActiva(vs: map<VarianteId, Variante>, v: VarianteId) {
    v in vs && vs[v].activa
  }

  // ------------------------------------------------------------------ catalogue

  function CambiarAlmacen(s: Estado, a: AlmacenId, activo: bool): Estado {
    s.(almacenes := s.almacenes[a := activo])
  }

  /** A variant is created with both flags; only whether it is tracked or active changes later. */
  function CambiarVariante(s: Estado, v: VarianteId, isStockTracked: bool, allowNegativeStock: bool, activa: bool): Estado {
    var permite := if v in s.variantes then s.variantes[v].allowNegativeStock else allowNegativeStock;
    s.(variantes := s.variantes[v := Variante(isStockTracked, permite, activa)])
  }

  // ------------------------------------------------------------------ opening and adjustments

  function ExigirVarianteConStock(s: Estado, v: VarianteId): Resultado<Variante> {
    if !VarianteActiva(s.variantes, v) then Err(NoEncontrado)
    else if !s.variantes[v].isStockTracked then Err(Conflicto)
    else Ok(s.variantes[v])
  }

  function RegistrarStockInicial(s: Estado, c: Celda, cantidad: real, costo: real, clave: string): Resultado<Estado> {
    if cantidad <= 0.0 || costo < 0.0 || clave == "" then Err(Invalido)
    else if ClaveUsada(s.kardex.ledger, Cliente(clave)) then Ok(s)
    else if !AlmacenActivo(s, c.almacen) then Err(NoEncontrado)
    else
      var _ :- ExigirVarianteConStock(s, c.variante);
      if c in s.kardex.saldos then Err(Conflicto)
      else
        var k :- Abrir(s.kardex, c, cantidad, costo, Cliente(clave));
        Ok(s.(kardex := k))
  }

  /** cargarStockInicial: the opening the catalogue posts for a variant it has just created. */
  function CargarStockInicial(s: Estado, c: Celda, cantidad: real, costo: real): Resultado<Estado> {
    if cantidad <= 0.0 || costo < 0.0 then Err(Invalido)
    else if c.variante !in s.variantes then Err(NoEncontrado)
    else if !s.variantes[c.variante].isStockTracked then Err(Invalido)
    else if !AlmacenActivo(s, c.almacen) then Err(NoEncontrado)
    else if c in s.kardex.saldos then Err(ClaveRepetida)
    else
      var k :- Abrir(s.kardex, c, cantidad, costo, Apertura(c.variante, c.almacen));
      Ok(s.(kardex := k))
  }

  /** The key of an adjustment: the client's, or a fresh one when the client sent none. */
  function ClaveAjuste(c: Celda, clave: string, aleatorio: nat): Clave {
    if clave != "" then Ajuste(clave) else AjusteLibre(c.variante, c.almacen, aleatorio)
  }

  function AjustarStock(s: Estado, c: Celda, esEntrada: bool, cantidad: real, costo: Option<real>,
                        clave: string, aleatorio: nat): Resultado<Estado> {
    if cantidad <= 0.0 || (costo.Some? && costo.value < 0.0) then Err(Invalido)
    else if !AlmacenActivo(s, c.almacen) then Err(NoEncontrado)
    else
      var v :- ExigirVarianteConStock(s, c.variante);
      if clave != "" && ClaveUsada(s.kardex.ledger, Ajuste(clave)) then Ok(s)
      else
        var k :- Ajustar(s.kardex, c, esEntrada, cantidad, costo, v.allowNegativeStock, ClaveAjuste(c, clave, aleatorio));
        Ok(s.(kardex := k))
  }

  function DefinirNivelStock(s: Estado, c: Celda, minimo: real, maximo: real): Resultado<Estado> {
    if minimo < 0.0 || maximo < 0.0 then Err(Invalido)
    else if maximo > 0.0 && maximo < minimo then Err(Conflicto)
    else if !AlmacenActivo(s, c.almacen) then Err(NoEncontrado)
    else
      var _ :- ExigirVarianteConStock(s, c.variante);
      Ok(s.(kardex := s.kardex.(saldos := s.kardex.saldos[c := Fila(s.kardex, c).(stockMinimo := minimo, stockMaximo := maximo)])))
  }

  // ------------------------------------------------------------------ reservations

  predicate ReservaAbierta(r: Reserva) {
    r.estado == ACTIVA || r.estado == PARCIALMENTE_ATENDIDA
  }

  function CrearReserva(s: Estado, c: Celda, cantidad: real): Resultado<Estado> {
    if cantidad <= 0.0 then Err(Invalido)
    else
      var _ :- ExigirVarianteConStock(s, c.variante);
      if c !in s.kardex.saldos then Err(Conflicto)
      else
        var f := s.kardex.saldos[c];
        if f.enStock - f.reserved < cantidad then Err(Conflicto)
        else
          var reserved := f.reserved + cantidad;
          Ok(s.(kardex := s.kardex.(saldos := s.kardex.saldos[c := f.(reserved := reserved, available := f.enStock - reserved)]),
                reservas := s.reservas + [Reserva(c, cantidad, 0.0, ACTIVA)]))
  }

  /** Give `pendiente` back from reserved to available; the clamp is the service's. */
  function DevolverReservado(k: Kardex, c: Celda, pendiente: real): Kardex {
    if pendiente > 0.0 && c in k.saldos then
      var f := k.saldos[c];
      var reserved := if f.reserved - pendiente < 0.0 then 0.0 else f.reserved - pendiente;
      k.(saldos := k.saldos[c := f.(reserved := reserved, available := f.enStock - reserved)])
    else k
  }

  function LiberarReserva(s: Estado, id: nat): Resultado<Estado> {
    if id >= |s.reservas| then Err(NoEncontrado)
    else if !ReservaAbierta(s.reservas[id]) then Err(Conflicto)
    else
      var r := s.reservas[id];
      Ok(s.(kardex := DevolverReservado(s.kardex, r.celda, r.cantidad - r.cantidadAtendida),
            reservas := s.reservas[id := r.(estado := LIBERADA)]))
  }

  // ------------------------------------------------------------------ physical counts

  predicate Contable(vs: map<VarianteId, Variante>, v: VarianteId) {
    VarianteActiva(vs, v) && vs[v].isStockTracked
  }

  /** The rows a count starts from. The database may return them in any order; `orden` is that order. */
  predicate FilasContables(s: Estado, almacen: AlmacenId, orden: seq<VarianteId>) {
    && (forall i, j :: 0 <= i < j < |orden| ==> orden[i] != orden[j])
    && (forall v :: v in orden ==>
          Celda(almacen, v) in s.kardex.saldos && Contable(s.variantes, v))
    && (forall c :: c in s.kardex.saldos && c.almacen == almacen && Contable(s.variantes, c.variante) ==> c.variante in orden)
  }

  function FotoDe(k: Kardex, almacen: AlmacenId, orden: seq<VarianteId>): seq<ItemConteo> {
    if |orden| == 0 then []
    else
      var v := orden[|orden| - 1];
      FotoDe(k, almacen, orden[..|orden| - 1]) + [ItemConteo(v, Fila(k, Celda(almacen, v)).enStock, None, None)]
  }

  function CrearConteo(s: Estado, almacen: AlmacenId, orden: seq<VarianteId>): Resultado<Estado> {
    if !AlmacenActivo(s, almacen) then Err(NoEncontrado)
    else if !FilasContables(s, almacen, orden) then Err(Invalido)
    else Ok(s.(conteos := s.conteos + [ConteoFisico(almacen, EN_PROGRESO, FotoDe(s.kardex, almacen, orden))]))
  }

  function IndiceItem(articulos: seq<ItemConteo>, v: VarianteId): (i: Option<nat>)
    ensures i.Some? ==> i.value < |articulos| && articulos[i.value].variante == v
    ensures i.None? ==> forall j :: 0 <= j < |articulos| ==> articulos[j].variante != v
  {
    if |articulos| == 0 then None
    else if articulos[|articulos| - 1].variante == v then Some(|articulos| - 1)
    else IndiceItem(articulos[..|articulos| - 1], v)
  }

  function AnotarContada(vs: map<VarianteId, Variante>): (seq<ItemConteo>, Pedido) -> Resultado<seq<ItemConteo>> {
    (articulos: seq<ItemConteo>, p: Pedido) =>
      match IndiceItem(articulos, p.variante)
      case Some(i) =>
        Ok(articulos[i := articulos[i].(contada := Some(p.cantidad), diferencia := Some(p.cantidad - articulos[i].esperada))])
      case None =>
        if !VarianteActiva(vs, p.variante) then Err(NoEncontrado)
        else Ok(articulos + [ItemConteo(p.variante, 0.0, Some(p.cantidad), Some(p.cantidad))])
  }

  predicate ConteoAbierto(c: ConteoFisico) {
    c.estado == EN_PROGRESO || c.estado == ENVIADO
  }

  function RegistrarConteo(s: Estado, id: nat, contadas: seq<Pedido>): Resultado<Estado> {
    if !NingunoNegativo(contadas) then Err(Invalido)
    else if id >= |s.conteos| then Err(NoEncontrado)
    else if !ConteoAbierto(s.conteos[id]) then Err(Conflicto)
    else
      var articulos :- Plegar(s.conteos[id].articulos, contadas, AnotarContada(s.variantes));
      Ok(s.(conteos := s.conteos[id := s.conteos[id].(articulos := articulos)]))
  }

  datatype Contado = Contado(kardex: Kardex, articulos: seq<ItemConteo>)

  /** Post one counted item against the live stock; items nobody counted are kept as they are. */
  function ContarItem(almacen: AlmacenId, conteo: nat): (Contado, ItemConteo) -> Resultado<Contado> {
    (a: Contado, item: ItemConteo) =>
      if item.contada.None? then Ok(a.(articulos := a.articulos + [item]))
      else
        var c := Celda(almacen, item.variante);
        var vivo := Fila(a.kardex, c).enStock;
        var k :- Contar(a.kardex, c, item.contada.value, conteo);
        Ok(Contado(k, a.articulos + [item.(esperada := vivo, diferencia := Some(item.contada.value - vivo))]))
  }

  function ContabilizarConteo(s: Estado, id: nat): Resultado<Estado> {
    if id >= |s.conteos| then Err(NoEncontrado)
    else if !ConteoAbierto(s.conteos[id]) then Err(Conflicto)
    else
      var c := s.conteos[id];
      var r :- Plegar(Contado(s.kardex, []), c.articulos, ContarItem(c.almacen, id));
      Ok(s.(kardex := r.kardex, conteos := s.conteos[id := c.(articulos := r.articulos, estado := CONTABILIZADO)]))
  }

  function CancelarConteo(s: Estado, id: nat): Resultado<Estado> {
    if id >= |s.conteos| then Err(NoEncontrado)
    else if s.conteos[id].estado == CONTABILIZADO then Err(Conflicto)
    else Ok(s.(conteos := s.conteos[id := s.conteos[id].(estado := CANCELADO)]))
  }

  // ------------------------------------------------------------------ transfers

  function IndicePedido(ps: seq<Pedido>, v: VarianteId): (i: Option<nat>)
    ensures i.Some? ==> i.value < |ps| && ps[i.value].variante == v
    ensures i.None? ==> forall j :: 0 <= j < |ps| ==> ps[j].variante != v
  {
    if |ps| == 0 then None
    else if ps[|ps| - 1].variante == v then Some(|ps| - 1)
    else IndicePedido(ps[..|ps| - 1], v)
  }

  function Agregar(ps: seq<Pedido>, p: Pedido): seq<Pedido> {
    match IndicePedido(ps, p.variante)
    case Some(i) => ps[i := ps[i].(cantidad := ps[i].cantidad + p.cantidad)]
    case None => ps + [p]
  }

  /** Quantities added up by variant, in order of first appearance. */
  function Consolidar(ps: seq<Pedido>): seq<Pedido> {
    if |ps| == 0 then [] else Agregar(Consolidar(ps[..|ps| - 1]), ps[|ps| - 1])
  }

  predicate SalidaConClave(ledger: seq<Asiento>, clave: string) {
    exists a :: a in ledger && a.tipo == TRANSFERENCIA_SALIDA && a.clave.TransfSalida? && a.clave.clave == clave
  }

  predicate EntradaConClave(ledger: seq<Asiento>, clave: string) {
    exists a :: a in ledger && a.tipo == TRANSFERENCIA_ENTRADA && a.clave.TransfEntrada? && a.clave.clave == clave
  }

  function DespachoDe(vs: map<VarianteId, Variante>, origen: AlmacenId, destino: AlmacenId, t: nat, clave: string)
    : (Kardex, Pedido) -> Resultado<Kardex>
  {
    (k: Kardex, p: Pedido) =>
      if !VarianteActiva(vs, p.variante) then Err(NoEncontrado)
      else if !vs[p.variante].isStockTracked then Err(Conflicto)
      else Despachar(k, Celda(origen, p.variante), Celda(destino, p.variante), p.cantidad,
                     vs[p.variante].allowNegativeStock, t, TransfSalida(clave, p.variante))
  }

  function ArticulosDe(ps: seq<Pedido>): (r: seq<Articulo>)
    ensures |r| == |ps|
    ensures forall i :: 0 <= i < |r| ==> r[i] == Articulo(ps[i].variante, ps[i].cantidad, 0.0)
  {
    if |ps| == 0 then []
    else ArticulosDe(ps[..|ps| - 1]) + [Articulo(ps[|ps| - 1].variante, ps[|ps| - 1].cantidad, 0.0)]
  }

  function CrearTransferencia(s: Estado, origen: AlmacenId, destino: AlmacenId, pedidos: seq<Pedido>, clave: string): Resultado<Estado> {
    if !TodosPositivos(pedidos) then Err(Invalido)
    else if origen == destino then Err(Conflicto)
    else if SalidaConClave(s.kardex.ledger, clave) then Ok(s)
    else if !AlmacenActivo(s, origen) || !AlmacenActivo(s, destino) then Err(NoEncontrado)
    else
      var ps := Consolidar(pedidos);
      var t := |s.transferencias|;
      var k :- Plegar(s.kardex, ps, DespachoDe(s.variantes, origen, destino, t, clave));
      Ok(s.(kardex := k, transferencias := s.transferencias + [Transferencia(origen, destino, EN_TRANSITO, ArticulosDe(ps))]))
  }

  /** Unit cost the exit of a transfer was recorded at. */
  function CostoSalida(ledger: seq<Asiento>, t: nat, v: VarianteId): Option<real> {
    if |ledger| == 0 then None
    else
      match CostoSalida(ledger[..|ledger| - 1], t, v)
      case Some(x) => Some(x)
      case None =>
        var a := ledger[|ledger| - 1];
        if a.correlacion == Some(t) && a.celda.variante == v && a.tipo == TRANSFERENCIA_SALIDA
        then Some(a.costoUnitario) else None
  }

  function CostoDe(ledger: seq<Asiento>, t: nat, v: VarianteId): real {
    CostoSalida(ledger, t, v).GetOr(0.0)
  }

  predicate TransferenciaAbierta(t: Transferencia) {
    t.estado == EN_TRANSITO || t.estado == RECIBIDA_PARCIALMENTE
  }

  function SoloPositivos(ps: seq<Pedido>): seq<Pedido> {
    if |ps| == 0 then []
    else
      SoloPositivos(ps[..|ps| - 1]) + (if ps[|ps| - 1].cantidad <= 0.0 then [] else [ps[|ps| - 1]])
  }

  /** What the request receives of a variant; zero when it does not name it. */
  function Recibe(ps: seq<Pedido>, v: VarianteId): real {
    match IndicePedido(ps, v)
    case None => 0.0
    case Some(i) => if ps[i].cantidad <= 0.0 then 0.0 else ps[i].cantidad
  }

  datatype Recibido = Recibido(kardex: Kardex, articulos: seq<Articulo>)

  function RecibirItem(ledger: seq<Asiento>, ps: seq<Pedido>, destino: AlmacenId, t: nat, clave: string)
    : (Recibido, Articulo) -> Resultado<Recibido>
  {
    (a: Recibido, item: Articulo) =>
      var r := Recibe(ps, item.variante);
      if r == 0.0 then Ok(a.(articulos := a.articulos + [item]))
      else if r > item.shippedQty - item.receivedQty then Err(Conflicto)
      else
        var k :- RecibirArticulo(a.kardex, Celda(destino, item.variante), r, CostoDe(ledger, t, item.variante), t,
                                 TransfEntrada(clave, item.variante));
        Ok(Recibido(k, a.articulos + [item.(receivedQty := item.receivedQty + r)]))
  }

  predicate TodoRecibido(articulos: seq<Articulo>) {
    forall i :: 0 <= i < |articulos| ==> articulos[i].receivedQty >= articulos[i].shippedQty
  }

  function RecibirTransferencia(s: Estado, id: nat, pedidos: seq<Pedido>, clave: string): Resultado<Estado> {
    if !NingunoNegativo(pedidos) then Err(Invalido)
    else if id >= |s.transferencias| then Err(NoEncontrado)
    else if EntradaConClave(s.kardex.ledger, clave) then Ok(s)
    else if !TransferenciaAbierta(s.transferencias[id]) then Err(Conflicto)
    else
      var t := s.transferencias[id];
      var ps := Consolidar(SoloPositivos(pedidos));
      var r :- Plegar(Recibido(s.kardex, []), t.articulos, RecibirItem(s.kardex.ledger, ps, t.destino, id, clave));
      Ok(s.(kardex := r.kardex,
            transferencias := s.transferencias[id := t.(articulos := r.articulos,
              estado := if TodoRecibido(r.articulos) then RECIBIDA else RECIBIDA_PARCIALMENTE)]))
  }

  function CancelarItem(ledger: seq<Asiento>, origen: AlmacenId, destino: AlmacenId, t: nat)
    : (Kardex, Articulo) -> Resultado<Kardex>
  {
    (k: Kardex, item: Articulo) =>
      if item.shippedQty <= 0.0 then Ok(k)
      else CancelarArticulo(k, Celda(origen, item.variante), Celda(destino, item.variante), item.shippedQty,
                            CostoDe(ledger, t, item.variante), t)
  }

  predicate AlgoRecibido(articulos: seq<Articulo>) {
    exists i :: 0 <= i < |articulos| && articulos[i].receivedQty > 0.0
  }

  function CancelarTransferencia(s: Estado, id: nat): Resultado<Estado> {
    if id >= |s.transferencias| then Err(NoEncontrado)
    else
      var t := s.transferencias[id];
      if t.estado != EN_TRANSITO then Err(Conflicto)
      else if AlgoRecibido(t.articulos) then Err(Conflicto)
      else
        var k :- Plegar(s.kardex, t.articulos, CancelarItem(s.kardex.ledger, t.origen, t.destino, id));
        Ok(s.(kardex := k, transferencias := s.transferencias[id := t.(estado := CANCELADA)]))
  }

  // ------------------------------------------------------------------ purchases

  datatype Entrada = Entrada(kardex: Kardex, lotes: seq<Lote>, recibidos: seq<ItemRecepcion>)

  function IngresarItem(almacen: AlmacenId, recepcion: nat): (Entrada, ItemCompra) -> Resultado<Entrada> {
    (e: Entrada, item: ItemCompra) =>
      var c := Celda(almacen, item.variante);
      var k :- Ingresar(e.kardex, c, item.cantidad, item.costoUnitario, recepcion);
      Ok(Entrada(k,
                 if item.lotNumber != "" then RegistrarLote(e.lotes, c, item.lotNumber, item.cantidad, item.venceEn) else e.lotes,
                 e.recibidos + [ItemRecepcion(recepcion, c, item.cantidad, item.costoUnitario, item.lotNumber, item.venceEn)]))
  }

  predicate RecepcionConClave(recepciones: seq<RecepcionCompra>, clave: string) {
    exists i :: 0 <= i < |recepciones| && recepciones[i].clave == clave
  }

  predicate RecepcionConNumero(recepciones: seq<RecepcionCompra>, numero: string) {
    exists i :: 0 <= i < |recepciones| && recepciones[i].numero == numero
  }

  /** A line for a variant whose stock is not tracked, such as a service. */
  predicate ConServicios(vs: map<VarianteId, Variante>, items: seq<ItemCompra>) {
    exists i :: 0 <= i < |items| && items[i].variante in vs && !vs[items[i].variante].isStockTracked
  }

  predicate ConDesconocidas(vs: map<VarianteId, Variante>, items: seq<ItemCompra>) {
    exists i :: 0 <= i < |items| && items[i].variante !in vs
  }

  predicate CantidadesPositivas(items: seq<ItemCompra>) {
    |items| > 0 && forall i :: 0 <= i < |items| ==> items[i].cantidad > 0.0
  }

  function Recepcionar(s: Estado, clave: string, numero: string, almacen: AlmacenId, items: seq<ItemCompra>): Resultado<Estado> {
    if !CantidadesPositivas(items) then Err(Invalido)
    else if RecepcionConClave(s.recepciones, clave) then Ok(s)
    else if ConServicios(s.variantes, items) then Err(Conflicto)
    else if RecepcionConNumero(s.recepciones, numero) then Err(ClaveRepetida)
    else if almacen !in s.almacenes || ConDesconocidas(s.variantes, items) then Err(NoEncontrado)
    else
      var r :- Plegar(Entrada(s.kardex, s.lotes, s.recibidos), items, IngresarItem(almacen, |s.recepciones|));
      Ok(s.(kardex := r.kardex, lotes := r.lotes, recibidos := r.recibidos,
            recepciones := s.recepciones + [RecepcionCompra(clave, numero)]))
  }

  // ------------------------------------------------------------------ sales and refunds

  function VenderLinea(vs: map<VarianteId, Variante>, venta: nat, hoy: nat): (Existencias, LineaStock) -> Resultado<Existencias> {
    (e: Existencias, l: LineaStock) =>
      if l.celda.variante !in vs then Err(NoEncontrado)
      else if !vs[l.celda.variante].isStockTracked then Ok(e)
      else RegistrarLinea(e, l, vs[l.celda.variante].allowNegativeStock, venta, hoy)
  }

  predicate LineasPositivas(lineas: seq<LineaStock>) {
    forall i :: 0 <= i < |lineas| ==> lineas[i].cantidad > 0.0
  }

  /** The stock part of a sale: every tracked line leaves its warehouse, or none does. */
  function Vender(s: Estado, venta: nat, lineas: seq<LineaStock>, hoy: nat): Resultado<Estado> {
    if !LineasPositivas(lineas) then Err(Invalido)
    else
      var e :- Plegar(Existencias(s.kardex, s.lotes), lineas, VenderLinea(s.variantes, venta, hoy));
      Ok(s.(kardex := e.kardex, lotes := e.lotes))
  }

  /** A refunded quantity put back into a warehouse. */
  datatype Reingreso = Reingreso(celda: Celda, cantidad: real)

  function ReingresarUno(vs: map<VarianteId, Variante>, devolucion: nat): (Kardex, Reingreso) -> Resultado<Kardex> {
    (k: Kardex, r: Reingreso) =>
      if r.celda.variante !in vs then Err(NoEncontrado)
      else Reingresar(k, r.celda, r.cantidad, devolucion)
  }

  predicate ReingresosPositivos(items: seq<Reingreso>) {
    forall i :: 0 <= i < |items| ==> items[i].cantidad > 0.0
  }

  /** The stock part of a refund. */
  function ReingresarStock(s: Estado, devolucion: nat, items: seq<Reingreso>): Resultado<Estado> {
    if !ReingresosPositivos(items) then Err(Invalido)
    else
      var k :- Plegar(s.kardex, items, ReingresarUno(s.variantes, devolucion));
      Ok(s.(kardex := k))
  }
}
