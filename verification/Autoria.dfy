/** Who wrote each entry of the ledger: after any run every entry is of one request of the run, made in the
    state it was made in, and is of the kind, cell, document, key and cost that request asked for. */
module Autoria {
  import opened Comun
  import opened Sumas
  import opened Kardex
  import opened Movimientos
  import opened Lotes
  import opened Existencias
  import opened Inventario
  import opened Invariante
  import opened Corridas

  // ------------------------------------------------------------------ the entries a request may write

  /** Some line of the receipt is this entry. */
  predicate DeItem(items: seq<ItemCompra>, a: Asiento) {
    exists i :: 0 <= i < |items| && items[i].variante == a.celda.variante && items[i].cantidad == a.cantidad && items[i].costoUnitario == a.costoUnitario
  }

  predicate DeLineaVendida(lineas: seq<LineaStock>, a: Asiento) {
    exists i :: 0 <= i < |lineas| && lineas[i].celda == a.celda && a.clave.VentaLinea? && lineas[i].numero == a.clave.linea
  }

  predicate DeReingreso(rs: seq<Reingreso>, a: Asiento) {
    exists i :: 0 <= i < |rs| && rs[i].celda == a.celda && rs[i].cantidad == a.cantidad
  }

  predicate DeArticulo(articulos: seq<Articulo>, v: VarianteId) {
    exists i :: 0 <= i < |articulos| && articulos[i].variante == v
  }

  predicate DePedido(pedidos: seq<Pedido>, v: VarianteId) {
    exists i :: 0 <= i < |pedidos| && pedidos[i].variante == v
  }

  /** Entry a is one that request p, made in state s, writes. */
  predicate EsDe(s: Estado, p: Peticion, a: Asiento) {
    match p
    case PStockInicial(c, q, costo, clave) =>
      a.celda == c && a.tipo == APERTURA && a.cantidad == q && a.costoUnitario == costo && a.correlacion == None && a.clave == Cliente(clave)
    case PStockCatalogo(c, q, costo) =>
      a.celda == c && a.tipo == APERTURA && a.cantidad == q && a.costoUnitario == costo && a.correlacion == None
        && a.clave == Apertura(c.variante, c.almacen)
    case PAjuste(c, esEntrada, q, costo, clave, aleatorio) =>
      a.celda == c && a.correlacion == None && a.clave == ClaveAjuste(c, clave, aleatorio)
        && (if esEntrada then a.tipo == AJUSTE_ENTRADA && a.cantidad == q else a.tipo == AJUSTE_SALIDA && a.cantidad == -q)
        && (esEntrada && costo.Some? ==> a.costoUnitario == costo.value)
    case PContabilizar(id) =>
      id < |s.conteos| && a.celda.almacen == s.conteos[id].almacen && a.correlacion == Some(id) && a.clave == Conteo(id, a.celda.variante)
        && (if a.cantidad > 0.0 then a.tipo == GANANCIA_CONTEO else a.tipo == PERDIDA_CONTEO)
    case PTransferir(o, _, pedidos, clave) =>
      a.celda.almacen == o && a.tipo == TRANSFERENCIA_SALIDA && a.correlacion == Some(|s.transferencias|)
        && a.clave == TransfSalida(clave, a.celda.variante)
    case PRecibir(id, _, clave) =>
      id < |s.transferencias| && a.celda.almacen == s.transferencias[id].destino && a.tipo == TRANSFERENCIA_ENTRADA && a.correlacion == Some(id)
        && a.clave == TransfEntrada(clave, a.celda.variante) && DeArticulo(s.transferencias[id].articulos, a.celda.variante)
        && a.costoUnitario == CostoDe(s.kardex.ledger, id, a.celda.variante)
    case PCancelar(id) =>
      id < |s.transferencias| && a.celda.almacen == s.transferencias[id].origen && a.tipo == TRANSFERENCIA_ENTRADA && a.correlacion == Some(id)
        && a.clave == TransfCancel(id, a.celda.variante) && DeArticulo(s.transferencias[id].articulos, a.celda.variante)
        && a.costoUnitario == CostoDe(s.kardex.ledger, id, a.celda.variante)
    case PRecepcion(_, _, almacen, items) =>
      a.celda.almacen == almacen && a.tipo == RECEPCION_COMPRA && a.correlacion == None
        && a.clave == Recepcion(|s.recepciones|, almacen, a.celda.variante) && DeItem(items, a)
    case PVenta(venta, lineas, _) =>
      a.tipo == VENTA && a.correlacion == None && DeLineaVendida(lineas, a)
        && a.clave == VentaLinea(venta, a.celda.almacen, a.celda.variante, a.clave.linea, a.clave.sufijo)
    case PDevolucion(d, rs) =>
      a.tipo == DEVOLUCION_VENTA && a.correlacion == None && a.clave == Devolucion(d, a.celda.almacen, a.celda.variante) && DeReingreso(rs, a)
    case _ => false
  }

  /** What every entry is: it moves something, not at a negative cost, for quantity times cost, and only
      sales name a lot. */
  predicate BienHecho(a: Asiento) {
    a.cantidad != 0.0 && a.costoUnitario >= 0.0 && a.totalCost == a.cantidad * a.costoUnitario && (a.lote.Some? ==> a.tipo == VENTA)
  }

  ghost predicate Agrega(antes: seq<Asiento>, despues: seq<Asiento>, Q: Asiento -> bool) {
    antes <= despues && forall i :: |antes| <= i < |despues| ==> Q(despues[i])
  }

  function DeEsta(s: Estado, p: Peticion): Asiento -> bool {
    (a: Asiento) => EsDe(s, p, a) && BienHecho(a)
  }

  lemma {:induction false} PorCosto(q: real, costo: real)
    ensures -Valor(q, costo) == (-q) * costo && Valor(q, costo) == q * costo
  {
  }

  // ------------------------------------------------------------------ request by request

  lemma {:induction false} AperturaEscribe(s: Estado, p: Peticion)
    requires Atender(s, p).Ok? && (p.PStockInicial? || p.PStockCatalogo?)
    ensures Agrega(s.kardex.ledger, Atender(s, p).value.kardex.ledger, DeEsta(s, p))
  {
  }

  lemma {:induction false} AjusteEscribe(s: Estado, c: Celda, esEntrada: bool, cantidad: real, costo: Option<real>, clave: string, aleatorio: nat)
    requires AjustarStock(s, c, esEntrada, cantidad, costo, clave, aleatorio).Ok?
    ensures Agrega(s.kardex.ledger, AjustarStock(s, c, esEntrada, cantidad, costo, clave, aleatorio).value.kardex.ledger,
                   DeEsta(s, PAjuste(c, esEntrada, cantidad, costo, clave, aleatorio)))
  {
    PorCosto(cantidad, costo.GetOr(0.0));
    PorCosto(cantidad, Fila(s.kardex, c).costoPromedio);
  }

  lemma {:induction false} ContarEscribe(antes: seq<Asiento>, k: Kardex, s: Estado, id: nat, v: VarianteId, contada: real)
    requires id < |s.conteos| && Agrega(antes, k.ledger, DeEsta(s, PContabilizar(id)))
    requires Contar(k, Celda(s.conteos[id].almacen, v), contada, id).Ok?
    ensures Agrega(antes, Contar(k, Celda(s.conteos[id].almacen, v), contada, id).value.ledger, DeEsta(s, PContabilizar(id)))
  {
  }

  lemma {:induction false} ConteoEscribe(s: Estado, id: nat)
    requires ContabilizarConteo(s, id).Ok?
    ensures Agrega(s.kardex.ledger, ContabilizarConteo(s, id).value.kardex.ledger, DeEsta(s, PContabilizar(id)))
  {
    var Q := DeEsta(s, PContabilizar(id));
    var paso, P := ContarItem(s.conteos[id].almacen, id), (x: Contado) => Agrega(s.kardex.ledger, x.kardex.ledger, Q);
    forall x: Contado, item {:trigger paso(x, item)} | P(x) && paso(x, item).Ok? ensures P(paso(x, item).value) {
      if item.contada.Some? {
        ContarEscribe(s.kardex.ledger, x.kardex, s, id, item.variante, item.contada.value);
      }
    }
    PlegarConserva(Contado(s.kardex, []), s.conteos[id].articulos, paso, P);
  }

  lemma {:induction false} DespachosEscriben(s: Estado, o: AlmacenId, d: AlmacenId, pedidos: seq<Pedido>, clave: string, ps: seq<Pedido>)
    ensures var r := Plegar(s.kardex, ps, DespachoDe(s.variantes, o, d, |s.transferencias|, clave));
      r.Ok? ==> Agrega(s.kardex.ledger, r.value.ledger, DeEsta(s, PTransferir(o, d, pedidos, clave)))
  {
    var Q := DeEsta(s, PTransferir(o, d, pedidos, clave));
    var paso := DespachoDe(s.variantes, o, d, |s.transferencias|, clave);
    var P := (k: Kardex) => Agrega(s.kardex.ledger, k.ledger, Q);
    forall k: Kardex, p {:trigger paso(k, p)} | p in ps && P(k) && paso(k, p).Ok? ensures P(paso(k, p).value) {
      PorCosto(p.cantidad, Fila(k, Celda(o, p.variante)).costoPromedio);
    }
    PlegarConserva(s.kardex, ps, paso, P);
  }

  lemma {:induction false} LlegadasEscriben(s: Estado, id: nat, pedidos: seq<Pedido>, clave: string, ps: seq<Pedido>)
    requires id < |s.transferencias|
    ensures var t := s.transferencias[id];
      var r := Plegar(Recibido(s.kardex, []), t.articulos, RecibirItem(s.kardex.ledger, ps, t.destino, id, clave));
      r.Ok? ==> Agrega(s.kardex.ledger, r.value.kardex.ledger, DeEsta(s, PRecibir(id, pedidos, clave)))
  {
    var t, Q := s.transferencias[id], DeEsta(s, PRecibir(id, pedidos, clave));
    PlegarConserva(Recibido(s.kardex, []), t.articulos, RecibirItem(s.kardex.ledger, ps, t.destino, id, clave),
                   (x: Recibido) => Agrega(s.kardex.ledger, x.kardex.ledger, Q));
  }

  lemma {:induction false} CanceladosEscriben(s: Estado, id: nat)
    requires id < |s.transferencias|
    ensures var t := s.transferencias[id];
      var r := Plegar(s.kardex, t.articulos, CancelarItem(s.kardex.ledger, t.origen, t.destino, id));
      r.Ok? ==> Agrega(s.kardex.ledger, r.value.ledger, DeEsta(s, PCancelar(id)))
  {
    var t, Q := s.transferencias[id], DeEsta(s, PCancelar(id));
    PlegarConserva(s.kardex, t.articulos, CancelarItem(s.kardex.ledger, t.origen, t.destino, id),
                   (k: Kardex) => Agrega(s.kardex.ledger, k.ledger, Q));
  }

  lemma {:induction false} CompraEscribe(s: Estado, e: Entrada, clave: string, numero: string, a: AlmacenId, items: seq<ItemCompra>, item: ItemCompra)
    requires item in items && IngresarItem(a, |s.recepciones|)(e, item).Ok?
    requires Agrega(s.kardex.ledger, e.kardex.ledger, DeEsta(s, PRecepcion(clave, numero, a, items)))
    ensures Agrega(s.kardex.ledger, IngresarItem(a, |s.recepciones|)(e, item).value.kardex.ledger, DeEsta(s, PRecepcion(clave, numero, a, items)))
  {
    var antes, despues := e.kardex.ledger, IngresarItem(a, |s.recepciones|)(e, item).value.kardex.ledger;
    assert DeItem(items, despues[|antes|]);
  }

  lemma {:induction false} ComprasEscriben(s: Estado, clave: string, numero: string, a: AlmacenId, items: seq<ItemCompra>)
    ensures var r := Plegar(Entrada(s.kardex, s.lotes, s.recibidos), items, IngresarItem(a, |s.recepciones|));
      r.Ok? ==> Agrega(s.kardex.ledger, r.value.kardex.ledger, DeEsta(s, PRecepcion(clave, numero, a, items)))
  {
    var Q := DeEsta(s, PRecepcion(clave, numero, a, items));
    var paso, P := IngresarItem(a, |s.recepciones|), (e: Entrada) => Agrega(s.kardex.ledger, e.kardex.ledger, Q);
    forall e: Entrada, item {:trigger paso(e, item)} | item in items && P(e) && paso(e, item).Ok? ensures P(paso(e, item).value) {
      CompraEscribe(s, e, clave, numero, a, items, item);
    }
    PlegarConserva(Entrada(s.kardex, s.lotes, s.recibidos), items, paso, P);
  }

  lemma {:induction false} ReingresosEscriben(s: Estado, d: nat, rs: seq<Reingreso>)
    ensures var r := Plegar(s.kardex, rs, ReingresarUno(s.variantes, d));
      r.Ok? ==> Agrega(s.kardex.ledger, r.value.ledger, DeEsta(s, PDevolucion(d, rs)))
  {
    var Q := DeEsta(s, PDevolucion(d, rs));
    PlegarConserva(s.kardex, rs, ReingresarUno(s.variantes, d), (k: Kardex) => Agrega(s.kardex.ledger, k.ledger, Q));
  }

  /** An entry of a sale line, whole or of one lot. */
  predicate DeLinea(l: LineaStock, venta: nat, a: Asiento) {
    && a.celda == l.celda && a.tipo == VENTA && a.correlacion == None && a.clave.VentaLinea?
    && a.clave == VentaLinea(venta, l.celda.almacen, l.celda.variante, l.numero, a.clave.sufijo)
    && a.totalCost == a.cantidad * a.costoUnitario
  }

  lemma {:induction false} UnAsientoDeLinea(l: LineaStock, venta: nat, costo: real, cantidad: real, lote: Option<nat>, sufijo: Sufijo)
    ensures DeLinea(l, venta, AsientoVenta(l, venta, costo, cantidad, lote, sufijo))
  {
    PorCosto(cantidad, costo);
  }

  lemma {:induction false} AsientosDeLinea(l: LineaStock, venta: nat, costo: real, consumos: seq<Consumo>)
    ensures forall i :: 0 <= i < |AsientosDeLotes(l, venta, costo, consumos)| ==> DeLinea(l, venta, AsientosDeLotes(l, venta, costo, consumos)[i])
    ensures forall i :: 0 <= i < |AsientosVenta(l, venta, costo, consumos)| ==> DeLinea(l, venta, AsientosVenta(l, venta, costo, consumos)[i])
  {
    UnAsientoDeLinea(l, venta, costo, l.cantidad, None, Linea);
    UnAsientoDeLinea(l, venta, costo, l.cantidad - Suma(consumos, Consumida()), None, Resto);
    if |consumos| > 0 {
      var c := consumos[|consumos| - 1];
      AsientosDeLinea(l, venta, costo, consumos[..|consumos| - 1]);
      UnAsientoDeLinea(l, venta, costo, c.cantidad, Some(c.lote), PorLote(c.lote));
    }
  }

  lemma {:induction false} AsentarEscribe(antes: seq<Asiento>, ledger: seq<Asiento>, filas: seq<Asiento>, Q: Asiento -> bool)
    requires Agrega(antes, ledger, Q) && forall i :: 0 <= i < |filas| && Admitido(filas[i]) ==> Q(filas[i])
    ensures Plegar(ledger, filas, AsentarUno()).Ok? ==> Agrega(antes, Plegar(ledger, filas, AsentarUno()).value, Q)
  {
    PlegarConserva(ledger, filas, AsentarUno(), (l: seq<Asiento>) => Agrega(antes, l, Q));
  }

  lemma {:induction false} LineaEscribe(antes: seq<Asiento>, e: Existencias, l: LineaStock, permite: bool, venta: nat, hoy: nat, Q: Asiento -> bool)
    requires Agrega(antes, e.kardex.ledger, Q) && RegistrarLinea(e, l, permite, venta, hoy).Ok?
    requires forall a :: DeLinea(l, venta, a) && Admitido(a) ==> Q(a)
    ensures Agrega(antes, RegistrarLinea(e, l, permite, venta, hoy).value.kardex.ledger, Q)
  {
    var costo := Fila(e.kardex, l.celda).costoPromedio;
    var consumos := ConsumoDeLinea(e, l, permite, hoy).value;
    AsientosDeLinea(l, venta, costo, consumos);
    AsentarEscribe(antes, e.kardex.ledger, AsientosVenta(l, venta, costo, consumos), Q);
  }

  lemma {:induction false} LineasEscriben(s: Estado, venta: nat, lineas: seq<LineaStock>, hoy: nat)
    ensures var r := Plegar(Existencias(s.kardex, s.lotes), lineas, VenderLinea(s.variantes, venta, hoy));
      r.Ok? ==> Agrega(s.kardex.ledger, r.value.kardex.ledger, DeEsta(s, PVenta(venta, lineas, hoy)))
  {
    var Q := DeEsta(s, PVenta(venta, lineas, hoy));
    var paso := VenderLinea(s.variantes, venta, hoy);
    var P := (e: Existencias) => Agrega(s.kardex.ledger, e.kardex.ledger, Q);
    forall e, l {:trigger paso(e, l)} | l in lineas && P(e) && paso(e, l).Ok? ensures P(paso(e, l).value) {
      if s.variantes[l.celda.variante].isStockTracked {
        forall a | DeLinea(l, venta, a) && Admitido(a) ensures Q(a) {
          assert DeLineaVendida(lineas, a);
        }
        LineaEscribe(s.kardex.ledger, e, l, s.variantes[l.celda.variante].allowNegativeStock, venta, hoy, Q);
      }
    }
    PlegarConserva(Existencias(s.kardex, s.lotes), lineas, paso, P);
  }

  lemma {:induction false} TransferenciaEscribe(s: Estado, p: Peticion)
    requires Atender(s, p).Ok? && EsTransferencia(p)
    ensures Agrega(s.kardex.ledger, Atender(s, p).value.kardex.ledger, DeEsta(s, p))
  {
    match p
    case PTransferir(o, d, pedidos, clave) => DespachosEscriben(s, o, d, pedidos, clave, Consolidar(pedidos));
    case PRecibir(id, pedidos, clave) => LlegadasEscriben(s, id, pedidos, clave, Consolidar(SoloPositivos(pedidos)));
    case PCancelar(id) => CanceladosEscriben(s, id);
  }

  lemma {:induction false} DocumentoEscribe(s: Estado, p: Peticion)
    requires Atender(s, p).Ok? && (p.PRecepcion? || p.PVenta? || p.PDevolucion?)
    ensures Agrega(s.kardex.ledger, Atender(s, p).value.kardex.ledger, DeEsta(s, p))
  {
    match p
    case PRecepcion(clave, numero, a, items) => ComprasEscriben(s, clave, numero, a, items);
    case PVenta(venta, lineas, hoy) => LineasEscriben(s, venta, lineas, hoy);
    case PDevolucion(d, rs) => ReingresosEscriben(s, d, rs);
  }

  /** Every request only appends to the ledger, and only entries of its own. */
  lemma {:induction false} PasoEscribe(s: Estado, p: Peticion)
    ensures Agrega(s.kardex.ledger, Paso(s, p).kardex.ledger, DeEsta(s, p))
  {
    if Atender(s, p).Ok? {
      if EsTransferencia(p) {
        TransferenciaEscribe(s, p);
      } else if p.PRecepcion? || p.PVenta? || p.PDevolucion? {
        DocumentoEscribe(s, p);
      } else if p.PContabilizar? {
        ConteoEscribe(s, p.conteo);
      } else if p.PStockInicial? || p.PStockCatalogo? {
        AperturaEscribe(s, p);
      } else if p.PAjuste? {
        AjusteEscribe(s, p.celda, p.esEntrada, p.cantidad, p.costoUnitario, p.clave, p.aleatorio);
      }
    }
  }

  // ------------------------------------------------------------------ every entry of every run

  /** Request m of the run wrote entry i. */
  predicate Escribio(ps: seq<Peticion>, m: nat, i: nat, a: Asiento) {
    && m < |ps|
    && |Correr(INICIAL, ps[..m]).kardex.ledger| <= i < |Correr(INICIAL, ps[..m + 1]).kardex.ledger|
    && EsDe(Correr(INICIAL, ps[..m]), ps[m], a) && BienHecho(a)
  }

  lemma {:induction false} EscribioSigue(ps: seq<Peticion>, m: nat, i: nat, a: Asiento)
    requires |ps| > 0 && Escribio(ps[..|ps| - 1], m, i, a)
    ensures Escribio(ps, m, i, a)
  {
    assert ps[..|ps| - 1][..m] == ps[..m] && ps[..|ps| - 1][..m + 1] == ps[..m + 1];
  }

  /** After any run, every entry of the ledger was written by one request of the run: it is of the kind,
      cell, document, key and cost that request asked for in the state it found. */
  lemma {:induction false} CadaAsientoTieneAutor(ps: seq<Peticion>, i: nat) returns (m: nat)
    requires i < |Correr(INICIAL, ps).kardex.ledger|
    ensures Escribio(ps, m, i, Correr(INICIAL, ps).kardex.ledger[i])
  {
    var n := |ps| - 1;
    var antes := Correr(INICIAL, ps[..n]).kardex.ledger;
    PasoEscribe(Correr(INICIAL, ps[..n]), ps[n]);
    if i < |antes| {
      m := CadaAsientoTieneAutor(ps[..n], i);
      EscribioSigue(ps, m, i, antes[i]);
    } else {
      m := n;
      assert ps[..n + 1] == ps;
      assert DeEsta(Correr(INICIAL, ps[..n]), ps[n])(Correr(INICIAL, ps).kardex.ledger[i]);
    }
  }
  // ------------------------------------------------------------------ goods arrive at the cost they left with

  /** The entry of a shipment: of this transfer and this variant. */
  predicate EsSalida(a: Asiento, t: nat, v: VarianteId) {
    a.tipo == TRANSFERENCIA_SALIDA && a.correlacion == Some(t) && a.celda.variante == v
  }

  predicate ConSalida(ledger: seq<Asiento>, t: nat, v: VarianteId) {
    exists i :: 0 <= i < |ledger| && EsSalida(ledger[i], t, v)
  }

  /** The cost looked up for a transfer is the one its shipment was recorded at. */
  lemma {:induction false} CostoDeSalida(ledger: seq<Asiento>, t: nat, v: VarianteId)
    ensures CostoSalida(ledger, t, v).Some? <==> ConSalida(ledger, t, v)
    ensures CostoSalida(ledger, t, v).Some? ==>
      exists i :: 0 <= i < |ledger| && EsSalida(ledger[i], t, v) && ledger[i].costoUnitario == CostoSalida(ledger, t, v).value
  {
    if |ledger| > 0 {
      var n := |ledger| - 1;
      CostoDeSalida(ledger[..n], t, v);
      if CostoSalida(ledger[..n], t, v).Some? {
        var i :| 0 <= i < n && EsSalida(ledger[..n][i], t, v) && ledger[..n][i].costoUnitario == CostoSalida(ledger[..n], t, v).value;
        assert EsSalida(ledger[i], t, v);
      } else {
        assert forall i :: 0 <= i < n ==> !EsSalida(ledger[..n][i], t, v) && ledger[..n][i] == ledger[i];
      }
    }
  }

  /** Every article of every transfer has the entry of its shipment. */
  ghost predicate TodasConSalida(s: Estado) {
    forall t, v :: 0 <= t < |s.transferencias| && DeArticulo(s.transferencias[t].articulos, v) ==> ConSalida(s.kardex.ledger, t, v)
  }

  lemma {:induction false} SalidaQueda(antes: seq<Asiento>, despues: seq<Asiento>, t: nat, v: VarianteId)
    requires antes <= despues && ConSalida(antes, t, v)
    ensures ConSalida(despues, t, v)
  {
    var i :| 0 <= i < |antes| && EsSalida(antes[i], t, v);
    assert despues[i] == antes[i];
  }

  lemma {:induction false} DespachoConSalida(k: Kardex, vs: map<VarianteId, Variante>, o: AlmacenId, d: AlmacenId, t: nat, clave: string, p: Pedido)
    requires DespachoDe(vs, o, d, t, clave)(k, p).Ok?
    ensures var k' := DespachoDe(vs, o, d, t, clave)(k, p).value; k.ledger <= k'.ledger && ConSalida(k'.ledger, t, p.variante)
  {
    assert EsSalida(DespachoDe(vs, o, d, t, clave)(k, p).value.ledger[|k.ledger|], t, p.variante);
  }

  lemma {:induction false} DespachosConSalida(k: Kardex, vs: map<VarianteId, Variante>, o: AlmacenId, d: AlmacenId, t: nat, clave: string,
                                              ps: seq<Pedido>, j: nat)
    requires Plegar(k, ps, DespachoDe(vs, o, d, t, clave)).Ok? && j < |ps|
    ensures ConSalida(Plegar(k, ps, DespachoDe(vs, o, d, t, clave)).value.ledger, t, ps[j].variante)
  {
    var n, paso := |ps| - 1, DespachoDe(vs, o, d, t, clave);
    var r := Plegar(k, ps[..n], paso);
    assert r.Ok?;
    DespachoConSalida(r.value, vs, o, d, t, clave, ps[n]);
    if j < n {
      DespachosConSalida(k, vs, o, d, t, clave, ps[..n], j);
      SalidaQueda(r.value.ledger, paso(r.value, ps[n]).value.ledger, t, ps[j].variante);
    }
  }

  lemma {:induction false} TransferirConSalida(s: Estado, o: AlmacenId, d: AlmacenId, pedidos: seq<Pedido>, clave: string, v: VarianteId)
    requires CrearTransferencia(s, o, d, pedidos, clave).Ok? && !SalidaConClave(s.kardex.ledger, clave)
    ensures var s', n := CrearTransferencia(s, o, d, pedidos, clave).value, |s.transferencias|;
      && |s'.transferencias| == n + 1 && s'.transferencias[..n] == s.transferencias
      && (DeArticulo(s'.transferencias[n].articulos, v) ==> ConSalida(s'.kardex.ledger, n, v))
  {
    var s', n, ps := CrearTransferencia(s, o, d, pedidos, clave).value, |s.transferencias|, Consolidar(pedidos);
    if DeArticulo(s'.transferencias[n].articulos, v) {
      var j :| 0 <= j < |s'.transferencias[n].articulos| && s'.transferencias[n].articulos[j].variante == v;
      DespachosConSalida(s.kardex, s.variantes, o, d, n, clave, ps, j);
    }
  }

  lemma {:induction false} MismosArticulos(antes: seq<Articulo>, despues: seq<Articulo>, v: VarianteId)
    requires |despues| == |antes| && forall i :: 0 <= i < |antes| ==> despues[i].variante == antes[i].variante
    ensures DeArticulo(despues, v) <==> DeArticulo(antes, v)
  {
    if DeArticulo(antes, v) {
      var i :| 0 <= i < |antes| && antes[i].variante == v;
      assert despues[i].variante == v;
    }
  }

  lemma {:induction false} ArticuloLlegado(r: Recibido, ledger: seq<Asiento>, ps: seq<Pedido>, d: AlmacenId, t: nat, clave: string, item: Articulo)
    requires RecibirItem(ledger, ps, d, t, clave)(r, item).Ok?
    ensures var a, a' := r.articulos, RecibirItem(ledger, ps, d, t, clave)(r, item).value.articulos;
      |a'| == |a| + 1 && a'[..|a|] == a && a'[|a|].variante == item.variante && a'[|a|].shippedQty == item.shippedQty
  {
  }

  lemma {:induction false} ArticulosLlegados(k: Kardex, ledger: seq<Asiento>, ps: seq<Pedido>, d: AlmacenId, t: nat, clave: string, items: seq<Articulo>)
    requires Plegar(Recibido(k, []), items, RecibirItem(ledger, ps, d, t, clave)).Ok?
    ensures var r := Plegar(Recibido(k, []), items, RecibirItem(ledger, ps, d, t, clave)).value.articulos;
      |r| == |items| && forall i :: 0 <= i < |items| ==>
        r[i].variante == items[i].variante && r[i].shippedQty == items[i].shippedQty
  {
    if |items| > 0 {
      var n := |items| - 1;
      var p := Plegar(Recibido(k, []), items[..n], RecibirItem(ledger, ps, d, t, clave));
      assert p.Ok?;
      ArticulosLlegados(k, ledger, ps, d, t, clave, items[..n]);
      ArticuloLlegado(p.value, ledger, ps, d, t, clave, items[n]);
    }
  }

  /** Transfers keep their ends and what they ship; a request adds at most one. */
  lemma {:induction false} TransferenciasSiguen(s: Estado, p: Peticion)
    ensures var s' := Paso(s, p);
      && |s.transferencias| <= |s'.transferencias|
      && (forall t :: 0 <= t < |s.transferencias| ==> MismoEnvio(s.transferencias[t], s'.transferencias[t]))
      && (!p.PTransferir? ==> |s'.transferencias| == |s.transferencias|)
  {
    if p.PRecibir? && RecibirTransferencia(s, p.transferencia, p.pedidos, p.clave).Ok? && !EntradaConClave(s.kardex.ledger, p.clave) {
      var t := s.transferencias[p.transferencia];
      ArticulosLlegados(s.kardex, s.kardex.ledger, Consolidar(SoloPositivos(p.pedidos)), t.destino, p.transferencia, p.clave, t.articulos);
    }
  }

  predicate MismoEnvio(t: Transferencia, t': Transferencia) {
    && t'.origen == t.origen && t'.destino == t.destino && |t'.articulos| == |t.articulos|
    && forall i :: 0 <= i < |t.articulos| ==>
         t'.articulos[i].variante == t.articulos[i].variante && t'.articulos[i].shippedQty == t.articulos[i].shippedQty
  }

  lemma {:induction false} PasoConSalida(s: Estado, p: Peticion)
    requires TodasConSalida(s)
    ensures TodasConSalida(Paso(s, p))
  {
    var s' := Paso(s, p);
    PasoEscribe(s, p);
    TransferenciasSiguen(s, p);
    forall t, v | 0 <= t < |s'.transferencias| && DeArticulo(s'.transferencias[t].articulos, v) ensures ConSalida(s'.kardex.ledger, t, v) {
      if t < |s.transferencias| {
        MismosArticulos(s.transferencias[t].articulos, s'.transferencias[t].articulos, v);
        SalidaQueda(s.kardex.ledger, s'.kardex.ledger, t, v);
      } else {
        TransferirConSalida(s, p.origen, p.destino, p.pedidos, p.clave, v);
      }
    }
  }

  lemma {:induction false} CorrerConSalida(ps: seq<Peticion>)
    ensures TodasConSalida(Correr(INICIAL, ps))
  {
    if |ps| > 0 {
      CorrerConSalida(ps[..|ps| - 1]);
      PasoConSalida(Correr(INICIAL, ps[..|ps| - 1]), ps[|ps| - 1]);
    }
  }

  lemma {:induction false} LedgerCrece(ps: seq<Peticion>, m: nat)
    requires m <= |ps|
    ensures Correr(INICIAL, ps[..m]).kardex.ledger <= Correr(INICIAL, ps).kardex.ledger
  {
    if m == |ps| {
      assert ps[..m] == ps;
    } else {
      var n := |ps| - 1;
      assert ps[..n][..m] == ps[..m];
      LedgerCrece(ps[..n], m);
      PasoEscribe(Correr(INICIAL, ps[..n]), ps[n]);
    }
  }

  /** After any run, what arrives by a transfer, or comes back from a cancelled one, enters the ledger at the
      unit cost its shipment was recorded at, earlier in the same ledger. */
  lemma {:induction false} LlegaAlCostoDeSalida(ps: seq<Peticion>, i: nat)
    requires i < |Correr(INICIAL, ps).kardex.ledger| && Correr(INICIAL, ps).kardex.ledger[i].tipo == TRANSFERENCIA_ENTRADA
    ensures var l := Correr(INICIAL, ps).kardex.ledger;
      && l[i].correlacion.Some?
      && exists j :: 0 <= j < i && EsSalida(l[j], l[i].correlacion.value, l[i].celda.variante) && l[j].costoUnitario == l[i].costoUnitario
  {
    var m := CadaAsientoTieneAutor(ps, i);
    var s, l := Correr(INICIAL, ps[..m]), Correr(INICIAL, ps).kardex.ledger;
    var t, v := l[i].correlacion.value, l[i].celda.variante;
    CorrerConSalida(ps[..m]);
    LedgerCrece(ps, m);
    CostoDeSalida(s.kardex.ledger, t, v);
    assert DeArticulo(s.transferencias[t].articulos, v);
    var j :| 0 <= j < |s.kardex.ledger| && EsSalida(s.kardex.ledger[j], t, v)
          && s.kardex.ledger[j].costoUnitario == CostoSalida(s.kardex.ledger, t, v).value;
    assert l[j] == s.kardex.ledger[j];
  }
  lemma {:induction false} TransferenciasCrecen(ps: seq<Peticion>, m: nat)
    requires m <= |ps|
    ensures |Correr(INICIAL, ps[..m]).transferencias| <= |Correr(INICIAL, ps).transferencias|
  {
    if m == |ps| {
      assert ps[..m] == ps;
    } else {
      var n := |ps| - 1;
      assert ps[..n][..m] == ps[..m];
      TransferenciasCrecen(ps[..n], m);
      TransferenciasSiguen(Correr(INICIAL, ps[..n]), ps[n]);
    }
  }

  lemma {:induction false} TransferirAgregaUna(s: Estado, p: Peticion)
    requires p.PTransferir? && |Paso(s, p).kardex.ledger| > |s.kardex.ledger|
    ensures |Paso(s, p).transferencias| == |s.transferencias| + 1
  {
  }

  /** The request that wrote the shipment of a transfer is the one that made the transfer. */
  lemma {:induction false} MismoAutor(ps: seq<Peticion>, m: nat, n: nat, i: nat, j: nat, a: Asiento, b: Asiento)
    requires Escribio(ps, m, i, a) && Escribio(ps, n, j, b) && m < n
    requires a.tipo == TRANSFERENCIA_SALIDA && b.tipo == TRANSFERENCIA_SALIDA
    ensures a.correlacion != b.correlacion
  {
    assert ps[..m + 1][..m] == ps[..m] && ps[..n][..m + 1] == ps[..m + 1];
    TransferirAgregaUna(Correr(INICIAL, ps[..m]), ps[m]);
    TransferenciasCrecen(ps[..n], m + 1);
  }

  lemma {:induction false} MismaClave(ps: seq<Peticion>, i: nat, j: nat, t: nat, v: VarianteId)
    requires var l := Correr(INICIAL, ps).kardex.ledger;
      i < |l| && j < |l| && EsSalida(l[i], t, v) && EsSalida(l[j], t, v)
    ensures Correr(INICIAL, ps).kardex.ledger[i].clave == Correr(INICIAL, ps).kardex.ledger[j].clave
  {
    var l := Correr(INICIAL, ps).kardex.ledger;
    var m := CadaAsientoTieneAutor(ps, i);
    var n := CadaAsientoTieneAutor(ps, j);
    AutoresOrdenados(ps, m, n, i, j, l[i], l[j]);
  }

  /** A transfer ships each variant in one entry. */
  lemma {:induction false} SalidaUnica(ps: seq<Peticion>, i: nat, j: nat, t: nat, v: VarianteId)
    requires var l := Correr(INICIAL, ps).kardex.ledger;
      i < |l| && j < |l| && EsSalida(l[i], t, v) && EsSalida(l[j], t, v)
    ensures i == j
  {
    MismaClave(ps, i, j, t, v);
    InicialValido();
    CorrerMantiene(INICIAL, ps);
  }

  lemma {:induction false} AutoresOrdenados(ps: seq<Peticion>, m: nat, n: nat, i: nat, j: nat, a: Asiento, b: Asiento)
    requires Escribio(ps, m, i, a) && Escribio(ps, n, j, b)
    requires a.tipo == TRANSFERENCIA_SALIDA && b.tipo == TRANSFERENCIA_SALIDA && a.correlacion == b.correlacion
    ensures m == n
  {
    if m < n {
      MismoAutor(ps, m, n, i, j, a, b);
    } else if n < m {
      MismoAutor(ps, n, m, j, i, b, a);
    }
  }
}
