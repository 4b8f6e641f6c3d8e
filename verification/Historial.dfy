/** The balance rebuilt from the ledger alone. The average cost every service keeps in the cached row
    is the one a replay of the append-only ledger computes, whatever the services, their order and
    whether stock may go below zero; and the replay says entry by entry where value leaks. */
module Historial {
  import opened Comun
  import opened Sumas
  import opened Kardex
  import opened Movimientos
  import opened Lotes
  import opened Existencias
  import opened Inventario
  import opened Invariante
  import opened Corridas

  /** The entry brings stock in at a cost of its own, which the average has to take in. */
  predicate Pondera(a: Asiento) {
    a.tipo in {APERTURA, AJUSTE_ENTRADA, RECEPCION_COMPRA} || (a.tipo == TRANSFERENCIA_ENTRADA && !a.clave.TransfCancel?)
  }

  /** The replay: the average cost of a cell after the entries of a ledger. */
  function Promedio(ledger: seq<Asiento>, c: Celda): real {
    if |ledger| == 0 then 0.0
    else
      var previos, a := ledger[..|ledger| - 1], ledger[|ledger| - 1];
      if a.celda == c && Pondera(a) then CostoPonderado(Suma(previos, CantidadEn(c)), Promedio(previos, c), a.cantidad, a.costoUnitario)
      else Promedio(previos, c)
  }

  /** What an entry adds to the gap between the value a cell carries and the value its ledger records,
      given the stock and the average before it. */
  function Fuga(enStock: real, avg: real, a: Asiento): real {
    if !Pondera(a) then Valor(a.cantidad, avg) - Valor(a.cantidad, a.costoUnitario)
    else if enStock + a.cantidad > 0.0 then 0.0
    else Valor(enStock, a.costoUnitario) - Valor(enStock, avg)
  }

  function Fugas(ledger: seq<Asiento>, c: Celda): real {
    if |ledger| == 0 then 0.0
    else
      var previos, a := ledger[..|ledger| - 1], ledger[|ledger| - 1];
      Fugas(previos, c) + (if a.celda == c then Fuga(Suma(previos, CantidadEn(c)), Promedio(previos, c), a) else 0.0)
  }

  /** The entry records its quantity at its unit cost; and unless it brings a cost of its own, or
      undoes a transfer at the cost the goods left with, that is the average of the moment. */
  predicate AsientoFiel(avg: real, a: Asiento) {
    && a.totalCost == Valor(a.cantidad, a.costoUnitario)
    && (Pondera(a) || a.clave.TransfCancel? || a.costoUnitario == avg)
  }

  ghost predicate LedgerFiel(ledger: seq<Asiento>) {
    forall i :: 0 <= i < |ledger| ==> AsientoFiel(Promedio(ledger[..i], ledger[i].celda), ledger[i])
  }

  ghost predicate FilaFiel(k: Kardex, c: Celda) {
    Fila(k, c).enStock == Suma(k.ledger, CantidadEn(c)) && Fila(k, c).costoPromedio == Promedio(k.ledger, c)
  }

  /** The cache is the replay of the ledger, in every cell. */
  ghost predicate Fiel(k: Kardex) {
    LedgerFiel(k.ledger) && forall c :: FilaFiel(k, c)
  }

  // ------------------------------------------------------------------ one movement

  lemma {:induction false} AgregarFiel(ledger: seq<Asiento>, a: Asiento)
    requires LedgerFiel(ledger) && AsientoFiel(Promedio(ledger, a.celda), a)
    ensures LedgerFiel(ledger + [a])
  {
    var ledger' := ledger + [a];
    forall i | 0 <= i < |ledger'| ensures AsientoFiel(Promedio(ledger'[..i], ledger'[i].celda), ledger'[i]) {
      assert ledger'[..i] == ledger[..i];
      assert ledger[..|ledger|] == ledger;
    }
  }

  /** The average the entry calls for, given the stock and the average before it. */
  function PromedioTras(enStock: real, avg: real, a: Asiento): real {
    if Pondera(a) then CostoPonderado(enStock, avg, a.cantidad, a.costoUnitario) else avg
  }

  lemma {:induction false} PromedioAgrega(ledger: seq<Asiento>, a: Asiento, c: Celda)
    ensures Promedio(ledger + [a], c)
         == if a.celda == c then PromedioTras(Suma(ledger, CantidadEn(c)), Promedio(ledger, c), a) else Promedio(ledger, c)
  {
    assert (ledger + [a])[..|ledger|] == ledger;
  }

  lemma {:induction false} EscribirCelda(k: Kardex, c: Celda, s: Saldo, a: Asiento, d: Celda)
    requires FilaFiel(k, c) && FilaFiel(k, d) && a.celda == c
    requires s.enStock == Fila(k, c).enStock + a.cantidad
    requires s.costoPromedio == PromedioTras(Fila(k, c).enStock, Fila(k, c).costoPromedio, a)
    ensures FilaFiel(Escribir(k, c, s, a), d)
  {
    PromedioAgrega(k.ledger, a, d);
  }

  /** A movement that writes the average its entry calls for. */
  lemma {:induction false} EscribirFiel(k: Kardex, c: Celda, s: Saldo, a: Asiento)
    requires Fiel(k) && a.celda == c && AsientoFiel(Fila(k, c).costoPromedio, a)
    requires s.enStock == Fila(k, c).enStock + a.cantidad
    requires s.costoPromedio == PromedioTras(Fila(k, c).enStock, Fila(k, c).costoPromedio, a)
    ensures Fiel(Escribir(k, c, s, a))
  {
    assert FilaFiel(k, c);
    AgregarFiel(k.ledger, a);
    forall d ensures FilaFiel(Escribir(k, c, s, a), d) {
      EscribirCelda(k, c, s, a, d);
    }
  }

  /** Rows change without their stock or average. */
  lemma {:induction false} MismoLedgerFiel(k: Kardex, k': Kardex)
    requires Fiel(k) && k'.ledger == k.ledger
    requires forall c :: Fila(k', c).enStock == Fila(k, c).enStock && Fila(k', c).costoPromedio == Fila(k, c).costoPromedio
    ensures Fiel(k')
  {
    forall c ensures FilaFiel(k', c) {
      assert FilaFiel(k, c);
    }
  }

  lemma {:induction false} PonderadoVacio(cantidad: real, costo: real)
    ensures CostoPonderado(0.0, 0.0, cantidad, costo) == costo
  {
    if cantidad > 0.0 {
      assert cantidad * costo / cantidad == costo;
    }
  }

  lemma {:induction false} PonderadoIgual(enStock: real, avg: real, cantidad: real)
    ensures CostoPonderado(enStock, avg, cantidad, avg) == avg
  {
    var den := enStock + cantidad;
    ValorSuma(enStock, cantidad, avg);
    if den > 0.0 {
      assert den * avg / den == avg;
    }
  }

  lemma {:induction false} AbrirFiel(k: Kardex, c: Celda, cantidad: real, costo: real, clave: Clave)
    requires Fiel(k) && c !in k.saldos && Abrir(k, c, cantidad, costo, clave).Ok?
    ensures Fiel(Abrir(k, c, cantidad, costo, clave).value)
  {
    PonderadoVacio(cantidad, costo);
    EscribirFiel(k, c, VACIO.(enStock := cantidad, available := cantidad, costoPromedio := costo),
                 Asiento(c, None, APERTURA, cantidad, costo, Valor(cantidad, costo), None, clave));
  }

  lemma {:induction false} AjustarFiel(k: Kardex, c: Celda, esEntrada: bool, cantidad: real, costo: Option<real>, permite: bool, clave: Clave)
    requires Fiel(k) && Ajustar(k, c, esEntrada, cantidad, costo, permite, clave).Ok? && !clave.TransfCancel?
    ensures Fiel(Ajustar(k, c, esEntrada, cantidad, costo, permite, clave).value)
  {
    var s := Fila(k, c);
    PonderadoVacio(cantidad, costo.GetOr(0.0));
    PonderadoIgual(s.enStock, s.costoPromedio, cantidad);
    ValorSuma(0.0, cantidad, s.costoPromedio);
    var k' := Ajustar(k, c, esEntrada, cantidad, costo, permite, clave).value;
    EscribirFiel(k, c, k'.saldos[c], k'.ledger[|k.ledger|]);
  }

  lemma {:induction false} ContarFiel(k: Kardex, c: Celda, contada: real, conteo: nat)
    requires Fiel(k) && contada >= 0.0 && Contar(k, c, contada, conteo).Ok?
    ensures Fiel(Contar(k, c, contada, conteo).value)
  {
    var k' := Contar(k, c, contada, conteo).value;
    if contada == Fila(k, c).enStock {
      MismoLedgerFiel(k, k');
    } else {
      EscribirFiel(k, c, k'.saldos[c], k'.ledger[|k.ledger|]);
    }
  }

  lemma {:induction false} ReingresarFiel(k: Kardex, c: Celda, cantidad: real, devolucion: nat)
    requires Fiel(k) && Reingresar(k, c, cantidad, devolucion).Ok?
    ensures Fiel(Reingresar(k, c, cantidad, devolucion).value)
  {
    var k' := Reingresar(k, c, cantidad, devolucion).value;
    EscribirFiel(k, c, k'.saldos[c], k'.ledger[|k.ledger|]);
  }

  lemma {:induction false} IngresarFiel(k: Kardex, c: Celda, cantidad: real, costo: real, recepcion: nat)
    requires Fiel(k) && Ingresar(k, c, cantidad, costo, recepcion).Ok?
    ensures Fiel(Ingresar(k, c, cantidad, costo, recepcion).value)
  {
    var k' := Ingresar(k, c, cantidad, costo, recepcion).value;
    PonderadoVacio(cantidad, costo);
    EscribirFiel(k, c, k'.saldos[c], k'.ledger[|k.ledger|]);
  }

  lemma {:induction false} DespacharFiel(k: Kardex, origen: Celda, destino: Celda, cantidad: real, permite: bool, t: nat, clave: Clave)
    requires Fiel(k) && Despachar(k, origen, destino, cantidad, permite, t, clave).Ok?
    ensures Fiel(Despachar(k, origen, destino, cantidad, permite, t, clave).value)
  {
    var k1 := SalidaTransferencia(k, origen, cantidad, permite, t, clave).value;
    ValorSuma(0.0, cantidad, Fila(k, origen).costoPromedio);
    EscribirFiel(k, origen, k1.saldos[origen], k1.ledger[|k.ledger|]);
    MismoLedgerFiel(k1, SumarTransito(k1, destino, cantidad));
  }

  lemma {:induction false} RecibirFiel(k: Kardex, c: Celda, cantidad: real, costo: real, t: nat, clave: Clave)
    requires Fiel(k) && RecibirArticulo(k, c, cantidad, costo, t, clave).Ok? && !clave.TransfCancel?
    ensures Fiel(RecibirArticulo(k, c, cantidad, costo, t, clave).value)
  {
    var k' := RecibirArticulo(k, c, cantidad, costo, t, clave).value;
    EscribirFiel(k, c, k'.saldos[c], k'.ledger[|k.ledger|]);
  }

  lemma {:induction false} CancelarFiel(k: Kardex, origen: Celda, destino: Celda, cantidad: real, costo: real, t: nat)
    requires Fiel(k) && origen in k.saldos && origen != destino && CancelarArticulo(k, origen, destino, cantidad, costo, t).Ok?
    ensures Fiel(CancelarArticulo(k, origen, destino, cantidad, costo, t).value)
    ensures k.saldos.Keys <= CancelarArticulo(k, origen, destino, cantidad, costo, t).value.saldos.Keys
  {
    var k', s := CancelarArticulo(k, origen, destino, cantidad, costo, t).value, k.saldos[origen];
    var s', a := s.(enStock := s.enStock + cantidad, available := s.enStock + cantidad - s.reserved), k'.ledger[|k.ledger|];
    EscribirFiel(k, origen, s', a);
    MismoLedgerFiel(Escribir(k, origen, s', a), k');
  }

  // ------------------------------------------------------------------ a sale line

  /** Entries of one cell at its average leave every average as it was. */
  ghost predicate TrasVender(antes: seq<Asiento>, ledger: seq<Asiento>) {
    LedgerFiel(ledger) && forall d :: Promedio(ledger, d) == Promedio(antes, d)
  }

  predicate DeVenta(c: Celda, costo: real, a: Asiento) {
    a.celda == c && a.tipo == VENTA && a.costoUnitario == costo && a.totalCost == Valor(a.cantidad, costo)
  }

  lemma {:induction false} VentaFiel(antes: seq<Asiento>, ledger: seq<Asiento>, a: Asiento, c: Celda)
    requires TrasVender(antes, ledger) && DeVenta(c, Promedio(antes, c), a)
    ensures TrasVender(antes, ledger + [a])
  {
    AgregarFiel(ledger, a);
    assert (ledger + [a])[..|ledger|] == ledger;
  }

  lemma {:induction false} AsientosFieles(ledger: seq<Asiento>, filas: seq<Asiento>, c: Celda)
    requires LedgerFiel(ledger) && forall i :: 0 <= i < |filas| ==> DeVenta(c, Promedio(ledger, c), filas[i])
    ensures var r := Plegar(ledger, filas, AsentarUno()); r.Ok? ==> TrasVender(ledger, r.value)
  {
    var P, paso := (l: seq<Asiento>) => TrasVender(ledger, l), AsentarUno();
    forall l, a {:trigger paso(l, a)} | a in filas && P(l) && paso(l, a).Ok? ensures P(paso(l, a).value) {
      VentaFiel(ledger, l, a, c);
    }
    PlegarConserva(ledger, filas, paso, P);
  }

  lemma {:induction false} AsientoDeVenta(l: LineaStock, venta: nat, costo: real, cantidad: real, lote: Option<nat>, sufijo: Sufijo)
    ensures DeVenta(l.celda, costo, AsientoVenta(l, venta, costo, cantidad, lote, sufijo))
  {
    ValorSuma(0.0, cantidad, costo);
  }

  lemma {:induction false} AsientosDeVenta(l: LineaStock, venta: nat, costo: real, consumos: seq<Consumo>)
    ensures forall i :: 0 <= i < |AsientosDeLotes(l, venta, costo, consumos)| ==>
      DeVenta(l.celda, costo, AsientosDeLotes(l, venta, costo, consumos)[i])
    ensures forall i :: 0 <= i < |AsientosVenta(l, venta, costo, consumos)| ==>
      DeVenta(l.celda, costo, AsientosVenta(l, venta, costo, consumos)[i])
  {
    AsientoDeVenta(l, venta, costo, l.cantidad, None, Linea);
    AsientoDeVenta(l, venta, costo, l.cantidad - Suma(consumos, Consumida()), None, Resto);
    if |consumos| > 0 {
      var c := consumos[|consumos| - 1];
      AsientosDeVenta(l, venta, costo, consumos[..|consumos| - 1]);
      AsientoDeVenta(l, venta, costo, c.cantidad, Some(c.lote), PorLote(c.lote));
    }
  }

  lemma {:induction false} LineaAsienta(e: Existencias, l: LineaStock, permite: bool, venta: nat, hoy: nat)
    requires Fiel(e.kardex) && RegistrarLinea(e, l, permite, venta, hoy).Ok?
    ensures TrasVender(e.kardex.ledger, RegistrarLinea(e, l, permite, venta, hoy).value.kardex.ledger)
  {
    var costo, consumos := Fila(e.kardex, l.celda).costoPromedio, ConsumoDeLinea(e, l, permite, hoy).value;
    assert FilaFiel(e.kardex, l.celda);
    AsientosDeVenta(l, venta, costo, consumos);
    AsientosFieles(e.kardex.ledger, AsientosVenta(l, venta, costo, consumos), l.celda);
  }

  /** Several entries of one cell at its average, and its row less what they take. */
  lemma {:induction false} EscribirVariosFiel(k: Kardex, c: Celda, s: Saldo, filas: seq<Asiento>)
    requires Fiel(k) && TrasVender(k.ledger, k.ledger + filas) && forall i :: 0 <= i < |filas| ==> filas[i].celda == c
    requires s.enStock == Fila(k, c).enStock + Suma(filas, CantidadEn(c)) && s.costoPromedio == Fila(k, c).costoPromedio
    ensures Fiel(Kardex(k.saldos[c := s], k.ledger + filas))
  {
    var k' := Kardex(k.saldos[c := s], k.ledger + filas);
    forall d ensures FilaFiel(k', d) {
      assert FilaFiel(k, d);
      EscribirVariosSumas(k, c, filas, d);
    }
  }

  lemma {:induction false} FilasDeLinea(l: LineaStock, venta: nat, costo: real, consumos: seq<Consumo>)
    requires Suma(consumos, Consumida()) <= l.cantidad
    ensures var filas := AsientosVenta(l, venta, costo, consumos);
      && (forall i :: 0 <= i < |filas| ==> filas[i].celda == l.celda)
      && Suma(filas, CantidadEn(l.celda)) == -l.cantidad
  {
    AsientosVentaForma(l, venta, costo, consumos);
    AsientosVentaSuman(l, venta, costo, consumos, 0);
  }

  lemma {:induction false} FilasFieles(k: Kardex, l: LineaStock, venta: nat, consumos: seq<Consumo>)
    requires Fiel(k) && Suma(consumos, Consumida()) <= l.cantidad
    requires var filas := AsientosVenta(l, venta, Fila(k, l.celda).costoPromedio, consumos); TrasVender(k.ledger, k.ledger + filas)
    ensures var s := Fila(k, l.celda);
      var filas := AsientosVenta(l, venta, s.costoPromedio, consumos);
      Fiel(Kardex(k.saldos[l.celda := s.(enStock := s.enStock - l.cantidad, available := s.available - l.cantidad)], k.ledger + filas))
  {
    var s := Fila(k, l.celda);
    FilasDeLinea(l, venta, s.costoPromedio, consumos);
    EscribirVariosFiel(k, l.celda, s.(enStock := s.enStock - l.cantidad, available := s.available - l.cantidad),
                       AsientosVenta(l, venta, s.costoPromedio, consumos));
  }

  lemma {:induction false} LineaFiel(e: Existencias, l: LineaStock, permite: bool, venta: nat, hoy: nat)
    requires Fiel(e.kardex) && ClavesDistintas(e.kardex.ledger) && l.cantidad > 0.0 && RegistrarLinea(e, l, permite, venta, hoy).Ok?
    ensures var k' := RegistrarLinea(e, l, permite, venta, hoy).value.kardex; Fiel(k') && ClavesDistintas(k'.ledger)
  {
    LineaAsienta(e, l, permite, venta, hoy);
    RegistrarLineaEscribe(e, l, permite, venta, hoy);
    FilasFieles(e.kardex, l, venta, ConsumoDeLinea(e, l, permite, hoy).value);
  }

  // ------------------------------------------------------------------ loops

  /** Between two lines of a sale. */
  ghost predicate FielVendiendo(k: Kardex) {
    Fiel(k) && ClavesDistintas(k.ledger)
  }

  lemma {:induction false} LineasFieles(e: Existencias, vs: map<VarianteId, Variante>, venta: nat, lineas: seq<LineaStock>, hoy: nat)
    requires FielVendiendo(e.kardex) && forall i :: 0 <= i < |lineas| ==> lineas[i].cantidad > 0.0
    ensures var r := Plegar(e, lineas, VenderLinea(vs, venta, hoy)); r.Ok? ==> Fiel(r.value.kardex)
  {
    var P, paso := (e: Existencias) => FielVendiendo(e.kardex), VenderLinea(vs, venta, hoy);
    forall e, l {:trigger paso(e, l)} | l in lineas && P(e) && paso(e, l).Ok? ensures P(paso(e, l).value) {
      if vs[l.celda.variante].isStockTracked {
        LineaFiel(e, l, vs[l.celda.variante].allowNegativeStock, venta, hoy);
      }
    }
    PlegarConserva(e, lineas, paso, P);
  }

  lemma {:induction false} ConteoFiel(k: Kardex, almacen: AlmacenId, conteo: nat, items: seq<ItemConteo>, vs: map<VarianteId, Variante>)
    requires Fiel(k) && ConteoBien(vs, items)
    ensures var r := Plegar(Contado(k, []), items, ContarItem(almacen, conteo)); r.Ok? ==> Fiel(r.value.kardex)
  {
    var P, paso := (a: Contado) => Fiel(a.kardex), ContarItem(almacen, conteo);
    forall a, item {:trigger paso(a, item)} | item in items && P(a) && paso(a, item).Ok? ensures P(paso(a, item).value) {
      if item.contada.Some? {
        ContarFiel(a.kardex, Celda(almacen, item.variante), item.contada.value, conteo);
      }
    }
    PlegarConserva(Contado(k, []), items, paso, P);
  }

  lemma {:induction false} DespachosFieles(k: Kardex, vs: map<VarianteId, Variante>, o: AlmacenId, d: AlmacenId, t: nat, clave: string, ps: seq<Pedido>)
    requires Fiel(k)
    ensures var r := Plegar(k, ps, DespachoDe(vs, o, d, t, clave)); r.Ok? ==> Fiel(r.value)
  {
    var P, paso := (k: Kardex) => Fiel(k), DespachoDe(vs, o, d, t, clave);
    forall k, p {:trigger paso(k, p)} | P(k) && paso(k, p).Ok? ensures P(paso(k, p).value) {
      DespacharFiel(k, Celda(o, p.variante), Celda(d, p.variante), p.cantidad, vs[p.variante].allowNegativeStock, t,
                    TransfSalida(clave, p.variante));
    }
    PlegarConserva(k, ps, paso, P);
  }

  lemma {:induction false} RecibidosFieles(k: Kardex, ledger: seq<Asiento>, ps: seq<Pedido>, d: AlmacenId, t: nat, clave: string, items: seq<Articulo>)
    requires Fiel(k)
    ensures var r := Plegar(Recibido(k, []), items, RecibirItem(ledger, ps, d, t, clave)); r.Ok? ==> Fiel(r.value.kardex)
  {
    var P, paso := (a: Recibido) => Fiel(a.kardex), RecibirItem(ledger, ps, d, t, clave);
    forall a, item {:trigger paso(a, item)} | P(a) && paso(a, item).Ok? ensures P(paso(a, item).value) {
      var q := Recibe(ps, item.variante);
      if q != 0.0 {
        RecibirFiel(a.kardex, Celda(d, item.variante), q, CostoDe(ledger, t, item.variante), t, TransfEntrada(clave, item.variante));
      }
    }
    PlegarConserva(Recibido(k, []), items, paso, P);
  }

  /** The origin of every article still has its row. */
  ghost predicate FielConOrigen(k: Kardex, o: AlmacenId, items: seq<Articulo>) {
    Fiel(k) && forall i :: 0 <= i < |items| ==> Celda(o, items[i].variante) in k.saldos
  }

  lemma {:induction false} CanceladosFieles(k: Kardex, ledger: seq<Asiento>, o: AlmacenId, d: AlmacenId, t: nat, items: seq<Articulo>)
    requires o != d && FielConOrigen(k, o, items)
    ensures var r := Plegar(k, items, CancelarItem(ledger, o, d, t)); r.Ok? ==> Fiel(r.value)
  {
    var P, paso := (k: Kardex) => FielConOrigen(k, o, items), CancelarItem(ledger, o, d, t);
    forall k, item {:trigger paso(k, item)} | item in items && P(k) && paso(k, item).Ok? ensures P(paso(k, item).value) {
      if item.shippedQty > 0.0 {
        CancelarFiel(k, Celda(o, item.variante), Celda(d, item.variante), item.shippedQty, CostoDe(ledger, t, item.variante), t);
      }
    }
    PlegarConserva(k, items, paso, P);
  }

  lemma {:induction false} IngresosFieles(e: Entrada, a: AlmacenId, recepcion: nat, items: seq<ItemCompra>)
    requires Fiel(e.kardex)
    ensures var r := Plegar(e, items, IngresarItem(a, recepcion)); r.Ok? ==> Fiel(r.value.kardex)
  {
    var P, paso := (e: Entrada) => Fiel(e.kardex), IngresarItem(a, recepcion);
    forall e, item {:trigger paso(e, item)} | P(e) && paso(e, item).Ok? ensures P(paso(e, item).value) {
      IngresarFiel(e.kardex, Celda(a, item.variante), item.cantidad, item.costoUnitario, recepcion);
    }
    PlegarConserva(e, items, paso, P);
  }

  lemma {:induction false} ReingresosFieles(k: Kardex, vs: map<VarianteId, Variante>, d: nat, items: seq<Reingreso>)
    requires Fiel(k)
    ensures var r := Plegar(k, items, ReingresarUno(vs, d)); r.Ok? ==> Fiel(r.value)
  {
    var P, paso := (k: Kardex) => Fiel(k), ReingresarUno(vs, d);
    forall k, item {:trigger paso(k, item)} | P(k) && paso(k, item).Ok? ensures P(paso(k, item).value) {
      ReingresarFiel(k, item.celda, item.cantidad, d);
    }
    PlegarConserva(k, items, paso, P);
  }

  // ------------------------------------------------------------------ every run

  lemma {:induction false} RecepcionarFiel(s: Estado, clave: string, numero: string, a: AlmacenId, items: seq<ItemCompra>)
    requires Fiel(s.kardex)
    ensures var r := Recepcionar(s, clave, numero, a, items); r.Ok? ==> Fiel(r.value.kardex)
  {
    if !RecepcionConClave(s.recepciones, clave) {
      IngresosFieles(Entrada(s.kardex, s.lotes, s.recibidos), a, |s.recepciones|, items);
    }
  }

  lemma {:induction false} VenderFiel(s: Estado, venta: nat, lineas: seq<LineaStock>, hoy: nat)
    requires FielVendiendo(s.kardex)
    ensures var r := Vender(s, venta, lineas, hoy); r.Ok? ==> Fiel(r.value.kardex)
  {
    if LineasPositivas(lineas) {
      LineasFieles(Existencias(s.kardex, s.lotes), s.variantes, venta, lineas, hoy);
    }
  }

  lemma {:induction false} ReingresarStockFiel(s: Estado, d: nat, items: seq<Reingreso>)
    requires Fiel(s.kardex)
    ensures var r := ReingresarStock(s, d, items); r.Ok? ==> Fiel(r.value.kardex)
  {
    ReingresosFieles(s.kardex, s.variantes, d, items);
  }

  lemma {:induction false} CrearTransferenciaFiel(s: Estado, o: AlmacenId, d: AlmacenId, pedidos: seq<Pedido>, clave: string)
    requires Fiel(s.kardex)
    ensures var r := CrearTransferencia(s, o, d, pedidos, clave); r.Ok? ==> Fiel(r.value.kardex)
  {
    DespachosFieles(s.kardex, s.variantes, o, d, |s.transferencias|, clave, Consolidar(pedidos));
  }

  lemma {:induction false} RecibirTransferenciaFiel(s: Estado, id: nat, pedidos: seq<Pedido>, clave: string)
    requires Fiel(s.kardex)
    ensures var r := RecibirTransferencia(s, id, pedidos, clave); r.Ok? ==> Fiel(r.value.kardex)
  {
    if id < |s.transferencias| {
      RecibidosFieles(s.kardex, s.kardex.ledger, Consolidar(SoloPositivos(pedidos)), s.transferencias[id].destino, id, clave,
                      s.transferencias[id].articulos);
    }
  }

  /** Both ends of an article are different warehouses, and its origin has its row. */
  lemma {:induction false} OrigenConFila(k: Kardex, t: Transferencia)
    requires Fiel(k) && TransferenciaBien(k, t)
    ensures t.origen != t.destino && FielConOrigen(k, t.origen, t.articulos)
  {
    forall i | 0 <= i < |t.articulos| ensures Celda(t.origen, t.articulos[i].variante) in k.saldos {
      assert ArticuloBien(k, t.origen, t.destino, t.articulos[i]);
    }
  }

  lemma {:induction false} CancelarTransferenciaFiel(s: Estado, id: nat)
    requires Fiel(s.kardex) && TransitoCuadra(s.kardex, s.transferencias)
    ensures var r := CancelarTransferencia(s, id); r.Ok? ==> Fiel(r.value.kardex)
  {
    if id < |s.transferencias| {
      var t := s.transferencias[id];
      OrigenConFila(s.kardex, t);
      CanceladosFieles(s.kardex, s.kardex.ledger, t.origen, t.destino, id, t.articulos);
    }
  }

  lemma {:induction false} RegistrarStockInicialFiel(s: Estado, c: Celda, cantidad: real, costo: real, clave: string)
    requires Fiel(s.kardex)
    ensures var r := RegistrarStockInicial(s, c, cantidad, costo, clave); r.Ok? ==> Fiel(r.value.kardex)
  {
    if c !in s.kardex.saldos && Abrir(s.kardex, c, cantidad, costo, Cliente(clave)).Ok? {
      AbrirFiel(s.kardex, c, cantidad, costo, Cliente(clave));
    }
  }

  lemma {:induction false} CargarStockInicialFiel(s: Estado, c: Celda, cantidad: real, costo: real)
    requires Fiel(s.kardex)
    ensures var r := CargarStockInicial(s, c, cantidad, costo); r.Ok? ==> Fiel(r.value.kardex)
  {
    if c !in s.kardex.saldos && Abrir(s.kardex, c, cantidad, costo, Apertura(c.variante, c.almacen)).Ok? {
      AbrirFiel(s.kardex, c, cantidad, costo, Apertura(c.variante, c.almacen));
    }
  }

  lemma {:induction false} AjustarStockFiel(s: Estado, c: Celda, esEntrada: bool, cantidad: real, costo: Option<real>, clave: string, aleatorio: nat)
    requires Fiel(s.kardex)
    ensures var r := AjustarStock(s, c, esEntrada, cantidad, costo, clave, aleatorio); r.Ok? ==> Fiel(r.value.kardex)
  {
    if c.variante in s.variantes {
      var key, permite := ClaveAjuste(c, clave, aleatorio), s.variantes[c.variante].allowNegativeStock;
      if Ajustar(s.kardex, c, esEntrada, cantidad, costo, permite, key).Ok? {
        AjustarFiel(s.kardex, c, esEntrada, cantidad, costo, permite, key);
      }
    }
  }

  lemma {:induction false} ContabilizarConteoFiel(s: Estado, id: nat)
    requires Fiel(s.kardex) && forall i :: 0 <= i < |s.conteos| ==> ConteoBien(s.variantes, s.conteos[i].articulos)
    ensures var r := ContabilizarConteo(s, id); r.Ok? ==> Fiel(r.value.kardex)
  {
    if id < |s.conteos| {
      ConteoFiel(s.kardex, s.conteos[id].almacen, id, s.conteos[id].articulos, s.variantes);
    }
  }

  /** A request that writes no ledger entry, and of one row at most what is set aside or its levels. */
  lemma {:induction false} SinAsientosFiel(s: Estado, s': Estado, c: Celda)
    requires Fiel(s.kardex) && s'.kardex.ledger == s.kardex.ledger
    requires s'.kardex.saldos == s.kardex.saldos || (c in s'.kardex.saldos && s'.kardex.saldos == s.kardex.saldos[c := s'.kardex.saldos[c]])
    requires Fila(s'.kardex, c).enStock == Fila(s.kardex, c).enStock && Fila(s'.kardex, c).costoPromedio == Fila(s.kardex, c).costoPromedio
    ensures Fiel(s'.kardex)
  {
    MismoLedgerFiel(s.kardex, s'.kardex);
  }

  lemma {:induction false} AlmacenFiel(s: Estado, p: Peticion)
    requires Valido(s) && Fiel(s.kardex) && Atender(s, p).Ok?
    requires p.PStockInicial? || p.PStockCatalogo? || p.PAjuste? || p.PContabilizar? || EsTransferencia(p)
    ensures Fiel(Paso(s, p).kardex)
  {
    match p
    case PStockInicial(c, cantidad, costo, clave) => RegistrarStockInicialFiel(s, c, cantidad, costo, clave);
    case PStockCatalogo(c, cantidad, costo) => CargarStockInicialFiel(s, c, cantidad, costo);
    case PAjuste(c, e, cantidad, costo, clave, aleatorio) => AjustarStockFiel(s, c, e, cantidad, costo, clave, aleatorio);
    case PContabilizar(id) => ContabilizarConteoFiel(s, id);
    case PTransferir(o, d, pedidos, clave) => CrearTransferenciaFiel(s, o, d, pedidos, clave);
    case PRecibir(id, pedidos, clave) => RecibirTransferenciaFiel(s, id, pedidos, clave);
    case PCancelar(id) => CancelarTransferenciaFiel(s, id);
  }

  lemma {:induction false} DocumentoFiel(s: Estado, p: Peticion)
    requires Valido(s) && Fiel(s.kardex) && Atender(s, p).Ok? && (p.PRecepcion? || p.PVenta? || p.PDevolucion?)
    ensures Fiel(Paso(s, p).kardex)
  {
    match p
    case PRecepcion(clave, numero, a, items) => RecepcionarFiel(s, clave, numero, a, items);
    case PVenta(venta, lineas, hoy) => VenderFiel(s, venta, lineas, hoy);
    case PDevolucion(d, items) => ReingresarStockFiel(s, d, items);
  }

  lemma {:induction false} ReservaFiel(s: Estado, p: Peticion)
    requires Fiel(s.kardex) && Atender(s, p).Ok? && (p.PNivel? || p.PReserva? || p.PLiberar?)
    ensures Fiel(Paso(s, p).kardex)
  {
    match p
    case PNivel(c, _, _) => SinAsientosFiel(s, Paso(s, p), c);
    case PReserva(c, _) => SinAsientosFiel(s, Paso(s, p), c);
    case PLiberar(id) => SinAsientosFiel(s, Paso(s, p), s.reservas[id].celda);
  }

  lemma {:induction false} PasoFiel(s: Estado, p: Peticion)
    requires Valido(s) && Fiel(s.kardex)
    ensures Fiel(Paso(s, p).kardex)
  {
    if Atender(s, p).Ok? {
      match p
      case PNivel(_, _, _) => ReservaFiel(s, p);
      case PReserva(_, _) => ReservaFiel(s, p);
      case PLiberar(_) => ReservaFiel(s, p);
      case PRecepcion(_, _, _, _) => DocumentoFiel(s, p);
      case PVenta(_, _, _) => DocumentoFiel(s, p);
      case PDevolucion(_, _) => DocumentoFiel(s, p);
      case PAlmacen(_, _) =>
      case PVariante(_, _, _, _) =>
      case PCrearConteo(_, _) =>
      case PRegistrarConteo(_, _) =>
      case PCancelarConteo(_) =>
      case _ => AlmacenFiel(s, p);
    }
  }

  lemma {:induction false} CorrerFiel(ps: seq<Peticion>)
    ensures Fiel(Correr(INICIAL, ps).kardex)
  {
    if |ps| == 0 {
      forall c ensures FilaFiel(INICIAL.kardex, c) {
      }
    } else {
      CorrerFiel(ps[..|ps| - 1]);
      InicialValido();
      CorrerMantiene(INICIAL, ps[..|ps| - 1]);
      PasoFiel(Correr(INICIAL, ps[..|ps| - 1]), ps[|ps| - 1]);
    }
  }

  /** The value of a faithful ledger: what the replay carries is what the entries record, plus what
      leaked entry by entry. */
  lemma {:induction false} FugasExactas(ledger: seq<Asiento>, c: Celda)
    requires LedgerFiel(ledger)
    ensures Valor(Suma(ledger, CantidadEn(c)), Promedio(ledger, c)) == Suma(ledger, CostoEn(c)) + Fugas(ledger, c)
  {
    if |ledger| > 0 {
      var n := |ledger| - 1;
      var previos, a := ledger[..n], ledger[n];
      assert forall i :: 0 <= i < n ==> previos[..i] == ledger[..i];
      FugasExactas(previos, c);
      if a.celda == c {
        assert AsientoFiel(Promedio(previos, c), a);
        FugaUna(Suma(previos, CantidadEn(c)), Promedio(previos, c), a);
      }
    }
  }

  lemma {:induction false} FugaUna(enStock: real, avg: real, a: Asiento)
    requires AsientoFiel(avg, a)
    ensures Valor(enStock + a.cantidad, PromedioTras(enStock, avg, a)) == Valor(enStock, avg) + a.totalCost + Fuga(enStock, avg, a)
  {
    ValorSuma(enStock, a.cantidad, avg);
    ValorSuma(enStock, a.cantidad, a.costoUnitario);
    if Pondera(a) && enStock + a.cantidad > 0.0 {
      PonderadoConserva(enStock, avg, a.cantidad, a.costoUnitario);
    }
  }

  /** After any run, for every cell, whether or not its stock may go below zero: stock and average
      are the replay of the ledger; and stock times average is the cost the ledger records plus what
      leaked, entry by entry. */
  lemma {:induction false} SaldoEsHistoria(ps: seq<Peticion>, c: Celda)
    ensures var k := Correr(INICIAL, ps).kardex;
      && Fila(k, c).enStock == Suma(k.ledger, CantidadEn(c)) && Fila(k, c).costoPromedio == Promedio(k.ledger, c)
      && Valor(Fila(k, c).enStock, Fila(k, c).costoPromedio) == Suma(k.ledger, CostoEn(c)) + Fugas(k.ledger, c)
  {
    CorrerFiel(ps);
    var k := Correr(INICIAL, ps).kardex;
    assert FilaFiel(k, c);
    FugasExactas(k.ledger, c);
  }

  /** After any run an entry leaks value only in two ways: it brings stock in at a cost of its own and
      leaves the cell not above zero; or it undoes a transfer. Everything that leaves, comes back or is
      counted was recorded at the average of the moment. */
  lemma {:induction false} SoloDosFugas(ps: seq<Peticion>, i: nat)
    ensures var ledger := Correr(INICIAL, ps).kardex.ledger;
      i < |ledger| ==>
        var a, previos := ledger[i], ledger[..i];
        && (!Pondera(a) && !a.clave.TransfCancel? ==> a.costoUnitario == Promedio(previos, a.celda))
        && (Fuga(Suma(previos, CantidadEn(a.celda)), Promedio(previos, a.celda), a) != 0.0 ==>
              a.clave.TransfCancel? || (Pondera(a) && Suma(previos, CantidadEn(a.celda)) + a.cantidad <= 0.0))
  {
    CorrerFiel(ps);
    var ledger := Correr(INICIAL, ps).kardex.ledger;
    if i < |ledger| {
      assert AsientoFiel(Promedio(ledger[..i], ledger[i].celda), ledger[i]);
    }
  }
}
