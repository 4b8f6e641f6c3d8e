/** The goods a shop sells and takes back: after any run the sale entries of a cell are the lines of its
    sales, the return entries what refunds put back, and its stock what all the documents say. */
module Mercaderia {
  import opened Comun
  import opened Sumas
  import opened Kardex
  import opened Inventario
  import opened Existencias
  import opened Invariante
  import opened Corridas
  import opened Ventas
  import opened VentasInvariante
  import opened VentasCorridas
  import opened Efectos
  import opened Documentos
  import Importes
  import Trazas
  import Caja

  // ------------------------------------------------------------------ what sales take

  function LineaVendidaEn(c: Celda): LineaCalculada -> real {
    (l: LineaCalculada) => if l.almacen == Some(c.almacen) && l.variante == c.variante then l.cantidad else 0.0
  }

  /** What a sale sold out of cell c. */
  function VendidoEn(c: Celda): Venta -> real {
    (v: Venta) => Suma(v.lineas, LineaVendidaEn(c))
  }

  lemma {:induction false} StockDeLineas(ls: seq<LineaCalculada>, vs: map<VarianteId, Variante>, c: Celda)
    requires forall i :: 0 <= i < |ls| && ls[i].almacen.Some? ==> ls[i].variante in vs && vs[ls[i].variante].isStockTracked
    ensures Suma(LineasConStock(ls), VentaEn(vs, c)) == Suma(ls, LineaVendidaEn(c))
  {
    if |ls| > 0 {
      var n := |ls| - 1;
      StockDeLineas(ls[..n], vs, c);
      assert ls[n].almacen.Some? ==> ls[n].variante in vs && vs[ls[n].variante].isStockTracked;
      assert LineasConStock(ls[..n]) + [] == LineasConStock(ls[..n]);
    }
  }

  /** Line number x.numero of the sale, counted from one, as it leaves its warehouse. */
  predicate EsLaLinea(ls: seq<LineaCalculada>, x: LineaStock) {
    && 1 <= x.numero <= |ls|
    && var l := ls[x.numero - 1];
       l.almacen.Some? && x.celda == Celda(l.almacen.value, l.variante) && x.cantidad == l.cantidad
  }

  predicate Numerada(r: seq<LineaStock>, numero: nat) {
    exists k :: 0 <= k < |r| && r[k].numero == numero
  }

  lemma {:induction false} EsLaMismaLinea(ls: seq<LineaCalculada>, n: nat, x: LineaStock)
    requires n <= |ls| && EsLaLinea(ls[..n], x)
    ensures EsLaLinea(ls, x)
  {
  }

  lemma {:induction false} SigueNumerada(r: seq<LineaStock>, r': seq<LineaStock>, numero: nat)
    requires Numerada(r, numero) && r <= r'
    ensures Numerada(r', numero)
  {
    var k :| 0 <= k < |r| && r[k].numero == numero;
    assert r'[k].numero == numero;
  }

  /** The lines that move stock are those with a warehouse, in order, each under its own number in the sale. */
  lemma {:induction false} LineasNumeradas(ls: seq<LineaCalculada>)
    ensures forall k :: 0 <= k < |LineasConStock(ls)| ==> EsLaLinea(ls, LineasConStock(ls)[k])
    ensures forall j, k :: 0 <= j < k < |LineasConStock(ls)| ==> LineasConStock(ls)[j].numero < LineasConStock(ls)[k].numero
    ensures forall i :: 0 <= i < |ls| && ls[i].almacen.Some? ==> Numerada(LineasConStock(ls), i + 1)
  {
    if |ls| > 0 {
      var n := |ls| - 1;
      LineasNumeradas(ls[..n]);
      var previas, r := LineasConStock(ls[..n]), LineasConStock(ls);
      forall k | 0 <= k < |r| ensures EsLaLinea(ls, r[k]) {
        if k < |previas| {
          EsLaMismaLinea(ls, n, previas[k]);
        }
      }
      forall j, k | 0 <= j < k < |r| ensures r[j].numero < r[k].numero {
        assert EsLaLinea(ls[..n], previas[j]);
      }
      forall i | 0 <= i < |ls| && ls[i].almacen.Some? ensures Numerada(r, i + 1) {
        if i < n {
          assert ls[..n][i] == ls[i];
          SigueNumerada(previas, r, i + 1);
        } else {
          assert r[|previas|].numero == i + 1;
        }
      }
    }
  }

  /** Lines have a warehouse only when the stock of their variant is kept. */
  lemma {:induction false} LineasConAlmacen(s: EstadoVentas, q: PedidoVenta)
    requires CalcularLineas(s, q).Ok? && PedidoValido(q)
    ensures var ls := CalcularLineas(s, q).value;
      forall i :: 0 <= i < |ls| && ls[i].almacen.Some? ==> ls[i].variante in s.inv.variantes && s.inv.variantes[ls[i].variante].isStockTracked
  {
    Importes.CalcularLineasSii(s, q);
    var ls := CalcularLineas(s, q).value;
    forall i | 0 <= i < |ls| && ls[i].almacen.Some?
      ensures ls[i].variante in s.inv.variantes && s.inv.variantes[ls[i].variante].isStockTracked {
      assert Importes.LineaJusta(s.inv.variantes, q.lineas[i], ls[i], q.almacenDefault,
                                 CargarVigentes(s.promociones, q.promocionIds, q.activas), Suma(q.lineas, Importes.BrutoPedido()));
    }
  }

  lemma {:induction false} SalidaPosta(s: Estado, venta: nat, ls: seq<LineaStock>, hoy: nat, s': Estado, c: Celda, t: TipoMovimiento)
    requires Vender(s, venta, ls, hoy) == Ok(s')
    ensures EnLedger(c, t)(s'.kardex) == EnLedger(c, t)(s.kardex) - Si(t == VENTA, Suma(ls, VentaEn(s.variantes, c)))
  {
    VenderAsienta(s, venta, ls, hoy, c, t);
  }

  /** A new sale posts in each cell what its lines sell there. */
  lemma {:induction false} VentaPosta(s: EstadoVentas, q: PedidoVenta, c: Celda, t: TipoMovimiento)
    requires Trazas.VendeAlgo(s, q)
    ensures CalcularLineas(s, q).Ok?
    ensures EnLedger(c, t)(Crear(s, q).value.inv.kardex)
         == EnLedger(c, t)(s.inv.kardex) - Si(t == VENTA, Suma(CalcularLineas(s, q).value, LineaVendidaEn(c)))
  {
    Trazas.VenderTraza(s, q);
    var ls := CalcularLineas(s, q).value;
    LineasConAlmacen(s, q);
    StockDeLineas(ls, s.inv.variantes, c);
    SalidaPosta(s.inv, |s.ventas|, LineasConStock(ls), q.hoy, Crear(s, q).value.inv, c, t);
  }

  // ------------------------------------------------------------------ what refunds put back

  /** What an item of a refund puts back into cell c: nothing when it is scrapped or its stock is not kept. */
  function ReponeEn(vs: map<VarianteId, Variante>, v: Venta, porDefecto: Option<AlmacenId>, c: Celda): ItemDevolucion -> real {
    (it: ItemDevolucion) =>
      if && it.linea < |v.lineas| && v.lineas[it.linea].variante == c.variante && c.variante in vs && vs[c.variante].isStockTracked
         && it.restock != Some(false) && (if it.almacen.Some? then it.almacen else porDefecto) == Some(c.almacen)
      then it.cantidad else 0.0
  }

  lemma {:induction false} ReingresosDeItems(vs: map<VarianteId, Variante>, v: Venta, porDefecto: Option<AlmacenId>, items: seq<ItemDevolucion>, c: Celda)
    ensures Suma(Trazas.Reingresos(vs, v, porDefecto, items), ReingresoEn(c)) == Suma(items, ReponeEn(vs, v, porDefecto, c))
  {
    if |items| > 0 {
      var n := |items| - 1;
      ReingresosDeItems(vs, v, porDefecto, items[..n], c);
      var previos, uno := Trazas.Reingresos(vs, v, porDefecto, items[..n]), Trazas.Destino(vs, v, porDefecto, items[n]);
      SumaConcat(previos, uno, ReingresoEn(c));
      if uno != [] {
        SumaUno(uno[0], ReingresoEn(c));
      }
    }
  }

  function RepuestoPor(s: EstadoVentas, q: PedidoDevolucion, c: Celda): real {
    if q.venta < |s.ventas| then Suma(q.items, ReponeEn(s.inv.variantes, s.ventas[q.venta], q.almacenDefault, c)) else 0.0
  }

  lemma {:induction false} ReingresoPosta(s: Estado, d: nat, rs: seq<Reingreso>, s': Estado, c: Celda, t: TipoMovimiento)
    requires ReingresarStock(s, d, rs) == Ok(s')
    ensures EnLedger(c, t)(s'.kardex) == EnLedger(c, t)(s.kardex) + Si(t == DEVOLUCION_VENTA, Suma(rs, ReingresoEn(c)))
  {
    DevolverAsienta(s, d, rs, c, t);
  }

  /** A new refund posts in each cell what its items put back there. */
  lemma {:induction false} DevolucionPosta(s: EstadoVentas, q: PedidoDevolucion, c: Celda, t: TipoMovimiento)
    requires Trazas.DevuelveAlgo(s, q)
    ensures EnLedger(c, t)(Devolver(s, q).value.inv.kardex) == EnLedger(c, t)(s.inv.kardex) + Si(t == DEVOLUCION_VENTA, RepuestoPor(s, q, c))
  {
    Trazas.DevolverTraza(s, q);
    var rs := Trazas.Reingresos(s.inv.variantes, s.ventas[q.venta], q.almacenDefault, q.items);
    ReingresosDeItems(s.inv.variantes, s.ventas[q.venta], q.almacenDefault, q.items, c);
    ReingresoPosta(s.inv, |s.reembolsos|, rs, Devolver(s, q).value.inv, c, t);
  }

  // ------------------------------------------------------------------ every run of sales

  /** What a request of sales puts back into cell c. */
  function Repuesto(s: EstadoVentas, p: PeticionVentas, c: Celda): real {
    if p.VDevolver? && Trazas.DevuelveAlgo(s, p.devolucion) then RepuestoPor(s, p.devolucion, c) else 0.0
  }

  function RepuestoTodo(ps: seq<PeticionVentas>, c: Celda): real {
    if |ps| == 0 then 0.0
    else RepuestoTodo(ps[..|ps| - 1], c) + Repuesto(CorrerVentas(VENTAS_INICIAL, ps[..|ps| - 1]), ps[|ps| - 1], c)
  }

  lemma {:induction false} StockNoVende(s: Estado, q: Peticion, c: Celda)
    requires !q.PVenta? && !q.PDevolucion?
    ensures Efecto(s, q, c, VENTA) == 0.0 && Efecto(s, q, c, DEVOLUCION_VENTA) == 0.0
  {
  }

  lemma {:induction false} VentasConservan(s: EstadoVentas, p: PeticionVentas, c: Celda)
    requires p.VVenta? ==> !Trazas.VendeAlgo(s, p.pedido)
    ensures Suma(PasoVentas(s, p).ventas, VendidoEn(c)) == Suma(s.ventas, VendidoEn(c))
  {
    Importes.PasoSoloEstado(s, p);
    NingunaNueva(s, p);
    SumaParalela(PasoVentas(s, p).ventas, s.ventas, VendidoEn(c));
  }

  lemma {:induction false} NingunaNueva(s: EstadoVentas, p: PeticionVentas)
    requires p.VVenta? ==> !Trazas.VendeAlgo(s, p.pedido)
    ensures |PasoVentas(s, p).ventas| == |s.ventas|
  {
  }

  ghost predicate MercaderiaDice(s: EstadoVentas, c: Celda, repuesto: real) {
    && Suma(s.inv.kardex.ledger, DeTipo(c, VENTA)) == -Suma(s.ventas, VendidoEn(c))
    && Suma(s.inv.kardex.ledger, DeTipo(c, DEVOLUCION_VENTA)) == repuesto
  }

  lemma {:induction false} VentaDice(s: EstadoVentas, q: PedidoVenta, c: Celda, repuesto: real)
    requires MercaderiaDice(s, c, repuesto) && Trazas.VendeAlgo(s, q)
    ensures MercaderiaDice(Crear(s, q).value, c, repuesto)
  {
    VentaPosta(s, q, c, VENTA);
    VentaPosta(s, q, c, DEVOLUCION_VENTA);
    Caja.CrearAgrega(s, q);
    assert Crear(s, q).value.ventas[..|s.ventas|] == s.ventas;
  }

  lemma {:induction false} DevolucionDice(s: EstadoVentas, q: PedidoDevolucion, c: Celda, repuesto: real)
    requires MercaderiaDice(s, c, repuesto) && Trazas.DevuelveAlgo(s, q)
    ensures MercaderiaDice(Devolver(s, q).value, c, repuesto + RepuestoPor(s, q, c))
  {
    DevolucionPosta(s, q, c, VENTA);
    DevolucionPosta(s, q, c, DEVOLUCION_VENTA);
    VentasConservan(s, VDevolver(q), c);
  }

  lemma {:induction false} StockDice(s: EstadoVentas, q: Peticion, c: Celda, repuesto: real)
    requires MercaderiaDice(s, c, repuesto) && Valido(s.inv)
    ensures MercaderiaDice(PasoVentas(s, VStock(q)), c, repuesto)
  {
    if !q.PVenta? && !q.PDevolucion? {
      PasoAsienta(s.inv, q, c, VENTA);
      PasoAsienta(s.inv, q, c, DEVOLUCION_VENTA);
      StockNoVende(s.inv, q, c);
    }
  }

  lemma {:induction false} PasoMercaderia(s: EstadoVentas, p: PeticionVentas, c: Celda, repuesto: real)
    requires MercaderiaDice(s, c, repuesto) && Valido(s.inv)
    ensures MercaderiaDice(PasoVentas(s, p), c, repuesto + Repuesto(s, p, c))
  {
    if p.VVenta? && Trazas.VendeAlgo(s, p.pedido) {
      VentaDice(s, p.pedido, c, repuesto);
    } else if p.VDevolver? && Trazas.DevuelveAlgo(s, p.devolucion) {
      DevolucionDice(s, p.devolucion, c, repuesto);
    } else if p.VStock? {
      StockDice(s, p.peticion, c, repuesto);
    } else {
      Trazas.SinTraza(s, p);
      VentasConservan(s, p, c);
    }
  }

  /** After any run of sales: the sale entries of a cell are what the lines of the sales on record sold out of
      it, and its return entries what the items of refunds put back. */
  lemma {:induction false} LedgerEsLasVentas(ps: seq<PeticionVentas>, c: Celda)
    ensures MercaderiaDice(CorrerVentas(VENTAS_INICIAL, ps), c, RepuestoTodo(ps, c))
  {
    if |ps| > 0 {
      LedgerEsLasVentas(ps[..|ps| - 1], c);
      CorrerVentasMantiene(ps[..|ps| - 1]);
      PasoMercaderia(CorrerVentas(VENTAS_INICIAL, ps[..|ps| - 1]), ps[|ps| - 1], c, RepuestoTodo(ps[..|ps| - 1], c));
    }
  }

  // ------------------------------------------------------------------ the shop

  /** What was opened or adjusted in cell c, as requested. */
  function PuestoAMano(ps: seq<Peticion>, c: Celda): real {
    LoPedido(ps, c, APERTURA) + LoPedido(ps, c, AJUSTE_ENTRADA) + LoPedido(ps, c, AJUSTE_SALIDA)
  }

  lemma {:induction false} AManoEnLedger(ps: seq<Peticion>, c: Celda)
    ensures var l := Corridas.Correr(INICIAL, ps).kardex.ledger;
      Suma(l, DeTipo(c, APERTURA)) + Suma(l, DeTipo(c, AJUSTE_ENTRADA)) + Suma(l, DeTipo(c, AJUSTE_SALIDA)) == PuestoAMano(ps, c)
  {
    LedgerEsLoPedido(ps, c, APERTURA);
    LedgerEsLoPedido(ps, c, AJUSTE_ENTRADA);
    LedgerEsLoPedido(ps, c, AJUSTE_SALIDA);
  }

  /** The stock of a cell, put together from the papers. */
  function SegunPapeles(s: EstadoVentas, c: Celda): real {
    Suma(s.inv.recibidos, CompradoEn(c)) + Suma(s.inv.transferencias, LlegadoA(c)) - Suma(s.inv.transferencias, EnviadoDesde(c))
      + Suma(s.inv.conteos, CorregidoEn(c)) - Suma(s.ventas, VendidoEn(c))
  }

  /** After any run of the shop the stock of every cell is what was put there by hand, what receipts,
      transfers, counts and sales say on paper, and what refunds put back. */
  lemma {:induction false} StockEsLosPapeles(ps: seq<Caja.PeticionCaja>, c: Celda)
    ensures var s := Caja.Correr(ps).ventas;
      Fila(s.inv.kardex, c).enStock
        == PuestoAMano(Trazas.StockDeTienda(ps), c) + SegunPapeles(s, c) + RepuestoTodo(Trazas.VentasDe(ps), c)
  {
    var qs := Trazas.StockDeTienda(ps);
    Trazas.TiendaSobreVentas(ps);
    Trazas.VentasSobreStock(VENTAS_INICIAL, Trazas.VentasDe(ps));
    SaldosSiempreCuadran(qs, c);
    SumaDeTipos(Corridas.Correr(INICIAL, qs).kardex.ledger, c);
    LedgerEsLosDocumentos(qs, c);
    AManoEnLedger(qs, c);
    LedgerEsLasVentas(Trazas.VentasDe(ps), c);
  }
}
