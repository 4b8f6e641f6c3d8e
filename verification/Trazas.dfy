/** Every run of the shop is, for its sales, a run of `VentasCorridas`, and every run of sales is, for its
    stock, a run of `Corridas`: a sale and a refund move the stock as one stock request each would. So what
    those runs keep, the shop keeps. */
module Trazas {
  import opened Comun
  import opened Sumas
  import opened Kardex
  import opened Movimientos
  import opened Inventario
  import opened Invariante
  import opened Corridas
  import opened Promociones
  import opened Ventas
  import opened VentasInvariante
  import opened VentasCorridas
  import Existencias
  import Promedios
  import Historial
  import Caja

  // ------------------------------------------------------------------ sales over stock

  /** Where a refunded item goes back, if it does. */
  function Destino(vs: map<VarianteId, Variante>, v: Venta, porDefecto: Option<AlmacenId>, it: ItemDevolucion): seq<Reingreso> {
    var almacen := if it.almacen.Some? then it.almacen else porDefecto;
    if it.linea < |v.lineas| && v.lineas[it.linea].variante in vs && it.restock.GetOr(true)
       && vs[v.lineas[it.linea].variante].isStockTracked && almacen.Some?
    then [Reingreso(Celda(almacen.value, v.lineas[it.linea].variante), it.cantidad)]
    else []
  }

  function Reingresos(vs: map<VarianteId, Variante>, v: Venta, porDefecto: Option<AlmacenId>, items: seq<ItemDevolucion>): seq<Reingreso> {
    if |items| == 0 then []
    else Reingresos(vs, v, porDefecto, items[..|items| - 1]) + Destino(vs, v, porDefecto, items[|items| - 1])
  }

  lemma {:induction false} ReponerUno(k: Kardex, vs: map<VarianteId, Variante>, v: Venta, d: nat, porDefecto: Option<AlmacenId>, it: ItemDevolucion)
    requires ReponerLinea(vs, v, d, porDefecto)(k, it).Ok?
    ensures Plegar(k, Destino(vs, v, porDefecto, it), ReingresarUno(vs, d)) == ReponerLinea(vs, v, d, porDefecto)(k, it)
  {
    var uno := Destino(vs, v, porDefecto, it);
    if uno != [] {
      PlegarUno(k, uno[0], ReingresarUno(vs, d));
    }
  }

  /** The loop of a refund is the stock loop over the items that go back. */
  lemma {:induction false} ReponerEsReingresar(k: Kardex, vs: map<VarianteId, Variante>, v: Venta, d: nat, porDefecto: Option<AlmacenId>,
                                               items: seq<ItemDevolucion>)
    requires Plegar(k, items, ReponerLinea(vs, v, d, porDefecto)).Ok?
    ensures Plegar(k, Reingresos(vs, v, porDefecto, items), ReingresarUno(vs, d)) == Plegar(k, items, ReponerLinea(vs, v, d, porDefecto))
  {
    if |items| > 0 {
      var n := |items| - 1;
      ReponerEsReingresar(k, vs, v, d, porDefecto, items[..n]);
      ReponerUno(Plegar(k, items[..n], ReponerLinea(vs, v, d, porDefecto)).value, vs, v, d, porDefecto, items[n]);
      PlegarConcat(k, Reingresos(vs, v, porDefecto, items[..n]), Destino(vs, v, porDefecto, items[n]), ReingresarUno(vs, d));
    }
  }

  lemma {:induction false} ReingresanPositivos(vs: map<VarianteId, Variante>, v: Venta, porDefecto: Option<AlmacenId>, items: seq<ItemDevolucion>)
    requires forall i :: 0 <= i < |items| ==> items[i].cantidad > 0.0
    ensures ReingresosPositivos(Reingresos(vs, v, porDefecto, items))
  {
    if |items| > 0 {
      ReingresanPositivos(vs, v, porDefecto, items[..|items| - 1]);
    }
  }

  predicate DevuelveAlgo(s: EstadoVentas, p: PedidoDevolucion) {
    Devolver(s, p).Ok? && !ReembolsoConClave(s.reembolsos, p.clave)
  }

  predicate VendeAlgo(s: EstadoVentas, p: PedidoVenta) {
    Crear(s, p).Ok? && !VentaConClave(s.ventas, p.clave)
  }

  /** The stock request a request of sales amounts to. */
  function TrazaVentas(s: EstadoVentas, p: PeticionVentas): seq<Peticion> {
    match p
    case VStock(q) => if q.PVenta? || q.PDevolucion? then [] else [q]
    case VVenta(q) => if VendeAlgo(s, q) then [PVenta(|s.ventas|, LineasConStock(CalcularLineas(s, q).value), q.hoy)] else []
    case VDevolver(q) =>
      if DevuelveAlgo(s, q)
      then [PDevolucion(|s.reembolsos|, Reingresos(s.inv.variantes, s.ventas[q.venta], q.almacenDefault, q.items))] else []
    case _ => []
  }

  lemma {:induction false} DevolverParte(s: EstadoVentas, q: PedidoDevolucion)
    requires DevuelveAlgo(s, q)
    ensures q.venta < |s.ventas| && forall i :: 0 <= i < |q.items| ==> q.items[i].cantidad > 0.0
    ensures var r := Plegar(s.inv.kardex, q.items, ReponerLinea(s.inv.variantes, s.ventas[q.venta], |s.reembolsos|, q.almacenDefault));
      r.Ok? && Devolver(s, q).value.inv == s.inv.(kardex := r.value)
  {
  }

  lemma {:induction false} DevolverTraza(s: EstadoVentas, q: PedidoDevolucion)
    requires DevuelveAlgo(s, q)
    ensures q.venta < |s.ventas|
    ensures var rs := Reingresos(s.inv.variantes, s.ventas[q.venta], q.almacenDefault, q.items);
      ReingresarStock(s.inv, |s.reembolsos|, rs) == Ok(Devolver(s, q).value.inv)
  {
    DevolverParte(s, q);
    ReingresanPositivos(s.inv.variantes, s.ventas[q.venta], q.almacenDefault, q.items);
    ReponerEsReingresar(s.inv.kardex, s.inv.variantes, s.ventas[q.venta], |s.reembolsos|, q.almacenDefault, q.items);
  }

  lemma {:induction false} VenderTraza(s: EstadoVentas, q: PedidoVenta)
    requires VendeAlgo(s, q)
    ensures CalcularLineas(s, q).Ok?
    ensures Vender(s.inv, |s.ventas|, LineasConStock(CalcularLineas(s, q).value), q.hoy) == Ok(Crear(s, q).value.inv)
  {
  }

  lemma {:induction false} CorrerUno(s: Estado, p: Peticion)
    ensures Corridas.Correr(s, [p]) == Corridas.Paso(s, p) && Corridas.Correr(s, []) == s
  {
    assert [p][..0] == [];
  }

  lemma {:induction false} CorrerReingreso(s: Estado, d: nat, rs: seq<Reingreso>, s': Estado)
    requires ReingresarStock(s, d, rs) == Ok(s')
    ensures Corridas.Correr(s, [PDevolucion(d, rs)]) == s'
  {
    CorrerUno(s, PDevolucion(d, rs));
  }

  /** A request of sales without a trace leaves the stock as it was. */
  lemma {:induction false} SinTraza(s: EstadoVentas, p: PeticionVentas)
    requires !p.VStock? && (p.VVenta? ==> !VendeAlgo(s, p.pedido)) && (p.VDevolver? ==> !DevuelveAlgo(s, p.devolucion))
    ensures PasoVentas(s, p).inv == s.inv
  {
  }

  lemma {:induction false} VentaConTraza(s: EstadoVentas, q: PedidoVenta)
    requires VendeAlgo(s, q)
    ensures PasoVentas(s, VVenta(q)).inv == Corridas.Correr(s.inv, TrazaVentas(s, VVenta(q)))
  {
    VenderTraza(s, q);
    CorrerUno(s.inv, PVenta(|s.ventas|, LineasConStock(CalcularLineas(s, q).value), q.hoy));
  }

  lemma {:induction false} DevolucionConTraza(s: EstadoVentas, q: PedidoDevolucion)
    requires DevuelveAlgo(s, q)
    ensures PasoVentas(s, VDevolver(q)).inv == Corridas.Correr(s.inv, TrazaVentas(s, VDevolver(q)))
  {
    DevolverTraza(s, q);
    CorrerReingreso(s.inv, |s.reembolsos|, Reingresos(s.inv.variantes, s.ventas[q.venta], q.almacenDefault, q.items), Devolver(s, q).value.inv);
  }

  lemma {:induction false} StockConTraza(s: EstadoVentas, q: Peticion)
    ensures PasoVentas(s, VStock(q)).inv == Corridas.Correr(s.inv, TrazaVentas(s, VStock(q)))
  {
    CorrerUno(s.inv, q);
  }

  lemma {:induction false} PasoTraza(s: EstadoVentas, p: PeticionVentas)
    ensures PasoVentas(s, p).inv == Corridas.Correr(s.inv, TrazaVentas(s, p))
  {
    if p.VVenta? && VendeAlgo(s, p.pedido) {
      VentaConTraza(s, p.pedido);
    } else if p.VDevolver? && DevuelveAlgo(s, p.devolucion) {
      DevolucionConTraza(s, p.devolucion);
    } else if p.VStock? {
      StockConTraza(s, p.peticion);
    } else {
      SinTraza(s, p);
    }
  }

  function StockDe(s: EstadoVentas, ps: seq<PeticionVentas>): seq<Peticion> {
    if |ps| == 0 then []
    else StockDe(s, ps[..|ps| - 1]) + TrazaVentas(CorrerVentas(s, ps[..|ps| - 1]), ps[|ps| - 1])
  }

  lemma {:induction false} CorrerConcat(s: Estado, ps: seq<Peticion>, qs: seq<Peticion>)
    ensures Corridas.Correr(s, ps + qs) == Corridas.Correr(Corridas.Correr(s, ps), qs)
  {
    if |qs| == 0 {
      assert ps + qs == ps;
    } else {
      assert (ps + qs)[..|ps + qs| - 1] == ps + qs[..|qs| - 1];
      CorrerConcat(s, ps, qs[..|qs| - 1]);
    }
  }

  /** The stock under a run of sales is the one a run of stock requests leaves. */
  lemma {:induction false} VentasSobreStock(s: EstadoVentas, ps: seq<PeticionVentas>)
    ensures CorrerVentas(s, ps).inv == Corridas.Correr(s.inv, StockDe(s, ps))
  {
    if |ps| > 0 {
      var previas := ps[..|ps| - 1];
      VentasSobreStock(s, previas);
      PasoTraza(CorrerVentas(s, previas), ps[|ps| - 1]);
      CorrerConcat(s.inv, StockDe(s, previas), TrazaVentas(CorrerVentas(s, previas), ps[|ps| - 1]));
    }
  }

  // ------------------------------------------------------------------ the shop over sales

  /** The request of sales a request of the shop amounts to. */
  function TrazaCaja(n: Caja.Negocio, p: Caja.PeticionCaja): seq<PeticionVentas> {
    match p
    case KVenta(q) => if Caja.CrearVenta(n, q).Ok? then [VVenta(q.pedido)] else []
    case KCompra(q) =>
      if Caja.Recibir(n, q).Ok? then [VStock(PRecepcion(q.clave, q.numero, q.almacen, Caja.Items(q.lineas)))] else []
    case KOtra(q) => if Caja.EsOtra(q) then [q] else []
    case _ => []
  }

  lemma {:induction false} CorrerVentasUno(s: EstadoVentas, p: PeticionVentas)
    ensures CorrerVentas(s, [p]) == PasoVentas(s, p) && CorrerVentas(s, []) == s
  {
    assert [p][..0] == [];
  }

  lemma {:induction false} VentaTraza(n: Caja.Negocio, q: Caja.PedidoCaja)
    requires Caja.CrearVenta(n, q).Ok?
    ensures Caja.CrearVenta(n, q).value.ventas == PasoVentas(n.ventas, VVenta(q.pedido))
  {
  }

  lemma {:induction false} CompraTraza(n: Caja.Negocio, q: Caja.PedidoCompra)
    requires Caja.Recibir(n, q).Ok?
    ensures Caja.Recibir(n, q).value.ventas == PasoVentas(n.ventas, VStock(PRecepcion(q.clave, q.numero, q.almacen, Caja.Items(q.lineas))))
  {
  }

  lemma {:induction false} PasoCajaTraza(n: Caja.Negocio, p: Caja.PeticionCaja)
    ensures Caja.Paso(n, p).ventas == CorrerVentas(n.ventas, TrazaCaja(n, p))
  {
    var t := TrazaCaja(n, p);
    if |t| > 0 {
      CorrerVentasUno(n.ventas, t[0]);
    }
    if p.KVenta? && |t| > 0 {
      VentaTraza(n, p.pedido);
    } else if p.KCompra? && |t| > 0 {
      CompraTraza(n, p.compra);
    }
  }

  function VentasDe(ps: seq<Caja.PeticionCaja>): seq<PeticionVentas> {
    if |ps| == 0 then [] else VentasDe(ps[..|ps| - 1]) + TrazaCaja(Caja.Correr(ps[..|ps| - 1]), ps[|ps| - 1])
  }

  lemma {:induction false} CorrerVentasConcat(s: EstadoVentas, ps: seq<PeticionVentas>, qs: seq<PeticionVentas>)
    ensures CorrerVentas(s, ps + qs) == CorrerVentas(CorrerVentas(s, ps), qs)
  {
    if |qs| == 0 {
      assert ps + qs == ps;
    } else {
      assert (ps + qs)[..|ps + qs| - 1] == ps + qs[..|qs| - 1];
      CorrerVentasConcat(s, ps, qs[..|qs| - 1]);
    }
  }

  /** The sales, refunds, promotions and stock of the shop are the ones a run of sales leaves. */
  lemma {:induction false} TiendaSobreVentas(ps: seq<Caja.PeticionCaja>)
    ensures Caja.Correr(ps).ventas == CorrerVentas(VENTAS_INICIAL, VentasDe(ps))
  {
    if |ps| > 0 {
      var previas := ps[..|ps| - 1];
      TiendaSobreVentas(previas);
      PasoCajaTraza(Caja.Correr(previas), ps[|ps| - 1]);
      CorrerVentasConcat(VENTAS_INICIAL, VentasDe(previas), TrazaCaja(Caja.Correr(previas), ps[|ps| - 1]));
    }
  }

  function StockDeTienda(ps: seq<Caja.PeticionCaja>): seq<Peticion> {
    StockDe(VENTAS_INICIAL, VentasDe(ps))
  }

  // ------------------------------------------------------------------ what the shop keeps

  /** After any run of the shop: the ledger adds up to the balance of every cell, what is set aside and on
      its way is what open reservations and transfers say, and stock that may not be negative is not. */
  lemma {:induction false} SaldosDeTienda(ps: seq<Caja.PeticionCaja>, c: Celda)
    ensures var s := Caja.Correr(ps).ventas.inv;
      && Suma(s.kardex.ledger, CantidadEn(c)) == Fila(s.kardex, c).enStock
      && Fila(s.kardex, c).available == Fila(s.kardex, c).enStock - Fila(s.kardex, c).reserved
      && Fila(s.kardex, c).reserved == Suma(s.reservas, PendienteEn(c)) >= 0.0
      && Fila(s.kardex, c).enTransito == Suma(s.transferencias, EnCamino(c)) >= 0.0
      && (ProhibeNegativo(s.variantes, c) ==> Fila(s.kardex, c).enStock >= 0.0)
  {
    TiendaSobreVentas(ps);
    VentasSobreStock(VENTAS_INICIAL, VentasDe(ps));
    SaldosSiempreCuadran(StockDeTienda(ps), c);
  }

  /** After any run of the shop the average of every cell is the replay of its ledger, and stock times
      average is the cost the ledger records plus what leaked entry by entry. Where negative stock is
      forbidden the average is not below zero, and only cancelled transfers leak. */
  lemma {:induction false} ValorDeTienda(ps: seq<Caja.PeticionCaja>, c: Celda)
    ensures var s := Caja.Correr(ps).ventas.inv;
      var valor, registrado := Valor(Fila(s.kardex, c).enStock, Fila(s.kardex, c).costoPromedio), Suma(s.kardex.ledger, CostoEn(c));
      && Fila(s.kardex, c).costoPromedio == Historial.Promedio(s.kardex.ledger, c)
      && valor == registrado + Historial.Fugas(s.kardex.ledger, c)
      && (ProhibeNegativo(s.variantes, c) ==>
            && Fila(s.kardex, c).costoPromedio >= 0.0
            && valor == registrado + Saltos(INICIAL, StockDeTienda(ps), c))
  {
    var qs := StockDeTienda(ps);
    TiendaSobreVentas(ps);
    VentasSobreStock(VENTAS_INICIAL, VentasDe(ps));
    Historial.SaldoEsHistoria(qs, c);
    Promedios.PromedioNuncaNegativo(qs, c);
    if ProhibeNegativo(Corridas.Correr(INICIAL, qs).variantes, c) {
      ValorizadoExacto(qs, c);
    }
  }

  /** After any run of the shop: promotions count exactly the sales that used them, the parts of every line
      add up to its total, and every lot holds what was received into it less what was sold from it. */
  lemma {:induction false} VentasDeTienda(ps: seq<Caja.PeticionCaja>, l: nat)
    ensures var s := Caja.Correr(ps).ventas;
      && (forall id :: 0 <= id < |s.promociones| ==> s.promociones[id].usoActual == Usos(s.ventas, id))
      && ImportesCuadran(s)
      && (l < |s.inv.lotes| ==>
            Suma(s.inv.recibidos, Existencias.RecibidoEn(s.inv.lotes[l].celda, s.inv.lotes[l].numero))
              == s.inv.lotes[l].cantidad - Suma(s.inv.kardex.ledger, CantidadDeLote(l)))
  {
    TiendaSobreVentas(ps);
    VentasSobreStock(VENTAS_INICIAL, VentasDe(ps));
    UsosSiempreExactos(VentasDe(ps));
    ImportesSiempreCuadran(VentasDe(ps));
    LotesSiempreCuadran(StockDeTienda(ps), l);
  }
}
