/** The shop's records against the requests that made them: every sale and every receipt on record is of a
    request of the run, at what that request comes to, with its account; and the states of the accounts. */
module Libros {
  import opened Comun
  import opened Sumas
  import opened Kardex
  import opened Inventario
  import opened Ventas
  import opened VentasInvariante
  import opened VentasCorridas
  import opened Numeracion
  import opened Caja
  import Promociones
  import Importes
  import Cobranza
  import Cuentas
  import Trazas

  // ------------------------------------------------------------------ receipts

  /** A line of a receipt is worth its quantity at its cost, and its tax. */
  function ImporteCompra(): LineaCompra -> real {
    (l: LineaCompra) => l.item.cantidad * l.item.costoUnitario + l.montoImpuesto.GetOr(0.0)
  }

  lemma {:induction false} CompraSuma(p: PedidoCompra)
    ensures CompraDe(p).total == Suma(p.lineas, ImporteCompra()) && CompraDe(p).aCredito == p.aCredito
  {
    SumaMasMenos(p.lineas, ImporteCompra(), Bruto(), ImpuestoCompra());
  }

  /** Receipt i is the one request m of the run asked for. */
  predicate CompraDelPedido(ps: seq<PeticionCaja>, m: nat, i: nat, c: Compra) {
    m < |ps| && RecibeAlgo(Correr(ps[..m]), ps[m]) && |Correr(ps[..m]).compras| == i
      && c.total == Suma(ps[m].compra.lineas, ImporteCompra()) && c.aCredito == ps[m].compra.aCredito
  }

  lemma {:induction false} ReciboNuevo(n: Negocio, p: PeticionCaja)
    requires RecibeAlgo(n, p)
    ensures Paso(n, p).compras == n.compras + [CompraDe(p.compra)]
  {
  }

  lemma {:induction false} CompraSigue(ps: seq<PeticionCaja>, m: nat, i: nat, c: Compra)
    requires |ps| > 0 && CompraDelPedido(ps[..|ps| - 1], m, i, c)
    ensures CompraDelPedido(ps, m, i, c)
  {
    assert ps[..|ps| - 1][..m] == ps[..m];
  }

  /** After any run every receipt on record is of a request of the run, for what its lines come to. */
  lemma {:induction false} CompraPedida(ps: seq<PeticionCaja>, i: nat) returns (m: nat)
    requires i < |Correr(ps).compras|
    ensures CompraDelPedido(ps, m, i, Correr(ps).compras[i])
  {
    var n := |ps| - 1;
    var antes := Correr(ps[..n]);
    if RecibeAlgo(antes, ps[n]) {
      ReciboNuevo(antes, ps[n]);
    } else {
      MarcoCompras(antes, ps[n]);
    }
    if i < |antes.compras| {
      m := CompraPedida(ps[..n], i);
      CompraSigue(ps, m, i, antes.compras[i]);
    } else {
      m := n;
      CompraSuma(ps[n].compra);
    }
  }

  /** Account k of a book is the one of document i, opened for this amount; and no other is. */
  predicate CuentaUnica(d: Deudas, i: nat, k: nat, monto: real) {
    && k < |d.origenes| == |d.libro.cuentas| && d.origenes[k] == i && d.libro.cuentas[k].montoOriginal == monto
    && forall j :: 0 <= j < |d.origenes| && d.origenes[j] == i ==> j == k
  }

  /** Document i has one account, for this amount, if it owes; and none if it does not. */
  ghost predicate CuentaSegun(d: Deudas, i: nat, debe: bool, monto: real) {
    if debe then exists k :: CuentaUnica(d, i, k, monto) else i !in d.origenes
  }

  lemma {:induction false} CuentaDe(d: Deudas, i: nat, debe: Option<real>)
    requires ConSuCuenta(d, i, debe)
    ensures CuentaSegun(d, i, debe.Some?, debe.GetOr(0.0))
  {
    if debe.Some? {
      var k :| 0 <= k < |d.origenes| && d.origenes[k] == i;
      assert forall j :: 0 <= j < |d.origenes| && d.origenes[j] == i ==> j == k;
      assert CuentaUnica(d, i, k, debe.value);
    }
  }

  /** After any run a receipt on credit has exactly one payable, for its lines at their cost and their
      taxes; a receipt paid at once has none. */
  lemma {:induction false} CompraConSuCuenta(ps: seq<PeticionCaja>, i: nat) returns (m: nat)
    requires i < |Correr(ps).compras|
    ensures CompraDelPedido(ps, m, i, Correr(ps).compras[i])
    ensures CuentaSegun(Correr(ps).porPagar, i, ps[m].compra.aCredito, Suma(ps[m].compra.lineas, ImporteCompra()))
  {
    m := CompraPedida(ps, i);
    CadaCompraSuCuenta(ps, i);
    CuentaDe(Correr(ps).porPagar, i, DebeCompra(Correr(ps).compras[i]));
  }

  // ------------------------------------------------------------------ sales

  /** Sale i is the one request m of the run asked for: its lines, its sums and what its header says. */
  ghost predicate VentaDelPedido(ps: seq<PeticionCaja>, m: nat, i: nat, v: Venta, c: Cabecera) {
    && m < |ps| && VendeAlgo(Correr(ps[..m]), ps[m]) && |Correr(ps[..m]).ventas.ventas| == i
    && Importes.ComoSePidio(Correr(ps[..m]).ventas, ps[m].pedido.pedido, v)
    && c.conCliente == ps[m].pedido.conCliente && c.serie == ps[m].pedido.serie
    && c.empresa == ps[m].pedido.empresa && c.sucursal == ps[m].pedido.sucursal
  }

  lemma {:induction false} VentaNueva(n: Negocio, p: PeticionCaja)
    requires VendeAlgo(n, p) && |n.talonario.cabeceras| == |n.ventas.ventas|
    ensures var n', i := Paso(n, p), |n.ventas.ventas|;
      && |n'.ventas.ventas| == i + 1 && |n'.talonario.cabeceras| == i + 1
      && n'.ventas.ventas[..i] == n.ventas.ventas && n'.talonario.cabeceras[..i] == n.talonario.cabeceras
      && Importes.ComoSePidio(n.ventas, p.pedido.pedido, n'.ventas.ventas[i])
      && n'.talonario.cabeceras[i].conCliente == p.pedido.conCliente && n'.talonario.cabeceras[i].serie == p.pedido.serie
      && n'.talonario.cabeceras[i].empresa == p.pedido.empresa && n'.talonario.cabeceras[i].sucursal == p.pedido.sucursal
  {
    VentaEscribe(n, p.pedido);
    Importes.CrearComoSePidio(n.ventas, p.pedido.pedido);
  }

  /** Requests that sell nothing change no sale but its state. */
  lemma {:induction false} VentasQuedan(n: Negocio, p: PeticionCaja)
    requires !VendeAlgo(n, p)
    ensures var n' := Paso(n, p);
      Importes.SoloCambiaEstado(n.ventas, n'.ventas) && |n'.ventas.ventas| == |n.ventas.ventas| && n'.talonario.cabeceras == n.talonario.cabeceras
  {
    Marco(n, p);
    Trazas.PasoCajaTraza(n, p);
    Importes.CorrerSoloEstado(n.ventas, Trazas.TrazaCaja(n, p));
  }

  lemma {:induction false} ComoSePidioSigue(s: EstadoVentas, p: PedidoVenta, v: Venta, estado: EstadoVenta)
    requires Importes.ComoSePidio(s, p, v)
    ensures Importes.ComoSePidio(s, p, v.(estado := estado))
  {
    var v' := v.(estado := estado);
    forall l | 0 <= l < |p.lineas|
      ensures Importes.LineaJusta(s.inv.variantes, p.lineas[l], v'.lineas[l], p.almacenDefault,
                                  CargarVigentes(s.promociones, p.promocionIds, p.activas), Suma(p.lineas, Importes.BrutoPedido())) {
      assert v'.lineas[l] == v.lineas[l];
    }
  }

  lemma {:induction false} VentaSigue(ps: seq<PeticionCaja>, m: nat, i: nat, v: Venta, c: Cabecera, estado: EstadoVenta)
    requires |ps| > 0 && VentaDelPedido(ps[..|ps| - 1], m, i, v, c)
    ensures VentaDelPedido(ps, m, i, v.(estado := estado), c)
  {
    assert ps[..|ps| - 1][..m] == ps[..m];
    ComoSePidioSigue(Correr(ps[..m]).ventas, ps[m].pedido.pedido, v, estado);
  }

  /** After any run every sale on record is of a request of the run: each line at the price, discount and
      taxes it was asked for at, whatever happened to it later. */
  lemma {:induction false} VentaPedida(ps: seq<PeticionCaja>, i: nat) returns (m: nat)
    requires i < |Correr(ps).ventas.ventas|
    ensures i < |Correr(ps).talonario.cabeceras| && VentaDelPedido(ps, m, i, Correr(ps).ventas.ventas[i], Correr(ps).talonario.cabeceras[i])
  {
    var n := |ps| - 1;
    var antes := Correr(ps[..n]);
    CorrerCuentas(ps[..n]);
    if VendeAlgo(antes, ps[n]) {
      VentaNueva(antes, ps[n]);
    } else {
      VentasQuedan(antes, ps[n]);
    }
    if i < |antes.ventas.ventas| {
      m := VentaPedida(ps[..n], i);
      VentaSigue(ps, m, i, antes.ventas.ventas[i], antes.talonario.cabeceras[i], Correr(ps).ventas.ventas[i].estado);
    } else {
      m := n;
    }
  }

  lemma {:induction false} CuentaDeVenta(ps: seq<PeticionCaja>, i: nat)
    requires i < |Correr(ps).ventas.ventas| && i < |Correr(ps).talonario.cabeceras|
    ensures var n := Correr(ps);
      var v := n.ventas.ventas[i];
      CuentaSegun(n.porCobrar, i, n.talonario.cabeceras[i].conCliente && v.total > v.totalPagado, v.total - v.totalPagado)
  {
    CadaVentaSuCuenta(ps, i);
    CuentaDe(Correr(ps).porCobrar, i, DebeVenta(Correr(ps).ventas.ventas[i], Correr(ps).talonario.cabeceras[i]));
  }

  /** After any run a sale whose request names a client and does not pay it in full has exactly one
      receivable, for the rest; any other sale has none. */
  lemma {:induction false} VentaConSuCuenta(ps: seq<PeticionCaja>, i: nat) returns (m: nat)
    requires i < |Correr(ps).ventas.ventas|
    ensures i < |Correr(ps).talonario.cabeceras| && VentaDelPedido(ps, m, i, Correr(ps).ventas.ventas[i], Correr(ps).talonario.cabeceras[i])
    ensures var v := Correr(ps).ventas.ventas[i];
      CuentaSegun(Correr(ps).porCobrar, i, Correr(ps).talonario.cabeceras[i].conCliente && v.total > v.totalPagado, v.total - v.totalPagado)
  {
    m := VentaPedida(ps, i);
    CuentaDeVenta(ps, i);
  }

  /** A new sale commits exactly when the checks of cashier, branch, register and client pass, its series gives
      it a number, and its lines, stock and promotions commit: no part goes without the others. */
  lemma {:induction false} CrearVentaSii(n: Negocio, p: PedidoCaja)
    requires !VentaConClave(n.ventas.ventas, p.pedido.clave)
    ensures CrearVenta(n, p).Ok? <==>
      p.rechazo.None? && Crear(n.ventas, p.pedido).Ok? && NumerarVenta(n.talonario, p.serie, p.empresa, p.sucursal, p.conCliente).Ok?
  {
  }

  // ------------------------------------------------------------------ the states of the accounts

  ghost predicate LibrosDicen(n: Negocio) {
    Cobranza.EstadosBien(n.porCobrar.libro) && Cobranza.EstadosBien(n.porPagar.libro)
  }

  lemma {:induction false} AnotarDice(d: Deudas, documento: nat, debe: Option<real>)
    requires Cuentas.LibroBien(d.libro) && Cobranza.EstadosBien(d.libro)
    ensures Cobranza.EstadosBien(Anotar(d, documento, debe).libro)
  {
    if debe.Some? {
      Cobranza.AbrirEstados(d.libro, debe.value);
    }
  }

  lemma {:induction false} CobrarDice(n: Negocio, p: PeticionCaja)
    requires CobrarBien(n) && Cobranza.EstadosBien(n.porCobrar.libro)
    ensures Cobranza.EstadosBien(Paso(n, p).porCobrar.libro)
  {
    if VendeAlgo(n, p) {
      VentaEscribe(n, p.pedido);
      var v := VentaDe(p.pedido.pedido, CalcularLineas(n.ventas, p.pedido.pedido).value);
      var c := CabeceraDe(n.talonario, p.pedido.serie, p.pedido.empresa, p.pedido.sucursal, p.pedido.conCliente);
      AnotarDice(n.porCobrar, |n.ventas.ventas|, DebeVenta(v, c));
    } else if !p.KCobro? {
      Marco(n, p);
    } else if Cuentas.RegistrarPago(n.porCobrar.libro, p.clave, p.monto, p.lineas).Ok? {
      Cobranza.CobrarEstados(n.porCobrar.libro, p.clave, p.monto, p.lineas);
    }
  }

  lemma {:induction false} PagarDice(n: Negocio, p: PeticionCaja)
    requires PagarBien(n) && Cobranza.EstadosBien(n.porPagar.libro)
    ensures Cobranza.EstadosBien(Paso(n, p).porPagar.libro)
  {
    if RecibeAlgo(n, p) {
      AnotarDice(n.porPagar, |n.compras|, DebeCompra(CompraDe(p.compra)));
    } else if !p.KPago? {
      MarcoCompras(n, p);
    } else if Cuentas.RegistrarPago(n.porPagar.libro, p.clave, p.monto, p.lineas).Ok? {
      Cobranza.CobrarEstados(n.porPagar.libro, p.clave, p.monto, p.lineas);
    }
  }

  lemma {:induction false} CorrerDice(ps: seq<PeticionCaja>)
    ensures LibrosDicen(Correr(ps))
  {
    if |ps| > 0 {
      var n, p := Correr(ps[..|ps| - 1]), ps[|ps| - 1];
      CorrerDice(ps[..|ps| - 1]);
      CorrerCuentas(ps[..|ps| - 1]);
      CobrarDice(n, p);
      PagarDice(n, p);
    }
  }

  /** What the state of account i of a book says. */
  ghost predicate EstadoDice(s: Cuentas.Libro, i: nat)
    requires i < |s.cuentas|
  {
    var cobrado := Suma(s.asignaciones, Cuentas.ACuenta(s.cuotas, i));
    && s.cuentas[i].montoPendiente == s.cuentas[i].montoOriginal - cobrado
    && (s.cuentas[i].estado == Cuentas.PENDIENTE <==> !Cobranza.CuentaTocada(s, i))
    && (Cobranza.CuentaTocada(s, i) ==> (s.cuentas[i].estado == Cuentas.PAGADA <==> cobrado >= s.cuentas[i].montoOriginal))
  }

  /** After any run of the shop, receivable or payable: an account is PENDIENTE exactly when nothing was ever
      allocated to it, and otherwise PAGADA exactly when what was allocated covers it. */
  lemma {:induction false} EstadosDeTienda(ps: seq<PeticionCaja>, i: nat)
    ensures var n := Correr(ps);
      && (i < |n.porCobrar.libro.cuentas| ==> EstadoDice(n.porCobrar.libro, i))
      && (i < |n.porPagar.libro.cuentas| ==> EstadoDice(n.porPagar.libro, i))
  {
    CorrerDice(ps);
    CorrerCuentas(ps);
    var n := Correr(ps);
    if i < |n.porCobrar.libro.cuentas| {
      assert Cuentas.CuentaBien(n.porCobrar.libro, i) && Cuentas.SaldoAlDia(n.porCobrar.libro, i);
    }
    if i < |n.porPagar.libro.cuentas| {
      assert Cuentas.CuentaBien(n.porPagar.libro, i) && Cuentas.SaldoAlDia(n.porPagar.libro, i);
    }
  }
}
