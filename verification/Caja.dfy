/** The whole shop: sales with their number, payments and account, receipts with theirs, the fiscal
    documents that draw numbers from the same series, and the gateway charges that pay sales. Each request
    is one transaction. */
module Caja {
  import opened Comun
  import opened Sumas
  import opened Inventario
  import opened Invariante
  import opened Corridas
  import opened Identidades
  import opened Ventas
  import opened VentasInvariante
  import opened VentasCorridas
  import opened Numeracion
  import opened Emision
  import opened Pagos
  import Cuentas
  import Fiscal

  type Libro = Cuentas.Libro

  /** The rest of a PurchaseReceipt row. */
  datatype Compra = Compra(total: real, aCredito: bool)

  /** Accounts and what settles them, and the document each account comes from. */
  datatype Deudas = Deudas(libro: Libro, origenes: seq<nat>)

  /** Receipts are kept in the order of their table, so a position is an id. */
  datatype Negocio = Negocio(
    ventas: EstadoVentas, talonario: Talonario, cobros: Cobros, compras: seq<Compra>, porCobrar: Deudas, porPagar: Deudas)

  const SIN_DEUDAS: Deudas := Deudas(Cuentas.LIBRO_VACIO, [])
  const NEGOCIO_INICIAL: Negocio := Negocio(VENTAS_INICIAL, SIN_SERIES, SIN_COBROS, [], SIN_DEUDAS, SIN_DEUDAS)

  /** `rechazo` is what the checks of cashier, company, branch, register and client answer, if anything. */
  datatype PedidoCaja = PedidoCaja(
    pedido: PedidoVenta, serie: SerieId, empresa: EmpresaId, sucursal: SucursalId, conCliente: bool, rechazo: Option<Error>)

  datatype LineaCompra = LineaCompra(item: ItemCompra, montoImpuesto: Option<real>)
  datatype PedidoCompra = PedidoCompra(clave: string, numero: string, almacen: nat, lineas: seq<LineaCompra>, aCredito: bool)

  // ------------------------------------------------------------------ the two transactions

  /** What a document leaves owing, if anything. */
  function Anotar(d: Deudas, documento: nat, debe: Option<real>): Deudas {
    match debe
    case None => d
    case Some(monto) => Deudas(Cuentas.AbrirCuenta(d.libro, monto), d.origenes + [documento])
  }

  /** A client owes the unpaid rest of a sale. */
  function DebeVenta(v: Venta, c: Cabecera): Option<real> {
    if c.conCliente && v.total - v.totalPagado > 0.0 then Some(v.total - v.totalPagado) else None
  }

  function DebeCompra(c: Compra): Option<real> {
    if c.aCredito then Some(c.total) else None
  }

  /** The last sale of the table is on record: its number, its payments and its account. */
  function ConVenta(n: Negocio, s: EstadoVentas, t: Talonario, v: Venta, montos: seq<real>): Negocio
    requires |t.cabeceras| > 0
  {
    var venta := |n.ventas.ventas|;
    n.(ventas := s,
       talonario := t,
       cobros := n.cobros.(pagos := n.cobros.pagos + PagosDe(venta, montos)),
       porCobrar := Anotar(n.porCobrar, venta, DebeVenta(v, t.cabeceras[|t.cabeceras| - 1])))
  }

  function CrearVenta(n: Negocio, p: PedidoCaja): Resultado<Negocio> {
    if !PedidoValido(p.pedido) then Err(Invalido)
    else if VentaConClave(n.ventas.ventas, p.pedido.clave) then Ok(n)
    else if p.rechazo.Some? then Err(p.rechazo.value)
    else
      var lineas :- CalcularLineas(n.ventas, p.pedido);
      var t :- NumerarVenta(n.talonario, p.serie, p.empresa, p.sucursal, p.conCliente);
      var s :- Crear(n.ventas, p.pedido);
      Ok(ConVenta(n, s, t, VentaDe(p.pedido, lineas), p.pedido.pagos))
  }

  function Items(ls: seq<LineaCompra>): (r: seq<ItemCompra>)
    ensures |r| == |ls| && forall i :: 0 <= i < |r| ==> r[i] == ls[i].item
  {
    if |ls| == 0 then [] else Items(ls[..|ls| - 1]) + [ls[|ls| - 1].item]
  }

  function Bruto(): LineaCompra -> real {
    (l: LineaCompra) => l.item.cantidad * l.item.costoUnitario
  }

  function ImpuestoCompra(): LineaCompra -> real {
    (l: LineaCompra) => l.montoImpuesto.GetOr(0.0)
  }

  function CompraDe(p: PedidoCompra): Compra {
    Compra(Suma(p.lineas, Bruto()) + Suma(p.lineas, ImpuestoCompra()), p.aCredito)
  }

  function ConCompra(n: Negocio, inv: Estado, c: Compra): Negocio {
    n.(ventas := n.ventas.(inv := inv), compras := n.compras + [c], porPagar := Anotar(n.porPagar, |n.compras|, DebeCompra(c)))
  }

  function Recibir(n: Negocio, p: PedidoCompra): Resultado<Negocio> {
    var inv :- Recepcionar(n.ventas.inv, p.clave, p.numero, p.almacen, Items(p.lineas));
    if RecepcionConClave(n.ventas.inv.recepciones, p.clave) then Ok(n)
    else Ok(ConCompra(n, inv, CompraDe(p)))
  }

  /** Sales and receipts come whole; stock, refunds and promotions as they were. */
  datatype PeticionCaja =
    | KVenta(pedido: PedidoCaja)
    | KCompra(compra: PedidoCompra)
    | KOtra(peticion: PeticionVentas)
    | KCobro(clave: string, monto: real, lineas: seq<Cuentas.Linea>)
    | KPago(clave: string, monto: real, lineas: seq<Cuentas.Linea>)
    | KSerie(serie: SerieId, empresa: EmpresaId, tipo: TipoDocumento, texto: string, primero: nat)
    | KEstadoSerie(serie: SerieId, activar: bool)
    | KEmitir(venta: nat, forzado: Option<TipoDocumento>, conRuc: bool, serie: SerieId)
    | KNota(origen: nat, serie: SerieId)
    | KEstadoDocumento(documento: nat, estado: Fiscal.EstadoDoc)
    | KCargo(cargo: Intento, capturada: bool)
    | KAviso(intento: nat, capturada: bool)

  predicate EsOtra(p: PeticionVentas) {
    !p.VVenta? && !(p.VStock? && p.peticion.PRecepcion?)
  }

  function Saldar(d: Deudas, clave: string, monto: real, lineas: seq<Cuentas.Linea>): Resultado<Deudas> {
    var libro :- Cuentas.RegistrarPago(d.libro, clave, monto, lineas);
    Ok(d.(libro := libro))
  }

  /** The requests that only write series and documents. */
  predicate EsDeTalonario(p: PeticionCaja) {
    p.KSerie? || p.KEstadoSerie? || p.KEmitir? || p.KNota? || p.KEstadoDocumento?
  }

  function EstaAnulada(ventas: seq<Venta>, i: nat): bool {
    i < |ventas| && ventas[i].estado == ANULADA
  }

  function AtenderTalonario(t: Talonario, ventas: seq<Venta>, p: PeticionCaja): Resultado<Talonario>
    requires EsDeTalonario(p)
  {
    match p
    case KSerie(id, empresa, tipo, texto, primero) => CrearSerie(t, id, empresa, tipo, texto, primero)
    case KEstadoSerie(id, activar) => CambiarEstado(t, id, activar)
    case KEmitir(venta, forzado, conRuc, id) => Emitir(t, venta, EstaAnulada(ventas, venta), forzado, conRuc, id)
    case KNota(origen, id) => EmitirNota(t, origen, id)
    case KEstadoDocumento(d, estado) => CambiarDocumento(t, d, estado)
  }

  function Atender(n: Negocio, p: PeticionCaja): Resultado<Negocio> {
    match p
    case KVenta(q) => CrearVenta(n, q)
    case KCompra(q) => Recibir(n, q)
    case KOtra(q) => if EsOtra(q) then Ok(n.(ventas := PasoVentas(n.ventas, q))) else Err(Invalido)
    case KCobro(clave, monto, lineas) =>
      var d :- Saldar(n.porCobrar, clave, monto, lineas);
      Ok(n.(porCobrar := d))
    case KPago(clave, monto, lineas) =>
      var d :- Saldar(n.porPagar, clave, monto, lineas);
      Ok(n.(porPagar := d))
    case KCargo(i, capturada) => Ok(n.(cobros := CrearIntento(n.cobros, |n.ventas.ventas|, i, capturada)))
    case KAviso(i, capturada) => Ok(n.(cobros := Notificar(n.cobros, |n.ventas.ventas|, i, capturada)))
    case _ =>
      var t :- AtenderTalonario(n.talonario, n.ventas.ventas, p);
      Ok(n.(talonario := t))
  }

  /** A refused request rolls back. */
  function Paso(n: Negocio, p: PeticionCaja): Negocio {
    Atender(n, p).GetOr(n)
  }

  function Correr(ps: seq<PeticionCaja>): Negocio {
    if |ps| == 0 then NEGOCIO_INICIAL else Paso(Correr(ps[..|ps| - 1]), ps[|ps| - 1])
  }

  // ------------------------------------------------------------------ accounts and their documents

  /** The documents that leave something owing, in order. */
  function Origenes(debe: seq<Option<real>>): seq<nat> {
    if |debe| == 0 then []
    else Origenes(debe[..|debe| - 1]) + (if debe[|debe| - 1].Some? then [|debe| - 1] else [])
  }

  /** One account for each document that leaves something owing, for exactly that, in order. */
  ghost predicate DeudasBien(d: Deudas, debe: seq<Option<real>>) {
    && Cuentas.LibroBien(d.libro)
    && |d.libro.cuentas| == |d.origenes| && d.origenes == Origenes(debe)
    && forall k :: 0 <= k < |d.origenes| ==>
         d.origenes[k] < |debe| && debe[d.origenes[k]] == Some(d.libro.cuentas[k].montoOriginal)
  }

  lemma {:induction false} AnotarMantiene(d: Deudas, debe: seq<Option<real>>, x: Option<real>)
    requires DeudasBien(d, debe)
    ensures DeudasBien(Anotar(d, |debe|, x), debe + [x])
  {
    assert (debe + [x])[..|debe|] == debe;
    if x.Some? {
      Cuentas.AbrirCuentaMantiene(d.libro, x.value);
    }
  }

  lemma {:induction false} SaldarMantiene(d: Deudas, debe: seq<Option<real>>, clave: string, monto: real, lineas: seq<Cuentas.Linea>)
    requires DeudasBien(d, debe) && Saldar(d, clave, monto, lineas).Ok?
    ensures DeudasBien(Saldar(d, clave, monto, lineas).value, debe)
  {
    Cuentas.RegistrarPagoMantiene(d.libro, clave, monto, lineas);
    Cuentas.PagoConservaCuentas(d.libro, clave, monto, lineas);
  }

  /** The documents listed are those that owe, each once. */
  lemma {:induction false} OrigenesExactos(debe: seq<Option<real>>)
    ensures forall i: nat :: i in Origenes(debe) <==> i < |debe| && debe[i].Some?
    ensures forall j, k :: 0 <= j < k < |Origenes(debe)| ==> Origenes(debe)[j] < Origenes(debe)[k]
  {
    if |debe| > 0 {
      var n, previos := |debe| - 1, Origenes(debe[..|debe| - 1]);
      OrigenesExactos(debe[..n]);
      forall k | 0 <= k < |previos| ensures previos[k] < n {
        assert previos[k] in previos;
      }
      if debe[n].Some? {
        assert Origenes(debe) == previos + [n];
      } else {
        assert Origenes(debe) == previos;
      }
    }
  }

  function DebenVentas(ventas: seq<Venta>, cs: seq<Cabecera>): (r: seq<Option<real>>)
    requires |ventas| == |cs|
    ensures |r| == |ventas| && forall i :: 0 <= i < |r| ==> r[i] == DebeVenta(ventas[i], cs[i])
  {
    if |ventas| == 0 then []
    else
      var n := |ventas| - 1;
      DebenVentas(ventas[..n], cs[..n]) + [DebeVenta(ventas[n], cs[n])]
  }

  function DebenCompras(cs: seq<Compra>): (r: seq<Option<real>>)
    ensures |r| == |cs| && forall i :: 0 <= i < |r| ==> r[i] == DebeCompra(cs[i])
  {
    if |cs| == 0 then [] else DebenCompras(cs[..|cs| - 1]) + [DebeCompra(cs[|cs| - 1])]
  }

  // ------------------------------------------------------------------ the invariant

  /** Sales and stock are right; every sale has its number and its payments, with no number lost and no
      charge counted twice; every receipt is on record; and exactly the documents that leave something
      owing have an account, for exactly that. */
  ghost predicate NegocioBien(n: Negocio) {
    VentasBien(n.ventas) && TalonarioBien(n.talonario) && CobrosBien(n.ventas.ventas, n.cobros) && CobrarBien(n) && PagarBien(n)
  }

  lemma {:induction false} CrearAgrega(s: EstadoVentas, p: PedidoVenta)
    requires Crear(s, p).Ok? && !VentaConClave(s.ventas, p.clave)
    ensures CalcularLineas(s, p).Ok?
    ensures Crear(s, p).value.ventas == s.ventas + [VentaDe(p, CalcularLineas(s, p).value)]
    ensures Crear(s, p).value.inv.recepciones == s.inv.recepciones
  {
  }

  /** What a new sale leaves in each table. */
  lemma {:induction false} VentaEscribe(n: Negocio, p: PedidoCaja)
    requires CrearVenta(n, p).Ok? && !VentaConClave(n.ventas.ventas, p.pedido.clave)
    ensures CalcularLineas(n.ventas, p.pedido).Ok? && Crear(n.ventas, p.pedido).Ok?
    ensures NumerarVenta(n.talonario, p.serie, p.empresa, p.sucursal, p.conCliente).Ok?
    ensures var n', v := CrearVenta(n, p).value, VentaDe(p.pedido, CalcularLineas(n.ventas, p.pedido).value);
      var c := CabeceraDe(n.talonario, p.serie, p.empresa, p.sucursal, p.conCliente);
      && n'.ventas == Crear(n.ventas, p.pedido).value && n'.ventas.ventas == n.ventas.ventas + [v]
      && n'.talonario == NumerarVenta(n.talonario, p.serie, p.empresa, p.sucursal, p.conCliente).value
      && n'.talonario.cabeceras == n.talonario.cabeceras + [c]
      && n'.cobros == n.cobros.(pagos := n.cobros.pagos + PagosDe(|n.ventas.ventas|, p.pedido.pagos))
      && v.totalPagado == Suma(p.pedido.pagos, Pago())
      && n'.porCobrar == Anotar(n.porCobrar, |n.ventas.ventas|, DebeVenta(v, c))
      && n'.compras == n.compras && n'.porPagar == n.porPagar && n'.ventas.inv.recepciones == n.ventas.inv.recepciones
  {
    CrearAgrega(n.ventas, p.pedido);
  }

  /** Nothing but a sale adds a sale or changes what one is worth or was paid. */
  lemma {:induction false} OtraConserva(s: EstadoVentas, p: PeticionVentas)
    requires EsOtra(p)
    ensures var s' := PasoVentas(s, p);
      && |s'.ventas| == |s.ventas| && |s'.inv.recepciones| == |s.inv.recepciones|
      && forall i :: 0 <= i < |s.ventas| ==> s'.ventas[i].total == s.ventas[i].total && s'.ventas[i].totalPagado == s.ventas[i].totalPagado
  {
    if p.VStock? {
      PasoRecepciones(s.inv, p.peticion);
    }
  }

  // ------------------------------------------------------------------ each table over one request

  lemma {:induction false} TalonarioMantiene(t: Talonario, ventas: seq<Venta>, p: PeticionCaja)
    requires TalonarioBien(t) && EsDeTalonario(p) && AtenderTalonario(t, ventas, p).Ok?
    ensures TalonarioBien(AtenderTalonario(t, ventas, p).value)
  {
    match p
    case KSerie(id, empresa, tipo, texto, primero) => CrearSerieMantiene(t, id, empresa, tipo, texto, primero);
    case KEstadoSerie(id, activar) => CambiarEstadoMantiene(t, id, activar);
    case KEmitir(venta, forzado, conRuc, id) => EmitirMantiene(t, venta, EstaAnulada(ventas, venta), forzado, conRuc, id);
    case KNota(origen, id) => EmitirNotaMantiene(t, origen, id);
    case KEstadoDocumento(d, estado) => CambiarDocumentoMantiene(t, d, estado);
  }

  predicate VendeAlgo(n: Negocio, p: PeticionCaja) {
    p.KVenta? && CrearVenta(n, p.pedido).Ok? && !VentaConClave(n.ventas.ventas, p.pedido.pedido.clave)
  }

  predicate RecibeAlgo(n: Negocio, p: PeticionCaja) {
    p.KCompra? && Recibir(n, p.compra).Ok? && !RecepcionConClave(n.ventas.inv.recepciones, p.compra.clave)
  }

  /** The sales are the same ones, worth and paid the same. */
  ghost predicate MismasVentas(ventas: seq<Venta>, ventas': seq<Venta>) {
    && |ventas'| == |ventas|
    && forall i :: 0 <= i < |ventas| ==> ventas'[i].total == ventas[i].total && ventas'[i].totalPagado == ventas[i].totalPagado
  }

  /** What a request that sells nothing cannot have changed. */
  lemma {:induction false} Marco(n: Negocio, p: PeticionCaja)
    requires !VendeAlgo(n, p)
    ensures var n' := Paso(n, p);
      && n'.talonario.cabeceras == n.talonario.cabeceras && MismasVentas(n.ventas.ventas, n'.ventas.ventas)
      && (!p.KCobro? ==> n'.porCobrar == n.porCobrar)
  {
    if p.KOtra? && EsOtra(p.peticion) {
      OtraConserva(n.ventas, p.peticion);
    } else if EsDeTalonario(p) {
      TalonarioConserva(n.talonario, n.ventas.ventas, p);
    }
  }

  /** What a request that receives nothing cannot have changed. */
  lemma {:induction false} MarcoCompras(n: Negocio, p: PeticionCaja)
    requires !RecibeAlgo(n, p)
    ensures var n' := Paso(n, p);
      && n'.compras == n.compras && |n'.ventas.inv.recepciones| == |n.ventas.inv.recepciones|
      && (!p.KPago? ==> n'.porPagar == n.porPagar)
  {
    if p.KOtra? && EsOtra(p.peticion) {
      OtraConserva(n.ventas, p.peticion);
    } else if VendeAlgo(n, p) {
      VentaEscribe(n, p.pedido);
    }
  }

  lemma {:induction false} TalonarioConserva(t: Talonario, ventas: seq<Venta>, p: PeticionCaja)
    requires EsDeTalonario(p)
    ensures AtenderTalonario(t, ventas, p).Ok? ==> AtenderTalonario(t, ventas, p).value.cabeceras == t.cabeceras
  {
  }

  lemma {:induction false} TalonarioTrasVender(n: Negocio, q: PedidoCaja)
    requires TalonarioBien(n.talonario) && CrearVenta(n, q).Ok? && !VentaConClave(n.ventas.ventas, q.pedido.clave)
    ensures TalonarioBien(CrearVenta(n, q).value.talonario)
  {
    VentaEscribe(n, q);
    NumerarVentaMantiene(n.talonario, q.serie, q.empresa, q.sucursal, q.conCliente);
  }

  lemma {:induction false} TalonarioIgual(n: Negocio, p: PeticionCaja)
    requires !VendeAlgo(n, p)
    ensures Paso(n, p).talonario == if EsDeTalonario(p) then AtenderTalonario(n.talonario, n.ventas.ventas, p).GetOr(n.talonario) else n.talonario
  {
  }

  lemma {:induction false} PasoTalonario(n: Negocio, p: PeticionCaja)
    requires TalonarioBien(n.talonario)
    ensures TalonarioBien(Paso(n, p).talonario)
  {
    if VendeAlgo(n, p) {
      TalonarioTrasVender(n, p.pedido);
    } else {
      TalonarioIgual(n, p);
      if EsDeTalonario(p) && AtenderTalonario(n.talonario, n.ventas.ventas, p).Ok? {
        TalonarioMantiene(n.talonario, n.ventas.ventas, p);
      }
    }
  }

  lemma {:induction false} CobrosTrasVender(n: Negocio, q: PedidoCaja)
    requires CobrosBien(n.ventas.ventas, n.cobros) && CrearVenta(n, q).Ok? && !VentaConClave(n.ventas.ventas, q.pedido.clave)
    ensures CobrosBien(CrearVenta(n, q).value.ventas.ventas, CrearVenta(n, q).value.cobros)
  {
    VentaEscribe(n, q);
    PagosMantiene(n.ventas.ventas, n.cobros, VentaDe(q.pedido, CalcularLineas(n.ventas, q.pedido).value), q.pedido.pagos);
  }

  lemma {:induction false} CobrosIgual(n: Negocio, p: PeticionCaja)
    requires !VendeAlgo(n, p)
    ensures Paso(n, p).cobros ==
      if p.KCargo? then CrearIntento(n.cobros, |n.ventas.ventas|, p.cargo, p.capturada)
      else if p.KAviso? then Notificar(n.cobros, |n.ventas.ventas|, p.intento, p.capturada)
      else n.cobros
  {
  }

  lemma {:induction false} PasoCobros(n: Negocio, p: PeticionCaja)
    requires CobrosBien(n.ventas.ventas, n.cobros)
    ensures CobrosBien(Paso(n, p).ventas.ventas, Paso(n, p).cobros)
  {
    if VendeAlgo(n, p) {
      CobrosTrasVender(n, p.pedido);
    } else {
      CobrosIgual(n, p);
      Marco(n, p);
      if p.KCargo? {
        CrearIntentoMantiene(n.ventas.ventas, n.cobros, p.cargo, p.capturada);
      } else if p.KAviso? {
        NotificarMantiene(n.ventas.ventas, n.cobros, p.intento, p.capturada);
      }
      VentasIguales(n.ventas.ventas, Paso(n, p).ventas.ventas, Paso(n, p).cobros);
    }
  }

  lemma {:induction false} VentasTrasVender(n: Negocio, q: PedidoCaja)
    requires VentasBien(n.ventas) && CrearVenta(n, q).Ok?
    ensures VentasBien(CrearVenta(n, q).value.ventas)
  {
    if !VentaConClave(n.ventas.ventas, q.pedido.clave) {
      VentaEscribe(n, q);
      CrearMantiene(n.ventas, q.pedido);
    }
  }

  lemma {:induction false} VentasTrasRecibir(n: Negocio, q: PedidoCompra)
    requires VentasBien(n.ventas) && Recibir(n, q).Ok?
    ensures VentasBien(Recibir(n, q).value.ventas)
  {
    RecepcionarMantiene(n.ventas.inv, q.clave, q.numero, q.almacen, Items(q.lineas));
  }

  lemma {:induction false} VentasTrasOtra(n: Negocio, q: PeticionVentas)
    requires VentasBien(n.ventas)
    ensures VentasBien(Paso(n, KOtra(q)).ventas)
  {
    if EsOtra(q) {
      PasoVentasMantiene(n.ventas, q);
    }
  }

  lemma {:induction false} VentasAparte(n: Negocio, p: PeticionCaja)
    requires !p.KVenta? && !p.KCompra? && !p.KOtra?
    ensures Paso(n, p).ventas == n.ventas
  {
  }

  lemma {:induction false} PasoDeVentas(n: Negocio, p: PeticionCaja)
    requires VentasBien(n.ventas)
    ensures VentasBien(Paso(n, p).ventas)
  {
    match p
    case KVenta(q) => if CrearVenta(n, q).Ok? { VentasTrasVender(n, q); }
    case KCompra(q) => if Recibir(n, q).Ok? { VentasTrasRecibir(n, q); }
    case KOtra(q) => VentasTrasOtra(n, q);
    case _ => VentasAparte(n, p);
  }

  ghost predicate CobrarBien(n: Negocio) {
    |n.talonario.cabeceras| == |n.ventas.ventas| && DeudasBien(n.porCobrar, DebenVentas(n.ventas.ventas, n.talonario.cabeceras))
  }

  ghost predicate PagarBien(n: Negocio) {
    |n.compras| == |n.ventas.inv.recepciones| && DeudasBien(n.porPagar, DebenCompras(n.compras))
  }

  lemma {:induction false} CobrarTrasVender(n: Negocio, q: PedidoCaja)
    requires CobrarBien(n) && CrearVenta(n, q).Ok? && !VentaConClave(n.ventas.ventas, q.pedido.clave)
    ensures CobrarBien(CrearVenta(n, q).value)
  {
    var ventas, cs := n.ventas.ventas, n.talonario.cabeceras;
    VentaEscribe(n, q);
    var v := VentaDe(q.pedido, CalcularLineas(n.ventas, q.pedido).value);
    var c := CabeceraDe(n.talonario, q.serie, q.empresa, q.sucursal, q.conCliente);
    AnotarMantiene(n.porCobrar, DebenVentas(ventas, cs), DebeVenta(v, c));
    assert DebenVentas(ventas + [v], cs + [c]) == DebenVentas(ventas, cs) + [DebeVenta(v, c)];
  }

  lemma {:induction false} DebenIgual(ventas: seq<Venta>, ventas': seq<Venta>, cs: seq<Cabecera>)
    requires MismasVentas(ventas, ventas') && |ventas| == |cs|
    ensures DebenVentas(ventas', cs) == DebenVentas(ventas, cs)
  {
  }

  lemma {:induction false} PasoCobrar(n: Negocio, p: PeticionCaja)
    requires CobrarBien(n)
    ensures CobrarBien(Paso(n, p))
  {
    if VendeAlgo(n, p) {
      CobrarTrasVender(n, p.pedido);
    } else if !p.KCobro? {
      Marco(n, p);
      DebenIgual(n.ventas.ventas, Paso(n, p).ventas.ventas, n.talonario.cabeceras);
    } else if Atender(n, p).Ok? {
      SaldarMantiene(n.porCobrar, DebenVentas(n.ventas.ventas, n.talonario.cabeceras), p.clave, p.monto, p.lineas);
    }
  }

  lemma {:induction false} PagarTrasRecibir(n: Negocio, q: PedidoCompra)
    requires PagarBien(n) && Recibir(n, q).Ok? && !RecepcionConClave(n.ventas.inv.recepciones, q.clave)
    ensures PagarBien(Recibir(n, q).value)
  {
    var c := CompraDe(q);
    AnotarMantiene(n.porPagar, DebenCompras(n.compras), DebeCompra(c));
    assert DebenCompras(n.compras + [c]) == DebenCompras(n.compras) + [DebeCompra(c)];
  }

  lemma {:induction false} PasoPagar(n: Negocio, p: PeticionCaja)
    requires PagarBien(n)
    ensures PagarBien(Paso(n, p))
  {
    if RecibeAlgo(n, p) {
      PagarTrasRecibir(n, p.compra);
    } else if !p.KPago? {
      MarcoCompras(n, p);
    } else if Atender(n, p).Ok? {
      SaldarMantiene(n.porPagar, DebenCompras(n.compras), p.clave, p.monto, p.lineas);
    }
  }

  lemma {:induction false} PasoMantiene(n: Negocio, p: PeticionCaja)
    requires NegocioBien(n)
    ensures NegocioBien(Paso(n, p))
  {
    PasoDeVentas(n, p);
    PasoTalonario(n, p);
    PasoCobros(n, p);
    PasoCobrar(n, p);
    PasoPagar(n, p);
  }

  lemma {:induction false} CrearVentaMantiene(n: Negocio, p: PedidoCaja)
    requires NegocioBien(n) && CrearVenta(n, p).Ok?
    ensures NegocioBien(CrearVenta(n, p).value)
  {
    PasoMantiene(n, KVenta(p));
  }

  lemma {:induction false} RecibirMantiene(n: Negocio, p: PedidoCompra)
    requires NegocioBien(n) && Recibir(n, p).Ok?
    ensures NegocioBien(Recibir(n, p).value)
  {
    PasoMantiene(n, KCompra(p));
  }

  lemma {:induction false} CorrerTalonario(ps: seq<PeticionCaja>)
    ensures TalonarioBien(Correr(ps).talonario)
  {
    if |ps| > 0 {
      CorrerTalonario(ps[..|ps| - 1]);
      PasoTalonario(Correr(ps[..|ps| - 1]), ps[|ps| - 1]);
    }
  }

  lemma {:induction false} CorrerCobros(ps: seq<PeticionCaja>)
    ensures CobrosBien(Correr(ps).ventas.ventas, Correr(ps).cobros)
  {
    if |ps| > 0 {
      CorrerCobros(ps[..|ps| - 1]);
      PasoCobros(Correr(ps[..|ps| - 1]), ps[|ps| - 1]);
    }
  }

  lemma {:induction false} CorrerCuentas(ps: seq<PeticionCaja>)
    ensures CobrarBien(Correr(ps)) && PagarBien(Correr(ps))
  {
    if |ps| > 0 {
      CorrerCuentas(ps[..|ps| - 1]);
      PasoCobrar(Correr(ps[..|ps| - 1]), ps[|ps| - 1]);
      PasoPagar(Correr(ps[..|ps| - 1]), ps[|ps| - 1]);
    }
  }

  lemma {:induction false} CorrerDeVentas(ps: seq<PeticionCaja>)
    ensures VentasBien(Correr(ps).ventas)
  {
    if |ps| == 0 {
      InicialValido();
    } else {
      CorrerDeVentas(ps[..|ps| - 1]);
      PasoDeVentas(Correr(ps[..|ps| - 1]), ps[|ps| - 1]);
    }
  }

  lemma {:induction false} CorrerMantiene(ps: seq<PeticionCaja>)
    ensures NegocioBien(Correr(ps))
  {
    CorrerDeVentas(ps);
    CorrerTalonario(ps);
    CorrerCobros(ps);
    CorrerCuentas(ps);
  }

  // ------------------------------------------------------------------ what a reader gets

  /** After any run of the whole shop, in any order and with any request refused: each number a series
      has given is held by exactly one sale or one document; and its sales hold all of them, in order and
      without a gap, if and only if no document took one. */
  lemma {:induction false} NumerosRepartidos(ps: seq<PeticionCaja>, id: SerieId, k: nat)
    ensures var t := Correr(ps).talonario;
      id in t.series ==>
        var ventas, documentos, s := NumerosVentas(t.cabeceras, id), NumerosDocumentos(t.documentos, id), t.series[id];
        && s.primero <= s.nextNumber && |ventas| + |documentos| == s.nextNumber - s.primero
        && (k in ventas || k in documentos <==> s.primero <= k < s.nextNumber) && !(k in ventas && k in documentos)
        && (ventas == Intervalo(s.primero, s.nextNumber) <==> documentos == [])
  {
    CorrerTalonario(ps);
    var t := Correr(ps).talonario;
    if id in t.series {
      var ventas, documentos, s := NumerosVentas(t.cabeceras, id), NumerosDocumentos(t.documentos, id), t.series[id];
      assert SerieBien(t, id);
      EnOrden(ventas, documentos, s.primero, s.nextNumber);
      UnTitular(ventas, documentos, s.primero, s.nextNumber, k);
      SinHuecosSii(ventas, documentos, s.primero, s.nextNumber);
    }
  }

  /** After any run the payments a sale made itself add up to what it was paid; all its payments do if
      and only if its gateway payments add up to nothing; and a charge has paid at most once, its amount,
      to the sale it names. */
  lemma {:induction false} PagosDeCadaVenta(ps: seq<PeticionCaja>, i: nat)
    ensures var n := Correr(ps);
      && |n.talonario.cabeceras| == |n.ventas.ventas|
      && (i < |n.ventas.ventas| ==>
            && Suma(n.cobros.pagos, PropioDe(i)) == n.ventas.ventas[i].totalPagado
            && (Suma(n.cobros.pagos, PagadoDe(i)) == n.ventas.ventas[i].totalPagado <==> Suma(n.cobros.pagos, PasarelaDe(i)) == 0.0))
      && (i < |n.cobros.pagos| ==>
            && DeSuCargo(n.cobros.intentos, n.cobros.pagos[i])
            && forall j :: 0 <= j < |n.cobros.pagos| && j != i && n.cobros.pagos[i].pasarela.Some? ==>
                 n.cobros.pagos[j].pasarela != n.cobros.pagos[i].pasarela)
  {
    CorrerCobros(ps);
    CorrerCuentas(ps);
    var n := Correr(ps);
    if i < |n.ventas.ventas| {
      PagosSii(n.ventas.ventas, n.cobros, i);
    }
  }

  /** Document i has an account if and only if it leaves something owing, then exactly one, opened
      for exactly that. */
  ghost predicate ConSuCuenta(d: Deudas, i: nat, debe: Option<real>) {
    && |d.libro.cuentas| == |d.origenes|
    && (i in d.origenes <==> debe.Some?)
    && (forall j, k :: 0 <= j < k < |d.origenes| ==> d.origenes[j] < d.origenes[k])
    && (forall k :: 0 <= k < |d.origenes| && d.origenes[k] == i ==> debe == Some(d.libro.cuentas[k].montoOriginal))
  }

  lemma {:induction false} DeudasConCuenta(d: Deudas, debe: seq<Option<real>>, i: nat)
    requires DeudasBien(d, debe) && i < |debe|
    ensures ConSuCuenta(d, i, debe[i])
  {
    OrigenesExactos(debe);
  }

  /** After any run a sale has an account if and only if it names a client and was not paid in full,
      then exactly one, opened for exactly the rest. */
  lemma {:induction false} CadaVentaSuCuenta(ps: seq<PeticionCaja>, i: nat)
    ensures var n := Correr(ps);
      i < |n.ventas.ventas| ==> i < |n.talonario.cabeceras| && ConSuCuenta(n.porCobrar, i, DebeVenta(n.ventas.ventas[i], n.talonario.cabeceras[i]))
  {
    CorrerCuentas(ps);
    var n := Correr(ps);
    if i < |n.ventas.ventas| {
      DeudasConCuenta(n.porCobrar, DebenVentas(n.ventas.ventas, n.talonario.cabeceras), i);
    }
  }

  /** After any run a receipt has an account if and only if it was on credit, then exactly one, opened
      for its total, taxes included. */
  lemma {:induction false} CadaCompraSuCuenta(ps: seq<PeticionCaja>, i: nat)
    ensures var n := Correr(ps);
      |n.compras| == |n.ventas.inv.recepciones| && (i < |n.compras| ==> ConSuCuenta(n.porPagar, i, DebeCompra(n.compras[i])))
  {
    CorrerCuentas(ps);
    var n := Correr(ps);
    if i < |n.compras| {
      DeudasConCuenta(n.porPagar, DebenCompras(n.compras), i);
    }
  }
}
