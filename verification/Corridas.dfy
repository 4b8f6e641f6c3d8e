/** Runs of the stock services: any sequence of requests in any order, each of which commits
    whole or leaves every table as it was, and what holds after all of them. */
module Corridas {
  import opened Comun
  import opened Sumas
  import opened Kardex
  import opened Movimientos
  import opened Lotes
  import opened Existencias
  import opened Inventario
  import opened Invariante

  datatype Peticion =
    | PAlmacen(almacen: AlmacenId, activo: bool)
    | PVariante(variante: VarianteId, isStockTracked: bool, allowNegativeStock: bool, activa: bool)
    | PStockInicial(celda: Celda, cantidad: real, costo: real, clave: string)
    | PStockCatalogo(celda: Celda, cantidad: real, costo: real)
    | PAjuste(celda: Celda, esEntrada: bool, cantidad: real, costoUnitario: Option<real>, clave: string, aleatorio: nat)
    | PNivel(celda: Celda, minimo: real, maximo: real)
    | PReserva(celda: Celda, cantidad: real)
    | PLiberar(reserva: nat)
    | PCrearConteo(almacen: AlmacenId, orden: seq<VarianteId>)
    | PRegistrarConteo(conteo: nat, contadas: seq<Pedido>)
    | PContabilizar(conteo: nat)
    | PCancelarConteo(conteo: nat)
    | PTransferir(origen: AlmacenId, destino: AlmacenId, pedidos: seq<Pedido>, clave: string)
    | PRecibir(transferencia: nat, pedidos: seq<Pedido>, clave: string)
    | PCancelar(transferencia: nat)
    | PRecepcion(clave: string, numero: string, almacen: AlmacenId, items: seq<ItemCompra>)
    | PVenta(venta: nat, lineas: seq<LineaStock>, hoy: nat)
    | PDevolucion(devolucion: nat, reingresos: seq<Reingreso>)

  function Atender(s: Estado, p: Peticion): Resultado<Estado> {
    match p
    case PAlmacen(a, activo) => Ok(CambiarAlmacen(s, a, activo))
    case PVariante(v, tracked, permite, activa) => Ok(CambiarVariante(s, v, tracked, permite, activa))
    case PStockInicial(c, cantidad, costo, clave) => RegistrarStockInicial(s, c, cantidad, costo, clave)
    case PStockCatalogo(c, cantidad, costo) => CargarStockInicial(s, c, cantidad, costo)
    case PAjuste(c, esEntrada, cantidad, costo, clave, aleatorio) => AjustarStock(s, c, esEntrada, cantidad, costo, clave, aleatorio)
    case PNivel(c, minimo, maximo) => DefinirNivelStock(s, c, minimo, maximo)
    case PReserva(c, cantidad) => CrearReserva(s, c, cantidad)
    case PLiberar(id) => LiberarReserva(s, id)
    case PCrearConteo(a, orden) => CrearConteo(s, a, orden)
    case PRegistrarConteo(id, contadas) => RegistrarConteo(s, id, contadas)
    case PContabilizar(id) => ContabilizarConteo(s, id)
    case PCancelarConteo(id) => CancelarConteo(s, id)
    case PTransferir(o, d, pedidos, clave) => CrearTransferencia(s, o, d, pedidos, clave)
    case PRecibir(id, pedidos, clave) => RecibirTransferencia(s, id, pedidos, clave)
    case PCancelar(id) => CancelarTransferencia(s, id)
    case PRecepcion(clave, numero, a, items) => Recepcionar(s, clave, numero, a, items)
    case PVenta(venta, lineas, hoy) => Vender(s, venta, lineas, hoy)
    case PDevolucion(devolucion, reingresos) => ReingresarStock(s, devolucion, reingresos)
  }

  /** A refused request rolls back. */
  function Paso(s: Estado, p: Peticion): Estado {
    Atender(s, p).GetOr(s)
  }

  function Correr(s: Estado, ps: seq<Peticion>): Estado {
    if |ps| == 0 then s else Paso(Correr(s, ps[..|ps| - 1]), ps[|ps| - 1])
  }

  // ------------------------------------------------------------------ the invariant, everywhere

  lemma {:induction false} PasoMantiene(s: Estado, p: Peticion)
    requires Valido(s)
    ensures Valido(Paso(s, p))
  {
    if Atender(s, p).Ok? {
      match p
      case PAlmacen(_, _) =>
      case PVariante(v, tracked, permite, activa) =>
      case PStockInicial(c, cantidad, costo, clave) => RegistrarStockInicialMantiene(s, c, cantidad, costo, clave);
      case PStockCatalogo(c, cantidad, costo) => CargarStockInicialMantiene(s, c, cantidad, costo);
      case PAjuste(c, e, cantidad, costo, clave, aleatorio) => AjustarStockMantiene(s, c, e, cantidad, costo, clave, aleatorio);
      case PNivel(c, minimo, maximo) => DefinirNivelStockMantiene(s, c, minimo, maximo);
      case PReserva(c, cantidad) => CrearReservaMantiene(s, c, cantidad);
      case PLiberar(id) => LiberarReservaMantiene(s, id);
      case PCrearConteo(a, orden) => CrearConteoMantiene(s, a, orden);
      case PRegistrarConteo(id, contadas) => RegistrarConteoMantiene(s, id, contadas);
      case PContabilizar(id) => ContabilizarConteoMantiene(s, id);
      case PCancelarConteo(id) => CancelarConteoMantiene(s, id);
      case PTransferir(o, d, pedidos, clave) => CrearTransferenciaMantiene(s, o, d, pedidos, clave);
      case PRecibir(id, pedidos, clave) => RecibirTransferenciaMantiene(s, id, pedidos, clave);
      case PCancelar(id) => CancelarTransferenciaMantiene(s, id);
      case PRecepcion(clave, numero, a, items) => RecepcionarMantiene(s, clave, numero, a, items);
      case PVenta(venta, lineas, hoy) => VenderMantiene(s, venta, lineas, hoy);
      case PDevolucion(devolucion, reingresos) => ReingresarStockMantiene(s, devolucion, reingresos);
    }
  }

  lemma {:induction false} CorrerMantiene(s: Estado, ps: seq<Peticion>)
    requires Valido(s)
    ensures Valido(Correr(s, ps))
  {
    if |ps| > 0 {
      CorrerMantiene(s, ps[..|ps| - 1]);
      PasoMantiene(Correr(s, ps[..|ps| - 1]), ps[|ps| - 1]);
    }
  }

  /** After any run: the ledger of every cell adds up to its stock, the balance splits into
      available and set aside, what is set aside and on its way is what open reservations and
      open transfers say, and stock that may not be negative is not. */
  lemma {:induction false} SaldosSiempreCuadran(ps: seq<Peticion>, c: Celda)
    ensures var s := Correr(INICIAL, ps);
      && Suma(s.kardex.ledger, CantidadEn(c)) == (if c in s.kardex.saldos then s.kardex.saldos[c].enStock else 0.0)
      && Fila(s.kardex, c).available == Fila(s.kardex, c).enStock - Fila(s.kardex, c).reserved
      && Fila(s.kardex, c).reserved == Suma(s.reservas, PendienteEn(c)) >= 0.0
      && Fila(s.kardex, c).enTransito == Suma(s.transferencias, EnCamino(c)) >= 0.0
      && (ProhibeNegativo(s.variantes, c) ==> Fila(s.kardex, c).enStock >= 0.0)
  {
    InicialValido();
    CorrerMantiene(INICIAL, ps);
    assert CuadraCelda(Correr(INICIAL, ps).kardex, c);
  }

  /** After any run every lot holds what was received into it less what was sold from it. */
  lemma {:induction false} LotesSiempreCuadran(ps: seq<Peticion>, l: nat)
    ensures var s := Correr(INICIAL, ps);
      l < |s.lotes| ==>
      && s.lotes[l].cantidad >= 0.0
      && Suma(s.recibidos, RecibidoEn(s.lotes[l].celda, s.lotes[l].numero))
         == s.lotes[l].cantidad - Suma(s.kardex.ledger, CantidadDeLote(l))
  {
    InicialValido();
    CorrerMantiene(INICIAL, ps);
    var s := Correr(INICIAL, ps);
    assert l < |s.lotes| ==> LoteCuadra(s.lotes, s.kardex.ledger, s.recibidos, l);
  }

  /** After any run no article has received more than was shipped, and a transfer is RECIBIDA
      exactly when everything shipped has been received. */
  lemma {:induction false} TransferenciasSiempreBien(ps: seq<Peticion>, id: nat)
    ensures var ts := Correr(INICIAL, ps).transferencias;
      id < |ts| ==>
      var t := ts[id];
      && (forall i :: 0 <= i < |t.articulos| ==> 0.0 <= t.articulos[i].receivedQty <= t.articulos[i].shippedQty)
      && (t.estado == RECIBIDA <==> forall i :: 0 <= i < |t.articulos| ==> t.articulos[i].receivedQty == t.articulos[i].shippedQty)
  {
    InicialValido();
    CorrerMantiene(INICIAL, ps);
    var s := Correr(INICIAL, ps);
    if id < |s.transferencias| {
      var t := s.transferencias[id];
      assert TransferenciaBien(s.kardex, t);
      forall i | 0 <= i < |t.articulos| ensures 0.0 <= t.articulos[i].receivedQty <= t.articulos[i].shippedQty {
        assert ArticuloBien(s.kardex, t.origen, t.destino, t.articulos[i]);
      }
    }
  }

  // ------------------------------------------------------------------ value

  /** What a request adds to the gap between the value a cell carries and the value its ledger
      records: only cancelling a transfer, in its origin, adds anything. */
  ghost function Salto(s: Estado, p: Peticion, c: Celda): real {
    if p.PCancelar? && CancelarTransferencia(s, p.transferencia).Ok? then
      var t := s.transferencias[p.transferencia];
      EnAlmacen(t.origen, c, Suma(t.articulos, FugaDe(s.kardex, s.kardex.ledger, p.transferencia, c)))
    else 0.0
  }

  predicate EsTransferencia(p: Peticion) {
    p.PTransferir? || p.PRecibir? || p.PCancelar?
  }

  predicate EsMovimiento(p: Peticion) {
    p.PStockInicial? || p.PStockCatalogo? || p.PAjuste? || p.PNivel? || p.PContabilizar? || p.PRecepcion? || p.PVenta? || p.PDevolucion?
  }

  lemma {:induction false} AlmacenSigue(s: Estado, p: Peticion)
    requires Valido(s) && Atender(s, p).Ok? && (p.PStockInicial? || p.PStockCatalogo? || p.PAjuste? || p.PNivel? || p.PContabilizar?)
    ensures Sigue(s.kardex, Atender(s, p).value.kardex, s.variantes)
  {
    match p
    case PStockInicial(c, cantidad, costo, clave) => RegistrarStockInicialMantiene(s, c, cantidad, costo, clave);
    case PStockCatalogo(c, cantidad, costo) => CargarStockInicialMantiene(s, c, cantidad, costo);
    case PAjuste(c, e, cantidad, costo, clave, aleatorio) => AjustarStockMantiene(s, c, e, cantidad, costo, clave, aleatorio);
    case PNivel(c, minimo, maximo) => DefinirNivelStockMantiene(s, c, minimo, maximo);
    case PContabilizar(id) => ContabilizarConteoMantiene(s, id);
  }

  /** A request that only moves stock of its own cells leaves every gap as it was. */
  lemma {:induction false} PasoSigue(s: Estado, p: Peticion)
    requires Valido(s) && Atender(s, p).Ok? && EsMovimiento(p)
    ensures Sigue(s.kardex, Atender(s, p).value.kardex, s.variantes)
  {
    match p
    case PRecepcion(clave, numero, a, items) => RecepcionarMantiene(s, clave, numero, a, items);
    case PVenta(venta, lineas, hoy) => VenderMantiene(s, venta, lineas, hoy);
    case PDevolucion(devolucion, reingresos) => ReingresarStockMantiene(s, devolucion, reingresos);
    case _ => AlmacenSigue(s, p);
  }

  lemma {:induction false} PasoVariantes(s: Estado, p: Peticion, c: Celda)
    ensures ProhibeNegativo(Paso(s, p).variantes, c) ==> ProhibeNegativo(s.variantes, c)
  {
  }

  lemma {:induction false} TransferirBrecha(s: Estado, p: Peticion, c: Celda)
    requires Valido(s) && Atender(s, p).Ok? && EsTransferencia(p) && ProhibeNegativo(s.variantes, c)
    ensures Brecha(Paso(s, p).kardex, c) == Brecha(s.kardex, c) + Salto(s, p, c)
  {
    match p
    case PTransferir(o, d, pedidos, clave) =>
      if !SalidaConClave(s.kardex.ledger, clave) {
        CrearTransferenciaCelda(s, o, d, pedidos, clave, c);
      }
    case PRecibir(id, pedidos, clave) =>
      if !EntradaConClave(s.kardex.ledger, clave) {
        RecibirTransferenciaCelda(s, id, pedidos, clave, c);
      }
    case PCancelar(id) => CancelarTransferenciaCelda(s, id, c);
  }

  lemma {:induction false} SinMovimientos(s: Estado, p: Peticion, c: Celda)
    requires Atender(s, p).Ok? && !EsMovimiento(p) && !EsTransferencia(p)
    ensures Brecha(Atender(s, p).value.kardex, c) == Brecha(s.kardex, c)
  {
  }

  /** Every request moves the gap of a cell that forbids negative stock by exactly its Salto. */
  lemma {:induction false} PasoBrecha(s: Estado, p: Peticion, c: Celda)
    requires Valido(s) && ProhibeNegativo(Paso(s, p).variantes, c)
    ensures ProhibeNegativo(s.variantes, c)
    ensures Brecha(Paso(s, p).kardex, c) == Brecha(s.kardex, c) + Salto(s, p, c)
  {
    PasoVariantes(s, p, c);
    if Atender(s, p).Ok? {
      if EsTransferencia(p) {
        TransferirBrecha(s, p, c);
      } else if EsMovimiento(p) {
        PasoSigue(s, p);
        assert SigueCelda(s.kardex, Atender(s, p).value.kardex, s.variantes, c);
      } else {
        SinMovimientos(s, p, c);
      }
    }
  }

  /** The gaps opened along a run. */
  ghost function Saltos(s: Estado, ps: seq<Peticion>, c: Celda): real {
    if |ps| == 0 then 0.0 else Saltos(s, ps[..|ps| - 1], c) + Salto(Correr(s, ps[..|ps| - 1]), ps[|ps| - 1], c)
  }

  lemma {:induction false} CorrerBrecha(s: Estado, ps: seq<Peticion>, c: Celda)
    requires Valido(s) && ProhibeNegativo(Correr(s, ps).variantes, c)
    ensures ProhibeNegativo(s.variantes, c)
    ensures Brecha(Correr(s, ps).kardex, c) == Brecha(s.kardex, c) + Saltos(s, ps, c)
  {
    if |ps| > 0 {
      CorrerMantiene(s, ps[..|ps| - 1]);
      PasoBrecha(Correr(s, ps[..|ps| - 1]), ps[|ps| - 1], c);
      CorrerBrecha(s, ps[..|ps| - 1], c);
    }
  }

  lemma {:induction false} SinSaltos(s: Estado, ps: seq<Peticion>, c: Celda)
    requires forall i :: 0 <= i < |ps| ==> !ps[i].PCancelar?
    ensures Saltos(s, ps, c) == 0.0
  {
    if |ps| > 0 {
      SinSaltos(s, ps[..|ps| - 1], c);
    }
  }

  /** Where negative stock is forbidden, stock times average cost is exactly the cost the ledger
      records, after any run that cancels no transfer; and after any run at all it is off by
      exactly what its cancellations opened. */
  lemma {:induction false} ValorizadoExacto(ps: seq<Peticion>, c: Celda)
    requires ProhibeNegativo(Correr(INICIAL, ps).variantes, c)
    ensures var k := Correr(INICIAL, ps).kardex;
      && Valor(Fila(k, c).enStock, Fila(k, c).costoPromedio) == Suma(k.ledger, CostoEn(c)) + Saltos(INICIAL, ps, c)
      && ((forall i :: 0 <= i < |ps| ==> !ps[i].PCancelar?) ==>
            Valor(Fila(k, c).enStock, Fila(k, c).costoPromedio) == Suma(k.ledger, CostoEn(c)))
  {
    InicialValido();
    CorrerBrecha(INICIAL, ps, c);
    if forall i :: 0 <= i < |ps| ==> !ps[i].PCancelar? {
      SinSaltos(INICIAL, ps, c);
    }
  }

  lemma {:induction false} FugaDeUno(k: Kardex, ledger: seq<Asiento>, t: nat, items: seq<Articulo>, i: nat, c: Celda)
    requires VariantesDistintas(items) && i < |items| && items[i].variante == c.variante
    ensures Suma(items, FugaDe(k, ledger, t, c)) == FugaDe(k, ledger, t, c)(items[i])
  {
    var n := |items| - 1;
    if i == n {
      SumaNula(items[..n], FugaDe(k, ledger, t, c));
    } else {
      FugaDeUno(k, ledger, t, items[..n], i, c);
    }
  }

  /** Cancelling moves the gap of each cancelled article's origin by what the shipped quantity is
      worth at today's average less what it was worth at its recorded exit cost. */
  lemma {:induction false} CancelarMueveBrecha(s: Estado, id: nat, i: nat, c: Celda)
    requires Valido(s) && CancelarTransferencia(s, id).Ok? && ProhibeNegativo(s.variantes, c)
    requires i < |s.transferencias[id].articulos| && c == Celda(s.transferencias[id].origen, s.transferencias[id].articulos[i].variante)
    ensures var q := s.transferencias[id].articulos[i].shippedQty;
      Brecha(CancelarTransferencia(s, id).value.kardex, c)
        == Brecha(s.kardex, c) + Valor(q, Fila(s.kardex, c).costoPromedio) - Valor(q, CostoDe(s.kardex.ledger, id, c.variante))
  {
    var items := s.transferencias[id].articulos;
    assert VariantesDistintas(items) by { assert TransferenciaBien(s.kardex, s.transferencias[id]); }
    FugaDeUno(s.kardex, s.kardex.ledger, id, items, i, c);
    CancelarTransferenciaCelda(s, id, c);
  }

  // ------------------------------------------------------------------ transfers conserve goods

  /** What a warehouse holds of a variant, in stock or on its way. */
  function Tiene(k: Kardex, v: VarianteId): AlmacenId -> real {
    (a: AlmacenId) => Fila(k, Celda(a, v)).enStock + Fila(k, Celda(a, v)).enTransito
  }

  function ParteDe(origen: AlmacenId, v: VarianteId, q: real): AlmacenId -> real {
    (a: AlmacenId) => EnAlmacen(origen, Celda(a, v), q)
  }

  lemma {:induction false} ParteSuma(alms: seq<AlmacenId>, a: AlmacenId, v: VarianteId, q: real)
    requires SinRepetir(alms)
    ensures Suma(alms, ParteDe(a, v, q)) == if a in alms then q else 0.0
  {
    if |alms| > 0 {
      var n := |alms| - 1;
      assert alms == alms[..n] + [alms[n]];
      ParteSuma(alms[..n], a, v, q);
    }
  }

  /** Stock and goods on the way that move between warehouses of the list cancel out. */
  lemma {:induction false} TrasladoConserva(k: Kardex, k': Kardex, alms: seq<AlmacenId>, v: VarianteId,
                                            sale: AlmacenId, entra: AlmacenId, q: real)
    requires SinRepetir(alms) && sale in alms && entra in alms
    requires forall a {:trigger Tiene(k', v)(a)} :: a in alms ==>
      Tiene(k', v)(a) == Tiene(k, v)(a) - ParteDe(sale, v, q)(a) + ParteDe(entra, v, q)(a)
    ensures Suma(alms, Tiene(k', v)) == Suma(alms, Tiene(k, v))
  {
    ParteSuma(alms, sale, v, q);
    ParteSuma(alms, entra, v, q);
    SumaTresPartes(alms, Tiene(k', v), Tiene(k, v), ParteDe(sale, v, q), ParteDe(entra, v, q));
  }

  lemma {:induction false} SumaTresPartes(s: seq<AlmacenId>, f: AlmacenId -> real, g: AlmacenId -> real, menos: AlmacenId -> real, mas: AlmacenId -> real)
    requires forall a {:trigger f(a)} :: a in s ==> f(a) == g(a) - menos(a) + mas(a)
    ensures Suma(s, f) == Suma(s, g) - Suma(s, menos) + Suma(s, mas)
  {
    if |s| > 0 {
      SumaTresPartes(s[..|s| - 1], f, g, menos, mas);
    }
  }

  /** The list names every active warehouse and every end of a transfer. */
  ghost predicate Cubre(alms: seq<AlmacenId>, s: Estado) {
    && SinRepetir(alms)
    && (forall a :: a in s.almacenes ==> a in alms)
    && (forall i :: 0 <= i < |s.transferencias| ==> s.transferencias[i].origen in alms && s.transferencias[i].destino in alms)
  }

  lemma {:induction false} CrearConserva(s: Estado, o: AlmacenId, d: AlmacenId, pedidos: seq<Pedido>, clave: string, alms: seq<AlmacenId>, v: VarianteId)
    requires Valido(s) && SinRepetir(alms) && o in alms && d in alms && CrearTransferencia(s, o, d, pedidos, clave).Ok?
    ensures Suma(alms, Tiene(CrearTransferencia(s, o, d, pedidos, clave).value.kardex, v)) == Suma(alms, Tiene(s.kardex, v))
  {
    if !SalidaConClave(s.kardex.ledger, clave) {
      var k', q := CrearTransferencia(s, o, d, pedidos, clave).value.kardex, Suma(pedidos, CantidadDe(v));
      forall a | a in alms ensures Tiene(k', v)(a) == Tiene(s.kardex, v)(a) - ParteDe(o, v, q)(a) + ParteDe(d, v, q)(a) {
        CrearTransferenciaCelda(s, o, d, pedidos, clave, Celda(a, v));
      }
      TrasladoConserva(s.kardex, k', alms, v, o, d, q);
    }
  }

  lemma {:induction false} RecibirConserva(s: Estado, id: nat, pedidos: seq<Pedido>, clave: string, alms: seq<AlmacenId>, v: VarianteId)
    requires Valido(s) && RecibirTransferencia(s, id, pedidos, clave).Ok?
    ensures Suma(alms, Tiene(RecibirTransferencia(s, id, pedidos, clave).value.kardex, v)) == Suma(alms, Tiene(s.kardex, v))
  {
    if !EntradaConClave(s.kardex.ledger, clave) {
      var k' := RecibirTransferencia(s, id, pedidos, clave).value.kardex;
      forall i | 0 <= i < |alms| ensures Tiene(k', v)(alms[i]) == Tiene(s.kardex, v)(alms[i]) {
        RecibirTransferenciaCelda(s, id, pedidos, clave, Celda(alms[i], v));
      }
      SumaIgual(alms, Tiene(k', v), Tiene(s.kardex, v));
    }
  }

  lemma {:induction false} CancelarConserva(s: Estado, id: nat, alms: seq<AlmacenId>, v: VarianteId)
    requires Valido(s) && SinRepetir(alms) && CancelarTransferencia(s, id).Ok?
    requires s.transferencias[id].origen in alms && s.transferencias[id].destino in alms
    ensures Suma(alms, Tiene(CancelarTransferencia(s, id).value.kardex, v)) == Suma(alms, Tiene(s.kardex, v))
  {
    var k', t := CancelarTransferencia(s, id).value.kardex, s.transferencias[id];
    var q := Suma(t.articulos, EnviadoDe(v));
    forall a | a in alms ensures Tiene(k', v)(a) == Tiene(s.kardex, v)(a) - ParteDe(t.destino, v, q)(a) + ParteDe(t.origen, v, q)(a) {
      TrasCancelar(s, id, k', Celda(a, v));
    }
    TrasladoConserva(s.kardex, k', alms, v, t.destino, t.origen, q);
  }

  lemma {:induction false} PasoCubre(s: Estado, p: Peticion, alms: seq<AlmacenId>)
    requires EsTransferencia(p) && Cubre(alms, s)
    ensures Cubre(alms, Paso(s, p))
  {
  }

  /** Creating, receiving, cancelling or retrying a transfer neither makes nor loses goods. */
  lemma {:induction false} PasoConserva(s: Estado, p: Peticion, alms: seq<AlmacenId>, v: VarianteId)
    requires Valido(s) && EsTransferencia(p) && Cubre(alms, s)
    ensures Suma(alms, Tiene(Paso(s, p).kardex, v)) == Suma(alms, Tiene(s.kardex, v))
  {
    if Atender(s, p).Ok? {
      match p
      case PTransferir(o, d, pedidos, clave) =>
        if !SalidaConClave(s.kardex.ledger, clave) {
          CrearConserva(s, o, d, pedidos, clave, alms, v);
        }
      case PRecibir(id, pedidos, clave) => RecibirConserva(s, id, pedidos, clave, alms, v);
      case PCancelar(id) => CancelarConserva(s, id, alms, v);
    }
  }

  /** Over any series of transfer requests, in any order and with any retries, what the
      warehouses hold of a variant in stock or on its way stays the same in total. */
  lemma {:induction false} TransferenciasConservan(s: Estado, ps: seq<Peticion>, alms: seq<AlmacenId>, v: VarianteId)
    requires Valido(s) && Cubre(alms, s) && forall i :: 0 <= i < |ps| ==> EsTransferencia(ps[i])
    ensures Cubre(alms, Correr(s, ps))
    ensures Suma(alms, Tiene(Correr(s, ps).kardex, v)) == Suma(alms, Tiene(s.kardex, v))
  {
    if |ps| > 0 {
      CorrerMantiene(s, ps[..|ps| - 1]);
      TransferenciasConservan(s, ps[..|ps| - 1], alms, v);
      PasoConserva(Correr(s, ps[..|ps| - 1]), ps[|ps| - 1], alms, v);
      PasoCubre(Correr(s, ps[..|ps| - 1]), ps[|ps| - 1], alms);
    }
  }
}
