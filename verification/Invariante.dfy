/** The invariant of the stock tables and the proof that every operation keeps it. */
module Invariante {
  import opened Comun
  import opened Sumas
  import opened Kardex
  import opened Movimientos
  import opened Lotes
  import opened Existencias
  import opened Inventario

  // ------------------------------------------------------------------ the invariant

  /** What an open reservation still sets aside in cell c. */
  function PendienteEn(c: Celda): Reserva -> real {
    (r: Reserva) => if r.celda == c && ReservaAbierta(r) then r.cantidad - r.cantidadAtendida else 0.0
  }

  /** What an article of variant v still has on its way. */
  function PorLlegar(v: VarianteId): Articulo -> real {
    (a: Articulo) => if a.variante == v then a.shippedQty - a.receivedQty else 0.0
  }

  /** What an open transfer still has on its way to cell c. */
  function EnCamino(c: Celda): Transferencia -> real {
    (t: Transferencia) => if t.destino == c.almacen && TransferenciaAbierta(t) then Suma(t.articulos, PorLlegar(c.variante)) else 0.0
  }

  predicate ReservaBien(r: Reserva) {
    0.0 <= r.cantidadAtendida <= r.cantidad
  }

  ghost predicate ReservasCuadran(k: Kardex, reservas: seq<Reserva>) {
    && (forall c :: Fila(k, c).reserved == Suma(reservas, PendienteEn(c)))
    && (forall i :: 0 <= i < |reservas| ==> ReservaBien(reservas[i]))
  }

  ghost predicate VariantesDistintas(articulos: seq<Articulo>) {
    forall i, j :: 0 <= i < j < |articulos| ==> articulos[i].variante != articulos[j].variante
  }

  predicate ArticuloBien(k: Kardex, origen: AlmacenId, destino: AlmacenId, a: Articulo) {
    && 0.0 <= a.receivedQty <= a.shippedQty && a.shippedQty > 0.0
    && Celda(origen, a.variante) in k.saldos && Celda(destino, a.variante) in k.saldos
  }

  /** Received never exceeds shipped; RECIBIDA is exactly "everything arrived"; a transfer that
      is untouched or cancelled has received nothing. */
  ghost predicate TransferenciaBien(k: Kardex, t: Transferencia) {
    && t.origen != t.destino && |t.articulos| > 0 && VariantesDistintas(t.articulos)
    && (forall i :: 0 <= i < |t.articulos| ==> ArticuloBien(k, t.origen, t.destino, t.articulos[i]))
    && (t.estado == RECIBIDA <==> TodoRecibido(t.articulos))
    && (t.estado == EN_TRANSITO || t.estado == CANCELADA ==>
          forall i :: 0 <= i < |t.articulos| ==> t.articulos[i].receivedQty == 0.0)
  }

  ghost predicate TransitoCuadra(k: Kardex, ts: seq<Transferencia>) {
    && (forall c :: Fila(k, c).enTransito == Suma(ts, EnCamino(c)))
    && (forall i :: 0 <= i < |ts| ==> TransferenciaBien(k, ts[i]))
  }

  ghost predicate ConteoBien(vs: map<VarianteId, Variante>, articulos: seq<ItemConteo>) {
    && (forall i, j :: 0 <= i < j < |articulos| ==> articulos[i].variante != articulos[j].variante)
    && (forall i :: 0 <= i < |articulos| ==>
          articulos[i].variante in vs && (articulos[i].contada.Some? ==> articulos[i].contada.value >= 0.0))
  }

  ghost predicate Valido(s: Estado) {
    && Cuadra(s.kardex)
    && Firme(s.kardex, s.variantes)
    && ReservasCuadran(s.kardex, s.reservas)
    && TransitoCuadra(s.kardex, s.transferencias)
    && LotesCuadran(s.lotes, s.kardex.ledger, s.recibidos)
    && (forall i :: 0 <= i < |s.conteos| ==> ConteoBien(s.variantes, s.conteos[i].articulos))
  }

  lemma {:induction false} InicialValido()
    ensures Valido(INICIAL)
  {
    var k := INICIAL.kardex;
    forall c ensures CuadraCelda(k, c) {
    }
  }

  // ------------------------------------------------------------------ movements that only touch stock

  lemma {:induction false} SigueMantiene(s: Estado, s': Estado)
    requires Valido(s) && Sigue(s.kardex, s'.kardex, s.variantes)
    requires s'.variantes == s.variantes && s'.reservas == s.reservas && s'.transferencias == s.transferencias
    requires s'.conteos == s.conteos
    requires LotesCuadran(s'.lotes, s'.kardex.ledger, s'.recibidos)
    ensures Valido(s')
  {
    forall c ensures Fila(s'.kardex, c).reserved == Suma(s'.reservas, PendienteEn(c))
                  && Fila(s'.kardex, c).enTransito == Suma(s'.transferencias, EnCamino(c)) {
      assert SigueCelda(s.kardex, s'.kardex, s.variantes, c);
    }
  }

  lemma {:induction false} SoloKardexMantiene(s: Estado, k: Kardex)
    requires Valido(s) && Sigue(s.kardex, k, s.variantes) && SinLotes(s.kardex.ledger, k.ledger)
    ensures Valido(s.(kardex := k))
  {
    LotesCuadranSinLotes(s.lotes, s.kardex.ledger, k.ledger, s.recibidos);
    SigueMantiene(s, s.(kardex := k));
  }

  lemma {:induction false} RegistrarStockInicialMantiene(s: Estado, c: Celda, cantidad: real, costo: real, clave: string)
    requires Valido(s) && RegistrarStockInicial(s, c, cantidad, costo, clave).Ok?
    ensures Valido(RegistrarStockInicial(s, c, cantidad, costo, clave).value)
    ensures Sigue(s.kardex, RegistrarStockInicial(s, c, cantidad, costo, clave).value.kardex, s.variantes)
  {
    if ClaveUsada(s.kardex.ledger, Cliente(clave)) {
      SigueReflexiva(s.kardex, s.variantes);
    } else {
      AbrirSigue(s.kardex, c, cantidad, costo, Cliente(clave), s.variantes);
      SoloKardexMantiene(s, Abrir(s.kardex, c, cantidad, costo, Cliente(clave)).value);
    }
  }

  lemma {:induction false} CargarStockInicialMantiene(s: Estado, c: Celda, cantidad: real, costo: real)
    requires Valido(s) && CargarStockInicial(s, c, cantidad, costo).Ok?
    ensures Valido(CargarStockInicial(s, c, cantidad, costo).value)
    ensures Sigue(s.kardex, CargarStockInicial(s, c, cantidad, costo).value.kardex, s.variantes)
  {
    var clave := Apertura(c.variante, c.almacen);
    AbrirSigue(s.kardex, c, cantidad, costo, clave, s.variantes);
    SoloKardexMantiene(s, Abrir(s.kardex, c, cantidad, costo, clave).value);
  }

  lemma {:induction false} AjustarStockMantiene(s: Estado, c: Celda, esEntrada: bool, cantidad: real, costo: Option<real>,
                             clave: string, aleatorio: nat)
    requires Valido(s) && AjustarStock(s, c, esEntrada, cantidad, costo, clave, aleatorio).Ok?
    ensures Valido(AjustarStock(s, c, esEntrada, cantidad, costo, clave, aleatorio).value)
    ensures Sigue(s.kardex, AjustarStock(s, c, esEntrada, cantidad, costo, clave, aleatorio).value.kardex, s.variantes)
  {
    if clave != "" && ClaveUsada(s.kardex.ledger, Ajuste(clave)) {
      SigueReflexiva(s.kardex, s.variantes);
    } else {
      var key := ClaveAjuste(c, clave, aleatorio);
      AjustarSigue(s.kardex, c, esEntrada, cantidad, costo, key, s.variantes);
      SoloKardexMantiene(s, Ajustar(s.kardex, c, esEntrada, cantidad, costo, s.variantes[c.variante].allowNegativeStock, key).value);
    }
  }

  lemma {:induction false} DefinirNivelStockMantiene(s: Estado, c: Celda, minimo: real, maximo: real)
    requires Valido(s) && DefinirNivelStock(s, c, minimo, maximo).Ok?
    ensures Valido(DefinirNivelStock(s, c, minimo, maximo).value)
    ensures Sigue(s.kardex, DefinirNivelStock(s, c, minimo, maximo).value.kardex, s.variantes)
  {
    var k := DefinirNivelStock(s, c, minimo, maximo).value.kardex;
    forall d ensures CuadraCelda(k, d) && SigueCelda(s.kardex, k, s.variantes, d) {
      assert CuadraCelda(s.kardex, d);
    }
    SoloKardexMantiene(s, k);
  }

  // ------------------------------------------------------------------ reservations

  lemma {:induction false} CrearReservaMantiene(s: Estado, c: Celda, cantidad: real)
    requires Valido(s) && CrearReserva(s, c, cantidad).Ok?
    ensures Valido(CrearReserva(s, c, cantidad).value)
  {
    var s' := CrearReserva(s, c, cantidad).value;
    var r := Reserva(c, cantidad, 0.0, ACTIVA);
    forall d ensures CuadraCelda(s'.kardex, d) && Fila(s'.kardex, d).reserved == Suma(s'.reservas, PendienteEn(d))
                  && Fila(s'.kardex, d).enTransito == Fila(s.kardex, d).enTransito {
      assert CuadraCelda(s.kardex, d);
    }
  }

  lemma {:induction false} ReservasNoNegativas(reservas: seq<Reserva>, c: Celda, id: nat)
    requires id < |reservas| && forall i :: 0 <= i < |reservas| ==> ReservaBien(reservas[i])
    ensures PendienteEn(c)(reservas[id]) <= Suma(reservas, PendienteEn(c))
  {
    assert forall j :: 0 <= j < |reservas| ==> ReservaBien(reservas[j]);
    SumaAcota(reservas, id, PendienteEn(c));
  }

  /** The clamp to zero never fires: a reservation's pending part is part of what is set aside. */
  lemma {:induction false} LiberarReservaSinRecorte(s: Estado, id: nat)
    requires Valido(s) && LiberarReserva(s, id).Ok?
    ensures var r := s.reservas[id];
      var k' := LiberarReserva(s, id).value.kardex;
      && Fila(k', r.celda).reserved == Fila(s.kardex, r.celda).reserved - (r.cantidad - r.cantidadAtendida)
      && Fila(k', r.celda).available == Fila(s.kardex, r.celda).available + (r.cantidad - r.cantidadAtendida)
  {
    var r := s.reservas[id];
    ReservasNoNegativas(s.reservas, r.celda, id);
    assert ReservaBien(r);
    assert CuadraCelda(s.kardex, r.celda);
  }

  lemma {:induction false} LiberarReservaCelda(s: Estado, id: nat, d: Celda)
    requires Valido(s) && LiberarReserva(s, id).Ok?
    ensures var s' := LiberarReserva(s, id).value;
      && CuadraCelda(s'.kardex, d) && Fila(s'.kardex, d).reserved == Suma(s'.reservas, PendienteEn(d))
      && Fila(s'.kardex, d).enTransito == Fila(s.kardex, d).enTransito
      && Fila(s'.kardex, d).enStock == Fila(s.kardex, d).enStock
  {
    var r := s.reservas[id];
    LiberarReservaSinRecorte(s, id);
    assert CuadraCelda(s.kardex, d);
    SumaCambia(s.reservas, id, r.(estado := LIBERADA), PendienteEn(d));
    ReservasNoNegativas(s.reservas, d, id);
  }

  lemma {:induction false} LiberarReservaMantiene(s: Estado, id: nat)
    requires Valido(s) && LiberarReserva(s, id).Ok?
    ensures Valido(LiberarReserva(s, id).value)
  {
    var s' := LiberarReserva(s, id).value;
    forall d ensures CuadraCelda(s'.kardex, d) && Fila(s'.kardex, d).reserved == Suma(s'.reservas, PendienteEn(d))
                  && Fila(s'.kardex, d).enTransito == Fila(s.kardex, d).enTransito
                  && Fila(s'.kardex, d).enStock == Fila(s.kardex, d).enStock {
      LiberarReservaCelda(s, id, d);
    }
    assert ReservaBien(s.reservas[id]);
  }

  // ------------------------------------------------------------------ counts

  lemma {:induction false} FotoBien(k: Kardex, almacen: AlmacenId, orden: seq<VarianteId>, vs: map<VarianteId, Variante>)
    requires forall i, j :: 0 <= i < j < |orden| ==> orden[i] != orden[j]
    requires forall v :: v in orden ==> v in vs
    ensures var f := FotoDe(k, almacen, orden);
      && |f| == |orden| && ConteoBien(vs, f)
      && forall i :: 0 <= i < |f| ==> f[i] == ItemConteo(orden[i], Fila(k, Celda(almacen, orden[i])).enStock, None, None)
  {
    if |orden| > 0 {
      FotoBien(k, almacen, orden[..|orden| - 1], vs);
    }
  }

  lemma {:induction false} AnotarUnaMantiene(vs: map<VarianteId, Variante>, articulos: seq<ItemConteo>, p: Pedido)
    requires ConteoBien(vs, articulos) && p.cantidad >= 0.0 && AnotarContada(vs)(articulos, p).Ok?
    ensures ConteoBien(vs, AnotarContada(vs)(articulos, p).value)
  {
    var r := AnotarContada(vs)(articulos, p).value;
    assert forall i :: 0 <= i < |articulos| ==> r[i].variante == articulos[i].variante;
  }

  lemma {:induction false} AnotarMantiene(vs: map<VarianteId, Variante>, articulos: seq<ItemConteo>, contadas: seq<Pedido>)
    requires ConteoBien(vs, articulos) && forall i :: 0 <= i < |contadas| ==> contadas[i].cantidad >= 0.0
    requires Plegar(articulos, contadas, AnotarContada(vs)).Ok?
    ensures ConteoBien(vs, Plegar(articulos, contadas, AnotarContada(vs)).value)
  {
    if |contadas| > 0 {
      var previas := contadas[..|contadas| - 1];
      AnotarMantiene(vs, articulos, previas);
      AnotarUnaMantiene(vs, Plegar(articulos, previas, AnotarContada(vs)).value, contadas[|contadas| - 1]);
    }
  }

  lemma {:induction false} ContarTodosSigue(k: Kardex, vs: map<VarianteId, Variante>, almacen: AlmacenId, conteo: nat, items: seq<ItemConteo>)
    requires Cuadra(k) && Firme(k, vs) && ConteoBien(vs, items)
    requires Plegar(Contado(k, []), items, ContarItem(almacen, conteo)).Ok?
    ensures var r := Plegar(Contado(k, []), items, ContarItem(almacen, conteo)).value;
      Sigue(k, r.kardex, vs) && SinLotes(k.ledger, r.kardex.ledger)
  {
    var n := |items| - 1;
    if n < 0 {
      SigueReflexiva(k, vs);
    } else {
      ContarTodosSigue(k, vs, almacen, conteo, items[..n]);
      var p := Plegar(Contado(k, []), items[..n], ContarItem(almacen, conteo)).value.kardex;
      if items[n].contada.Some? {
        var c := Celda(almacen, items[n].variante);
        var k' := Contar(p, c, items[n].contada.value, conteo).value;
        ContarSigue(p, c, items[n].contada.value, conteo, vs);
        SigueTransitiva(k, p, k', vs);
      }
    }
  }

  /** The items of a posted count keep their variants and counted quantities. */
  lemma {:induction false} ContarTodosItems(k: Kardex, almacen: AlmacenId, conteo: nat, items: seq<ItemConteo>)
    requires Plegar(Contado(k, []), items, ContarItem(almacen, conteo)).Ok?
    ensures var r := Plegar(Contado(k, []), items, ContarItem(almacen, conteo)).value.articulos;
      && |r| == |items|
      && forall i :: 0 <= i < |items| ==> r[i].variante == items[i].variante && r[i].contada == items[i].contada
  {
    if |items| > 0 {
      ContarTodosItems(k, almacen, conteo, items[..|items| - 1]);
    }
  }

  lemma {:induction false} ContarCelda(k: Kardex, d: Celda, contada: real, conteo: nat, c: Celda)
    requires contada >= 0.0 && Contar(k, d, contada, conteo).Ok?
    ensures var k' := Contar(k, d, contada, conteo).value;
      if c == d then Fila(k', c).enStock == contada else Fila(k', c) == Fila(k, c)
  {
  }

  /** Whether an item of a count is about cell c. */
  predicate Nombra(almacen: AlmacenId, item: ItemConteo, c: Celda) {
    Celda(almacen, item.variante) == c
  }

  /** Posting a count leaves in each counted cell exactly what was counted, and does not touch
      the cells of variants it does not name. */
  lemma {:induction false} ContarTodosIguala(k: Kardex, almacen: AlmacenId, conteo: nat, items: seq<ItemConteo>, c: Celda)
    requires Plegar(Contado(k, []), items, ContarItem(almacen, conteo)).Ok?
    requires forall i, j :: 0 <= i < j < |items| ==> items[i].variante != items[j].variante
    requires forall i :: 0 <= i < |items| && items[i].contada.Some? ==> items[i].contada.value >= 0.0
    ensures var k' := Plegar(Contado(k, []), items, ContarItem(almacen, conteo)).value.kardex;
      && (forall i :: 0 <= i < |items| && Nombra(almacen, items[i], c) && items[i].contada.Some? ==>
            Fila(k', c).enStock == items[i].contada.value)
      && ((forall i :: 0 <= i < |items| ==> !Nombra(almacen, items[i], c)) ==> Fila(k', c) == Fila(k, c))
  {
    var n := |items| - 1;
    if n >= 0 {
      ContarTodosIguala(k, almacen, conteo, items[..n], c);
      if items[n].contada.Some? {
        var p := Plegar(Contado(k, []), items[..n], ContarItem(almacen, conteo)).value.kardex;
        ContarCelda(p, Celda(almacen, items[n].variante), items[n].contada.value, conteo, c);
      }
    }
  }

  lemma {:induction false} ContabilizarConteoMantiene(s: Estado, id: nat)
    requires Valido(s) && ContabilizarConteo(s, id).Ok?
    ensures Valido(ContabilizarConteo(s, id).value)
    ensures Sigue(s.kardex, ContabilizarConteo(s, id).value.kardex, s.variantes)
  {
    var c := s.conteos[id];
    assert ConteoBien(s.variantes, c.articulos);
    ContarTodosSigue(s.kardex, s.variantes, c.almacen, id, c.articulos);
    ContarTodosItems(s.kardex, c.almacen, id, c.articulos);
    var r := Plegar(Contado(s.kardex, []), c.articulos, ContarItem(c.almacen, id)).value;
    SoloKardexMantiene(s, r.kardex);
  }

  // ------------------------------------------------------------------ transfers: shipping

  function CantidadDe(v: VarianteId): Pedido -> real {
    (p: Pedido) => if p.variante == v then p.cantidad else 0.0
  }

  ghost predicate PedidosBien(ps: seq<Pedido>) {
    && (forall i, j :: 0 <= i < j < |ps| ==> ps[i].variante != ps[j].variante)
    && (forall i :: 0 <= i < |ps| ==> ps[i].cantidad > 0.0)
  }

  lemma {:induction false} AgregarBien(ps: seq<Pedido>, p: Pedido, v: VarianteId)
    requires PedidosBien(ps) && p.cantidad > 0.0
    ensures PedidosBien(Agregar(ps, p)) && |Agregar(ps, p)| > 0
    ensures Suma(Agregar(ps, p), CantidadDe(v)) == Suma(ps, CantidadDe(v)) + CantidadDe(v)(p)
  {
    match IndicePedido(ps, p.variante)
    case Some(i) =>
      var q := ps[i].(cantidad := ps[i].cantidad + p.cantidad);
      SumaCambia(ps, i, q, CantidadDe(v));
    case None =>
  }

  /** Consolidating names each variant once and loses no quantity. */
  lemma {:induction false} ConsolidarBien(ps: seq<Pedido>, v: VarianteId)
    requires forall i :: 0 <= i < |ps| ==> ps[i].cantidad > 0.0
    ensures PedidosBien(Consolidar(ps)) && (|ps| > 0 ==> |Consolidar(ps)| > 0)
    ensures Suma(Consolidar(ps), CantidadDe(v)) == Suma(ps, CantidadDe(v))
  {
    if |ps| > 0 {
      ConsolidarBien(ps[..|ps| - 1], v);
      AgregarBien(Consolidar(ps[..|ps| - 1]), ps[|ps| - 1], v);
    }
  }

  /** The part of a quantity that concerns warehouse a. */
  function EnAlmacen(a: AlmacenId, c: Celda, cantidad: real): real {
    if c.almacen == a then cantidad else 0.0
  }

  lemma {:induction false} DespachoTraslada(k: Kardex, p: Pedido, vs: map<VarianteId, Variante>, origen: AlmacenId,
                         destino: AlmacenId, t: nat, clave: string, c: Celda)
    requires Cuadra(k) && Firme(k, vs) && origen != destino && p.cantidad > 0.0
    requires DespachoDe(vs, origen, destino, t, clave)(k, p).Ok?
    ensures var k' := DespachoDe(vs, origen, destino, t, clave)(k, p).value;
      var q := CantidadDe(c.variante)(p);
      && Cuadra(k') && Firme(k', vs) && SinLotes(k.ledger, k'.ledger)
      && k'.saldos.Keys == k.saldos.Keys + {Celda(destino, p.variante)} && Celda(origen, p.variante) in k.saldos
      && CambiaCelda(k, k', vs, c, -EnAlmacen(origen, c, q), EnAlmacen(destino, c, q), 0.0)
  {
    var o, d := Celda(origen, p.variante), Celda(destino, p.variante);
    DespacharTraslada(k, o, d, p.cantidad, t, TransfSalida(clave, p.variante), vs);
    var k' := DespachoDe(vs, origen, destino, t, clave)(k, p).value;
    assert TrasladaCelda(k, k', vs, c, o, -p.cantidad, 0.0, d, p.cantidad);
  }

  /** The invariants of the two tables that a series of transfer movements keeps. */
  ghost predicate Avanza(k: Kardex, k': Kardex, vs: map<VarianteId, Variante>) {
    && Cuadra(k') && Firme(k', vs) && SinLotes(k.ledger, k'.ledger) && k.saldos.Keys <= k'.saldos.Keys
  }

  lemma {:induction false} DespachosAvanzan(k: Kardex, ps: seq<Pedido>, vs: map<VarianteId, Variante>, origen: AlmacenId,
                                           destino: AlmacenId, t: nat, clave: string)
    requires Cuadra(k) && Firme(k, vs) && origen != destino && forall i :: 0 <= i < |ps| ==> ps[i].cantidad > 0.0
    requires Plegar(k, ps, DespachoDe(vs, origen, destino, t, clave)).Ok?
    ensures Avanza(k, Plegar(k, ps, DespachoDe(vs, origen, destino, t, clave)).value, vs)
  {
    var n := |ps| - 1;
    if n >= 0 {
      DespachosAvanzan(k, ps[..n], vs, origen, destino, t, clave);
      var k1 := Plegar(k, ps[..n], DespachoDe(vs, origen, destino, t, clave)).value;
      var k' := DespachoDe(vs, origen, destino, t, clave)(k1, ps[n]).value;
      DespachoTraslada(k1, ps[n], vs, origen, destino, t, clave, Celda(origen, ps[n].variante));
    }
  }

  predicate EnAmbos(k: Kardex, origen: AlmacenId, destino: AlmacenId, v: VarianteId) {
    Celda(origen, v) in k.saldos && Celda(destino, v) in k.saldos
  }

  /** Every article shipped has a balance row at both ends. */
  lemma {:induction false} DespachosFila(k: Kardex, ps: seq<Pedido>, vs: map<VarianteId, Variante>, origen: AlmacenId,
                                         destino: AlmacenId, t: nat, clave: string, i: nat)
    requires i < |ps| && Plegar(k, ps, DespachoDe(vs, origen, destino, t, clave)).Ok?
    ensures EnAmbos(Plegar(k, ps, DespachoDe(vs, origen, destino, t, clave)).value, origen, destino, ps[i].variante)
  {
    var n := |ps| - 1;
    if i < n {
      DespachosFila(k, ps[..n], vs, origen, destino, t, clave, i);
    }
  }

  lemma {:induction false} DespachosTrasladan(k: Kardex, ps: seq<Pedido>, vs: map<VarianteId, Variante>, origen: AlmacenId,
                                             destino: AlmacenId, t: nat, clave: string, c: Celda)
    requires Cuadra(k) && Firme(k, vs) && origen != destino && forall i :: 0 <= i < |ps| ==> ps[i].cantidad > 0.0
    requires Plegar(k, ps, DespachoDe(vs, origen, destino, t, clave)).Ok?
    ensures var k' := Plegar(k, ps, DespachoDe(vs, origen, destino, t, clave)).value;
      var q := Suma(ps, CantidadDe(c.variante));
      CambiaCelda(k, k', vs, c, -EnAlmacen(origen, c, q), EnAlmacen(destino, c, q), 0.0)
  {
    var n := |ps| - 1;
    if n >= 0 {
      DespachosTrasladan(k, ps[..n], vs, origen, destino, t, clave, c);
      DespachosAvanzan(k, ps[..n], vs, origen, destino, t, clave);
      var k1 := Plegar(k, ps[..n], DespachoDe(vs, origen, destino, t, clave)).value;
      DespachoTraslada(k1, ps[n], vs, origen, destino, t, clave, c);
      var k' := DespachoDe(vs, origen, destino, t, clave)(k1, ps[n]).value;
      var q1, q2 := Suma(ps[..n], CantidadDe(c.variante)), CantidadDe(c.variante)(ps[n]);
    }
  }

  lemma {:induction false} ArticulosDeSuman(ps: seq<Pedido>, v: VarianteId)
    ensures Suma(ArticulosDe(ps), PorLlegar(v)) == Suma(ps, CantidadDe(v))
  {
    if |ps| > 0 {
      ArticulosDeSuman(ps[..|ps| - 1], v);
    }
  }

  /** Cell c changed as a transfer movement changes it, and what is on its way there is still
      what the open transfers say. */
  ghost predicate Trasladado(s: Estado, k: Kardex, ts: seq<Transferencia>, c: Celda, stock: real, transito: real, brecha: real) {
    && Fila(k, c).enTransito == Suma(ts, EnCamino(c))
    && CambiaCelda(s.kardex, k, s.variantes, c, stock, transito, brecha)
  }

  lemma {:induction false} TrasDespachar(s: Estado, origen: AlmacenId, destino: AlmacenId, pedidos: seq<Pedido>, clave: string, k: Kardex, c: Celda)
    requires Valido(s) && origen != destino && forall i :: 0 <= i < |pedidos| ==> pedidos[i].cantidad > 0.0
    requires Plegar(s.kardex, Consolidar(pedidos), DespachoDe(s.variantes, origen, destino, |s.transferencias|, clave)) == Ok(k)
    ensures var ts := s.transferencias + [Transferencia(origen, destino, EN_TRANSITO, ArticulosDe(Consolidar(pedidos)))];
      var q := Suma(pedidos, CantidadDe(c.variante));
      Trasladado(s, k, ts, c, -EnAlmacen(origen, c, q), EnAlmacen(destino, c, q), 0.0)
  {
    var ps := Consolidar(pedidos);
    ConsolidarBien(pedidos, c.variante);
    DespachosTrasladan(s.kardex, ps, s.variantes, origen, destino, |s.transferencias|, clave, c);
    ArticulosDeSuman(ps, c.variante);
  }

  /** Shipping moves each variant's requested total out of the origin and onto the way to the
      destination, and touches nothing else. */
  lemma {:induction false} CrearTransferenciaCelda(s: Estado, origen: AlmacenId, destino: AlmacenId, pedidos: seq<Pedido>, clave: string, c: Celda)
    requires Valido(s) && CrearTransferencia(s, origen, destino, pedidos, clave).Ok? && !SalidaConClave(s.kardex.ledger, clave)
    ensures var s' := CrearTransferencia(s, origen, destino, pedidos, clave).value;
      var q := Suma(pedidos, CantidadDe(c.variante));
      Trasladado(s, s'.kardex, s'.transferencias, c, -EnAlmacen(origen, c, q), EnAlmacen(destino, c, q), 0.0)
  {
    TrasDespachar(s, origen, destino, pedidos, clave, CrearTransferencia(s, origen, destino, pedidos, clave).value.kardex, c);
  }

  lemma {:induction false} CrearTransferenciaMantiene(s: Estado, origen: AlmacenId, destino: AlmacenId, pedidos: seq<Pedido>, clave: string)
    requires Valido(s) && CrearTransferencia(s, origen, destino, pedidos, clave).Ok?
    ensures Valido(CrearTransferencia(s, origen, destino, pedidos, clave).value)
  {
    var s' := CrearTransferencia(s, origen, destino, pedidos, clave).value;
    if !SalidaConClave(s.kardex.ledger, clave) {
      var ps, id := Consolidar(pedidos), |s.transferencias|;
      ConsolidarBien(pedidos, 0);
      forall c
        ensures Fila(s'.kardex, c).enTransito == Suma(s'.transferencias, EnCamino(c))
        ensures Fila(s'.kardex, c).reserved == Fila(s.kardex, c).reserved
      {
        CrearTransferenciaCelda(s, origen, destino, pedidos, clave, c);
      }
      DespachosAvanzan(s.kardex, ps, s.variantes, origen, destino, id, clave);
      forall i | 0 <= i < |ps| ensures EnAmbos(s'.kardex, origen, destino, ps[i].variante) {
        DespachosFila(s.kardex, ps, s.variantes, origen, destino, id, clave, i);
      }
      CierraTransferencia(s, s', id);
    }
  }

  /** The parts of the invariant a transfer operation does not reach by itself. */
  lemma {:induction false} CierraTransferencia(s: Estado, s': Estado, id: nat)
    requires Valido(s) && id <= |s.transferencias| && id < |s'.transferencias|
    requires s' == s.(kardex := s'.kardex, transferencias := s'.transferencias)
    requires id < |s.transferencias| ==> s'.transferencias == s.transferencias[id := s'.transferencias[id]]
    requires id == |s.transferencias| ==> s'.transferencias == s.transferencias + [s'.transferencias[id]]
    requires Cuadra(s'.kardex) && Firme(s'.kardex, s.variantes) && SinLotes(s.kardex.ledger, s'.kardex.ledger)
    requires s.kardex.saldos.Keys <= s'.kardex.saldos.Keys
    requires forall c :: Fila(s'.kardex, c).reserved == Fila(s.kardex, c).reserved
    requires forall c :: Fila(s'.kardex, c).enTransito == Suma(s'.transferencias, EnCamino(c))
    requires TransferenciaBien(s'.kardex, s'.transferencias[id])
    ensures Valido(s')
  {
    LotesCuadranSinLotes(s.lotes, s.kardex.ledger, s'.kardex.ledger, s.recibidos);
    forall i | 0 <= i < |s'.transferencias| ensures TransferenciaBien(s'.kardex, s'.transferencias[i]) {
      if i != id {
        assert s'.transferencias[i] == s.transferencias[i];
      }
    }
  }

  // ------------------------------------------------------------------ transfers: receiving

  /** Nothing on its way is negative, so each open article's pending part is within the balance. */
  lemma {:induction false} EnCaminoAcotado(k: Kardex, ts: seq<Transferencia>, id: nat, j: nat)
    requires TransitoCuadra(k, ts) && id < |ts| && TransferenciaAbierta(ts[id]) && j < |ts[id].articulos|
    ensures var a := ts[id].articulos[j];
      Fila(k, Celda(ts[id].destino, a.variante)).enTransito >= a.shippedQty - a.receivedQty
  {
    var t := ts[id];
    var c := Celda(t.destino, t.articulos[j].variante);
    forall i | 0 <= i < |ts| ensures EnCamino(c)(ts[i]) >= 0.0 {
      PorLlegarNoNegativo(k, ts[i], c.variante);
    }
    SumaAcota(ts, id, EnCamino(c));
    PorLlegarNoNegativo(k, t, c.variante);
    SumaAcota(t.articulos, j, PorLlegar(c.variante));
  }

  lemma {:induction false} PorLlegarNoNegativo(k: Kardex, t: Transferencia, v: VarianteId)
    requires TransferenciaBien(k, t)
    ensures forall j :: 0 <= j < |t.articulos| ==> PorLlegar(v)(t.articulos[j]) >= 0.0
    ensures Suma(t.articulos, PorLlegar(v)) >= 0.0
  {
    forall j | 0 <= j < |t.articulos| ensures PorLlegar(v)(t.articulos[j]) >= 0.0 {
      assert ArticuloBien(k, t.origen, t.destino, t.articulos[j]);
    }
    SumaNoNegativa(t.articulos, PorLlegar(v));
  }

  function RecibeDe(ps: seq<Pedido>, v: VarianteId): Articulo -> real {
    (a: Articulo) => if a.variante == v then Recibe(ps, v) else 0.0
  }

  /** The articles after a reception: each gains exactly what the request names, never more
      than was shipped. */
  ghost predicate ArticulosTras(ps: seq<Pedido>, antes: seq<Articulo>, despues: seq<Articulo>) {
    && |despues| == |antes|
    && forall i :: 0 <= i < |antes| ==>
         && despues[i] == antes[i].(receivedQty := antes[i].receivedQty + Recibe(ps, antes[i].variante))
         && despues[i].receivedQty <= antes[i].shippedQty
  }

  ghost predicate PorRecibir(k: Kardex, destino: AlmacenId, items: seq<Articulo>) {
    && VariantesDistintas(items)
    && forall i :: 0 <= i < |items| ==>
         && items[i].receivedQty <= items[i].shippedQty
         && Fila(k, Celda(destino, items[i].variante)).enTransito >= items[i].shippedQty - items[i].receivedQty
  }

  lemma {:induction false} RecibirItemTraslada(a: Recibido, ledger: seq<Asiento>, ps: seq<Pedido>, vs: map<VarianteId, Variante>,
                            destino: AlmacenId, t: nat, clave: string, item: Articulo, c: Celda)
    requires Cuadra(a.kardex) && Firme(a.kardex, vs)
    requires Fila(a.kardex, Celda(destino, item.variante)).enTransito >= item.shippedQty - item.receivedQty
    requires RecibirItem(ledger, ps, destino, t, clave)(a, item).Ok?
    ensures var r := RecibirItem(ledger, ps, destino, t, clave)(a, item).value;
      var q := EnAlmacen(destino, c, RecibeDe(ps, c.variante)(item));
      && Cuadra(r.kardex) && Firme(r.kardex, vs) && SinLotes(a.kardex.ledger, r.kardex.ledger)
      && r.kardex.saldos.Keys == a.kardex.saldos.Keys
      && CambiaCelda(a.kardex, r.kardex, vs, c, q, -q, 0.0)
  {
    var q, d := Recibe(ps, item.variante), Celda(destino, item.variante);
    var r := RecibirItem(ledger, ps, destino, t, clave)(a, item).value;
    if q != 0.0 {
      RecibirTraslada(a.kardex, d, q, CostoDe(ledger, t, item.variante), t, TransfEntrada(clave, item.variante), vs);
      assert TrasladaCelda(a.kardex, r.kardex, vs, c, d, q, 0.0, d, -q);
    }
  }

  lemma {:induction false} RecepcionesTrasladan(k: Kardex, ledger: seq<Asiento>, ps: seq<Pedido>, vs: map<VarianteId, Variante>,
                                               destino: AlmacenId, t: nat, clave: string, items: seq<Articulo>, c: Celda)
    requires Cuadra(k) && Firme(k, vs) && PorRecibir(k, destino, items)
    requires Plegar(Recibido(k, []), items, RecibirItem(ledger, ps, destino, t, clave)).Ok?
    ensures var r := Plegar(Recibido(k, []), items, RecibirItem(ledger, ps, destino, t, clave)).value;
      var q := EnAlmacen(destino, c, Suma(items, RecibeDe(ps, c.variante)));
      && Avanza(k, r.kardex, vs) && r.kardex.saldos.Keys == k.saldos.Keys
      && CambiaCelda(k, r.kardex, vs, c, q, -q, 0.0)
  {
    var n := |items| - 1;
    if n >= 0 {
      var item, previos := items[n], items[..n];
      var d := Celda(destino, item.variante);
      RecepcionesTrasladan(k, ledger, ps, vs, destino, t, clave, previos, c);
      RecepcionesTrasladan(k, ledger, ps, vs, destino, t, clave, previos, d);
      SumaNula(previos, RecibeDe(ps, item.variante));
      var p := Plegar(Recibido(k, []), previos, RecibirItem(ledger, ps, destino, t, clave)).value;
      RecibirItemTraslada(p, ledger, ps, vs, destino, t, clave, item, c);
      var r := RecibirItem(ledger, ps, destino, t, clave)(p, item).value;
      var q1 := EnAlmacen(destino, c, Suma(previos, RecibeDe(ps, c.variante)));
      var q2 := EnAlmacen(destino, c, RecibeDe(ps, c.variante)(item));
    }
  }

  lemma {:induction false} RecepcionesArticulos(k: Kardex, ledger: seq<Asiento>, ps: seq<Pedido>, destino: AlmacenId,
                                               t: nat, clave: string, items: seq<Articulo>)
    requires Plegar(Recibido(k, []), items, RecibirItem(ledger, ps, destino, t, clave)).Ok?
    requires forall i :: 0 <= i < |items| ==> items[i].receivedQty <= items[i].shippedQty
    ensures ArticulosTras(ps, items, Plegar(Recibido(k, []), items, RecibirItem(ledger, ps, destino, t, clave)).value.articulos)
  {
    var n := |items| - 1;
    if n >= 0 {
      var item, previos := items[n], items[..n];
      RecepcionesArticulos(k, ledger, ps, destino, t, clave, previos);
      var p := Plegar(Recibido(k, []), previos, RecibirItem(ledger, ps, destino, t, clave)).value;
      assert items == previos + [item];
    }
  }

  /** What an article no longer has on its way is what was received of it. */
  lemma {:induction false} ArticulosTrasSuman(ps: seq<Pedido>, antes: seq<Articulo>, despues: seq<Articulo>, v: VarianteId)
    requires ArticulosTras(ps, antes, despues)
    ensures Suma(despues, PorLlegar(v)) == Suma(antes, PorLlegar(v)) - Suma(antes, RecibeDe(ps, v))
  {
    if |antes| > 0 {
      ArticulosTrasSuman(ps, antes[..|antes| - 1], despues[..|antes| - 1], v);
    }
  }

  lemma {:induction false} TransferenciaPorRecibir(s: Estado, id: nat)
    requires Valido(s) && id < |s.transferencias| && TransferenciaAbierta(s.transferencias[id])
    ensures PorRecibir(s.kardex, s.transferencias[id].destino, s.transferencias[id].articulos)
  {
    var t := s.transferencias[id];
    assert TransferenciaBien(s.kardex, t);
    forall i | 0 <= i < |t.articulos|
      ensures Fila(s.kardex, Celda(t.destino, t.articulos[i].variante)).enTransito >= t.articulos[i].shippedQty - t.articulos[i].receivedQty
           && t.articulos[i].receivedQty <= t.articulos[i].shippedQty {
      assert ArticuloBien(s.kardex, t.origen, t.destino, t.articulos[i]);
      EnCaminoAcotado(s.kardex, s.transferencias, id, i);
    }
  }

  lemma {:induction false} TransferenciaTrasRecibir(k: Kardex, k': Kardex, t: Transferencia, ps: seq<Pedido>, articulos: seq<Articulo>)
    requires TransferenciaBien(k, t) && TransferenciaAbierta(t) && k'.saldos.Keys == k.saldos.Keys
    requires ArticulosTras(ps, t.articulos, articulos)
    ensures TransferenciaBien(k', t.(articulos := articulos,
              estado := if TodoRecibido(articulos) then RECIBIDA else RECIBIDA_PARCIALMENTE))
  {
    forall i | 0 <= i < |articulos| ensures ArticuloBien(k', t.origen, t.destino, articulos[i]) {
      assert ArticuloBien(k, t.origen, t.destino, t.articulos[i]);
    }
  }

  /** A transfer that arrived in full has nothing on its way. */
  lemma {:induction false} NadaPorLlegar(k: Kardex, t: Transferencia, v: VarianteId)
    requires TransferenciaBien(k, t)
    ensures t.estado == RECIBIDA ==> Suma(t.articulos, PorLlegar(v)) == 0.0
  {
    if t.estado == RECIBIDA {
      assert forall i :: 0 <= i < |t.articulos| ==> ArticuloBien(k, t.origen, t.destino, t.articulos[i]);
      SumaNula(t.articulos, PorLlegar(v));
    }
  }

  lemma {:induction false} TrasRecibir(s: Estado, id: nat, ps: seq<Pedido>, clave: string, r: Recibido, c: Celda)
    requires Valido(s) && id < |s.transferencias| && TransferenciaAbierta(s.transferencias[id])
    requires var t := s.transferencias[id];
      Plegar(Recibido(s.kardex, []), t.articulos, RecibirItem(s.kardex.ledger, ps, t.destino, id, clave)) == Ok(r)
    ensures var t := s.transferencias[id];
      var t' := t.(articulos := r.articulos, estado := if TodoRecibido(r.articulos) then RECIBIDA else RECIBIDA_PARCIALMENTE);
      var q := EnAlmacen(t.destino, c, Suma(t.articulos, RecibeDe(ps, c.variante)));
      && Trasladado(s, r.kardex, s.transferencias[id := t'], c, q, -q, 0.0)
      && Avanza(s.kardex, r.kardex, s.variantes)
      && TransferenciaBien(r.kardex, t')
      && ArticulosTras(ps, t.articulos, r.articulos)
  {
    var t := s.transferencias[id];
    var t' := t.(articulos := r.articulos, estado := if TodoRecibido(r.articulos) then RECIBIDA else RECIBIDA_PARCIALMENTE);
    TransferenciaPorRecibir(s, id);
    RecepcionesTrasladan(s.kardex, s.kardex.ledger, ps, s.variantes, t.destino, id, clave, t.articulos, c);
    RecepcionesArticulos(s.kardex, s.kardex.ledger, ps, t.destino, id, clave, t.articulos);
    ArticulosTrasSuman(ps, t.articulos, r.articulos, c.variante);
    TransferenciaTrasRecibir(s.kardex, r.kardex, t, ps, r.articulos);
    NadaPorLlegar(r.kardex, t', c.variante);
    SumaCambia(s.transferencias, id, t', EnCamino(c));
  }

  /** A reception moves what the request names from on its way to in stock at the destination,
      and adds it to what each article has received. */
  lemma {:induction false} RecibirTransferenciaCelda(s: Estado, id: nat, pedidos: seq<Pedido>, clave: string, c: Celda)
    requires Valido(s) && RecibirTransferencia(s, id, pedidos, clave).Ok? && !EntradaConClave(s.kardex.ledger, clave)
    ensures var s', t := RecibirTransferencia(s, id, pedidos, clave).value, s.transferencias[id];
      var ps := Consolidar(SoloPositivos(pedidos));
      var q := EnAlmacen(t.destino, c, Suma(t.articulos, RecibeDe(ps, c.variante)));
      && Trasladado(s, s'.kardex, s'.transferencias, c, q, -q, 0.0)
      && Avanza(s.kardex, s'.kardex, s.variantes)
      && TransferenciaBien(s'.kardex, s'.transferencias[id])
      && ArticulosTras(ps, t.articulos, s'.transferencias[id].articulos)
  {
    var s' := RecibirTransferencia(s, id, pedidos, clave).value;
    TrasRecibir(s, id, Consolidar(SoloPositivos(pedidos)), clave, Recibido(s'.kardex, s'.transferencias[id].articulos), c);
  }

  lemma {:induction false} RecibirTransferenciaMantiene(s: Estado, id: nat, pedidos: seq<Pedido>, clave: string)
    requires Valido(s) && RecibirTransferencia(s, id, pedidos, clave).Ok?
    ensures Valido(RecibirTransferencia(s, id, pedidos, clave).value)
  {
    var s' := RecibirTransferencia(s, id, pedidos, clave).value;
    if !EntradaConClave(s.kardex.ledger, clave) {
      forall c
        ensures Fila(s'.kardex, c).enTransito == Suma(s'.transferencias, EnCamino(c))
        ensures Fila(s'.kardex, c).reserved == Fila(s.kardex, c).reserved
      {
        RecibirTransferenciaCelda(s, id, pedidos, clave, c);
      }
      RecibirTransferenciaCelda(s, id, pedidos, clave, Celda(0, 0));
      CierraTransferencia(s, s', id);
    }
  }

  // ------------------------------------------------------------------ transfers: cancelling

  function EnviadoDe(v: VarianteId): Articulo -> real {
    (a: Articulo) => if a.variante == v then a.shippedQty else 0.0
  }

  /** Value a cancellation creates in the origin: the shipped quantity at today's average
      instead of at the cost it left with. */
  function FugaDe(k: Kardex, ledger: seq<Asiento>, t: nat, c: Celda): Articulo -> real {
    (a: Articulo) =>
      if a.variante == c.variante
      then Valor(a.shippedQty, Fila(k, c).costoPromedio) - Valor(a.shippedQty, CostoDe(ledger, t, c.variante)) else 0.0
  }

  ghost predicate PorCancelar(k: Kardex, origen: AlmacenId, destino: AlmacenId, items: seq<Articulo>) {
    && VariantesDistintas(items) && origen != destino
    && forall i :: 0 <= i < |items| ==>
         && ArticuloBien(k, origen, destino, items[i])
         && Fila(k, Celda(destino, items[i].variante)).enTransito >= items[i].shippedQty
  }

  lemma {:induction false} CancelarItemTraslada(k0: Kardex, k: Kardex, ledger: seq<Asiento>, vs: map<VarianteId, Variante>, origen: AlmacenId,
                             destino: AlmacenId, t: nat, item: Articulo, c: Celda)
    requires Cuadra(k) && Firme(k, vs) && origen != destino && ArticuloBien(k, origen, destino, item)
    requires Fila(k, Celda(destino, item.variante)).enTransito >= item.shippedQty
    requires Fila(k, Celda(origen, item.variante)).costoPromedio == Fila(k0, Celda(origen, item.variante)).costoPromedio
    requires CancelarItem(ledger, origen, destino, t)(k, item).Ok?
    ensures var k' := CancelarItem(ledger, origen, destino, t)(k, item).value;
      var q := EnviadoDe(c.variante)(item);
      && Cuadra(k') && Firme(k', vs) && SinLotes(k.ledger, k'.ledger) && k'.saldos.Keys == k.saldos.Keys
      && Fila(k', c).costoPromedio == Fila(k, c).costoPromedio
      && CambiaCelda(k, k', vs, c, EnAlmacen(origen, c, q), -EnAlmacen(destino, c, q),
                     EnAlmacen(origen, c, FugaDe(k0, ledger, t, c)(item)))
  {
    var o, d := Celda(origen, item.variante), Celda(destino, item.variante);
    var costo := CostoDe(ledger, t, item.variante);
    CancelarTraslada(k, o, d, item.shippedQty, costo, t, vs);
    var k' := CancelarItem(ledger, origen, destino, t)(k, item).value;
    assert TrasladaCelda(k, k', vs, c, o, item.shippedQty,
                         Valor(item.shippedQty, k.saldos[o].costoPromedio) - Valor(item.shippedQty, costo), d, -item.shippedQty);
  }

  lemma {:induction false} CancelacionesTrasladan(k: Kardex, ledger: seq<Asiento>, vs: map<VarianteId, Variante>, origen: AlmacenId,
                                                 destino: AlmacenId, t: nat, items: seq<Articulo>, c: Celda)
    requires Cuadra(k) && Firme(k, vs) && PorCancelar(k, origen, destino, items)
    requires Plegar(k, items, CancelarItem(ledger, origen, destino, t)).Ok?
    ensures var k' := Plegar(k, items, CancelarItem(ledger, origen, destino, t)).value;
      var q := Suma(items, EnviadoDe(c.variante));
      && Avanza(k, k', vs) && k'.saldos.Keys == k.saldos.Keys
      && Fila(k', c).costoPromedio == Fila(k, c).costoPromedio
      && CambiaCelda(k, k', vs, c, EnAlmacen(origen, c, q), -EnAlmacen(destino, c, q),
                     EnAlmacen(origen, c, Suma(items, FugaDe(k, ledger, t, c))))
  {
    var n := |items| - 1;
    if n >= 0 {
      var item, previos := items[n], items[..n];
      assert ArticuloBien(k, origen, destino, item);
      CancelacionesTrasladan(k, ledger, vs, origen, destino, t, previos, c);
      CancelacionesTrasladan(k, ledger, vs, origen, destino, t, previos, Celda(origen, item.variante));
      CancelacionesTrasladan(k, ledger, vs, origen, destino, t, previos, Celda(destino, item.variante));
      SumaNula(previos, EnviadoDe(item.variante));
      var p := Plegar(k, previos, CancelarItem(ledger, origen, destino, t)).value;
      CancelarItemTraslada(k, p, ledger, vs, origen, destino, t, item, c);
      var k' := CancelarItem(ledger, origen, destino, t)(p, item).value;
      var q1, q2 := Suma(previos, EnviadoDe(c.variante)), EnviadoDe(c.variante)(item);
      var f1, f2 := Suma(previos, FugaDe(k, ledger, t, c)), FugaDe(k, ledger, t, c)(item);
    }
  }

  lemma {:induction false} TransferenciaPorCancelar(s: Estado, id: nat, v: VarianteId)
    requires Valido(s) && id < |s.transferencias| && s.transferencias[id].estado == EN_TRANSITO
    ensures var t := s.transferencias[id];
      && PorCancelar(s.kardex, t.origen, t.destino, t.articulos)
      && Suma(t.articulos, PorLlegar(v)) == Suma(t.articulos, EnviadoDe(v))
  {
    var t := s.transferencias[id];
    assert TransferenciaBien(s.kardex, t);
    forall i | 0 <= i < |t.articulos|
      ensures Fila(s.kardex, Celda(t.destino, t.articulos[i].variante)).enTransito >= t.articulos[i].shippedQty {
      EnCaminoAcotado(s.kardex, s.transferencias, id, i);
    }
    SumaIgual(t.articulos, PorLlegar(v), EnviadoDe(v));
  }

  lemma {:induction false} CancelarEnCamino(ts: seq<Transferencia>, id: nat, c: Celda)
    requires id < |ts| && TransferenciaAbierta(ts[id])
    ensures Suma(ts[id := ts[id].(estado := CANCELADA)], EnCamino(c))
         == Suma(ts, EnCamino(c)) - EnAlmacen(ts[id].destino, c, Suma(ts[id].articulos, PorLlegar(c.variante)))
  {
    SumaCambia(ts, id, ts[id].(estado := CANCELADA), EnCamino(c));
  }

  lemma {:induction false} TrasCancelar(s: Estado, id: nat, k: Kardex, c: Celda)
    requires Valido(s) && id < |s.transferencias| && s.transferencias[id].estado == EN_TRANSITO
    requires var t := s.transferencias[id];
      Plegar(s.kardex, t.articulos, CancelarItem(s.kardex.ledger, t.origen, t.destino, id)) == Ok(k)
    ensures var t := s.transferencias[id];
      var q := Suma(t.articulos, EnviadoDe(c.variante));
      var fuga := Suma(t.articulos, FugaDe(s.kardex, s.kardex.ledger, id, c));
      && Trasladado(s, k, s.transferencias[id := t.(estado := CANCELADA)], c,
                    EnAlmacen(t.origen, c, q), -EnAlmacen(t.destino, c, q), EnAlmacen(t.origen, c, fuga))
      && Avanza(s.kardex, k, s.variantes) && k.saldos.Keys == s.kardex.saldos.Keys
  {
    var t := s.transferencias[id];
    TransferenciaPorCancelar(s, id, c.variante);
    CancelacionesTrasladan(s.kardex, s.kardex.ledger, s.variantes, t.origen, t.destino, id, t.articulos, c);
    CancelarEnCamino(s.transferencias, id, c);
  }

  /** Cancelling gives the shipped quantities back to the origin and takes them off the way;
      the gap between carried and recorded value moves only in the origin. */
  lemma {:induction false} CancelarTransferenciaCelda(s: Estado, id: nat, c: Celda)
    requires Valido(s) && CancelarTransferencia(s, id).Ok?
    ensures var s', t := CancelarTransferencia(s, id).value, s.transferencias[id];
      var q := Suma(t.articulos, EnviadoDe(c.variante));
      var fuga := Suma(t.articulos, FugaDe(s.kardex, s.kardex.ledger, id, c));
      && Trasladado(s, s'.kardex, s'.transferencias, c,
                    EnAlmacen(t.origen, c, q), -EnAlmacen(t.destino, c, q), EnAlmacen(t.origen, c, fuga))
      && Avanza(s.kardex, s'.kardex, s.variantes) && s'.kardex.saldos.Keys == s.kardex.saldos.Keys
  {
    TrasCancelar(s, id, CancelarTransferencia(s, id).value.kardex, c);
  }

  lemma {:induction false} CancelarTransferenciaMantiene(s: Estado, id: nat)
    requires Valido(s) && CancelarTransferencia(s, id).Ok?
    ensures Valido(CancelarTransferencia(s, id).value)
  {
    var s' := CancelarTransferencia(s, id).value;
    forall c
      ensures Fila(s'.kardex, c).enTransito == Suma(s'.transferencias, EnCamino(c))
      ensures Fila(s'.kardex, c).reserved == Fila(s.kardex, c).reserved
    {
      CancelarTransferenciaCelda(s, id, c);
    }
    CancelarTransferenciaCelda(s, id, Celda(0, 0));
    assert TransferenciaBien(s.kardex, s.transferencias[id]) && TransferenciaBien(s'.kardex, s.transferencias[id]);
    CierraTransferencia(s, s', id);
  }

  // ------------------------------------------------------------------ purchases, sales, refunds

  lemma {:induction false} IngresosSiguen(s: Estado, almacen: AlmacenId, recepcion: nat, items: seq<ItemCompra>)
    requires Valido(s)
    requires forall i :: 0 <= i < |items| ==> items[i].cantidad > 0.0 && items[i].variante in s.variantes
    requires Plegar(Entrada(s.kardex, s.lotes, s.recibidos), items, IngresarItem(almacen, recepcion)).Ok?
    ensures var r := Plegar(Entrada(s.kardex, s.lotes, s.recibidos), items, IngresarItem(almacen, recepcion)).value;
      Sigue(s.kardex, r.kardex, s.variantes) && LotesCuadran(r.lotes, r.kardex.ledger, r.recibidos)
  {
    var n := |items| - 1;
    if n < 0 {
      SigueReflexiva(s.kardex, s.variantes);
    } else {
      IngresosSiguen(s, almacen, recepcion, items[..n]);
      var p := Plegar(Entrada(s.kardex, s.lotes, s.recibidos), items[..n], IngresarItem(almacen, recepcion)).value;
      var item, c := items[n], Celda(almacen, items[n].variante);
      var k := Ingresar(p.kardex, c, item.cantidad, item.costoUnitario, recepcion).value;
      IngresarSigue(p.kardex, c, item.cantidad, item.costoUnitario, recepcion, s.variantes);
      SigueTransitiva(s.kardex, p.kardex, k, s.variantes);
      LotesCuadranSinLotes(p.lotes, p.kardex.ledger, k.ledger, p.recibidos);
      RegistrarLoteCuadra(p.lotes, k.ledger, p.recibidos,
                          ItemRecepcion(recepcion, c, item.cantidad, item.costoUnitario, item.lotNumber, item.venceEn));
    }
  }

  lemma {:induction false} RecepcionarMantiene(s: Estado, clave: string, numero: string, almacen: AlmacenId, items: seq<ItemCompra>)
    requires Valido(s) && Recepcionar(s, clave, numero, almacen, items).Ok?
    ensures Valido(Recepcionar(s, clave, numero, almacen, items).value)
    ensures Sigue(s.kardex, Recepcionar(s, clave, numero, almacen, items).value.kardex, s.variantes)
  {
    if RecepcionConClave(s.recepciones, clave) {
      SigueReflexiva(s.kardex, s.variantes);
    } else {
      IngresosSiguen(s, almacen, |s.recepciones|, items);
      SigueMantiene(s, Recepcionar(s, clave, numero, almacen, items).value);
    }
  }

  lemma {:induction false} LineasSiguen(s: Estado, venta: nat, hoy: nat, lineas: seq<LineaStock>)
    requires Valido(s) && forall i :: 0 <= i < |lineas| ==> lineas[i].cantidad > 0.0
    requires Plegar(Existencias(s.kardex, s.lotes), lineas, VenderLinea(s.variantes, venta, hoy)).Ok?
    ensures var e := Plegar(Existencias(s.kardex, s.lotes), lineas, VenderLinea(s.variantes, venta, hoy)).value;
      Sigue(s.kardex, e.kardex, s.variantes) && LotesCuadran(e.lotes, e.kardex.ledger, s.recibidos)
  {
    var n := |lineas| - 1;
    if n < 0 {
      SigueReflexiva(s.kardex, s.variantes);
    } else {
      LineasSiguen(s, venta, hoy, lineas[..n]);
      var e := Plegar(Existencias(s.kardex, s.lotes), lineas[..n], VenderLinea(s.variantes, venta, hoy)).value;
      var l := lineas[n];
      if s.variantes[l.celda.variante].isStockTracked {
        var permite := s.variantes[l.celda.variante].allowNegativeStock;
        RegistrarLineaSigue(e, l, venta, hoy, s.variantes);
        SigueTransitiva(s.kardex, e.kardex, RegistrarLinea(e, l, permite, venta, hoy).value.kardex, s.variantes);
        RegistrarLineaLotes(e, l, permite, venta, hoy, s.recibidos);
      }
    }
  }

  lemma {:induction false} VenderMantiene(s: Estado, venta: nat, lineas: seq<LineaStock>, hoy: nat)
    requires Valido(s) && Vender(s, venta, lineas, hoy).Ok?
    ensures Valido(Vender(s, venta, lineas, hoy).value)
    ensures Sigue(s.kardex, Vender(s, venta, lineas, hoy).value.kardex, s.variantes)
  {
    LineasSiguen(s, venta, hoy, lineas);
    SigueMantiene(s, Vender(s, venta, lineas, hoy).value);
  }

  lemma {:induction false} ReingresosSiguen(k: Kardex, vs: map<VarianteId, Variante>, devolucion: nat, items: seq<Reingreso>)
    requires Cuadra(k) && Firme(k, vs) && forall i :: 0 <= i < |items| ==> items[i].cantidad > 0.0
    requires Plegar(k, items, ReingresarUno(vs, devolucion)).Ok?
    ensures var k' := Plegar(k, items, ReingresarUno(vs, devolucion)).value;
      Sigue(k, k', vs) && SinLotes(k.ledger, k'.ledger)
  {
    var n := |items| - 1;
    if n < 0 {
      SigueReflexiva(k, vs);
    } else {
      ReingresosSiguen(k, vs, devolucion, items[..n]);
      var p := Plegar(k, items[..n], ReingresarUno(vs, devolucion)).value;
      ReingresarSigue(p, items[n].celda, items[n].cantidad, devolucion, vs);
      SigueTransitiva(k, p, Reingresar(p, items[n].celda, items[n].cantidad, devolucion).value, vs);
    }
  }

  lemma {:induction false} ReingresarStockMantiene(s: Estado, devolucion: nat, items: seq<Reingreso>)
    requires Valido(s) && ReingresarStock(s, devolucion, items).Ok?
    ensures Valido(ReingresarStock(s, devolucion, items).value)
    ensures Sigue(s.kardex, ReingresarStock(s, devolucion, items).value.kardex, s.variantes)
  {
    ReingresosSiguen(s.kardex, s.variantes, devolucion, items);
    SoloKardexMantiene(s, ReingresarStock(s, devolucion, items).value.kardex);
  }

  // ------------------------------------------------------------------ tables of their own

  lemma {:induction false} CrearConteoMantiene(s: Estado, almacen: AlmacenId, orden: seq<VarianteId>)
    requires Valido(s) && CrearConteo(s, almacen, orden).Ok?
    ensures Valido(CrearConteo(s, almacen, orden).value)
  {
    FotoBien(s.kardex, almacen, orden, s.variantes);
  }

  lemma {:induction false} RegistrarConteoMantiene(s: Estado, id: nat, contadas: seq<Pedido>)
    requires Valido(s) && RegistrarConteo(s, id, contadas).Ok?
    ensures Valido(RegistrarConteo(s, id, contadas).value)
  {
    AnotarMantiene(s.variantes, s.conteos[id].articulos, contadas);
  }

  lemma {:induction false} CancelarConteoMantiene(s: Estado, id: nat)
    requires Valido(s) && CancelarConteo(s, id).Ok?
    ensures Valido(CancelarConteo(s, id).value)
  {
    assert ConteoBien(s.variantes, s.conteos[id].articulos);
  }

}
