/** When a transfer can be made, received and cancelled and when a count can be posted, in any reachable
    state: conditions on what the caller sees, with nothing left to the tables' own constraints. */
module Traslados {
  import opened Comun
  import opened Sumas
  import opened Kardex
  import opened Movimientos
  import opened Lotes
  import opened Existencias
  import opened Inventario
  import opened Invariante
  import opened Corridas
  import opened Guardas
  import opened Autoria

  /** A loop whose turns do not decide for one another succeeds exactly when each could be made first. */
  lemma {:induction false} PlegarSii<S(!new), T(!new)>(s: S, xs: seq<T>, paso: (S, T) -> Resultado<S>, G: (S, T) -> bool)
    requires SinDuplicados(xs)
    requires forall z, x {:trigger paso(z, x)} :: x in xs ==> (paso(z, x).Ok? <==> G(z, x))
    requires forall z, x, y {:trigger paso(z, x), G(z, y)} :: x in xs && y in xs && x != y && paso(z, x).Ok? ==> (G(paso(z, x).value, y) <==> G(z, y))
    ensures Plegar(s, xs, paso).Ok? <==> forall x :: x in xs ==> G(s, x)
  {
    if |xs| > 0 {
      var n := |xs| - 1;
      assert xs == xs[..n] + [xs[n]];
      PlegarSii(s, xs[..n], paso, G);
      assert xs[n] !in xs[..n];
      var g := G(s, xs[n]);
      forall z, x {:trigger paso(z, x)} | x in xs[..n] && G(z, xs[n]) == g && paso(z, x).Ok? ensures G(paso(z, x).value, xs[n]) == g {
        assert x in xs && xs[n] in xs && x != xs[n];
      }
      PlegarConserva(s, xs[..n], paso, (z: S) => G(z, xs[n]) == g);
    }
  }

  // ------------------------------------------------------------------ keys that can only be used once

  /** Keys of each kind are only on entries of their kind. */
  lemma {:induction false} ClavesDeSuTipo(ps: seq<Peticion>, a: Asiento)
    requires a in Correr(INICIAL, ps).kardex.ledger
    ensures a.clave.TransfSalida? ==> a.tipo == TRANSFERENCIA_SALIDA
    ensures a.clave.TransfEntrada? ==> a.tipo == TRANSFERENCIA_ENTRADA
  {
    var l := Correr(INICIAL, ps).kardex.ledger;
    var i :| 0 <= i < |l| && l[i] == a;
    var m := CadaAsientoTieneAutor(ps, i);
  }

  /** A closed transfer or count stays closed. */
  lemma {:induction false} CerradosSiguen(s: Estado, p: Peticion)
    ensures var s' := Paso(s, p);
      && |s.transferencias| <= |s'.transferencias| && |s.conteos| <= |s'.conteos|
      && (forall t :: 0 <= t < |s.transferencias| && s.transferencias[t].estado == CANCELADA ==> s'.transferencias[t].estado == CANCELADA)
      && (forall c :: 0 <= c < |s.conteos| && s.conteos[c].estado == CONTABILIZADO ==> s'.conteos[c].estado == CONTABILIZADO)
  {
  }

  /** The key of a cancellation or of a posted item names something closed for good. */
  predicate Gastada(s: Estado, clave: Clave) {
    && (clave.TransfCancel? ==> clave.transferencia < |s.transferencias| && s.transferencias[clave.transferencia].estado == CANCELADA)
    && (clave.Conteo? ==> clave.conteo < |s.conteos| && s.conteos[clave.conteo].estado == CONTABILIZADO)
  }

  ghost predicate ClavesGastadas(s: Estado) {
    forall i :: 0 <= i < |s.kardex.ledger| ==> Gastada(s, s.kardex.ledger[i].clave)
  }

  lemma {:induction false} GastaLaSuya(s: Estado, p: Peticion, a: Asiento)
    requires EsDe(s, p, a) && Atender(s, p).Ok?
    ensures Gastada(Paso(s, p), a.clave)
  {
  }

  lemma {:induction false} PasoGasta(s: Estado, p: Peticion)
    requires ClavesGastadas(s)
    ensures ClavesGastadas(Paso(s, p))
  {
    var s' := Paso(s, p);
    PasoEscribe(s, p);
    CerradosSiguen(s, p);
    forall i | 0 <= i < |s'.kardex.ledger| ensures Gastada(s', s'.kardex.ledger[i].clave) {
      if i < |s.kardex.ledger| {
        assert Gastada(s, s.kardex.ledger[i].clave) && s'.kardex.ledger[i] == s.kardex.ledger[i];
      } else {
        assert DeEsta(s, p)(s'.kardex.ledger[i]);
        GastaLaSuya(s, p, s'.kardex.ledger[i]);
      }
    }
  }

  lemma {:induction false} CorrerGasta(ps: seq<Peticion>)
    ensures ClavesGastadas(Correr(INICIAL, ps))
  {
    if |ps| > 0 {
      CorrerGasta(ps[..|ps| - 1]);
      PasoGasta(Correr(INICIAL, ps[..|ps| - 1]), ps[|ps| - 1]);
    }
  }

  lemma {:induction false} CostoNoNegativo(ps: seq<Peticion>, t: nat, v: VarianteId)
    ensures CostoDe(Correr(INICIAL, ps).kardex.ledger, t, v) >= 0.0
  {
    var l := Correr(INICIAL, ps).kardex.ledger;
    CostoDeSalida(l, t, v);
    if CostoSalida(l, t, v).Some? {
      var i :| 0 <= i < |l| && EsSalida(l[i], t, v) && l[i].costoUnitario == CostoSalida(l, t, v).value;
      var m := CadaAsientoTieneAutor(ps, i);
    }
  }

  // ------------------------------------------------------------------ shipping

  /** The origin has a row for the variant, with enough stock or leave to go below zero, and no entry may
      carry a negative average. */
  predicate Despachable(k: Kardex, vs: map<VarianteId, Variante>, origen: AlmacenId, v: VarianteId, cantidad: real) {
    var c := Celda(origen, v);
    && Inventariable(vs, v) && c in k.saldos
    && (vs[v].allowNegativeStock || k.saldos[c].enStock >= cantidad)
    && k.saldos[c].costoPromedio >= 0.0
  }

  function PuedeDespachar(vs: map<VarianteId, Variante>, origen: AlmacenId, clave: string): (Kardex, Pedido) -> bool {
    (k: Kardex, p: Pedido) => Despachable(k, vs, origen, p.variante, p.cantidad) && !ClaveUsada(k.ledger, TransfSalida(clave, p.variante))
  }

  lemma {:induction false} DespachoSii(k: Kardex, vs: map<VarianteId, Variante>, o: AlmacenId, d: AlmacenId, t: nat, clave: string, p: Pedido)
    requires p.cantidad > 0.0
    ensures DespachoDe(vs, o, d, t, clave)(k, p).Ok? <==> PuedeDespachar(vs, o, clave)(k, p)
  {
  }

  lemma {:induction false} DespachoAjeno(k: Kardex, vs: map<VarianteId, Variante>, o: AlmacenId, d: AlmacenId, t: nat, clave: string, p: Pedido, q: Pedido)
    requires o != d && p.variante != q.variante && DespachoDe(vs, o, d, t, clave)(k, p).Ok?
    ensures PuedeDespachar(vs, o, clave)(DespachoDe(vs, o, d, t, clave)(k, p).value, q) <==> PuedeDespachar(vs, o, clave)(k, q)
  {
    var k' := DespachoDe(vs, o, d, t, clave)(k, p).value;
    assert k'.ledger == k.ledger + [k'.ledger[|k.ledger|]];
    assert Celda(o, q.variante) != Celda(o, p.variante) && Celda(o, q.variante) != Celda(d, p.variante);
  }

  lemma {:induction false} PedidosDistintos(ps: seq<Pedido>)
    requires PedidosBien(ps)
    ensures SinDuplicados(ps) && forall p, q :: p in ps && q in ps && p != q ==> p.variante != q.variante
  {
  }

  lemma {:induction false} DespachosSii(k: Kardex, vs: map<VarianteId, Variante>, o: AlmacenId, d: AlmacenId, t: nat, clave: string, ps: seq<Pedido>)
    requires PedidosBien(ps) && o != d
    ensures Plegar(k, ps, DespachoDe(vs, o, d, t, clave)).Ok? <==> forall p :: p in ps ==> PuedeDespachar(vs, o, clave)(k, p)
  {
    var paso, G := DespachoDe(vs, o, d, t, clave), PuedeDespachar(vs, o, clave);
    PedidosDistintos(ps);
    forall z: Kardex, p {:trigger paso(z, p)} | p in ps ensures paso(z, p).Ok? <==> G(z, p) {
      DespachoSii(z, vs, o, d, t, clave, p);
    }
    forall z: Kardex, p, q {:trigger paso(z, p), G(z, q)} | p in ps && q in ps && p != q && paso(z, p).Ok?
      ensures G(paso(z, p).value, q) <==> G(z, q) {
      DespachoAjeno(z, vs, o, d, t, clave, p, q);
    }
    PlegarSii(k, ps, paso, G);
  }

  /** In a list that names each variant once, what it asks of a variant is what its one line asks. */
  lemma {:induction false} PedidoDe(ps: seq<Pedido>, i: nat)
    requires PedidosBien(ps) && i < |ps|
    ensures Suma(ps, CantidadDe(ps[i].variante)) == ps[i].cantidad
  {
    var n := |ps| - 1;
    if i < n {
      PedidoDe(ps[..n], i);
    } else {
      SumaNula(ps[..n], CantidadDe(ps[n].variante));
    }
  }

  lemma {:induction false} PideAlgo(ps: seq<Pedido>, v: VarianteId)
    requires forall i :: 0 <= i < |ps| ==> ps[i].cantidad > 0.0
    ensures DePedido(ps, v) <==> Suma(ps, CantidadDe(v)) > 0.0
  {
    if DePedido(ps, v) {
      var i :| 0 <= i < |ps| && ps[i].variante == v;
      SumaAcota(ps, i, CantidadDe(v));
    } else {
      SumaNula(ps, CantidadDe(v));
    }
  }

  /** Consolidating neither drops a variant nor invents one. */
  lemma {:induction false} ConsolidarNombra(ps: seq<Pedido>, v: VarianteId)
    requires forall i :: 0 <= i < |ps| ==> ps[i].cantidad > 0.0
    ensures DePedido(Consolidar(ps), v) <==> DePedido(ps, v)
  {
    ConsolidarBien(ps, v);
    PideAlgo(ps, v);
    PideAlgo(Consolidar(ps), v);
  }

  /** Of every variant named, the sum of what is asked can leave the origin. */
  ghost predicate TodoDespachable(k: Kardex, vs: map<VarianteId, Variante>, origen: AlmacenId, pedidos: seq<Pedido>) {
    forall v :: DePedido(pedidos, v) ==> Despachable(k, vs, origen, v, Suma(pedidos, CantidadDe(v)))
  }

  ghost predicate SalidasNuevas(ledger: seq<Asiento>, clave: string) {
    forall v :: !ClaveUsada(ledger, TransfSalida(clave, v))
  }

  lemma {:induction false} ConsolidadoDespachable(k: Kardex, vs: map<VarianteId, Variante>, o: AlmacenId, clave: string, pedidos: seq<Pedido>)
    requires (forall i :: 0 <= i < |pedidos| ==> pedidos[i].cantidad > 0.0) && SalidasNuevas(k.ledger, clave)
    ensures (forall p :: p in Consolidar(pedidos) ==> PuedeDespachar(vs, o, clave)(k, p)) <==> TodoDespachable(k, vs, o, pedidos)
  {
    var ps := Consolidar(pedidos);
    ConsolidarBien(pedidos, 0);
    forall i | 0 <= i < |ps| ensures DePedido(pedidos, ps[i].variante) && ps[i].cantidad == Suma(pedidos, CantidadDe(ps[i].variante)) {
      ConsolidarNombra(pedidos, ps[i].variante);
      ConsolidarBien(pedidos, ps[i].variante);
      PedidoDe(ps, i);
    }
    if forall p :: p in ps ==> PuedeDespachar(vs, o, clave)(k, p) {
      forall v | DePedido(pedidos, v) ensures Despachable(k, vs, o, v, Suma(pedidos, CantidadDe(v))) {
        ConsolidarNombra(pedidos, v);
        var i :| 0 <= i < |ps| && ps[i].variante == v;
        assert ps[i] in ps;
      }
    }
  }

  /** The guards the service checks before it touches any row. */
  ghost predicate PuedeTrasladar(s: Estado, o: AlmacenId, d: AlmacenId, pedidos: seq<Pedido>) {
    && |pedidos| > 0 && (forall i :: 0 <= i < |pedidos| ==> pedidos[i].cantidad > 0.0) && o != d
    && o in s.almacenes && s.almacenes[o] && d in s.almacenes && s.almacenes[d]
  }

  lemma {:induction false} TrasladoSii(s: Estado, o: AlmacenId, d: AlmacenId, pedidos: seq<Pedido>, clave: string)
    requires !SalidaConClave(s.kardex.ledger, clave)
    ensures CrearTransferencia(s, o, d, pedidos, clave).Ok? <==>
      && PuedeTrasladar(s, o, d, pedidos)
      && Plegar(s.kardex, Consolidar(pedidos), DespachoDe(s.variantes, o, d, |s.transferencias|, clave)).Ok?
  {
  }

  lemma {:induction false} SalidasDeClaveNueva(ps: seq<Peticion>, clave: string)
    requires !SalidaConClave(Correr(INICIAL, ps).kardex.ledger, clave)
    ensures SalidasNuevas(Correr(INICIAL, ps).kardex.ledger, clave)
  {
    var ledger := Correr(INICIAL, ps).kardex.ledger;
    forall v ensures !ClaveUsada(ledger, TransfSalida(clave, v)) {
      forall a | a in ledger ensures a.clave != TransfSalida(clave, v) {
        ClavesDeSuTipo(ps, a);
      }
    }
  }

  /** In any reachable state a transfer under a new key is made exactly when it asks for some of each thing,
      between two open warehouses, and the origin can ship the sum of what is asked of every variant. */
  lemma {:induction false} CrearTransferenciaSii(ps: seq<Peticion>, o: AlmacenId, d: AlmacenId, pedidos: seq<Pedido>, clave: string)
    requires !SalidaConClave(Correr(INICIAL, ps).kardex.ledger, clave)
    ensures var s := Correr(INICIAL, ps);
      CrearTransferencia(s, o, d, pedidos, clave).Ok? <==>
        PuedeTrasladar(s, o, d, pedidos) && TodoDespachable(s.kardex, s.variantes, o, pedidos)
  {
    var s := Correr(INICIAL, ps);
    TrasladoSii(s, o, d, pedidos, clave);
    if PuedeTrasladar(s, o, d, pedidos) {
      SalidasDeClaveNueva(ps, clave);
      ConsolidarBien(pedidos, 0);
      DespachosSii(s.kardex, s.variantes, o, d, |s.transferencias|, clave, Consolidar(pedidos));
      ConsolidadoDespachable(s.kardex, s.variantes, o, clave, pedidos);
    }
  }

  // ------------------------------------------------------------------ receiving

  function PuedeLlegar(ps: seq<Pedido>, destino: AlmacenId, clave: string): (Recibido, Articulo) -> bool {
    (r: Recibido, item: Articulo) =>
      var q := Recibe(ps, item.variante);
      q == 0.0 || (q <= item.shippedQty - item.receivedQty && Celda(destino, item.variante) in r.kardex.saldos
                   && !ClaveUsada(r.kardex.ledger, TransfEntrada(clave, item.variante)))
  }

  lemma {:induction false} LlegadaSii(r: Recibido, ledger: seq<Asiento>, ps: seq<Pedido>, d: AlmacenId, t: nat, clave: string, item: Articulo)
    requires CostoDe(ledger, t, item.variante) >= 0.0
    ensures RecibirItem(ledger, ps, d, t, clave)(r, item).Ok? <==> PuedeLlegar(ps, d, clave)(r, item)
  {
  }

  lemma {:induction false} LlegadaAjena(r: Recibido, ledger: seq<Asiento>, ps: seq<Pedido>, d: AlmacenId, t: nat, clave: string, item: Articulo, otro: Articulo)
    requires item.variante != otro.variante && RecibirItem(ledger, ps, d, t, clave)(r, item).Ok?
    ensures PuedeLlegar(ps, d, clave)(RecibirItem(ledger, ps, d, t, clave)(r, item).value, otro) <==> PuedeLlegar(ps, d, clave)(r, otro)
  {
    var l, l' := r.kardex.ledger, RecibirItem(ledger, ps, d, t, clave)(r, item).value.kardex.ledger;
    if Recibe(ps, item.variante) != 0.0 {
      assert l' == l + [l'[|l|]];
    }
  }

  lemma {:induction false} ArticulosSinDuplicar(items: seq<Articulo>)
    requires VariantesDistintas(items)
    ensures SinDuplicados(items) && forall a, b :: a in items && b in items && a != b ==> a.variante != b.variante
  {
  }

  lemma {:induction false} LlegadasSii(k: Kardex, ledger: seq<Asiento>, ps: seq<Pedido>, d: AlmacenId, t: nat, clave: string, items: seq<Articulo>)
    requires VariantesDistintas(items) && forall v :: CostoDe(ledger, t, v) >= 0.0
    ensures Plegar(Recibido(k, []), items, RecibirItem(ledger, ps, d, t, clave)).Ok? <==>
      forall a :: a in items ==> PuedeLlegar(ps, d, clave)(Recibido(k, []), a)
  {
    var paso, G := RecibirItem(ledger, ps, d, t, clave), PuedeLlegar(ps, d, clave);
    ArticulosSinDuplicar(items);
    forall z: Recibido, a {:trigger paso(z, a)} | a in items ensures paso(z, a).Ok? <==> G(z, a) {
      LlegadaSii(z, ledger, ps, d, t, clave, a);
    }
    forall z: Recibido, a, b {:trigger paso(z, a), G(z, b)} | a in items && b in items && a != b && paso(z, a).Ok?
      ensures G(paso(z, a).value, b) <==> G(z, b) {
      LlegadaAjena(z, ledger, ps, d, t, clave, a, b);
    }
    PlegarSii(Recibido(k, []), items, paso, G);
  }

  /** What a request asks to receive of a variant, whatever it repeats and whatever zeros it carries. */
  lemma {:induction false} RecibeLoPedido(pedidos: seq<Pedido>, v: VarianteId)
    requires forall i :: 0 <= i < |pedidos| ==> pedidos[i].cantidad >= 0.0
    ensures Recibe(Consolidar(SoloPositivos(pedidos)), v) == Suma(pedidos, CantidadDe(v))
  {
    PositivosSuman(pedidos, v);
    ConsolidarBien(SoloPositivos(pedidos), v);
    RecibeSuma(Consolidar(SoloPositivos(pedidos)), v);
  }

  lemma {:induction false} PositivosSuman(ps: seq<Pedido>, v: VarianteId)
    requires forall i :: 0 <= i < |ps| ==> ps[i].cantidad >= 0.0
    ensures Suma(SoloPositivos(ps), CantidadDe(v)) == Suma(ps, CantidadDe(v))
    ensures forall i :: 0 <= i < |SoloPositivos(ps)| ==> SoloPositivos(ps)[i].cantidad > 0.0
  {
    if |ps| > 0 {
      PositivosSuman(ps[..|ps| - 1], v);
      assert SoloPositivos(ps[..|ps| - 1]) + [] == SoloPositivos(ps[..|ps| - 1]);
    }
  }

  lemma {:induction false} RecibeSuma(ps: seq<Pedido>, v: VarianteId)
    requires PedidosBien(ps)
    ensures Recibe(ps, v) == Suma(ps, CantidadDe(v))
  {
    match IndicePedido(ps, v)
    case Some(i) => PedidoDe(ps, i);
    case None => SumaNula(ps, CantidadDe(v));
  }

  /** In any reachable state a transfer takes a reception under a new key exactly when it is open and of no
      variant more is asked than is still on its way; variants it does not carry are passed over. */
  lemma {:induction false} RecibirTransferenciaSii(ps: seq<Peticion>, id: nat, pedidos: seq<Pedido>, clave: string)
    requires !EntradaConClave(Correr(INICIAL, ps).kardex.ledger, clave)
    ensures var s := Correr(INICIAL, ps);
      RecibirTransferencia(s, id, pedidos, clave).Ok? <==>
        && |pedidos| > 0 && (forall i :: 0 <= i < |pedidos| ==> pedidos[i].cantidad >= 0.0)
        && id < |s.transferencias| && (s.transferencias[id].estado == EN_TRANSITO || s.transferencias[id].estado == RECIBIDA_PARCIALMENTE)
        && forall a :: a in s.transferencias[id].articulos ==> Suma(pedidos, CantidadDe(a.variante)) <= a.shippedQty - a.receivedQty
  {
    var s := Correr(INICIAL, ps);
    InicialValido();
    CorrerMantiene(INICIAL, ps);
    if NingunoNegativo(pedidos) && id < |s.transferencias| && TransferenciaAbierta(s.transferencias[id]) {
      var t, qs := s.transferencias[id], Consolidar(SoloPositivos(pedidos));
      assert TransferenciaBien(s.kardex, t);
      forall v ensures CostoDe(s.kardex.ledger, id, v) >= 0.0 {
        CostoNoNegativo(ps, id, v);
      }
      LlegadasSii(s.kardex, s.kardex.ledger, qs, t.destino, id, clave, t.articulos);
      forall a | a in t.articulos
        ensures PuedeLlegar(qs, t.destino, clave)(Recibido(s.kardex, []), a) <==> Suma(pedidos, CantidadDe(a.variante)) <= a.shippedQty - a.receivedQty {
        ArticuloLlega(ps, id, pedidos, clave, a);
      }
    }
  }

  lemma {:induction false} ArticuloLlega(ps: seq<Peticion>, id: nat, pedidos: seq<Pedido>, clave: string, a: Articulo)
    requires var s := Correr(INICIAL, ps);
      Valido(s) && id < |s.transferencias| && a in s.transferencias[id].articulos && !EntradaConClave(s.kardex.ledger, clave)
    requires forall i :: 0 <= i < |pedidos| ==> pedidos[i].cantidad >= 0.0
    ensures var s := Correr(INICIAL, ps);
      var qs := Consolidar(SoloPositivos(pedidos));
      PuedeLlegar(qs, s.transferencias[id].destino, clave)(Recibido(s.kardex, []), a) <==> Suma(pedidos, CantidadDe(a.variante)) <= a.shippedQty - a.receivedQty
  {
    var s := Correr(INICIAL, ps);
    var t := s.transferencias[id];
    RecibeLoPedido(pedidos, a.variante);
    assert TransferenciaBien(s.kardex, t);
    var i :| 0 <= i < |t.articulos| && t.articulos[i] == a;
    assert ArticuloBien(s.kardex, t.origen, t.destino, t.articulos[i]);
    forall e | e in s.kardex.ledger ensures e.clave != TransfEntrada(clave, a.variante) {
      ClavesDeSuTipo(ps, e);
    }
  }

  // ------------------------------------------------------------------ cancelling

  function PuedeCancelar(t: nat): (Kardex, Articulo) -> bool {
    (k: Kardex, item: Articulo) => !ClaveUsada(k.ledger, TransfCancel(t, item.variante))
  }

  lemma {:induction false} CancelacionSii(k: Kardex, ledger: seq<Asiento>, o: AlmacenId, d: AlmacenId, t: nat, item: Articulo)
    requires item.shippedQty > 0.0 && CostoDe(ledger, t, item.variante) >= 0.0
    ensures CancelarItem(ledger, o, d, t)(k, item).Ok? <==> PuedeCancelar(t)(k, item)
  {
  }

  lemma {:induction false} CancelacionAjena(k: Kardex, ledger: seq<Asiento>, o: AlmacenId, d: AlmacenId, t: nat, item: Articulo, otro: Articulo)
    requires item.variante != otro.variante && CancelarItem(ledger, o, d, t)(k, item).Ok?
    ensures PuedeCancelar(t)(CancelarItem(ledger, o, d, t)(k, item).value, otro) <==> PuedeCancelar(t)(k, otro)
  {
    var l' := CancelarItem(ledger, o, d, t)(k, item).value.ledger;
    if item.shippedQty > 0.0 {
      assert l' == k.ledger + [l'[|k.ledger|]];
    }
  }

  lemma {:induction false} CancelacionesSii(k: Kardex, ledger: seq<Asiento>, o: AlmacenId, d: AlmacenId, t: nat, items: seq<Articulo>)
    requires VariantesDistintas(items) && forall i :: 0 <= i < |items| ==> items[i].shippedQty > 0.0
    requires forall v :: CostoDe(ledger, t, v) >= 0.0
    ensures Plegar(k, items, CancelarItem(ledger, o, d, t)).Ok? <==> forall a :: a in items ==> PuedeCancelar(t)(k, a)
  {
    var paso, G := CancelarItem(ledger, o, d, t), PuedeCancelar(t);
    ArticulosSinDuplicar(items);
    forall z: Kardex, a {:trigger paso(z, a)} | a in items ensures paso(z, a).Ok? <==> G(z, a) {
      CancelacionSii(z, ledger, o, d, t, a);
    }
    forall z: Kardex, a, b {:trigger paso(z, a), G(z, b)} | a in items && b in items && a != b && paso(z, a).Ok?
      ensures G(paso(z, a).value, b) <==> G(z, b) {
      CancelacionAjena(z, ledger, o, d, t, a, b);
    }
    PlegarSii(k, items, paso, G);
  }

  /** In any reachable state a transfer can be cancelled exactly while it is in transit. */
  lemma {:induction false} CancelarTransferenciaSii(ps: seq<Peticion>, id: nat)
    ensures var s := Correr(INICIAL, ps);
      CancelarTransferencia(s, id).Ok? <==> id < |s.transferencias| && s.transferencias[id].estado == EN_TRANSITO
  {
    var s := Correr(INICIAL, ps);
    InicialValido();
    CorrerMantiene(INICIAL, ps);
    CorrerGasta(ps);
    if id < |s.transferencias| && s.transferencias[id].estado == EN_TRANSITO {
      var t := s.transferencias[id];
      assert TransferenciaBien(s.kardex, t);
      forall i | 0 <= i < |t.articulos| ensures t.articulos[i].shippedQty > 0.0 {
        assert ArticuloBien(s.kardex, t.origen, t.destino, t.articulos[i]);
      }
      forall v ensures CostoDe(s.kardex.ledger, id, v) >= 0.0 {
        CostoNoNegativo(ps, id, v);
      }
      CancelacionesSii(s.kardex, s.kardex.ledger, t.origen, t.destino, id, t.articulos);
    }
  }

  // ------------------------------------------------------------------ posting a count

  /** An item nobody counted, or whose count is the live stock, posts nothing; any other posts at the
      average, which the ledger takes unless it is negative. */
  function PuedeContarse(almacen: AlmacenId, conteo: nat): (Contado, ItemConteo) -> bool {
    (x: Contado, item: ItemConteo) =>
      var f := Fila(x.kardex, Celda(almacen, item.variante));
      item.contada.None? || item.contada.value == f.enStock
        || (f.costoPromedio >= 0.0 && !ClaveUsada(x.kardex.ledger, Conteo(conteo, item.variante)))
  }

  lemma {:induction false} ContadoSii(x: Contado, a: AlmacenId, conteo: nat, item: ItemConteo)
    ensures ContarItem(a, conteo)(x, item).Ok? <==> PuedeContarse(a, conteo)(x, item)
  {
  }

  lemma {:induction false} ContadoAjeno(x: Contado, a: AlmacenId, conteo: nat, item: ItemConteo, otro: ItemConteo)
    requires item.variante != otro.variante && ContarItem(a, conteo)(x, item).Ok?
    ensures PuedeContarse(a, conteo)(ContarItem(a, conteo)(x, item).value, otro) <==> PuedeContarse(a, conteo)(x, otro)
  {
    var l, l' := x.kardex.ledger, ContarItem(a, conteo)(x, item).value.kardex.ledger;
    if l' != l {
      assert l' == l + [l'[|l|]];
    }
  }

  lemma {:induction false} ContadosSii(k: Kardex, a: AlmacenId, conteo: nat, items: seq<ItemConteo>)
    requires forall i, j :: 0 <= i < j < |items| ==> items[i].variante != items[j].variante
    ensures Plegar(Contado(k, []), items, ContarItem(a, conteo)).Ok? <==>
      forall item :: item in items ==> PuedeContarse(a, conteo)(Contado(k, []), item)
  {
    var paso, G := ContarItem(a, conteo), PuedeContarse(a, conteo);
    forall z: Contado, i {:trigger paso(z, i)} | i in items ensures paso(z, i).Ok? <==> G(z, i) {
      ContadoSii(z, a, conteo, i);
    }
    forall z: Contado, i, j {:trigger paso(z, i), G(z, j)} | i in items && j in items && i != j && paso(z, i).Ok?
      ensures G(paso(z, i).value, j) <==> G(z, j) {
      ContadoAjeno(z, a, conteo, i, j);
    }
    PlegarSii(Contado(k, []), items, paso, G);
  }

  /** In any reachable state a count is posted exactly when it is open and no cell it would correct has a
      negative average. */
  lemma {:induction false} ContabilizarSii(ps: seq<Peticion>, id: nat)
    ensures var s := Correr(INICIAL, ps);
      ContabilizarConteo(s, id).Ok? <==>
        && id < |s.conteos| && (s.conteos[id].estado == EN_PROGRESO || s.conteos[id].estado == ENVIADO)
        && forall item :: item in s.conteos[id].articulos && item.contada.Some? ==>
             var f := Fila(s.kardex, Celda(s.conteos[id].almacen, item.variante));
             item.contada.value == f.enStock || f.costoPromedio >= 0.0
  {
    var s := Correr(INICIAL, ps);
    InicialValido();
    CorrerMantiene(INICIAL, ps);
    CorrerGasta(ps);
    if id < |s.conteos| && ConteoAbierto(s.conteos[id]) {
      assert ConteoBien(s.variantes, s.conteos[id].articulos);
      ContadosSii(s.kardex, s.conteos[id].almacen, id, s.conteos[id].articulos);
      forall v ensures !ClaveUsada(s.kardex.ledger, Conteo(id, v)) {
        forall a | a in s.kardex.ledger ensures a.clave != Conteo(id, v) {
          var i :| 0 <= i < |s.kardex.ledger| && s.kardex.ledger[i] == a;
          assert Gastada(s, s.kardex.ledger[i].clave);
        }
      }
    }
  }
}
