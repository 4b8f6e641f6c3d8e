/** When an average cost can be negative. Where negative stock is forbidden it never is; elsewhere an
    inbound movement makes it so exactly when it brings the stock above zero with the value still
    below, and from then on the ledger refuses every sale from the cell. */
module Promedios {
  import opened Comun
  import opened Kardex
  import opened Movimientos
  import opened Lotes
  import opened Existencias
  import opened Inventario
  import opened Invariante
  import opened Corridas

  /** The row splits, and where negative stock is forbidden neither stock nor average is below zero. */
  predicate SaldoSano(vs: map<VarianteId, Variante>, c: Celda, s: Saldo) {
    && s.reserved >= 0.0 && s.available == s.enStock - s.reserved
    && (ProhibeNegativo(vs, c) ==> s.enStock >= 0.0 && s.costoPromedio >= 0.0)
  }

  ghost predicate Sanos(k: Kardex, vs: map<VarianteId, Variante>) {
    forall c :: c in k.saldos ==> SaldoSano(vs, c, k.saldos[c])
  }

  // ------------------------------------------------------------------ the weighted average

  lemma {:induction false} PonderadoNoNegativo(enStock: real, avg: real, cantidad: real, costo: real)
    requires enStock >= 0.0 && avg >= 0.0 && cantidad > 0.0 && costo >= 0.0
    ensures CostoPonderado(enStock, avg, cantidad, costo) >= 0.0
  {
    PonderadoNegativoSii(enStock, avg, cantidad, costo);
    assert enStock * avg >= 0.0 && cantidad * costo >= 0.0;
  }

  /** The average comes out below zero exactly when the stock is above zero and the value is not. */
  lemma {:induction false} PonderadoNegativoSii(enStock: real, avg: real, cantidad: real, costo: real)
    requires costo >= 0.0
    ensures CostoPonderado(enStock, avg, cantidad, costo) < 0.0 <==>
      enStock + cantidad > 0.0 && Valor(enStock, avg) + Valor(cantidad, costo) < 0.0
  {
    var den, num := enStock + cantidad, Valor(enStock, avg) + Valor(cantidad, costo);
    if den > 0.0 {
      var q := num / den;
      assert q * den == num;
      assert q < 0.0 ==> q * den < 0.0;
      assert q >= 0.0 ==> q * den >= 0.0;
    }
  }

  /** The guard of the failing branch, for a receipt: the row is there, the receipt brings its stock
      above zero, and what it is worth does not cover what the row was worth below zero. */
  lemma {:induction false} IngresarNegativoSii(k: Kardex, c: Celda, cantidad: real, costo: real, recepcion: nat)
    requires Ingresar(k, c, cantidad, costo, recepcion).Ok?
    ensures Fila(Ingresar(k, c, cantidad, costo, recepcion).value, c).costoPromedio < 0.0 <==>
      && c in k.saldos && Fila(k, c).enStock + cantidad > 0.0
      && Valor(Fila(k, c).enStock, Fila(k, c).costoPromedio) + Valor(cantidad, costo) < 0.0
  {
    PonderadoNegativoSii(Fila(k, c).enStock, Fila(k, c).costoPromedio, cantidad, costo);
  }

  /** The guard for an adjustment: only an entry at a cost of its own can do it. */
  lemma {:induction false} AjustarNegativoSii(k: Kardex, c: Celda, esEntrada: bool, cantidad: real, costo: Option<real>, permite: bool, clave: Clave)
    requires Ajustar(k, c, esEntrada, cantidad, costo, permite, clave).Ok?
    ensures Fila(Ajustar(k, c, esEntrada, cantidad, costo, permite, clave).value, c).costoPromedio < 0.0 <==>
      && c in k.saldos && esEntrada && costo.Some? && Fila(k, c).enStock + cantidad > 0.0
      && Valor(Fila(k, c).enStock, Fila(k, c).costoPromedio) + Valor(cantidad, costo.value) < 0.0
  {
    if c in k.saldos && esEntrada && costo.Some? {
      PonderadoNegativoSii(Fila(k, c).enStock, Fila(k, c).costoPromedio, cantidad, costo.value);
    }
  }

  /** The guard for an article of a transfer that arrives. */
  lemma {:induction false} RecibirNegativoSii(k: Kardex, c: Celda, cantidad: real, costo: real, t: nat, clave: Clave)
    requires RecibirArticulo(k, c, cantidad, costo, t, clave).Ok?
    ensures Fila(RecibirArticulo(k, c, cantidad, costo, t, clave).value, c).costoPromedio < 0.0 <==>
      && Fila(k, c).enStock + cantidad > 0.0
      && Valor(Fila(k, c).enStock, Fila(k, c).costoPromedio) + Valor(cantidad, costo) < 0.0
  {
    PonderadoNegativoSii(Fila(k, c).enStock, Fila(k, c).costoPromedio, cantidad, costo);
  }

  lemma {:induction false} AsientosAlCosto(l: LineaStock, venta: nat, costo: real, consumos: seq<Consumo>)
    ensures |AsientosDeLotes(l, venta, costo, consumos)| == |consumos|
    ensures forall i :: 0 <= i < |consumos| ==> AsientosDeLotes(l, venta, costo, consumos)[i].costoUnitario == costo
  {
    if |consumos| > 0 {
      AsientosAlCosto(l, venta, costo, consumos[..|consumos| - 1]);
    }
  }

  /** While the average of a cell is below zero no sale leaves it: the ledger takes no entry at a
      negative cost. */
  lemma {:induction false} SinVentaBajoCero(e: Existencias, l: LineaStock, permite: bool, venta: nat, hoy: nat)
    requires Fila(e.kardex, l.celda).costoPromedio < 0.0
    ensures RegistrarLinea(e, l, permite, venta, hoy).Err?
  {
    var s := Fila(e.kardex, l.celda);
    match ConsumirLotesFEFO(e.lotes, l.celda, l.cantidad, permite, hoy)
    case Ok(consumos) =>
      var filas := AsientosVenta(l, venta, s.costoPromedio, consumos);
      AsientosAlCosto(l, venta, s.costoPromedio, consumos);
      assert filas[..1][..0] == [] && filas[..1][0] == filas[0];
      assert Plegar(e.kardex.ledger, filas[..1], AsentarUno()).Err?;
      PlegarFalla(e.kardex.ledger, filas, 1, AsentarUno());
    case Err(_) =>
  }

  // ------------------------------------------------------------------ movements keep it sound

  lemma {:induction false} AjustarSano(k: Kardex, c: Celda, esEntrada: bool, cantidad: real, costo: Option<real>, clave: Clave, vs: map<VarianteId, Variante>)
    requires Sanos(k, vs) && c.variante in vs && cantidad > 0.0
    requires Ajustar(k, c, esEntrada, cantidad, costo, vs[c.variante].allowNegativeStock, clave).Ok?
    ensures Sanos(Ajustar(k, c, esEntrada, cantidad, costo, vs[c.variante].allowNegativeStock, clave).value, vs)
  {
    var s, k' := Fila(k, c), Ajustar(k, c, esEntrada, cantidad, costo, vs[c.variante].allowNegativeStock, clave).value;
    assert SaldoSano(vs, c, s);
    if ProhibeNegativo(vs, c) && costo.Some? && costo.value >= 0.0 {
      PonderadoNoNegativo(s.enStock, s.costoPromedio, cantidad, costo.value);
    }
    assert SaldoSano(vs, c, Fila(k', c));
  }

  lemma {:induction false} IngresarSano(k: Kardex, c: Celda, cantidad: real, costo: real, recepcion: nat, vs: map<VarianteId, Variante>)
    requires Sanos(k, vs) && cantidad > 0.0 && Ingresar(k, c, cantidad, costo, recepcion).Ok?
    ensures Sanos(Ingresar(k, c, cantidad, costo, recepcion).value, vs)
  {
    var s := Fila(k, c);
    assert SaldoSano(vs, c, s);
    if ProhibeNegativo(vs, c) {
      PonderadoNoNegativo(s.enStock, s.costoPromedio, cantidad, costo);
    }
  }

  lemma {:induction false} RecibirSano(k: Kardex, c: Celda, cantidad: real, costo: real, t: nat, clave: Clave, vs: map<VarianteId, Variante>)
    requires Sanos(k, vs) && cantidad > 0.0 && RecibirArticulo(k, c, cantidad, costo, t, clave).Ok?
    ensures Sanos(RecibirArticulo(k, c, cantidad, costo, t, clave).value, vs)
  {
    var s := Fila(k, c);
    assert SaldoSano(vs, c, s);
    if ProhibeNegativo(vs, c) {
      PonderadoNoNegativo(s.enStock, s.costoPromedio, cantidad, costo);
    }
  }

  lemma {:induction false} LineaSana(e: Existencias, l: LineaStock, venta: nat, hoy: nat, vs: map<VarianteId, Variante>)
    requires Sanos(e.kardex, vs) && l.celda.variante in vs
    requires RegistrarLinea(e, l, vs[l.celda.variante].allowNegativeStock, venta, hoy).Ok?
    ensures Sanos(RegistrarLinea(e, l, vs[l.celda.variante].allowNegativeStock, venta, hoy).value.kardex, vs)
  {
    assert SaldoSano(vs, l.celda, Fila(e.kardex, l.celda));
  }

  // ------------------------------------------------------------------ loops

  lemma {:induction false} LineasSanas(e: Existencias, vs: map<VarianteId, Variante>, venta: nat, lineas: seq<LineaStock>, hoy: nat)
    requires Sanos(e.kardex, vs)
    ensures var r := Plegar(e, lineas, VenderLinea(vs, venta, hoy)); r.Ok? ==> Sanos(r.value.kardex, vs)
  {
    var P, paso := (e: Existencias) => Sanos(e.kardex, vs), VenderLinea(vs, venta, hoy);
    forall e, l {:trigger paso(e, l)} | P(e) && paso(e, l).Ok? ensures P(paso(e, l).value) {
      if vs[l.celda.variante].isStockTracked {
        LineaSana(e, l, venta, hoy, vs);
      }
    }
    PlegarConserva(e, lineas, paso, P);
  }

  lemma {:induction false} ConteoSano(k: Kardex, almacen: AlmacenId, conteo: nat, items: seq<ItemConteo>, vs: map<VarianteId, Variante>)
    requires Sanos(k, vs) && ConteoBien(vs, items)
    ensures var r := Plegar(Contado(k, []), items, ContarItem(almacen, conteo)); r.Ok? ==> Sanos(r.value.kardex, vs)
  {
    var P, paso := (a: Contado) => Sanos(a.kardex, vs), ContarItem(almacen, conteo);
    forall a, item {:trigger paso(a, item)} | item in items && P(a) && paso(a, item).Ok? ensures P(paso(a, item).value) {
      assert SaldoSano(vs, Celda(almacen, item.variante), Fila(a.kardex, Celda(almacen, item.variante)));
    }
    PlegarConserva(Contado(k, []), items, paso, P);
  }

  lemma {:induction false} DespachosSanos(k: Kardex, vs: map<VarianteId, Variante>, o: AlmacenId, d: AlmacenId, t: nat, clave: string, ps: seq<Pedido>)
    requires Sanos(k, vs)
    ensures var r := Plegar(k, ps, DespachoDe(vs, o, d, t, clave)); r.Ok? ==> Sanos(r.value, vs)
  {
    var P, paso := (k: Kardex) => Sanos(k, vs), DespachoDe(vs, o, d, t, clave);
    forall k, p {:trigger paso(k, p)} | P(k) && paso(k, p).Ok? ensures P(paso(k, p).value) {
      assert SaldoSano(vs, Celda(o, p.variante), Fila(k, Celda(o, p.variante)));
      assert SaldoSano(vs, Celda(d, p.variante), Fila(k, Celda(d, p.variante)));
    }
    PlegarConserva(k, ps, paso, P);
  }

  lemma {:induction false} RecibidosSanos(k: Kardex, ledger: seq<Asiento>, ps: seq<Pedido>, d: AlmacenId, t: nat, clave: string,
                                          items: seq<Articulo>, vs: map<VarianteId, Variante>)
    requires Sanos(k, vs)
    ensures var r := Plegar(Recibido(k, []), items, RecibirItem(ledger, ps, d, t, clave)); r.Ok? ==> Sanos(r.value.kardex, vs)
  {
    var P, paso := (a: Recibido) => Sanos(a.kardex, vs), RecibirItem(ledger, ps, d, t, clave);
    forall a, item {:trigger paso(a, item)} | P(a) && paso(a, item).Ok? ensures P(paso(a, item).value) {
      if Recibe(ps, item.variante) != 0.0 {
        RecibirSano(a.kardex, Celda(d, item.variante), Recibe(ps, item.variante), CostoDe(ledger, t, item.variante), t,
                    TransfEntrada(clave, item.variante), vs);
      }
    }
    PlegarConserva(Recibido(k, []), items, paso, P);
  }

  lemma {:induction false} CanceladosSanos(k: Kardex, ledger: seq<Asiento>, o: AlmacenId, d: AlmacenId, t: nat, items: seq<Articulo>,
                                           vs: map<VarianteId, Variante>)
    requires Sanos(k, vs)
    ensures var r := Plegar(k, items, CancelarItem(ledger, o, d, t)); r.Ok? ==> Sanos(r.value, vs)
  {
    var P, paso := (k: Kardex) => Sanos(k, vs), CancelarItem(ledger, o, d, t);
    forall k, item {:trigger paso(k, item)} | P(k) && paso(k, item).Ok? ensures P(paso(k, item).value) {
      assert SaldoSano(vs, Celda(o, item.variante), Fila(k, Celda(o, item.variante)));
      assert SaldoSano(vs, Celda(d, item.variante), Fila(k, Celda(d, item.variante)));
    }
    PlegarConserva(k, items, paso, P);
  }

  lemma {:induction false} IngresosSanos(e: Entrada, a: AlmacenId, recepcion: nat, items: seq<ItemCompra>, vs: map<VarianteId, Variante>)
    requires Sanos(e.kardex, vs) && forall i :: 0 <= i < |items| ==> items[i].cantidad > 0.0
    ensures var r := Plegar(e, items, IngresarItem(a, recepcion)); r.Ok? ==> Sanos(r.value.kardex, vs)
  {
    var P, paso := (e: Entrada) => Sanos(e.kardex, vs), IngresarItem(a, recepcion);
    forall e, item {:trigger paso(e, item)} | item in items && P(e) && paso(e, item).Ok? ensures P(paso(e, item).value) {
      IngresarSano(e.kardex, Celda(a, item.variante), item.cantidad, item.costoUnitario, recepcion, vs);
    }
    PlegarConserva(e, items, paso, P);
  }

  lemma {:induction false} ReingresosSanos(k: Kardex, vs: map<VarianteId, Variante>, d: nat, items: seq<Reingreso>)
    requires Sanos(k, vs) && forall i :: 0 <= i < |items| ==> items[i].cantidad > 0.0
    ensures var r := Plegar(k, items, ReingresarUno(vs, d)); r.Ok? ==> Sanos(r.value, vs)
  {
    var P, paso := (k: Kardex) => Sanos(k, vs), ReingresarUno(vs, d);
    forall k, item {:trigger paso(k, item)} | item in items && P(k) && paso(k, item).Ok? ensures P(paso(k, item).value) {
      assert SaldoSano(vs, item.celda, Fila(k, item.celda));
    }
    PlegarConserva(k, items, paso, P);
  }

  // ------------------------------------------------------------------ every run

  ghost predicate QuedaSano(s: Estado, p: Peticion) {
    Atender(s, p).Ok? ==> Sanos(Atender(s, p).value.kardex, Atender(s, p).value.variantes)
  }

  lemma {:induction false} TransferenciaSana(s: Estado, p: Peticion)
    requires Sanos(s.kardex, s.variantes) && EsTransferencia(p)
    ensures QuedaSano(s, p)
  {
    match p
    case PTransferir(o, d, pedidos, clave) =>
      DespachosSanos(s.kardex, s.variantes, o, d, |s.transferencias|, clave, Consolidar(pedidos));
    case PRecibir(id, pedidos, clave) =>
      if id < |s.transferencias| {
        RecibidosSanos(s.kardex, s.kardex.ledger, Consolidar(SoloPositivos(pedidos)), s.transferencias[id].destino, id, clave,
                       s.transferencias[id].articulos, s.variantes);
      }
    case PCancelar(id) =>
      if id < |s.transferencias| {
        var t := s.transferencias[id];
        CanceladosSanos(s.kardex, s.kardex.ledger, t.origen, t.destino, id, t.articulos, s.variantes);
      }
  }

  lemma {:induction false} DocumentoSano(s: Estado, p: Peticion)
    requires Sanos(s.kardex, s.variantes) && (p.PVenta? || p.PRecepcion? || p.PDevolucion?)
    ensures QuedaSano(s, p)
  {
    match p
    case PVenta(venta, lineas, hoy) => LineasSanas(Existencias(s.kardex, s.lotes), s.variantes, venta, lineas, hoy);
    case PRecepcion(_, _, a, items) =>
      if CantidadesPositivas(items) {
        IngresosSanos(Entrada(s.kardex, s.lotes, s.recibidos), a, |s.recepciones|, items, s.variantes);
      }
    case PDevolucion(d, items) =>
      if ReingresosPositivos(items) {
        ReingresosSanos(s.kardex, s.variantes, d, items);
      }
  }

  lemma {:induction false} AjusteSano(s: Estado, p: Peticion)
    requires Valido(s) && Sanos(s.kardex, s.variantes) && (p.PAjuste? || p.PContabilizar?)
    ensures QuedaSano(s, p)
  {
    match p
    case PAjuste(d, esEntrada, cantidad, costo, clave, aleatorio) =>
      if Atender(s, p).Ok? && Atender(s, p).value != s {
        AjustarSano(s.kardex, d, esEntrada, cantidad, costo, ClaveAjuste(d, clave, aleatorio), s.variantes);
      }
    case PContabilizar(id) =>
      if id < |s.conteos| {
        ConteoSano(s.kardex, s.conteos[id].almacen, id, s.conteos[id].articulos, s.variantes);
      }
  }

  lemma {:induction false} FilaSana(s: Estado, p: Peticion)
    requires Sanos(s.kardex, s.variantes) && (p.PStockInicial? || p.PStockCatalogo? || p.PNivel? || p.PReserva? || p.PLiberar?)
    ensures QuedaSano(s, p)
  {
  }

  lemma {:induction false} CatalogoSano(s: Estado, p: Peticion)
    requires Sanos(s.kardex, s.variantes)
    requires p.PAlmacen? || p.PVariante? || p.PCrearConteo? || p.PRegistrarConteo? || p.PCancelarConteo?
    ensures QuedaSano(s, p)
  {
  }

  lemma {:induction false} PasoSano(s: Estado, p: Peticion)
    requires Valido(s) && Sanos(s.kardex, s.variantes)
    ensures Sanos(Paso(s, p).kardex, Paso(s, p).variantes)
  {
    assert QuedaSano(s, p) by {
      if EsTransferencia(p) {
        TransferenciaSana(s, p);
      } else if p.PVenta? || p.PRecepcion? || p.PDevolucion? {
        DocumentoSano(s, p);
      } else if p.PAjuste? || p.PContabilizar? {
        AjusteSano(s, p);
      } else if p.PStockInicial? || p.PStockCatalogo? || p.PNivel? || p.PReserva? || p.PLiberar? {
        FilaSana(s, p);
      } else {
        CatalogoSano(s, p);
      }
    }
  }

  lemma {:induction false} CorrerSano(ps: seq<Peticion>)
    ensures Sanos(Correr(INICIAL, ps).kardex, Correr(INICIAL, ps).variantes)
  {
    if |ps| > 0 {
      CorrerSano(ps[..|ps| - 1]);
      InicialValido();
      CorrerMantiene(INICIAL, ps[..|ps| - 1]);
      PasoSano(Correr(INICIAL, ps[..|ps| - 1]), ps[|ps| - 1]);
    }
  }

  /** After any run the average of a cell that forbids negative stock is not below zero. */
  lemma {:induction false} PromedioNuncaNegativo(ps: seq<Peticion>, c: Celda)
    ensures var s := Correr(INICIAL, ps); ProhibeNegativo(s.variantes, c) ==> Fila(s.kardex, c).costoPromedio >= 0.0
  {
    CorrerSano(ps);
    assert SaldoSano(Correr(INICIAL, ps).variantes, c, Fila(Correr(INICIAL, ps).kardex, c));
  }

  // ------------------------------------------------------------------ a run that gets there

  const CELDA: Celda := Celda(0, 0)
  const ABIERTO: Estado := INICIAL.(almacenes := map[0 := true], variantes := map[0 := Variante(true, true, true)])

  /** Five units in at ten, ten sold, six more in at one. */
  const APERTURA_DE_5: Asiento := Asiento(CELDA, None, APERTURA, 5.0, 10.0, 50.0, None, Cliente("a"))
  const VENTA_DE_10: Asiento := Asiento(CELDA, None, VENTA, -10.0, 10.0, -100.0, None, VentaLinea(0, 0, 0, 1, Linea))
  const COMPRA_DE_6: Asiento := Asiento(CELDA, None, RECEPCION_COMPRA, 6.0, 1.0, 6.0, None, Recepcion(0, 0, 0))

  const CON_5: Kardex := Kardex(map[CELDA := VACIO.(enStock := 5.0, available := 5.0, costoPromedio := 10.0)], [APERTURA_DE_5])
  const DEBE_5: Kardex :=
    Kardex(map[CELDA := VACIO.(enStock := -5.0, available := -5.0, costoPromedio := 10.0)], [APERTURA_DE_5, VENTA_DE_10])
  const CON_1: Kardex :=
    Kardex(map[CELDA := VACIO.(enStock := 1.0, available := 1.0, costoPromedio := -44.0)], [APERTURA_DE_5, VENTA_DE_10, COMPRA_DE_6])

  const A_CREDITO: seq<Peticion> :=
    [PAlmacen(0, true), PVariante(0, true, true, true), PStockInicial(CELDA, 5.0, 10.0, "a"),
     PVenta(0, [LineaStock(CELDA, 10.0, 1)], 0), PRecepcion("r", "R-1", 0, [ItemCompra(0, 6.0, 1.0, "", None)])]

  lemma {:induction false} Abre()
    ensures Correr(INICIAL, A_CREDITO[..3]) == ABIERTO.(kardex := CON_5)
  {
    var ps := A_CREDITO;
    assert ps[..1][..0] == [] && ps[..2][..1] == ps[..1] && ps[..3][..2] == ps[..2];
    assert Correr(INICIAL, ps[..1]) == INICIAL.(almacenes := map[0 := true]);
    assert Correr(INICIAL, ps[..2]) == ABIERTO;
    assert Abrir(ABIERTO.kardex, CELDA, 5.0, 10.0, Cliente("a")) == Ok(CON_5) by {
      assert ABIERTO.kardex.ledger + [APERTURA_DE_5] == CON_5.ledger;
      assert Valor(5.0, 10.0) == 50.0;
    }
  }

  lemma {:induction false} AsientaVenta()
    ensures Plegar(CON_5.ledger, [VENTA_DE_10], AsentarUno()) == Ok(DEBE_5.ledger)
  {
    assert Asentar(CON_5.ledger, VENTA_DE_10) == Ok(DEBE_5.ledger) by { assert CON_5.ledger + [VENTA_DE_10] == DEBE_5.ledger; }
    PlegarUno(CON_5.ledger, VENTA_DE_10, AsentarUno());
  }

  lemma {:induction false} RegistraVenta()
    ensures RegistrarLinea(Existencias(CON_5, []), LineaStock(CELDA, 10.0, 1), true, 0, 0) == Ok(Existencias(DEBE_5, []))
  {
    var l, sin: seq<Lote> := LineaStock(CELDA, 10.0, 1), [];
    assert ConsumirLotesFEFO(sin, CELDA, 10.0, true, 0) == Ok([]);
    assert AsientosVenta(l, 0, 10.0, []) == [VENTA_DE_10] by { assert Valor(10.0, 10.0) == 100.0; }
    AsientaVenta();
    assert CON_5.saldos[CELDA := DEBE_5.saldos[CELDA]] == DEBE_5.saldos && Descontar(sin, []) == sin;
  }

  lemma {:induction false} VendeDeMas()
    ensures Atender(ABIERTO.(kardex := CON_5), A_CREDITO[3]) == Ok(ABIERTO.(kardex := DEBE_5))
  {
    RegistraVenta();
    PlegarUno(Existencias(CON_5, []), LineaStock(CELDA, 10.0, 1), VenderLinea(ABIERTO.variantes, 0, 0));
  }

  lemma {:induction false} IngresaBarato()
    ensures Ingresar(DEBE_5, CELDA, 6.0, 1.0, 0) == Ok(CON_1)
  {
    assert CostoPonderado(-5.0, 10.0, 6.0, 1.0) == -44.0 by { assert Valor(-5.0, 10.0) + Valor(6.0, 1.0) == -44.0; }
    assert Valor(6.0, 1.0) == 6.0;
    assert Asentar(DEBE_5.ledger, COMPRA_DE_6) == Ok(CON_1.ledger) by { assert DEBE_5.ledger + [COMPRA_DE_6] == CON_1.ledger; }
    assert DEBE_5.saldos[CELDA := CON_1.saldos[CELDA]] == CON_1.saldos;
  }

  lemma {:induction false} CompraBarato()
    ensures var r := Atender(ABIERTO.(kardex := DEBE_5), A_CREDITO[4]);
      r.Ok? && r.value.kardex == CON_1 && r.value.variantes == ABIERTO.variantes
  {
    IngresaBarato();
    PlegarUno(Entrada(DEBE_5, [], []), ItemCompra(0, 6.0, 1.0, "", None), IngresarItem(0, 0));
  }

  lemma {:induction false} NingunaVenta(s: Estado, venta: nat, l: LineaStock, hoy: nat)
    requires Fila(s.kardex, l.celda).costoPromedio < 0.0 && l.celda.variante in s.variantes && s.variantes[l.celda.variante].isStockTracked
    ensures Vender(s, venta, [l], hoy).Err?
  {
    PlegarUno(Existencias(s.kardex, s.lotes), l, VenderLinea(s.variantes, venta, hoy));
    SinVentaBajoCero(Existencias(s.kardex, s.lotes), l, s.variantes[l.celda.variante].allowNegativeStock, venta, hoy);
  }

  lemma {:induction false} CorreElEjemplo()
    ensures Correr(INICIAL, A_CREDITO).kardex == CON_1 && Correr(INICIAL, A_CREDITO).variantes == ABIERTO.variantes
  {
    var ps := A_CREDITO;
    Abre();
    VendeDeMas();
    CompraBarato();
    assert ps[..4][..3] == ps[..3] && ps[..5][..4] == ps[..4] && ps[..5] == ps;
    assert Correr(INICIAL, ps[..4]) == ABIERTO.(kardex := DEBE_5);
  }

  /** Where negative stock is allowed: five units in at ten, ten sold and six more in at one leave
      one unit at an average of -44, and no sale of it is ever taken. */
  lemma {:induction false} PromedioNegativoPosible(venta: nat, l: LineaStock, hoy: nat)
    requires l.celda == CELDA
    ensures var s := Correr(INICIAL, A_CREDITO);
      Fila(s.kardex, CELDA).costoPromedio == -44.0 && Vender(s, venta, [l], hoy).Err?
  {
    CorreElEjemplo();
    NingunaVenta(Correr(INICIAL, A_CREDITO), venta, l, hoy);
  }
}
