/** When each request on the stock of a cell commits, and all that it then writes: its row, its entry, and
    nothing else. Conditions a caller can check before asking. */
module Guardas {
  import opened Comun
  import opened Sumas
  import opened Kardex
  import opened Movimientos
  import opened Lotes
  import opened Existencias
  import opened Inventario
  import opened Invariante

  /** The warehouse is open, and the variant is on sale and its stock is kept. */
  predicate Operable(s: Estado, c: Celda) {
    && c.almacen in s.almacenes && s.almacenes[c.almacen]
    && Inventariable(s.variantes, c.variante)
  }

  predicate Inventariable(vs: map<VarianteId, Variante>, v: VarianteId) {
    v in vs && vs[v].activa && vs[v].isStockTracked
  }

  /** Only the row of cell c and the ledger are written. */
  ghost predicate SoloCelda(s: Estado, s': Estado, c: Celda) {
    && s' == s.(kardex := s'.kardex)
    && s'.kardex.saldos.Keys == s.kardex.saldos.Keys + {c}
    && forall d :: d in s.kardex.saldos && d != c ==> s'.kardex.saldos[d] == s.kardex.saldos[d]
  }

  /** Exactly one entry is appended, with these contents. */
  predicate UnAsientoMas(antes: seq<Asiento>, despues: seq<Asiento>, c: Celda, tipo: TipoMovimiento, cantidad: real, costo: real, clave: Clave) {
    && |despues| == |antes| + 1 && despues[..|antes|] == antes
    && var a := despues[|antes|];
       && a.celda == c && a.lote == None && a.tipo == tipo && a.cantidad == cantidad && a.clave == clave
       && a.costoUnitario == costo && a.totalCost == cantidad * costo
  }

  /** Opening or closing a warehouse, and changing a variant, decide what the services take there and nothing
      else; a variant keeps for ever whether it may go below zero. */
  lemma {:induction false} CatalogoDeja(s: Estado, a: AlmacenId, activo: bool, v: VarianteId, rastrea: bool, permite: bool, activa: bool)
    ensures var s' := CambiarAlmacen(s, a, activo);
      && s' == s.(almacenes := s'.almacenes) && (AlmacenActivo(s', a) <==> activo)
      && forall b :: b != a ==> (AlmacenActivo(s', b) <==> AlmacenActivo(s, b))
    ensures var s' := CambiarVariante(s, v, rastrea, permite, activa);
      && s' == s.(variantes := s'.variantes) && (Inventariable(s'.variantes, v) <==> rastrea && activa)
      && (forall w :: w in s.variantes ==> w in s'.variantes && s'.variantes[w].allowNegativeStock == s.variantes[w].allowNegativeStock)
      && (v !in s.variantes ==> s'.variantes[v].allowNegativeStock == permite)
      && forall w :: w in s.variantes && w != v ==> s'.variantes[w] == s.variantes[w]
  {
  }

  // ------------------------------------------------------------------ opening

  /** A new row: the quantity, all of it available, at its cost. */
  predicate FilaAbierta(f: Saldo, cantidad: real, costo: real) {
    && f.enStock == cantidad && f.available == cantidad && f.costoPromedio == costo
    && f.reserved == 0.0 && f.enTransito == 0.0 && f.stockMinimo == 0.0 && f.stockMaximo == 0.0
  }

  lemma {:induction false} RegistrarStockInicialSii(s: Estado, c: Celda, cantidad: real, costo: real, clave: string)
    requires !ClaveUsada(s.kardex.ledger, Cliente(clave))
    ensures RegistrarStockInicial(s, c, cantidad, costo, clave).Ok? <==>
      cantidad > 0.0 && costo >= 0.0 && clave != "" && Operable(s, c) && c !in s.kardex.saldos
    ensures RegistrarStockInicial(s, c, cantidad, costo, clave).Ok? ==>
      var s' := RegistrarStockInicial(s, c, cantidad, costo, clave).value;
      && SoloCelda(s, s', c) && FilaAbierta(s'.kardex.saldos[c], cantidad, costo)
      && UnAsientoMas(s.kardex.ledger, s'.kardex.ledger, c, APERTURA, cantidad, costo, Cliente(clave))
  {
  }

  lemma {:induction false} CargarStockInicialSii(s: Estado, c: Celda, cantidad: real, costo: real)
    requires !ClaveUsada(s.kardex.ledger, Apertura(c.variante, c.almacen))
    ensures CargarStockInicial(s, c, cantidad, costo).Ok? <==>
      && cantidad > 0.0 && costo >= 0.0 && c.variante in s.variantes && s.variantes[c.variante].isStockTracked
      && c.almacen in s.almacenes && s.almacenes[c.almacen] && c !in s.kardex.saldos
    ensures CargarStockInicial(s, c, cantidad, costo).Ok? ==>
      var s' := CargarStockInicial(s, c, cantidad, costo).value;
      && SoloCelda(s, s', c) && FilaAbierta(s'.kardex.saldos[c], cantidad, costo)
      && UnAsientoMas(s.kardex.ledger, s'.kardex.ledger, c, APERTURA, cantidad, costo, Apertura(c.variante, c.almacen))
  {
  }

  // ------------------------------------------------------------------ adjustments

  /** The request was not made before under the same key. */
  predicate AjusteNuevo(s: Estado, clave: string) {
    clave == "" || !ClaveUsada(s.kardex.ledger, Ajuste(clave))
  }

  /** An exit needs a row; no adjustment may leave a variant below zero that forbids it; and the entry
      must not carry a negative cost. */
  predicate Ajustable(s: Estado, c: Celda, esEntrada: bool, cantidad: real, costo: Option<real>, clave: string, aleatorio: nat) {
    && cantidad > 0.0 && (costo.Some? ==> costo.value >= 0.0) && Operable(s, c)
    && !ClaveUsada(s.kardex.ledger, ClaveAjuste(c, clave, aleatorio))
    && if c in s.kardex.saldos then
         && (s.variantes[c.variante].allowNegativeStock || Delta(esEntrada, cantidad) + s.kardex.saldos[c].enStock >= 0.0)
         && ((esEntrada && costo.Some?) || s.kardex.saldos[c].costoPromedio >= 0.0)
       else esEntrada
  }

  function Delta(esEntrada: bool, cantidad: real): real {
    if esEntrada then cantidad else -cantidad
  }

  lemma {:induction false} AjustarSii(s: Estado, c: Celda, esEntrada: bool, cantidad: real, costo: Option<real>, clave: string, aleatorio: nat)
    requires AjusteNuevo(s, clave)
    ensures AjustarStock(s, c, esEntrada, cantidad, costo, clave, aleatorio).Ok? <==> Ajustable(s, c, esEntrada, cantidad, costo, clave, aleatorio)
  {
  }

  /** The average after an adjustment: only an entry with a cost of its own moves it, and then the value of
      the stock grows by the value that came in, or the new cost is taken where that cannot be weighed. */
  predicate PromedioAjustado(f: Saldo, f': Saldo, esEntrada: bool, cantidad: real, costo: Option<real>) {
    if !esEntrada || costo.None? then f'.costoPromedio == f.costoPromedio
    else if f.enStock + cantidad > 0.0 then f'.enStock * f'.costoPromedio == f.enStock * f.costoPromedio + cantidad * costo.value
    else f'.costoPromedio == costo.value
  }

  /** The row of an adjusted cell: the quantity in or out, and nothing set aside or on its way changes. */
  predicate FilaAjustada(f: Saldo, f': Saldo, esEntrada: bool, cantidad: real) {
    && f'.enStock == f.enStock + Delta(esEntrada, cantidad) && f'.available == f'.enStock - f'.reserved
    && f'.reserved == f.reserved && f'.enTransito == f.enTransito
    && f'.stockMinimo == f.stockMinimo && f'.stockMaximo == f.stockMaximo
  }

  function CostoUsado(f: Saldo, esEntrada: bool, costo: Option<real>): real {
    if esEntrada && costo.Some? then costo.value else f.costoPromedio
  }

  lemma {:induction false} AjustarAsiento(k: Kardex, c: Celda, esEntrada: bool, cantidad: real, costo: Option<real>, permite: bool, clave: Clave)
    requires Ajustar(k, c, esEntrada, cantidad, costo, permite, clave).Ok?
    ensures UnAsientoMas(k.ledger, Ajustar(k, c, esEntrada, cantidad, costo, permite, clave).value.ledger, c,
                         if esEntrada then AJUSTE_ENTRADA else AJUSTE_SALIDA, Delta(esEntrada, cantidad),
                         CostoUsado(Fila(k, c), esEntrada, costo), clave)
  {
    ValorSuma(0.0, cantidad, CostoUsado(Fila(k, c), esEntrada, costo));
  }

  lemma {:induction false} AjustarPromedio(k: Kardex, c: Celda, esEntrada: bool, cantidad: real, costo: Option<real>, permite: bool, clave: Clave)
    requires Ajustar(k, c, esEntrada, cantidad, costo, permite, clave).Ok?
    ensures PromedioAjustado(Fila(k, c), Fila(Ajustar(k, c, esEntrada, cantidad, costo, permite, clave).value, c), esEntrada, cantidad, costo)
  {
    var f := Fila(k, c);
    if esEntrada && costo.Some? && f.enStock + cantidad > 0.0 {
      PonderadoConserva(f.enStock, f.costoPromedio, cantidad, costo.value);
    }
  }

  lemma {:induction false} AjustarFila(k: Kardex, c: Celda, esEntrada: bool, cantidad: real, costo: Option<real>, permite: bool, clave: Clave)
    requires Ajustar(k, c, esEntrada, cantidad, costo, permite, clave).Ok?
    ensures var k' := Ajustar(k, c, esEntrada, cantidad, costo, permite, clave).value;
      c in k'.saldos && k'.saldos == k.saldos[c := k'.saldos[c]] && FilaAjustada(Fila(k, c), k'.saldos[c], esEntrada, cantidad)
  {
  }

  /** An adjustment that commits for the first time moves the stock of its cell in its direction, changes no
      other cell, and appends one entry of that sign and type, at the cost given or at the average. */
  lemma {:induction false} AjustarCelda(s: Estado, c: Celda, esEntrada: bool, cantidad: real, costo: Option<real>, clave: string, aleatorio: nat)
    requires AjusteNuevo(s, clave) && AjustarStock(s, c, esEntrada, cantidad, costo, clave, aleatorio).Ok?
    ensures var s' := AjustarStock(s, c, esEntrada, cantidad, costo, clave, aleatorio).value;
      var f, f' := Fila(s.kardex, c), Fila(s'.kardex, c);
      && SoloCelda(s, s', c) && FilaAjustada(f, f', esEntrada, cantidad) && PromedioAjustado(f, f', esEntrada, cantidad, costo)
      && UnAsientoMas(s.kardex.ledger, s'.kardex.ledger, c, if esEntrada then AJUSTE_ENTRADA else AJUSTE_SALIDA,
                      Delta(esEntrada, cantidad), CostoUsado(f, esEntrada, costo), ClaveAjuste(c, clave, aleatorio))
  {
    var permite, llave := s.variantes[c.variante].allowNegativeStock, ClaveAjuste(c, clave, aleatorio);
    AjustarFila(s.kardex, c, esEntrada, cantidad, costo, permite, llave);
    AjustarPromedio(s.kardex, c, esEntrada, cantidad, costo, permite, llave);
    AjustarAsiento(s.kardex, c, esEntrada, cantidad, costo, permite, llave);
  }

  /** Asked again under the same key, nothing happens. */
  lemma {:induction false} AjusteRepetido(s: Estado, c: Celda, esEntrada: bool, cantidad: real, costo: Option<real>, clave: string, aleatorio: nat)
    requires !AjusteNuevo(s, clave)
    ensures AjustarStock(s, c, esEntrada, cantidad, costo, clave, aleatorio).Ok? <==>
      cantidad > 0.0 && (costo.Some? ==> costo.value >= 0.0) && Operable(s, c)
    ensures AjustarStock(s, c, esEntrada, cantidad, costo, clave, aleatorio).Ok? ==>
      AjustarStock(s, c, esEntrada, cantidad, costo, clave, aleatorio).value == s
  {
  }

  // ------------------------------------------------------------------ levels and reservations

  lemma {:induction false} DefinirNivelSii(s: Estado, c: Celda, minimo: real, maximo: real)
    ensures DefinirNivelStock(s, c, minimo, maximo).Ok? <==>
      minimo >= 0.0 && maximo >= 0.0 && (maximo == 0.0 || minimo <= maximo) && Operable(s, c)
    ensures DefinirNivelStock(s, c, minimo, maximo).Ok? ==>
      var s' := DefinirNivelStock(s, c, minimo, maximo).value;
      var f, f' := Fila(s.kardex, c), Fila(s'.kardex, c);
      && SoloCelda(s, s', c) && s'.kardex.ledger == s.kardex.ledger
      && f'.stockMinimo == minimo && f'.stockMaximo == maximo
      && f'.enStock == f.enStock && f'.available == f.available && f'.reserved == f.reserved && f'.enTransito == f.enTransito
      && f'.costoPromedio == f.costoPromedio
  {
  }

  /** A reservation commits exactly when that much is available; it takes it from available to reserved and
      leaves the stock as it is. */
  lemma {:induction false} CrearReservaSii(s: Estado, c: Celda, cantidad: real)
    requires Cuadra(s.kardex)
    ensures CrearReserva(s, c, cantidad).Ok? <==>
      cantidad > 0.0 && Inventariable(s.variantes, c.variante) && c in s.kardex.saldos && s.kardex.saldos[c].available >= cantidad
    ensures CrearReserva(s, c, cantidad).Ok? ==>
      var s' := CrearReserva(s, c, cantidad).value;
      var f, f' := Fila(s.kardex, c), Fila(s'.kardex, c);
      && s' == s.(kardex := s'.kardex, reservas := s'.reservas) && s'.kardex.ledger == s.kardex.ledger
      && s'.kardex.saldos == s.kardex.saldos[c := f']
      && f' == f.(reserved := f.reserved + cantidad, available := f.available - cantidad)
      && s'.reservas == s.reservas + [Reserva(c, cantidad, 0.0, ACTIVA)]
  {
    if c in s.kardex.saldos {
      assert CuadraCelda(s.kardex, c);
    }
  }

  /** A release commits exactly when the reservation is open; it gives back what was not attended and closes
      the reservation. */
  lemma {:induction false} LiberarReservaSii(s: Estado, id: nat)
    requires Valido(s)
    ensures LiberarReserva(s, id).Ok? <==>
      id < |s.reservas| && (s.reservas[id].estado == ACTIVA || s.reservas[id].estado == PARCIALMENTE_ATENDIDA)
    ensures LiberarReserva(s, id).Ok? ==>
      var s', r := LiberarReserva(s, id).value, s.reservas[id];
      var f, f', pendiente := Fila(s.kardex, r.celda), Fila(s'.kardex, r.celda), r.cantidad - r.cantidadAtendida;
      && s' == s.(kardex := s'.kardex, reservas := s.reservas[id := r.(estado := LIBERADA)]) && s'.kardex.ledger == s.kardex.ledger
      && (forall d :: d != r.celda ==> Fila(s'.kardex, d) == Fila(s.kardex, d))
      && f' == f.(reserved := f.reserved - pendiente, available := f.available + pendiente)
  {
    if LiberarReserva(s, id).Ok? {
      LiberarReservaSinRecorte(s, id);
      assert CuadraCelda(s.kardex, s.reservas[id].celda);
    }
  }
}
