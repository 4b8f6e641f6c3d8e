/** The two tables every stock movement writes: the append-only ledger (kardex) and the
    cached balance of each warehouse and variant. Quantities and costs are exact. */
module Kardex {
  import opened Comun
  import opened Sumas

  type AlmacenId = nat
  type VarianteId = nat

  datatype Celda = Celda(almacen: AlmacenId, variante: VarianteId)

  /** One StockBalance row. */
  datatype Saldo = Saldo(
    enStock: real, available: real, reserved: real, enTransito: real, costoPromedio: real,
    stockMinimo: real, stockMaximo: real)

  /** The column defaults: what a row holds when a writer names none of them. */
  const VACIO: Saldo := Saldo(0.0, 0.0, 0.0, 0.0, 0.0, 0.0, 0.0)

  datatype TipoMovimiento =
    | APERTURA | AJUSTE_ENTRADA | AJUSTE_SALIDA | GANANCIA_CONTEO | PERDIDA_CONTEO
    | TRANSFERENCIA_SALIDA | TRANSFERENCIA_ENTRADA | VENTA | DEVOLUCION_VENTA | RECEPCION_COMPRA

  datatype Sufijo = Linea | PorLote(lote: nat) | Resto

  /** The ledger idempotency keys, one constructor for each shape of string the services build.
      Client keys carry no ':', so distinct values here are distinct strings there. */
  datatype Clave =
    | Cliente(clave: string)
    | Apertura(variante: VarianteId, almacen: AlmacenId)
    | Ajuste(clave: string)
    | AjusteLibre(variante: VarianteId, almacen: AlmacenId, aleatorio: nat)
    | Conteo(conteo: nat, variante: VarianteId)
    | TransfSalida(clave: string, variante: VarianteId)
    | TransfEntrada(clave: string, variante: VarianteId)
    | TransfCancel(transferencia: nat, variante: VarianteId)
    | VentaLinea(venta: nat, almacen: AlmacenId, variante: VarianteId, linea: nat, sufijo: Sufijo)
    | Devolucion(devolucion: nat, almacen: AlmacenId, variante: VarianteId)
    | Recepcion(recepcion: nat, almacen: AlmacenId, variante: VarianteId)

  /** One InventoryLedgerEntry row. */
  datatype Asiento = Asiento(
    celda: Celda, lote: Option<nat>, tipo: TipoMovimiento, cantidad: real,
    costoUnitario: real, totalCost: real, correlacion: Option<nat>, clave: Clave)

  datatype Variante = Variante(isStockTracked: bool, allowNegativeStock: bool, activa: bool)

  datatype Kardex = Kardex(saldos: map<Celda, Saldo>, ledger: seq<Asiento>)

  function Fila(k: Kardex, c: Celda): Saldo {
    if c in k.saldos then k.saldos[c] else VACIO
  }

  /** What a quantity is worth at a unit cost. */
  function Valor(cantidad: real, costo: real): real {
    cantidad * costo
  }

  lemma {:induction false} ValorSuma(a: real, b: real, costo: real)
    ensures Valor(a + b, costo) == Valor(a, costo) + Valor(b, costo)
    ensures Valor(a - b, costo) == Valor(a, costo) - Valor(b, costo)
    ensures Valor(-b, costo) == -Valor(b, costo)
  {
  }

  function CantidadEn(c: Celda): Asiento -> real {
    (a: Asiento) => if a.celda == c then a.cantidad else 0.0
  }

  function CostoEn(c: Celda): Asiento -> real {
    (a: Asiento) => if a.celda == c then a.totalCost else 0.0
  }

  function CantidadDeLote(l: nat): Asiento -> real {
    (a: Asiento) => if a.lote == Some(l) then a.cantidad else 0.0
  }

  predicate ClaveUsada(ledger: seq<Asiento>, clave: Clave) {
    exists a :: a in ledger && a.clave == clave
  }

  ghost predicate ClavesDistintas(ledger: seq<Asiento>) {
    forall i, j :: 0 <= i < j < |ledger| ==> ledger[i].clave != ledger[j].clave
  }

  /** Value carried by the cached balance minus value recorded in the ledger. */
  ghost function Brecha(k: Kardex, c: Celda): real {
    Valor(Fila(k, c).enStock, Fila(k, c).costoPromedio) - Suma(k.ledger, CostoEn(c))
  }

  /** Nothing lets the cell go below zero. */
  predicate ProhibeNegativo(vs: map<VarianteId, Variante>, c: Celda) {
    c.variante in vs ==> !vs[c.variante].allowNegativeStock
  }

  // ------------------------------------------------------------------ invariants

  ghost predicate CuadraCelda(k: Kardex, c: Celda) {
    && Suma(k.ledger, CantidadEn(c)) == Fila(k, c).enStock
    && Fila(k, c).available == Fila(k, c).enStock - Fila(k, c).reserved
    && Fila(k, c).reserved >= 0.0
    && Fila(k, c).enTransito >= 0.0
  }

  /** The cache agrees with the ledger in every cell and no ledger key repeats. */
  ghost predicate Cuadra(k: Kardex) {
    && (forall c :: CuadraCelda(k, c))
    && ClavesDistintas(k.ledger)
  }

  /** Rows belong to known variants, and those that forbid it are never below zero. */
  ghost predicate Firme(k: Kardex, vs: map<VarianteId, Variante>) {
    forall c :: c in k.saldos ==>
      && c.variante in vs
      && (!vs[c.variante].allowNegativeStock ==> k.saldos[c].enStock >= 0.0)
  }

  /** What a movement that is neither a reservation nor a transfer may do to the tables:
      the invariants hold afterwards, nothing set aside or on its way changes, rows and
      entries only grow, and no value leaks where negative stock is forbidden. */
  ghost predicate Sigue(k: Kardex, k': Kardex, vs: map<VarianteId, Variante>) {
    && Cuadra(k') && Firme(k', vs)
    && k.saldos.Keys <= k'.saldos.Keys
    && k.ledger <= k'.ledger
    && (forall c :: SigueCelda(k, k', vs, c))
  }

  /** One cell gains `stock` units, has `transito` more on their way, keeps what is set aside,
      and the gap between its cached and recorded value moves by `brecha`. */
  ghost predicate CambiaCelda(k: Kardex, k': Kardex, vs: map<VarianteId, Variante>, c: Celda,
                              stock: real, transito: real, brecha: real) {
    && Fila(k', c).enStock == Fila(k, c).enStock + stock
    && Fila(k', c).enTransito == Fila(k, c).enTransito + transito
    && Fila(k', c).reserved == Fila(k, c).reserved
    && (ProhibeNegativo(vs, c) ==> Brecha(k', c) == Brecha(k, c) + brecha)
  }

  /** How a transfer movement changes cell c: stock (and value) at one cell, goods on their
      way at another, nothing set aside and nothing anywhere else. */
  ghost predicate TrasladaCelda(k: Kardex, k': Kardex, vs: map<VarianteId, Variante>, c: Celda,
                                en: Celda, stock: real, brecha: real, hacia: Celda, transito: real) {
    CambiaCelda(k, k', vs, c, if c == en then stock else 0.0, if c == hacia then transito else 0.0,
                if c == en then brecha else 0.0)
  }

  ghost predicate Traslada(k: Kardex, k': Kardex, vs: map<VarianteId, Variante>,
                           en: Celda, stock: real, brecha: real, hacia: Celda, transito: real) {
    forall c :: TrasladaCelda(k, k', vs, c, en, stock, brecha, hacia, transito)
  }

  ghost predicate SigueCelda(k: Kardex, k': Kardex, vs: map<VarianteId, Variante>, c: Celda) {
    && Fila(k', c).reserved == Fila(k, c).reserved
    && Fila(k', c).enTransito == Fila(k, c).enTransito
    && (ProhibeNegativo(vs, c) ==> Brecha(k', c) == Brecha(k, c))
  }

  /** The entries a movement appended carry no lot. */
  ghost predicate SinLotes(l: seq<Asiento>, l': seq<Asiento>) {
    && l <= l'
    && forall i :: |l| <= i < |l'| ==> l'[i].lote == None
  }

  // ------------------------------------------------------------------ writing

  function Escribir(k: Kardex, c: Celda, s: Saldo, a: Asiento): Kardex {
    Kardex(k.saldos[c := s], k.ledger + [a])
  }

  /** The CHECK constraints of a ledger row: it moves something, and not at a negative cost. */
  predicate Admitido(a: Asiento) {
    a.cantidad != 0.0 && a.costoUnitario >= 0.0
  }

  /** Insert one ledger row, unless a constraint or the unique index on the key refuses it. */
  function Asentar(ledger: seq<Asiento>, a: Asiento): Resultado<seq<Asiento>> {
    if !Admitido(a) then Err(Restringido)
    else if ClaveUsada(ledger, a.clave) then Err(ClaveRepetida)
    else Ok(ledger + [a])
  }

  /** Balance row and ledger row of one movement. */
  function Mover(k: Kardex, c: Celda, s: Saldo, a: Asiento): Resultado<Kardex> {
    var ledger :- Asentar(k.ledger, a);
    Ok(Kardex(k.saldos[c := s], ledger))
  }

  lemma {:induction false} EscribirCuadra(k: Kardex, c: Celda, s: Saldo, a: Asiento)
    requires Cuadra(k) && a.celda == c && !ClaveUsada(k.ledger, a.clave)
    requires s.enStock == Fila(k, c).enStock + a.cantidad
    requires s.available == s.enStock - s.reserved && s.reserved >= 0.0 && s.enTransito >= 0.0
    ensures Cuadra(Escribir(k, c, s, a))
  {
    var k' := Escribir(k, c, s, a);
    forall d ensures CuadraCelda(k', d) {
      assert CuadraCelda(k, d);
    }
    assert forall i :: 0 <= i < |k.ledger| ==> k.ledger[i] in k.ledger;
  }

  lemma {:induction false} EscribirSigue(k: Kardex, c: Celda, s: Saldo, a: Asiento, vs: map<VarianteId, Variante>)
    requires Cuadra(k) && Firme(k, vs) && a.celda == c && !ClaveUsada(k.ledger, a.clave)
    requires c.variante in vs
    requires s.enStock == Fila(k, c).enStock + a.cantidad
    requires s.available == s.enStock - s.reserved
    requires s.reserved == Fila(k, c).reserved && s.enTransito == Fila(k, c).enTransito
    requires ProhibeNegativo(vs, c) ==> s.enStock >= 0.0
    requires ProhibeNegativo(vs, c) ==>
      Valor(s.enStock, s.costoPromedio) == Valor(Fila(k, c).enStock, Fila(k, c).costoPromedio) + a.totalCost
    ensures Sigue(k, Escribir(k, c, s, a), vs)
  {
    assert CuadraCelda(k, c);
    EscribirCuadra(k, c, s, a);
    var k' := Escribir(k, c, s, a);
    forall d ensures SigueCelda(k, k', vs, d) {
    }
  }

  lemma {:induction false} EscribirVariosSumas(k: Kardex, c: Celda, filas: seq<Asiento>, d: Celda)
    requires forall i :: 0 <= i < |filas| ==> filas[i].celda == c
    ensures Suma(k.ledger + filas, CantidadEn(d))
         == Suma(k.ledger, CantidadEn(d)) + (if d == c then Suma(filas, CantidadEn(c)) else 0.0)
    ensures Suma(k.ledger + filas, CostoEn(d))
         == Suma(k.ledger, CostoEn(d)) + (if d == c then Suma(filas, CostoEn(c)) else 0.0)
  {
    SumaConcat(k.ledger, filas, CantidadEn(d));
    SumaConcat(k.ledger, filas, CostoEn(d));
    if d != c {
      SumaNula(filas, CantidadEn(d));
      SumaNula(filas, CostoEn(d));
    }
  }

  /** A movement recorded by several entries of one cell, as a sale by lots is. */
  lemma {:induction false} EscribirVariosSigue(k: Kardex, c: Celda, s: Saldo, filas: seq<Asiento>, vs: map<VarianteId, Variante>)
    requires Cuadra(k) && Firme(k, vs) && c.variante in vs
    requires forall i :: 0 <= i < |filas| ==> filas[i].celda == c
    requires ClavesDistintas(k.ledger + filas)
    requires s.enStock == Fila(k, c).enStock + Suma(filas, CantidadEn(c))
    requires s.available == s.enStock - s.reserved
    requires s.reserved == Fila(k, c).reserved && s.enTransito == Fila(k, c).enTransito
    requires ProhibeNegativo(vs, c) ==> s.enStock >= 0.0
    requires ProhibeNegativo(vs, c) ==>
      Valor(s.enStock, s.costoPromedio) == Valor(Fila(k, c).enStock, Fila(k, c).costoPromedio) + Suma(filas, CostoEn(c))
    ensures Sigue(k, Kardex(k.saldos[c := s], k.ledger + filas), vs)
  {
    var k' := Kardex(k.saldos[c := s], k.ledger + filas);
    var cantidad, costo := Suma(filas, CantidadEn(c)), Suma(filas, CostoEn(c));
    assert CuadraCelda(k, c);
    forall d ensures CuadraCelda(k', d) && SigueCelda(k, k', vs, d) {
      assert CuadraCelda(k, d);
      EscribirVariosSumas(k, c, filas, d);
    }
  }

  lemma {:induction false} SigueTransitiva(k: Kardex, k': Kardex, k'': Kardex, vs: map<VarianteId, Variante>)
    requires Sigue(k, k', vs) && Sigue(k', k'', vs)
    ensures Sigue(k, k'', vs)
  {
    forall c ensures SigueCelda(k, k'', vs, c) {
      assert SigueCelda(k, k', vs, c) && SigueCelda(k', k'', vs, c);
    }
  }

  lemma {:induction false} SigueReflexiva(k: Kardex, vs: map<VarianteId, Variante>)
    requires Cuadra(k) && Firme(k, vs)
    ensures Sigue(k, k, vs)
  {
  }

  /** Entries without a lot leave every lot's ledger sum alone. */
  lemma {:induction false} SinLotesSuma(l: seq<Asiento>, l': seq<Asiento>, lote: nat)
    requires SinLotes(l, l')
    ensures Suma(l', CantidadDeLote(lote)) == Suma(l, CantidadDeLote(lote))
  {
    assert l' == l + l'[|l|..];
    SumaConcat(l, l'[|l|..], CantidadDeLote(lote));
    SumaNula(l'[|l|..], CantidadDeLote(lote));
  }
}
