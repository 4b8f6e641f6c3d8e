/** When a payment commits and what it does to each instalment, and what the states of accounts and
    instalments say: pending while nothing was allocated, then partly paid until nothing is owed. */
module Cobranza {
  import opened Comun
  import opened Sumas
  import opened Cuentas

  // ------------------------------------------------------------------ when a payment commits

  function ParaCuota(j: nat): Linea -> real {
    (l: Linea) => if l.cuota == j then l.monto else 0.0
  }

  predicate NombraCuota(lineas: seq<Linea>, j: nat) {
    exists k :: 0 <= k < |lineas| && lineas[k].cuota == j
  }

  /** The line pays an instalment that exists, and not more than it owes. */
  predicate Pagable(s: Libro, l: Linea) {
    l.cuota < |s.cuotas| && l.monto <= s.cuotas[l.cuota].montoPendiente
  }

  ghost predicate CuotasDistintas(lineas: seq<Linea>) {
    forall i, j :: 0 <= i < j < |lineas| ==> lineas[i].cuota != lineas[j].cuota
  }

  ghost predicate Repartible(s: Libro, lineas: seq<Linea>) {
    CuotasDistintas(lineas) && forall i :: 0 <= i < |lineas| ==> Pagable(s, lineas[i])
  }

  /** What allocating some lines of a payment leaves of the tables. */
  ghost predicate Repartido(s: Libro, e: EnPago, pago: nat, lineas: seq<Linea>) {
    && e.libro.cuentas == s.cuentas && e.libro.pagos == s.pagos && |e.libro.cuotas| == |s.cuotas|
    && |e.libro.asignaciones| == |s.asignaciones| + |lineas| && e.libro.asignaciones[..|s.asignaciones|] == s.asignaciones
    && (forall i :: 0 <= i < |lineas| ==> e.libro.asignaciones[|s.asignaciones| + i] == Asignacion(pago, lineas[i].cuota, lineas[i].monto))
    && (forall j :: 0 <= j < |s.cuotas| ==> CuotaTras(s.cuotas[j], e.libro.cuotas[j], lineas, j))
    && (forall i :: 0 <= i < |s.cuentas| ==> (i in e.tocadas <==> TocaCuenta(s.cuotas, lineas, i)))
  }

  /** The instalment owes less by what the lines pay of it, and is settled or partly paid if any names it. */
  predicate CuotaTras(q: Cuota, q': Cuota, lineas: seq<Linea>, j: nat) {
    && q'.cuenta == q.cuenta && q'.monto == q.monto
    && q'.montoPendiente == q.montoPendiente - Suma(lineas, ParaCuota(j))
    && q'.estado == if NombraCuota(lineas, j) then (if q'.montoPendiente <= 0.0 then PAGADA else PAGADA_PARCIALMENTE) else q.estado
  }

  predicate TocaCuenta(cuotas: seq<Cuota>, lineas: seq<Linea>, i: nat) {
    exists k :: 0 <= k < |lineas| && CuentaDe(cuotas, lineas[k].cuota) == i
  }

  /** The payment is new to the allocations. */
  predicate SinAsignar(s: Libro, pago: nat) {
    forall i :: 0 <= i < |s.asignaciones| ==> s.asignaciones[i].pago != pago
  }

  lemma {:induction false} NombraUltima(lineas: seq<Linea>, j: nat)
    requires |lineas| > 0
    ensures NombraCuota(lineas, j) <==> NombraCuota(lineas[..|lineas| - 1], j) || lineas[|lineas| - 1].cuota == j
  {
    var n := |lineas| - 1;
    if NombraCuota(lineas[..n], j) {
      var k :| 0 <= k < n && lineas[..n][k].cuota == j;
      assert lineas[k].cuota == j;
    }
    if NombraCuota(lineas, j) && lineas[n].cuota != j {
      var k :| 0 <= k < |lineas| && lineas[k].cuota == j;
      assert lineas[..n][k].cuota == j;
    }
  }

  lemma {:induction false} TocaUltima(cuotas: seq<Cuota>, lineas: seq<Linea>, i: nat)
    requires |lineas| > 0
    ensures TocaCuenta(cuotas, lineas, i) <==>
      TocaCuenta(cuotas, lineas[..|lineas| - 1], i) || CuentaDe(cuotas, lineas[|lineas| - 1].cuota) == i
  {
    var n := |lineas| - 1;
    if TocaCuenta(cuotas, lineas[..n], i) {
      var k :| 0 <= k < n && CuentaDe(cuotas, lineas[..n][k].cuota) == i;
      assert CuentaDe(cuotas, lineas[k].cuota) == i;
    }
    if TocaCuenta(cuotas, lineas, i) && CuentaDe(cuotas, lineas[n].cuota) != i {
      var k :| 0 <= k < |lineas| && CuentaDe(cuotas, lineas[k].cuota) == i;
      assert CuentaDe(cuotas, lineas[..n][k].cuota) == i;
    }
  }

  lemma {:induction false} SinNombrar(lineas: seq<Linea>, j: nat)
    requires !NombraCuota(lineas, j)
    ensures Suma(lineas, ParaCuota(j)) == 0.0
  {
    SumaNula(lineas, ParaCuota(j));
  }

  lemma {:induction false} YaAsignadaSii(s: Libro, e: EnPago, pago: nat, lineas: seq<Linea>, j: nat)
    requires Repartido(s, e, pago, lineas) && SinAsignar(s, pago)
    ensures YaAsignada(e.libro.asignaciones, pago, j) <==> NombraCuota(lineas, j)
  {
    var n, as' := |s.asignaciones|, e.libro.asignaciones;
    if NombraCuota(lineas, j) {
      var k :| 0 <= k < |lineas| && lineas[k].cuota == j;
      assert as'[n + k] == Asignacion(pago, j, lineas[k].monto);
    }
    if YaAsignada(as', pago, j) {
      var i :| 0 <= i < |as'| && as'[i].pago == pago && as'[i].cuota == j;
      assert i >= n by {
        assert forall h :: 0 <= h < n ==> as'[..n][h] == as'[h] == s.asignaciones[h];
      }
      assert as'[n + (i - n)].cuota == lineas[i - n].cuota;
    }
  }

  /** One more line commits exactly when it is payable and no line before it named its instalment. */
  lemma {:induction false} RepartePaso(s: Libro, e: EnPago, pago: nat, lineas: seq<Linea>, l: Linea)
    requires Repartido(s, e, pago, lineas) && SinAsignar(s, pago)
    ensures Asignar(pago)(e, l).Ok? <==> !NombraCuota(lineas, l.cuota) && Pagable(s, l)
  {
    YaAsignadaSii(s, e, pago, lineas, l.cuota);
    if l.cuota < |s.cuotas| && !NombraCuota(lineas, l.cuota) {
      SinNombrar(lineas, l.cuota);
      assert CuotaTras(s.cuotas[l.cuota], e.libro.cuotas[l.cuota], lineas, l.cuota);
    }
  }

  lemma {:induction false} CuotaPaso(s: Libro, e: EnPago, pago: nat, lineas: seq<Linea>, j: nat)
    requires |lineas| > 0 && j < |s.cuotas|
    requires var previas := lineas[..|lineas| - 1];
      Repartido(s, e, pago, previas) && Asignar(pago)(e, lineas[|lineas| - 1]).Ok?
    ensures var e' := Asignar(pago)(e, lineas[|lineas| - 1]).value;
      |e'.libro.cuotas| == |s.cuotas| && CuotaTras(s.cuotas[j], e'.libro.cuotas[j], lineas, j)
  {
    assert CuotaTras(s.cuotas[j], e.libro.cuotas[j], lineas[..|lineas| - 1], j);
    NombraUltima(lineas, j);
  }

  lemma {:induction false} ReparteSigue(s: Libro, e: EnPago, pago: nat, lineas: seq<Linea>)
    requires |lineas| > 0 && Repartido(s, e, pago, lineas[..|lineas| - 1]) && Asignar(pago)(e, lineas[|lineas| - 1]).Ok?
    ensures Repartido(s, Asignar(pago)(e, lineas[|lineas| - 1]).value, pago, lineas)
  {
    var n := |lineas| - 1;
    var e' := Asignar(pago)(e, lineas[n]).value;
    forall j | 0 <= j < |s.cuotas| ensures CuotaTras(s.cuotas[j], e'.libro.cuotas[j], lineas, j) {
      CuotaPaso(s, e, pago, lineas, j);
    }
    assert CuotaTras(s.cuotas[lineas[n].cuota], e.libro.cuotas[lineas[n].cuota], lineas[..n], lineas[n].cuota);
    forall i | 0 <= i < |s.cuentas| ensures i in e'.tocadas <==> TocaCuenta(s.cuotas, lineas, i) {
      TocaUltima(s.cuotas, lineas, i);
    }
    forall i | 0 <= i < |lineas|
      ensures e'.libro.asignaciones[|s.asignaciones| + i] == Asignacion(pago, lineas[i].cuota, lineas[i].monto) {
      assert i < n ==> lineas[..n][i] == lineas[i];
    }
  }

  lemma {:induction false} RepartibleUltima(s: Libro, lineas: seq<Linea>)
    requires |lineas| > 0
    ensures var n := |lineas| - 1;
      Repartible(s, lineas) <==> Repartible(s, lineas[..n]) && !NombraCuota(lineas[..n], lineas[n].cuota) && Pagable(s, lineas[n])
  {
    var n := |lineas| - 1;
    assert forall i :: 0 <= i < n ==> lineas[..n][i] == lineas[i];
    if Repartible(s, lineas[..n]) && !NombraCuota(lineas[..n], lineas[n].cuota) && Pagable(s, lineas[n]) {
      forall i, j | 0 <= i < j < |lineas| ensures lineas[i].cuota != lineas[j].cuota {
        assert lineas[..n][i].cuota == lineas[i].cuota;
      }
      forall i | 0 <= i < |lineas| ensures Pagable(s, lineas[i]) {
        assert i < n ==> Pagable(s, lineas[..n][i]);
      }
    }
  }

  /** The loop over the lines succeeds exactly when each is payable and no instalment is named twice. */
  lemma {:induction false} RepartirSii(s: Libro, pago: nat, lineas: seq<Linea>)
    requires SinAsignar(s, pago)
    ensures var r := Plegar(EnPago(s, []), lineas, Asignar(pago));
      && (r.Ok? <==> Repartible(s, lineas))
      && (r.Ok? ==> Repartido(s, r.value, pago, lineas))
  {
    if |lineas| == 0 {
      assert Repartido(s, EnPago(s, []), pago, lineas);
    } else {
      var n := |lineas| - 1;
      RepartirSii(s, pago, lineas[..n]);
      RepartibleUltima(s, lineas);
      var r := Plegar(EnPago(s, []), lineas[..n], Asignar(pago));
      if r.Ok? {
        RepartePaso(s, r.value, pago, lineas[..n], lineas[n]);
        if Asignar(pago)(r.value, lineas[n]).Ok? {
          ReparteSigue(s, r.value, pago, lineas);
        }
      }
    }
  }

  /** A payment under a new key commits exactly when it is for something, its lines add up to it, and each
      names another instalment that owes at least as much. */
  lemma {:induction false} RegistrarPagoSii(s: Libro, clave: string, monto: real, lineas: seq<Linea>)
    requires Referencias(s) && !PagoConClave(s.pagos, clave)
    ensures RegistrarPago(s, clave, monto, lineas).Ok? <==>
      |lineas| > 0 && monto > 0.0 && Suma(lineas, MontoDe()) == monto && Repartible(s, lineas)
  {
    var s0 := s.(pagos := s.pagos + [Pago(clave, monto)]);
    RepartirSii(s0, |s.pagos|, lineas);
    assert Repartible(s0, lineas) <==> Repartible(s, lineas) by {
      assert forall l :: Pagable(s0, l) <==> Pagable(s, l);
    }
  }

  /** What a payment leaves: its row and one allocation a line; each instalment owes less by what was
      allocated to it; and the accounts it touched owe what their instalments owe. */
  ghost predicate Cobrado(s: Libro, s': Libro, clave: string, monto: real, lineas: seq<Linea>) {
    && s'.pagos == s.pagos + [Pago(clave, monto)] && |s'.cuotas| == |s.cuotas| && |s'.cuentas| == |s.cuentas|
    && |s'.asignaciones| == |s.asignaciones| + |lineas| && s'.asignaciones[..|s.asignaciones|] == s.asignaciones
    && (forall i :: 0 <= i < |lineas| ==> s'.asignaciones[|s.asignaciones| + i] == Asignacion(|s.pagos|, lineas[i].cuota, lineas[i].monto))
    && (forall j :: 0 <= j < |s.cuotas| ==> CuotaTras(s.cuotas[j], s'.cuotas[j], lineas, j))
    && (forall i :: 0 <= i < |s.cuentas| ==> CuentaTras(s, s', lineas, i))
  }

  ghost predicate CuentaTras(s: Libro, s': Libro, lineas: seq<Linea>, i: nat)
    requires i < |s.cuentas| && |s'.cuentas| == |s.cuentas|
  {
    var c, c' := s.cuentas[i], s'.cuentas[i];
    if TocaCuenta(s.cuotas, lineas, i) then
      && c'.montoOriginal == c.montoOriginal && c'.montoPendiente == Suma(s'.cuotas, PendienteDe(i))
      && c'.estado == if c'.montoPendiente <= 0.0 then PAGADA else PAGADA_PARCIALMENTE
    else c' == c
  }

  /** The row of a touched account: what its instalments owe, and settled exactly when that is nothing. */
  lemma {:induction false} RecalcularEstados(s: Libro, tocadas: seq<nat>)
    ensures var s' := RecalcularTodas(s, tocadas);
      && s' == s.(cuentas := s'.cuentas) && |s'.cuentas| == |s.cuentas|
      && forall i :: 0 <= i < |s.cuentas| ==>
           s'.cuentas[i] == if i in tocadas
                            then Cuenta(s.cuentas[i].montoOriginal, Suma(s.cuotas, PendienteDe(i)),
                                        if Suma(s.cuotas, PendienteDe(i)) <= 0.0 then PAGADA else PAGADA_PARCIALMENTE)
                            else s.cuentas[i]
  {
    if |tocadas| > 0 {
      var previas, u := tocadas[..|tocadas| - 1], tocadas[|tocadas| - 1];
      RecalcularEstados(s, previas);
      assert tocadas == previas + [u];
    }
  }

  lemma {:induction false} CobrarDeja(s: Libro, clave: string, monto: real, lineas: seq<Linea>)
    requires Referencias(s) && !PagoConClave(s.pagos, clave) && RegistrarPago(s, clave, monto, lineas).Ok?
    ensures Cobrado(s, RegistrarPago(s, clave, monto, lineas).value, clave, monto, lineas)
  {
    var s0 := s.(pagos := s.pagos + [Pago(clave, monto)]);
    RepartirSii(s0, |s.pagos|, lineas);
    var e := Plegar(EnPago(s0, []), lineas, Asignar(|s.pagos|)).value;
    RecalcularEstados(e.libro, e.tocadas);
  }

  // ------------------------------------------------------------------ what the states say

  predicate CuotaTocada(s: Libro, j: nat) {
    exists k :: 0 <= k < |s.asignaciones| && s.asignaciones[k].cuota == j
  }

  predicate CuentaTocada(s: Libro, i: nat) {
    exists k :: 0 <= k < |s.asignaciones| && CuentaDe(s.cuotas, s.asignaciones[k].cuota) == i
  }

  function EstadoSegun(tocada: bool, pendiente: real): EstadoCuenta {
    if !tocada then PENDIENTE else if pendiente <= 0.0 then PAGADA else PAGADA_PARCIALMENTE
  }

  /** Pending means nothing was ever allocated, paid that something was and nothing is owed. */
  ghost predicate EstadosBien(s: Libro) {
    && (forall j :: 0 <= j < |s.cuotas| ==> s.cuotas[j].estado == EstadoSegun(CuotaTocada(s, j), s.cuotas[j].montoPendiente))
    && (forall i :: 0 <= i < |s.cuentas| ==> s.cuentas[i].estado == EstadoSegun(CuentaTocada(s, i), s.cuentas[i].montoPendiente))
  }

  lemma {:induction false} AbrirEstados(s: Libro, monto: real)
    requires LibroBien(s) && EstadosBien(s)
    ensures EstadosBien(AbrirCuenta(s, monto))
  {
    var s' := AbrirCuenta(s, monto);
    forall k | 0 <= k < |s.asignaciones|
      ensures s.asignaciones[k].cuota < |s.cuotas| && CuentaDe(s'.cuotas, s.asignaciones[k].cuota) == CuentaDe(s.cuotas, s.asignaciones[k].cuota) < |s.cuentas| {
      assert CuotaBien(s, s.asignaciones[k].cuota);
    }
    forall i | 0 <= i < |s'.cuentas| ensures CuentaTocada(s', i) <==> CuentaTocada(s, i) {
      if CuentaTocada(s, i) {
        var k :| 0 <= k < |s.asignaciones| && CuentaDe(s.cuotas, s.asignaciones[k].cuota) == i;
        assert CuentaDe(s'.cuotas, s'.asignaciones[k].cuota) == i;
      }
    }
  }

  lemma {:induction false} TocadasTras(s: Libro, s': Libro, clave: string, monto: real, lineas: seq<Linea>, j: nat, i: nat)
    requires Cobrado(s, s', clave, monto, lineas) && Referencias(s)
    ensures CuotaTocada(s', j) <==> CuotaTocada(s, j) || NombraCuota(lineas, j)
    ensures CuentaTocada(s', i) <==> CuentaTocada(s, i) || TocaCuenta(s.cuotas, lineas, i)
  {
    var n := |s.asignaciones|;
    assert forall c: nat :: CuentaDe(s'.cuotas, c) == CuentaDe(s.cuotas, c) by {
      forall c: nat ensures CuentaDe(s'.cuotas, c) == CuentaDe(s.cuotas, c) {
        assert c < |s.cuotas| ==> CuotaTras(s.cuotas[c], s'.cuotas[c], lineas, c);
      }
    }
    assert forall k :: 0 <= k < n ==> s'.asignaciones[..n][k] == s'.asignaciones[k] == s.asignaciones[k];
    forall k | n <= k < |s'.asignaciones| ensures s'.asignaciones[k].cuota == lineas[k - n].cuota {
      assert s'.asignaciones[n + (k - n)] == Asignacion(|s.pagos|, lineas[k - n].cuota, lineas[k - n].monto);
    }
    assert forall k :: 0 <= k < |lineas| ==> s'.asignaciones[n + k].cuota == lineas[k].cuota;
  }

  lemma {:induction false} CobrarEstados(s: Libro, clave: string, monto: real, lineas: seq<Linea>)
    requires LibroBien(s) && EstadosBien(s) && RegistrarPago(s, clave, monto, lineas).Ok?
    ensures EstadosBien(RegistrarPago(s, clave, monto, lineas).value)
  {
    if !PagoConClave(s.pagos, clave) {
      var s' := RegistrarPago(s, clave, monto, lineas).value;
      CobrarDeja(s, clave, monto, lineas);
      forall j | 0 <= j < |s'.cuotas| ensures s'.cuotas[j].estado == EstadoSegun(CuotaTocada(s', j), s'.cuotas[j].montoPendiente) {
        TocadasTras(s, s', clave, monto, lineas, j, 0);
        assert CuotaTras(s.cuotas[j], s'.cuotas[j], lineas, j);
        if !NombraCuota(lineas, j) {
          SinNombrar(lineas, j);
        }
      }
      forall i | 0 <= i < |s'.cuentas| ensures s'.cuentas[i].estado == EstadoSegun(CuentaTocada(s', i), s'.cuentas[i].montoPendiente) {
        TocadasTras(s, s', clave, monto, lineas, 0, i);
        assert CuentaTras(s, s', lineas, i);
      }
    }
  }

  lemma {:induction false} CorrerEstados(ps: seq<Peticion>)
    ensures EstadosBien(Correr(ps))
  {
    if |ps| > 0 {
      var s, p := Correr(ps[..|ps| - 1]), ps[|ps| - 1];
      CorrerEstados(ps[..|ps| - 1]);
      CorrerMantiene(ps[..|ps| - 1]);
      match p
      case VentaACredito(total, pagado) => AbrirEstados(s, total - pagado);
      case RecepcionACredito(total) => AbrirEstados(s, total);
      case Cobro(clave, monto, lineas) =>
        if RegistrarPago(s, clave, monto, lineas).Ok? {
          CobrarEstados(s, clave, monto, lineas);
        }
    }
  }

  /** After any run an account is PENDIENTE exactly when nothing was ever allocated to it, and otherwise
      PAGADA exactly when what was allocated covers what it was opened for; and so is each instalment. */
  lemma {:induction false} EstadosDicen(ps: seq<Peticion>, i: nat, j: nat)
    ensures var s := Correr(ps);
      && (i < |s.cuentas| ==>
            && (s.cuentas[i].estado == PENDIENTE <==> !CuentaTocada(s, i))
            && (CuentaTocada(s, i) ==> (s.cuentas[i].estado == PAGADA <==> Suma(s.asignaciones, ACuenta(s.cuotas, i)) >= s.cuentas[i].montoOriginal)))
      && (j < |s.cuotas| ==>
            && (s.cuotas[j].estado == PENDIENTE <==> !CuotaTocada(s, j))
            && (CuotaTocada(s, j) ==> (s.cuotas[j].estado == PAGADA <==> Suma(s.asignaciones, ACuota(j)) >= s.cuotas[j].monto)))
  {
    CorrerEstados(ps);
    CuentasSiempreCuadran(ps, i, j, 0);
  }
}
