/** Accounts receivable and payable: one instalment for each credit sale or receipt, payments
    allocated to instalments, and the account balances recomputed from them. */
module Cuentas {
  import opened Comun
  import opened Sumas

  datatype EstadoCuenta = PENDIENTE | PAGADA_PARCIALMENTE | PAGADA

  datatype Cuenta = Cuenta(montoOriginal: real, montoPendiente: real, estado: EstadoCuenta)
  datatype Cuota = Cuota(cuenta: nat, monto: real, montoPendiente: real, estado: EstadoCuenta)
  datatype Pago = Pago(clave: string, monto: real)
  datatype Asignacion = Asignacion(pago: nat, cuota: nat, monto: real)

  /** An id is the row's position in its table. */
  datatype Libro = Libro(cuentas: seq<Cuenta>, cuotas: seq<Cuota>, pagos: seq<Pago>, asignaciones: seq<Asignacion>)

  const LIBRO_VACIO: Libro := Libro([], [], [], [])

  /** An allocation as the request carries it; the service takes any number, negative ones too. */
  datatype Linea = Linea(cuota: nat, monto: real)

  function MontoDe(): Linea -> real { (l: Linea) => l.monto }

  // ------------------------------------------------------------------ operations

  /** generarCuentaPorCobrar and crearCuentaPorPagar: the account and its only instalment. */
  function AbrirCuenta(s: Libro, monto: real): Libro {
    s.(cuentas := s.cuentas + [Cuenta(monto, monto, PENDIENTE)],
       cuotas := s.cuotas + [Cuota(|s.cuentas|, monto, monto, PENDIENTE)])
  }

  /** A sale on credit: nothing is owed when it was paid in full. */
  function VenderACredito(s: Libro, total: real, totalPagado: real): Libro {
    if total - totalPagado <= 0.0 then s else AbrirCuenta(s, total - totalPagado)
  }

  datatype EnPago = EnPago(libro: Libro, tocadas: seq<nat>)

  function Tocar(tocadas: seq<nat>, cuenta: nat): seq<nat> {
    if cuenta in tocadas then tocadas else tocadas + [cuenta]
  }

  predicate YaAsignada(asignaciones: seq<Asignacion>, pago: nat, cuota: nat) {
    exists i :: 0 <= i < |asignaciones| && asignaciones[i].pago == pago && asignaciones[i].cuota == cuota
  }

  function Descontada(q: Cuota, monto: real): Cuota {
    var saldo := q.montoPendiente - monto;
    q.(montoPendiente := saldo, estado := if saldo <= 0.0 then PAGADA else PAGADA_PARCIALMENTE)
  }

  /** One allocation of a payment: the unique index allows one for each instalment. */
  function Asignar(pago: nat): (EnPago, Linea) -> Resultado<EnPago> {
    (e: EnPago, l: Linea) =>
      var s := e.libro;
      if l.cuota >= |s.cuotas| then Err(NoEncontrado)
      else if l.monto > s.cuotas[l.cuota].montoPendiente then Err(Conflicto)
      else if YaAsignada(s.asignaciones, pago, l.cuota) then Err(ClaveRepetida)
      else
        Ok(EnPago(s.(asignaciones := s.asignaciones + [Asignacion(pago, l.cuota, l.monto)],
                     cuotas := s.cuotas[l.cuota := Descontada(s.cuotas[l.cuota], l.monto)]),
                  Tocar(e.tocadas, s.cuotas[l.cuota].cuenta)))
  }

  function PendienteDe(cuenta: nat): Cuota -> real {
    (q: Cuota) => if q.cuenta == cuenta then q.montoPendiente else 0.0
  }

  function Recalcular(s: Libro, cuenta: nat): Libro {
    if cuenta >= |s.cuentas| then s
    else
      var pendiente := Suma(s.cuotas, PendienteDe(cuenta));
      s.(cuentas := s.cuentas[cuenta := s.cuentas[cuenta].(
           montoPendiente := pendiente, estado := if pendiente <= 0.0 then PAGADA else PAGADA_PARCIALMENTE)])
  }

  function RecalcularTodas(s: Libro, tocadas: seq<nat>): Libro {
    if |tocadas| == 0 then s else Recalcular(RecalcularTodas(s, tocadas[..|tocadas| - 1]), tocadas[|tocadas| - 1])
  }

  predicate PagoConClave(pagos: seq<Pago>, clave: string) {
    exists i :: 0 <= i < |pagos| && pagos[i].clave == clave
  }

  /** registrarCobro and pagarProveedor. */
  function RegistrarPago(s: Libro, clave: string, monto: real, lineas: seq<Linea>): Resultado<Libro> {
    if |lineas| == 0 || monto <= 0.0 then Err(Invalido)
    else if PagoConClave(s.pagos, clave) then Ok(s)
    else if Suma(lineas, MontoDe()) != monto then Err(Invalido)
    else
      var e :- Plegar(EnPago(s.(pagos := s.pagos + [Pago(clave, monto)]), []), lineas, Asignar(|s.pagos|));
      Ok(RecalcularTodas(e.libro, e.tocadas))
  }

  // ------------------------------------------------------------------ the loops

  /** The four tables, and the transactions that write them in place. */
  class Cartera {
    var cuentas: seq<Cuenta>
    var cuotas: seq<Cuota>
    var pagos: seq<Pago>
    var asignaciones: seq<Asignacion>

    function Foto(): Libro
      reads this
    {
      Libro(cuentas, cuotas, pagos, asignaciones)
    }

    constructor ()
      ensures Foto() == LIBRO_VACIO
    {
      cuentas, cuotas, pagos, asignaciones := [], [], [], [];
    }

    method Restaurar(s: Libro)
      modifies this
      ensures Foto() == s
    {
      cuentas, cuotas, pagos, asignaciones := s.cuentas, s.cuotas, s.pagos, s.asignaciones;
    }

    method CrearCuenta(monto: real)
      modifies this
      ensures Foto() == AbrirCuenta(old(Foto()), monto)
    {
      cuotas := cuotas + [Cuota(|cuentas|, monto, monto, PENDIENTE)];
      cuentas := cuentas + [Cuenta(monto, monto, PENDIENTE)];
    }

    /** The row of one account, from its instalments. */
    method RecalcularCuenta(cuenta: nat)
      modifies this`cuentas
      ensures Foto() == Recalcular(old(Foto()), cuenta)
    {
      if cuenta < |cuentas| {
        var pendiente := 0.0;
        for i := 0 to |cuotas|
          invariant pendiente == Suma(cuotas[..i], PendienteDe(cuenta))
          invariant cuentas == old(cuentas)
        {
          assert cuotas[..i + 1][..i] == cuotas[..i];
          if cuotas[i].cuenta == cuenta {
            pendiente := pendiente + cuotas[i].montoPendiente;
          }
        }
        assert cuotas[..|cuotas|] == cuotas;
        cuentas := cuentas[cuenta := cuentas[cuenta].(
          montoPendiente := pendiente, estado := if pendiente <= 0.0 then PAGADA else PAGADA_PARCIALMENTE)];
      }
    }

    /** One allocation: its row, and the balance of its instalment. */
    method AsignarLinea(pago: nat, l: Linea, tocadas: seq<nat>) returns (r: Resultado<seq<nat>>)
      modifies this
      ensures match Asignar(pago)(EnPago(old(Foto()), tocadas), l)
        case Ok(e) => r == Ok(e.tocadas) && Foto() == e.libro
        case Err(error) => r == Err(error)
    {
      if l.cuota >= |cuotas| {
        return Err(NoEncontrado);
      }
      var cuota := cuotas[l.cuota];
      if l.monto > cuota.montoPendiente {
        return Err(Conflicto);
      }
      if YaAsignada(asignaciones, pago, l.cuota) {
        return Err(ClaveRepetida);
      }
      asignaciones := asignaciones + [Asignacion(pago, l.cuota, l.monto)];
      var nuevoSaldo := cuota.montoPendiente - l.monto;
      cuotas := cuotas[l.cuota := cuota.(montoPendiente := nuevoSaldo,
                                         estado := if nuevoSaldo <= 0.0 then PAGADA else PAGADA_PARCIALMENTE)];
      r := Ok(if cuota.cuenta in tocadas then tocadas else tocadas + [cuota.cuenta]);
    }

    method AsignarLineas(pago: nat, lineas: seq<Linea>) returns (r: Resultado<seq<nat>>)
      modifies this
      ensures match Plegar(EnPago(old(Foto()), []), lineas, Asignar(pago))
        case Ok(e) => r == Ok(e.tocadas) && Foto() == e.libro
        case Err(error) => r == Err(error)
    {
      ghost var inicio := EnPago(Foto(), []);
      var tocadas: seq<nat> := [];
      for i := 0 to |lineas|
        invariant Plegar(inicio, lineas[..i], Asignar(pago)) == Ok(EnPago(Foto(), tocadas))
      {
        PlegarPaso(inicio, lineas, i, Asignar(pago));
        r := AsignarLinea(pago, lineas[i], tocadas);
        if r.Err? {
          PlegarFalla(inicio, lineas, i + 1, Asignar(pago));
          return;
        }
        tocadas := r.value;
      }
      assert lineas[..|lineas|] == lineas;
      r := Ok(tocadas);
    }

    method RecalcularTocadas(tocadas: seq<nat>)
      modifies this
      ensures Foto() == RecalcularTodas(old(Foto()), tocadas)
    {
      for i := 0 to |tocadas|
        invariant Foto() == RecalcularTodas(old(Foto()), tocadas[..i])
      {
        assert tocadas[..i + 1][..i] == tocadas[..i];
        RecalcularCuenta(tocadas[i]);
      }
      assert tocadas[..|tocadas|] == tocadas;
    }

    /** A payment: all of its allocations and the accounts they touch, or nothing. */
    method Cobrar(clave: string, monto: real, lineas: seq<Linea>) returns (r: Resultado<()>)
      modifies this
      ensures match RegistrarPago(old(Foto()), clave, monto, lineas)
        case Ok(s) => r == Ok(()) && Foto() == s
        case Err(e) => r == Err(e) && Foto() == old(Foto())
      ensures old(LibroBien(Foto())) ==> LibroBien(Foto())
    {
      if |lineas| == 0 || monto <= 0.0 {
        return Err(Invalido);
      }
      if PagoConClave(pagos, clave) {
        return Ok(());
      }
      if Suma(lineas, MontoDe()) != monto {
        return Err(Invalido);
      }
      var antes := Foto();
      pagos := pagos + [Pago(clave, monto)];
      var tocadas := AsignarLineas(|antes.pagos|, lineas);
      if tocadas.Err? {
        Restaurar(antes);
        return Err(tocadas.error);
      }
      RecalcularTocadas(tocadas.value);
      if LibroBien(antes) {
        RegistrarPagoMantiene(antes, clave, monto, lineas);
      }
      r := Ok(());
    }
  }

  // ------------------------------------------------------------------ the invariant

  function MontoEn(cuenta: nat): Cuota -> real {
    (q: Cuota) => if q.cuenta == cuenta then q.monto else 0.0
  }

  function ACuota(cuota: nat): Asignacion -> real {
    (a: Asignacion) => if a.cuota == cuota then a.monto else 0.0
  }

  function DelPago(pago: nat): Asignacion -> real {
    (a: Asignacion) => if a.pago == pago then a.monto else 0.0
  }

  /** The account of each instalment, which never changes. */
  function CuentaDe(cuotas: seq<Cuota>, j: nat): int {
    if j < |cuotas| then cuotas[j].cuenta else -1
  }

  function ACuenta(cuotas: seq<Cuota>, cuenta: nat): Asignacion -> real {
    (a: Asignacion) => if CuentaDe(cuotas, a.cuota) == cuenta then a.monto else 0.0
  }

  ghost predicate CuotaBien(s: Libro, j: nat)
    requires j < |s.cuotas|
  {
    var q := s.cuotas[j];
    && q.cuenta < |s.cuentas|
    && q.monto - q.montoPendiente == Suma(s.asignaciones, ACuota(j))
    && (q.monto >= 0.0 ==> q.montoPendiente >= 0.0)
    && (q.estado == PAGADA ==> q.montoPendiente <= 0.0) && (q.estado == PAGADA_PARCIALMENTE ==> q.montoPendiente > 0.0)
  }

  /** What is owed on an account is what was opened less every allocation to its instalments. */
  ghost predicate CuentaBien(s: Libro, i: nat)
    requires i < |s.cuentas|
  {
    && s.cuentas[i].montoOriginal == Suma(s.cuotas, MontoEn(i))
    && Suma(s.cuotas, MontoEn(i)) - Suma(s.cuotas, PendienteDe(i)) == Suma(s.asignaciones, ACuenta(s.cuotas, i))
  }

  ghost predicate SaldoAlDia(s: Libro, i: nat)
    requires i < |s.cuentas|
  {
    s.cuentas[i].montoPendiente == Suma(s.cuotas, PendienteDe(i))
  }

  ghost predicate Referencias(s: Libro) {
    forall i :: 0 <= i < |s.asignaciones| ==> s.asignaciones[i].cuota < |s.cuotas| && s.asignaciones[i].pago < |s.pagos|
  }

  ghost predicate PagosBien(s: Libro, n: nat)
    requires n <= |s.pagos|
  {
    forall p :: 0 <= p < n ==> s.pagos[p].monto == Suma(s.asignaciones, DelPago(p))
  }

  /** Everything but the account balances, which a payment recomputes at its end. */
  ghost predicate CuotasBien(s: Libro) {
    && Referencias(s)
    && (forall j :: 0 <= j < |s.cuotas| ==> CuotaBien(s, j))
    && (forall i :: 0 <= i < |s.cuentas| ==> CuentaBien(s, i))
  }

  ghost predicate LibroBien(s: Libro) {
    && CuotasBien(s)
    && PagosBien(s, |s.pagos|)
    && (forall i :: 0 <= i < |s.cuentas| ==> SaldoAlDia(s, i))
  }

  // ------------------------------------------------------------------ opening

  lemma {:induction false} SinAsignaciones(s: Libro, cuenta: nat, cuotas: seq<Cuota>)
    requires forall i :: 0 <= i < |s.asignaciones| ==> CuentaDe(cuotas, s.asignaciones[i].cuota) != cuenta
    ensures Suma(s.asignaciones, ACuenta(cuotas, cuenta)) == 0.0
  {
    SumaNula(s.asignaciones, ACuenta(cuotas, cuenta));
  }

  lemma {:induction false} AbrirCuentaCuadra(s: Libro, monto: real, i: nat)
    requires CuotasBien(s) && i <= |s.cuentas|
    ensures CuentaBien(AbrirCuenta(s, monto), i)
    ensures i < |s.cuentas| && SaldoAlDia(s, i) ==> SaldoAlDia(AbrirCuenta(s, monto), i)
    ensures i == |s.cuentas| ==> SaldoAlDia(AbrirCuenta(s, monto), i)
  {
    var s', n := AbrirCuenta(s, monto), |s.cuentas|;
    var q := Cuota(n, monto, monto, PENDIENTE);
    forall k | 0 <= k < |s.asignaciones|
      ensures CuentaDe(s'.cuotas, s.asignaciones[k].cuota) == CuentaDe(s.cuotas, s.asignaciones[k].cuota) < n {
      assert CuotaBien(s, s.asignaciones[k].cuota);
    }
    SumaIgual(s.asignaciones, ACuenta(s.cuotas, i), ACuenta(s'.cuotas, i));
    if i == n {
      forall j | 0 <= j < |s.cuotas| ensures s.cuotas[j].cuenta != n {
        assert CuotaBien(s, j);
      }
      SumaNula(s.cuotas, MontoEn(n));
      SumaNula(s.cuotas, PendienteDe(n));
      SinAsignaciones(s, n, s.cuotas);
    } else {
      assert CuentaBien(s, i);
    }
  }

  lemma {:induction false} AbrirCuentaMantiene(s: Libro, monto: real)
    requires LibroBien(s)
    ensures LibroBien(AbrirCuenta(s, monto))
  {
    var s' := AbrirCuenta(s, monto);
    forall j | 0 <= j < |s'.cuotas| ensures CuotaBien(s', j) {
      if j < |s.cuotas| {
        assert CuotaBien(s, j);
      } else {
        SumaNula(s.asignaciones, ACuota(j));
      }
    }
    forall i | 0 <= i < |s'.cuentas| ensures CuentaBien(s', i) && SaldoAlDia(s', i) {
      AbrirCuentaCuadra(s, monto, i);
    }
  }

  // ------------------------------------------------------------------ allocating

  lemma {:induction false} AsignarCuotas(e: EnPago, pago: nat, l: Linea)
    requires CuotasBien(e.libro) && pago < |e.libro.pagos| && Asignar(pago)(e, l).Ok?
    ensures var s, s' := e.libro, Asignar(pago)(e, l).value.libro;
      && Referencias(s') && |s'.cuotas| == |s.cuotas| && s'.cuentas == s.cuentas
      && forall j :: 0 <= j < |s'.cuotas| ==> CuotaBien(s', j)
  {
    var s, s' := e.libro, Asignar(pago)(e, l).value.libro;
    var a := Asignacion(pago, l.cuota, l.monto);
    forall j | 0 <= j < |s'.cuotas| ensures CuotaBien(s', j) {
      assert CuotaBien(s, j);
    }
  }

  lemma {:induction false} AsignarCuenta(e: EnPago, pago: nat, l: Linea, i: nat)
    requires CuotasBien(e.libro) && Asignar(pago)(e, l).Ok? && i < |e.libro.cuentas|
    ensures CuentaBien(Asignar(pago)(e, l).value.libro, i)
    ensures i !in Asignar(pago)(e, l).value.tocadas && SaldoAlDia(e.libro, i) ==> SaldoAlDia(Asignar(pago)(e, l).value.libro, i)
  {
    var s, s' := e.libro, Asignar(pago)(e, l).value.libro;
    var q, a := s.cuotas[l.cuota], Asignacion(pago, l.cuota, l.monto);
    assert CuentaBien(s, i);
    SumaCambia(s.cuotas, l.cuota, Descontada(q, l.monto), MontoEn(i));
    SumaCambia(s.cuotas, l.cuota, Descontada(q, l.monto), PendienteDe(i));
    SumaIgual(s.asignaciones, ACuenta(s.cuotas, i), ACuenta(s'.cuotas, i));
  }

  /** While a payment is being allocated: instalments are right, other payments keep their
      amounts, and only accounts already touched may be out of date. */
  ghost predicate EnCurso(s0: Libro, e: EnPago, pago: nat, asignado: real) {
    && CuotasBien(e.libro) && e.libro.pagos == s0.pagos && pago == |s0.pagos| - 1
    && e.libro.cuentas == s0.cuentas
    && PagosBien(e.libro, pago)
    && Suma(e.libro.asignaciones, DelPago(pago)) == asignado
    && (forall i :: 0 <= i < |s0.cuentas| && i !in e.tocadas ==> SaldoAlDia(e.libro, i))
  }

  lemma {:induction false} AsignarMantiene(s0: Libro, e: EnPago, pago: nat, asignado: real, l: Linea)
    requires EnCurso(s0, e, pago, asignado) && Asignar(pago)(e, l).Ok?
    ensures EnCurso(s0, Asignar(pago)(e, l).value, pago, asignado + l.monto)
  {
    var e' := Asignar(pago)(e, l).value;
    AsignarCuotas(e, pago, l);
    forall i | 0 <= i < |s0.cuentas|
      ensures CuentaBien(e'.libro, i)
      ensures i !in e'.tocadas ==> SaldoAlDia(e'.libro, i) {
      AsignarCuenta(e, pago, l, i);
    }
    forall p | 0 <= p < pago ensures e'.libro.pagos[p].monto == Suma(e'.libro.asignaciones, DelPago(p)) {
    }
  }

  lemma {:induction false} AsignarTodas(s0: Libro, e: EnPago, pago: nat, lineas: seq<Linea>)
    requires EnCurso(s0, e, pago, 0.0) && Plegar(e, lineas, Asignar(pago)).Ok?
    ensures EnCurso(s0, Plegar(e, lineas, Asignar(pago)).value, pago, Suma(lineas, MontoDe()))
  {
    var n := |lineas| - 1;
    if n >= 0 {
      AsignarTodas(s0, e, pago, lineas[..n]);
      AsignarMantiene(s0, Plegar(e, lineas[..n], Asignar(pago)).value, pago, Suma(lineas[..n], MontoDe()), lineas[n]);
    }
  }

  // ------------------------------------------------------------------ recomputing

  /** Recomputing brings exactly the touched accounts up to date. */
  lemma {:induction false} RecalcularTodasCuadra(s: Libro, tocadas: seq<nat>)
    ensures var s' := RecalcularTodas(s, tocadas);
      && s'.cuotas == s.cuotas && s'.pagos == s.pagos && s'.asignaciones == s.asignaciones && |s'.cuentas| == |s.cuentas|
      && (forall i :: 0 <= i < |s.cuentas| ==> s'.cuentas[i].montoOriginal == s.cuentas[i].montoOriginal)
      && (forall i :: 0 <= i < |s.cuentas| && i in tocadas ==> SaldoAlDia(s', i))
      && (forall i :: 0 <= i < |s.cuentas| && i !in tocadas ==> s'.cuentas[i] == s.cuentas[i])
  {
    if |tocadas| > 0 {
      var previas, u := tocadas[..|tocadas| - 1], tocadas[|tocadas| - 1];
      RecalcularTodasCuadra(s, previas);
      assert tocadas == previas + [u];
    }
  }

  lemma {:induction false} CuentasIguales(s: Libro, s': Libro)
    requires CuotasBien(s) && s'.cuotas == s.cuotas && s'.pagos == s.pagos && s'.asignaciones == s.asignaciones
    requires |s'.cuentas| == |s.cuentas|
    requires forall i :: 0 <= i < |s.cuentas| ==> s'.cuentas[i].montoOriginal == s.cuentas[i].montoOriginal
    ensures CuotasBien(s')
  {
    forall j | 0 <= j < |s'.cuotas| ensures CuotaBien(s', j) {
      assert CuotaBien(s, j);
    }
    forall i | 0 <= i < |s'.cuentas| ensures CuentaBien(s', i) {
      assert CuentaBien(s, i);
    }
  }

  lemma {:induction false} PagoNuevoEnCurso(s: Libro, clave: string, monto: real)
    requires LibroBien(s)
    ensures var s0 := s.(pagos := s.pagos + [Pago(clave, monto)]);
      EnCurso(s0, EnPago(s0, []), |s.pagos|, 0.0)
  {
    var s0 := s.(pagos := s.pagos + [Pago(clave, monto)]);
    CuotasConPago(s, s0);
    SumaNula(s.asignaciones, DelPago(|s.pagos|));
    forall i | 0 <= i < |s0.cuentas| ensures SaldoAlDia(s0, i) {
      assert SaldoAlDia(s, i);
    }
  }

  lemma {:induction false} CuotasConPago(s: Libro, s0: Libro)
    requires CuotasBien(s) && |s.pagos| <= |s0.pagos| && s0 == s.(pagos := s0.pagos)
    ensures CuotasBien(s0)
  {
    forall j | 0 <= j < |s0.cuotas| ensures CuotaBien(s0, j) {
      assert CuotaBien(s, j);
    }
    forall i | 0 <= i < |s0.cuentas| ensures CuentaBien(s0, i) {
      assert CuentaBien(s, i);
    }
  }

  lemma {:induction false} RegistrarPagoMantiene(s: Libro, clave: string, monto: real, lineas: seq<Linea>)
    requires LibroBien(s) && RegistrarPago(s, clave, monto, lineas).Ok?
    ensures LibroBien(RegistrarPago(s, clave, monto, lineas).value)
  {
    if !PagoConClave(s.pagos, clave) {
      var s0, pago := s.(pagos := s.pagos + [Pago(clave, monto)]), |s.pagos|;
      PagoNuevoEnCurso(s, clave, monto);
      AsignarTodas(s0, EnPago(s0, []), pago, lineas);
      var e := Plegar(EnPago(s0, []), lineas, Asignar(pago)).value;
      CierraPago(s0, e, pago, monto);
    }
  }

  lemma {:induction false} AsignarConservaCuentas(e: EnPago, pago: nat, lineas: seq<Linea>)
    requires Plegar(e, lineas, Asignar(pago)).Ok?
    ensures Plegar(e, lineas, Asignar(pago)).value.libro.cuentas == e.libro.cuentas
  {
    PlegarConserva(e, lineas, Asignar(pago), (x: EnPago) => x.libro.cuentas == e.libro.cuentas);
  }

  /** A payment opens no account and changes what none was opened for. */
  lemma {:induction false} PagoConservaCuentas(s: Libro, clave: string, monto: real, lineas: seq<Linea>)
    requires RegistrarPago(s, clave, monto, lineas).Ok?
    ensures var s' := RegistrarPago(s, clave, monto, lineas).value;
      && |s'.cuentas| == |s.cuentas|
      && forall i :: 0 <= i < |s.cuentas| ==> s'.cuentas[i].montoOriginal == s.cuentas[i].montoOriginal
  {
    if !PagoConClave(s.pagos, clave) {
      var e := EnPago(s.(pagos := s.pagos + [Pago(clave, monto)]), []);
      AsignarConservaCuentas(e, |s.pagos|, lineas);
      var e' := Plegar(e, lineas, Asignar(|s.pagos|)).value;
      RecalcularTodasCuadra(e'.libro, e'.tocadas);
    }
  }

  lemma {:induction false} CierraPago(s0: Libro, e: EnPago, pago: nat, monto: real)
    requires |s0.pagos| > 0 && EnCurso(s0, e, pago, monto) && s0.pagos[pago].monto == monto
    ensures LibroBien(RecalcularTodas(e.libro, e.tocadas))
  {
    var s' := RecalcularTodas(e.libro, e.tocadas);
    RecalcularTodasCuadra(e.libro, e.tocadas);
    CuentasIguales(e.libro, s');
    forall p | 0 <= p < |s'.pagos| ensures s'.pagos[p].monto == Suma(s'.asignaciones, DelPago(p)) {
      if p < pago {
        assert e.libro.pagos[p].monto == Suma(e.libro.asignaciones, DelPago(p));
      }
    }
    forall i | 0 <= i < |s'.cuentas| ensures SaldoAlDia(s', i) {
      if i !in e.tocadas {
        assert SaldoAlDia(e.libro, i);
      }
    }
  }

  // ------------------------------------------------------------------ runs

  datatype Peticion =
    | VentaACredito(total: real, totalPagado: real)
    | RecepcionACredito(total: real)
    | Cobro(clave: string, monto: real, lineas: seq<Linea>)

  function Paso(s: Libro, p: Peticion): Libro {
    match p
    case VentaACredito(total, pagado) => VenderACredito(s, total, pagado)
    case RecepcionACredito(total) => AbrirCuenta(s, total)
    case Cobro(clave, monto, lineas) => RegistrarPago(s, clave, monto, lineas).GetOr(s)
  }

  function Correr(ps: seq<Peticion>): Libro {
    if |ps| == 0 then LIBRO_VACIO else Paso(Correr(ps[..|ps| - 1]), ps[|ps| - 1])
  }

  lemma {:induction false} CorrerMantiene(ps: seq<Peticion>)
    ensures LibroBien(Correr(ps))
  {
    if |ps| > 0 {
      var s, p := Correr(ps[..|ps| - 1]), ps[|ps| - 1];
      CorrerMantiene(ps[..|ps| - 1]);
      match p
      case VentaACredito(total, pagado) => AbrirCuentaMantiene(s, total - pagado);
      case RecepcionACredito(total) => AbrirCuentaMantiene(s, total);
      case Cobro(clave, monto, lineas) =>
        if RegistrarPago(s, clave, monto, lineas).Ok? {
          RegistrarPagoMantiene(s, clave, monto, lineas);
        }
    }
  }

  /** After any run of credit sales, receipts on credit and payments: an account has paid off
      exactly what was allocated to its instalments, it owes what they owe, every payment was
      allocated in full, and no instalment opened for something is below zero. */
  lemma {:induction false} CuentasSiempreCuadran(ps: seq<Peticion>, i: nat, j: nat, p: nat)
    ensures var s := Correr(ps);
      && (i < |s.cuentas| ==>
            && s.cuentas[i].montoOriginal - s.cuentas[i].montoPendiente == Suma(s.asignaciones, ACuenta(s.cuotas, i))
            && s.cuentas[i].montoPendiente == Suma(s.cuotas, PendienteDe(i)))
      && (j < |s.cuotas| ==>
            && s.cuotas[j].monto - s.cuotas[j].montoPendiente == Suma(s.asignaciones, ACuota(j))
            && (s.cuotas[j].monto >= 0.0 ==> s.cuotas[j].montoPendiente >= 0.0))
      && (p < |s.pagos| ==> s.pagos[p].monto == Suma(s.asignaciones, DelPago(p)))
  {
    CorrerMantiene(ps);
    var s := Correr(ps);
    if i < |s.cuentas| {
      assert CuentaBien(s, i) && SaldoAlDia(s, i);
    }
    if j < |s.cuotas| {
      assert CuotaBien(s, j);
    }
  }

  /** A payment that names an instalment twice is refused whole. */
  lemma {:induction false} CuotaRepetidaRechazada(s: Libro, clave: string, monto: real, lineas: seq<Linea>, i: nat, j: nat)
    requires i < j < |lineas| && lineas[i].cuota == lineas[j].cuota && !PagoConClave(s.pagos, clave)
    ensures RegistrarPago(s, clave, monto, lineas).Err?
  {
    var e, f := EnPago(s.(pagos := s.pagos + [Pago(clave, monto)]), []), Asignar(|s.pagos|);
    if Plegar(e, lineas[..j], f).Err? {
      PlegarFalla(e, lineas, j, f);
    } else {
      AsignadaQueda(e, |s.pagos|, lineas[..j], i);
      PlegarPaso(e, lineas, j, f);
      PlegarFalla(e, lineas, j + 1, f);
    }
  }

  lemma {:induction false} AsignadaQueda(e: EnPago, pago: nat, lineas: seq<Linea>, i: nat)
    requires i < |lineas| && Plegar(e, lineas, Asignar(pago)).Ok?
    ensures YaAsignada(Plegar(e, lineas, Asignar(pago)).value.libro.asignaciones, pago, lineas[i].cuota)
  {
    var n := |lineas| - 1;
    var p := Plegar(e, lineas[..n], Asignar(pago)).value.libro.asignaciones;
    var r := Plegar(e, lineas, Asignar(pago)).value.libro.asignaciones;
    assert r == p + [Asignacion(pago, lineas[n].cuota, lineas[n].monto)];
    if i < n {
      AsignadaQueda(e, pago, lineas[..n], i);
      var k :| 0 <= k < |p| && p[k].pago == pago && p[k].cuota == lineas[i].cuota;
      assert r[k] == p[k];
    } else {
      assert r[|p|].pago == pago;
    }
  }
}
