/** The payments of sales. A sale writes its own; a gateway charge that names a sale adds one when it is
    captured, at once or by a later notice, and changes nothing on the sale. */
module Pagos {
  import opened Comun
  import opened Sumas
  import opened Ventas

  /** One SalePayment row: its key is the sale's own, or the one of the gateway charge it comes from. */
  datatype PagoVenta = PagoVenta(venta: nat, monto: real, pasarela: Option<string>)

  /** One PaymentIntent row with its transaction. */
  datatype Intento = Intento(clave: string, monto: real, venta: Option<nat>)

  datatype Cobros = Cobros(pagos: seq<PagoVenta>, intentos: seq<Intento>)

  const SIN_COBROS: Cobros := Cobros([], [])

  function PagosDe(venta: nat, montos: seq<real>): seq<PagoVenta> {
    if |montos| == 0 then [] else PagosDe(venta, montos[..|montos| - 1]) + [PagoVenta(venta, montos[|montos| - 1], None)]
  }

  predicate PagoConClave(pagos: seq<PagoVenta>, clave: string) {
    exists i :: 0 <= i < |pagos| && pagos[i].pasarela == Some(clave)
  }

  predicate IntentoConClave(intentos: seq<Intento>, clave: string) {
    exists i :: 0 <= i < |intentos| && intentos[i].clave == clave
  }

  /** conciliarConVenta: one payment for each captured charge that names one of the `cuantas` sales there
      are; a charge that names none of them, or has paid already, adds nothing. */
  function Conciliar(pagos: seq<PagoVenta>, cuantas: nat, i: Intento): seq<PagoVenta> {
    if i.venta.None? || PagoConClave(pagos, i.clave) || i.venta.value >= cuantas then pagos
    else pagos + [PagoVenta(i.venta.value, i.monto, Some(i.clave))]
  }

  /** crearIntento; `capturada` is what the gateway answers. */
  function CrearIntento(c: Cobros, cuantas: nat, i: Intento, capturada: bool): Cobros {
    if IntentoConClave(c.intentos, i.clave) then c
    else Cobros(if capturada then Conciliar(c.pagos, cuantas, i) else c.pagos, c.intentos + [i])
  }

  /** procesarWebhook, for a notice about the transaction of a charge; one about none is only logged. */
  function Notificar(c: Cobros, cuantas: nat, intento: nat, capturada: bool): Cobros {
    if intento < |c.intentos| && capturada then c.(pagos := Conciliar(c.pagos, cuantas, c.intentos[intento])) else c
  }

  // ------------------------------------------------------------------ what payments add up to

  function PagadoDe(venta: nat): PagoVenta -> real {
    (p: PagoVenta) => if p.venta == venta then p.monto else 0.0
  }

  function PropioDe(venta: nat): PagoVenta -> real {
    (p: PagoVenta) => if p.venta == venta && p.pasarela.None? then p.monto else 0.0
  }

  function PasarelaDe(venta: nat): PagoVenta -> real {
    (p: PagoVenta) => if p.venta == venta && p.pasarela.Some? then p.monto else 0.0
  }

  /** A gateway payment is of a charge on record, for the amount and the sale the charge names. */
  ghost predicate DeSuCargo(intentos: seq<Intento>, p: PagoVenta) {
    p.pasarela.Some? ==> exists k :: 0 <= k < |intentos| && intentos[k] == Intento(p.pasarela.value, p.monto, Some(p.venta))
  }

  /** Own payments add up to what each sale was paid, charges have keys of their own, and each has paid
      at most once. */
  ghost predicate CobrosBien(ventas: seq<Venta>, c: Cobros) {
    && (forall j :: 0 <= j < |c.pagos| ==> c.pagos[j].venta < |ventas| && DeSuCargo(c.intentos, c.pagos[j]))
    && (forall i :: 0 <= i < |ventas| ==> Suma(c.pagos, PropioDe(i)) == ventas[i].totalPagado)
    && (forall i, j :: 0 <= i < j < |c.intentos| ==> c.intentos[i].clave != c.intentos[j].clave)
    && (forall i, j :: 0 <= i < j < |c.pagos| && c.pagos[i].pasarela.Some? ==> c.pagos[i].pasarela != c.pagos[j].pasarela)
  }

  lemma {:induction false} PagosDeSuman(venta: nat, montos: seq<real>, i: nat)
    ensures Suma(PagosDe(venta, montos), PropioDe(i)) == if i == venta then Suma(montos, Pago()) else 0.0
    ensures forall j :: 0 <= j < |PagosDe(venta, montos)| ==>
      PagosDe(venta, montos)[j].venta == venta && PagosDe(venta, montos)[j].pasarela.None?
  {
    if |montos| > 0 {
      PagosDeSuman(venta, montos[..|montos| - 1], i);
    }
  }

  lemma {:induction false} PagosMantiene(ventas: seq<Venta>, c: Cobros, v: Venta, montos: seq<real>)
    requires CobrosBien(ventas, c) && v.totalPagado == Suma(montos, Pago())
    ensures CobrosBien(ventas + [v], c.(pagos := c.pagos + PagosDe(|ventas|, montos)))
  {
    var n := |ventas|;
    forall i | 0 <= i <= n ensures Suma(c.pagos + PagosDe(n, montos), PropioDe(i)) == (ventas + [v])[i].totalPagado {
      PagosDeSuman(n, montos, i);
      SumaConcat(c.pagos, PagosDe(n, montos), PropioDe(i));
      if i == n {
        SumaNula(c.pagos, PropioDe(n));
      }
    }
    PagosDeSuman(n, montos, n);
  }

  lemma {:induction false} ConciliarMantiene(ventas: seq<Venta>, c: Cobros, k: nat)
    requires CobrosBien(ventas, c) && k < |c.intentos|
    ensures CobrosBien(ventas, c.(pagos := Conciliar(c.pagos, |ventas|, c.intentos[k])))
  {
    var i := c.intentos[k];
    if Conciliar(c.pagos, |ventas|, i) != c.pagos {
      var p := PagoVenta(i.venta.value, i.monto, Some(i.clave));
      assert DeSuCargo(c.intentos, p);
      forall v | 0 <= v < |ventas| ensures Suma(c.pagos + [p], PropioDe(v)) == Suma(c.pagos, PropioDe(v)) {
        SumaConcat(c.pagos, [p], PropioDe(v));
        SumaUno(p, PropioDe(v));
      }
    }
  }

  lemma {:induction false} IntentoNuevo(ventas: seq<Venta>, c: Cobros, i: Intento)
    requires CobrosBien(ventas, c) && !IntentoConClave(c.intentos, i.clave)
    ensures CobrosBien(ventas, c.(intentos := c.intentos + [i]))
  {
    forall j | 0 <= j < |c.pagos| ensures DeSuCargo(c.intentos + [i], c.pagos[j]) {
      if c.pagos[j].pasarela.Some? {
        var p := c.pagos[j];
        assert DeSuCargo(c.intentos, p);
        var k :| 0 <= k < |c.intentos| && c.intentos[k] == Intento(p.pasarela.value, p.monto, Some(p.venta));
        assert (c.intentos + [i])[k] == c.intentos[k];
      }
    }
  }

  lemma {:induction false} CrearIntentoMantiene(ventas: seq<Venta>, c: Cobros, i: Intento, capturada: bool)
    requires CobrosBien(ventas, c)
    ensures CobrosBien(ventas, CrearIntento(c, |ventas|, i, capturada))
  {
    if !IntentoConClave(c.intentos, i.clave) {
      IntentoNuevo(ventas, c, i);
      if capturada {
        ConciliarMantiene(ventas, c.(intentos := c.intentos + [i]), |c.intentos|);
      }
    }
  }

  lemma {:induction false} NotificarMantiene(ventas: seq<Venta>, c: Cobros, intento: nat, capturada: bool)
    requires CobrosBien(ventas, c)
    ensures CobrosBien(ventas, Notificar(c, |ventas|, intento, capturada))
  {
    if intento < |c.intentos| && capturada {
      ConciliarMantiene(ventas, c, intento);
    }
  }

  lemma {:induction false} VentasIguales(ventas: seq<Venta>, ventas': seq<Venta>, c: Cobros)
    requires CobrosBien(ventas, c) && |ventas'| == |ventas|
    requires forall i :: 0 <= i < |ventas| ==> ventas'[i].totalPagado == ventas[i].totalPagado
    ensures CobrosBien(ventas', c)
  {
  }

  /** All payments of a sale add up to what it was paid if and only if its gateway payments add up to
      nothing: they come on top. */
  lemma {:induction false} PagosSii(ventas: seq<Venta>, c: Cobros, i: nat)
    requires CobrosBien(ventas, c) && i < |ventas|
    ensures Suma(c.pagos, PagadoDe(i)) == ventas[i].totalPagado + Suma(c.pagos, PasarelaDe(i))
    ensures Suma(c.pagos, PagadoDe(i)) == ventas[i].totalPagado <==> Suma(c.pagos, PasarelaDe(i)) == 0.0
  {
    SumaMasMenos(c.pagos, PagadoDe(i), PropioDe(i), PasarelaDe(i));
  }
}
