/** A line of a sale leaving its warehouse: exactly when it can, and which lots it takes from, in the words
    of the lots' own dates. */
module Salidas {
  import opened Comun
  import opened Sumas
  import opened Kardex
  import opened Movimientos
  import opened Lotes
  import opened Existencias

  // ------------------------------------------------------------------ what a cell can sell

  /** A lot can be sold up to the day it expires. */
  predicate SinVencer(l: Lote, hoy: nat) {
    l.venceEn.Some? ==> hoy <= l.venceEn.value
  }

  function VendibleDe(c: Celda, hoy: nat): Lote -> real {
    (l: Lote) => if l.celda == c && l.cantidad > 0.0 && SinVencer(l, hoy) then l.cantidad else 0.0
  }

  lemma {:induction false} InsertarSuma(lotes: seq<Lote>, orden: seq<nat>, l: nat, f: nat -> real)
    requires Validos(lotes, orden) && l < |lotes|
    ensures Suma(Insertar(lotes, orden, l), f) == Suma(orden, f) + f(l)
  {
    if |orden| == 0 {
      SumaUno(l, f);
    } else if VenceAntes(lotes[l], lotes[orden[|orden| - 1]]) {
      InsertarSuma(lotes, orden[..|orden| - 1], l, f);
      var previo := Insertar(lotes, orden[..|orden| - 1], l);
      assert (previo + [orden[|orden| - 1]])[..|previo|] == previo;
    } else {
      assert (orden + [l])[..|orden|] == orden;
    }
  }

  lemma {:induction false} ConsultaSuma(lotes: seq<Lote>, c: Celda, hoy: nat, n: nat)
    requires n <= |lotes|
    ensures Suma(Consulta(lotes, c, n), VendibleEn(lotes, hoy)) == Suma(lotes[..n], VendibleDe(c, hoy))
    ensures Consulta(lotes, c, n) == [] <==> forall l :: 0 <= l < n ==> lotes[l].celda != c || lotes[l].cantidad <= 0.0
  {
    if n > 0 {
      ConsultaSuma(lotes, c, hoy, n - 1);
      assert lotes[..n][..n - 1] == lotes[..n - 1];
      if lotes[n - 1].celda == c && lotes[n - 1].cantidad > 0.0 {
        InsertarDentro(lotes, Consulta(lotes, c, n - 1), n - 1, n);
        InsertarSuma(lotes, Consulta(lotes, c, n - 1), n - 1, VendibleEn(lotes, hoy));
        assert Insertar(lotes, Consulta(lotes, c, n - 1), n - 1) != [];
      }
    }
  }

  /** The lots of a cell cover a line: there are none in stock, or what has not expired is enough. */
  predicate LotesAlcanzan(lotes: seq<Lote>, c: Celda, cantidad: real, hoy: nat) {
    || (forall l :: 0 <= l < |lotes| ==> lotes[l].celda != c || lotes[l].cantidad <= 0.0)
    || Suma(lotes, VendibleDe(c, hoy)) >= cantidad
  }

  lemma {:induction false} ConsumirSii(lotes: seq<Lote>, c: Celda, cantidad: real, permite: bool, hoy: nat)
    requires cantidad > 0.0
    ensures ConsumirLotesFEFO(lotes, c, cantidad, permite, hoy).Ok? <==> permite || LotesAlcanzan(lotes, c, cantidad, hoy)
  {
    var orden := Consulta(lotes, c, |lotes|);
    ConsultaSuma(lotes, c, hoy, |lotes|);
    ConsultaPositiva(lotes, c);
    RestanteExacto(lotes, orden, cantidad, hoy, |orden|);
    assert lotes[..|lotes|] == lotes && orden[..|orden|] == orden;
  }

  // ------------------------------------------------------------------ which lots it takes from

  lemma {:induction false} RestanteBaja(lotes: seq<Lote>, orden: seq<nat>, cantidad: real, hoy: nat, m: nat, n: nat)
    requires Validos(lotes, orden) && m <= n <= |orden| && Positivos(lotes, orden)
    ensures Restante(lotes, orden, cantidad, hoy, n) <= Restante(lotes, orden, cantidad, hoy, m)
  {
    if m < n {
      RestanteBaja(lotes, orden, cantidad, hoy, m, n - 1);
    }
  }

  /** Lot a is taken before lot b: it expires earlier, or neither expires earlier and it is the older. */
  predicate SaleAntes(lotes: seq<Lote>, a: nat, b: nat)
    requires a < |lotes| && b < |lotes|
  {
    match (lotes[a].venceEn, lotes[b].venceEn)
    case (Some(x), Some(y)) => x < y || (x == y && a < b)
    case (Some(_), None) => true
    case (None, Some(_)) => false
    case (None, None) => a < b
  }

  lemma {:induction false} EnOrden(lotes: seq<Lote>, c: Celda, a: nat, b: nat) returns (i: nat, j: nat)
    requires a < |lotes| && b < |lotes| && SaleAntes(lotes, a, b)
    requires a in Consulta(lotes, c, |lotes|) && b in Consulta(lotes, c, |lotes|)
    ensures i < j < |Consulta(lotes, c, |lotes|)| && Consulta(lotes, c, |lotes|)[i] == a && Consulta(lotes, c, |lotes|)[j] == b
  {
    var orden := Consulta(lotes, c, |lotes|);
    ConsultaPositiva(lotes, c);
    i :| 0 <= i < |orden| && orden[i] == a;
    j :| 0 <= j < |orden| && orden[j] == b;
  }

  lemma {:induction false} AgotaPrimero(lotes: seq<Lote>, orden: seq<nat>, cantidad: real, hoy: nat, i: nat, j: nat)
    requires Validos(lotes, orden) && SinRepetir(orden) && Positivos(lotes, orden) && i < j < |orden| && !Vencido(lotes[orden[i]], hoy)
    requires Suma(Consumos(lotes, orden, cantidad, hoy, |orden|), CantidadConsumida(orden[j])) > 0.0
    ensures Suma(Consumos(lotes, orden, cantidad, hoy, |orden|), CantidadConsumida(orden[i])) == lotes[orden[i]].cantidad
  {
    TomaExacta(lotes, orden, cantidad, hoy, |orden|, orden[i]);
    TomaExacta(lotes, orden, cantidad, hoy, |orden|, orden[j]);
    RestanteBaja(lotes, orden, cantidad, hoy, i + 1, j);
    var cs := Consumos(lotes, orden, cantidad, hoy, |orden|);
    assert TomadoDe(cs)(orden[j]) == Restante(lotes, orden, cantidad, hoy, j) - Restante(lotes, orden, cantidad, hoy, j + 1);
    assert TomadoDe(cs)(orden[i]) == Restante(lotes, orden, cantidad, hoy, i) - Restante(lotes, orden, cantidad, hoy, i + 1);
    assert Restante(lotes, orden, cantidad, hoy, j) > 0.0;
  }

  /** A line takes only from lots of its cell that have not expired; and it takes from one only after every
      sellable lot of the cell that goes before it is used up. */
  lemma {:induction false} FEFODicho(lotes: seq<Lote>, c: Celda, cantidad: real, permite: bool, hoy: nat, a: nat, b: nat)
    requires cantidad > 0.0 && ConsumirLotesFEFO(lotes, c, cantidad, permite, hoy).Ok? && a < |lotes| && b < |lotes|
    requires Suma(ConsumirLotesFEFO(lotes, c, cantidad, permite, hoy).value, CantidadConsumida(b)) > 0.0
    ensures lotes[b].celda == c && SinVencer(lotes[b], hoy)
    ensures lotes[a].celda == c && lotes[a].cantidad > 0.0 && SinVencer(lotes[a], hoy) && SaleAntes(lotes, a, b) ==>
      Suma(ConsumirLotesFEFO(lotes, c, cantidad, permite, hoy).value, CantidadConsumida(a)) == lotes[a].cantidad
  {
    var orden := Consulta(lotes, c, |lotes|);
    var cs := Consumos(lotes, orden, cantidad, hoy, |orden|);
    ConsultaPositiva(lotes, c);
    ConsultaExacta(lotes, c, |lotes|);
    assert orden[..|orden|] == orden;
    TomaExacta(lotes, orden, cantidad, hoy, |orden|, b);
    assert TomadoDe(cs)(b) > 0.0;
    FEFOEsReparto(lotes, c, cantidad, hoy);
    assert b in orden;
    var jb :| 0 <= jb < |orden| && orden[jb] == b;
    assert 0.0 <= TomadoDe(cs)(orden[jb]) <= VendibleEn(lotes, hoy)(orden[jb]);
    if lotes[a].celda == c && lotes[a].cantidad > 0.0 && SinVencer(lotes[a], hoy) && SaleAntes(lotes, a, b) {
      var i, j := EnOrden(lotes, c, a, b);
      AgotaPrimero(lotes, orden, cantidad, hoy, i, j);
    }
  }

  // ------------------------------------------------------------------ when a line can leave

  lemma {:induction false} AsentarTodas(ledger: seq<Asiento>, filas: seq<Asiento>)
    requires forall i :: 0 <= i < |filas| ==> Admitido(filas[i]) && !ClaveUsada(ledger, filas[i].clave)
    requires forall i, j :: 0 <= i < j < |filas| ==> filas[i].clave != filas[j].clave
    ensures Plegar(ledger, filas, AsentarUno()) == Ok(ledger + filas)
  {
    if |filas| == 0 {
      assert ledger + filas == ledger;
    } else {
      var n := |filas| - 1;
      AsentarTodas(ledger, filas[..n]);
      assert ledger + filas == (ledger + filas[..n]) + [filas[n]];
      forall a | a in ledger + filas[..n] ensures a.clave != filas[n].clave {
        if a !in ledger {
          var i :| 0 <= i < n && filas[..n][i] == a;
          assert filas[i].clave != filas[n].clave;
        }
      }
    }
  }

  predicate LineaNueva(ledger: seq<Asiento>, l: LineaStock, venta: nat) {
    forall a :: a in ledger && a.clave.VentaLinea? ==> a.clave.venta != venta || a.clave.linea != l.numero
  }

  lemma {:induction false} AsientosDeLotesBien(l: LineaStock, venta: nat, costo: real, consumos: seq<Consumo>)
    ensures var filas := AsientosDeLotes(l, venta, costo, consumos);
      |filas| == |consumos| && forall i :: 0 <= i < |filas| ==>
        filas[i] == AsientoVenta(l, venta, costo, consumos[i].cantidad, Some(consumos[i].lote), PorLote(consumos[i].lote))
  {
    if |consumos| > 0 {
      AsientosDeLotesBien(l, venta, costo, consumos[..|consumos| - 1]);
    }
  }

  lemma {:induction false} AsientosVentaEntran(ledger: seq<Asiento>, l: LineaStock, venta: nat, costo: real, consumos: seq<Consumo>)
    requires LineaNueva(ledger, l, venta) && l.cantidad > 0.0 && costo >= 0.0
    requires forall i :: 0 <= i < |consumos| ==> consumos[i].cantidad > 0.0
    requires forall i, j :: 0 <= i < j < |consumos| ==> consumos[i].lote != consumos[j].lote
    ensures Plegar(ledger, AsientosVenta(l, venta, costo, consumos), AsentarUno()).Ok?
  {
    AsientosDeLotesBien(l, venta, costo, consumos);
    AsentarTodas(ledger, AsientosVenta(l, venta, costo, consumos));
  }

  /** A line of a tracked variant leaves its warehouse exactly when: negative stock is allowed or there is a
      row with that much available and lots that cover it; and no entry would carry a negative average. */
  predicate PuedeSalir(e: Existencias, l: LineaStock, permite: bool, hoy: nat) {
    if l.celda in e.kardex.saldos then
      && (permite || (e.kardex.saldos[l.celda].available >= l.cantidad && LotesAlcanzan(e.lotes, l.celda, l.cantidad, hoy)))
      && e.kardex.saldos[l.celda].costoPromedio >= 0.0
    else permite
  }

  lemma {:induction false} NoEntraBajoCero(ledger: seq<Asiento>, l: LineaStock, venta: nat, costo: real, consumos: seq<Consumo>)
    requires costo < 0.0
    ensures Plegar(ledger, AsientosVenta(l, venta, costo, consumos), AsentarUno()).Err?
  {
    var filas := AsientosVenta(l, venta, costo, consumos);
    AsientosDeLotesBien(l, venta, costo, consumos);
    assert filas[..1][..0] == [] && filas[..1][0] == filas[0];
    assert Plegar(ledger, filas[..1], AsentarUno()).Err?;
    PlegarFalla(ledger, filas, 1, AsentarUno());
  }

  lemma {:induction false} RegistrarLineaSii(e: Existencias, l: LineaStock, permite: bool, venta: nat, hoy: nat)
    requires l.cantidad > 0.0 && LineaNueva(e.kardex.ledger, l, venta)
    ensures RegistrarLinea(e, l, permite, venta, hoy).Ok? <==> PuedeSalir(e, l, permite, hoy)
  {
    if l.celda in e.kardex.saldos {
      var costo := e.kardex.saldos[l.celda].costoPromedio;
      ConsumirSii(e.lotes, l.celda, l.cantidad, permite, hoy);
      var r := ConsumirLotesFEFO(e.lotes, l.celda, l.cantidad, permite, hoy);
      if r.Ok? {
        FEFOConsume(e.lotes, l.celda, l.cantidad, permite, hoy);
        if costo >= 0.0 {
          AsientosVentaEntran(e.kardex.ledger, l, venta, costo, r.value);
        } else {
          NoEntraBajoCero(e.kardex.ledger, l, venta, costo, r.value);
        }
      }
    } else {
      AsientosVentaEntran(e.kardex.ledger, l, venta, 0.0, []);
    }
  }
}
