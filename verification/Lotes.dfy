/** Lots and first-expiry-first-out consumption: which lots a sale line takes from, and why
    no other split of the same quantity serves the early expiries better. */
module Lotes {
  import opened Comun
  import opened Sumas
  import opened Kardex

  /** One InventoryLot row. The table is kept in creation order, and a lot's id is its index. */
  datatype Lote = Lote(celda: Celda, numero: string, cantidad: real, venceEn: Option<nat>)

  datatype Consumo = Consumo(lote: nat, cantidad: real)

  function CantidadConsumida(l: nat): Consumo -> real {
    (c: Consumo) => if c.lote == l then c.cantidad else 0.0
  }

  function Consumida(): Consumo -> real {
    (c: Consumo) => c.cantidad
  }

  // ------------------------------------------------------------------ the query

  /** Earlier expiry, lots that never expire last. */
  predicate VenceAntes(a: Lote, b: Lote) {
    a.venceEn.Some? && (b.venceEn.None? || a.venceEn.value < b.venceEn.value)
  }

  predicate Vencido(l: Lote, hoy: nat) {
    l.venceEn.Some? && l.venceEn.value < hoy
  }

  predicate VencePara(l: Lote, d: nat) {
    l.venceEn.Some? && l.venceEn.value <= d
  }

  predicate Validos(lotes: seq<Lote>, orden: seq<nat>) {
    forall j :: 0 <= j < |orden| ==> orden[j] < |lotes|
  }

  ghost predicate SinRepetir(orden: seq<nat>) {
    forall i, j :: 0 <= i < j < |orden| ==> orden[i] != orden[j]
  }

  /** Expires earlier, or not later and is the older lot. */
  predicate VaAntes(lotes: seq<Lote>, a: nat, b: nat)
    requires a < |lotes| && b < |lotes|
  {
    VenceAntes(lotes[a], lotes[b]) || (!VenceAntes(lotes[b], lotes[a]) && a < b)
  }

  ghost predicate Ordenados(lotes: seq<Lote>, orden: seq<nat>)
    requires Validos(lotes, orden)
  {
    forall i, j :: 0 <= i < j < |orden| ==> VaAntes(lotes, orden[i], orden[j])
  }

  /** Insert a newer lot behind every lot that does not expire after it. */
  function Insertar(lotes: seq<Lote>, orden: seq<nat>, l: nat): seq<nat>
    requires Validos(lotes, orden) && l < |lotes|
  {
    if |orden| == 0 then [l]
    else if VenceAntes(lotes[l], lotes[orden[|orden| - 1]])
    then Insertar(lotes, orden[..|orden| - 1], l) + [orden[|orden| - 1]]
    else orden + [l]
  }

  /** Lots of the cell with stock, by expiry (nulls last) and then by creation. */
  function Consulta(lotes: seq<Lote>, c: Celda, n: nat): (orden: seq<nat>)
    requires n <= |lotes|
    ensures Validos(lotes, orden) && forall j :: 0 <= j < |orden| ==> orden[j] < n
  {
    if n == 0 then []
    else
      var resto := Consulta(lotes, c, n - 1);
      if lotes[n - 1].celda == c && lotes[n - 1].cantidad > 0.0
      then InsertarDentro(lotes, resto, n - 1, n); Insertar(lotes, resto, n - 1)
      else resto
  }

  lemma {:induction false} InsertarDentro(lotes: seq<Lote>, orden: seq<nat>, l: nat, n: nat)
    requires Validos(lotes, orden) && l < n <= |lotes|
    requires forall j :: 0 <= j < |orden| ==> orden[j] < n
    ensures forall j :: 0 <= j < |Insertar(lotes, orden, l)| ==> Insertar(lotes, orden, l)[j] < n
  {
    if |orden| > 0 {
      InsertarDentro(lotes, orden[..|orden| - 1], l, n);
    }
  }

  lemma {:induction false} InsertarMiembros(lotes: seq<Lote>, orden: seq<nat>, l: nat)
    requires Validos(lotes, orden) && l < |lotes| && SinRepetir(orden) && l !in orden
    ensures forall x :: x in Insertar(lotes, orden, l) <==> x == l || x in orden
    ensures SinRepetir(Insertar(lotes, orden, l))
  {
    if |orden| > 0 && VenceAntes(lotes[l], lotes[orden[|orden| - 1]]) {
      var p, u := orden[..|orden| - 1], orden[|orden| - 1];
      assert orden == p + [u];
      InsertarMiembros(lotes, p, l);
      var r := Insertar(lotes, p, l);
      assert u !in p;
      assert forall j :: 0 <= j < |r| ==> r[j] in r;
    }
  }

  lemma {:induction false} InsertarOrdena(lotes: seq<Lote>, orden: seq<nat>, l: nat)
    requires Validos(lotes, orden) && l < |lotes| && Ordenados(lotes, orden) && SinRepetir(orden)
    requires forall j :: 0 <= j < |orden| ==> orden[j] < l
    ensures Validos(lotes, Insertar(lotes, orden, l)) && Ordenados(lotes, Insertar(lotes, orden, l))
  {
    InsertarDentro(lotes, orden, l, |lotes|);
    if |orden| > 0 && VenceAntes(lotes[l], lotes[orden[|orden| - 1]]) {
      var p, u := orden[..|orden| - 1], orden[|orden| - 1];
      InsertarOrdena(lotes, p, l);
      InsertarMiembros(lotes, p, l);
      var r := Insertar(lotes, p, l);
      forall j | 0 <= j < |r| ensures VaAntes(lotes, r[j], u) {
        assert r[j] in r;
        if r[j] != l {
          var i :| 0 <= i < |p| && p[i] == r[j];
          assert orden[i] == r[j];
        }
      }
    }
  }

  lemma {:induction false} ConsultaMiembros(lotes: seq<Lote>, c: Celda, n: nat)
    requires n <= |lotes|
    ensures SinRepetir(Consulta(lotes, c, n))
    ensures forall l: nat :: l in Consulta(lotes, c, n) <==> l < n && lotes[l].celda == c && lotes[l].cantidad > 0.0
  {
    if n > 0 {
      ConsultaMiembros(lotes, c, n - 1);
      if lotes[n - 1].celda == c && lotes[n - 1].cantidad > 0.0 {
        InsertarMiembros(lotes, Consulta(lotes, c, n - 1), n - 1);
      }
    }
  }

  lemma {:induction false} ConsultaOrdenada(lotes: seq<Lote>, c: Celda, n: nat)
    requires n <= |lotes|
    ensures Ordenados(lotes, Consulta(lotes, c, n))
  {
    if n > 0 {
      ConsultaOrdenada(lotes, c, n - 1);
      ConsultaMiembros(lotes, c, n - 1);
      if lotes[n - 1].celda == c && lotes[n - 1].cantidad > 0.0 {
        InsertarOrdena(lotes, Consulta(lotes, c, n - 1), n - 1);
      }
    }
  }

  /** The query returns exactly the stocked lots of the cell, once each, soonest expiry first and
      the older first among lots that expire together. */
  lemma {:induction false} ConsultaExacta(lotes: seq<Lote>, c: Celda, n: nat)
    requires n <= |lotes|
    ensures Ordenados(lotes, Consulta(lotes, c, n)) && SinRepetir(Consulta(lotes, c, n))
    ensures forall l: nat :: l in Consulta(lotes, c, n) <==> l < n && lotes[l].celda == c && lotes[l].cantidad > 0.0
  {
    ConsultaMiembros(lotes, c, n);
    ConsultaOrdenada(lotes, c, n);
  }

  // ------------------------------------------------------------------ the loop

  /** What is still missing after visiting the first n lots. */
  function Restante(lotes: seq<Lote>, orden: seq<nat>, cantidad: real, hoy: nat, n: nat): real
    requires Validos(lotes, orden) && n <= |orden|
  {
    if n == 0 then cantidad
    else
      var r := Restante(lotes, orden, cantidad, hoy, n - 1);
      var l := lotes[orden[n - 1]];
      if r <= 0.0 || Vencido(l, hoy) then r
      else r - (if l.cantidad < r then l.cantidad else r)
  }

  /** What the first n visits took, lot by lot. */
  function Consumos(lotes: seq<Lote>, orden: seq<nat>, cantidad: real, hoy: nat, n: nat): seq<Consumo>
    requires Validos(lotes, orden) && n <= |orden|
  {
    if n == 0 then []
    else
      var r := Restante(lotes, orden, cantidad, hoy, n - 1);
      var l := lotes[orden[n - 1]];
      var previos := Consumos(lotes, orden, cantidad, hoy, n - 1);
      if r <= 0.0 || Vencido(l, hoy) then previos
      else previos + [Consumo(orden[n - 1], if l.cantidad < r then l.cantidad else r)]
  }

  function Descontar1(lotes: seq<Lote>, c: Consumo): seq<Lote> {
    if c.lote < |lotes| then lotes[c.lote := lotes[c.lote].(cantidad := lotes[c.lote].cantidad - c.cantidad)] else lotes
  }

  function Descontar(lotes: seq<Lote>, consumos: seq<Consumo>): seq<Lote> {
    if |consumos| == 0 then lotes
    else Descontar1(Descontar(lotes, consumos[..|consumos| - 1]), consumos[|consumos| - 1])
  }

  lemma {:induction false} DescontarExacto(lotes: seq<Lote>, consumos: seq<Consumo>)
    requires forall j :: 0 <= j < |consumos| ==> consumos[j].lote < |lotes|
    ensures var r := Descontar(lotes, consumos);
      && |r| == |lotes|
      && forall l :: 0 <= l < |lotes| ==>
           r[l] == lotes[l].(cantidad := lotes[l].cantidad - Suma(consumos, CantidadConsumida(l)))
  {
    if |consumos| > 0 {
      DescontarExacto(lotes, consumos[..|consumos| - 1]);
    }
  }

  /** consumirLotesFEFO: the consumption, or a conflict when the lots do not cover the line. */
  function ConsumirLotesFEFO(lotes: seq<Lote>, c: Celda, cantidad: real, permiteNegativo: bool, hoy: nat)
    : Resultado<seq<Consumo>>
  {
    var orden := Consulta(lotes, c, |lotes|);
    if |orden| > 0 && Restante(lotes, orden, cantidad, hoy, |orden|) > 0.0 && !permiteNegativo then Err(Conflicto)
    else Ok(Consumos(lotes, orden, cantidad, hoy, |orden|))
  }

  // ------------------------------------------------------------------ what it guarantees

  function VendibleEn(lotes: seq<Lote>, hoy: nat): nat -> real {
    (l: nat) => if l < |lotes| && !Vencido(lotes[l], hoy) then lotes[l].cantidad else 0.0
  }

  function TomadoDe(consumos: seq<Consumo>): nat -> real {
    (l: nat) => Suma(consumos, CantidadConsumida(l))
  }

  /** The part of a measure that falls on lots expiring by date d. */
  function HastaFecha(lotes: seq<Lote>, d: nat, f: nat -> real): nat -> real {
    (l: nat) => if l < |lotes| && VencePara(lotes[l], d) then f(l) else 0.0
  }

  ghost predicate Positivos(lotes: seq<Lote>, orden: seq<nat>)
    requires Validos(lotes, orden)
  {
    forall j :: 0 <= j < |orden| ==> lotes[orden[j]].cantidad > 0.0
  }

  /** After any prefix of the visit nothing is missing, or every sellable unit of it is gone. */
  lemma {:induction false} RestanteExacto(lotes: seq<Lote>, orden: seq<nat>, cantidad: real, hoy: nat, n: nat)
    requires Validos(lotes, orden) && n <= |orden| && Positivos(lotes, orden) && cantidad > 0.0
    ensures Suma(orden[..n], VendibleEn(lotes, hoy)) >= 0.0
    ensures Restante(lotes, orden, cantidad, hoy, n)
         == if Suma(orden[..n], VendibleEn(lotes, hoy)) < cantidad
            then cantidad - Suma(orden[..n], VendibleEn(lotes, hoy)) else 0.0
  {
    if n > 0 {
      RestanteExacto(lotes, orden, cantidad, hoy, n - 1);
      assert orden[..n][..n - 1] == orden[..n - 1];
    }
  }

  /** A visit takes from its lot exactly what it removes from the missing quantity, and no
      other visit touches that lot. */
  lemma {:induction false} TomaExacta(lotes: seq<Lote>, orden: seq<nat>, cantidad: real, hoy: nat, n: nat, l: nat)
    requires Validos(lotes, orden) && n <= |orden| && SinRepetir(orden)
    ensures l !in orden[..n] ==> TomadoDe(Consumos(lotes, orden, cantidad, hoy, n))(l) == 0.0
    ensures forall j :: 0 <= j < n && orden[j] == l ==>
      TomadoDe(Consumos(lotes, orden, cantidad, hoy, n))(l)
        == Restante(lotes, orden, cantidad, hoy, j) - Restante(lotes, orden, cantidad, hoy, j + 1)
  {
    if n > 0 {
      TomaExacta(lotes, orden, cantidad, hoy, n - 1, l);
      assert orden[..n] == orden[..n - 1] + [orden[n - 1]];
    }
  }

  /** Together the visits of a prefix take what the prefix removed from the missing quantity,
      whatever is visited afterwards. */
  lemma {:induction false} TomaDePrefijo(lotes: seq<Lote>, orden: seq<nat>, cantidad: real, hoy: nat, m: nat, n: nat)
    requires Validos(lotes, orden) && m <= n <= |orden| && SinRepetir(orden)
    ensures Suma(orden[..m], TomadoDe(Consumos(lotes, orden, cantidad, hoy, n)))
         == cantidad - Restante(lotes, orden, cantidad, hoy, m)
    decreases m
  {
    if m > 0 {
      TomaDePrefijo(lotes, orden, cantidad, hoy, m - 1, n);
      TomaExacta(lotes, orden, cantidad, hoy, n, orden[m - 1]);
      assert orden[..m] == orden[..m - 1] + [orden[m - 1]];
    }
  }

  predicate TomaValida(lotes: seq<Lote>, visitados: seq<nat>, hoy: nat, c: Consumo) {
    c.lote in visitados && c.lote < |lotes| && c.cantidad > 0.0 && !Vencido(lotes[c.lote], hoy)
  }

  ghost predicate TomasValidas(lotes: seq<Lote>, visitados: seq<nat>, hoy: nat, cs: seq<Consumo>) {
    && (forall j :: 0 <= j < |cs| ==> TomaValida(lotes, visitados, hoy, cs[j]))
    && (forall i, j :: 0 <= i < j < |cs| ==> cs[i].lote != cs[j].lote)
  }

  /** Only unexpired lots among those visited are taken from, each at most once. */
  lemma {:induction false} ConsumosVisitados(lotes: seq<Lote>, orden: seq<nat>, cantidad: real, hoy: nat, n: nat)
    requires Validos(lotes, orden) && n <= |orden| && SinRepetir(orden) && Positivos(lotes, orden)
    ensures TomasValidas(lotes, orden[..n], hoy, Consumos(lotes, orden, cantidad, hoy, n))
  {
    if n > 0 {
      ConsumosVisitados(lotes, orden, cantidad, hoy, n - 1);
      var p := Consumos(lotes, orden, cantidad, hoy, n - 1);
      var cs := Consumos(lotes, orden, cantidad, hoy, n);
      var u := orden[n - 1];
      assert orden[..n] == orden[..n - 1] + [u];
      assert u !in orden[..n - 1];
      forall j | 0 <= j < |cs| ensures TomaValida(lotes, orden[..n], hoy, cs[j]) {
        if j < |p| {
          assert TomaValida(lotes, orden[..n - 1], hoy, p[j]);
        }
      }
      forall i, j | 0 <= i < j < |cs| ensures cs[i].lote != cs[j].lote {
        assert TomaValida(lotes, orden[..n - 1], hoy, p[i]);
      }
    }
  }

  lemma {:induction false} ConsumosSuman(lotes: seq<Lote>, orden: seq<nat>, cantidad: real, hoy: nat, n: nat)
    requires Validos(lotes, orden) && n <= |orden|
    ensures Suma(Consumos(lotes, orden, cantidad, hoy, n), Consumida()) == cantidad - Restante(lotes, orden, cantidad, hoy, n)
  {
    if n > 0 {
      ConsumosSuman(lotes, orden, cantidad, hoy, n - 1);
    }
  }

  /** In expiry order, the lots expiring by a date come first. */
  lemma {:induction false} PrefijoDeFecha(lotes: seq<Lote>, orden: seq<nat>, d: nat, n: nat) returns (m: nat)
    requires Validos(lotes, orden) && n <= |orden| && Ordenados(lotes, orden)
    ensures m <= n
    ensures forall j :: 0 <= j < n ==> (j < m <==> VencePara(lotes[orden[j]], d))
  {
    if n == 0 {
      m := 0;
    } else {
      m := PrefijoDeFecha(lotes, orden, d, n - 1);
      if VencePara(lotes[orden[n - 1]], d) {
        assert forall j :: 0 <= j < n - 1 ==> !VenceAntes(lotes[orden[n - 1]], lotes[orden[j]]);
        m := n;
      }
    }
  }

  lemma {:induction false} SumaHastaFecha(lotes: seq<Lote>, orden: seq<nat>, d: nat, m: nat, f: nat -> real)
    requires Validos(lotes, orden) && m <= |orden|
    requires forall j :: 0 <= j < |orden| ==> (j < m <==> VencePara(lotes[orden[j]], d))
    ensures Suma(orden, HastaFecha(lotes, d, f)) == Suma(orden[..m], f)
  {
    assert orden == orden[..m] + orden[m..];
    SumaConcat(orden[..m], orden[m..], HastaFecha(lotes, d, f));
    SumaIgual(orden[..m], HastaFecha(lotes, d, f), f);
    SumaNula(orden[m..], HastaFecha(lotes, d, f));
  }

  /** A split of the quantity that sells no expired unit and overdraws no lot. */
  ghost predicate Reparto(lotes: seq<Lote>, orden: seq<nat>, cantidad: real, hoy: nat, f: nat -> real)
    requires Validos(lotes, orden)
  {
    && (forall j :: 0 <= j < |orden| ==> 0.0 <= f(orden[j]) <= VendibleEn(lotes, hoy)(orden[j]))
    && Suma(orden, f) <= cantidad
  }

  /** No split can take from a prefix more than it holds or more than is asked for. */
  lemma {:induction false} RepartoAcotado(lotes: seq<Lote>, orden: seq<nat>, cantidad: real, hoy: nat, f: nat -> real, m: nat)
    requires Validos(lotes, orden) && m <= |orden| && Reparto(lotes, orden, cantidad, hoy, f)
    ensures Suma(orden[..m], f) <= Suma(orden[..m], VendibleEn(lotes, hoy))
    ensures Suma(orden[..m], f) <= cantidad
  {
    SumaMenor(orden[..m], f, VendibleEn(lotes, hoy));
    assert orden == orden[..m] + orden[m..];
    SumaConcat(orden[..m], orden[m..], f);
    SumaNoNegativa(orden[m..], f);
  }

  lemma {:induction false} ConsultaPositiva(lotes: seq<Lote>, c: Celda)
    ensures var orden := Consulta(lotes, c, |lotes|);
      Ordenados(lotes, orden) && SinRepetir(orden) && Positivos(lotes, orden)
  {
    ConsultaExacta(lotes, c, |lotes|);
    var orden := Consulta(lotes, c, |lotes|);
    assert forall j :: 0 <= j < |orden| ==> orden[j] in orden;
  }

  /** FEFO takes from the lots expiring by any date as much as any split possibly could. */
  lemma {:induction false} FEFOEsOptimo(lotes: seq<Lote>, c: Celda, cantidad: real, hoy: nat, d: nat, f: nat -> real)
    requires cantidad > 0.0
    requires Reparto(lotes, Consulta(lotes, c, |lotes|), cantidad, hoy, f)
    ensures var orden := Consulta(lotes, c, |lotes|);
      Suma(orden, HastaFecha(lotes, d, f))
        <= Suma(orden, HastaFecha(lotes, d, TomadoDe(Consumos(lotes, orden, cantidad, hoy, |orden|))))
  {
    var orden := Consulta(lotes, c, |lotes|);
    var cs := Consumos(lotes, orden, cantidad, hoy, |orden|);
    ConsultaPositiva(lotes, c);
    var m := PrefijoDeFecha(lotes, orden, d, |orden|);
    SumaHastaFecha(lotes, orden, d, m, f);
    SumaHastaFecha(lotes, orden, d, m, TomadoDe(cs));
    TomaDePrefijo(lotes, orden, cantidad, hoy, m, |orden|);
    RestanteExacto(lotes, orden, cantidad, hoy, m);
    RepartoAcotado(lotes, orden, cantidad, hoy, f, m);
  }

  /** FEFO is itself such a split: what it takes from a lot is within its sellable stock. */
  lemma {:induction false} FEFOEsReparto(lotes: seq<Lote>, c: Celda, cantidad: real, hoy: nat)
    requires cantidad > 0.0
    ensures var orden := Consulta(lotes, c, |lotes|);
      Reparto(lotes, orden, cantidad, hoy, TomadoDe(Consumos(lotes, orden, cantidad, hoy, |orden|)))
  {
    var orden := Consulta(lotes, c, |lotes|);
    var cs := Consumos(lotes, orden, cantidad, hoy, |orden|);
    ConsultaPositiva(lotes, c);
    forall j | 0 <= j < |orden| ensures 0.0 <= TomadoDe(cs)(orden[j]) <= VendibleEn(lotes, hoy)(orden[j]) {
      TomaExacta(lotes, orden, cantidad, hoy, |orden|, orden[j]);
      RestanteExacto(lotes, orden, cantidad, hoy, j);
      RestanteExacto(lotes, orden, cantidad, hoy, j + 1);
    }
    assert orden[..|orden|] == orden;
    TomaDePrefijo(lotes, orden, cantidad, hoy, |orden|, |orden|);
    RestanteExacto(lotes, orden, cantidad, hoy, |orden|);
  }

  /** What a line consumes: no expired lot, each lot at most once, in total the smaller of the
      quantity asked for and the sellable stock of the cell. */
  lemma {:induction false} FEFOConsume(lotes: seq<Lote>, c: Celda, cantidad: real, permiteNegativo: bool, hoy: nat)
    requires cantidad > 0.0 && ConsumirLotesFEFO(lotes, c, cantidad, permiteNegativo, hoy).Ok?
    ensures var cs := ConsumirLotesFEFO(lotes, c, cantidad, permiteNegativo, hoy).value;
      var vendible := Suma(Consulta(lotes, c, |lotes|), VendibleEn(lotes, hoy));
      && (forall j :: 0 <= j < |cs| ==>
            (cs[j].lote < |lotes| && lotes[cs[j].lote].celda == c
              && !Vencido(lotes[cs[j].lote], hoy) && cs[j].cantidad > 0.0))
      && (forall i, j :: 0 <= i < j < |cs| ==> cs[i].lote != cs[j].lote)
      && Suma(cs, Consumida()) == (if vendible < cantidad then vendible else cantidad)
      && (|Consulta(lotes, c, |lotes|)| > 0 && !permiteNegativo ==> Suma(cs, Consumida()) == cantidad)
  {
    var orden := Consulta(lotes, c, |lotes|);
    ConsultaPositiva(lotes, c);
    ConsultaExacta(lotes, c, |lotes|);
    assert orden[..|orden|] == orden;
    ConsumosVisitados(lotes, orden, cantidad, hoy, |orden|);
    var cs := Consumos(lotes, orden, cantidad, hoy, |orden|);
    assert TomasValidas(lotes, orden, hoy, cs);
    ConsumosSuman(lotes, orden, cantidad, hoy, |orden|);
    RestanteExacto(lotes, orden, cantidad, hoy, |orden|);
  }

  /** No lot goes negative, and lots of other cells are untouched. */
  lemma {:induction false} FEFONoSobregira(lotes: seq<Lote>, c: Celda, cantidad: real, permiteNegativo: bool, hoy: nat, l: nat)
    requires cantidad > 0.0 && ConsumirLotesFEFO(lotes, c, cantidad, permiteNegativo, hoy).Ok?
    requires l < |lotes| && lotes[l].cantidad >= 0.0
    ensures var cs := ConsumirLotesFEFO(lotes, c, cantidad, permiteNegativo, hoy).value;
      && 0.0 <= Suma(cs, CantidadConsumida(l)) <= lotes[l].cantidad
      && (lotes[l].celda != c ==> Suma(cs, CantidadConsumida(l)) == 0.0)
  {
    var orden := Consulta(lotes, c, |lotes|);
    FEFOEsReparto(lotes, c, cantidad, hoy);
    ConsultaExacta(lotes, c, |lotes|);
    assert orden[..|orden|] == orden;
    TomaExacta(lotes, orden, cantidad, hoy, |orden|, l);
    if l in orden {
      var j :| 0 <= j < |orden| && orden[j] == l;
      assert TomadoDe(Consumos(lotes, orden, cantidad, hoy, |orden|))(orden[j]) <= VendibleEn(lotes, hoy)(orden[j]);
    }
  }
}
