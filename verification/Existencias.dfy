/** Stock and lots together: a sale line leaving the warehouse, a receipt line entering it,
    and the equation each lot keeps with what was received into it and sold from it. */
module Existencias {
  import opened Comun
  import opened Sumas
  import opened Kardex
  import opened Movimientos
  import opened Lotes

  datatype Existencias = Existencias(kardex: Kardex, lotes: seq<Lote>)

  /** One stock-tracked line of a sale, its warehouse already resolved. */
  datatype LineaStock = LineaStock(celda: Celda, cantidad: real, numero: nat)

  /** One PurchaseReceiptItem row; an empty lot number means none. */
  datatype ItemRecepcion = ItemRecepcion(
    recepcion: nat, celda: Celda, cantidad: real, costoUnitario: real, lotNumber: string, venceEn: Option<nat>)

  function RecibidoEn(c: Celda, numero: string): ItemRecepcion -> real {
    (r: ItemRecepcion) => if r.celda == c && r.lotNumber == numero then r.cantidad else 0.0
  }

  // ------------------------------------------------------------------ the ledger of a sale line

  function AsientoVenta(l: LineaStock, venta: nat, costo: real, cantidad: real, lote: Option<nat>, sufijo: Sufijo): Asiento {
    Asiento(l.celda, lote, VENTA, -cantidad, costo, -Valor(cantidad, costo), None,
            VentaLinea(venta, l.celda.almacen, l.celda.variante, l.numero, sufijo))
  }

  function AsientosDeLotes(l: LineaStock, venta: nat, costo: real, consumos: seq<Consumo>): seq<Asiento> {
    if |consumos| == 0 then []
    else
      var c := consumos[|consumos| - 1];
      AsientosDeLotes(l, venta, costo, consumos[..|consumos| - 1])
        + [AsientoVenta(l, venta, costo, c.cantidad, Some(c.lote), PorLote(c.lote))]
  }

  /** registrarAsientoVenta: one entry, or one for each lot and one for what no lot covered. */
  function AsientosVenta(l: LineaStock, venta: nat, costo: real, consumos: seq<Consumo>): seq<Asiento> {
    if |consumos| == 0 then [AsientoVenta(l, venta, costo, l.cantidad, None, Linea)]
    else
      var resto := l.cantidad - Suma(consumos, Consumida());
      AsientosDeLotes(l, venta, costo, consumos)
        + (if resto > 0.0 then [AsientoVenta(l, venta, costo, resto, None, Resto)] else [])
  }

  function AsentarUno(): (seq<Asiento>, Asiento) -> Resultado<seq<Asiento>> {
    (ledger: seq<Asiento>, a: Asiento) => Asentar(ledger, a)
  }

  lemma {:induction false} AsentarAgrega(ledger: seq<Asiento>, filas: seq<Asiento>)
    requires ClavesDistintas(ledger)
    ensures Plegar(ledger, filas, AsentarUno()).Ok? ==>
      Plegar(ledger, filas, AsentarUno()).value == ledger + filas && ClavesDistintas(ledger + filas)
  {
    if |filas| == 0 {
      assert ledger + filas == ledger;
    } else if Plegar(ledger, filas, AsentarUno()).Ok? {
      AsentarAgrega(ledger, filas[..|filas| - 1]);
      var previo := ledger + filas[..|filas| - 1];
      assert ledger + filas == previo + [filas[|filas| - 1]];
      assert forall i :: 0 <= i < |previo| ==> previo[i] in previo;
    }
  }

  lemma {:induction false} AsientosDeLotesForma(l: LineaStock, venta: nat, costo: real, consumos: seq<Consumo>)
    ensures var filas := AsientosDeLotes(l, venta, costo, consumos);
      && |filas| == |consumos|
      && (forall i :: 0 <= i < |filas| ==> filas[i].celda == l.celda && filas[i].lote == Some(consumos[i].lote))
  {
    if |consumos| > 0 {
      AsientosDeLotesForma(l, venta, costo, consumos[..|consumos| - 1]);
    }
  }

  lemma {:induction false} AsientosDeLotesSuman(l: LineaStock, venta: nat, costo: real, consumos: seq<Consumo>, lote: nat)
    ensures var filas := AsientosDeLotes(l, venta, costo, consumos);
      && Suma(filas, CantidadEn(l.celda)) == -Suma(consumos, Consumida())
      && Suma(filas, CostoEn(l.celda)) == -Valor(Suma(consumos, Consumida()), costo)
      && Suma(filas, CantidadDeLote(lote)) == -Suma(consumos, CantidadConsumida(lote))
  {
    if |consumos| > 0 {
      var previos, c := consumos[..|consumos| - 1], consumos[|consumos| - 1];
      AsientosDeLotesSuman(l, venta, costo, previos, lote);
      ValorSuma(Suma(previos, Consumida()), c.cantidad, costo);
      var p, a := AsientosDeLotes(l, venta, costo, previos), AsientoVenta(l, venta, costo, c.cantidad, Some(c.lote), PorLote(c.lote));
    }
  }

  /** The entries of a line stay in its cell and name only lots it consumed. */
  lemma {:induction false} AsientosVentaForma(l: LineaStock, venta: nat, costo: real, consumos: seq<Consumo>)
    ensures var filas := AsientosVenta(l, venta, costo, consumos);
      && (forall i :: 0 <= i < |filas| ==> filas[i].celda == l.celda)
      && (forall i :: 0 <= i < |filas| && filas[i].lote.Some? ==>
            i < |consumos| && filas[i].lote.value == consumos[i].lote)
  {
    AsientosDeLotesForma(l, venta, costo, consumos);
  }

  /** However a line is split over lots, its entries add up to minus its quantity, at one unit
      cost, and each lot is charged exactly what was consumed from it. */
  lemma {:induction false} AsientosVentaSuman(l: LineaStock, venta: nat, costo: real, consumos: seq<Consumo>, lote: nat)
    requires Suma(consumos, Consumida()) <= l.cantidad
    ensures var filas := AsientosVenta(l, venta, costo, consumos);
      && Suma(filas, CantidadEn(l.celda)) == -l.cantidad
      && Suma(filas, CostoEn(l.celda)) == -Valor(l.cantidad, costo)
      && Suma(filas, CantidadDeLote(lote)) == -Suma(consumos, CantidadConsumida(lote))
  {
    if |consumos| == 0 {
      var a := AsientoVenta(l, venta, costo, l.cantidad, None, Linea);
      SumaUno(a, CantidadEn(l.celda));
      SumaUno(a, CostoEn(l.celda));
      SumaUno(a, CantidadDeLote(lote));
    } else {
      AsientosDeLotesSuman(l, venta, costo, consumos, lote);
      var porLote := AsientosDeLotes(l, venta, costo, consumos);
      var resto := l.cantidad - Suma(consumos, Consumida());
      ValorSuma(Suma(consumos, Consumida()), resto, costo);
      if resto > 0.0 {
        var a := AsientoVenta(l, venta, costo, resto, None, Resto);
      } else {
        assert porLote + [] == porLote;
      }
    }
  }

  // ------------------------------------------------------------------ a sale line

  /** registrarLinea, for a stock-tracked variant. */
  function RegistrarLinea(e: Existencias, l: LineaStock, permiteNegativo: bool, venta: nat, hoy: nat): Resultado<Existencias> {
    if l.celda !in e.kardex.saldos then
      if !permiteNegativo then Err(Conflicto)
      else
        var ledger :- Plegar(e.kardex.ledger, AsientosVenta(l, venta, 0.0, []), AsentarUno());
        Ok(e.(kardex := Kardex(e.kardex.saldos[l.celda := VACIO.(enStock := -l.cantidad, available := -l.cantidad)], ledger)))
    else
      var s := e.kardex.saldos[l.celda];
      if s.available < l.cantidad && !permiteNegativo then Err(Conflicto)
      else
        var consumos :- ConsumirLotesFEFO(e.lotes, l.celda, l.cantidad, permiteNegativo, hoy);
        var ledger :- Plegar(e.kardex.ledger, AsientosVenta(l, venta, s.costoPromedio, consumos), AsentarUno());
        var s' := s.(enStock := s.enStock - l.cantidad, available := s.available - l.cantidad);
        Ok(Existencias(Kardex(e.kardex.saldos[l.celda := s'], ledger), Descontar(e.lotes, consumos)))
  }

  /** What the line consumes from lots: nothing where there is no balance row yet. */
  function ConsumoDeLinea(e: Existencias, l: LineaStock, permite: bool, hoy: nat): Resultado<seq<Consumo>> {
    if l.celda in e.kardex.saldos then ConsumirLotesFEFO(e.lotes, l.celda, l.cantidad, permite, hoy) else Ok([])
  }

  lemma {:induction false} RegistrarLineaConFila(e: Existencias, l: LineaStock, permite: bool, venta: nat, hoy: nat)
    requires ClavesDistintas(e.kardex.ledger) && l.cantidad > 0.0 && l.celda in e.kardex.saldos
    requires RegistrarLinea(e, l, permite, venta, hoy).Ok?
    ensures ConsumirLotesFEFO(e.lotes, l.celda, l.cantidad, permite, hoy).Ok?
    ensures var s := e.kardex.saldos[l.celda];
      var consumos := ConsumirLotesFEFO(e.lotes, l.celda, l.cantidad, permite, hoy).value;
      var ledger := e.kardex.ledger + AsientosVenta(l, venta, s.costoPromedio, consumos);
      && RegistrarLinea(e, l, permite, venta, hoy).value
         == Existencias(Kardex(e.kardex.saldos[l.celda := s.(enStock := s.enStock - l.cantidad, available := s.available - l.cantidad)],
                               ledger),
                        Descontar(e.lotes, consumos))
      && ClavesDistintas(ledger)
      && (permite || s.available >= l.cantidad)
  {
    var consumos := ConsumirLotesFEFO(e.lotes, l.celda, l.cantidad, permite, hoy).value;
    AsentarAgrega(e.kardex.ledger, AsientosVenta(l, venta, e.kardex.saldos[l.celda].costoPromedio, consumos));
  }

  lemma {:induction false} RegistrarLineaSinFila(e: Existencias, l: LineaStock, permite: bool, venta: nat, hoy: nat)
    requires ClavesDistintas(e.kardex.ledger) && l.celda !in e.kardex.saldos
    requires RegistrarLinea(e, l, permite, venta, hoy).Ok?
    ensures permite
    ensures var ledger := e.kardex.ledger + AsientosVenta(l, venta, 0.0, []);
      && RegistrarLinea(e, l, permite, venta, hoy).value
         == e.(kardex := Kardex(e.kardex.saldos[l.celda := VACIO.(enStock := -l.cantidad, available := -l.cantidad)], ledger))
      && ClavesDistintas(ledger)
  {
    AsentarAgrega(e.kardex.ledger, AsientosVenta(l, venta, 0.0, []));
  }

  /** Both branches of the line write the same three things. */
  lemma {:induction false} RegistrarLineaEscribe(e: Existencias, l: LineaStock, permite: bool, venta: nat, hoy: nat)
    requires ClavesDistintas(e.kardex.ledger) && l.cantidad > 0.0
    requires RegistrarLinea(e, l, permite, venta, hoy).Ok?
    ensures ConsumoDeLinea(e, l, permite, hoy).Ok?
    ensures var s := Fila(e.kardex, l.celda);
      var consumos := ConsumoDeLinea(e, l, permite, hoy).value;
      var filas := AsientosVenta(l, venta, s.costoPromedio, consumos);
      && RegistrarLinea(e, l, permite, venta, hoy).value
         == Existencias(Kardex(e.kardex.saldos[l.celda := s.(enStock := s.enStock - l.cantidad, available := s.available - l.cantidad)],
                               e.kardex.ledger + filas),
                        Descontar(e.lotes, consumos))
      && ClavesDistintas(e.kardex.ledger + filas)
      && Suma(consumos, Consumida()) <= l.cantidad
      && (forall j :: 0 <= j < |consumos| ==> consumos[j].lote < |e.lotes|)
      && (permite || s.available >= l.cantidad)
  {
    if l.celda in e.kardex.saldos {
      RegistrarLineaConFila(e, l, permite, venta, hoy);
      FEFOConsume(e.lotes, l.celda, l.cantidad, permite, hoy);
    } else {
      RegistrarLineaSinFila(e, l, permite, venta, hoy);
    }
  }

  lemma {:induction false} RegistrarLineaSigue(e: Existencias, l: LineaStock, venta: nat, hoy: nat, vs: map<VarianteId, Variante>)
    requires Cuadra(e.kardex) && Firme(e.kardex, vs) && l.celda.variante in vs && l.cantidad > 0.0
    requires RegistrarLinea(e, l, vs[l.celda.variante].allowNegativeStock, venta, hoy).Ok?
    ensures Sigue(e.kardex, RegistrarLinea(e, l, vs[l.celda.variante].allowNegativeStock, venta, hoy).value.kardex, vs)
  {
    var permite := vs[l.celda.variante].allowNegativeStock;
    var k, s := e.kardex, Fila(e.kardex, l.celda);
    RegistrarLineaEscribe(e, l, permite, venta, hoy);
    var consumos := ConsumoDeLinea(e, l, permite, hoy).value;
    var filas := AsientosVenta(l, venta, s.costoPromedio, consumos);
    AsientosVentaForma(l, venta, s.costoPromedio, consumos);
    AsientosVentaSuman(l, venta, s.costoPromedio, consumos, 0);
    assert CuadraCelda(k, l.celda);
    ValorSuma(s.enStock, l.cantidad, s.costoPromedio);
    EscribirVariosSigue(k, l.celda, s.(enStock := s.enStock - l.cantidad, available := s.available - l.cantidad), filas, vs);
  }

  // ------------------------------------------------------------------ lots

  predicate EsLote(l: Lote, c: Celda, numero: string) {
    l.celda == c && l.numero == numero
  }

  function BuscarLote(lotes: seq<Lote>, c: Celda, numero: string): (i: Option<nat>)
    ensures i.Some? ==> i.value < |lotes| && EsLote(lotes[i.value], c, numero)
    ensures i.None? ==> forall j :: 0 <= j < |lotes| ==> !EsLote(lotes[j], c, numero)
  {
    if |lotes| == 0 then None
    else if EsLote(lotes[|lotes| - 1], c, numero) then Some(|lotes| - 1)
    else BuscarLote(lotes[..|lotes| - 1], c, numero)
  }

  /** registrarLote: upsert by warehouse, variant and lot number. */
  function RegistrarLote(lotes: seq<Lote>, c: Celda, numero: string, cantidad: real, venceEn: Option<nat>): seq<Lote> {
    match BuscarLote(lotes, c, numero)
    case Some(i) =>
      lotes[i := lotes[i].(cantidad := lotes[i].cantidad + cantidad,
                           venceEn := if venceEn.Some? then venceEn else lotes[i].venceEn)]
    case None => lotes + [Lote(c, numero, cantidad, venceEn)]
  }

  /** What remains in a lot is what was received into it less what its sale entries carry. */
  ghost predicate LoteCuadra(lotes: seq<Lote>, ledger: seq<Asiento>, recibidos: seq<ItemRecepcion>, l: nat)
    requires l < |lotes|
  {
    && lotes[l].cantidad >= 0.0
    && lotes[l].numero != ""
    && lotes[l].cantidad == Suma(recibidos, RecibidoEn(lotes[l].celda, lotes[l].numero)) + Suma(ledger, CantidadDeLote(l))
  }

  ghost predicate LotesCuadran(lotes: seq<Lote>, ledger: seq<Asiento>, recibidos: seq<ItemRecepcion>) {
    && (forall l :: 0 <= l < |lotes| ==> LoteCuadra(lotes, ledger, recibidos, l))
    && (forall i, j :: 0 <= i < j < |lotes| ==> !EsLote(lotes[i], lotes[j].celda, lotes[j].numero))
    && (forall i :: 0 <= i < |ledger| && ledger[i].lote.Some? ==> ledger[i].lote.value < |lotes|)
    && (forall i :: 0 <= i < |recibidos| && recibidos[i].lotNumber != "" ==>
          BuscarLote(lotes, recibidos[i].celda, recibidos[i].lotNumber).Some?)
  }

  lemma {:induction false} LotesCuadranSinLotes(lotes: seq<Lote>, ledger: seq<Asiento>, ledger': seq<Asiento>, recibidos: seq<ItemRecepcion>)
    requires LotesCuadran(lotes, ledger, recibidos) && SinLotes(ledger, ledger')
    ensures LotesCuadran(lotes, ledger', recibidos)
  {
    forall l | 0 <= l < |lotes| ensures LoteCuadra(lotes, ledger', recibidos, l) {
      assert LoteCuadra(lotes, ledger, recibidos, l);
      SinLotesSuma(ledger, ledger', l);
    }
  }

  /** A sale line keeps every lot's equation. */
  lemma {:induction false} RegistrarLineaLotes(e: Existencias, l: LineaStock, permite: bool, venta: nat, hoy: nat, recibidos: seq<ItemRecepcion>)
    requires LotesCuadran(e.lotes, e.kardex.ledger, recibidos) && ClavesDistintas(e.kardex.ledger) && l.cantidad > 0.0
    requires RegistrarLinea(e, l, permite, venta, hoy).Ok?
    ensures var e' := RegistrarLinea(e, l, permite, venta, hoy).value;
      LotesCuadran(e'.lotes, e'.kardex.ledger, recibidos)
  {
    RegistrarLineaEscribe(e, l, permite, venta, hoy);
    var costo := Fila(e.kardex, l.celda).costoPromedio;
    var consumos := ConsumoDeLinea(e, l, permite, hoy).value;
    var filas := AsientosVenta(l, venta, costo, consumos);
    AsientosVentaForma(l, venta, costo, consumos);
    DescontarExacto(e.lotes, consumos);
    forall i | 0 <= i < |e.lotes|
      ensures 0.0 <= Suma(consumos, CantidadConsumida(i)) <= e.lotes[i].cantidad
      ensures Suma(filas, CantidadDeLote(i)) == -Suma(consumos, CantidadConsumida(i))
    {
      AsientosVentaSuman(l, venta, costo, consumos, i);
      assert LoteCuadra(e.lotes, e.kardex.ledger, recibidos, i);
      if l.celda in e.kardex.saldos {
        FEFONoSobregira(e.lotes, l.celda, l.cantidad, permite, hoy, i);
      }
    }
    LotesTrasConsumo(e.lotes, Descontar(e.lotes, consumos), e.kardex.ledger, filas, consumos, recibidos);
  }

  lemma {:induction false} LotesTrasConsumo(lotes: seq<Lote>, lotes': seq<Lote>, ledger: seq<Asiento>, filas: seq<Asiento>,
                         consumos: seq<Consumo>, recibidos: seq<ItemRecepcion>)
    requires LotesCuadran(lotes, ledger, recibidos) && |lotes'| == |lotes|
    requires forall l :: 0 <= l < |lotes| ==>
      lotes'[l] == lotes[l].(cantidad := lotes[l].cantidad - Suma(consumos, CantidadConsumida(l)))
    requires forall i {:trigger CantidadConsumida(i)} :: 0 <= i < |lotes| ==>
      && 0.0 <= Suma(consumos, CantidadConsumida(i)) <= lotes[i].cantidad
      && Suma(filas, CantidadDeLote(i)) == -Suma(consumos, CantidadConsumida(i))
    requires forall i :: 0 <= i < |filas| && filas[i].lote.Some? ==> filas[i].lote.value < |lotes|
    ensures LotesCuadran(lotes', ledger + filas, recibidos)
  {
    forall l | 0 <= l < |lotes| ensures LoteCuadra(lotes', ledger + filas, recibidos, l) {
      assert LoteCuadra(lotes, ledger, recibidos, l);
      assert CantidadConsumida(l) == CantidadConsumida(l);
      SumaConcat(ledger, filas, CantidadDeLote(l));
    }
    forall i | 0 <= i < |recibidos| && recibidos[i].lotNumber != ""
      ensures BuscarLote(lotes', recibidos[i].celda, recibidos[i].lotNumber).Some? {
      var j := BuscarLote(lotes, recibidos[i].celda, recibidos[i].lotNumber).value;
    }
  }

  /** A receipt line with a lot keeps every lot's equation. */
  lemma {:induction false} RegistrarLoteCuadra(lotes: seq<Lote>, ledger: seq<Asiento>, recibidos: seq<ItemRecepcion>, r: ItemRecepcion)
    requires LotesCuadran(lotes, ledger, recibidos) && r.cantidad > 0.0
    ensures var lotes' := if r.lotNumber != "" then RegistrarLote(lotes, r.celda, r.lotNumber, r.cantidad, r.venceEn) else lotes;
      LotesCuadran(lotes', ledger, recibidos + [r])
  {
    var recibidos' := recibidos + [r];
    var lotes' := if r.lotNumber != "" then RegistrarLote(lotes, r.celda, r.lotNumber, r.cantidad, r.venceEn) else lotes;
    forall l | 0 <= l < |lotes'| ensures LoteCuadra(lotes', ledger, recibidos', l) {
      if l < |lotes| {
        assert LoteCuadra(lotes, ledger, recibidos, l);
      } else {
        forall i | 0 <= i < |recibidos| ensures RecibidoEn(r.celda, r.lotNumber)(recibidos[i]) == 0.0 {
          if recibidos[i].lotNumber == r.lotNumber {
            var j := BuscarLote(lotes, recibidos[i].celda, recibidos[i].lotNumber).value;
            assert EsLote(lotes[j], recibidos[i].celda, r.lotNumber);
          }
        }
        SumaNula(recibidos, RecibidoEn(r.celda, r.lotNumber));
        SumaNula(ledger, CantidadDeLote(l));
      }
    }
    forall i | 0 <= i < |recibidos'| && recibidos'[i].lotNumber != ""
      ensures BuscarLote(lotes', recibidos'[i].celda, recibidos'[i].lotNumber).Some? {
      if i < |recibidos| {
        var j := BuscarLote(lotes, recibidos[i].celda, recibidos[i].lotNumber).value;
      } else {
        var j := if BuscarLote(lotes, r.celda, r.lotNumber).Some? then BuscarLote(lotes, r.celda, r.lotNumber).value else |lotes|;
      }
    }
  }
}
