/** What a fiscal document says of the sale it is about: the totals by kind of tax, what each item carries
    over from its line, and when the percentage it prints is the one that was charged. */
module Facturas {
  import opened Comun
  import opened Sumas
  import opened Dinero
  import opened Kardex
  import opened Ventas
  import opened VentasInvariante
  import opened Comprobante
  import Importes

  // ------------------------------------------------------------------ totals by kind of tax

  function BaseDe(as': set<Afectacion>): Item -> real {
    (a: Item) => if a.affectation in as' then a.taxableBase else 0.0
  }

  function CobradoDe(as': set<Afectacion>): Item -> real {
    (a: Item) => if a.affectation in as' then a.total else 0.0
  }

  function ImpuestoItem(): Item -> real { (a: Item) => a.montoImpuesto }
  function FijosItem(): Item -> real { (a: Item) => a.montoOtrosTributos }
  function RebajaItem(): Item -> real { (a: Item) => a.discountAmount }

  const ONEROSAS: set<Afectacion> := {GRAVADO, EXONERADO, INAFECTO, EXPORTACION}

  /** Each total is the sum of the bases of its own kind: exports count as unaffected, and free items count
      in the free total alone. */
  ghost predicate TotalesPorTributo(items: seq<Item>, t: Totales) {
    && t.taxableTotal == Suma(items, BaseDe({GRAVADO})) && t.exemptTotal == Suma(items, BaseDe({EXONERADO}))
    && t.unaffectedTotal == Suma(items, BaseDe({INAFECTO, EXPORTACION})) && t.freeTotal == Suma(items, BaseDe({GRATUITO}))
    && t.subtotal == Suma(items, BaseDe(ONEROSAS)) && t.total == Suma(items, CobradoDe(ONEROSAS))
    && t.totalImpuesto == Suma(items, ImpuestoItem()) && t.otrosTributos == Suma(items, FijosItem())
    && t.totalDescuento == Suma(items, RebajaItem())
  }

  lemma {:induction false} ItemsPrefijo(ls: seq<LineaVenta>)
    requires |ls| > 0
    ensures ItemsDe(ls)[..|ls| - 1] == ItemsDe(ls[..|ls| - 1]) && ItemsDe(ls)[|ls| - 1] == ItemDe(ls[|ls| - 1])
  {
  }

  lemma {:induction false} TotalesDicen(ls: seq<LineaVenta>)
    ensures TotalesPorTributo(ItemsDe(ls), TotalesDe(ls))
  {
    if |ls| > 0 {
      TotalesDicen(ls[..|ls| - 1]);
      ItemsPrefijo(ls);
      TotalesUno(ls);
    }
  }

  /** One more line adds its base to the total of its kind and to no other. */
  lemma {:induction false} TotalesUno(ls: seq<LineaVenta>)
    requires |ls| > 0
    ensures var previas, a := TotalesDe(ls[..|ls| - 1]), ItemDe(ls[|ls| - 1]);
      var t := TotalesDe(ls);
      && t.taxableTotal == previas.taxableTotal + BaseDe({GRAVADO})(a) && t.exemptTotal == previas.exemptTotal + BaseDe({EXONERADO})(a)
      && t.unaffectedTotal == previas.unaffectedTotal + BaseDe({INAFECTO, EXPORTACION})(a)
      && t.freeTotal == previas.freeTotal + BaseDe({GRATUITO})(a)
      && t.subtotal == previas.subtotal + BaseDe(ONEROSAS)(a) && t.total == previas.total + CobradoDe(ONEROSAS)(a)
      && t.totalImpuesto == previas.totalImpuesto + a.montoImpuesto && t.otrosTributos == previas.otrosTributos + a.montoOtrosTributos
      && t.totalDescuento == previas.totalDescuento + a.discountAmount
  {
  }

  // ------------------------------------------------------------------ items

  /** The kind of tax a UBL category code stands for. */
  function AfectacionDeCategoria(codigo: string): Option<Afectacion> {
    if codigo == "S" then Some(GRAVADO)
    else if codigo == "E" then Some(EXONERADO)
    else if codigo == "O" then Some(INAFECTO)
    else if codigo == "Z" then Some(GRATUITO)
    else if codigo == "G" then Some(EXPORTACION)
    else None
  }

  /** What an item says in codes is what its line is: the category reads back, only taxed items carry a
      percentage, and only free ones a reference price. */
  lemma {:induction false} CodigosDicen(l: LineaVenta)
    ensures var a := ItemDe(l);
      && AfectacionDeCategoria(a.taxCategoryCode) == Some(l.afectacion) && a.affectation == l.afectacion
      && (a.taxPercent == 18.0 <==> l.afectacion == GRAVADO) && (a.taxPercent == 0.0 <==> l.afectacion != GRAVADO)
      && (a.priceTypeCode == "02" <==> l.afectacion == GRATUITO) && (a.priceTypeCode == "01" <==> l.afectacion != GRATUITO)
      && a.sunatUnitCode == (if l.unidad.Some? then l.unidad.value else "NIU")
      && a.taxSchemeId == "1000" && a.taxSchemeName == "IGV"
  {
  }

  /** The base of an item is its value to the cent, and its price times the quantity is that value and the
      tax. */
  lemma {:induction false} ImportesDelItem(l: LineaVenta)
    ensures var a := ItemDe(l);
      && EnCentimos(a.taxableBase)
      && -MEDIO_CENTIMO <= a.taxableBase - Valor(a.cantidad, a.valorUnitario) <= MEDIO_CENTIMO
      && (a.cantidad > 0.0 ==> Valor(a.cantidad, a.precioUnitario) == Valor(a.cantidad, a.valorUnitario) + a.montoImpuesto)
  {
    RedondearIdempotente(Valor(l.valorUnitario, l.cantidad));
    RedondearCerca(Valor(l.valorUnitario, l.cantidad));
    assert Valor(l.valorUnitario, l.cantidad) == Valor(l.cantidad, l.valorUnitario);
    if l.cantidad > 0.0 {
      EntreYPor(l.montoImpuesto, l.cantidad);
      PorSuma(l.cantidad, l.valorUnitario, l.montoImpuesto / l.cantidad);
    }
  }

  lemma {:induction false} PorSuma(q: real, x: real, y: real)
    ensures Valor(q, x + y) == Valor(q, x) + Valor(q, y)
  {
  }

  // ------------------------------------------------------------------ the document of a sale

  /** Item l of the document carries sale line l as it is, numbered from one. */
  predicate ItemDeLinea(a: Item, c: LineaCalculada, l: nat) {
    && a.lineNumber == l + 1 && a.varianteId == Some(c.variante) && a.cantidad == c.cantidad && a.affectation == c.afectacion
    && a.valorUnitario == c.valorUnitario && a.montoImpuesto == c.montoImpuesto && a.montoOtrosTributos == c.montoOtrosTributos
    && a.discountAmount == c.descuentoMonto && a.total == c.total
  }

  /** The document of a sale has one item a line, and its totals are the sale's: all of it but what free
      lines come to, and all of its taxes and discounts. */
  lemma {:induction false} FacturaDice(v: Venta, fichas: nat -> Ficha)
    requires Importes.TotalesJustos(v)
    ensures var ls := LineasDeVenta(v.lineas, fichas);
      var items, t := ItemsDe(ls), TotalesDe(ls);
      && |items| == |v.lineas| && (forall l :: 0 <= l < |items| ==> ItemDeLinea(items[l], v.lineas[l], l))
      && t.totalImpuesto == v.totalImpuesto && t.otrosTributos == v.otrosTributos && t.totalDescuento == v.totalDescuento
      && t.total == v.total - Suma(items, CobradoDe({GRATUITO}))
  {
    var ls := LineasDeVenta(v.lineas, fichas);
    var items := ItemsDe(ls);
    TotalesDicen(ls);
    MismasSumas(v.lineas, items);
    RepartoDelTotal(items);
  }

  function TotalItem(): Item -> real { (a: Item) => a.total }

  lemma {:induction false} RepartoDelTotal(items: seq<Item>)
    ensures Suma(items, TotalItem()) == Suma(items, CobradoDe(ONEROSAS)) + Suma(items, CobradoDe({GRATUITO}))
  {
    forall i | 0 <= i < |items| ensures TotalItem()(items[i]) == CobradoDe(ONEROSAS)(items[i]) + CobradoDe({GRATUITO})(items[i]) {
      assert items[i].affectation in ONEROSAS || items[i].affectation == GRATUITO;
    }
    SumaMasMenos(items, TotalItem(), CobradoDe(ONEROSAS), CobradoDe({GRATUITO}));
  }

  lemma {:induction false} MismasSumas(cs: seq<LineaCalculada>, items: seq<Item>)
    requires |items| == |cs| && forall l :: 0 <= l < |cs| ==> ItemDeLinea(items[l], cs[l], l)
    ensures Suma(items, ImpuestoItem()) == Suma(cs, Importes.ImpuestoDeUna()) && Suma(items, FijosItem()) == Suma(cs, Importes.FijosDeUna())
    ensures Suma(items, RebajaItem()) == Suma(cs, Importes.RebajaDeUna()) && Suma(items, TotalItem()) == Suma(cs, Importes.TotalDeLinea())
  {
    if |cs| > 0 {
      var n := |cs| - 1;
      forall l | 0 <= l < n ensures ItemDeLinea(items[..n][l], cs[..n][l], l) {
        assert ItemDeLinea(items[l], cs[l], l);
      }
      MismasSumas(cs[..n], items[..n]);
      assert ItemDeLinea(items[n], cs[n], n);
    }
  }

  // ------------------------------------------------------------------ the percentage it prints

  /** "The tax of an item is the percentage it prints of its net value" holds of a line that is worth
      something and has a tax that is a rate if and only if that rate is eighteen on a taxed line, or zero
      on any other: whatever rate was charged, a taxed item prints eighteen and any other none. */
  lemma {:induction false} PorcentajeImpresoSii(ts: seq<Tributo>, i: nat, c: LineaCalculada, n: nat, f: Ficha)
    requires i < |ts| && Importes.EsPrincipal(ts, i) && Importes.ImpuestoJusto(ts, c) && Valor(c.cantidad, c.valorUnitario) > 0.0
    ensures var a := ItemDe(LineaDeVenta(c, n, f));
      a.montoImpuesto == Importes.SobreNeto(c, a.taxPercent) <==> ts[i].rate == if ts[i].affectation == GRAVADO then 18.0 else 0.0
  {
    var a := ItemDe(LineaDeVenta(c, n, f));
    assert a.montoImpuesto == Importes.SobreNeto(c, ts[i].rate);
    SobreNetoIgual(c, ts[i].rate, a.taxPercent);
  }

  lemma {:induction false} SobreNetoIgual(c: LineaCalculada, x: real, y: real)
    requires Valor(c.cantidad, c.valorUnitario) > 0.0
    ensures Importes.SobreNeto(c, x) == Importes.SobreNeto(c, y) <==> x == y
  {
    var neto := Valor(c.cantidad, c.valorUnitario);
    assert neto * x - neto * y == neto * (x - y);
    MenorPor(neto, x - y);
  }

  lemma {:induction false} MenorPor(neto: real, d: real)
    requires neto > 0.0
    ensures neto * d == 0.0 <==> d == 0.0
  {
  }
}
