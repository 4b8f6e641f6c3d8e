/** The fiscal document of a sale: the items and the totals by kind of tax that SUNAT expects,
    and how far rounding can put them from the total charged. */
module Comprobante {
  import opened Comun
  import opened Sumas
  import opened Dinero
  import opened Kardex
  import opened Promociones
  import opened Ventas
  import VentasInvariante
  import VentasCorridas
  import Letras

  datatype LineaVenta = LineaVenta(
    lineNumber: nat, varianteId: Option<nat>, sku: Option<string>, nombre: string, unidad: Option<string>,
    sunatProductCode: Option<string>, afectacion: Afectacion, cantidad: real, precioUnitario: real, valorUnitario: real,
    discountAmount: real, montoImpuesto: real, montoOtrosTributos: real, total: real)

  datatype Item = Item(
    lineNumber: nat, varianteId: Option<nat>, sku: Option<string>, descripcion: string, sunatUnitCode: string,
    sunatProductCode: Option<string>, affectation: Afectacion, taxSchemeId: string, taxSchemeName: string,
    taxCategoryCode: string, priceTypeCode: string, taxPercent: real, cantidad: real, valorUnitario: real,
    precioUnitario: real, discountAmount: real, taxableBase: real, montoImpuesto: real, montoOtrosTributos: real,
    total: real)

  datatype Totales = Totales(
    subtotal: real, taxableTotal: real, exemptTotal: real, unaffectedTotal: real, freeTotal: real,
    totalDescuento: real, totalImpuesto: real, otrosTributos: real, total: real)

  datatype Documento = Documento(items: seq<Item>, totales: Totales, leyenda: string)

  const TASA_IGV: real := 18.0

  /** The one tax scheme every item names (SUNAT Catálogo 05). */
  const ESQUEMA_IGV_ID: string := "1000"
  const ESQUEMA_IGV_NOMBRE: string := "IGV"

  function Categoria(a: Afectacion): string {
    match a
    case GRAVADO => "S"
    case EXONERADO => "E"
    case INAFECTO => "O"
    case GRATUITO => "Z"
    case EXPORTACION => "G"
  }

  function BaseImponible(l: LineaVenta): real {
    Redondear2(Valor(l.valorUnitario, l.cantidad))
  }

  /** Price with tax per unit, consistent with the value already discounted. */
  function PrecioConImpuesto(l: LineaVenta): real {
    if l.cantidad > 0.0 then l.valorUnitario + l.montoImpuesto / l.cantidad else l.valorUnitario
  }

  function ItemDe(l: LineaVenta): Item {
    Item(l.lineNumber, l.varianteId, l.sku, l.nombre, l.unidad.GetOr("NIU"), l.sunatProductCode, l.afectacion,
         ESQUEMA_IGV_ID, ESQUEMA_IGV_NOMBRE, Categoria(l.afectacion), if l.afectacion == GRATUITO then "02" else "01",
         if l.afectacion == GRAVADO then TASA_IGV else 0.0, l.cantidad, l.valorUnitario, PrecioConImpuesto(l),
         l.discountAmount, BaseImponible(l), l.montoImpuesto, l.montoOtrosTributos, l.total)
  }

  function ItemsDe(ls: seq<LineaVenta>): (r: seq<Item>)
    ensures |r| == |ls|
    ensures forall i :: 0 <= i < |ls| ==> r[i] == ItemDe(ls[i])
  {
    if |ls| == 0 then [] else ItemsDe(ls[..|ls| - 1]) + [ItemDe(ls[|ls| - 1])]
  }

  // ------------------------------------------------------------------ what each total adds up

  function Gravada(): LineaVenta -> real {
    (l: LineaVenta) => if l.afectacion == GRAVADO then BaseImponible(l) else 0.0
  }

  function Exonerada(): LineaVenta -> real {
    (l: LineaVenta) => if l.afectacion == EXONERADO then BaseImponible(l) else 0.0
  }

  /** Everything that is not taxed, exempt or free, exports included. */
  function Inafecta(): LineaVenta -> real {
    (l: LineaVenta) => if l.afectacion == INAFECTO || l.afectacion == EXPORTACION then BaseImponible(l) else 0.0
  }

  function Gratuita(): LineaVenta -> real {
    (l: LineaVenta) => if l.afectacion == GRATUITO then BaseImponible(l) else 0.0
  }

  function Onerosa(): LineaVenta -> real {
    (l: LineaVenta) => if l.afectacion == GRATUITO then 0.0 else l.total
  }

  function DescuentoDe(): LineaVenta -> real { (l: LineaVenta) => l.discountAmount }
  function ImpuestoDe(): LineaVenta -> real { (l: LineaVenta) => l.montoImpuesto }
  function OtrosDe(): LineaVenta -> real { (l: LineaVenta) => l.montoOtrosTributos }

  function TotalesDe(ls: seq<LineaVenta>): Totales {
    var gravado, exonerado, inafecto := Suma(ls, Gravada()), Suma(ls, Exonerada()), Suma(ls, Inafecta());
    Totales(gravado + exonerado + inafecto, gravado, exonerado, inafecto, Suma(ls, Gratuita()), Suma(ls, DescuentoDe()),
            Suma(ls, ImpuestoDe()), Suma(ls, OtrosDe()), Suma(ls, Onerosa()))
  }

  /** toFixed(2). */
  function Fijo2(x: real): string {
    var c := Centimos(x);
    if c >= 0 then Letras.ConDosDecimales(c) else "-" + Letras.ConDosDecimales(-c)
  }

  /** construir: one pass over the lines that builds the items and keeps eight running totals. */
  method Construir(ls: seq<LineaVenta>, moneda: string) returns (d: Documento)
    ensures d == Documento(ItemsDe(ls), TotalesDe(ls), Letras.MontoEnLetras(Fijo2(Suma(ls, Onerosa())), moneda))
  {
    var taxableTotal, exemptTotal, unaffectedTotal, freeTotal := 0.0, 0.0, 0.0, 0.0;
    var totalImpuesto, otrosTributos, totalDescuento, total := 0.0, 0.0, 0.0, 0.0;
    var items: seq<Item> := [];
    for i := 0 to |ls|
      invariant items == ItemsDe(ls[..i])
      invariant taxableTotal == Suma(ls[..i], Gravada()) && exemptTotal == Suma(ls[..i], Exonerada())
      invariant unaffectedTotal == Suma(ls[..i], Inafecta()) && freeTotal == Suma(ls[..i], Gratuita())
      invariant totalImpuesto == Suma(ls[..i], ImpuestoDe()) && otrosTributos == Suma(ls[..i], OtrosDe())
      invariant totalDescuento == Suma(ls[..i], DescuentoDe()) && total == Suma(ls[..i], Onerosa())
    {
      assert ls[..i + 1][..i] == ls[..i];
      var linea := ls[i];
      var baseImponible := BaseImponible(linea);
      var esGratuito := linea.afectacion == GRATUITO;
      if esGratuito {
        freeTotal := freeTotal + baseImponible;
      } else if linea.afectacion == GRAVADO {
        taxableTotal := taxableTotal + baseImponible;
      } else if linea.afectacion == EXONERADO {
        exemptTotal := exemptTotal + baseImponible;
      } else {
        unaffectedTotal := unaffectedTotal + baseImponible;
      }
      totalImpuesto := totalImpuesto + linea.montoImpuesto;
      otrosTributos := otrosTributos + linea.montoOtrosTributos;
      totalDescuento := totalDescuento + linea.discountAmount;
      if !esGratuito {
        total := total + linea.total;
      }
      items := items + [ItemDe(linea)];
    }
    assert ls[..|ls|] == ls;
    d := Documento(items,
                   Totales(taxableTotal + exemptTotal + unaffectedTotal, taxableTotal, exemptTotal, unaffectedTotal, freeTotal,
                           totalDescuento, totalImpuesto, otrosTributos, total),
                   Letras.MontoEnLetras(Fijo2(total), moneda));
  }

  // ------------------------------------------------------------------ total against its parts

  /** The line as a sale makes it: value, tax and fixed taxes add up to its total. */
  predicate LineaCuadra(l: LineaVenta) {
    l.total == Valor(l.valorUnitario, l.cantidad) + l.montoImpuesto + l.montoOtrosTributos
  }

  /** What the catalogue says of a line's variant when the document is issued. */
  datatype Ficha = Ficha(sku: Option<string>, nombre: string, unidad: Option<string>, sunatProductCode: Option<string>)

  /** entradaDesdeVenta: the document line of a sale line. */
  function LineaDeVenta(c: LineaCalculada, n: nat, f: Ficha): LineaVenta {
    LineaVenta(n, Some(c.variante), f.sku, f.nombre, f.unidad, f.sunatProductCode, c.afectacion, c.cantidad, c.precioUnitario,
               c.valorUnitario, c.descuentoMonto, c.montoImpuesto, c.montoOtrosTributos, c.total)
  }

  function LineasDeVenta(ls: seq<LineaCalculada>, fichas: nat -> Ficha): (r: seq<LineaVenta>)
    ensures |r| == |ls|
    ensures forall i :: 0 <= i < |ls| ==> r[i] == LineaDeVenta(ls[i], i + 1, fichas(i))
  {
    if |ls| == 0 then []
    else
      var n := |ls| - 1;
      LineasDeVenta(ls[..n], fichas) + [LineaDeVenta(ls[n], n + 1, fichas(n))]
  }

  lemma {:induction false} VentaCuadra(c: LineaCalculada, n: nat, f: Ficha)
    requires VentasInvariante.ImporteCuadra(c)
    ensures LineaCuadra(LineaDeVenta(c, n, f))
  {
  }

  /** What rounding the base of a line hides; the taxes of a free line are in no total charged. */
  function Residuo(): LineaVenta -> real {
    (l: LineaVenta) =>
      if l.afectacion == GRATUITO then -(l.montoImpuesto + l.montoOtrosTributos)
      else Valor(l.valorUnitario, l.cantidad) - BaseImponible(l)
  }

  function Aportes(): LineaVenta -> real {
    (l: LineaVenta) => Onerosa()(l) - Gravada()(l) - Exonerada()(l) - Inafecta()(l) - l.montoImpuesto - l.montoOtrosTributos
  }

  lemma {:induction false} AportesSuman(ls: seq<LineaVenta>)
    ensures var t := TotalesDe(ls);
      t.total - (t.subtotal + t.totalImpuesto + t.otrosTributos) == Suma(ls, Aportes())
  {
    if |ls| > 0 {
      AportesSuman(ls[..|ls| - 1]);
    }
  }

  /** The total of a document differs from its parts by exactly the rounding of its bases, less
      the taxes of its free lines. */
  lemma {:induction false} DiferenciaExacta(ls: seq<LineaVenta>)
    requires forall i :: 0 <= i < |ls| ==> LineaCuadra(ls[i])
    ensures var t := TotalesDe(ls);
      t.total - (t.subtotal + t.totalImpuesto + t.otrosTributos) == Suma(ls, Residuo())
  {
    AportesSuman(ls);
    SumaIgual(ls, Aportes(), Residuo());
  }

  lemma {:induction false} ResiduosAcotados(ls: seq<LineaVenta>)
    requires forall i :: 0 <= i < |ls| ==> ls[i].afectacion != GRATUITO
    ensures -MEDIO_CENTIMO * |ls| as real <= Suma(ls, Residuo()) <= MEDIO_CENTIMO * |ls| as real
  {
    if |ls| > 0 {
      var l := ls[|ls| - 1];
      ResiduosAcotados(ls[..|ls| - 1]);
      RedondearCerca(Valor(l.valorUnitario, l.cantidad));
    }
  }

  /** Without free lines the total is within half a cent for each line of subtotal, tax and fixed taxes. */
  lemma {:induction false} TotalCasiExacto(ls: seq<LineaVenta>)
    requires forall i :: 0 <= i < |ls| ==> LineaCuadra(ls[i]) && ls[i].afectacion != GRATUITO
    ensures var t := TotalesDe(ls);
      var diferencia := t.total - (t.subtotal + t.totalImpuesto + t.otrosTributos);
      -MEDIO_CENTIMO * |ls| as real <= diferencia <= MEDIO_CENTIMO * |ls| as real
  {
    DiferenciaExacta(ls);
    ResiduosAcotados(ls);
  }

  /** The document of any sale of any run: its total differs from its parts by exactly the rounding
      of its bases less the taxes of its free lines, and without free lines by at most half a cent
      a line. */
  lemma {:induction false} FacturaCasiExacta(ps: seq<VentasCorridas.PeticionVentas>, i: nat, fichas: nat -> Ficha)
    ensures var ventas := VentasCorridas.CorrerVentas(VENTAS_INICIAL, ps).ventas;
      i < |ventas| ==>
        var ls := LineasDeVenta(ventas[i].lineas, fichas);
        var t := TotalesDe(ls);
        var diferencia := t.total - (t.subtotal + t.totalImpuesto + t.otrosTributos);
        && diferencia == Suma(ls, Residuo())
        && ((forall l :: 0 <= l < |ls| ==> ls[l].afectacion != GRATUITO) ==>
              -MEDIO_CENTIMO * |ls| as real <= diferencia <= MEDIO_CENTIMO * |ls| as real)
  {
    var ventas := VentasCorridas.CorrerVentas(VENTAS_INICIAL, ps).ventas;
    VentasCorridas.ImportesSiempreCuadran(ps);
    if i < |ventas| {
      var ls := LineasDeVenta(ventas[i].lineas, fichas);
      forall l | 0 <= l < |ls| ensures LineaCuadra(ls[l]) {
        VentaCuadra(ventas[i].lineas[l], l + 1, fichas(l));
      }
      DiferenciaExacta(ls);
      if forall l :: 0 <= l < |ls| ==> ls[l].afectacion != GRATUITO {
        ResiduosAcotados(ls);
      }
    }
  }

  const REGALADA: LineaVenta :=
    LineaVenta(1, None, None, "", None, None, GRATUITO, 1.0, 118.0, 100.0, 0.0, 18.0, 0.0, 118.0)

  /** A free line with tax breaks the identity by the whole tax. */
  lemma {:induction false} GratuitaDescuadra()
    ensures LineaCuadra(REGALADA)
    ensures var t := TotalesDe([REGALADA]);
      t.total - (t.subtotal + t.totalImpuesto + t.otrosTributos) == -18.0
  {
    var ls := [REGALADA];
    assert LineaCuadra(REGALADA);
    assert forall i :: 0 <= i < |ls| ==> ls[i] == REGALADA;
    SumaUno(REGALADA, Residuo());
    DiferenciaExacta(ls);
  }

  /** The document line rebuilt from an item, as a credit note does. */
  function LineaDeItem(a: Item): LineaVenta {
    LineaVenta(a.lineNumber, a.varianteId, a.sku, a.descripcion, Some(a.sunatUnitCode), a.sunatProductCode, a.affectation,
               a.cantidad, a.precioUnitario, a.valorUnitario, a.discountAmount, a.montoImpuesto, a.montoOtrosTributos, a.total)
  }

  function LineasDeItems(items: seq<Item>): (r: seq<LineaVenta>)
    ensures |r| == |items|
    ensures forall i :: 0 <= i < |r| ==> r[i] == LineaDeItem(items[i])
  {
    if |items| == 0 then [] else LineasDeItems(items[..|items| - 1]) + [LineaDeItem(items[|items| - 1])]
  }

  predicate MismosImportes(a: LineaVenta, b: LineaVenta) {
    && a.afectacion == b.afectacion && BaseImponible(a) == BaseImponible(b) && a.discountAmount == b.discountAmount
    && a.montoImpuesto == b.montoImpuesto && a.montoOtrosTributos == b.montoOtrosTributos && a.total == b.total
  }

  lemma {:induction false} ItemReconstruye(l: LineaVenta)
    ensures ItemDe(LineaDeItem(ItemDe(l))) == ItemDe(l) && MismosImportes(LineaDeItem(ItemDe(l)), l)
  {
  }

  lemma {:induction false} MismosTotales(as': seq<LineaVenta>, bs: seq<LineaVenta>)
    requires |as'| == |bs| && forall i :: 0 <= i < |as'| ==> MismosImportes(as'[i], bs[i])
    ensures TotalesDe(as') == TotalesDe(bs)
  {
    SumaParalela(as', bs, Gravada());
    SumaParalela(as', bs, Exonerada());
    SumaParalela(as', bs, Inafecta());
    SumaParalela(as', bs, Gratuita());
    SumaParalela(as', bs, DescuentoDe());
    SumaParalela(as', bs, ImpuestoDe());
    SumaParalela(as', bs, OtrosDe());
    SumaParalela(as', bs, Onerosa());
  }

  /** Rebuilding a document from its own items gives the same items and the same totals. */
  lemma {:induction false} NotaReconstruye(ls: seq<LineaVenta>)
    ensures ItemsDe(LineasDeItems(ItemsDe(ls))) == ItemsDe(ls)
    ensures TotalesDe(LineasDeItems(ItemsDe(ls))) == TotalesDe(ls)
  {
    var otra := LineasDeItems(ItemsDe(ls));
    forall i | 0 <= i < |ls| ensures ItemDe(otra[i]) == ItemDe(ls[i]) && MismosImportes(otra[i], ls[i]) {
      ItemReconstruye(ls[i]);
    }
    MismosTotales(otra, ls);
  }

  /** The legend of a document below one thousand million says its total, to the cent. */
  lemma {:induction false} LeyendaDiceElTotal(ls: seq<LineaVenta>, moneda: string)
    requires TotalesDe(ls).total >= 0.0 && Centimos(TotalesDe(ls).total) < 100000000000
    ensures Letras.LeerMonto(Letras.MontoEnLetras(Fijo2(TotalesDe(ls).total), moneda)) == Some(Centimos(TotalesDe(ls).total))
  {
    var c := Centimos(TotalesDe(ls).total);
    assert 0 <= c && c / 100 < 1000000000;
    Letras.LeyendaSeLee(c, moneda);
    assert Letras.MontoEnLetras(Letras.ConDosDecimales(c), moneda) == Letras.Leyenda(c, moneda);
  }
}
