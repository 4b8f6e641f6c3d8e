/** What each kind of promotion takes off a line and what it leaves to pay, and what several promotions
    take off it together. */
module Beneficios {
  import opened Comun
  import opened Sumas
  import opened Dinero
  import opened Promociones

  function Menor(x: real, y: real): real { if x <= y then x else y }
  function Mayor(x: real, y: real): real { if x <= y then y else x }

  /** The promotion is about the whole sale or about this product, and the line is large enough. */
  predicate Alcanza(p: Promocion, l: LineaPromo) {
    && (p.alcanzaVenta || l.productoId in p.productoIds)
    && (p.cantidadMinima.Some? ==> l.cantidad >= p.cantidadMinima.value)
  }

  function Descontado(p: Promocion, l: LineaPromo): real {
    match DescuentoDeLinea(p, l)
    case Some(d) => d.monto
    case None => 0.0
  }

  function PorPagar(p: Promocion, l: LineaPromo): real {
    l.montoBruto - Descontado(p, l)
  }

  /** An amount as a discount: not above the gross, to the cent, and nothing at all unless that is more
      than zero. */
  function ComoDescuento(x: real, bruto: real): real {
    Mayor(0.0, Redondear2(Menor(x, bruto)))
  }

  lemma {:induction false} NadaSinAlcance(p: Promocion, l: LineaPromo)
    ensures !Alcanza(p, l) ==> DescuentoDeLinea(p, l) == None
    ensures DescuentoDeLinea(p, l).Some? ==>
      var d := DescuentoDeLinea(p, l).value;
      && d.promocionId == p.id && d.monto > 0.0
      && d.rate == if p.tipoBeneficio == PORCENTAJE then Some(p.valor.GetOr(0.0)) else None
  {
  }

  lemma {:induction false} NoPositivo(x: real)
    requires x <= 0.0
    ensures Redondear2(x) <= 0.0
  {
    RedondearMonotono(x, 0.0);
    RedondearEntero(0);
  }

  lemma {:induction false} ComoDescuentoCerca(x: real, bruto: real)
    requires x >= 0.0 && bruto >= 0.0
    ensures -MEDIO_CENTIMO <= ComoDescuento(x, bruto) - Menor(x, bruto) <= MEDIO_CENTIMO
  {
    RedondearCerca(Menor(x, bruto));
  }

  /** A percentage takes that share of the gross, and at most the gross. */
  lemma {:induction false} PorcentajeDescuenta(p: Promocion, l: LineaPromo)
    requires p.tipoBeneficio == PORCENTAJE && Alcanza(p, l)
    ensures Descontado(p, l) == ComoDescuento(p.valor.GetOr(0.0) * l.montoBruto / 100.0, l.montoBruto)
  {
    var x := p.valor.GetOr(0.0) * l.montoBruto / 100.0;
    assert Beneficia(p, l) == x;
    if x <= 0.0 {
      NoPositivo(Menor(x, l.montoBruto));
    }
  }

  /** A fixed amount takes that much for each unit, and at most the gross. */
  lemma {:induction false} MontoFijoDescuenta(p: Promocion, l: LineaPromo)
    requires p.tipoBeneficio == MONTO_FIJO && Alcanza(p, l)
    ensures Descontado(p, l) == ComoDescuento(p.valor.GetOr(0.0) * l.cantidad, l.montoBruto)
  {
    var x := p.valor.GetOr(0.0) * l.cantidad;
    assert Beneficia(p, l) == x;
    if x <= 0.0 {
      NoPositivo(Menor(x, l.montoBruto));
    }
  }

  lemma {:induction false} PrecioFijoPor(precio: real, fijo: real, cantidad: real)
    requires cantidad > 0.0
    ensures cantidad * precio - fijo * cantidad == (precio - fijo) * cantidad
    ensures fijo >= precio ==> cantidad * precio - fijo * cantidad <= 0.0
    ensures 0.0 <= fijo < precio ==> 0.0 < cantidad * precio - fijo * cantidad <= cantidad * precio
    ensures fijo < 0.0 <= precio ==> cantidad * precio - fijo * cantidad > cantidad * precio >= 0.0
  {
  }

  /** A fixed price below the list price leaves the quantity at that price to pay, within half a cent;
      one that is not below it, or none at all, takes nothing off. */
  lemma {:induction false} PrecioFijoDeja(p: Promocion, l: LineaPromo)
    requires p.tipoBeneficio == PRECIO_FIJO && Alcanza(p, l)
    requires l.montoBruto == l.cantidad * l.precioUnitario && l.cantidad > 0.0 && l.precioUnitario >= 0.0
    ensures p.valor.Some? && p.valor.value < l.precioUnitario ==>
      -MEDIO_CENTIMO <= PorPagar(p, l) - l.cantidad * Mayor(p.valor.value, 0.0) <= MEDIO_CENTIMO
    ensures p.valor.None? || p.valor.value >= l.precioUnitario ==> DescuentoDeLinea(p, l) == None
  {
    var fijo := p.valor.GetOr(l.precioUnitario);
    PrecioFijoPor(l.precioUnitario, fijo, l.cantidad);
    var x := l.montoBruto - fijo * l.cantidad;
    assert Beneficia(p, l) == x;
    if x > 0.0 {
      RedondearCerca(Menor(x, l.montoBruto));
      assert fijo < l.precioUnitario;
    }
  }

  lemma {:induction false} Grupos(n: int, j: nat, i: nat)
    requires i < n
    ensures (n * j + i) / n == j
  {
    var q, r := (n * j + i) / n, (n * j + i) % n;
    assert n * q + r == n * j + i && 0 <= r < n;
    var k := q - j;
    assert n * k == n * q - n * j;
    assert k >= 1 ==> n * k >= n;
    assert k <= -1 ==> n * k <= -n;
  }

  lemma {:induction false} GratisCaben(n: int, m: int, j: nat, i: nat)
    requires 0 <= m < n && i < n
    ensures 0 <= j * (n - m) <= n * j + i
    ensures n * j + i - j * (n - m) == m * j + i
  {
    assert j * (n - m) == n * j - m * j && m * j >= 0 && j * (n - m) >= 0;
  }

  lemma {:induction false} PrecioPor(precio: real, a: real, b: real)
    requires precio >= 0.0 && 0.0 <= a <= b
    ensures 0.0 <= precio * a <= precio * b && precio * b - precio * a == precio * (b - a)
  {
  }

  /** Take n, pay m: of n * j + i whole units, i of them beyond the last group, m * j + i are paid, and the
      fraction of a unit with them. */
  lemma {:induction false} LlevaPagaDeja(p: Promocion, l: LineaPromo, n: int, m: int, j: nat, i: nat)
    requires p.tipoBeneficio == LLEVA_N_PAGA_M && Alcanza(p, l) && p.compraCantidad == Some(n) && p.pagaCantidad == Some(m)
    requires 0 <= m < n && i < n && l.cantidad.Floor == n * j + i
    requires l.montoBruto == l.cantidad * l.precioUnitario && l.precioUnitario >= 0.0
    ensures var fraccion := l.cantidad - (n * j + i) as real;
      -MEDIO_CENTIMO <= PorPagar(p, l) - l.precioUnitario * ((m * j + i) as real + fraccion) <= MEDIO_CENTIMO
  {
    var gratis := j * (n - m);
    Grupos(n, j, i);
    GratisCaben(n, m, j, i);
    PrecioPor(l.precioUnitario, gratis as real, l.cantidad);
    var x := l.precioUnitario * gratis as real;
    assert Beneficia(p, l) == x;
    RedondearCerca(x);
    if x <= 0.0 {
      assert Descontado(p, l) == 0.0;
    } else {
      assert Menor(x, l.montoBruto) == x;
    }
    assert l.cantidad - gratis as real == (m * j + i) as real + (l.cantidad - (n * j + i) as real);
  }

  /** Without a group size above what is paid for it, nothing is given away. */
  lemma {:induction false} LlevaPagaSinGrupo(p: Promocion, l: LineaPromo)
    requires p.tipoBeneficio == LLEVA_N_PAGA_M
    requires p.compraCantidad.None? || p.pagaCantidad.GetOr(0) < 0 || p.compraCantidad.value <= p.pagaCantidad.GetOr(0)
    ensures DescuentoDeLinea(p, l) == None
  {
  }

  // ------------------------------------------------------------------ several promotions

  /** The sale has reached the promotion's minimum amount. */
  predicate LlegaAlMinimo(p: Promocion, totalVenta: real) {
    p.montoMinimoVenta.Some? ==> totalVenta >= p.montoMinimoVenta.value
  }

  /** What the cumulative promotions take, each its own discount. */
  function Acumulado(l: LineaPromo, totalVenta: real): Promocion -> real {
    (p: Promocion) => if p.acumulable && LlegaAlMinimo(p, totalVenta) then Descontado(p, l) else 0.0
  }

  predicate Compite(p: Promocion, l: LineaPromo, totalVenta: real) {
    !p.acumulable && LlegaAlMinimo(p, totalVenta) && DescuentoDeLinea(p, l).Some?
  }

  /** The one promotion chosen among those that are not cumulative: none offers more, and of those that
      offer as much none has a higher priority. */
  predicate EsLaMejor(ps: seq<Promocion>, p: Promocion, l: LineaPromo, totalVenta: real) {
    && p in ps && Compite(p, l, totalVenta)
    && forall q :: q in ps && Compite(q, l, totalVenta) ==>
         Descontado(q, l) < Descontado(p, l) || (Descontado(q, l) == Descontado(p, l) && q.prioridad <= p.prioridad)
  }

  lemma {:induction false} AcumuladasSuman(ps: seq<Promocion>, l: LineaPromo, totalVenta: real)
    ensures Suma(Ofertas(ps, OfertaAcumulable(l, totalVenta)), MontoDe()) == Suma(ps, Acumulado(l, totalVenta))
  {
    OfertasSuman(ps, OfertaAcumulable(l, totalVenta));
    SumaIgual(ps, MontoOfrecido(OfertaAcumulable(l, totalVenta)), Acumulado(l, totalVenta));
  }

  lemma {:induction false} MejorUnica(ps: seq<Promocion>, l: LineaPromo, totalVenta: real)
    ensures match Mejor(ps, OfertaUnica(l, totalVenta))
      case None => forall q :: q in ps ==> !Compite(q, l, totalVenta)
      case Some(c) => EsLaMejor(ps, c.promo, l, totalVenta) && DescuentoDeLinea(c.promo, l) == Some(c.d)
  {
    var unica := OfertaUnica(l, totalVenta);
    MejorEsMaximo(ps, unica);
    assert forall q :: Compite(q, l, totalVenta) <==> unica(q).Some?;
    match Mejor(ps, unica)
    case None =>
    case Some(c) =>
      forall q | q in ps && Compite(q, l, totalVenta)
        ensures Descontado(q, l) < Descontado(c.promo, l)
             || (Descontado(q, l) == Descontado(c.promo, l) && q.prioridad <= c.promo.prioridad) {
        var i :| 0 <= i < |ps| && ps[i] == q;
        assert !Supera(ps[i], unica(ps[i]).value, Some(c));
      }
  }

  lemma {:induction false} TotalDeDetalles(ds: seq<Descuento>, mejor: Option<Candidata>, bruto: real)
    ensures TotalDe(ds + SoloDescuento(mejor), bruto)
         == Redondear2(Menor(Suma(ds, MontoDe()) + (if mejor.Some? then mejor.value.d.monto else 0.0), bruto))
  {
    SumaConcat(ds, SoloDescuento(mejor), MontoDe());
    if mejor.Some? {
      SumaUno(mejor.value.d, MontoDe());
    }
  }

  predicate SinMejor(ps: seq<Promocion>, l: LineaPromo, totalVenta: real, total: real) {
    && (forall q :: q in ps ==> !Compite(q, l, totalVenta))
    && total == Redondear2(Menor(Suma(ps, Acumulado(l, totalVenta)), l.montoBruto))
  }

  predicate ConMejor(ps: seq<Promocion>, p: Promocion, l: LineaPromo, totalVenta: real, total: real) {
    && EsLaMejor(ps, p, l, totalVenta)
    && total == Redondear2(Menor(Suma(ps, Acumulado(l, totalVenta)) + Descontado(p, l), l.montoBruto))
  }

  /** A line is discounted by every cumulative promotion and by the best of the others, if any, together
      at most the gross, to the cent. */
  lemma {:induction false} LineaDescuenta(ps: seq<Promocion>, l: LineaPromo, totalVenta: real)
    ensures var total := TotalLinea(ps, l, totalVenta);
      SinMejor(ps, l, totalVenta, total) || exists p :: ConMejor(ps, p, l, totalVenta, total)
  {
    var mejor, total := Mejor(ps, OfertaUnica(l, totalVenta)), TotalLinea(ps, l, totalVenta);
    AcumuladasSuman(ps, l, totalVenta);
    MejorUnica(ps, l, totalVenta);
    TotalDeDetalles(Ofertas(ps, OfertaAcumulable(l, totalVenta)), mejor, l.montoBruto);
    match mejor
    case None => assert SinMejor(ps, l, totalVenta, total);
    case Some(c) => assert ConMejor(ps, c.promo, l, totalVenta, total);
  }

  lemma {:induction false} AcumuladasConstan(ps: seq<Promocion>, l: LineaPromo, totalVenta: real, d: Descuento)
    ensures d in Ofertas(ps, OfertaAcumulable(l, totalVenta)) <==>
      exists p :: p in ps && p.acumulable && LlegaAlMinimo(p, totalVenta) && DescuentoDeLinea(p, l) == Some(d)
  {
    if |ps| > 0 {
      var n := |ps| - 1;
      AcumuladasConstan(ps[..n], l, totalVenta, d);
      assert ps == ps[..n] + [ps[n]];
    }
  }

  /** The discounts recorded on a line are those of the cumulative promotions that offer one, and that of
      the best of the others, and no other. */
  lemma {:induction false} DetallesDicen(ps: seq<Promocion>, l: LineaPromo, totalVenta: real, d: Descuento)
    ensures d in Detalles(ps, l, totalVenta) ==>
      exists p :: p in ps && LlegaAlMinimo(p, totalVenta) && DescuentoDeLinea(p, l) == Some(d)
               && (p.acumulable || EsLaMejor(ps, p, l, totalVenta))
    ensures (exists p :: p in ps && p.acumulable && LlegaAlMinimo(p, totalVenta) && DescuentoDeLinea(p, l) == Some(d)) ==>
      d in Detalles(ps, l, totalVenta)
    ensures (exists p :: EsLaMejor(ps, p, l, totalVenta)) ==>
      exists p :: EsLaMejor(ps, p, l, totalVenta) && DescuentoDeLinea(p, l).value in Detalles(ps, l, totalVenta)
  {
    AcumuladasConstan(ps, l, totalVenta, d);
    MejorUnica(ps, l, totalVenta);
    match Mejor(ps, OfertaUnica(l, totalVenta))
    case None =>
    case Some(c) =>
      assert c.d in SoloDescuento(Some(c));
      assert EsLaMejor(ps, c.promo, l, totalVenta);
  }
}
