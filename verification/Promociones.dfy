/** The promotion engine: the discount each promotion offers a line, and the total a line takes
    from all of them, the same for the cashier's preview and for the charge. */
module Promociones {
  import opened Comun
  import opened Sumas
  import opened Dinero

  datatype Beneficio = PORCENTAJE | MONTO_FIJO | PRECIO_FIJO | LLEVA_N_PAGA_M

  /** A promotion with its scopes resolved to products. */
  datatype Promocion = Promocion(
    id: nat, tipoBeneficio: Beneficio, valor: Option<real>, compraCantidad: Option<int>, pagaCantidad: Option<int>,
    cantidadMinima: Option<real>, montoMinimoVenta: Option<real>, acumulable: bool, prioridad: int,
    productoIds: set<nat>, alcanzaVenta: bool)

  datatype LineaPromo = LineaPromo(productoId: nat, cantidad: real, precioUnitario: real, montoBruto: real)

  datatype Descuento = Descuento(promocionId: nat, monto: real, rate: Option<real>)

  datatype Descuentos = Descuentos(total: real, detalles: seq<Descuento>)

  // ------------------------------------------------------------------ one promotion, one line

  /** The benefit before it is bounded and rounded, and the rate when it is a percentage. */
  function Beneficia(p: Promocion, l: LineaPromo): real {
    match p.tipoBeneficio
    case PORCENTAJE => l.montoBruto * p.valor.GetOr(0.0) / 100.0
    case MONTO_FIJO => p.valor.GetOr(0.0) * l.cantidad
    case PRECIO_FIJO => l.montoBruto - p.valor.GetOr(l.precioUnitario) * l.cantidad
    case LLEVA_N_PAGA_M =>
      var n, m := p.compraCantidad.GetOr(0), p.pagaCantidad.GetOr(0);
      if n > 0 && 0 <= m < n then l.precioUnitario * (l.cantidad.Floor / n * (n - m)) as real else 0.0
  }

  function DescuentoDeLinea(p: Promocion, l: LineaPromo): Option<Descuento> {
    if !p.alcanzaVenta && l.productoId !in p.productoIds then None
    else if p.cantidadMinima.Some? && l.cantidad < p.cantidadMinima.value then None
    else
      var monto := Beneficia(p, l);
      if monto <= 0.0 then None
      else
        var tope := Redondear2(if monto > l.montoBruto then l.montoBruto else monto);
        if tope <= 0.0 then None
        else Some(Descuento(p.id, tope, if p.tipoBeneficio == PORCENTAJE then Some(p.valor.GetOr(0.0)) else None))
  }

  /** What is offered once the sale has reached the promotion's minimum amount. */
  function Ofrece(p: Promocion, l: LineaPromo, totalVenta: real): Option<Descuento> {
    if p.montoMinimoVenta.Some? && totalVenta < p.montoMinimoVenta.value then None else DescuentoDeLinea(p, l)
  }

  /** An offered discount is positive and at most the line's gross rounded to cents. */
  lemma {:induction false} OfertaAcotada(p: Promocion, l: LineaPromo, totalVenta: real)
    requires Ofrece(p, l, totalVenta).Some?
    ensures 0.0 < Ofrece(p, l, totalVenta).value.monto <= Redondear2(l.montoBruto)
    ensures EnCentimos(Ofrece(p, l, totalVenta).value.monto)
    ensures Ofrece(p, l, totalVenta).value.promocionId == p.id
  {
    var monto := Beneficia(p, l);
    var tope := if monto > l.montoBruto then l.montoBruto else monto;
    RedondearMonotono(tope, l.montoBruto);
    RedondearIdempotente(tope);
  }

  // ------------------------------------------------------------------ all promotions, one line

  datatype Candidata = Candidata(promo: Promocion, d: Descuento)

  /** More money first, then a higher priority; a tie keeps the one already chosen. */
  predicate Supera(p: Promocion, d: Descuento, mejor: Option<Candidata>) {
    || mejor.None?
    || d.monto > mejor.value.d.monto
    || (d.monto == mejor.value.d.monto && p.prioridad > mejor.value.promo.prioridad)
  }

  function Mejor(ps: seq<Promocion>, oferta: Promocion -> Option<Descuento>): Option<Candidata> {
    if |ps| == 0 then None
    else
      var previa, p := Mejor(ps[..|ps| - 1], oferta), ps[|ps| - 1];
      match oferta(p)
      case Some(d) => if Supera(p, d, previa) then Some(Candidata(p, d)) else previa
      case None => previa
  }

  function Ofertas(ps: seq<Promocion>, oferta: Promocion -> Option<Descuento>): seq<Descuento> {
    if |ps| == 0 then []
    else
      match oferta(ps[|ps| - 1])
      case Some(d) => Ofertas(ps[..|ps| - 1], oferta) + [d]
      case None => Ofertas(ps[..|ps| - 1], oferta)
  }

  function Oferta(l: LineaPromo): Promocion -> Option<Descuento> {
    (p: Promocion) => DescuentoDeLinea(p, l)
  }

  function OfertaAcumulable(l: LineaPromo, totalVenta: real): Promocion -> Option<Descuento> {
    (p: Promocion) => if p.acumulable then Ofrece(p, l, totalVenta) else None
  }

  function OfertaUnica(l: LineaPromo, totalVenta: real): Promocion -> Option<Descuento> {
    (p: Promocion) => if p.acumulable then None else Ofrece(p, l, totalVenta)
  }

  function SoloDescuento(c: Option<Candidata>): seq<Descuento> {
    match c
    case Some(x) => [x.d]
    case None => []
  }

  /** The discounts of a line: every cumulative one, then the best of the others. */
  function Detalles(ps: seq<Promocion>, l: LineaPromo, totalVenta: real): seq<Descuento> {
    Ofertas(ps, OfertaAcumulable(l, totalVenta)) + SoloDescuento(Mejor(ps, OfertaUnica(l, totalVenta)))
  }

  function MontoDe(): Descuento -> real {
    (d: Descuento) => d.monto
  }

  /** The sum of the discounts, at most the gross of the line, in cents. */
  function TotalDe(detalles: seq<Descuento>, montoBruto: real): real {
    var total := Suma(detalles, MontoDe());
    Redondear2(if total > montoBruto then montoBruto else total)
  }

  function TotalLinea(ps: seq<Promocion>, l: LineaPromo, totalVenta: real): real {
    TotalDe(Detalles(ps, l, totalVenta), l.montoBruto)
  }

  // ------------------------------------------------------------------ the loops of the engine

  method MejorDescuento(ps: seq<Promocion>, l: LineaPromo) returns (mejor: Option<Descuento>)
    ensures mejor == (match Mejor(ps, Oferta(l)) case Some(c) => Some(c.d) case None => None)
  {
    mejor := None;
    var mejorPrioridad := 0;
    ghost var candidata: Option<Candidata> := None;
    for i := 0 to |ps|
      invariant candidata == Mejor(ps[..i], Oferta(l))
      invariant mejor == (match candidata case Some(c) => Some(c.d) case None => None)
      invariant candidata.Some? ==> mejorPrioridad == candidata.value.promo.prioridad
    {
      assert ps[..i + 1][..i] == ps[..i];
      var d := DescuentoDeLinea(ps[i], l);
      if d.Some? {
        if mejor.None? || d.value.monto > mejor.value.monto
           || (d.value.monto == mejor.value.monto && ps[i].prioridad > mejorPrioridad) {
          mejor := d;
          mejorPrioridad := ps[i].prioridad;
          candidata := Some(Candidata(ps[i], d.value));
        }
      }
    }
    assert ps[..|ps|] == ps;
  }

  predicate Elegible(p: Promocion, totalVenta: real) {
    p.montoMinimoVenta.None? || totalVenta >= p.montoMinimoVenta.value
  }

  /** The promotions whose minimum amount the sale has reached, in order. */
  function Elegibles(ps: seq<Promocion>, totalVenta: real): (r: seq<Promocion>)
    ensures forall i :: 0 <= i < |r| ==> Elegible(r[i], totalVenta)
  {
    if |ps| == 0 then []
    else
      Elegibles(ps[..|ps| - 1], totalVenta) + (if Elegible(ps[|ps| - 1], totalVenta) then [ps[|ps| - 1]] else [])
  }

  lemma {:induction false} ElegiblesBastan(ps: seq<Promocion>, totalVenta: real, oferta: Promocion -> Option<Descuento>)
    requires forall p :: !Elegible(p, totalVenta) ==> oferta(p).None?
    ensures Ofertas(Elegibles(ps, totalVenta), oferta) == Ofertas(ps, oferta)
    ensures Mejor(Elegibles(ps, totalVenta), oferta) == Mejor(ps, oferta)
  {
    if |ps| > 0 {
      var p, previos := ps[|ps| - 1], Elegibles(ps[..|ps| - 1], totalVenta);
      ElegiblesBastan(ps[..|ps| - 1], totalVenta, oferta);
      if Elegible(p, totalVenta) {
        assert (previos + [p])[..|previos|] == previos;
      } else {
        assert previos + [] == previos;
      }
    }
  }

  method DescuentosDeLinea(ps: seq<Promocion>, l: LineaPromo, totalVenta: real) returns (r: Descuentos)
    ensures r == Descuentos(TotalLinea(ps, l, totalVenta), Detalles(ps, l, totalVenta))
  {
    var elegibles := Elegibles(ps, totalVenta);
    var detalles: seq<Descuento> := [];
    var mejorNoAcum: Option<Candidata> := None;
    for i := 0 to |elegibles|
      invariant detalles == Ofertas(elegibles[..i], OfertaAcumulable(l, totalVenta))
      invariant mejorNoAcum == Mejor(elegibles[..i], OfertaUnica(l, totalVenta))
    {
      var p := elegibles[i];
      assert elegibles[..i + 1][..i] == elegibles[..i];
      assert Elegible(p, totalVenta);
      var d := DescuentoDeLinea(p, l);
      if d.Some? {
        if p.acumulable {
          detalles := detalles + [d.value];
        } else if Supera(p, d.value, mejorNoAcum) {
          mejorNoAcum := Some(Candidata(p, d.value));
        }
      }
    }
    assert elegibles[..|elegibles|] == elegibles;
    ElegiblesBastan(ps, totalVenta, OfertaAcumulable(l, totalVenta));
    ElegiblesBastan(ps, totalVenta, OfertaUnica(l, totalVenta));
    detalles := detalles + SoloDescuento(mejorNoAcum);
    r := Descuentos(TotalDe(detalles, l.montoBruto), detalles);
  }

  // ------------------------------------------------------------------ what the choice means

  /** The chosen promotion offers the most money of all, and the highest priority among those
      that offer as much; nothing is chosen only when nothing is offered. */
  lemma {:induction false} MejorEsMaximo(ps: seq<Promocion>, oferta: Promocion -> Option<Descuento>)
    ensures match Mejor(ps, oferta)
      case None => forall i :: 0 <= i < |ps| ==> oferta(ps[i]).None?
      case Some(c) =>
        && c.promo in ps && oferta(c.promo) == Some(c.d)
        && forall i :: 0 <= i < |ps| && oferta(ps[i]).Some? ==>
             !Supera(ps[i], oferta(ps[i]).value, Some(c))
  {
    if |ps| > 0 {
      var n := |ps| - 1;
      MejorEsMaximo(ps[..n], oferta);
      assert ps == ps[..n] + [ps[n]];
    }
  }

  /** The best amount, zero when there is no offer. */
  function MejorMonto(ps: seq<Promocion>, oferta: Promocion -> Option<Descuento>): real {
    match Mejor(ps, oferta)
    case Some(c) => c.d.monto
    case None => 0.0
  }

  ghost predicate Positiva(oferta: Promocion -> Option<Descuento>) {
    forall p :: oferta(p).Some? ==> oferta(p).value.monto > 0.0
  }

  lemma {:induction false} MejorMontoCrece(ps: seq<Promocion>, qs: seq<Promocion>, oferta: Promocion -> Option<Descuento>)
    requires Positiva(oferta)
    requires match Mejor(ps, oferta) case Some(c) => c.promo in qs case None => true
    ensures MejorMonto(ps, oferta) <= MejorMonto(qs, oferta)
  {
    MejorEsMaximo(ps, oferta);
    MejorEsMaximo(qs, oferta);
    match Mejor(ps, oferta)
    case None =>
    case Some(c) =>
      var i :| 0 <= i < |qs| && qs[i] == c.promo;
      assert oferta(qs[i]).Some?;
  }

  function MontoOfrecido(oferta: Promocion -> Option<Descuento>): Promocion -> real {
    (p: Promocion) => match oferta(p) case Some(d) => d.monto case None => 0.0
  }

  lemma {:induction false} OfertasSuman(ps: seq<Promocion>, oferta: Promocion -> Option<Descuento>)
    ensures Suma(Ofertas(ps, oferta), MontoDe()) == Suma(ps, MontoOfrecido(oferta))
  {
    if |ps| > 0 {
      OfertasSuman(ps[..|ps| - 1], oferta);
      match oferta(ps[|ps| - 1])
      case Some(d) =>
      case None =>
    }
  }

  /** What the promotions of a line add up to before the total is bounded and rounded. */
  function Bruto(ps: seq<Promocion>, l: LineaPromo, totalVenta: real): real {
    Suma(ps, MontoOfrecido(OfertaAcumulable(l, totalVenta))) + MejorMonto(ps, OfertaUnica(l, totalVenta))
  }

  lemma {:induction false} DetallesSuman(ps: seq<Promocion>, l: LineaPromo, totalVenta: real)
    ensures Suma(Detalles(ps, l, totalVenta), MontoDe()) == Bruto(ps, l, totalVenta)
  {
    var mejor := Mejor(ps, OfertaUnica(l, totalVenta));
    OfertasSuman(ps, OfertaAcumulable(l, totalVenta));
    SumaConcat(Ofertas(ps, OfertaAcumulable(l, totalVenta)), SoloDescuento(mejor), MontoDe());
    if mejor.Some? {
      SumaUno(mejor.value.d, MontoDe());
    }
  }

  lemma {:induction false} TotalPorBruto(ps: seq<Promocion>, qs: seq<Promocion>, l: LineaPromo, totalVenta: real)
    ensures Bruto(ps, l, totalVenta) <= Bruto(qs, l, totalVenta) ==> TotalLinea(ps, l, totalVenta) <= TotalLinea(qs, l, totalVenta)
  {
    DetallesSuman(ps, l, totalVenta);
    DetallesSuman(qs, l, totalVenta);
    var a, b := Bruto(ps, l, totalVenta), Bruto(qs, l, totalVenta);
    if a <= b {
      RedondearMonotono(if a > l.montoBruto then l.montoBruto else a, if b > l.montoBruto then l.montoBruto else b);
    }
  }

  /** The discount does not depend on the order the promotions come in. */
  lemma {:induction false} TotalSinOrden(ps: seq<Promocion>, qs: seq<Promocion>, l: LineaPromo, totalVenta: real)
    requires multiset(ps) == multiset(qs)
    ensures TotalLinea(ps, l, totalVenta) == TotalLinea(qs, l, totalVenta)
  {
    SumaPermuta(ps, qs, MontoOfrecido(OfertaAcumulable(l, totalVenta)));
    assert forall p :: p in ps <==> p in multiset(ps);
    assert forall p :: p in qs <==> p in multiset(qs);
    MejorEsMaximo(ps, OfertaUnica(l, totalVenta));
    MejorEsMaximo(qs, OfertaUnica(l, totalVenta));
    MejorMontoCrece(ps, qs, OfertaUnica(l, totalVenta));
    MejorMontoCrece(qs, ps, OfertaUnica(l, totalVenta));
    TotalPorBruto(ps, qs, l, totalVenta);
    TotalPorBruto(qs, ps, l, totalVenta);
  }

  /** Adding a promotion, anywhere, never lowers the discount. */
  lemma {:induction false} TotalCreceConPromocion(ps: seq<Promocion>, i: nat, p: Promocion, l: LineaPromo, totalVenta: real)
    requires i <= |ps|
    ensures TotalLinea(ps, l, totalVenta) <= TotalLinea(ps[..i] + [p] + ps[i..], l, totalVenta)
  {
    var qs := ps[..i] + [p] + ps[i..];
    assert qs[..i] + qs[i + 1..] == ps;
    SumaSinElemento(qs, i, MontoOfrecido(OfertaAcumulable(l, totalVenta)));
    MejorEsMaximo(ps, OfertaUnica(l, totalVenta));
    assert ps == ps[..i] + ps[i..];
    MejorMontoCrece(ps, qs, OfertaUnica(l, totalVenta));
    TotalPorBruto(ps, qs, l, totalVenta);
  }

  ghost predicate IdsDistintos(ps: seq<Promocion>) {
    forall i, j :: 0 <= i < j < |ps| ==> ps[i].id != ps[j].id
  }

  function IdsDe(ds: seq<Descuento>): set<nat> {
    set d | d in ds :: d.promocionId
  }

  function Ids(ps: seq<Promocion>): set<nat> {
    set p | p in ps :: p.id
  }

  lemma {:induction false} OfertasContienen(ps: seq<Promocion>, oferta: Promocion -> Option<Descuento>, i: nat)
    requires i < |ps| && oferta(ps[i]).Some?
    ensures oferta(ps[i]).value in Ofertas(ps, oferta)
  {
    if i < |ps| - 1 {
      OfertasContienen(ps[..|ps| - 1], oferta, i);
    }
  }

  /** Only promotions of the list are reported. */
  lemma {:induction false} OfertasDeLaLista(ps: seq<Promocion>, oferta: Promocion -> Option<Descuento>)
    requires forall p :: oferta(p).Some? ==> oferta(p).value.promocionId == p.id
    ensures IdsDe(Ofertas(ps, oferta)) <= Ids(ps)
  {
    if |ps| > 0 {
      var previas := ps[..|ps| - 1];
      OfertasDeLaLista(previas, oferta);
      assert ps == previas + [ps[|ps| - 1]];
      forall d | d in Ofertas(ps, oferta) ensures d.promocionId in Ids(ps) {
        if d in Ofertas(previas, oferta) {
          assert d.promocionId in Ids(previas);
        }
      }
    }
  }

  lemma {:induction false} DetallesDeLaLista(ps: seq<Promocion>, l: LineaPromo, totalVenta: real)
    ensures IdsDe(Detalles(ps, l, totalVenta)) <= Ids(ps)
  {
    OfertasDeLaLista(ps, OfertaAcumulable(l, totalVenta));
    MejorEsMaximo(ps, OfertaUnica(l, totalVenta));
  }

  lemma {:induction false} MismaPromocion(ps: seq<Promocion>, qs: seq<Promocion>, p: Promocion)
    requires IdsDistintos(ps) && (forall q :: q in qs ==> q in ps) && p in ps && p.id in Ids(qs)
    ensures p in qs
  {
    var q :| q in qs && q.id == p.id;
    var i :| 0 <= i < |ps| && ps[i] == p;
    var j :| 0 <= j < |ps| && ps[j] == q;
  }

  /** Cutting the promotions to any selection that keeps the ids a line reported, in any order,
      gives that line the same discount. */
  lemma {:induction false} BastanLasReportadas(ps: seq<Promocion>, qs: seq<Promocion>, l: LineaPromo, totalVenta: real)
    requires IdsDistintos(ps) && IdsDistintos(qs)
    requires forall q :: q in qs ==> q in ps
    requires IdsDe(Detalles(ps, l, totalVenta)) <= Ids(qs)
    ensures TotalLinea(qs, l, totalVenta) == TotalLinea(ps, l, totalVenta)
  {
    var acumulable, unica := OfertaAcumulable(l, totalVenta), OfertaUnica(l, totalVenta);
    forall p | p in ps && MontoOfrecido(acumulable)(p) != 0.0 ensures p in qs {
      var i :| 0 <= i < |ps| && ps[i] == p;
      OfertasContienen(ps, acumulable, i);
      OfertaAcotada(p, l, totalVenta);
      assert acumulable(p).value in Detalles(ps, l, totalVenta);
      MismaPromocion(ps, qs, p);
    }
    SumaRecorte(ps, qs, MontoOfrecido(acumulable));
    MejorEsMaximo(ps, unica);
    MejorEsMaximo(qs, unica);
    match Mejor(ps, unica) {
      case Some(c) =>
        OfertaAcotada(c.promo, l, totalVenta);
        assert Detalles(ps, l, totalVenta)[|Ofertas(ps, acumulable)|] == c.d;
        assert c.d in Detalles(ps, l, totalVenta);
        MismaPromocion(ps, qs, c.promo);
      case None =>
    }
    MejorMontoCrece(ps, qs, unica);
    MejorMontoCrece(qs, ps, unica);
    TotalPorBruto(ps, qs, l, totalVenta);
    TotalPorBruto(qs, ps, l, totalVenta);
  }

  /** A line is never discounted by more than its gross rounded to cents, nor by less than nothing. */
  lemma {:induction false} TotalAcotado(ps: seq<Promocion>, l: LineaPromo, totalVenta: real)
    ensures TotalLinea(ps, l, totalVenta) <= Redondear2(l.montoBruto)
    ensures l.montoBruto >= 0.0 ==> TotalLinea(ps, l, totalVenta) >= 0.0
    ensures EnCentimos(TotalLinea(ps, l, totalVenta))
  {
    DetallesSuman(ps, l, totalVenta);
    var bruto := Bruto(ps, l, totalVenta);
    var tope := if bruto > l.montoBruto then l.montoBruto else bruto;
    RedondearMonotono(tope, l.montoBruto);
    RedondearIdempotente(tope);
    SumaNoNegativa(ps, MontoOfrecido(OfertaAcumulable(l, totalVenta)));
    MejorEsMaximo(ps, OfertaUnica(l, totalVenta));
  }

  /** A promotion that gives the whole line away, at any time and for any product. */
  const REGALO: Promocion :=
    Promocion(0, PORCENTAJE, Some(100.0), None, None, None, None, false, 0, {}, true)

  lemma {:induction false} RegaloEntero(l: LineaPromo, totalVenta: real)
    requires l.montoBruto >= 0.0
    ensures TotalLinea([REGALO], l, totalVenta) == Redondear2(l.montoBruto)
  {
    var bruto := l.montoBruto;
    assert [REGALO][..0] == [];
    assert Beneficia(REGALO, l) == bruto;
    RedondearIdempotente(bruto);
    RedondearMonotono(0.0, bruto);
    assert Redondear2(0.0) == 0.0;
    SumaUno(REGALO, MontoOfrecido(OfertaAcumulable(l, totalVenta)));
    var unica := OfertaUnica(l, totalVenta);
    assert Mejor([REGALO][..0], unica) == None;
    assert unica(REGALO) == DescuentoDeLinea(REGALO, l);
    assert MejorMonto([REGALO], unica) == (match unica(REGALO) case Some(d) => d.monto case None => 0.0);
    assert Bruto([REGALO], l, totalVenta) == Redondear2(bruto);
    DetallesSuman([REGALO], l, totalVenta);
  }

  /** "The discount never exceeds the gross of the line" holds for a line, whatever promotions
      there are, exactly when rounding its gross to cents does not raise it. */
  lemma {:induction false} NuncaSuperaLaBase(l: LineaPromo, totalVenta: real)
    ensures (forall ps :: TotalLinea(ps, l, totalVenta) <= l.montoBruto) <==> Redondear2(l.montoBruto) <= l.montoBruto
  {
    if Redondear2(l.montoBruto) <= l.montoBruto {
      forall ps ensures TotalLinea(ps, l, totalVenta) <= l.montoBruto {
        TotalAcotado(ps, l, totalVenta);
      }
    } else if l.montoBruto >= 0.0 {
      RegaloEntero(l, totalVenta);
      assert !(TotalLinea([REGALO], l, totalVenta) <= l.montoBruto);
    } else {
      DetallesSuman([], l, totalVenta);
      assert !(TotalLinea([], l, totalVenta) <= l.montoBruto);
    }
  }

  /** Half a cent of goods given away is a discount of one cent. */
  lemma {:induction false} SuperaLaBase()
    ensures var l := LineaPromo(1, 0.005, 1.0, 0.005);
      TotalLinea([REGALO], l, 0.005) == 0.01 && 0.01 > l.montoBruto
  {
    RegaloEntero(LineaPromo(1, 0.005, 1.0, 0.005), 0.005);
    assert Centimos(0.005) == 1;
  }

  // ------------------------------------------------------------------ preview and charge

  /** The ids the preview of a sale reports: those of every discount of every line. */
  function Reportadas(ps: seq<Promocion>, ls: seq<LineaPromo>, totalVenta: real): set<nat> {
    if |ls| == 0 then {}
    else Reportadas(ps, ls[..|ls| - 1], totalVenta) + IdsDe(Detalles(ps, ls[|ls| - 1], totalVenta))
  }

  function Totales(ps: seq<Promocion>, ls: seq<LineaPromo>, totalVenta: real): seq<real> {
    if |ls| == 0 then []
    else Totales(ps, ls[..|ls| - 1], totalVenta) + [TotalLinea(ps, ls[|ls| - 1], totalVenta)]
  }

  /** The preview: each line's discount, while collecting the ids of the promotions used. */
  method Aplicables(ps: seq<Promocion>, ls: seq<LineaPromo>, totalVenta: real) returns (totales: seq<real>, usadas: set<nat>)
    ensures totales == Totales(ps, ls, totalVenta)
    ensures usadas == Reportadas(ps, ls, totalVenta)
  {
    totales, usadas := [], {};
    for i := 0 to |ls|
      invariant totales == Totales(ps, ls[..i], totalVenta)
      invariant usadas == Reportadas(ps, ls[..i], totalVenta)
    {
      assert ls[..i + 1][..i] == ls[..i];
      var r := DescuentosDeLinea(ps, ls[i], totalVenta);
      totales := totales + [r.total];
      usadas := usadas + IdsDe(r.detalles);
    }
    assert ls[..|ls|] == ls;
  }

  /** The charge, which loads only the promotions the cashier confirmed and in whatever order
      the database returns them, discounts every line exactly as the preview did. */
  lemma {:induction false} CobroIgualaVistaPrevia(ps: seq<Promocion>, qs: seq<Promocion>, ls: seq<LineaPromo>, totalVenta: real)
    requires IdsDistintos(ps) && IdsDistintos(qs)
    requires forall q :: q in qs ==> q in ps
    requires Reportadas(ps, ls, totalVenta) <= Ids(qs)
    ensures Totales(qs, ls, totalVenta) == Totales(ps, ls, totalVenta)
  {
    if |ls| > 0 {
      CobroIgualaVistaPrevia(ps, qs, ls[..|ls| - 1], totalVenta);
      BastanLasReportadas(ps, qs, ls[|ls| - 1], totalVenta);
    }
  }
}
