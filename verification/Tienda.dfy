/** What the shop does not promise, although a comment or an index suggests it: sales numbered without a
    gap, payments that add up to what was paid, one standing document a sale, a series that always gives a
    number. For each, when it holds and a run where it does not. */
module Tienda {
  import opened Comun
  import opened Sumas
  import opened Kardex
  import opened Inventario
  import opened Corridas
  import opened Ventas
  import opened VentasCorridas
  import opened Numeracion
  import opened Emision
  import opened Pagos
  import opened Caja
  import Fiscal

  lemma {:induction false} UnPasoMas(ps: seq<PeticionCaja>, p: PeticionCaja)
    ensures Caja.Correr(ps + [p]) == Caja.Paso(Caja.Correr(ps), p)
  {
    assert (ps + [p])[..|ps|] == ps;
  }

  // ------------------------------------------------------------------ a series that is stuck

  /** The request may take a number of the series other than for a sale of the branch. */
  predicate Mueve(p: PeticionCaja, id: SerieId, sucursal: SucursalId) {
    || (p.KVenta? && p.pedido.serie == id && p.pedido.sucursal != sucursal)
    || (p.KEmitir? && p.serie == id)
    || (p.KNota? && p.serie == id)
  }

  ghost predicate SigueAtascada(t: Talonario, t': Talonario, id: SerieId, sucursal: SucursalId) {
    && Atascada(t', id, sucursal) && id in t.series
    && t'.series[id].nextNumber == t.series[id].nextNumber && t'.series[id].texto == t.series[id].texto
  }

  lemma {:induction false} NumeroSigueOcupado(t: Talonario, t': Talonario, id: SerieId, sucursal: SucursalId)
    requires Atascada(t, id, sucursal) && t.cabeceras <= t'.cabeceras && id in t'.series
    requires t'.series[id].nextNumber == t.series[id].nextNumber && t'.series[id].texto == t.series[id].texto
    ensures SigueAtascada(t, t', id, sucursal)
  {
    var texto, numero := t.series[id].texto, t.series[id].nextNumber;
    var i :| 0 <= i < |t.cabeceras| && t.cabeceras[i].sucursal == sucursal && t.cabeceras[i].texto == texto && t.cabeceras[i].numero == numero;
    assert t'.cabeceras[i] == t.cabeceras[i];
  }

  lemma {:induction false} DocumentosAtascan(t: Talonario, ventas: seq<Venta>, p: PeticionCaja, id: SerieId, sucursal: SucursalId)
    requires Atascada(t, id, sucursal) && EsDeTalonario(p) && !Mueve(p, id, sucursal)
    ensures SigueAtascada(t, AtenderTalonario(t, ventas, p).GetOr(t), id, sucursal)
  {
    NumeroSigueOcupado(t, AtenderTalonario(t, ventas, p).GetOr(t), id, sucursal);
  }

  lemma {:induction false} AtascoPaso(n: Negocio, p: PeticionCaja, id: SerieId, sucursal: SucursalId)
    requires Atascada(n.talonario, id, sucursal) && !Mueve(p, id, sucursal)
    ensures SigueAtascada(n.talonario, Caja.Paso(n, p).talonario, id, sucursal)
    ensures p.KVenta? && p.pedido.serie == id ==> Caja.Paso(n, p) == n
  {
    if VendeAlgo(n, p) {
      VentaEscribe(n, p.pedido);
      NumeroSigueOcupado(n.talonario, Caja.Paso(n, p).talonario, id, sucursal);
    } else {
      TalonarioIgual(n, p);
      if EsDeTalonario(p) {
        DocumentosAtascan(n.talonario, n.ventas.ventas, p, id, sucursal);
      } else {
        NumeroSigueOcupado(n.talonario, n.talonario, id, sucursal);
      }
    }
  }

  /** Once stuck in a branch a series stays stuck there, on the same number, through any requests but
      sales of it in other branches and documents of it; and every sale of it in the branch, retried or
      not, changes nothing. */
  lemma {:induction false} AtascoSigue(ps: seq<PeticionCaja>, qs: seq<PeticionCaja>, id: SerieId, sucursal: SucursalId)
    requires Atascada(Caja.Correr(ps).talonario, id, sucursal)
    requires forall i :: 0 <= i < |qs| ==> !Mueve(qs[i], id, sucursal)
    ensures SigueAtascada(Caja.Correr(ps).talonario, Caja.Correr(ps + qs).talonario, id, sucursal)
    ensures |qs| > 0 && qs[|qs| - 1].KVenta? && qs[|qs| - 1].pedido.serie == id ==>
      Caja.Correr(ps + qs) == Caja.Correr(ps + qs[..|qs| - 1])
  {
    if |qs| == 0 {
      assert ps + qs == ps;
    } else {
      var previas, p := qs[..|qs| - 1], qs[|qs| - 1];
      AtascoSigue(ps, previas, id, sucursal);
      assert ps + qs == (ps + previas) + [p];
      UnPasoMas(ps + previas, p);
      AtascoPaso(Caja.Correr(ps + previas), p, id, sucursal);
    }
  }

  // ------------------------------------------------------------------ documents that stand

  predicate NuncaRevive(ps: seq<PeticionCaja>) {
    |ps| > 0 ==>
      var p := ps[|ps| - 1];
      && NuncaRevive(ps[..|ps| - 1])
      && (p.KEstadoDocumento? ==> !Revive(Caja.Correr(ps[..|ps| - 1]).talonario.documentos, p.documento, p.estado))
  }

  lemma {:induction false} TalonarioUnoVigente(t: Talonario, ventas: seq<Venta>, p: PeticionCaja)
    requires UnoVigente(t.documentos) && EsDeTalonario(p) && AtenderTalonario(t, ventas, p).Ok?
    requires p.KEstadoDocumento? ==> !Revive(t.documentos, p.documento, p.estado)
    ensures UnoVigente(AtenderTalonario(t, ventas, p).value.documentos)
  {
    match p
    case KSerie(_, _, _, _, _) =>
    case KEstadoSerie(_, _) =>
    case KEmitir(venta, forzado, conRuc, id) => EmitirUnoVigente(t, venta, EstaAnulada(ventas, venta), forzado, conRuc, id);
    case KNota(origen, id) => EmitirNotaUnoVigente(t, origen, id);
    case KEstadoDocumento(d, estado) => ReviveSii(t, d, estado);
  }

  lemma {:induction false} PasoUnoVigente(n: Negocio, p: PeticionCaja)
    requires UnoVigente(n.talonario.documentos)
    requires p.KEstadoDocumento? ==> !Revive(n.talonario.documentos, p.documento, p.estado)
    ensures UnoVigente(Caja.Paso(n, p).talonario.documentos)
  {
    if VendeAlgo(n, p) {
      VentaEscribe(n, p.pedido);
    } else {
      TalonarioIgual(n, p);
      if EsDeTalonario(p) && AtenderTalonario(n.talonario, n.ventas.ventas, p).Ok? {
        TalonarioUnoVigente(n.talonario, n.ventas.ventas, p);
      }
    }
  }

  /** Over any run of the shop that never revives a document beside another of its sale and type, at most
      one invoice and one receipt stand for each sale. */
  lemma {:induction false} UnDocumentoVigente(ps: seq<PeticionCaja>)
    requires NuncaRevive(ps)
    ensures UnoVigente(Caja.Correr(ps).talonario.documentos)
  {
    if |ps| > 0 {
      UnDocumentoVigente(ps[..|ps| - 1]);
      PasoUnoVigente(Caja.Correr(ps[..|ps| - 1]), ps[|ps| - 1]);
    }
  }

  // ------------------------------------------------------------------ four runs

  /** A service is on sale and the shop has one series of receipts. */
  const SERIE: PeticionCaja := KSerie(0, 0, BOLETA, "B001", 1)
  const ABRIR: seq<PeticionCaja> := [KOtra(UN_SERVICIO), SERIE]

  function Pedido(clave: string, serie: SerieId): PedidoCaja {
    PedidoCaja(PEDIDO.(clave := clave), serie, 0, 0, false, None)
  }

  function Vendido(clave: string): Venta {
    Venta(clave, PAGADA, [DOS_UNIDADES], 20.0, 0.0, 0.0, 0.0, 20.0, 20.0)
  }

  function UnaSerie(siguiente: nat): map<SerieId, Serie> {
    map[0 := Serie(0, BOLETA, "B001", 1, siguiente, true)]
  }

  function EnVenta(numero: nat): Cabecera {
    Cabecera(0, 0, false, 0, "B001", numero)
  }

  function Boleta(numero: nat, estado: Fiscal.EstadoDoc): Documento {
    Documento(0, BOLETA, "B001", numero, 0, 0, estado)
  }

  const ABIERTA: Negocio := NEGOCIO_INICIAL.(ventas := CON_SERVICIO, talonario := Talonario(UnaSerie(1), [], []))

  const VENDIDA: Negocio := ABIERTA.(
    ventas := CON_SERVICIO.(ventas := [Vendido("v")]), talonario := Talonario(UnaSerie(2), [EnVenta(1)], []),
    cobros := Cobros([PagoVenta(0, 20.0, None)], []))

  lemma {:induction false} Abre()
    ensures Caja.Correr(ABRIR) == ABIERTA
  {
    assert ABRIR[..1] == [KOtra(UN_SERVICIO)] && [KOtra(UN_SERVICIO)][..0] == [];
    assert Caja.Correr([KOtra(UN_SERVICIO)]) == NEGOCIO_INICIAL.(ventas := CON_SERVICIO);
    assert Caja.Paso(NEGOCIO_INICIAL.(ventas := CON_SERVICIO), SERIE) == ABIERTA;
  }

  /** The shop sells nothing but the service, and has no promotions. */
  predicate SoloServicio(s: EstadoVentas) {
    s.inv == CON_SERVICIO.inv && s.promociones == []
  }

  lemma {:induction false} ServicioVendido(s: EstadoVentas, clave: string)
    requires SoloServicio(s) && !VentaConClave(s.ventas, clave)
    ensures CalcularLineas(s, PEDIDO.(clave := clave)) == Ok([DOS_UNIDADES])
    ensures VentaDe(PEDIDO.(clave := clave), [DOS_UNIDADES]) == Vendido(clave)
    ensures Crear(s, PEDIDO.(clave := clave)) == Ok(s.(ventas := s.ventas + [Vendido(clave)]))
  {
    LineasDelPedido();
    VentaDelPedido();
    assert [DOS_UNIDADES][..0] == [];
    assert LineasConStock([DOS_UNIDADES]) == [];
    assert Vender(s.inv, |s.ventas|, [], 0) == Ok(s.inv);
  }

  lemma {:induction false} UnPago(venta: nat)
    ensures PagosDe(venta, PEDIDO.pagos) == [PagoVenta(venta, 20.0, None)]
  {
    assert PEDIDO.pagos[..0] == [];
  }

  /** One more sale of the service, paid in full. */
  lemma {:induction false} VendeEnCaja(n: Negocio, clave: string, serie: SerieId, t: Talonario)
    requires SoloServicio(n.ventas) && !VentaConClave(n.ventas.ventas, clave)
    requires NumerarVenta(n.talonario, serie, 0, 0, false) == Ok(t)
    ensures Caja.Paso(n, KVenta(Pedido(clave, serie)))
         == n.(ventas := n.ventas.(ventas := n.ventas.ventas + [Vendido(clave)]), talonario := t,
               cobros := n.cobros.(pagos := n.cobros.pagos + [PagoVenta(|n.ventas.ventas|, 20.0, None)]))
  {
    ServicioVendido(n.ventas, clave);
    UnPago(|n.ventas.ventas|);
  }

  /** One more request about series or documents. */
  lemma {:induction false} DeTalonario(ps: seq<PeticionCaja>, n: Negocio, p: PeticionCaja, t: Talonario)
    requires Caja.Correr(ps) == n && EsDeTalonario(p) && AtenderTalonario(n.talonario, n.ventas.ventas, p) == Ok(t)
    ensures Caja.Correr(ps + [p]) == n.(talonario := t)
  {
    UnPasoMas(ps, p);
  }

  const PRIMERA: PeticionCaja := KVenta(Pedido("v", 0))
  const UNA_BOLETA: seq<PeticionCaja> := ABRIR + [PRIMERA]

  /** The next number of the series goes to a sale, when no sale of the branch has it. */
  lemma {:induction false} SiguienteVenta(numero: nat, cs: seq<Cabecera>, ds: seq<Documento>)
    requires forall i :: 0 <= i < |cs| ==> cs[i].numero != numero
    ensures NumerarVenta(Talonario(UnaSerie(numero), cs, ds), 0, 0, 0, false)
         == Ok(Talonario(UnaSerie(numero + 1), cs + [EnVenta(numero)], ds))
  {
    assert UnaSerie(numero)[0 := Serie(0, BOLETA, "B001", 1, numero + 1, true)] == UnaSerie(numero + 1);
  }

  lemma {:induction false} Vende()
    ensures Caja.Correr(UNA_BOLETA) == VENDIDA
  {
    var nada: seq<Cabecera> := [];
    Abre();
    UnPasoMas(ABRIR, PRIMERA);
    SiguienteVenta(1, nada, []);
    assert nada + [EnVenta(1)] == [EnVenta(1)];
    VendeEnCaja(ABIERTA, "v", 0, Talonario(UnaSerie(2), [EnVenta(1)], []));
  }

  const EMITIR: PeticionCaja := KEmitir(0, None, false, 0)

  /** The shop after its first sale, with the documents issued so far. */
  function Con(siguiente: nat, ds: seq<Documento>): Negocio {
    VENDIDA.(talonario := Talonario(UnaSerie(siguiente), [EnVenta(1)], ds))
  }

  /** The receipt of the first sale takes the next number, unless one stands. */
  lemma {:induction false} SiguienteDocumento(numero: nat, ds: seq<Documento>)
    requires !YaEmitido(ds, 0, BOLETA) && forall i :: 0 <= i < |ds| ==> ds[i].numero != numero
    ensures AtenderTalonario(Con(numero, ds).talonario, VENDIDA.ventas.ventas, EMITIR)
         == Ok(Con(numero + 1, ds + [Boleta(numero, Fiscal.EN_COLA)]).talonario)
  {
    assert UnaSerie(numero)[0 := Serie(0, BOLETA, "B001", 1, numero + 1, true)] == UnaSerie(numero + 1);
  }

  const EN_COLA_2: seq<Documento> := [Boleta(2, Fiscal.EN_COLA)]

  lemma {:induction false} Emite()
    ensures Caja.Correr(UNA_BOLETA + [EMITIR]) == Con(3, EN_COLA_2)
  {
    var nada: seq<Documento> := [];
    Vende();
    SiguienteDocumento(2, nada);
    assert nada + EN_COLA_2 == EN_COLA_2;
    DeTalonario(UNA_BOLETA, Con(2, nada), EMITIR, Con(3, EN_COLA_2).talonario);
  }

  const SEGUNDA: PeticionCaja := KVenta(Pedido("w", 0))

  lemma {:induction false} UnoYTres()
    ensures NumerosVentas([EnVenta(1)] + [EnVenta(3)], 0) == [1, 3] && NumerosDocumentos(EN_COLA_2, 0) == [2]
  {
    assert NumerosVentas([EnVenta(1)], 0) == [1] by { assert [EnVenta(1)][..0] == []; }
    VentasAgrega([EnVenta(1)], EnVenta(3), 0);
    assert EN_COLA_2[..0] == [];
  }

  /** A sale, its receipt on the series of the sale, and another sale: the sales hold 1 and 3. */
  lemma {:induction false} HuecoPosible()
    ensures var t := Caja.Correr(UNA_BOLETA + [EMITIR] + [SEGUNDA]).talonario;
      NumerosVentas(t.cabeceras, 0) == [1, 3] && NumerosDocumentos(t.documentos, 0) == [2]
  {
    Emite();
    UnPasoMas(UNA_BOLETA + [EMITIR], SEGUNDA);
    SiguienteVenta(3, [EnVenta(1)], EN_COLA_2);
    VendeEnCaja(Con(3, EN_COLA_2), "w", 0, Talonario(UnaSerie(4), [EnVenta(1)] + [EnVenta(3)], EN_COLA_2));
    UnoYTres();
  }

  const CARGO: PeticionCaja := KCargo(Intento("c", 20.0, Some(0)), true)
  const PROPIO: PagoVenta := PagoVenta(0, 20.0, None)
  const DE_CARGO: PagoVenta := PagoVenta(0, 20.0, Some("c"))

  lemma {:induction false} CargoCobrado()
    ensures CrearIntento(Cobros([PROPIO], []), 1, CARGO.cargo, true).pagos == [PROPIO] + [DE_CARGO]
    ensures Suma([PROPIO] + [DE_CARGO], PagadoDe(0)) == 40.0
  {
    SumaConcat([PROPIO], [DE_CARGO], PagadoDe(0));
    SumaUno(PROPIO, PagadoDe(0));
    SumaUno(DE_CARGO, PagadoDe(0));
  }

  /** A sale paid in full and a captured charge that names it: its payments are twice what it was paid. */
  lemma {:induction false} PagoDoblePosible()
    ensures var n := Caja.Correr(UNA_BOLETA + [CARGO]);
      |n.ventas.ventas| == 1 && n.ventas.ventas[0].totalPagado == 20.0 && Suma(n.cobros.pagos, PagadoDe(0)) == 40.0
  {
    Vende();
    UnPasoMas(UNA_BOLETA, CARGO);
    CargoCobrado();
  }

  const FALLAR: PeticionCaja := KEstadoDocumento(0, Fiscal.ERROR)
  const REENCOLAR: PeticionCaja := KEstadoDocumento(0, Fiscal.EN_COLA)
  const FALLIDA: seq<Documento> := [Boleta(2, Fiscal.ERROR)]
  const DOS_BOLETAS: seq<Documento> := [Boleta(2, Fiscal.EN_COLA), Boleta(3, Fiscal.EN_COLA)]

  lemma {:induction false} Falla()
    ensures Caja.Correr(UNA_BOLETA + [EMITIR] + [FALLAR]) == Con(3, FALLIDA)
  {
    Emite();
    assert EN_COLA_2[0 := Boleta(2, Fiscal.ERROR)] == FALLIDA;
    DeTalonario(UNA_BOLETA + [EMITIR], Con(3, EN_COLA_2), FALLAR, Con(3, FALLIDA).talonario);
  }

  lemma {:induction false} EmiteOtra()
    ensures Caja.Correr(UNA_BOLETA + [EMITIR] + [FALLAR] + [EMITIR]) == Con(4, FALLIDA + [Boleta(3, Fiscal.EN_COLA)])
  {
    Falla();
    SiguienteDocumento(3, FALLIDA);
    DeTalonario(UNA_BOLETA + [EMITIR] + [FALLAR], Con(3, FALLIDA), EMITIR, Con(4, FALLIDA + [Boleta(3, Fiscal.EN_COLA)]).talonario);
  }

  /** The receipt fails, another is issued, and the first is queued again: both stand for the sale. */
  lemma {:induction false} DosVigentesPosible()
    ensures Caja.Correr(UNA_BOLETA + [EMITIR] + [FALLAR] + [EMITIR] + [REENCOLAR]).talonario.documentos == DOS_BOLETAS
    ensures !UnoVigente(DOS_BOLETAS)
  {
    var ds := FALLIDA + [Boleta(3, Fiscal.EN_COLA)];
    EmiteOtra();
    assert ds[0 := Boleta(2, Fiscal.EN_COLA)] == DOS_BOLETAS;
    DeTalonario(UNA_BOLETA + [EMITIR] + [FALLAR] + [EMITIR], Con(4, ds), REENCOLAR, Con(4, DOS_BOLETAS).talonario);
    assert DeLaMisma(DOS_BOLETAS, 0, 1);
  }

  const GEMELA: PeticionCaja := KSerie(1, 0, FACTURA, "B001", 1)
  const CON_GEMELA: Talonario := Talonario(UnaSerie(2)[1 := Serie(0, FACTURA, "B001", 1, 1, true)], [EnVenta(1)], [])

  lemma {:induction false} GemelaAtascada()
    ensures CrearSerie(Talonario(UnaSerie(2), [EnVenta(1)], []), 1, 0, FACTURA, "B001", 1) == Ok(CON_GEMELA)
    ensures SerieLista(CON_GEMELA.series, 1) && Atascada(CON_GEMELA, 1, 0)
    ensures NumerarVenta(CON_GEMELA, 1, 0, 0, false) == Err(ClaveRepetida)
  {
    assert CON_GEMELA.cabeceras[0] == EnVenta(1);
  }

  lemma {:induction false} IndiceRechaza(n: Negocio, clave: string, serie: SerieId)
    requires SoloServicio(n.ventas) && !VentaConClave(n.ventas.ventas, clave)
    requires NumerarVenta(n.talonario, serie, 0, 0, false) == Err(ClaveRepetida)
    ensures CrearVenta(n, Pedido(clave, serie)) == Err(ClaveRepetida)
  {
    ServicioVendido(n.ventas, clave);
  }

  /** A series of invoices with the text of the receipts' series refuses its very first sale in a branch
      that has sold on the other, whatever key the sale carries. */
  lemma {:induction false} AtascoPosible(p: PedidoCaja)
    requires p.serie == 1 && p.sucursal == 0
    ensures var n := Caja.Correr(UNA_BOLETA + [GEMELA]);
      && SerieLista(n.talonario.series, 1) && Atascada(n.talonario, 1, 0) && Caja.Paso(n, KVenta(p)) == n
      && CrearVenta(n, Pedido("w", 1)) == Err(ClaveRepetida)
  {
    Vende();
    GemelaAtascada();
    DeTalonario(UNA_BOLETA, VENDIDA, GEMELA, CON_GEMELA);
    AtascoPaso(VENDIDA.(talonario := CON_GEMELA), KVenta(p), 1, 0);
    IndiceRechaza(VENDIDA.(talonario := CON_GEMELA), "w", 1);
  }
}
