/** The ledger against the documents behind it: after any run, cell by cell, what receipts, transfers and
    counts posted is exactly what their rows say. */
module Documentos {
  import opened Comun
  import opened Sumas
  import opened Kardex
  import opened Movimientos
  import opened Lotes
  import opened Existencias
  import opened Inventario
  import opened Invariante
  import opened Corridas
  import opened Efectos
  import opened Registros
  import Autoria

  // ------------------------------------------------------------------ what the rows say of a cell

  function CompradoEn(c: Celda): ItemRecepcion -> real {
    (r: ItemRecepcion) => if r.celda == c then r.cantidad else 0.0
  }

  function LlegadoDe(v: VarianteId): Articulo -> real {
    (a: Articulo) => if a.variante == v then a.receivedQty else 0.0
  }

  /** What a transfer took out of cell c. */
  function EnviadoDesde(c: Celda): Transferencia -> real {
    (t: Transferencia) => if t.origen == c.almacen then Suma(t.articulos, EnviadoDe(c.variante)) else 0.0
  }

  /** What a transfer brought into cell c: what arrived, or came back when it was cancelled. */
  function LlegadoA(c: Celda): Transferencia -> real {
    (t: Transferencia) =>
      (if t.destino == c.almacen then Suma(t.articulos, LlegadoDe(c.variante)) else 0.0)
        + (if t.estado == CANCELADA && t.origen == c.almacen then Suma(t.articulos, EnviadoDe(c.variante)) else 0.0)
  }

  function DiferenciaDe(v: VarianteId): ItemConteo -> real {
    (i: ItemConteo) => if i.variante == v && i.contada.Some? then i.diferencia.GetOr(0.0) else 0.0
  }

  /** What a posted count corrected in cell c. */
  function CorregidoEn(c: Celda): ConteoFisico -> real {
    (k: ConteoFisico) => if k.estado == CONTABILIZADO && k.almacen == c.almacen then Suma(k.articulos, DiferenciaDe(c.variante)) else 0.0
  }

  // ------------------------------------------------------------------ receipts

  lemma {:induction false} FilasSuman(antes: seq<ItemRecepcion>, r: seq<ItemRecepcion>, items: seq<ItemCompra>, recepcion: nat, a: AlmacenId, c: Celda)
    requires FilasDeCompra(antes, r, items, recepcion, a)
    ensures Suma(r, CompradoEn(c)) == Suma(antes, CompradoEn(c)) + Suma(items, CompraEn(a, c))
  {
    if |items| == 0 {
      assert r == antes;
    } else {
      var m, n := |items| - 1, |r| - 1;
      assert FilaDeCompra(r[|antes| + m], items[m], recepcion, a);
      assert FilasDeCompra(antes, r[..n], items[..m], recepcion, a) by {
        forall i | 0 <= i < m ensures FilaDeCompra(r[..n][|antes| + i], items[..m][i], recepcion, a) {
          assert FilaDeCompra(r[|antes| + i], items[i], recepcion, a);
        }
        assert r[..n][..|antes|] == r[..|antes|];
      }
      FilasSuman(antes, r[..n], items[..m], recepcion, a, c);
    }
  }

  /** Only a receipt puts rows of receipts on record. */
  lemma {:induction false} SoloCompras(s: Estado, p: Peticion)
    requires !p.PRecepcion?
    ensures Paso(s, p).recibidos == s.recibidos
  {
  }

  lemma {:induction false} EfectoDeCompra(s: Estado, p: Peticion, c: Celda)
    requires !p.PRecepcion?
    ensures Efecto(s, p, c, RECEPCION_COMPRA) == 0.0
  {
  }

  lemma {:induction false} PasoCompras(s: Estado, p: Peticion, c: Celda)
    ensures Suma(Paso(s, p).recibidos, CompradoEn(c)) == Suma(s.recibidos, CompradoEn(c)) + Efecto(s, p, c, RECEPCION_COMPRA)
  {
    if p.PRecepcion? {
      if Atender(s, p).Ok? && EsNueva(s, p) {
        RecepcionarDeja(s, p.clave, p.numero, p.almacen, p.items);
        FilasSuman(s.recibidos, Paso(s, p).recibidos, p.items, |s.recepciones|, p.almacen, c);
      } else if Atender(s, p).Ok? {
        ReintentoNada(s, p);
      }
    } else {
      SoloCompras(s, p);
      EfectoDeCompra(s, p, c);
    }
  }

  // ------------------------------------------------------------------ transfers

  lemma {:induction false} MismosEnvios(antes: seq<Articulo>, despues: seq<Articulo>, v: VarianteId)
    requires |despues| == |antes|
    requires forall i :: 0 <= i < |antes| ==> despues[i].variante == antes[i].variante && despues[i].shippedQty == antes[i].shippedQty
    ensures Suma(despues, EnviadoDe(v)) == Suma(antes, EnviadoDe(v))
  {
    SumaParalela(antes, despues, EnviadoDe(v));
  }

  lemma {:induction false} EnviosSiguen(antes: seq<Transferencia>, despues: seq<Transferencia>, c: Celda)
    requires |antes| == |despues| && forall t :: 0 <= t < |antes| ==> Autoria.MismoEnvio(antes[t], despues[t])
    ensures Suma(despues, EnviadoDesde(c)) == Suma(antes, EnviadoDesde(c))
  {
    forall t | 0 <= t < |antes| ensures EnviadoDesde(c)(despues[t]) == EnviadoDesde(c)(antes[t]) {
      assert Autoria.MismoEnvio(antes[t], despues[t]);
      MismosEnvios(antes[t].articulos, despues[t].articulos, c.variante);
    }
    SumaParalela(antes, despues, EnviadoDesde(c));
  }

  lemma {:induction false} EfectoDeSalida(s: Estado, p: Peticion, c: Celda)
    requires !p.PTransferir?
    ensures Efecto(s, p, c, TRANSFERENCIA_SALIDA) == 0.0
  {
  }

  lemma {:induction false} NuevoEnvio(s: Estado, s': Estado, o: AlmacenId, d: AlmacenId, pedidos: seq<Pedido>, c: Celda)
    requires |s'.transferencias| == |s.transferencias| + 1 && s'.transferencias[..|s.transferencias|] == s.transferencias
    requires TransferenciaPedida(s'.transferencias[|s.transferencias|], o, d, pedidos)
    ensures Suma(s'.transferencias, EnviadoDesde(c)) == Suma(s.transferencias, EnviadoDesde(c)) + (if o == c.almacen then Suma(pedidos, CantidadDe(c.variante)) else 0.0)
    ensures Suma(s'.transferencias, LlegadoA(c)) == Suma(s.transferencias, LlegadoA(c))
  {
    var t := s'.transferencias[|s.transferencias|];
    SumaNula(t.articulos, LlegadoDe(c.variante));
  }

  lemma {:induction false} PasoEnvios(s: Estado, p: Peticion, c: Celda)
    ensures -Suma(Paso(s, p).transferencias, EnviadoDesde(c)) == -Suma(s.transferencias, EnviadoDesde(c)) + Efecto(s, p, c, TRANSFERENCIA_SALIDA)
  {
    if p.PTransferir? {
      if Atender(s, p).Ok? && EsNueva(s, p) {
        TransferirDeja(s, p.origen, p.destino, p.pedidos, p.clave);
        NuevoEnvio(s, Paso(s, p), p.origen, p.destino, p.pedidos, c);
      } else if Atender(s, p).Ok? {
        ReintentoNada(s, p);
      }
    } else {
      Autoria.TransferenciasSiguen(s, p);
      EnviosSiguen(s.transferencias, Paso(s, p).transferencias, c);
      EfectoDeSalida(s, p, c);
    }
  }

  lemma {:induction false} LlegadasSuman(antes: seq<Articulo>, despues: seq<Articulo>, ps: seq<Pedido>, v: VarianteId)
    requires ArticulosTras(ps, antes, despues) && VariantesDistintas(antes)
    ensures Suma(despues, LlegadoDe(v)) == Suma(antes, LlegadoDe(v)) + (if Lleva(antes, v) then Recibe(ps, v) else 0.0)
  {
    if |antes| > 0 {
      var n := |antes| - 1;
      LlegadasSuman(antes[..n], despues[..n], ps, v);
      LlevaUno(antes, v);
    }
  }

  lemma {:induction false} EfectoDeLlegada(s: Estado, p: Peticion, c: Celda)
    requires !p.PRecibir? && !p.PCancelar?
    ensures Efecto(s, p, c, TRANSFERENCIA_ENTRADA) == 0.0
  {
  }

  /** One transfer of the table changes. */
  lemma {:induction false} CambiaUna(ts: seq<Transferencia>, id: nat, t: Transferencia, c: Celda)
    requires id < |ts|
    ensures Suma(ts[id := t], LlegadoA(c)) == Suma(ts, LlegadoA(c)) - LlegadoA(c)(ts[id]) + LlegadoA(c)(t)
  {
    SumaCambia(ts, id, t, LlegadoA(c));
  }

  lemma {:induction false} ReceptorTras(s: Estado, id: nat, pedidos: seq<Pedido>, clave: string)
    requires TransitoCuadra(s.kardex, s.transferencias)
    requires RecibirTransferencia(s, id, pedidos, clave).Ok? && !EntradaConClave(s.kardex.ledger, clave)
    ensures var t, ts' := s.transferencias[id], RecibirTransferencia(s, id, pedidos, clave).value.transferencias;
      && |ts'| == |s.transferencias| && ts' == s.transferencias[id := ts'[id]] && VariantesDistintas(t.articulos)
      && ts'[id].origen == t.origen && ts'[id].destino == t.destino && t.estado != CANCELADA && ts'[id].estado != CANCELADA
      && ArticulosTras(Consolidar(SoloPositivos(pedidos)), t.articulos, ts'[id].articulos)
  {
    var t, qs := s.transferencias[id], Consolidar(SoloPositivos(pedidos));
    assert TransferenciaBien(s.kardex, t);
    forall i | 0 <= i < |t.articulos| ensures t.articulos[i].receivedQty <= t.articulos[i].shippedQty {
      assert ArticuloBien(s.kardex, t.origen, t.destino, t.articulos[i]);
    }
    RecepcionesArticulos(s.kardex, s.kardex.ledger, qs, t.destino, id, clave, t.articulos);
  }

  lemma {:induction false} RecibeLoQuePide(pedidos: seq<Pedido>, v: VarianteId)
    requires forall i :: 0 <= i < |pedidos| ==> pedidos[i].cantidad >= 0.0
    ensures Recibe(Consolidar(SoloPositivos(pedidos)), v) == Suma(pedidos, CantidadDe(v))
  {
    SoloPositivosSuman(pedidos, v);
    ConsolidarBien(SoloPositivos(pedidos), v);
    RecibeEsSuma(Consolidar(SoloPositivos(pedidos)), v);
  }

  lemma {:induction false} LlegaMas(t: Transferencia, t': Transferencia, qs: seq<Pedido>, c: Celda)
    requires VariantesDistintas(t.articulos) && ArticulosTras(qs, t.articulos, t'.articulos)
    requires t'.origen == t.origen && t'.destino == t.destino && t.estado != CANCELADA && t'.estado != CANCELADA
    ensures LlegadoA(c)(t') == LlegadoA(c)(t) + (if t.destino == c.almacen && Lleva(t.articulos, c.variante) then Recibe(qs, c.variante) else 0.0)
  {
    LlegadasSuman(t.articulos, t'.articulos, qs, c.variante);
  }

  lemma {:induction false} RecibirSuma(s: Estado, id: nat, pedidos: seq<Pedido>, clave: string, c: Celda)
    requires Valido(s) && RecibirTransferencia(s, id, pedidos, clave).Ok? && !EntradaConClave(s.kardex.ledger, clave)
    ensures Suma(RecibirTransferencia(s, id, pedidos, clave).value.transferencias, LlegadoA(c))
         == Suma(s.transferencias, LlegadoA(c)) + Asentado(s, PRecibir(id, pedidos, clave), c, TRANSFERENCIA_ENTRADA)
  {
    var t' := RecibirTransferencia(s, id, pedidos, clave).value.transferencias[id];
    ReceptorTras(s, id, pedidos, clave);
    RecibeLoQuePide(pedidos, c.variante);
    LlegaMas(s.transferencias[id], t', Consolidar(SoloPositivos(pedidos)), c);
    CambiaUna(s.transferencias, id, t', c);
  }

  lemma {:induction false} CancelarSuma(s: Estado, id: nat, c: Celda)
    requires CancelarTransferencia(s, id).Ok?
    ensures Suma(CancelarTransferencia(s, id).value.transferencias, LlegadoA(c))
         == Suma(s.transferencias, LlegadoA(c)) + Asentado(s, PCancelar(id), c, TRANSFERENCIA_ENTRADA)
  {
    CambiaUna(s.transferencias, id, s.transferencias[id].(estado := CANCELADA), c);
  }

  lemma {:induction false} SoloTraslados(s: Estado, p: Peticion)
    requires !p.PTransferir? && !p.PRecibir? && !p.PCancelar?
    ensures Paso(s, p).transferencias == s.transferencias
  {
  }

  lemma {:induction false} PasoLlegadas(s: Estado, p: Peticion, c: Celda)
    requires Valido(s)
    ensures Suma(Paso(s, p).transferencias, LlegadoA(c)) == Suma(s.transferencias, LlegadoA(c)) + Efecto(s, p, c, TRANSFERENCIA_ENTRADA)
  {
    if Atender(s, p).Ok? && EsNueva(s, p) && p.PRecibir? {
      RecibirSuma(s, p.transferencia, p.pedidos, p.clave, c);
    } else if Atender(s, p).Ok? && p.PCancelar? {
      CancelarSuma(s, p.transferencia, c);
    } else if Atender(s, p).Ok? && EsNueva(s, p) && p.PTransferir? {
      TransferirDeja(s, p.origen, p.destino, p.pedidos, p.clave);
      NuevoEnvio(s, Paso(s, p), p.origen, p.destino, p.pedidos, c);
      EfectoDeLlegada(s, p, c);
    } else if Atender(s, p).Ok? && !EsNueva(s, p) {
      ReintentoNada(s, p);
    } else if !p.PTransferir? && !p.PRecibir? && !p.PCancelar? {
      SoloTraslados(s, p);
      EfectoDeLlegada(s, p, c);
    }
  }

  // ------------------------------------------------------------------ counts

  lemma {:induction false} DiferenciasSuman(k: Kardex, a: AlmacenId, antes: seq<ItemConteo>, despues: seq<ItemConteo>, c: Celda)
    requires a == c.almacen && |despues| == |antes| && forall i :: 0 <= i < |antes| ==> Contabilizado(k, a, antes[i], despues[i])
    requires forall i, j :: 0 <= i < j < |antes| ==> antes[i].variante != antes[j].variante
    ensures Suma(despues, DiferenciaDe(c.variante)) == ContadoEn(a, antes, c).GetOr(Fila(k, c).enStock) - Fila(k, c).enStock
  {
    if |antes| > 0 {
      var n := |antes| - 1;
      assert Contabilizado(k, a, antes[n], despues[n]);
      DiferenciasSuman(k, a, antes[..n], despues[..n], c);
      if antes[n].variante == c.variante {
        ContadoSoloUna(a, antes[..n], c);
      }
    }
  }

  lemma {:induction false} ContabilizarSuma(s: Estado, id: nat, c: Celda)
    requires Valido(s) && ContabilizarConteo(s, id).Ok?
    ensures Suma(ContabilizarConteo(s, id).value.conteos, CorregidoEn(c)) == Suma(s.conteos, CorregidoEn(c))
          + Asentado(s, PContabilizar(id), c, GANANCIA_CONTEO) + Asentado(s, PContabilizar(id), c, PERDIDA_CONTEO)
  {
    var k, k' := s.conteos[id], ContabilizarConteo(s, id).value.conteos[id];
    assert ConteoBien(s.variantes, k.articulos);
    ContabilizarDeja(s, id);
    SumaCambia(s.conteos, id, k', CorregidoEn(c));
    if k.almacen == c.almacen {
      DiferenciasSuman(s.kardex, k.almacen, k.articulos, k'.articulos, c);
    } else {
      ContadoSoloUna(k.almacen, k.articulos, c);
    }
  }

  lemma {:induction false} EfectoDeConteo(s: Estado, p: Peticion, c: Celda)
    requires !p.PContabilizar?
    ensures Efecto(s, p, c, GANANCIA_CONTEO) == 0.0 && Efecto(s, p, c, PERDIDA_CONTEO) == 0.0
  {
  }

  /** The counts after a request that posts none: one more that is open, or one that was not posted and
      still is not, or the same ones. */
  lemma {:induction false} ConteosTras(s: Estado, p: Peticion)
    requires !p.PContabilizar?
    ensures var ks, ks' := s.conteos, Paso(s, p).conteos;
      || ks' == ks
      || (|ks'| == |ks| + 1 && ks'[..|ks|] == ks && ks'[|ks|].estado != CONTABILIZADO)
      || (|ks'| == |ks| && exists id :: 0 <= id < |ks| && ks' == ks[id := ks'[id]] && ks[id].estado != CONTABILIZADO && ks'[id].estado != CONTABILIZADO)
  {
    var ks, ks' := s.conteos, Paso(s, p).conteos;
    if p.PRegistrarConteo? && Atender(s, p).Ok? {
      assert ks' == ks[p.conteo := ks'[p.conteo]] && ks[p.conteo].estado != CONTABILIZADO;
    } else if p.PCancelarConteo? && Atender(s, p).Ok? {
      assert ks' == ks[p.conteo := ks'[p.conteo]] && ks[p.conteo].estado != CONTABILIZADO;
    }
  }

  lemma {:induction false} SoloContabilizar(s: Estado, p: Peticion, c: Celda)
    requires !p.PContabilizar?
    ensures Suma(Paso(s, p).conteos, CorregidoEn(c)) == Suma(s.conteos, CorregidoEn(c))
  {
    var ks, ks' := s.conteos, Paso(s, p).conteos;
    ConteosTras(s, p);
    if ks' != ks && |ks'| == |ks| {
      var id :| 0 <= id < |ks| && ks' == ks[id := ks'[id]] && ks[id].estado != CONTABILIZADO && ks'[id].estado != CONTABILIZADO;
      SumaCambia(ks, id, ks'[id], CorregidoEn(c));
    }
  }

  lemma {:induction false} PasoConteos(s: Estado, p: Peticion, c: Celda)
    requires Valido(s)
    ensures Suma(Paso(s, p).conteos, CorregidoEn(c))
         == Suma(s.conteos, CorregidoEn(c)) + Efecto(s, p, c, GANANCIA_CONTEO) + Efecto(s, p, c, PERDIDA_CONTEO)
  {
    if p.PContabilizar? {
      if Atender(s, p).Ok? {
        ContabilizarSuma(s, p.conteo, c);
      }
    } else {
      SoloContabilizar(s, p, c);
      EfectoDeConteo(s, p, c);
    }
  }

  // ------------------------------------------------------------------ every run

  ghost predicate LedgerDice(s: Estado, c: Celda) {
    var l := s.kardex.ledger;
    && Suma(l, DeTipo(c, RECEPCION_COMPRA)) == Suma(s.recibidos, CompradoEn(c))
    && Suma(l, DeTipo(c, TRANSFERENCIA_SALIDA)) == -Suma(s.transferencias, EnviadoDesde(c))
    && Suma(l, DeTipo(c, TRANSFERENCIA_ENTRADA)) == Suma(s.transferencias, LlegadoA(c))
    && Suma(l, DeTipo(c, GANANCIA_CONTEO)) + Suma(l, DeTipo(c, PERDIDA_CONTEO)) == Suma(s.conteos, CorregidoEn(c))
  }

  lemma {:induction false} PasoDice(s: Estado, p: Peticion, c: Celda)
    requires Valido(s) && LedgerDice(s, c)
    ensures LedgerDice(Paso(s, p), c)
  {
    PasoCompras(s, p, c);
    PasoEnvios(s, p, c);
    PasoLlegadas(s, p, c);
    PasoConteos(s, p, c);
    PasoAsienta(s, p, c, RECEPCION_COMPRA);
    PasoAsienta(s, p, c, TRANSFERENCIA_SALIDA);
    PasoAsienta(s, p, c, TRANSFERENCIA_ENTRADA);
    PasoAsienta(s, p, c, GANANCIA_CONTEO);
    PasoAsienta(s, p, c, PERDIDA_CONTEO);
  }

  /** After any run the ledger of every cell is its documents: receipts add up to the rows received into it,
      shipments to what transfers took out of it, arrivals to what they brought in or brought back, and
      counts to the differences posted. */
  lemma {:induction false} LedgerEsLosDocumentos(ps: seq<Peticion>, c: Celda)
    ensures LedgerDice(Correr(INICIAL, ps), c)
  {
    if |ps| > 0 {
      LedgerEsLosDocumentos(ps[..|ps| - 1], c);
      InicialValido();
      CorrerMantiene(INICIAL, ps[..|ps| - 1]);
      PasoDice(Correr(INICIAL, ps[..|ps| - 1]), ps[|ps| - 1], c);
    }
  }

  /** Every kind of entry is one of ten. */
  lemma {:induction false} SumaDeTipos(l: seq<Asiento>, c: Celda)
    ensures Suma(l, CantidadEn(c)) == Suma(l, DeTipo(c, APERTURA)) + Suma(l, DeTipo(c, AJUSTE_ENTRADA)) + Suma(l, DeTipo(c, AJUSTE_SALIDA))
          + Suma(l, DeTipo(c, GANANCIA_CONTEO)) + Suma(l, DeTipo(c, PERDIDA_CONTEO))
          + Suma(l, DeTipo(c, TRANSFERENCIA_SALIDA)) + Suma(l, DeTipo(c, TRANSFERENCIA_ENTRADA))
          + Suma(l, DeTipo(c, VENTA)) + Suma(l, DeTipo(c, DEVOLUCION_VENTA)) + Suma(l, DeTipo(c, RECEPCION_COMPRA))
  {
    if |l| > 0 {
      SumaDeTipos(l[..|l| - 1], c);
    }
  }

  /** After any run the stock of every cell is what was opened, adjusted, sold and given back on request, and
      what receipts, transfers and counts say on paper. */
  lemma {:induction false} StockEsLosDocumentos(ps: seq<Peticion>, c: Celda)
    ensures var s := Correr(INICIAL, ps);
      Fila(s.kardex, c).enStock ==
        LoPedido(ps, c, APERTURA) + LoPedido(ps, c, AJUSTE_ENTRADA) + LoPedido(ps, c, AJUSTE_SALIDA) + LoPedido(ps, c, VENTA) + LoPedido(ps, c, DEVOLUCION_VENTA)
        + Suma(s.recibidos, CompradoEn(c)) + Suma(s.transferencias, LlegadoA(c)) - Suma(s.transferencias, EnviadoDesde(c))
        + Suma(s.conteos, CorregidoEn(c))
  {
    SaldosSiempreCuadran(ps, c);
    SumaDeTipos(Correr(INICIAL, ps).kardex.ledger, c);
    LedgerEsLosDocumentos(ps, c);
    LedgerEsLoPedido(ps, c, APERTURA);
    LedgerEsLoPedido(ps, c, AJUSTE_ENTRADA);
    LedgerEsLoPedido(ps, c, AJUSTE_SALIDA);
    LedgerEsLoPedido(ps, c, VENTA);
    LedgerEsLoPedido(ps, c, DEVOLUCION_VENTA);
  }
}
