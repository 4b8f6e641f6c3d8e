/** What a series, a number and a fiscal document are given on: exactly when each is, what is then written,
    and what a captured charge pays. */
module Talonarios {
  import opened Comun
  import opened Sumas
  import opened Numeracion
  import opened Emision
  import opened Ventas
  import opened Pagos
  import Fiscal

  // ------------------------------------------------------------------ series

  /** A series is made unless its company has one of that type and text; it starts active at its first number. */
  lemma {:induction false} CrearSerieSii(t: Talonario, id: SerieId, empresa: EmpresaId, tipo: TipoDocumento, texto: string, primero: nat)
    ensures CrearSerie(t, id, empresa, tipo, texto, primero).Ok? <==>
      id !in t.series && forall j :: j in t.series ==> t.series[j].empresa != empresa || t.series[j].tipo != tipo || t.series[j].texto != texto
    ensures CrearSerie(t, id, empresa, tipo, texto, primero).Ok? ==>
      CrearSerie(t, id, empresa, tipo, texto, primero).value == t.(series := t.series[id := Serie(empresa, tipo, texto, primero, primero, true)])
  {
  }

  /** Archiving stops a series and activating starts it again at the number it had. */
  lemma {:induction false} CambiarEstadoDeja(t: Talonario, id: SerieId, activar: bool)
    requires id in t.series
    ensures CambiarEstado(t, id, activar).Ok?
    ensures var t' := CambiarEstado(t, id, activar).value;
      && (SerieLista(t'.series, id) <==> activar) && id in t'.series && t'.series[id].nextNumber == t.series[id].nextNumber
      && t'.cabeceras == t.cabeceras && t'.documentos == t.documentos && t'.series.Keys == t.series.Keys
      && forall j :: j in t.series && j != id ==> t'.series[j] == t.series[j]
  {
  }

  /** The series gave its next number, and no other series changed. */
  predicate DioNumero(series: map<SerieId, Serie>, series': map<SerieId, Serie>, id: SerieId)
    requires id in series
  {
    series' == series[id := series[id].(nextNumber := series[id].nextNumber + 1)]
  }

  /** A sale is numbered exactly when the series is active and no sale of the branch prints that number. */
  lemma {:induction false} NumerarVentaSii(t: Talonario, id: SerieId, empresa: EmpresaId, sucursal: SucursalId, conCliente: bool)
    ensures NumerarVenta(t, id, empresa, sucursal, conCliente).Ok? <==>
      && id in t.series && t.series[id].activa
      && forall i :: 0 <= i < |t.cabeceras| ==>
           t.cabeceras[i].sucursal != sucursal || t.cabeceras[i].texto != t.series[id].texto || t.cabeceras[i].numero != t.series[id].nextNumber
    ensures NumerarVenta(t, id, empresa, sucursal, conCliente).Ok? ==>
      var t' := NumerarVenta(t, id, empresa, sucursal, conCliente).value;
      && DioNumero(t.series, t'.series, id) && t'.documentos == t.documentos
      && t'.cabeceras == t.cabeceras + [Cabecera(empresa, sucursal, conCliente, id, t.series[id].texto, t.series[id].nextNumber)]
  {
  }

  // ------------------------------------------------------------------ fiscal documents

  /** One more document: of this sale, type and company, under the next number of its series, in the queue. */
  predicate DocumentoNuevo(t: Talonario, t': Talonario, id: SerieId, venta: nat, tipo: TipoDocumento, empresa: EmpresaId)
    requires id in t.series
  {
    && DioNumero(t.series, t'.series, id) && t'.cabeceras == t.cabeceras
    && t'.documentos == t.documentos + [Documento(empresa, tipo, t.series[id].texto, t.series[id].nextNumber, id, venta, Fiscal.EN_COLA)]
  }

  /** Without a type asked for, clients with a RUC get an invoice and the others a receipt. The document of a
      sale is of its company; asked for again while it stands, it is the same one. */
  lemma {:induction false} EmitirDeja(t: Talonario, venta: nat, anulada: bool, tipo: Option<TipoDocumento>, conRuc: bool, id: SerieId)
    requires Emitir(t, venta, anulada, tipo, conRuc, id).Ok?
    ensures !anulada && venta < |t.cabeceras|
    ensures var elegido := if tipo.Some? then tipo.value else if conRuc then FACTURA else BOLETA;
      var t' := Emitir(t, venta, anulada, tipo, conRuc, id).value;
      if exists i :: 0 <= i < |t.documentos| && t.documentos[i].venta == venta && t.documentos[i].tipo == elegido
                  && t.documentos[i].estado != Fiscal.RECHAZADO && t.documentos[i].estado != Fiscal.ERROR && t.documentos[i].estado != Fiscal.ANULADO
      then t' == t
      else id in t.series && t.series[id].tipo == elegido && DocumentoNuevo(t, t', id, venta, elegido, t.cabeceras[venta].empresa)
  {
    var elegido := if tipo.Some? then tipo.value else if conRuc then FACTURA else BOLETA;
    if exists i :: 0 <= i < |t.documentos| && t.documentos[i].venta == venta && t.documentos[i].tipo == elegido
                && t.documentos[i].estado != Fiscal.RECHAZADO && t.documentos[i].estado != Fiscal.ERROR && t.documentos[i].estado != Fiscal.ANULADO {
      var i :| 0 <= i < |t.documentos| && t.documentos[i].venta == venta && t.documentos[i].tipo == elegido
            && t.documentos[i].estado != Fiscal.RECHAZADO && t.documentos[i].estado != Fiscal.ERROR && t.documentos[i].estado != Fiscal.ANULADO;
      assert Vigente(t.documentos[i]);
      assert YaEmitido(t.documentos, venta, elegido);
    } else {
      assert !YaEmitido(t.documentos, venta, elegido);
    }
  }

  /** A credit note is issued exactly on an accepted document, from an active series of credit notes whose
      next number no credit note of that company has; it is about the same sale. */
  lemma {:induction false} EmitirNotaSii(t: Talonario, origen: nat, id: SerieId)
    ensures EmitirNota(t, origen, id).Ok? <==>
      && origen < |t.documentos|
      && (t.documentos[origen].estado == Fiscal.ACEPTADO || t.documentos[origen].estado == Fiscal.ACEPTADO_CON_OBSERVACIONES)
      && id in t.series && t.series[id].activa && t.series[id].tipo == NOTA_CREDITO
      && forall i :: 0 <= i < |t.documentos| ==>
           || t.documentos[i].empresa != t.documentos[origen].empresa || t.documentos[i].tipo != NOTA_CREDITO
           || t.documentos[i].texto != t.series[id].texto || t.documentos[i].numero != t.series[id].nextNumber
    ensures EmitirNota(t, origen, id).Ok? ==>
      DocumentoNuevo(t, EmitirNota(t, origen, id).value, id, t.documentos[origen].venta, NOTA_CREDITO, t.documentos[origen].empresa)
  {
  }

  // ------------------------------------------------------------------ charges

  /** Charge i has paid its amount to the sale it names, in one payment. */
  predicate PagoSuVenta(pagos: seq<PagoVenta>, i: Intento, j: nat) {
    i.venta.Some? && j < |pagos| && pagos[j] == PagoVenta(i.venta.value, i.monto, Some(i.clave))
  }

  /** A notice of capture makes the charge pay the sale it names, if there is such a sale, exactly once
      however often it comes; any other notice changes nothing. */
  lemma {:induction false} NotificarPaga(ventas: seq<Venta>, c: Cobros, k: nat, capturada: bool)
    requires CobrosBien(ventas, c) && k < |c.intentos|
    ensures var c' := Notificar(c, |ventas|, k, capturada);
      && c'.intentos == c.intentos && |c.pagos| <= |c'.pagos| <= |c.pagos| + 1 && c'.pagos[..|c.pagos|] == c.pagos
      && (!capturada ==> c' == c)
      && (capturada && c.intentos[k].venta.Some? && c.intentos[k].venta.value < |ventas| ==>
            exists j :: PagoSuVenta(c'.pagos, c.intentos[k], j))
      && (c.intentos[k].venta.None? || c.intentos[k].venta.value >= |ventas| ==> c' == c)
      && (|c'.pagos| > |c.pagos| ==> PagoSuVenta(c'.pagos, c.intentos[k], |c.pagos|))
  {
    var i, c' := c.intentos[k], Notificar(c, |ventas|, k, capturada);
    if capturada && i.venta.Some? && i.venta.value < |ventas| {
      if PagoConClave(c.pagos, i.clave) {
        var j :| 0 <= j < |c.pagos| && c.pagos[j].pasarela == Some(i.clave);
        assert DeSuCargo(c.intentos, c.pagos[j]);
        var h :| 0 <= h < |c.intentos| && c.intentos[h] == Intento(c.pagos[j].pasarela.value, c.pagos[j].monto, Some(c.pagos[j].venta));
        assert h == k;
        assert PagoSuVenta(c'.pagos, i, j);
      } else {
        assert PagoSuVenta(c'.pagos, i, |c.pagos|);
      }
    }
  }

  /** A charge under a new key is recorded, and pays its sale at once when it is captured and there is such
      a sale; under a key already used nothing happens. */
  lemma {:induction false} CargoPaga(ventas: seq<Venta>, c: Cobros, i: Intento, capturada: bool)
    requires CobrosBien(ventas, c)
    ensures var c' := CrearIntento(c, |ventas|, i, capturada);
      if IntentoConClave(c.intentos, i.clave) then c' == c
      else
        && c'.intentos == c.intentos + [i] && c'.pagos[..|c.pagos|] == c.pagos
        && (if capturada && i.venta.Some? && i.venta.value < |ventas| then |c'.pagos| == |c.pagos| + 1 && PagoSuVenta(c'.pagos, i, |c.pagos|)
            else c'.pagos == c.pagos)
  {
    if !IntentoConClave(c.intentos, i.clave) {
      forall j | 0 <= j < |c.pagos| ensures c.pagos[j].pasarela != Some(i.clave) {
        assert DeSuCargo(c.intentos, c.pagos[j]);
      }
    }
  }

  /** A sale writes one payment of its own for each amount, in order. */
  lemma {:induction false} PagosPropios(venta: nat, montos: seq<real>)
    ensures var r := PagosDe(venta, montos);
      |r| == |montos| && forall k :: 0 <= k < |montos| ==> r[k] == PagoVenta(venta, montos[k], None)
  {
    if |montos| > 0 {
      PagosPropios(venta, montos[..|montos| - 1]);
    }
  }
}
