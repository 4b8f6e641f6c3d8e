/** Fiscal documents of a sale: which are issued, with which number, and how many of them stand at once. */
module Emision {
  import opened Comun
  import opened Numeracion
  import Fiscal

  /** A rejected, failed or voided document no longer stands for its sale. */
  predicate Vigente(d: Documento) {
    d.estado !in {Fiscal.RECHAZADO, Fiscal.ERROR, Fiscal.ANULADO}
  }

  predicate YaEmitido(ds: seq<Documento>, venta: nat, tipo: TipoDocumento) {
    exists i :: 0 <= i < |ds| && ds[i].venta == venta && ds[i].tipo == tipo && Vigente(ds[i])
  }

  /** emitirDesdeVenta: the document of a sale, unless it has one that stands. What the caller found of
      the sale comes as `anulada` and `conRuc`; without a type asked for, the client decides it. */
  function Emitir(t: Talonario, venta: nat, anulada: bool, tipo: Option<TipoDocumento>, conRuc: bool, id: SerieId): Resultado<Talonario> {
    var elegido := tipo.GetOr(if conRuc then FACTURA else BOLETA);
    if tipo.Some? && tipo.value != FACTURA && tipo.value != BOLETA then Err(Invalido)
    else if venta >= |t.cabeceras| then Err(NoEncontrado)
    else if anulada then Err(Conflicto)
    else if elegido == FACTURA && !conRuc then Err(Invalido)
    else if YaEmitido(t.documentos, venta, elegido) then Ok(t)
    else
      var empresa := t.cabeceras[venta].empresa;
      if SerieLista(t.series, id) && t.series[id].tipo == elegido && t.series[id].empresa != empresa then Err(Invalido)
      else NumerarDocumento(t, id, empresa, elegido, venta)
  }

  /** emitirNotaCredito: only on an accepted document, and with no check that it has none yet. */
  function EmitirNota(t: Talonario, origen: nat, id: SerieId): Resultado<Talonario> {
    if origen >= |t.documentos| then Err(NoEncontrado)
    else if t.documentos[origen].estado !in {Fiscal.ACEPTADO, Fiscal.ACEPTADO_CON_OBSERVACIONES} then Err(Conflicto)
    else NumerarDocumento(t, id, t.documentos[origen].empresa, NOTA_CREDITO, t.documentos[origen].venta)
  }

  /** The state of a document moves on; which moves happen is the business of the fiscal worker. */
  function CambiarDocumento(t: Talonario, d: nat, estado: Fiscal.EstadoDoc): Resultado<Talonario> {
    if d >= |t.documentos| then Err(NoEncontrado)
    else Ok(t.(documentos := t.documentos[d := t.documentos[d].(estado := estado)]))
  }

  // ------------------------------------------------------------------ numbers

  lemma {:induction false} CambiarDocumentoMantiene(t: Talonario, d: nat, estado: Fiscal.EstadoDoc)
    requires TalonarioBien(t) && CambiarDocumento(t, d, estado).Ok?
    ensures TalonarioBien(CambiarDocumento(t, d, estado).value)
  {
    var t' := CambiarDocumento(t, d, estado).value;
    forall j | j in t'.series ensures SerieBien(t', j) {
      assert SerieBien(t, j);
      MismosNumeros(t.documentos, t'.documentos, j);
    }
  }

  lemma {:induction false} EmitirMantiene(t: Talonario, venta: nat, anulada: bool, tipo: Option<TipoDocumento>, conRuc: bool, id: SerieId)
    requires TalonarioBien(t) && Emitir(t, venta, anulada, tipo, conRuc, id).Ok?
    ensures TalonarioBien(Emitir(t, venta, anulada, tipo, conRuc, id).value)
  {
    var elegido := tipo.GetOr(if conRuc then FACTURA else BOLETA);
    if !YaEmitido(t.documentos, venta, elegido) {
      NumerarDocumentoMantiene(t, id, t.cabeceras[venta].empresa, elegido, venta);
    }
  }

  lemma {:induction false} EmitirNotaMantiene(t: Talonario, origen: nat, id: SerieId)
    requires TalonarioBien(t) && EmitirNota(t, origen, id).Ok?
    ensures TalonarioBien(EmitirNota(t, origen, id).value)
  {
    NumerarDocumentoMantiene(t, id, t.documentos[origen].empresa, NOTA_CREDITO, t.documentos[origen].venta);
  }

  /** A sale gets its document exactly when the request makes sense for it and the series is active, of
      the type and of the company of the sale: no clash of numbers ever refuses one. */
  lemma {:induction false} EmitirSii(t: Talonario, venta: nat, tipo: Option<TipoDocumento>, conRuc: bool, id: SerieId)
    requires TalonarioBien(t) && venta < |t.cabeceras|
    requires !YaEmitido(t.documentos, venta, tipo.GetOr(if conRuc then FACTURA else BOLETA))
    ensures var elegido := tipo.GetOr(if conRuc then FACTURA else BOLETA);
      Emitir(t, venta, false, tipo, conRuc, id).Ok? <==>
        && (elegido == BOLETA || (elegido == FACTURA && conRuc))
        && SerieLista(t.series, id) && t.series[id].tipo == elegido && t.series[id].empresa == t.cabeceras[venta].empresa
  {
    if SerieLista(t.series, id) && t.series[id].tipo != NOTA_CREDITO {
      DocumentoLibre(t, id);
    }
  }

  // ------------------------------------------------------------------ documents that stand

  predicate DeLaMisma(ds: seq<Documento>, i: nat, j: nat)
    requires i < |ds| && j < |ds|
  {
    ds[i].venta == ds[j].venta && ds[i].tipo == ds[j].tipo && ds[i].tipo in {FACTURA, BOLETA}
  }

  /** At most one invoice and one receipt stand for a sale. */
  ghost predicate UnoVigente(ds: seq<Documento>) {
    forall i, j :: 0 <= i < j < |ds| && DeLaMisma(ds, i, j) ==> !Vigente(ds[i]) || !Vigente(ds[j])
  }

  lemma {:induction false} EmitirUnoVigente(t: Talonario, venta: nat, anulada: bool, tipo: Option<TipoDocumento>, conRuc: bool, id: SerieId)
    requires UnoVigente(t.documentos) && Emitir(t, venta, anulada, tipo, conRuc, id).Ok?
    ensures UnoVigente(Emitir(t, venta, anulada, tipo, conRuc, id).value.documentos)
  {
  }

  lemma {:induction false} EmitirNotaUnoVigente(t: Talonario, origen: nat, id: SerieId)
    requires UnoVigente(t.documentos) && EmitirNota(t, origen, id).Ok?
    ensures UnoVigente(EmitirNota(t, origen, id).value.documentos)
  {
  }

  /** The new state makes document d stand again while another of its sale and type does. */
  predicate Revive(ds: seq<Documento>, d: nat, estado: Fiscal.EstadoDoc) {
    && d < |ds| && !Vigente(ds[d]) && Vigente(ds[d].(estado := estado))
    && exists i :: 0 <= i < |ds| && i != d && DeLaMisma(ds, i, d) && Vigente(ds[i])
  }

  /** A document that changes state leaves two standing if and only if it revives one beside another. */
  lemma {:induction false} ReviveSii(t: Talonario, d: nat, estado: Fiscal.EstadoDoc)
    requires UnoVigente(t.documentos) && CambiarDocumento(t, d, estado).Ok?
    ensures UnoVigente(CambiarDocumento(t, d, estado).value.documentos) <==> !Revive(t.documentos, d, estado)
  {
    var ds, ds' := t.documentos, CambiarDocumento(t, d, estado).value.documentos;
    if Revive(ds, d, estado) {
      var i :| 0 <= i < |ds| && i != d && DeLaMisma(ds, i, d) && Vigente(ds[i]);
      assert DeLaMisma(ds', if i < d then i else d, if i < d then d else i);
    } else {
      forall i, j | 0 <= i < j < |ds| && DeLaMisma(ds', i, j) ensures !Vigente(ds'[i]) || !Vigente(ds'[j]) {
        assert DeLaMisma(ds, i, j) && DeLaMisma(ds, j, i);
      }
    }
  }
}
