/** The numbers of the document series. Sales and fiscal documents draw from the same rows: a sale takes
    the next number of any active series, a document that of an active series of its own type. */
module Numeracion {
  import opened Comun
  import Fiscal

  type SerieId = nat
  type EmpresaId = nat
  type SucursalId = nat

  datatype TipoDocumento = FACTURA | BOLETA | NOTA_CREDITO | NOTA_DEBITO

  /** One DocumentSeries row. `texto` is what its numbers are printed after. */
  datatype Serie = Serie(empresa: EmpresaId, tipo: TipoDocumento, texto: string, primero: nat, nextNumber: nat, activa: bool)

  /** What the numbering writes on a Sale row. The printed number is the text of the series, a hyphen and
      the number; the text has no hyphen, so two of them are equal when both parts are. */
  datatype Cabecera = Cabecera(empresa: EmpresaId, sucursal: SucursalId, conCliente: bool, serie: SerieId, texto: string, numero: nat)

  /** One ElectronicDocument row: the number it took, and the sale it is about. */
  datatype Documento = Documento(
    empresa: EmpresaId, tipo: TipoDocumento, texto: string, numero: nat, serie: SerieId, venta: nat, estado: Fiscal.EstadoDoc)

  /** Sales and documents are kept in the order of their tables, so a position is an id. */
  datatype Talonario = Talonario(series: map<SerieId, Serie>, cabeceras: seq<Cabecera>, documentos: seq<Documento>)

  const SIN_SERIES: Talonario := Talonario(map[], [], [])

  // ------------------------------------------------------------------ series

  predicate SerieRepetida(series: map<SerieId, Serie>, empresa: EmpresaId, tipo: TipoDocumento, texto: string) {
    exists id :: id in series && series[id].empresa == empresa && series[id].tipo == tipo && series[id].texto == texto
  }

  function CrearSerie(t: Talonario, id: SerieId, empresa: EmpresaId, tipo: TipoDocumento, texto: string, primero: nat): Resultado<Talonario> {
    if id in t.series then Err(ClaveRepetida)
    else if SerieRepetida(t.series, empresa, tipo, texto) then Err(Invalido)
    else Ok(t.(series := t.series[id := Serie(empresa, tipo, texto, primero, primero, true)]))
  }

  /** cambiarEstado: archive a series or put it back to work; its next number stays. */
  function CambiarEstado(t: Talonario, id: SerieId, activar: bool): Resultado<Talonario> {
    if id in t.series then Ok(t.(series := t.series[id := t.series[id].(activa := activar)])) else Err(NoEncontrado)
  }

  predicate SerieLista(series: map<SerieId, Serie>, id: SerieId) {
    id in series && series[id].activa
  }

  function Avanzar(series: map<SerieId, Serie>, id: SerieId): map<SerieId, Serie>
    requires id in series
  {
    series[id := series[id].(nextNumber := series[id].nextNumber + 1)]
  }

  // ------------------------------------------------------------------ who takes a number

  /** The unique index of Sale on branch and number. */
  predicate NumeroOcupado(cs: seq<Cabecera>, sucursal: SucursalId, texto: string, numero: nat) {
    exists i :: 0 <= i < |cs| && cs[i].sucursal == sucursal && cs[i].texto == texto && cs[i].numero == numero
  }

  function CabeceraDe(t: Talonario, id: SerieId, empresa: EmpresaId, sucursal: SucursalId, conCliente: bool): Cabecera
    requires id in t.series
  {
    Cabecera(empresa, sucursal, conCliente, id, t.series[id].texto, t.series[id].nextNumber)
  }

  /** The next number of the series for a sale, whatever the type of the series. */
  function NumerarVenta(t: Talonario, id: SerieId, empresa: EmpresaId, sucursal: SucursalId, conCliente: bool): Resultado<Talonario> {
    if !SerieLista(t.series, id) then Err(NoEncontrado)
    else if NumeroOcupado(t.cabeceras, sucursal, t.series[id].texto, t.series[id].nextNumber) then Err(ClaveRepetida)
    else Ok(t.(series := Avanzar(t.series, id), cabeceras := t.cabeceras + [CabeceraDe(t, id, empresa, sucursal, conCliente)]))
  }

  /** The unique index of ElectronicDocument on company, type, text and number. */
  predicate DocumentoOcupado(ds: seq<Documento>, empresa: EmpresaId, tipo: TipoDocumento, texto: string, numero: nat) {
    exists i :: 0 <= i < |ds| && ds[i].empresa == empresa && ds[i].tipo == tipo && ds[i].texto == texto && ds[i].numero == numero
  }

  /** The next number of the series for a document, which has to be of the type of the series. */
  function NumerarDocumento(t: Talonario, id: SerieId, empresa: EmpresaId, tipo: TipoDocumento, venta: nat): Resultado<Talonario> {
    if !SerieLista(t.series, id) then Err(NoEncontrado)
    else if t.series[id].tipo != tipo then Err(Conflicto)
    else
      var s := t.series[id];
      if DocumentoOcupado(t.documentos, empresa, tipo, s.texto, s.nextNumber) then Err(ClaveRepetida)
      else Ok(t.(series := Avanzar(t.series, id),
                 documentos := t.documentos + [Documento(empresa, tipo, s.texto, s.nextNumber, id, venta, Fiscal.EN_COLA)]))
  }

  // ------------------------------------------------------------------ the numbers of a series

  /** The numbers the sales of a series hold, in the order the sales were made. */
  function NumerosVentas(cs: seq<Cabecera>, id: SerieId): seq<nat> {
    if |cs| == 0 then []
    else NumerosVentas(cs[..|cs| - 1], id) + (if cs[|cs| - 1].serie == id then [cs[|cs| - 1].numero] else [])
  }

  /** The numbers its documents hold, in the order they were issued. */
  function NumerosDocumentos(ds: seq<Documento>, id: SerieId): seq<nat> {
    if |ds| == 0 then []
    else NumerosDocumentos(ds[..|ds| - 1], id) + (if ds[|ds| - 1].serie == id then [ds[|ds| - 1].numero] else [])
  }

  function Intervalo(a: nat, b: nat): (r: seq<nat>)
    ensures |r| == (if a <= b then b - a else 0) && forall k :: 0 <= k < |r| ==> r[k] == a + k
  {
    if a >= b then [] else Intervalo(a, b - 1) + [b - 1]
  }

  /** Sales and documents take the numbers from a up to b in turns: each next number goes to the end of
      one of the two lists. */
  ghost predicate Repartido(ventas: seq<nat>, documentos: seq<nat>, a: nat, b: nat) {
    if b <= a then b == a && ventas == [] && documentos == []
    else
      var v, d := |ventas| - 1, |documentos| - 1;
      || (v >= 0 && ventas[v] == b - 1 && Repartido(ventas[..v], documentos, a, b - 1))
      || (d >= 0 && documentos[d] == b - 1 && Repartido(ventas, documentos[..d], a, b - 1))
  }

  ghost predicate SerieBien(t: Talonario, id: SerieId)
    requires id in t.series
  {
    Repartido(NumerosVentas(t.cabeceras, id), NumerosDocumentos(t.documentos, id), t.series[id].primero, t.series[id].nextNumber)
  }

  /** A sale's number is of a series on record, printed after its text. */
  ghost predicate VentaDeSerie(series: map<SerieId, Serie>, c: Cabecera) {
    c.serie in series && series[c.serie].texto == c.texto
  }

  /** So is a document's, of its own type; and but for credit notes, of its own company. */
  ghost predicate DocumentoDeSerie(series: map<SerieId, Serie>, d: Documento) {
    && d.serie in series && series[d.serie].texto == d.texto && series[d.serie].tipo == d.tipo
    && (d.tipo != NOTA_CREDITO ==> series[d.serie].empresa == d.empresa)
  }

  ghost predicate SeriesDistintas(series: map<SerieId, Serie>) {
    forall a, b :: a in series && b in series && a != b ==>
      series[a].empresa != series[b].empresa || series[a].tipo != series[b].tipo || series[a].texto != series[b].texto
  }

  ghost predicate TalonarioBien(t: Talonario) {
    && SeriesDistintas(t.series)
    && (forall id :: id in t.series ==> SerieBien(t, id))
    && (forall i :: 0 <= i < |t.cabeceras| ==> VentaDeSerie(t.series, t.cabeceras[i]))
    && (forall i :: 0 <= i < |t.documentos| ==> DocumentoDeSerie(t.series, t.documentos[i]))
  }

  lemma {:induction false} Reparte(v: seq<nat>, d: seq<nat>, a: nat, b: nat)
    requires Repartido(v, d, a, b)
    ensures a <= b && Repartido(v + [b], d, a, b + 1) && Repartido(v, d + [b], a, b + 1)
  {
    assert (v + [b])[..|v|] == v && (d + [b])[..|d|] == d;
  }

  lemma {:induction false} SinNumeros(t: Talonario, id: SerieId)
    requires TalonarioBien(t) && id !in t.series
    ensures NumerosVentas(t.cabeceras, id) == [] && NumerosDocumentos(t.documentos, id) == []
  {
    VentasDeOtras(t.cabeceras, id);
    DocumentosDeOtras(t.documentos, id);
  }

  lemma {:induction false} VentasDeOtras(cs: seq<Cabecera>, id: SerieId)
    requires forall i :: 0 <= i < |cs| ==> cs[i].serie != id
    ensures NumerosVentas(cs, id) == []
  {
    if |cs| > 0 {
      VentasDeOtras(cs[..|cs| - 1], id);
    }
  }

  lemma {:induction false} DocumentosDeOtras(ds: seq<Documento>, id: SerieId)
    requires forall i :: 0 <= i < |ds| ==> ds[i].serie != id
    ensures NumerosDocumentos(ds, id) == []
  {
    if |ds| > 0 {
      DocumentosDeOtras(ds[..|ds| - 1], id);
    }
  }

  lemma {:induction false} VentasAgrega(cs: seq<Cabecera>, c: Cabecera, id: SerieId)
    ensures NumerosVentas(cs + [c], id) == if c.serie == id then NumerosVentas(cs, id) + [c.numero] else NumerosVentas(cs, id)
  {
    assert (cs + [c])[..|cs|] == cs;
  }

  lemma {:induction false} DocumentosAgrega(ds: seq<Documento>, d: Documento, id: SerieId)
    ensures NumerosDocumentos(ds + [d], id) == if d.serie == id then NumerosDocumentos(ds, id) + [d.numero] else NumerosDocumentos(ds, id)
  {
    assert (ds + [d])[..|ds|] == ds;
  }

  /** A series after its next number went to a sale, or to a document. */
  lemma {:induction false} SerieTrasVenta(t: Talonario, c: Cabecera, j: SerieId)
    requires j in t.series && SerieBien(t, j) && c.serie in t.series && c.numero == t.series[c.serie].nextNumber
    ensures SerieBien(t.(series := Avanzar(t.series, c.serie), cabeceras := t.cabeceras + [c]), j)
  {
    VentasAgrega(t.cabeceras, c, j);
    if j == c.serie {
      Reparte(NumerosVentas(t.cabeceras, j), NumerosDocumentos(t.documentos, j), t.series[j].primero, t.series[j].nextNumber);
    }
  }

  lemma {:induction false} SerieTrasDocumento(t: Talonario, d: Documento, j: SerieId)
    requires j in t.series && SerieBien(t, j) && d.serie in t.series && d.numero == t.series[d.serie].nextNumber
    ensures SerieBien(t.(series := Avanzar(t.series, d.serie), documentos := t.documentos + [d]), j)
  {
    DocumentosAgrega(t.documentos, d, j);
    if j == d.serie {
      Reparte(NumerosVentas(t.cabeceras, j), NumerosDocumentos(t.documentos, j), t.series[j].primero, t.series[j].nextNumber);
    }
  }

  lemma {:induction false} NumerarVentaMantiene(t: Talonario, id: SerieId, empresa: EmpresaId, sucursal: SucursalId, conCliente: bool)
    requires TalonarioBien(t) && NumerarVenta(t, id, empresa, sucursal, conCliente).Ok?
    ensures TalonarioBien(NumerarVenta(t, id, empresa, sucursal, conCliente).value)
  {
    var t' := NumerarVenta(t, id, empresa, sucursal, conCliente).value;
    forall j | j in t'.series ensures SerieBien(t', j) {
      SerieTrasVenta(t, CabeceraDe(t, id, empresa, sucursal, conCliente), j);
    }
  }

  lemma {:induction false} NumerarDocumentoMantiene(t: Talonario, id: SerieId, empresa: EmpresaId, tipo: TipoDocumento, venta: nat)
    requires TalonarioBien(t) && NumerarDocumento(t, id, empresa, tipo, venta).Ok?
    requires tipo != NOTA_CREDITO ==> t.series[id].empresa == empresa
    ensures TalonarioBien(NumerarDocumento(t, id, empresa, tipo, venta).value)
  {
    var t' := NumerarDocumento(t, id, empresa, tipo, venta).value;
    forall j | j in t'.series ensures SerieBien(t', j) {
      SerieTrasDocumento(t, Documento(empresa, tipo, t.series[id].texto, t.series[id].nextNumber, id, venta, Fiscal.EN_COLA), j);
    }
  }

  lemma {:induction false} SerieNueva(t: Talonario, t': Talonario, id: SerieId)
    requires TalonarioBien(t) && id !in t.series && id in t'.series && t'.series[id].primero == t'.series[id].nextNumber
    requires t'.cabeceras == t.cabeceras && t'.documentos == t.documentos
    ensures SerieBien(t', id)
  {
    SinNumeros(t, id);
  }

  lemma {:induction false} SerieIgual(t: Talonario, t': Talonario, id: SerieId)
    requires id in t.series && SerieBien(t, id) && id in t'.series
    requires t'.series[id].primero == t.series[id].primero && t'.series[id].nextNumber == t.series[id].nextNumber
    requires t'.cabeceras == t.cabeceras && t'.documentos == t.documentos
    ensures SerieBien(t', id)
  {
  }

  lemma {:induction false} CrearSerieMantiene(t: Talonario, id: SerieId, empresa: EmpresaId, tipo: TipoDocumento, texto: string, primero: nat)
    requires TalonarioBien(t) && CrearSerie(t, id, empresa, tipo, texto, primero).Ok?
    ensures TalonarioBien(CrearSerie(t, id, empresa, tipo, texto, primero).value)
  {
    var t' := CrearSerie(t, id, empresa, tipo, texto, primero).value;
    forall j | j in t'.series ensures SerieBien(t', j) {
      if j == id { SerieNueva(t, t', id); } else { SerieIgual(t, t', j); }
    }
  }

  lemma {:induction false} CambiarEstadoMantiene(t: Talonario, id: SerieId, activar: bool)
    requires TalonarioBien(t) && CambiarEstado(t, id, activar).Ok?
    ensures TalonarioBien(CambiarEstado(t, id, activar).value)
  {
    var t' := CambiarEstado(t, id, activar).value;
    forall j | j in t'.series ensures SerieBien(t', j) {
      SerieIgual(t, t', j);
    }
  }

  lemma {:induction false} MismosNumeros(ds: seq<Documento>, ds': seq<Documento>, id: SerieId)
    requires |ds| == |ds'| && forall i :: 0 <= i < |ds| ==> ds'[i].serie == ds[i].serie && ds'[i].numero == ds[i].numero
    ensures NumerosDocumentos(ds', id) == NumerosDocumentos(ds, id)
  {
    if |ds| > 0 {
      MismosNumeros(ds[..|ds| - 1], ds'[..|ds| - 1], id);
    }
  }

  ghost predicate Creciente(xs: seq<nat>, a: nat, b: nat) {
    (forall i, j :: 0 <= i < j < |xs| ==> xs[i] < xs[j]) && forall i :: 0 <= i < |xs| ==> a <= xs[i] < b
  }

  /** Both lists are in order and among the numbers given. */
  lemma {:induction false} EnOrden(v: seq<nat>, d: seq<nat>, a: nat, b: nat)
    requires Repartido(v, d, a, b)
    ensures a <= b && |v| + |d| == b - a && Creciente(v, a, b) && Creciente(d, a, b)
    decreases b
  {
    if b > a {
      var i, j := |v| - 1, |d| - 1;
      if i >= 0 && v[i] == b - 1 && Repartido(v[..i], d, a, b - 1) {
        EnOrden(v[..i], d, a, b - 1);
      } else {
        EnOrden(v, d[..j], a, b - 1);
      }
    }
  }

  lemma {:induction false} EnLista(xs: seq<nat>, k: nat)
    requires |xs| > 0
    ensures k in xs <==> k in xs[..|xs| - 1] || k == xs[|xs| - 1]
  {
    assert xs == xs[..|xs| - 1] + [xs[|xs| - 1]];
  }

  /** Each number given has exactly one holder, a sale or a document. */
  lemma {:induction false} UnTitular(v: seq<nat>, d: seq<nat>, a: nat, b: nat, k: nat)
    requires Repartido(v, d, a, b)
    ensures (k in v || k in d <==> a <= k < b) && !(k in v && k in d)
    decreases b
  {
    if b > a {
      var i, j := |v| - 1, |d| - 1;
      if i >= 0 && v[i] == b - 1 && Repartido(v[..i], d, a, b - 1) {
        UnTitular(v[..i], d, a, b - 1, k);
        EnLista(v, k);
      } else {
        UnTitular(v, d[..j], a, b - 1, k);
        EnLista(d, k);
      }
    }
  }

  /** The sales alone hold every number, in order and without a gap, if and only if no document took
      one of the series. */
  lemma {:induction false} SinHuecosSii(v: seq<nat>, d: seq<nat>, a: nat, b: nat)
    requires Repartido(v, d, a, b)
    ensures v == Intervalo(a, b) <==> d == []
    decreases b
  {
    EnOrden(v, d, a, b);
    if d == [] && b > a {
      SinHuecosSii(v[..|v| - 1], d, a, b - 1);
      assert v == v[..|v| - 1] + [v[|v| - 1]];
    }
  }

  // ------------------------------------------------------------------ when a number is refused

  /** The next number of the series is one a sale of the branch already prints. */
  predicate Atascada(t: Talonario, id: SerieId, sucursal: SucursalId) {
    id in t.series && NumeroOcupado(t.cabeceras, sucursal, t.series[id].texto, t.series[id].nextNumber)
  }

  /** The branch has a sale with that number of another series of the same text. */
  predicate DeOtraSerie(t: Talonario, id: SerieId, sucursal: SucursalId, i: nat)
    requires id in t.series
  {
    && i < |t.cabeceras| && t.cabeceras[i].serie != id && t.cabeceras[i].sucursal == sucursal
    && t.cabeceras[i].texto == t.series[id].texto && t.cabeceras[i].numero == t.series[id].nextNumber
  }

  lemma {:induction false} NumeroMenor(t: Talonario, i: nat)
    requires TalonarioBien(t) && i < |t.cabeceras|
    ensures t.cabeceras[i].serie in t.series && t.cabeceras[i].numero < t.series[t.cabeceras[i].serie].nextNumber
  {
    var id := t.cabeceras[i].serie;
    NumeroListado(t.cabeceras, i);
    assert SerieBien(t, id) && VentaDeSerie(t.series, t.cabeceras[i]);
    UnTitular(NumerosVentas(t.cabeceras, id), NumerosDocumentos(t.documentos, id), t.series[id].primero, t.series[id].nextNumber,
             t.cabeceras[i].numero);
  }

  lemma {:induction false} NumeroListado(cs: seq<Cabecera>, i: nat)
    requires i < |cs|
    ensures cs[i].numero in NumerosVentas(cs, cs[i].serie)
  {
    if i < |cs| - 1 {
      NumeroListado(cs[..|cs| - 1], i);
    }
  }

  /** A series refuses a sale for its number if and only if another series of the same text already gave
      the branch that number. */
  lemma {:induction false} AtascadaSii(t: Talonario, id: SerieId, empresa: EmpresaId, sucursal: SucursalId, conCliente: bool)
    requires TalonarioBien(t) && SerieLista(t.series, id)
    ensures NumerarVenta(t, id, empresa, sucursal, conCliente).Err? <==> exists i :: DeOtraSerie(t, id, sucursal, i)
  {
    if Atascada(t, id, sucursal) {
      var texto, numero := t.series[id].texto, t.series[id].nextNumber;
      var i: nat :| i < |t.cabeceras| && t.cabeceras[i].sucursal == sucursal && t.cabeceras[i].texto == texto && t.cabeceras[i].numero == numero;
      NumeroMenor(t, i);
      assert DeOtraSerie(t, id, sucursal, i);
    }
  }

  /** That other series is of another type or of another company. */
  lemma {:induction false} OtraSerieDistinta(t: Talonario, id: SerieId, sucursal: SucursalId, i: nat)
    requires TalonarioBien(t) && id in t.series && DeOtraSerie(t, id, sucursal, i)
    ensures var otra := t.cabeceras[i].serie;
      otra in t.series && (t.series[otra].tipo != t.series[id].tipo || t.series[otra].empresa != t.series[id].empresa)
  {
    assert VentaDeSerie(t.series, t.cabeceras[i]);
  }

  lemma {:induction false} DocumentoMenor(t: Talonario, i: nat)
    requires TalonarioBien(t) && i < |t.documentos|
    ensures t.documentos[i].serie in t.series && t.documentos[i].numero < t.series[t.documentos[i].serie].nextNumber
  {
    var id := t.documentos[i].serie;
    DocumentoListado(t.documentos, i);
    assert SerieBien(t, id) && DocumentoDeSerie(t.series, t.documentos[i]);
    UnTitular(NumerosVentas(t.cabeceras, id), NumerosDocumentos(t.documentos, id), t.series[id].primero, t.series[id].nextNumber,
             t.documentos[i].numero);
  }

  lemma {:induction false} DocumentoListado(ds: seq<Documento>, i: nat)
    requires i < |ds|
    ensures ds[i].numero in NumerosDocumentos(ds, ds[i].serie)
  {
    if i < |ds| - 1 {
      DocumentoListado(ds[..|ds| - 1], i);
    }
  }

  /** The unique index of documents never refuses one that is not a credit note and whose series is of
      its company: only numbers of the same series could clash, and those are all below the next. */
  lemma {:induction false} DocumentoLibre(t: Talonario, id: SerieId)
    requires TalonarioBien(t) && id in t.series && t.series[id].tipo != NOTA_CREDITO
    ensures var s := t.series[id]; !DocumentoOcupado(t.documentos, s.empresa, s.tipo, s.texto, s.nextNumber)
  {
    forall i: nat | i < |t.documentos| ensures DocumentoDeSerie(t.series, t.documentos[i])
      ensures t.documentos[i].serie == id ==> t.documentos[i].numero < t.series[id].nextNumber {
      DocumentoMenor(t, i);
    }
  }
}
